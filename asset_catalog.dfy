/**
 * The asset bundle catalogue the asset manager reads: one `AssetBundleInfo`
 * per bundle (its name and the names of the bundles it depends on), the
 * search that maps an asset path to its bundle, and the few runtime types
 * the loader asks about.
 */
module AssetCatalog {
  import opened Wrappers
  import opened Text

  /** A `System.Type`, identified by its full name. */
  datatype TypeRef = TypeRef(name: string)

  const GameObject := TypeRef("UnityEngine.GameObject")
  const MonoBehaviour := TypeRef("UnityEngine.MonoBehaviour")

  /**
   * `Type.IsSubclassOf` for the types the program loads, as the set of
   * (subclass, ancestor) pairs. The relation is supplied by the runtime.
   */
  type Hierarchy = set<(TypeRef, TypeRef)>

  predicate IsSubclassOf(h: Hierarchy, sub: TypeRef, ancestor: TypeRef)
  {
    (sub, ancestor) in h
  }

  /**
   * One entry of the bundle list. `dependencies` is `None` when the
   * manifest gives no array. `rank` is a proof device: a dependency always
   * has a smaller rank than the bundle that names it (see `Manifest`).
   */
  class AssetBundleInfo {
    const assetBundleName: string
    const dependencies: Option<seq<string>>
    ghost const rank: nat

    constructor (assetBundleName: string, dependencies: Option<seq<string>>, ghost rank: nat)
      ensures this.assetBundleName == assetBundleName && this.dependencies == dependencies && this.rank == rank
    {
      this.assetBundleName := assetBundleName;
      this.dependencies := dependencies;
      this.rank := rank;
    }
  }

  /** The first entry whose name equals `path` ignoring case (the first loop of `FindAssetBundleInfo`). */
  function ExactMatch(infos: seq<AssetBundleInfo>, path: string, from: nat): (r: Option<nat>)
    requires from <= |infos|
    decreases |infos| - from
    ensures r.Some? ==> from <= r.value < |infos| && EqualsIgnoreCase(path, infos[r.value].assetBundleName)
    ensures r.Some? ==> forall j :: from <= j < r.value ==> !EqualsIgnoreCase(path, infos[j].assetBundleName)
    ensures r.None? ==> forall j :: from <= j < |infos| ==> !EqualsIgnoreCase(path, infos[j].assetBundleName)
  {
    if from == |infos| then None
    else if EqualsIgnoreCase(path, infos[from].assetBundleName) then Some(from)
    else ExactMatch(infos, path, from + 1)
  }

  /** The first entry whose name occurs in `lowerPath` (the second loop). */
  function ContainedMatch(infos: seq<AssetBundleInfo>, lowerPath: string, from: nat): (r: Option<nat>)
    requires from <= |infos|
    decreases |infos| - from
    ensures r.Some? ==> from <= r.value < |infos| && Contains(lowerPath, infos[r.value].assetBundleName)
    ensures r.Some? ==> forall j :: from <= j < r.value ==> !Contains(lowerPath, infos[j].assetBundleName)
    ensures r.None? ==> forall j :: from <= j < |infos| ==> !Contains(lowerPath, infos[j].assetBundleName)
  {
    if from == |infos| then None
    else if Contains(lowerPath, infos[from].assetBundleName) then Some(from)
    else ContainedMatch(infos, lowerPath, from + 1)
  }

  /**
   * The index of the bundle that holds `path`: an entry named exactly
   * `path` (ignoring case) wins; otherwise the first entry whose name is a
   * substring of the lower-cased path; `None` (null) when neither exists.
   */
  function BundleInfoFor(infos: seq<AssetBundleInfo>, path: string): (r: Option<nat>)
    ensures r.Some? ==> r.value < |infos|
  {
    match ExactMatch(infos, path, 0)
    case Some(i) => Some(i)
    case None => ContainedMatch(infos, ToLower(path), 0)
  }

  /** What `BundleInfoFor` chooses, stated on the catalogue alone. */
  lemma BundleInfoForChoice(infos: seq<AssetBundleInfo>, path: string)
    ensures (exists i :: 0 <= i < |infos| && EqualsIgnoreCase(path, infos[i].assetBundleName)) ==>
              BundleInfoFor(infos, path).Some? && EqualsIgnoreCase(path, infos[BundleInfoFor(infos, path).value].assetBundleName) &&
              forall j :: 0 <= j < BundleInfoFor(infos, path).value ==> !EqualsIgnoreCase(path, infos[j].assetBundleName)
    ensures (forall i :: 0 <= i < |infos| ==> !EqualsIgnoreCase(path, infos[i].assetBundleName)) ==>
              (BundleInfoFor(infos, path).Some? <==> exists i :: 0 <= i < |infos| && Contains(ToLower(path), infos[i].assetBundleName))
    ensures (forall i :: 0 <= i < |infos| ==> !EqualsIgnoreCase(path, infos[i].assetBundleName)) && BundleInfoFor(infos, path).Some? ==>
              Contains(ToLower(path), infos[BundleInfoFor(infos, path).value].assetBundleName) &&
              forall j :: 0 <= j < BundleInfoFor(infos, path).value ==> !Contains(ToLower(path), infos[j].assetBundleName)
  {
    var e := ExactMatch(infos, path, 0);
    if e.None? {
      var c := ContainedMatch(infos, ToLower(path), 0);
    }
  }

  /**
   * The catalogue is loadable: every dependency name of every entry
   * resolves, through the same search, to an entry of smaller rank. With a
   * name that does not resolve the bundle constructor dereferences null;
   * with a dependency cycle the synchronous load and the unload recurse
   * without end.
   */
  ghost predicate Manifest(infos: seq<AssetBundleInfo>)
  {
    forall i :: 0 <= i < |infos| && infos[i].dependencies.Some? ==> DependenciesResolve(infos, infos[i])
  }

  /** A loadable catalogue. */
  type Catalog = infos: seq<AssetBundleInfo> | Manifest(infos) witness []

  ghost predicate DependenciesResolve(infos: seq<AssetBundleInfo>, info: AssetBundleInfo)
    requires info.dependencies.Some?
  {
    forall k :: 0 <= k < |info.dependencies.value| ==> ResolvesBelow(infos, info.dependencies.value[k], info.rank)
  }

  ghost predicate ResolvesBelow(infos: seq<AssetBundleInfo>, name: string, rank: nat)
  {
    BundleInfoFor(infos, name).Some? && infos[BundleInfoFor(infos, name).value].rank < rank
  }

  /** An entry named after a path is found by that path whatever the case of its letters. */
  lemma FindsOwnName(infos: seq<AssetBundleInfo>, i: nat, path: string)
    requires i < |infos| && ToLower(path) == ToLower(infos[i].assetBundleName)
    requires forall j :: 0 <= j < i ==> !EqualsIgnoreCase(path, infos[j].assetBundleName)
    ensures BundleInfoFor(infos, path) == Some(i)
  {
    assert EqualsIgnoreCase(path, infos[i].assetBundleName);
  }
}
