/**
 * The asset loader: asset handlers (loaded from `Resources`, from an asset
 * bundle, or a placeholder for scenes in the editor), the bundle handlers
 * they share, and the asset manager that finds or creates handlers, counts
 * references, queues completion callbacks and starts at most
 * `maxThreadCount` loads at a time.
 *
 * The engine's asynchronous requests are the `fetches` of the manager; the
 * environment completes them, in any order, through `CompleteFetch`. Work
 * deferred by `StartDelayActionCoroutine` is the manager's `tasks`, run by
 * `RunNextFrame`. Closures become the `BundleCallback` and `UserCallback`
 * values; the callbacks of the program's callers are not modelled beyond
 * recording, in `drained`, which queued entries were invoked and in which
 * order.
 */
module AssetLoading {
  import opened Wrappers
  import opened Text
  import opened Sequences
  import opened AssetCatalog

  /** `Status.None`, `Status.Loading`, `Status.Completed` (the same enum for assets and bundles). */
  datatype Status = NotStarted | Loading | Completed

  /** What a load produced: an engine object, the editor's object at a path, or a component of an object. */
  datatype Asset = EngineObject(id: nat) | AtPath(assetPath: string, assetType: Option<TypeRef>) | ComponentOf(owner: Asset, componentType: Option<TypeRef>)

  /** A loaded `AssetBundle`: its name and whether it holds streamed scenes. */
  datatype LoadedBundle = LoadedBundle(name: string, isStreamedSceneAssetBundle: bool)

  /** The three `AssetHandler` subclasses. */
  datatype AssetKind = ResourcesAsset | BundleAsset | DummyAsset

  /**
   * The closures passed to `AssetBundleHandler.LoadAsync`: the bundle of an
   * asset is ready (`AssetBundleAssetHandler.LoadAsync`), or a dependency
   * of `parent` is ready and `parent` must be reloaded with `next`.
   */
  datatype BundleCallback = AssetReady(asset: AssetHandler) | DependencyReady(parent: AssetBundleHandler, next: BundleCallback)

  /** A caller's completion callback: `listener` is `None` when the caller passed null. */
  datatype UserCallback = AssetCallback(listener: Option<nat>) | SceneCallback(listener: Option<nat>)

  /** An entry of the manager's `callbacks` list. */
  datatype PendingCallback = Pending(handler: AssetHandler, callback: UserCallback)

  /** An engine request in flight and the handler its completion continues. */
  datatype Fetch =
    | ResourcesRequest(handler: AssetHandler, path: string, assetType: Option<TypeRef>)
    | BundleFileRequest(bundle: AssetBundleHandler, onLoaded: BundleCallback)
    | BundleAssetRequest(handler: AssetHandler, file: LoadedBundle, query: AssetQuery)

  /** Work deferred to the next frame. */
  datatype Task = DrainCallbacks | EditorAssetLoaded(handler: AssetHandler, assetPath: string) | DummyLoaded(handler: AssetHandler)

  /** The `Debug.LogError` messages of the loader. */
  datatype ErrorMessage = AssetIsLoading(path: string) | BundleIsLoading(bundleName: string) | NoBundleInfo(path: string)

  /** `FindAssetHandler`'s match: same path ignoring case, and the type unspecified, equal or a base type. */
  predicate HandlerMatches(h: AssetHandler, path: string, assetType: Option<TypeRef>, hierarchy: Hierarchy)
  {
    EqualsIgnoreCase(path, h.path) &&
    (assetType.None? || assetType == h.assetType || (h.assetType.Some? && IsSubclassOf(hierarchy, h.assetType.value, assetType.value)))
  }

  function FirstMatch(hs: seq<AssetHandler>, path: string, assetType: Option<TypeRef>, hierarchy: Hierarchy): (r: Option<nat>)
    ensures r.Some? ==> r.value < |hs| && HandlerMatches(hs[r.value], path, assetType, hierarchy)
    ensures r.Some? ==> forall j :: 0 <= j < r.value ==> !HandlerMatches(hs[j], path, assetType, hierarchy)
    ensures r.None? <==> forall j :: 0 <= j < |hs| ==> !HandlerMatches(hs[j], path, assetType, hierarchy)
  {
    if hs == [] then None
    else if HandlerMatches(hs[0], path, assetType, hierarchy) then Some(0)
    else match FirstMatch(hs[1..], path, assetType, hierarchy)
      case None => None
      case Some(k) => Some(k + 1)
  }

  /** `handlers.Find(x => x.info == info)` over the bundle table. */
  function FindBundle(bundles: seq<AssetBundleHandler>, info: AssetBundleInfo): (r: Option<nat>)
    ensures r.Some? ==> r.value < |bundles| && bundles[r.value].info == info
    ensures r.Some? ==> forall j :: 0 <= j < r.value ==> bundles[j].info != info
    ensures r.None? <==> forall j :: 0 <= j < |bundles| ==> bundles[j].info != info
  {
    if bundles == [] then None
    else if bundles[0].info == info then Some(0)
    else match FindBundle(bundles[1..], info)
      case None => None
      case Some(k) => Some(k + 1)
  }

  /** At most one bundle handler per bundle info. */
  predicate UniqueInfos(bundles: seq<AssetBundleHandler>)
  {
    NoDuplicates(bundles) && forall a, b :: a in bundles && b in bundles && a.info == b.info ==> a == b
  }

  /** The bundle table holds distinct known handlers, at most one per bundle info. */
  predicate TableOk(bundles: seq<AssetBundleHandler>, reprs: set<AssetBundleHandler>)
  {
    (forall b :: b in bundles ==> b in reprs) && UniqueInfos(bundles)
  }

  lemma TableOkRemove(bundles: seq<AssetBundleHandler>, reprs: set<AssetBundleHandler>, b: AssetBundleHandler)
    requires TableOk(bundles, reprs)
    ensures TableOk(RemoveFirst(bundles, b), reprs)
    ensures forall x :: x in RemoveFirst(bundles, b) <==> x in bundles && x != b
  {
    RemoveFirstNoDuplicates(bundles, b);
  }

  lemma TableOkAdd(bundles: seq<AssetBundleHandler>, reprs: set<AssetBundleHandler>, b: AssetBundleHandler)
    requires TableOk(bundles, reprs) && FindBundle(bundles, b.info).None?
    ensures TableOk(bundles + [b], reprs + {b})
  {
  }

  /** `callbacks.RemoveAll(x => x.handler == h)`. */
  function WithoutHandler(cs: seq<PendingCallback>, h: AssetHandler): (r: seq<PendingCallback>)
    ensures forall i :: 0 <= i < |r| ==> r[i] in cs && r[i].handler != h
    ensures forall i :: 0 <= i < |cs| && cs[i].handler != h ==> cs[i] in r
    ensures |r| <= |cs|
  {
    if cs == [] then []
    else (if cs[0].handler == h then [] else [cs[0]]) + WithoutHandler(cs[1..], h)
  }

  /** `WithoutHandler` keeps the order of the entries it keeps: it distributes over concatenation. */
  lemma {:induction false} WithoutHandlerAppend(a: seq<PendingCallback>, b: seq<PendingCallback>, h: AssetHandler)
    ensures WithoutHandler(a + b, h) == WithoutHandler(a, h) + WithoutHandler(b, h)
  {
    if a == [] {
      assert a + b == b;
    } else {
      assert (a + b)[0] == a[0] && (a + b)[1..] == a[1..] + b;
      WithoutHandlerAppend(a[1..], b, h);
    }
  }

  /** A list without entries of `h` is left as it is. */
  lemma {:induction false} WithoutHandlerNone(cs: seq<PendingCallback>, h: AssetHandler)
    requires forall i :: 0 <= i < |cs| ==> cs[i].handler != h
    ensures WithoutHandler(cs, h) == cs
  {
    if cs != [] {
      WithoutHandlerNone(cs[1..], h);
      assert cs == [cs[0]] + cs[1..];
    }
  }

  /**
   * The callback queue went from `q` to `q'` by invoking and removing a
   * prefix: `q'` is a suffix of `q` and the log grew by exactly the
   * removed entries, in queue order.
   */
  predicate Drained(q: seq<PendingCallback>, log: seq<PendingCallback>, q': seq<PendingCallback>, log': seq<PendingCallback>)
  {
    |q'| <= |q| && q' == q[|q| - |q'|..] && log' == log + q[..|q| - |q'|]
  }

  lemma DrainedTransitive(q0: seq<PendingCallback>, l0: seq<PendingCallback>, q1: seq<PendingCallback>, l1: seq<PendingCallback>,
                          q2: seq<PendingCallback>, l2: seq<PendingCallback>)
    requires Drained(q0, l0, q1, l1) && Drained(q1, l1, q2, l2)
    ensures Drained(q0, l0, q2, l2)
  {
    var n1 := |q0| - |q1|;
    var n2 := |q1| - |q2|;
    assert q0[..n1 + n2] == q0[..n1] + q1[..n2];
  }

  /** The statuses of `hs`, in list order. */
  function Statuses(hs: seq<AssetHandler>): (r: seq<Status>)
    reads hs`status
    ensures |r| == |hs| && forall i :: 0 <= i < |hs| ==> r[i] == hs[i].status
  {
    if hs == [] then [] else Statuses(hs[..|hs| - 1]) + [hs[|hs| - 1].status]
  }

  /**
   * The early return of `LoadStartIfCan`: the count of loading handlers is
   * compared with `maxThreadCount` only right after it grows, so the
   * threads are full when at least one handler is loading and at least
   * `maxThreadCount` are.
   */
  predicate Saturated(ss: seq<Status>, maxThreadCount: int)
  {
    LoadingCount(ss) > 0 && LoadingCount(ss) >= maxThreadCount
  }

  /** How many of `ss` are `Loading`. */
  function LoadingCount(ss: seq<Status>): (n: nat)
    ensures n <= |ss|
  {
    if ss == [] then 0 else LoadingCount(ss[..|ss| - 1]) + (if ss[|ss| - 1] == Loading then 1 else 0)
  }

  lemma LoadingCountSnoc(ss: seq<Status>, x: Status)
    ensures LoadingCount(ss + [x]) == LoadingCount(ss) + (if x == Loading then 1 else 0)
  {
    assert (ss + [x])[..|ss|] == ss;
  }

  /** One more status taken into the counted prefix. */
  lemma LoadingCountStep(ss: seq<Status>, i: nat)
    requires i < |ss|
    ensures LoadingCount(ss[..i + 1]) == LoadingCount(ss[..i]) + (if ss[i] == Loading then 1 else 0)
  {
    assert ss[..i + 1][..i] == ss[..i];
  }

  /** A prefix counts no more loading handlers than the whole list. */
  lemma {:induction false} LoadingCountPrefix(ss: seq<Status>, i: nat)
    requires i <= |ss|
    ensures LoadingCount(ss[..i]) <= LoadingCount(ss)
  {
    if i < |ss| {
      assert ss[..|ss| - 1][..i] == ss[..i];
      LoadingCountPrefix(ss[..|ss| - 1], i);
    } else {
      assert ss[..i] == ss;
    }
  }

  /** The position of the first status that is `NotStarted` (`handlers.Find`). */
  function FirstNotStarted(ss: seq<Status>): (r: Option<nat>)
    ensures r.Some? ==> r.value < |ss| && ss[r.value] == NotStarted && forall j :: 0 <= j < r.value ==> ss[j] != NotStarted
    ensures r.None? <==> forall j :: 0 <= j < |ss| ==> ss[j] != NotStarted
  {
    if ss == [] then None
    else if ss[0] == NotStarted then Some(0)
    else match FirstNotStarted(ss[1..])
      case None => None
      case Some(k) => Some(k + 1)
  }

  /** The statuses of `bs`, in list order; `Statuses` for the bundle handlers, a class of their own. */
  function BundleStatuses(bs: seq<AssetBundleHandler>): (r: seq<Status>)
    reads bs`status
    ensures |r| == |bs| && forall i :: 0 <= i < |bs| ==> r[i] == bs[i].status
  {
    if bs == [] then [] else BundleStatuses(bs[..|bs| - 1]) + [bs[|bs| - 1].status]
  }

  /** The position of the first status that is not `Completed`. */
  function FirstUnfinished(ss: seq<Status>): (r: Option<nat>)
    ensures r.Some? ==> r.value < |ss| && ss[r.value] != Completed && forall j :: 0 <= j < r.value ==> ss[j] == Completed
    ensures r.None? <==> forall j :: 0 <= j < |ss| ==> ss[j] == Completed
  {
    if ss == [] then None
    else if ss[0] != Completed then Some(0)
    else match FirstUnfinished(ss[1..])
      case None => None
      case Some(k) => Some(k + 1)
  }

  /**
   * Progress between two states of the loader: no asset handler went back
   * to not started or left completed, the callback queue was only drained
   * from its front, and engine requests and deferred tasks were only
   * appended.
   */
  predicate Advance(w: set<AssetHandler>, done: set<AssetHandler>, c: seq<PendingCallback>, d: seq<PendingCallback>, f: seq<Fetch>, t: seq<Task>,
                    w': set<AssetHandler>, done': set<AssetHandler>, c': seq<PendingCallback>, d': seq<PendingCallback>, f': seq<Fetch>, t': seq<Task>)
  {
    w' <= w && done <= done' && Drained(c, d, c', d') && f <= f' && t <= t'
  }

  lemma AdvanceCompose(w0: set<AssetHandler>, done0: set<AssetHandler>, c0: seq<PendingCallback>, d0: seq<PendingCallback>, f0: seq<Fetch>, t0: seq<Task>,
                       w1: set<AssetHandler>, done1: set<AssetHandler>, c1: seq<PendingCallback>, d1: seq<PendingCallback>, f1: seq<Fetch>, t1: seq<Task>,
                       w2: set<AssetHandler>, done2: set<AssetHandler>, c2: seq<PendingCallback>, d2: seq<PendingCallback>, f2: seq<Fetch>, t2: seq<Task>)
    requires Advance(w0, done0, c0, d0, f0, t0, w1, done1, c1, d1, f1, t1)
    requires Advance(w1, done1, c1, d1, f1, t1, w2, done2, c2, d2, f2, t2)
    ensures Advance(w0, done0, c0, d0, f0, t0, w2, done2, c2, d2, f2, t2)
  {
    DrainedTransitive(c0, d0, c1, d1, c2, d2);
  }

  /**
   * What a load of a bundle that is not yet completed does to the rest of
   * the loader: no callback runs, so the queue, the tasks and every asset
   * status stay as they were, and bundles only move from not started to
   * loading. `starting` is the one asset handler, if any, that went from
   * not started to loading.
   */
  twostate predicate Quiet(m: AssetManager, starting: AssetHandler?)
    reads m`callbacks, m`drained, m`tasks, m`assetReprs, m`bundleReprs, m.assetReprs`status, m.bundleReprs`status
  {
    m.callbacks == old(m.callbacks) && m.drained == old(m.drained) && m.tasks == old(m.tasks) &&
    (forall x :: x in m.assetReprs && x in old(m.assetReprs) ==> x.status == old(x.status) || x == starting) &&
    (forall x :: x in m.bundleReprs && x in old(m.bundleReprs) ==> x.status == old(x.status) || (old(x.status) == NotStarted && x.status == Loading))
  }

  /**
   * A chain of bundle callbacks climbs the dependency graph: each
   * `DependencyReady` link restarts a bundle of higher rank than the one
   * the link after it restarts.
   */
  ghost predicate Ranked(cb: BundleCallback)
  {
    match cb
    case AssetReady(_) => true
    case DependencyReady(p, next) => (next.DependencyReady? ==> p.info.rank < next.parent.info.rank) && Ranked(next)
  }

  /** `cb` is a ranked chain left on a bundle of rank `r`: whatever it restarts ranks above `r`. */
  ghost predicate RankedAbove(cb: BundleCallback, r: nat)
  {
    Ranked(cb) && (cb.DependencyReady? ==> r < cb.parent.info.rank)
  }

  /** The bundle that running `cb` puts back to not started, if any. */
  function Resets(cb: BundleCallback): set<AssetBundleHandler>
  {
    if cb.DependencyReady? then {cb.parent} else {}
  }

  /** The bundles that running the callbacks `cbs` puts back to not started. */
  function ResetsOf(cbs: seq<BundleCallback>): set<AssetBundleHandler>
  {
    set c | c in cbs && c.DependencyReady? :: c.parent
  }

  /** Callbacks left on a bundle of rank `r` never put that bundle back to not started. */
  lemma NotReset(b: AssetBundleHandler, cbs: seq<BundleCallback>)
    requires forall c :: c in cbs ==> RankedAbove(c, b.info.rank)
    ensures b !in ResetsOf(cbs)
  {
  }

  /**
   * Between two snapshots of the bundles' statuses, every bundle outside
   * `reset` kept its status or went from not started to loading.
   */
  ghost predicate OnlyStarted(before: map<AssetBundleHandler, Status>, after: map<AssetBundleHandler, Status>,
                              reset: set<AssetBundleHandler>)
  {
    forall x :: x in before && x !in reset ==>
      x in after && (after[x] == before[x] || (before[x] == NotStarted && after[x] == Loading))
  }

  lemma OnlyStartedCompose(s0: map<AssetBundleHandler, Status>, s1: map<AssetBundleHandler, Status>, s2: map<AssetBundleHandler, Status>,
                           r0: set<AssetBundleHandler>, r1: set<AssetBundleHandler>, r: set<AssetBundleHandler>)
    requires OnlyStarted(s0, s1, r0) && OnlyStarted(s1, s2, r1) && r0 <= r && r1 <= r
    ensures OnlyStarted(s0, s2, r)
  {
  }

  /**
   * After a new handler joined the end of `hs` (statuses `before` until
   * then), the first handler that had not started has left `NotStarted`.
   */
  predicate StartedFirst(before: seq<Status>, hs: seq<AssetHandler>)
    reads hs`status
  {
    |hs| == |before| + 1 &&
    var k := FirstNotStarted(before + [NotStarted]);
    k.Some? && k.value < |hs| && hs[k.value].status != NotStarted
  }

  /** The statuses of handlers whose statuses did not change. */
  twostate lemma {:induction false} StatusesKept(hs: seq<AssetHandler>)
    requires forall i :: 0 <= i < |hs| ==> hs[i].status == old(hs[i].status)
    ensures Statuses(hs) == old(Statuses(hs))
  {
    if hs != [] {
      StatusesKept(hs[..|hs| - 1]);
    }
  }

  /**
   * `LoadStartIfCan` run just after a handler that has not started joined
   * handlers whose statuses were `before`: unless those were saturated,
   * the first of them not started, or else the new one, has started.
   */
  lemma FirstStarted(before: seq<Status>, ss: seq<Status>, hs: seq<AssetHandler>, maxThreadCount: int)
    requires ss == before + [NotStarted] && |hs| == |ss|
    requires !Saturated(ss, maxThreadCount) && FirstNotStarted(ss).Some? ==> hs[FirstNotStarted(ss).value].status != NotStarted
    ensures !Saturated(before, maxThreadCount) ==> StartedFirst(before, hs)
  {
    LoadingCountSnoc(before, NotStarted);
    assert ss[|before|] == NotStarted;
  }

  lemma StatusesSnoc(hs: seq<AssetHandler>, h: AssetHandler)
    ensures Statuses(hs + [h]) == Statuses(hs) + [h.status]
  {
    assert (hs + [h])[..|hs|] == hs;
  }

  class AssetHandler {
    const kind: AssetKind
    /** The path with every '\' turned into '/'. */
    const path: string
    /** `None` only for the dummy handler and for scene loads. */
    const assetType: Option<TypeRef>
    /** Bundle assets only: the type derives from `MonoBehaviour`. */
    const isMonoBehaviour: bool
    var status: Status
    var asset: Option<Asset>
    var referenceCount: int
    /** When set the handler is never unloaded. */
    var isDontDestroy: bool
    /** Bundle assets only: the bundle holding the asset; null once unloaded. */
    var handler: AssetBundleHandler?

    /** The state every handler is made in: not started, no asset, one reference, not pinned. */
    predicate Unstarted()
      reads this`status, this`asset, this`referenceCount, this`isDontDestroy
    {
      status == NotStarted && asset.None? && referenceCount == 1 && !isDontDestroy
    }

    predicate IsUnloadable()
      reads this`isDontDestroy, this`referenceCount, this`status
    {
      !isDontDestroy && referenceCount <= 0 && status != Loading
    }

    /** `new ResourcesAssetHandler(path, type)`. */
    constructor Resources(path: string, assetType: TypeRef)
      ensures kind == ResourcesAsset && this.path == ReplaceChar(path, '\\', '/') && this.assetType == Some(assetType)
      ensures Unstarted() && handler == null
      ensures !isMonoBehaviour
    {
      kind := ResourcesAsset;
      this.path := ReplaceChar(path, '\\', '/');
      this.assetType := Some(assetType);
      isMonoBehaviour := false;
      status := NotStarted;
      asset := None;
      referenceCount := 1;
      isDontDestroy := false;
      handler := null;
    }

    /** `new DummyAssetHandler(path)`: a handler without a type. */
    constructor Dummy(path: string)
      ensures kind == DummyAsset && this.path == ReplaceChar(path, '\\', '/') && this.assetType.None?
      ensures Unstarted() && handler == null
      ensures !isMonoBehaviour
    {
      kind := DummyAsset;
      this.path := ReplaceChar(path, '\\', '/');
      this.assetType := None;
      isMonoBehaviour := false;
      status := NotStarted;
      asset := None;
      referenceCount := 1;
      isDontDestroy := false;
      handler := null;
    }

    /**
     * `new AssetBundleAssetHandler(path, type, info)`: takes the bundle
     * handler for `info`, creating it if needed, and registers as one of
     * its users.
     */
    constructor Bundle(m: AssetManager, path: string, assetType: Option<TypeRef>, info: AssetBundleInfo)
      requires m.Valid() && m.UsersOk() && info in m.infoList
      modifies m`bundles, m`bundleReprs, m`assetReprs, m.bundleReprs`referenceUsers
      ensures kind == BundleAsset && this.path == ReplaceChar(path, '\\', '/') && this.assetType == assetType
      ensures isMonoBehaviour == (assetType.Some? && IsSubclassOf(m.hierarchy, assetType.value, MonoBehaviour))
      ensures Unstarted()
      ensures m.Valid() && m.UsersOk() && old(m.bundleReprs) <= m.bundleReprs && fresh(m.bundleReprs - old(m.bundleReprs))
      ensures m.assetReprs == old(m.assetReprs) + {this}
      ensures handler != null && handler in m.bundleReprs && handler.info == info && handler in m.bundles
      ensures old(FindBundle(m.bundles, info)).Some? ==> handler == old(m.bundles[FindBundle(m.bundles, info).value])
      ensures this in handler.referenceUsers
      ensures forall x :: x in m.bundleReprs ==>
                x.referenceUsers == (if x in old(m.bundleReprs) then old(x.referenceUsers) else []) + (if x in handler.reach then [this] else [])
    {
      kind := BundleAsset;
      this.path := ReplaceChar(path, '\\', '/');
      this.assetType := assetType;
      isMonoBehaviour := assetType.Some? && IsSubclassOf(m.hierarchy, assetType.value, MonoBehaviour);
      status := NotStarted;
      asset := None;
      referenceCount := 1;
      isDontDestroy := false;
      handler := null;
      new;
      Join(m, info);
    }

    /** The statements of the bundle asset constructor after the fields: tracked, then attached to the bundle handler for `info`. */
    method Join(m: AssetManager, info: AssetBundleInfo)
      requires m.Valid() && m.UsersOk() && info in m.infoList && handler == null
      modifies this`handler, m`bundles, m`bundleReprs, m`assetReprs, m.bundleReprs`referenceUsers
      ensures m.Valid() && m.UsersOk() && old(m.bundleReprs) <= m.bundleReprs && fresh(m.bundleReprs - old(m.bundleReprs))
      ensures m.assetReprs == old(m.assetReprs) + {this}
      ensures handler != null && handler in m.bundleReprs && handler.info == info && handler in m.bundles
      ensures old(FindBundle(m.bundles, info)).Some? ==> handler == old(m.bundles[FindBundle(m.bundles, info).value])
      ensures this in handler.referenceUsers
      ensures forall x :: x in m.bundleReprs ==>
                x.referenceUsers == (if x in old(m.bundleReprs) then old(x.referenceUsers) else []) + (if x in handler.reach then [this] else [])
    {
      m.Track(this);
      var b := AssetBundleHandler.Take(m, info);
      Attach(m, b);
    }

    /** `this.handler = ...; this.handler.AddReferenceUser(this)` for a handler not yet attached to a bundle. */
    method Attach(m: AssetManager, b: AssetBundleHandler)
      requires m.Valid() && m.UsersOk() && this in m.assetReprs && handler == null && b in m.bundleReprs
      modifies this`handler, m.bundleReprs`referenceUsers
      ensures m.Valid() && m.UsersOk() && handler == b && this in b.referenceUsers
      ensures forall x :: x in m.bundleReprs ==> x.referenceUsers == old(x.referenceUsers) + (if x in b.reach then [this] else [])
    {
      assert forall x :: x in m.bundleReprs ==> this !in x.referenceUsers;
      handler := b;
      assert m.ClosedExcept(this, {});
      b.AddReferenceUser(m, this, {});
      forall x | x in m.bundleReprs
        ensures x.referenceUsers == old(x.referenceUsers) + (if x in b.reach then [this] else [])
      {
        assert UserAdded(x, this, b.reach);
      }
      assert m.UsersHeld() by {
        forall x, u | x in m.bundleReprs && u in x.referenceUsers
          ensures u in m.assetReprs && u.handler != null && u.handler in m.bundleReprs && x in u.handler.reach
        {
          if u != this {
            assert u in old(x.referenceUsers);
          }
        }
      }
    }

    /**
     * `Load()`: a handler that has not started is marked completed (the
     * engine load behind it is not part of this model); one that is
     * loading asynchronously only logs an error.
     */
    method Load(m: AssetManager)
      modifies this`status, m`errors
      ensures old(status) == NotStarted ==> status == Completed && m.errors == old(m.errors)
      ensures old(status) == Loading ==> status == Loading && m.errors == old(m.errors) + [AssetIsLoading(path)]
      ensures old(status) == Completed ==> status == Completed && m.errors == old(m.errors)
    {
      match status
      case NotStarted =>
        status := Completed;
      case Loading =>
        m.errors := m.errors + [AssetIsLoading(path)];
      case Completed =>
    }

    /**
     * `Unload()`: only a bundle asset does anything, and only when it is
     * unloadable: it leaves its bundle handler, which cascades down every
     * bundle that handler reaches, and forgets it.
     */
    method Unload(m: AssetManager)
      requires m.Valid() && m.UsersOk() && this in m.assetReprs
      modifies this`handler, m`bundles, m.bundleReprs`referenceUsers, m.bundleReprs`assetBundle
      ensures m.Valid() && m.UsersOk()
      ensures kind != BundleAsset || !old(IsUnloadable()) ==> handler == old(handler) && m.bundles == old(m.bundles)
      ensures kind != BundleAsset || !old(IsUnloadable()) ==> unchanged(m.bundleReprs`referenceUsers, m.bundleReprs`assetBundle)
      ensures kind == BundleAsset && old(IsUnloadable()) ==> handler == null
      ensures kind == BundleAsset && old(IsUnloadable()) && old(handler) != null ==>
                forall x :: x in m.bundleReprs ==> Cascaded(m, x, this, old(handler.reach)) && this !in x.referenceUsers
      ensures kind == BundleAsset && old(IsUnloadable()) && old(handler) == null ==>
                m.bundles == old(m.bundles) && unchanged(m.bundleReprs`referenceUsers, m.bundleReprs`assetBundle)
    {
      if kind == BundleAsset && IsUnloadable() {
        if handler != null {
          Detach(m);
        }
        handler := null;
      }
    }

    /**
     * The two statements of `Detach`: every bundle the handler reaches loses
     * this user, and no bundle keeps it.
     */
    method LeaveBundle(m: AssetManager)
      requires m.Valid() && m.ReachOk() && this in m.assetReprs && handler != null
      requires forall x :: x in m.bundleReprs && x !in handler.reach ==> this !in x.referenceUsers
      modifies this`handler, m`bundles, m.bundleReprs`referenceUsers, m.bundleReprs`assetBundle
      ensures m.Valid() && m.ReachOk() && handler == null
      ensures forall x :: x in m.bundleReprs ==> Cascaded(m, x, this, old(handler.reach))
      ensures forall x, u :: x in m.bundleReprs ==> (u in x.referenceUsers <==> u in old(x.referenceUsers) && u != this)
    {
      ghost var area := handler.reach;
      ghost var visited := handler.Unload(m, this);
      handler := null;
      forall x, u | x in m.bundleReprs
        ensures u in x.referenceUsers <==> u in old(x.referenceUsers) && u != this
      {
        if x in area {
          RemoveAllKeeps(old(x.referenceUsers), this, u);
        }
      }
    }

    /** `handler.Unload(this); handler = null;` for an attached bundle asset. */
    method Detach(m: AssetManager)
      requires m.Valid() && m.UsersOk() && this in m.assetReprs && handler != null
      modifies this`handler, m`bundles, m.bundleReprs`referenceUsers, m.bundleReprs`assetBundle
      ensures m.Valid() && m.UsersOk() && handler == null
      ensures forall x :: x in m.bundleReprs ==> Cascaded(m, x, this, old(handler.reach)) && this !in x.referenceUsers
    {
      ghost var area := handler.reach;
      ghost var reprs := m.bundleReprs;
      assert forall x :: x in reprs && x !in area ==> this !in x.referenceUsers by {
        assert m.UsersHeld();
      }
      LeaveBundle(m);
      assert m.UsersHeld() by {
        forall x, u | x in reprs && u in x.referenceUsers
          ensures u in m.assetReprs && u.handler != null && u.handler in reprs && x in u.handler.reach
        {
          assert old(x.UsersHeldBy(m.assetReprs, reprs));
        }
      }
      assert m.ClosedExcept(null, {}) by {
        forall b, d, u | b in reprs && d in b.dependencies && d in reprs && u in b.referenceUsers
          ensures u in d.referenceUsers
        {
          assert old(b.UsersPassedDown(reprs, null, false));
        }
      }
    }

    /**
     * `LoadAsync(OnLoadedAssetHandler)` for the three kinds of handler.
     * A bundle asset whose bundle handler is gone dereferences null
     * (`ok` is false); otherwise the handler has left `NotStarted`.
     */
    method LoadAsync(m: AssetManager) returns (ok: bool)
      requires m.Valid() && this in m.assetReprs && status == NotStarted
      modifies m`fetches, m`tasks, m`callbacks, m`drained, m.assetReprs`status, m.bundleReprs`status, m.bundleReprs`onLoaded
      decreases m.Waiting(), 3, 0
      ensures m.Valid() && m.Progressed() && m.Started({}) && status != NotStarted
      ensures kind == ResourcesAsset ==> ok && ResourcesStarted(m)
      ensures kind == DummyAsset ==> ok && DummyStarted(m)
      ensures kind == BundleAsset && old(handler) == null ==> !ok && status == Loading
      ensures kind == BundleAsset && old(handler) != null && old(handler.status) != Completed ==> ok && status == Loading && Quiet(m, this)
    {
      match kind
      case ResourcesAsset =>
        LoadResourcesAsync(m);
        ok := true;
      case DummyAsset =>
        LoadDummyAsync(m);
        ok := true;
      case BundleAsset =>
        ok := LoadBundleAssetAsync(m);
    }

    /**
     * `AssetBundleAssetHandler.LoadAsync`: loading, then the bundle is
     * loaded with the continuation that extracts this asset.
     */
    method LoadBundleAssetAsync(m: AssetManager) returns (ok: bool)
      requires m.Valid() && this in m.assetReprs && kind == BundleAsset && status == NotStarted
      modifies m`fetches, m`tasks, m`callbacks, m`drained, m.assetReprs`status, m.bundleReprs`status, m.bundleReprs`onLoaded
      decreases m.Waiting(), 3, 0, 0
      ensures m.Valid() && m.Progressed() && m.Started({}) && status != NotStarted
      ensures old(handler) == null ==> !ok && status == Loading
      ensures old(handler) != null && old(handler.status) != Completed ==> ok && status == Loading && Quiet(m, this)
    {
      ghost var w := m.Waiting();
      status := Loading;
      assert m.Waiting() == w - {this};
      if handler == null {
        return false;
      }
      ok := handler.LoadAsync(m, AssetReady(this));
    }

    /**
     * `ResourcesAssetHandler.LoadAsync`: loading; in the editor an asset the
     * asset database finds outside `Resources` is delivered on the next
     * frame, otherwise a `Resources.LoadAsync` request is issued.
     */
    method LoadResourcesAsync(m: AssetManager)
      requires m.Valid() && this in m.assetReprs && kind == ResourcesAsset
      modifies this`status, m`fetches, m`tasks
      ensures m.Valid() && ResourcesStarted(m)
    {
      status := Loading;
      var assetPath := m.EditorAsset(path, assetType);
      if assetPath.Some? {
        m.tasks := m.tasks + [EditorAssetLoaded(this, assetPath.value)];
        return;
      }
      m.fetches := m.fetches + [ResourcesRequest(this, path, assetType)];
    }

    /** Exactly one completion is pending for a `Resources` handler now loading. */
    twostate predicate ResourcesStarted(m: AssetManager)
      reads this`status, m`fetches, m`tasks
    {
      status == Loading &&
      match m.EditorAsset(path, assetType)
      case Some(p) => m.tasks == old(m.tasks) + [EditorAssetLoaded(this, p)] && m.fetches == old(m.fetches)
      case None => m.fetches == old(m.fetches) + [ResourcesRequest(this, path, assetType)] && m.tasks == old(m.tasks)
    }

    /** `DummyAssetHandler.LoadAsync`: loading, and completed on the next frame. */
    method LoadDummyAsync(m: AssetManager)
      requires m.Valid() && this in m.assetReprs && kind == DummyAsset
      modifies this`status, m`tasks
      ensures m.Valid() && DummyStarted(m)
    {
      status := Loading;
      m.tasks := m.tasks + [DummyLoaded(this)];
    }

    twostate predicate DummyStarted(m: AssetManager)
      reads this`status, m`fetches, m`tasks
    {
      status == Loading && m.tasks == old(m.tasks) + [DummyLoaded(this)] && m.fetches == old(m.fetches)
    }
  }

  /** A bundle's users changed at most by appending `user` once. */
  /** The bundles that any of `deps` reaches. */
  ghost function ReachOf(deps: seq<AssetBundleHandler>): set<AssetBundleHandler>
    reads (set d | d in deps)`reach
  {
    if deps == [] then {} else ReachOf(deps[..|deps| - 1]) + deps[|deps| - 1].reach
  }

  /** A bundle is in `ReachOf(deps)` exactly when one of `deps` reaches it. */
  lemma {:induction false} ReachOfMember(deps: seq<AssetBundleHandler>, x: AssetBundleHandler)
    ensures x in ReachOf(deps) <==> exists j :: 0 <= j < |deps| && x in deps[j].reach
  {
    if deps != [] {
      var init := deps[..|deps| - 1];
      ReachOfMember(init, x);
      if x in ReachOf(init) {
        var j :| 0 <= j < |init| && x in init[j].reach;
        assert deps[j] == init[j];
      }
      forall j | 0 <= j < |init| && x in deps[j].reach
        ensures x in ReachOf(init)
      {
        assert init[j] == deps[j];
      }
    }
  }

  /** What known bundles reach is known. */
  lemma ReachOfWithin(deps: seq<AssetBundleHandler>, reprs: set<AssetBundleHandler>)
    requires forall d :: d in deps ==> d.reach <= reprs
    ensures ReachOf(deps) <= reprs
  {
    forall x | x in ReachOf(deps)
      ensures x in reprs
    {
      ReachOfMember(deps, x);
    }
  }

  /** The bundles known to `m` beyond `reprs` have no callbacks, no users and a rank below `bound`. */
  ghost predicate NewBundlesBelow(m: AssetManager, reprs: set<AssetBundleHandler>, bound: int)
    reads m`bundleReprs, m.bundleReprs`onLoaded, m.bundleReprs`referenceUsers
  {
    reprs <= m.bundleReprs &&
    forall x :: x in m.bundleReprs && x !in reprs ==> x.onLoaded == [] && x.referenceUsers == [] && x.info.rank < bound
  }

  /** `x` gained `user` at the end of its users, or kept them; outside `area` it kept them. */
  twostate predicate UserAdded(x: AssetBundleHandler, user: AssetHandler, area: set<AssetBundleHandler>)
    reads x`referenceUsers
  {
    x.referenceUsers == old(x.referenceUsers) ||
    (x in area && user !in old(x.referenceUsers) && x.referenceUsers == old(x.referenceUsers) + [user])
  }

  /** A known bundle reaches what its dependencies reach; they lie below it. */
  lemma DependencyReach(m: AssetManager, b: AssetBundleHandler, i: nat)
    requires m.DependenciesOk() && m.ReachOk() && b in m.bundleReprs && i < |b.dependencies|
    ensures b.dependencies[i] in m.bundleReprs && b.dependencies[i].info.rank < b.info.rank
    ensures b.dependencies[i].reach <= b.reach
  {
    assert b.DependenciesBelow(m.bundleReprs) && b.ReachExact(m.bundleReprs);
    ReachOfCovers(b.dependencies, i);
  }





  /** Every dependency of a bundle in `s` is in `s`. */
  ghost predicate DependencyClosed(s: set<AssetBundleHandler>)
    reads s`dependencies
  {
    forall x :: x in s ==> x.DependenciesIn(s)
  }

  /** A set of known bundles closed under dependencies holds all that each of its bundles reaches. */
  lemma {:induction false} ReachWithinClosed(m: AssetManager, b: AssetBundleHandler, s: set<AssetBundleHandler>)
    requires m.DependenciesOk() && m.ReachOk() && b in s && s <= m.bundleReprs && DependencyClosed(s)
    ensures b.reach <= s
    decreases b.info.rank
  {
    assert b.ReachExact(m.bundleReprs) && b.DependenciesBelow(m.bundleReprs) && b.DependenciesIn(s);
    forall x | x in b.reach
      ensures x in s
    {
      if x != b {
        ReachOfMember(b.dependencies, x);
        var j :| 0 <= j < |b.dependencies| && x in b.dependencies[j].reach;
        ReachWithinClosed(m, b.dependencies[j], s);
      }
    }
  }

  /** What one dependency reaches is part of what they all reach. */
  lemma ReachOfCovers(deps: seq<AssetBundleHandler>, j: nat)
    requires j < |deps|
    ensures deps[j].reach <= ReachOf(deps)
  {
    forall x | x in deps[j].reach
      ensures x in ReachOf(deps)
    {
      ReachOfMember(deps, x);
    }
  }

  /**
   * Users flow down the bundle graph: while only the bundles in `pending`,
   * all above `b`, may still miss `user` at their dependencies, a user of
   * `b` is a user of every bundle `b` reaches.
   */
  lemma {:induction false} UsersReachDown(m: AssetManager, b: AssetBundleHandler, user: AssetHandler, pending: set<AssetBundleHandler>)
    requires m.DependenciesOk() && m.ReachOk() && b in m.bundleReprs && user in b.referenceUsers
    requires m.ClosedExcept(user, pending) && forall p :: p in pending ==> p.info.rank > b.info.rank
    ensures forall x :: x in b.reach ==> user in x.referenceUsers
    decreases b.info.rank
  {
    assert b.DependenciesBelow(m.bundleReprs) && b.ReachExact(m.bundleReprs);
    forall x | x in b.reach
      ensures user in x.referenceUsers
    {
      if x != b {
        ReachOfMember(b.dependencies, x);
        var j :| 0 <= j < |b.dependencies| && x in b.dependencies[j].reach;
        var d := b.dependencies[j];
        assert user in d.referenceUsers;
        UsersReachDown(m, d, user, pending);
      }
    }
  }

  class AssetBundleHandler {
    const info: AssetBundleInfo
    var status: Status
    var assetBundle: Option<LoadedBundle>
    var dependencies: seq<AssetBundleHandler>
    var referenceUsers: seq<AssetHandler>
    /** The callbacks queued while loading (`this.onLoaded += onLoaded`). */
    var onLoaded: seq<BundleCallback>
    /**
     * This bundle and every bundle its dependencies reach: the bundles that
     * `AddReferenceUser` and `Unload` walk from here. Set once the
     * dependencies are resolved.
     */
    ghost var reach: set<AssetBundleHandler>

    /** The fields as the private constructor first sets them. */
    constructor (info: AssetBundleInfo)
      ensures this.info == info && status == NotStarted && assetBundle.None?
      ensures dependencies == [] && referenceUsers == [] && onLoaded == [] && reach == {this}
    {
      this.info := info;
      status := NotStarted;
      assetBundle := None;
      dependencies := [];
      referenceUsers := [];
      onLoaded := [];
      new;
      reach := {this};
    }

    /** Every dependency is in `s`. */
    ghost predicate DependenciesIn(s: set<AssetBundleHandler>)
      reads this`dependencies
    {
      forall d :: d in dependencies ==> d in s
    }

    /** Every dependency is a known bundle handler of smaller rank. */
    ghost predicate DependenciesBelow(reprs: set<AssetBundleHandler>)
      reads this`dependencies
    {
      forall d :: d in dependencies ==> d in reprs && d.info.rank < info.rank
    }

    /** Each user is a user of every known dependency, except `user` when `exempt`. */
    ghost predicate UsersPassedDown(reprs: set<AssetBundleHandler>, user: AssetHandler?, exempt: bool)
      reads this`dependencies, this`referenceUsers, reprs`referenceUsers
    {
      forall d, u :: d in dependencies && d in reprs && u in referenceUsers ==> u in d.referenceUsers || (u == user && exempt)
    }

    /** Each user is one of `assets` whose bundle, one of `reprs`, reaches this one. */
    ghost predicate UsersHeldBy(assets: set<AssetHandler>, reprs: set<AssetBundleHandler>)
      reads this`referenceUsers, assets`handler, reprs`reach
    {
      forall u :: u in referenceUsers ==> u in assets && u.handler != null && u.handler in reprs && this in u.handler.reach
    }

    /** `reach` is this bundle together with what its dependencies reach, all of it known. */
    ghost predicate ReachExact(reprs: set<AssetBundleHandler>)
      reads this`dependencies, this`reach, reprs`reach
    {
      DependenciesIn(reprs) && reach == {this} + ReachOf(dependencies) && reach <= reprs
    }

    /**
     * `GetOrCreate(info)`: the handler in the table with this info, or a new
     * one; the table never holds two handlers for one info.
     */
    static method GetOrCreate(m: AssetManager, info: AssetBundleInfo) returns (b: AssetBundleHandler)
      requires m.BundlesOk() && m.ReachOk() && info in m.infoList
      modifies m`bundles, m`bundleReprs
      decreases info.rank, 4
      ensures m.BundlesOk() && m.ReachOk() && b in m.bundleReprs && b.info == info && b in m.bundles
      ensures old(m.bundleReprs) <= m.bundleReprs && fresh(m.bundleReprs - old(m.bundleReprs))
      ensures old(m.bundles) <= m.bundles
      ensures old(FindBundle(m.bundles, info)).Some? ==>
                b == old(m.bundles[FindBundle(m.bundles, info).value]) && m.bundles == old(m.bundles) && m.bundleReprs == old(m.bundleReprs)
      ensures old(FindBundle(m.bundles, info)).None? ==> fresh(b) && ResolvedDependencies(m, b)
      ensures forall x :: x in m.bundleReprs && x !in old(m.bundleReprs) ==> x.onLoaded == [] && x.referenceUsers == [] && x.info.rank <= info.rank
    {
      var k := FindBundle(m.bundles, info);
      if k.Some? {
        b := m.bundles[k.value];
      } else {
        b := Create(m, info);
      }
    }

    /** `GetOrCreate(info)` as the bundle asset constructor calls it, on a loader in a consistent state. */
    static method Take(m: AssetManager, info: AssetBundleInfo) returns (b: AssetBundleHandler)
      requires m.Valid() && m.UsersOk() && info in m.infoList
      modifies m`bundles, m`bundleReprs
      ensures m.Valid() && m.UsersOk() && old(m.bundleReprs) <= m.bundleReprs && fresh(m.bundleReprs - old(m.bundleReprs))
      ensures b in m.bundleReprs && b.info == info && b in m.bundles
      ensures old(FindBundle(m.bundles, info)).Some? ==> b == old(m.bundles[FindBundle(m.bundles, info).value])
      ensures forall x :: x in m.bundleReprs && x !in old(m.bundleReprs) ==> x.referenceUsers == []
    {
      ghost var reprs := m.bundleReprs;
      b := GetOrCreate(m, info);
      WithinGrows(m, m.assetReprs, reprs);
      assert m.UsersHeld() by {
        forall x, u | x in m.bundleReprs && u in x.referenceUsers
          ensures u in m.assetReprs && u.handler != null && u.handler in m.bundleReprs && x in u.handler.reach
        {
          assert x in reprs;
          assert old(u in m.assetReprs && u.handler != null && u.handler in m.bundleReprs && x in u.handler.reach);
        }
      }
    }

    /**
     * The private constructor: the new handler enters the table first,
     * then each dependency name is resolved and its handler taken or made.
     */
    static method Create(m: AssetManager, info: AssetBundleInfo) returns (b: AssetBundleHandler)
      requires m.BundlesOk() && m.ReachOk() && info in m.infoList && FindBundle(m.bundles, info).None?
      modifies m`bundles, m`bundleReprs
      decreases info.rank, 3
      ensures m.BundlesOk() && m.ReachOk() && fresh(b) && b in m.bundleReprs && b.info == info && b in m.bundles
      ensures old(m.bundleReprs) <= m.bundleReprs && fresh(m.bundleReprs - old(m.bundleReprs))
      ensures old(m.bundles) <= m.bundles
      ensures b.status == NotStarted && b.assetBundle.None? && b.referenceUsers == [] && b.onLoaded == []
      ensures ResolvedDependencies(m, b)
      ensures forall x :: x in m.bundleReprs && x !in old(m.bundleReprs) ==> x.onLoaded == [] && x.referenceUsers == [] && x.info.rank <= info.rank
    {
      b := Register(m, info);
      if info.dependencies.Some? {
        LessRanked(m, info);
        var deps := b.ResolveDependencies(m);
        forall x | x in m.bundleReprs && x != b
          ensures b !in x.dependencies
        {
          if x !in old(m.bundleReprs) {
            assert x.DependenciesBelow(m.bundleReprs);
          }
        }
        b.Depend(m, deps);
      }
    }

    /** `this.dependencies = ...` in the private constructor; `reach` follows the new dependencies. */
    method Depend(m: AssetManager, deps: seq<AssetBundleHandler>)
      requires m.BundlesOk() && m.ReachOk() && this in m.bundleReprs && dependencies == []
      requires forall d :: d in deps ==> d in m.bundleReprs && d.info.rank < info.rank
      requires forall x :: x in m.bundleReprs && x != this ==> this !in x.dependencies
      modifies this`dependencies, this`reach
      ensures m.BundlesOk() && m.ReachOk() && dependencies == deps && reach == {this} + ReachOf(deps)
    {
      ghost var reprs := m.bundleReprs;
      forall d | d in deps
        ensures d.reach <= reprs
      {
        assert d.ReachExact(reprs);
      }
      ReachOfWithin(deps, reprs);
      label before:
      dependencies := deps;
      reach := {this} + ReachOf(deps);
      forall x | x in reprs && x != this
        ensures x.DependenciesBelow(reprs) && x.ReachExact(reprs)
      {
        assert old@before(x.DependenciesBelow(reprs) && x.ReachExact(reprs));
        assert ReachOf(x.dependencies) == old@before(ReachOf(x.dependencies));
      }
    }

    /** `handlers.Add(this)` with the fields still at their initial values. */
    static method Register(m: AssetManager, info: AssetBundleInfo) returns (b: AssetBundleHandler)
      requires m.BundlesOk() && m.ReachOk() && info in m.infoList && FindBundle(m.bundles, info).None?
      modifies m`bundles, m`bundleReprs
      ensures m.BundlesOk() && m.ReachOk() && fresh(b) && b.info == info
      ensures m.bundles == old(m.bundles) + [b] && m.bundleReprs == old(m.bundleReprs) + {b}
      ensures b.status == NotStarted && b.assetBundle.None? && b.referenceUsers == [] && b.onLoaded == [] && b.dependencies == []
      ensures forall x :: x in m.bundleReprs && x !in old(m.bundleReprs) ==> x.onLoaded == [] && x.referenceUsers == [] && x.info.rank <= info.rank
    {
      b := new AssetBundleHandler(info);
      TableOkAdd(m.bundles, m.bundleReprs, b);
      m.bundles := m.bundles + [b];
      m.bundleReprs := m.bundleReprs + {b};
      forall x | x in m.bundleReprs
        ensures x.ReachExact(m.bundleReprs)
      {
        if x != b {
          assert old(x.ReachExact(m.bundleReprs));
        }
      }
    }

    /** `info.dependencies.Select(FindAssetBundleInfo).Select(GetOrCreate)`. */
    method ResolveDependencies(m: AssetManager) returns (deps: seq<AssetBundleHandler>)
      requires m.BundlesOk() && m.ReachOk() && this in m.bundleReprs && this in m.bundles && info.dependencies.Some?
      requires DependenciesResolve(m.infoList, info)
      modifies m`bundles, m`bundleReprs
      decreases info.rank, 2
      ensures m.BundlesOk() && m.ReachOk() && this in m.bundles && |deps| == |info.dependencies.value|
      ensures old(m.bundleReprs) <= m.bundleReprs && fresh(m.bundleReprs - old(m.bundleReprs))
      ensures old(m.bundles) <= m.bundles
      ensures forall j :: 0 <= j < |deps| ==> deps[j] in m.bundleReprs && deps[j] in m.bundles && deps[j].info.rank < info.rank
      ensures forall j :: 0 <= j < |deps| ==> ResolvesTo(m.infoList, info.dependencies.value[j], deps[j])
      ensures forall x :: x in m.bundleReprs && x !in old(m.bundleReprs) ==> x.onLoaded == [] && x.referenceUsers == [] && x.info.rank < info.rank
    {
      var names := info.dependencies.value;
      deps := [];
      while |deps| < |names|
        invariant |deps| <= |names|
        invariant m.BundlesOk() && m.ReachOk() && this in m.bundles
        invariant NewBundlesBelow(m, old(m.bundleReprs), info.rank)
        invariant fresh(m.bundleReprs - old(m.bundleReprs))
        invariant old(m.bundles) <= m.bundles
        invariant forall j :: 0 <= j < |deps| ==> deps[j] in m.bundles && ResolvesTo(m.infoList, names[j], deps[j])
        decreases |names| - |deps|
      {
        deps := ResolveNext(m, deps, old(m.bundleReprs));
      }
      forall j | 0 <= j < |deps|
        ensures deps[j] in m.bundleReprs && deps[j].info.rank < info.rank
      {
        assert ResolvesBelow(m.infoList, names[j], info.rank);
      }
    }

    /** One step of the `Select`: the handler of the next dependency name joins those resolved so far. */
    method ResolveNext(m: AssetManager, deps: seq<AssetBundleHandler>, ghost reprs: set<AssetBundleHandler>)
      returns (deps': seq<AssetBundleHandler>)
      requires m.BundlesOk() && m.ReachOk() && this in m.bundles && info.dependencies.Some? && DependenciesResolve(m.infoList, info)
      requires |deps| < |info.dependencies.value| && NewBundlesBelow(m, reprs, info.rank)
      requires forall j :: 0 <= j < |deps| ==> deps[j] in m.bundles && ResolvesTo(m.infoList, info.dependencies.value[j], deps[j])
      modifies m`bundles, m`bundleReprs
      decreases info.rank, 1
      ensures m.BundlesOk() && m.ReachOk() && this in m.bundles && NewBundlesBelow(m, reprs, info.rank) && |deps'| == |deps| + 1
      ensures old(m.bundleReprs) <= m.bundleReprs && fresh(m.bundleReprs - old(m.bundleReprs))
      ensures old(m.bundles) <= m.bundles
      ensures forall j :: 0 <= j < |deps'| ==> deps'[j] in m.bundles && ResolvesTo(m.infoList, info.dependencies.value[j], deps'[j])
    {
      var names := info.dependencies.value;
      assert ResolvesBelow(m.infoList, names[|deps|], info.rank);
      ghost var table := m.bundles;
      var d := Resolve(m, names[|deps|], info.rank);
      ResolvedGrow(deps, d, names, m.infoList, table, m.bundles);
      deps' := deps + [d];
    }

    /** One dependency name: `GetOrCreate(FindAssetBundleInfo(name))`. */
    static method Resolve(m: AssetManager, name: string, ghost rank: nat) returns (d: AssetBundleHandler)
      requires m.BundlesOk() && m.ReachOk() && ResolvesBelow(m.infoList, name, rank)
      modifies m`bundles, m`bundleReprs
      decreases rank, 0
      ensures m.BundlesOk() && m.ReachOk() && d in m.bundleReprs && d in m.bundles && ResolvesTo(m.infoList, name, d)
      ensures old(m.bundleReprs) <= m.bundleReprs && fresh(m.bundleReprs - old(m.bundleReprs))
      ensures old(m.bundles) <= m.bundles
      ensures forall x :: x in m.bundleReprs && x !in old(m.bundleReprs) ==> x.onLoaded == [] && x.referenceUsers == [] && x.info.rank < rank
    {
      var info := m.FindAssetBundleInfo(name);
      d := GetOrCreate(m, info);
    }

    /**
     * `AddReferenceUser(user)`: idempotent; a new user is passed down to
     * every dependency, so that it ends up a user of every bundle this one
     * reaches, and of no other bundle it was not a user of before.
     * `pending` are the bundles up the recursion, which already hold the
     * user while their remaining dependencies do not yet.
     */
    method AddReferenceUser(m: AssetManager, user: AssetHandler, ghost pending: set<AssetBundleHandler>)
      requires m.DependenciesOk() && m.ReachOk() && m.UsersDistinct() && this in m.bundleReprs
      requires m.ClosedExcept(user, pending) && forall p :: p in pending ==> p.info.rank > info.rank
      modifies m.bundleReprs`referenceUsers
      decreases info.rank
      ensures m.UsersDistinct() && m.ClosedExcept(user, pending)
      ensures forall x :: x in reach ==> user in x.referenceUsers
      ensures forall x :: x in m.bundleReprs ==> UserAdded(x, user, reach)
      ensures old(user in referenceUsers) ==> unchanged(m.bundleReprs`referenceUsers)
      ensures old(user !in referenceUsers) ==> referenceUsers == old(referenceUsers) + [user]
    {
      assert DependenciesBelow(m.bundleReprs) && ReachExact(m.bundleReprs);
      if user in referenceUsers {
        UsersReachDown(m, this, user, pending);
        return;
      }
      NoDuplicatesSnoc(referenceUsers, user);
      referenceUsers := referenceUsers + [user];
      var i := 0;
      while i < |dependencies|
        invariant 0 <= i <= |dependencies| && m.UsersDistinct() && m.ClosedExcept(user, pending + {this})
        invariant referenceUsers == old(referenceUsers) + [user]
        invariant forall x :: x in m.bundleReprs ==> UserAdded(x, user, reach)
        invariant forall j :: 0 <= j < i ==> user in dependencies[j].referenceUsers
      {
        PassDown(m, user, pending, i);
        i := i + 1;
      }
      forall b, d, u | b in m.bundleReprs && d in b.dependencies && d in m.bundleReprs && u in b.referenceUsers
        ensures u in d.referenceUsers || (u == user && b in pending)
      {
        assert m.ClosedExcept(user, pending + {this});
      }
      UsersReachDown(m, this, user, pending);
    }

    /** The `i`th dependency gains the user; what the users of the dependencies before it gained is kept. */
    method PassDown(m: AssetManager, user: AssetHandler, ghost pending: set<AssetBundleHandler>, i: nat)
      requires m.DependenciesOk() && m.ReachOk() && m.UsersDistinct() && this in m.bundleReprs && i < |dependencies|
      requires m.ClosedExcept(user, pending + {this}) && forall p :: p in pending ==> p.info.rank > info.rank
      requires forall j :: 0 <= j < i ==> user in dependencies[j].referenceUsers
      modifies m.bundleReprs`referenceUsers
      decreases info.rank, 0
      ensures m.UsersDistinct() && m.ClosedExcept(user, pending + {this})
      ensures forall x :: x in m.bundleReprs ==> UserAdded(x, user, reach)
      ensures forall j :: 0 <= j < i + 1 ==> user in dependencies[j].referenceUsers
    {
      var d := dependencies[i];
      DependencyReach(m, this, i);
      d.AddReferenceUser(m, user, pending + {this});
      assert user in d.referenceUsers;
      forall x | x in m.bundleReprs
        ensures UserAdded(x, user, reach)
      {
        assert UserAdded(x, user, d.reach);
      }
      forall j | 0 <= j < i + 1
        ensures user in dependencies[j].referenceUsers
      {
        if j < i {
          assert DependenciesBelow(m.bundleReprs);
          assert UserAdded(dependencies[j], user, d.reach);
        }
      }
    }

    /**
     * `Load()`: dependencies first, then the bundle file itself; a bundle
     * that is loading asynchronously only logs an error.
     */
    method Load(m: AssetManager)
      requires m.DependenciesOk() && this in m.bundleReprs
      modifies m.bundleReprs`status, m.bundleReprs`assetBundle, m`errors
      decreases info.rank
      ensures old(status) == NotStarted ==> status == Completed && assetBundle == m.FileFor(info)
      ensures old(status) == NotStarted ==> forall d :: d in dependencies ==> d.status != NotStarted
      ensures old(status) == Loading ==> unchanged(m.bundleReprs`status, m.bundleReprs`assetBundle)
      ensures old(status) == Loading ==> m.errors == old(m.errors) + [BundleIsLoading(info.assetBundleName)]
      ensures old(status) == Completed ==> unchanged(m.bundleReprs`status, m.bundleReprs`assetBundle, m`errors)
      ensures forall x :: x in m.bundleReprs ==> LoadedNow(m, x)
      ensures forall x :: x in m.bundleReprs && x.info.rank > info.rank ==> x.status == old(x.status)
      ensures forall x, d :: x in m.bundleReprs && old(x.status) == NotStarted && x.status == Completed && d in x.dependencies ==>
                d.status != NotStarted
    {
      match status
      case NotStarted =>
        assert this.DependenciesBelow(m.bundleReprs);
        var i := 0;
        while i < |dependencies|
          invariant 0 <= i <= |dependencies| && status == NotStarted
          invariant forall j :: 0 <= j < i ==> dependencies[j].status != NotStarted
          invariant forall x :: x in m.bundleReprs ==> LoadedNow(m, x)
          invariant forall x :: x in m.bundleReprs && x.info.rank >= info.rank ==> x.status == old(x.status)
          invariant forall x, d :: x in m.bundleReprs && old(x.status) == NotStarted && x.status == Completed && d in x.dependencies ==>
                      d.status != NotStarted
        {
          dependencies[i].Load(m);
          forall j | 0 <= j < i + 1
            ensures dependencies[j].status != NotStarted
          {
            assert dependencies[j] in m.bundleReprs;
          }
          i := i + 1;
        }
        // AssetBundle.LoadFromFile(Path.Combine(directory, name))
        assetBundle := m.FileFor(info);
        status := Completed;
      case Loading =>
        m.errors := m.errors + [BundleIsLoading(info.assetBundleName)];
      case Completed =>
    }

    /**
     * `LoadAsync(onLoaded)`. Not started: loading; the callback waits on the
     * first dependency that is not completed (which, once ready, puts this
     * bundle back to not started and loads it again), and only when every
     * dependency is completed is the bundle file requested. Loading: the
     * callback is queued. Completed: the callback runs at once.
     */
    method LoadAsync(m: AssetManager, cb: BundleCallback) returns (ok: bool)
      requires m.Valid() && this in m.bundleReprs && CallbackWithin(cb, m.assetReprs, m.bundleReprs) && RankedAbove(cb, info.rank)
      modifies m`fetches, m`tasks, m`callbacks, m`drained, m.assetReprs`status, m.bundleReprs`status, m.bundleReprs`onLoaded
      decreases m.Waiting(), if status == Completed then 8 else 6, info.rank
      ensures m.Valid() && m.Progressed() && m.Started(Resets(cb))
      ensures old(status) != Completed ==> ok && status == Loading && Quiet(m, null)
      ensures old(status) == Loading ==> onLoaded == old(onLoaded) + [cb] && m.fetches == old(m.fetches)
      ensures old(status) == NotStarted && old(FirstUnfinished(BundleStatuses(dependencies))).None? ==>
                m.fetches == old(m.fetches) + [BundleFileRequest(this, cb)] && unchanged(m.bundleReprs`onLoaded)
      ensures old(status) == NotStarted && old(FirstUnfinished(BundleStatuses(dependencies))).Some? ==>
                old(dependencies[FirstUnfinished(BundleStatuses(dependencies)).value]).status == Loading
    {
      match status
      case NotStarted =>
        ok := StartLoad(m, cb);
      case Loading =>
        onLoaded := onLoaded + [cb];
        ok := true;
      case Completed =>
        ok := m.Continue(cb);
    }

    /**
     * The `Status.None` case of `LoadAsync`: loading; wait on the first
     * dependency that is not completed, or request the bundle file when
     * there is none.
     */
    method StartLoad(m: AssetManager, cb: BundleCallback) returns (ok: bool)
      requires m.Valid() && this in m.bundleReprs && CallbackWithin(cb, m.assetReprs, m.bundleReprs) && RankedAbove(cb, info.rank)
      requires status == NotStarted
      modifies m`fetches, m`tasks, m`callbacks, m`drained, m.assetReprs`status, m.bundleReprs`status, m.bundleReprs`onLoaded
      decreases m.Waiting(), 6, info.rank, 0
      ensures m.Valid() && m.Progressed() && ok && status == Loading && Quiet(m, null)
      ensures old(FirstUnfinished(BundleStatuses(dependencies))).None? ==>
                m.fetches == old(m.fetches) + [BundleFileRequest(this, cb)] && unchanged(m.bundleReprs`onLoaded)
      ensures old(FirstUnfinished(BundleStatuses(dependencies))).Some? ==>
                old(dependencies[FirstUnfinished(BundleStatuses(dependencies)).value]).status == Loading
    {
      assert DependenciesBelow(m.bundleReprs);
      status := Loading;
      assert BundleStatuses(dependencies) == old(BundleStatuses(dependencies));
      ok := Proceed(m, cb);
    }

    /** The `foreach` of the `Status.None` case, with this bundle already loading. */
    method Proceed(m: AssetManager, cb: BundleCallback) returns (ok: bool)
      requires m.Valid() && this in m.bundleReprs && CallbackWithin(cb, m.assetReprs, m.bundleReprs) && RankedAbove(cb, info.rank)
      requires status == Loading
      modifies m`fetches, m`tasks, m`callbacks, m`drained, m.assetReprs`status, m.bundleReprs`status, m.bundleReprs`onLoaded
      decreases m.Waiting(), 6, info.rank, 0, 0
      ensures m.Valid() && m.Progressed() && ok && status == Loading && Quiet(m, null)
      ensures old(FirstUnfinished(BundleStatuses(dependencies))).None? ==>
                m.fetches == old(m.fetches) + [BundleFileRequest(this, cb)] && unchanged(m.bundleReprs`onLoaded)
      ensures old(FirstUnfinished(BundleStatuses(dependencies))).Some? ==>
                old(dependencies[FirstUnfinished(BundleStatuses(dependencies)).value]).status == Loading
    {
      assert DependenciesBelow(m.bundleReprs);
      var k := FirstIncomplete();
      if k.Some? {
        var d := dependencies[k.value];
        ok := WaitOn(m, d, cb);
      } else {
        RequestFile(m, cb);
        ok := true;
      }
    }

    /**
     * A dependency is not completed yet: it is loaded with the continuation
     * that restarts this bundle's load once it is ready.
     */
    method WaitOn(m: AssetManager, d: AssetBundleHandler, cb: BundleCallback) returns (ok: bool)
      requires m.Valid() && this in m.bundleReprs && CallbackWithin(cb, m.assetReprs, m.bundleReprs) && RankedAbove(cb, info.rank)
      requires status == Loading
      requires d in m.bundleReprs && d.status != Completed && d.info.rank < info.rank
      modifies m`fetches, m`tasks, m`callbacks, m`drained, m.assetReprs`status, m.bundleReprs`status, m.bundleReprs`onLoaded
      decreases m.Waiting(), 6, info.rank, 0, 0, 0
      ensures m.Valid() && m.Progressed() && ok && status == Loading && d.status == Loading && Quiet(m, null)
    {
      ok := d.LoadAsync(m, DependencyReady(this, cb));
    }

    /** Every dependency is completed: `AssetBundle.LoadFromFileAsync` for this bundle. */
    method RequestFile(m: AssetManager, cb: BundleCallback)
      requires m.Valid() && this in m.bundleReprs && CallbackWithin(cb, m.assetReprs, m.bundleReprs) && RankedAbove(cb, info.rank)
      modifies m`fetches
      ensures m.Valid() && m.fetches == old(m.fetches) + [BundleFileRequest(this, cb)]
    {
      m.fetches := m.fetches + [BundleFileRequest(this, cb)];
    }

    /** The `foreach` over the dependencies: the first one that is not completed. */
    method FirstIncomplete() returns (k: Option<nat>)
      ensures k == FirstUnfinished(BundleStatuses(dependencies))
    {
      var i := 0;
      while i < |dependencies|
        invariant 0 <= i <= |dependencies|
        invariant forall j :: 0 <= j < i ==> dependencies[j].status == Completed
      {
        if dependencies[i].status != Completed {
          return Some(i);
        }
        i := i + 1;
      }
      return None;
    }

    /**
     * The first half of `Unload(user)`: the user leaves this bundle, and a
     * bundle left without users releases its file and leaves the table.
     */
    method Leave(m: AssetManager, user: AssetHandler)
      requires m.BundlesOk() && this in m.bundleReprs
      modifies this`referenceUsers, this`assetBundle, m`bundles
      ensures m.BundlesOk()
      ensures referenceUsers == RemoveAll(old(referenceUsers), user)
      ensures referenceUsers == [] ==> assetBundle.None? && forall x :: x in m.bundles <==> x in old(m.bundles) && x != this
      ensures referenceUsers != [] ==> assetBundle == old(assetBundle) && m.bundles == old(m.bundles)
    {
      DropUser(m, user);
      if |referenceUsers| == 0 {
        Release(m);
      }
    }

    /** `referenceUsers.Remove(user)`. */
    method DropUser(m: AssetManager, user: AssetHandler)
      requires m.BundlesOk() && this in m.bundleReprs
      modifies this`referenceUsers
      ensures m.BundlesOk()
      ensures referenceUsers == RemoveAll(old(referenceUsers), user)
    {
      RemoveFirstOfDistinct(referenceUsers, user);
      referenceUsers := RemoveFirst(referenceUsers, user);
    }

    /** `assetBundle?.Unload(true)`, `assetBundle = null`, `handlers.Remove(this)`. */
    method Release(m: AssetManager)
      requires m.BundlesOk() && this in m.bundleReprs
      modifies this`assetBundle, m`bundles
      ensures m.BundlesOk() && assetBundle.None?
      ensures forall x :: x in m.bundles <==> x in old(m.bundles) && x != this
    {
      assetBundle := None;
      TableOkRemove(m.bundles, m.bundleReprs, this);
      m.bundles := RemoveFirst(m.bundles, this);
    }

    /**
     * `Unload(user)`: the user leaves this bundle, which is released when
     * no user is left, and then leaves every dependency the same way.
     * `visited` is the set of bundles the cascade reached, which is all
     * this bundle reaches; nothing outside it changes.
     */
    method Unload(m: AssetManager, user: AssetHandler) returns (ghost visited: set<AssetBundleHandler>)
      requires m.BundlesOk() && m.ReachOk() && this in m.bundleReprs
      modifies m`bundles, m.bundleReprs`referenceUsers, m.bundleReprs`assetBundle
      decreases info.rank
      ensures m.BundlesOk() && m.ReachOk()
      ensures visited == reach && this in visited && visited <= m.bundleReprs && DependencyClosed(visited)
      ensures forall x :: x in m.bundleReprs ==> Cascaded(m, x, user, visited)
    {
      Leave(m, user);
      visited := {this};
      assert DependenciesBelow(m.bundleReprs) && ReachExact(m.bundleReprs);
      var deps := dependencies;
      var i := 0;
      while i < |deps|
        invariant 0 <= i <= |deps| && dependencies == deps
        invariant m.BundlesOk() && m.ReachOk()
        invariant this in visited && visited <= m.bundleReprs && visited <= reach
        invariant forall j :: 0 <= j < i ==> deps[j] in visited
        invariant forall x :: x in visited && x != this ==> x.DependenciesIn(visited)
        invariant forall x :: x in m.bundleReprs ==> Cascaded(m, x, user, visited)
      {
        ghost var before := visited;
        DependencyReach(m, this, i);
        label call:
        var v := deps[i].Unload(m, user);
        visited := visited + v;
        SetsGrow(deps, i, before, visited);
        forall x | x in visited && x != this
          ensures x.DependenciesIn(visited)
        {
          if x in v {
            assert x.DependenciesIn(v);
          } else {
            assert x.DependenciesIn(before);
          }
        }
        forall x | x in m.bundleReprs
          ensures Cascaded(m, x, user, visited)
        {
          CascadeCompose(x in before, x in v, user, old(x.referenceUsers), old(x.assetBundle), old(x in m.bundles),
                         old@call(x.referenceUsers), old@call(x.assetBundle), old@call(x in m.bundles), x.referenceUsers, x.assetBundle, x in m.bundles);
        }
        i := i + 1;
      }
      ReachWithinClosed(m, this, visited);
    }
  }

  /**
   * The unload cascade over `visited` as seen from one bundle: it lost
   * `user` if the cascade reached it, and it was released (file dropped,
   * out of the table) if it was reached and left without users.
   */
  twostate predicate Cascaded(m: AssetManager, x: AssetBundleHandler, new user: AssetHandler, new visited: set<AssetBundleHandler>)
    reads x`referenceUsers, x`assetBundle, m`bundles
  {
    CascadeStep(x in visited, user, old(x.referenceUsers), old(x.assetBundle), old(x in m.bundles),
                x.referenceUsers, x.assetBundle, x in m.bundles)
  }

  /** One bundle's users, file and table membership before and after a cascade that did or did not reach it. */
  predicate CascadeStep(reached: bool, user: AssetHandler,
                        users: seq<AssetHandler>, file: Option<LoadedBundle>, inTable: bool,
                        users': seq<AssetHandler>, file': Option<LoadedBundle>, inTable': bool)
  {
    users' == (if reached then RemoveAll(users, user) else users) &&
    file' == (if reached && users' == [] then None else file) &&
    (inTable' <==> inTable && !(reached && users' == []))
  }

  /** Two cascades in a row are one cascade over the bundles either reached. */
  lemma CascadeCompose(r0: bool, r1: bool, user: AssetHandler,
                       u0: seq<AssetHandler>, f0: Option<LoadedBundle>, t0: bool,
                       u1: seq<AssetHandler>, f1: Option<LoadedBundle>, t1: bool,
                       u2: seq<AssetHandler>, f2: Option<LoadedBundle>, t2: bool)
    requires CascadeStep(r0, user, u0, f0, t0, u1, f1, t1) && CascadeStep(r1, user, u1, f1, t1, u2, f2, t2)
    ensures CascadeStep(r0 || r1, user, u0, f0, t0, u2, f2, t2)
  {
  }

  /** A bundle changed by the synchronous load only by being loaded from its file. */
  twostate predicate LoadedNow(m: AssetManager, x: AssetBundleHandler)
    reads x`status, x`assetBundle
  {
    if x.status == old(x.status) then x.assetBundle == old(x.assetBundle)
    else old(x.status) == NotStarted && x.status == Completed && x.assetBundle == m.FileFor(x.info)
  }

  /** A new bundle handler's dependencies are the handlers of its dependency names, in order. */
  ghost predicate ResolvedDependencies(m: AssetManager, b: AssetBundleHandler)
    reads m`bundles, b`dependencies
  {
    match b.info.dependencies
    case None => b.dependencies == []
    case Some(names) =>
      |b.dependencies| == |names| &&
      forall k :: 0 <= k < |names| ==> b.dependencies[k] in m.bundles && ResolvesTo(m.infoList, names[k], b.dependencies[k])
  }

  /** `d` is a handler of the entry that the bundle search finds for `name`. */
  ghost predicate ResolvesTo(infos: seq<AssetBundleInfo>, name: string, d: AssetBundleHandler)
  {
    BundleInfoFor(infos, name).Some? && d.info == infos[BundleInfoFor(infos, name).value]
  }

  /** The dependencies resolved so far stay in a growing table, and one more joins them. */
  lemma ResolvedGrow(deps: seq<AssetBundleHandler>, d: AssetBundleHandler, names: seq<string>, infos: seq<AssetBundleInfo>,
                     table: seq<AssetBundleHandler>, table': seq<AssetBundleHandler>)
    requires |deps| < |names| && table <= table' && d in table' && ResolvesTo(infos, names[|deps|], d)
    requires forall j :: 0 <= j < |deps| ==> deps[j] in table && ResolvesTo(infos, names[j], deps[j])
    ensures forall j :: 0 <= j < |deps| + 1 ==> (deps + [d])[j] in table' && ResolvesTo(infos, names[j], (deps + [d])[j])
  {
    PrefixKeepsMembers(table, table');
  }

  lemma SetsGrow<T>(s: seq<T>, i: nat, a: set<T>, b: set<T>)
    requires i < |s| && a <= b && s[i] in b
    requires forall j :: 0 <= j < i ==> s[j] in a
    ensures forall j :: 0 <= j < i + 1 ==> s[j] in b
  {
  }

  lemma PrefixKeepsMembers<T>(s: seq<T>, t: seq<T>)
    requires s <= t
    ensures forall x :: x in s ==> x in t
  {
    forall x | x in s
      ensures x in t
    {
      var i :| 0 <= i < |s| && s[i] == x;
      assert t[i] == x;
    }
  }

  /** The manifest gives every dependency of a listed info a smaller rank. */
  lemma LessRanked(m: AssetManager, info: AssetBundleInfo)
    requires info in m.infoList && info.dependencies.Some?
    ensures DependenciesResolve(m.infoList, info)
  {
    var i :| 0 <= i < |m.infoList| && m.infoList[i] == info;
  }

  /** The handlers a bundle callback refers to are among `assets` and `bundles`. */
  predicate CallbackWithin(cb: BundleCallback, assets: set<AssetHandler>, bundles: set<AssetBundleHandler>)
  {
    match cb
    case AssetReady(h) => h in assets && h.kind == BundleAsset
    case DependencyReady(p, next) => p in bundles && CallbackWithin(next, assets, bundles)
  }

  ghost predicate FetchWithin(f: Fetch, assets: set<AssetHandler>, bundles: set<AssetBundleHandler>)
  {
    match f
    case ResourcesRequest(h, _, _) => h in assets && h.kind == ResourcesAsset
    case BundleFileRequest(b, cb) => b in bundles && CallbackWithin(cb, assets, bundles) && RankedAbove(cb, b.info.rank)
    case BundleAssetRequest(h, _, _) => h in assets && h.kind == BundleAsset
  }

  predicate TaskWithin(t: Task, assets: set<AssetHandler>)
  {
    match t
    case DrainCallbacks => true
    case EditorAssetLoaded(h, _) => h in assets && h.kind == ResourcesAsset
    case DummyLoaded(h) => h in assets && h.kind == DummyAsset
  }

  lemma {:induction false} CallbackWithinGrows(cb: BundleCallback, a: set<AssetHandler>, b: set<AssetBundleHandler>,
                                               a': set<AssetHandler>, b': set<AssetBundleHandler>)
    requires a <= a' && b <= b' && CallbackWithin(cb, a, b)
    ensures CallbackWithin(cb, a', b')
  {
    if cb.DependencyReady? {
      CallbackWithinGrows(cb.next, a, b, a', b');
    }
  }

  lemma FetchWithinGrows(f: Fetch, a: set<AssetHandler>, b: set<AssetBundleHandler>,
                         a': set<AssetHandler>, b': set<AssetBundleHandler>)
    requires a <= a' && b <= b' && FetchWithin(f, a, b)
    ensures FetchWithin(f, a', b')
  {
    if f.BundleFileRequest? {
      CallbackWithinGrows(f.onLoaded, a, b, a', b');
    }
  }

  /** The callbacks and requests of the manager stay within its handlers when more handlers are made. */
  lemma WithinGrows(m: AssetManager, a: set<AssetHandler>, b: set<AssetBundleHandler>)
    requires a <= m.assetReprs && b <= m.bundleReprs
    requires forall x, cb :: x in b && cb in x.onLoaded ==> CallbackWithin(cb, a, b)
    requires forall x :: x in m.bundleReprs - b ==> x.onLoaded == []
    requires forall f :: f in m.fetches ==> FetchWithin(f, a, b)
    requires forall t :: t in m.tasks ==> TaskWithin(t, a)
    ensures forall x, cb :: x in m.bundleReprs && cb in x.onLoaded ==> CallbackWithin(cb, m.assetReprs, m.bundleReprs)
    ensures forall f :: f in m.fetches ==> FetchWithin(f, m.assetReprs, m.bundleReprs)
    ensures forall t :: t in m.tasks ==> TaskWithin(t, m.assetReprs)
  {
    forall x, cb | x in m.bundleReprs && cb in x.onLoaded
      ensures CallbackWithin(cb, m.assetReprs, m.bundleReprs)
    {
      CallbackWithinGrows(cb, a, b, m.assetReprs, m.bundleReprs);
    }
    forall f | f in m.fetches
      ensures FetchWithin(f, m.assetReprs, m.bundleReprs)
    {
      FetchWithinGrows(f, a, b, m.assetReprs, m.bundleReprs);
    }
  }

  /** The arguments of the engine call that loads an asset from its bundle. */
  datatype AssetQuery = AssetQuery(assetName: string, withSubAssets: bool, assetType: Option<TypeRef>)

  /**
   * What the request for a bundle asset asks the loaded bundle for: the
   * file name of the path, with sub-assets unless the path is the bundle's
   * own name, and as a `GameObject` when the type derives from
   * `MonoBehaviour`.
   */
  function AssetQueryOf(h: AssetHandler, bundle: LoadedBundle): (q: AssetQuery)
    ensures IsFileNameOf(q.assetName, h.path)
    ensures q.withSubAssets <==> !EqualsIgnoreCase(h.path, bundle.name)
    ensures h.isMonoBehaviour ==> q.assetType == Some(GameObject)
    ensures !h.isMonoBehaviour ==> q.assetType == h.assetType
  {
    AssetQuery(GetFileName(h.path), !EqualsIgnoreCase(h.path, bundle.name),
               if h.isMonoBehaviour then Some(GameObject) else h.assetType)
  }

  class AssetManager {
    const maxThreadCount: int
    const infoList: Catalog
    /** Built with `UNITY_EDITOR`. */
    const isEditor: bool
    /** The editor's asset database: the non-Resources asset found for a handler's path and type. */
    const editorAssets: map<(string, Option<TypeRef>), string>
    /** The bundle files on disk, by bundle name. */
    const bundleFiles: map<string, LoadedBundle>
    const hierarchy: Hierarchy
    var handlers: seq<AssetHandler>
    var callbacks: seq<PendingCallback>
    /** `AssetBundleHandler.handlers`, the static table of live bundle handlers. */
    var bundles: seq<AssetBundleHandler>
    var fetches: seq<Fetch>
    var tasks: seq<Task>
    /** The queued callbacks invoked so far, in order. */
    var drained: seq<PendingCallback>
    var errors: seq<ErrorMessage>
    /** Every asset handler and bundle handler created so far. */
    ghost var assetReprs: set<AssetHandler>
    ghost var bundleReprs: set<AssetBundleHandler>

    ghost predicate Valid()
      reads this`handlers, this`callbacks, this`bundles, this`fetches, this`tasks, this`assetReprs, this`bundleReprs
      reads assetReprs`handler, bundleReprs`dependencies, bundleReprs`onLoaded, bundleReprs`referenceUsers
    {
      HandlersOk() && CallbacksOk() && BundlesOk() && PendingOk()
    }

    /** The bundle table and the bundle graph: what the bundle handlers' own operations rely on. */
    ghost predicate BundlesOk()
      reads this`bundles, this`bundleReprs, bundleReprs`dependencies, bundleReprs`referenceUsers
    {
      TableOk(bundles, bundleReprs) && DependenciesOk() && UsersDistinct()
    }

    /**
     * A user of a known bundle is a user of each of its dependencies, except
     * that `user` may still be missing below the bundles in `pending`.
     */
    ghost predicate ClosedExcept(user: AssetHandler?, pending: set<AssetBundleHandler>)
      reads this`bundleReprs, bundleReprs`dependencies, bundleReprs`referenceUsers
    {
      forall b :: b in bundleReprs ==> b.UsersPassedDown(bundleReprs, user, b in pending)
    }

    /** Every user of a known bundle is a known asset handler whose own bundle reaches it. */
    ghost predicate UsersHeld()
      reads this`assetReprs, this`bundleReprs, assetReprs`handler, bundleReprs`referenceUsers, bundleReprs`reach
    {
      forall x :: x in bundleReprs ==> x.UsersHeldBy(assetReprs, bundleReprs)
    }

    /**
     * The bundle graph's reach and its users as `AddReferenceUser` and
     * `Unload` keep them: users are closed downwards and held by their
     * assets. Kept apart from `Valid` and carried by the operations that
     * add or remove handlers, bundles or users.
     */
    ghost predicate UsersOk()
      reads this`assetReprs, this`bundleReprs, assetReprs`handler, bundleReprs`dependencies, bundleReprs`referenceUsers, bundleReprs`reach
    {
      ReachOk() && ClosedExcept(null, {}) && UsersHeld()
    }

    /** A bundle lists each of its users once. */
    ghost predicate UsersDistinct()
      reads this`bundleReprs, bundleReprs`referenceUsers
    {
      forall b :: b in bundleReprs ==> NoDuplicates(b.referenceUsers)
    }

    /** The live asset handlers are distinct known handlers, and every known handler refers to a known bundle. */
    ghost predicate HandlersOk()
      reads this`handlers, this`assetReprs, this`bundleReprs, assetReprs`handler
    {
      (forall h :: h in handlers ==> h in assetReprs) &&
      NoDuplicates(handlers) &&
      (forall h :: h in assetReprs && h.handler != null ==> h.handler in bundleReprs)
    }

    /** The queued callbacks belong to known handlers. */
    ghost predicate CallbacksOk()
      reads this`callbacks, this`assetReprs
    {
      forall c :: c in callbacks ==> c.handler in assetReprs
    }

    ghost predicate DependenciesOk()
      reads this`bundleReprs, bundleReprs`dependencies
    {
      forall b :: b in bundleReprs ==> b.DependenciesBelow(bundleReprs)
    }

    /** Every known bundle's `reach` is what its dependencies make it. */
    ghost predicate ReachOk()
      reads this`bundleReprs, bundleReprs`dependencies, bundleReprs`reach
    {
      forall b {:trigger b.ReachExact(bundleReprs)} :: b in bundleReprs ==> b.ReachExact(bundleReprs)
    }

    /** The bundle callbacks, engine requests and deferred tasks refer to known handlers. */
    ghost predicate PendingOk()
      reads this`fetches, this`tasks, this`assetReprs, this`bundleReprs, bundleReprs`onLoaded
    {
      (forall b, cb :: b in bundleReprs && cb in b.onLoaded ==> CallbackWithin(cb, assetReprs, bundleReprs)) &&
      (forall b, cb :: b in bundleReprs && cb in b.onLoaded ==> RankedAbove(cb, b.info.rank)) &&
      (forall f :: f in fetches ==> FetchWithin(f, assetReprs, bundleReprs)) &&
      (forall t :: t in tasks ==> TaskWithin(t, assetReprs))
    }

    constructor (maxThreadCount: int, infoList: Catalog, isEditor: bool,
                 editorAssets: map<(string, Option<TypeRef>), string>, bundleFiles: map<string, LoadedBundle>,
                 hierarchy: Hierarchy)
      ensures Valid() && this.maxThreadCount == maxThreadCount && this.infoList == infoList
      ensures this.isEditor == isEditor && this.editorAssets == editorAssets && this.bundleFiles == bundleFiles
      ensures this.hierarchy == hierarchy
      ensures handlers == [] && callbacks == [] && bundles == [] && fetches == [] && tasks == []
      ensures drained == [] && errors == [] && assetReprs == {} && bundleReprs == {}
    {
      this.maxThreadCount := maxThreadCount;
      this.infoList := infoList;
      this.isEditor := isEditor;
      this.editorAssets := editorAssets;
      this.bundleFiles := bundleFiles;
      this.hierarchy := hierarchy;
      handlers := [];
      callbacks := [];
      bundles := [];
      fetches := [];
      tasks := [];
      drained := [];
      errors := [];
      assetReprs := {};
      bundleReprs := {};
    }

    /** `AssetBundle.LoadFromFile` of a bundle: null when the file is missing. */
    function FileFor(info: AssetBundleInfo): Option<LoadedBundle>
    {
      if info.assetBundleName in bundleFiles then Some(bundleFiles[info.assetBundleName]) else None
    }

    /** `FindAssetBundleInfo(path)`: the exact-name loop, then the substring loop, then null. */
    method FindAssetBundleInfo(path: string) returns (info: AssetBundleInfo?)
      ensures info == null <==> BundleInfoFor(infoList, path).None?
      ensures info != null ==> info == infoList[BundleInfoFor(infoList, path).value]
    {
      var imax := |infoList|;
      var i := 0;
      while i < imax
        invariant 0 <= i <= imax
        invariant ExactMatch(infoList, path, 0) == ExactMatch(infoList, path, i)
      {
        if EqualsIgnoreCase(path, infoList[i].assetBundleName) {
          return infoList[i];
        }
        i := i + 1;
      }
      var lowerPath := ToLower(path);
      i := 0;
      while i < imax
        invariant 0 <= i <= imax
        invariant ContainedMatch(infoList, lowerPath, 0) == ContainedMatch(infoList, lowerPath, i)
      {
        if Contains(lowerPath, infoList[i].assetBundleName) {
          return infoList[i];
        }
        i := i + 1;
      }
      return null;
    }

    /** `FindAssetHandler(path, type)`: the first live handler that matches. */
    function FindAssetHandler(path: string, assetType: Option<TypeRef>): (r: Option<nat>)
      reads this`handlers
      ensures r.Some? ==> r.value < |handlers| && HandlerMatches(handlers[r.value], path, assetType, hierarchy)
      ensures r.Some? ==> forall j :: 0 <= j < r.value ==> !HandlerMatches(handlers[j], path, assetType, hierarchy)
      ensures r.None? <==> forall j :: 0 <= j < |handlers| ==> !HandlerMatches(handlers[j], path, assetType, hierarchy)
    {
      FirstMatch(handlers, path, assetType, hierarchy)
    }

    /** `handlers.Add(h)` for a handler just made. */
    method Adopt(h: AssetHandler)
      requires Valid() && UsersOk() && h !in handlers && (h in assetReprs || h.handler == null)
      modifies this`handlers, this`assetReprs
      ensures Valid() && UsersOk() && handlers == old(handlers) + [h] && assetReprs == old(assetReprs) + {h}
    {
      NoDuplicatesSnoc(handlers, h);
      Track(h);
      handlers := handlers + [h];
    }

    /** A handler the manager knows of from now on; one not yet attached to a bundle uses none. */
    method Track(h: AssetHandler)
      requires Valid() && UsersOk() && (h in assetReprs || h.handler == null)
      modifies this`assetReprs
      ensures Valid() && UsersOk() && assetReprs == old(assetReprs) + {h}
    {
      ghost var before := assetReprs;
      assetReprs := assetReprs + {h};
      WithinGrows(this, before, bundleReprs);
    }

    /**
     * The kind of handler a load makes for a path no live handler matches:
     * a bundle asset when a bundle holds the path, else a `Resources` asset
     * for a typed load and a dummy for a scene (an untyped load).
     */
    function KindFor(path: string, assetType: Option<TypeRef>): AssetKind
    {
      if BundleInfoFor(infoList, path).Some? then BundleAsset else if assetType.Some? then ResourcesAsset else DummyAsset
    }

    /** Outside the editor a scene with no bundle info gets no handler. */
    predicate Refused(path: string, assetType: Option<TypeRef>)
    {
      KindFor(path, assetType) == DummyAsset && !isEditor
    }

    /** A handler just made for `path` and `assetType`. */
    ghost predicate MadeFor(h: AssetHandler, path: string, assetType: Option<TypeRef>)
      reads h`status, h`asset, h`referenceCount, h`isDontDestroy
    {
      h.Unstarted() && h.path == ReplaceChar(path, '\\', '/') && h.assetType == assetType
    }

    /**
     * The creating half of the four load operations: a new handler of
     * `KindFor(path, assetType)` joins `handlers`; a refused scene logs an
     * error instead and gets `null`.
     */
    method Make(path: string, assetType: Option<TypeRef>) returns (h: AssetHandler?)
      requires Valid() && UsersOk()
      modifies this`handlers, this`assetReprs, this`bundles, this`bundleReprs, this`errors, bundleReprs`referenceUsers
      ensures Valid() && UsersOk() && Made(h, path, assetType)
      ensures old(bundleReprs) <= bundleReprs && forall b :: b in bundleReprs && b !in old(bundleReprs) ==> fresh(b)
    {
      var info := FindAssetBundleInfo(path);
      if info == null && assetType.None? && !isEditor {
        errors := errors + [NoBundleInfo(path)];
        return null;
      }
      h := New(path, assetType, info);
    }

    /** What `Make` did: a new handler for the path joined `handlers`, or a refused scene logged an error. */
    twostate predicate Made(new h: AssetHandler?, path: string, assetType: Option<TypeRef>)
      reads this`handlers, this`assetReprs, this`errors
      reads if h == null then {} else {h}
    {
      if Refused(path, assetType) then h == null && handlers == old(handlers) && errors == old(errors) + [NoBundleInfo(path)]
      else h != null && Joined(h, path, assetType) && h.Unstarted() && assetReprs == old(assetReprs) + {h}
    }

    /** A new handler for `path` and `assetType` that joined the end of `handlers`. */
    twostate predicate Joined(new h: AssetHandler, path: string, assetType: Option<TypeRef>)
      reads this`handlers, this`errors, h`referenceCount
    {
      fresh(h) && handlers == old(handlers) + [h] && errors == old(errors) && h.referenceCount == 1 &&
      h.path == ReplaceChar(path, '\\', '/') && h.assetType == assetType && h.kind == KindFor(path, assetType)
    }

    /**
     * The constructor call of `Make` and `handlers.Add`: a bundle asset with
     * bundle info, else `Resources` with a type, else a dummy.
     */
    method New(path: string, assetType: Option<TypeRef>, info: AssetBundleInfo?) returns (h: AssetHandler)
      requires Valid() && UsersOk() && (info == null || info in infoList) && (info != null || assetType.Some? || isEditor)
      modifies this`handlers, this`assetReprs, this`bundles, this`bundleReprs, bundleReprs`referenceUsers
      ensures Valid() && UsersOk() && fresh(h) && MadeFor(h, path, assetType)
      ensures handlers == old(handlers) + [h] && assetReprs == old(assetReprs) + {h}
      ensures old(bundleReprs) <= bundleReprs && forall b :: b in bundleReprs && b !in old(bundleReprs) ==> fresh(b)
      ensures h.kind == if info != null then BundleAsset else if assetType.Some? then ResourcesAsset else DummyAsset
    {
      if info != null {
        h := new AssetHandler.Bundle(this, path, assetType, info);
      } else if assetType.Some? {
        h := new AssetHandler.Resources(path, assetType.value);
      } else {
        h := new AssetHandler.Dummy(path);
      }
      Adopt(h);
    }

    /**
     * The first half of the four load operations: a live handler matching
     * the path and type gains a reference; otherwise one is made.
     */
    method Acquire(path: string, assetType: Option<TypeRef>) returns (h: AssetHandler?, ghost found: Option<nat>)
      requires Valid() && UsersOk()
      modifies this`handlers, this`assetReprs, this`bundles, this`bundleReprs, this`errors
      modifies bundleReprs`referenceUsers, assetReprs`referenceCount
      ensures Valid() && UsersOk() && found == old(FindAssetHandler(path, assetType))
      ensures found.Some? ==>
                h == old(handlers[found.value]) && h.referenceCount == old(h.referenceCount) + 1 && handlers == old(handlers) && errors == old(errors)
      ensures found.None? ==> Made(h, path, assetType)
      ensures h != null ==> h in handlers && h in assetReprs
      ensures forall x :: x in old(assetReprs) && x != h ==> x.referenceCount == old(x.referenceCount)
    {
      var k := FindAssetHandler(path, assetType);
      found := k;
      if k.Some? {
        h := handlers[k.value];
        h.referenceCount := h.referenceCount + 1;
      } else {
        h := Make(path, assetType);
      }
    }

    /**
     * `Load<T>(path)`: find or make the handler, then load it synchronously;
     * the result is the handler's asset.
     */
    method Load(path: string, assetType: TypeRef) returns (asset: Option<Asset>, ghost h: AssetHandler)
      requires Valid() && UsersOk()
      modifies this`handlers, this`assetReprs, this`bundles, this`bundleReprs, this`errors
      modifies bundleReprs`referenceUsers, assetReprs`referenceCount, assetReprs`status
      ensures Valid() && UsersOk() && SyncLoaded(h, path, Some(assetType)) && asset == h.asset
    {
      var handler := LoadNow(path, Some(assetType));
      asset := handler.asset;
      h := handler;
    }

    /** `LoadSceneAsset(path)`: `Load` without a type, which may find no bundle and log an error instead. */
    method LoadSceneAsset(path: string) returns (ghost h: AssetHandler?)
      requires Valid() && UsersOk()
      modifies this`handlers, this`assetReprs, this`bundles, this`bundleReprs, this`errors
      modifies bundleReprs`referenceUsers, assetReprs`referenceCount, assetReprs`status
      ensures Valid() && UsersOk() && SyncLoaded(h, path, None)
    {
      h := LoadNow(path, None);
    }

    /** The body shared by `Load` and `LoadSceneAsset`: find or make the handler, then `handler.Load()`. */
    method LoadNow(path: string, assetType: Option<TypeRef>) returns (h: AssetHandler?)
      requires Valid() && UsersOk()
      modifies this`handlers, this`assetReprs, this`bundles, this`bundleReprs, this`errors
      modifies bundleReprs`referenceUsers, assetReprs`referenceCount, assetReprs`status
      ensures Valid() && UsersOk() && SyncLoaded(h, path, assetType)
    {
      var k := FindAssetHandler(path, assetType);
      if k.Some? {
        h := handlers[k.value];
        Reload(h);
      } else {
        h := LoadNew(path, assetType);
      }
    }

    /** A live handler found again: one more reference, then `Load()`. */
    method Reload(h: AssetHandler)
      requires Valid() && h in handlers
      modifies h`referenceCount, h`status, this`errors
      ensures Valid() && Reloaded(h)
    {
      h.referenceCount := h.referenceCount + 1;
      h.Load(this);
    }

    /** No live handler matched: make one, unless refused, and `Load()` it. */
    method LoadNew(path: string, assetType: Option<TypeRef>) returns (h: AssetHandler?)
      requires Valid() && UsersOk()
      modifies this`handlers, this`assetReprs, this`bundles, this`bundleReprs, this`errors, bundleReprs`referenceUsers
      ensures Valid() && UsersOk() && LoadedNew(h, path, assetType)
    {
      h := Make(path, assetType);
      if h != null {
        h.Load(this);
      }
    }

    /**
     * What the synchronous loads did: the handler found gained a reference
     * and was loaded; otherwise a new handler was made and loaded, or a
     * refused scene only logged an error.
     */
    twostate predicate SyncLoaded(new h: AssetHandler?, path: string, assetType: Option<TypeRef>)
      reads this`handlers, this`errors
      reads if h == null then {} else {h}
    {
      match old(FindAssetHandler(path, assetType))
      case Some(k) => h == old(handlers[k]) && Reloaded(h)
      case None => LoadedNew(h, path, assetType)
    }

    /** A found handler: one more reference; completed unless it was loading, which logged an error. */
    twostate predicate Reloaded(h: AssetHandler)
      reads this`handlers, this`errors, h`referenceCount, h`status
    {
      h.referenceCount == old(h.referenceCount) + 1 && handlers == old(handlers) &&
      if old(h.status) == Loading then h.status == Loading && errors == old(errors) + [AssetIsLoading(h.path)]
      else h.status == Completed && errors == old(errors)
    }

    /** A new handler of the right kind, with one reference, joined `handlers` and completed; or a refused scene logged an error. */
    twostate predicate LoadedNew(new h: AssetHandler?, path: string, assetType: Option<TypeRef>)
      reads this`handlers, this`errors
      reads if h == null then {} else {h}
    {
      if Refused(path, assetType) then h == null && handlers == old(handlers) && errors == old(errors) + [NoBundleInfo(path)]
      else h != null && fresh(h) && handlers == old(handlers) + [h] && errors == old(errors) &&
           h.status == Completed && h.referenceCount == 1 && h.path == ReplaceChar(path, '\\', '/') && h.assetType == assetType &&
           h.kind == KindFor(path, assetType)
    }

    /**
     * `Unload(handler)`: for a live handler only, one reference fewer (never
     * below zero); an unloadable handler is torn down and leaves `handlers`
     * together with every queued callback of its own.
     */
    method Unload(h: AssetHandler)
      requires Valid() && UsersOk()
      modifies assetReprs`referenceCount, assetReprs`handler, this`handlers, this`callbacks
      modifies this`bundles, bundleReprs`referenceUsers, bundleReprs`assetBundle
      ensures Valid() && UsersOk()
      ensures h !in old(handlers) ==>
                handlers == old(handlers) && callbacks == old(callbacks) && bundles == old(bundles) &&
                h.referenceCount == old(h.referenceCount) && unchanged(bundleReprs`referenceUsers, bundleReprs`assetBundle)
      ensures h in old(handlers) ==> h.referenceCount == if old(h.referenceCount) > 0 then old(h.referenceCount) - 1 else old(h.referenceCount)
      ensures h in old(handlers) && h.IsUnloadable() ==> Discarded(h)
      ensures h in old(handlers) && !h.IsUnloadable() ==>
                handlers == old(handlers) && callbacks == old(callbacks) && h.handler == old(h.handler) && bundles == old(bundles)
      ensures forall x :: x in old(assetReprs) && x != h ==> x.referenceCount == old(x.referenceCount) && x.handler == old(x.handler)
    {
      if h in handlers {
        if h.referenceCount > 0 {
          h.referenceCount := h.referenceCount - 1;
        }
        if h.IsUnloadable() {
          Discard(h);
        }
      }
    }

    /** `handler.Unload()`, then the handler and its callbacks are forgotten. */
    method Discard(h: AssetHandler)
      requires Valid() && UsersOk() && h in handlers && h.IsUnloadable()
      modifies h`handler, this`handlers, this`callbacks, this`bundles, bundleReprs`referenceUsers, bundleReprs`assetBundle
      ensures Valid() && UsersOk() && Discarded(h)
    {
      h.Unload(this);
      Forget(h);
    }

    /** `handlers.Remove(handler)`, `callbacks.RemoveAll(x => x.handler == handler)`. */
    method Forget(h: AssetHandler)
      requires Valid() && h in handlers
      modifies this`handlers, this`callbacks
      ensures Valid() && handlers == RemoveFirst(old(handlers), h) && h !in handlers && callbacks == WithoutHandler(old(callbacks), h)
    {
      RemoveFirstNoDuplicates(handlers, h);
      handlers := RemoveFirst(handlers, h);
      callbacks := WithoutHandler(callbacks, h);
    }

    /**
     * An unloadable handler torn down: out of `handlers`, its callbacks
     * dropped, a bundle asset detached from its bundle, which cascaded the
     * unload down every bundle it reaches.
     */
    twostate predicate Discarded(h: AssetHandler)
      reads this`handlers, this`callbacks, this`bundles, this`bundleReprs, h`handler, bundleReprs`referenceUsers, bundleReprs`assetBundle
    {
      handlers == RemoveFirst(old(handlers), h) && h !in handlers && callbacks == WithoutHandler(old(callbacks), h) &&
      (if h.kind == BundleAsset then h.handler == null else h.handler == old(h.handler)) &&
      (h.kind == BundleAsset && old(h.handler) != null ==>
         forall x :: x in old(bundleReprs) && x in bundleReprs ==> Cascaded(this, x, h, old(h.handler.reach)) && h !in x.referenceUsers)
    }

    /** The known asset handlers that have not started loading. */
    ghost function Waiting(): set<AssetHandler>
      reads this`assetReprs, assetReprs`status
    {
      set h | h in assetReprs && h.status == NotStarted
    }

    /** The known asset handlers that have completed. */
    ghost function Done(): set<AssetHandler>
      reads this`assetReprs, assetReprs`status
    {
      set h | h in assetReprs && h.status == Completed
    }

    /** `Advance` from the old state to this one. */
    twostate predicate Progressed()
      reads this`callbacks, this`drained, this`fetches, this`tasks, this`assetReprs, assetReprs`status
    {
      Advance(old(Waiting()), old(Done()), old(callbacks), old(drained), old(fetches), old(tasks),
              Waiting(), Done(), callbacks, drained, fetches, tasks)
    }

    /** The known handlers of `Resources` assets: the only ones whose asset a deferred task sets. */
    ghost function ResourcesHandlers(): set<AssetHandler>
      reads this`assetReprs
    {
      set x | x in assetReprs && x.kind == ResourcesAsset
    }

    /** The status of every known bundle handler. */
    ghost function BundleStates(): map<AssetBundleHandler, Status>
      reads this`bundleReprs, bundleReprs`status
    {
      map x | x in bundleReprs :: x.status
    }

    /** Every known bundle outside `reset` kept its status or went from not started to loading. */
    twostate predicate Started(reset: set<AssetBundleHandler>)
      reads this`bundleReprs, bundleReprs`status
    {
      OnlyStarted(old(BundleStates()), BundleStates(), reset)
    }

    /** In the editor, the asset database's path for a `Resources` handler, when it finds one. */
    function EditorAsset(path: string, assetType: Option<TypeRef>): Option<string>
    {
      if isEditor && (path, assetType) in editorAssets && editorAssets[(path, assetType)] != "" then
        Some(editorAssets[(path, assetType)])
      else
        None
    }

    /** The `for` loop of `LoadStartIfCan`: whether every thread is busy. */
    method ThreadsSaturated() returns (saturated: bool)
      ensures saturated == Saturated(Statuses(handlers), maxThreadCount)
    {
      ghost var ss := Statuses(handlers);
      var i := 0;
      var imax := |handlers|;
      var loadingCount := 0;
      while i < imax
        invariant 0 <= i <= imax && imax == |ss|
        invariant loadingCount == LoadingCount(ss[..i])
        invariant loadingCount == 0 || loadingCount < maxThreadCount
      {
        LoadingCountStep(ss, i);
        if handlers[i].status == Loading {
          loadingCount := loadingCount + 1;
          if loadingCount >= maxThreadCount {
            LoadingCountPrefix(ss, i + 1);
            return true;
          }
        }
        i := i + 1;
      }
      assert ss[..i] == ss;
      return false;
    }

    /**
     * The `while` loop of `OnLoadedAssetHandler`: invoke and remove queued
     * callbacks from the front as long as the front's handler is completed.
     */
    method DrainCompleted()
      requires CallbacksOk()
      modifies this`callbacks, this`drained
      ensures CallbacksOk() && Drained(old(callbacks), old(drained), callbacks, drained)
      ensures forall i :: |old(drained)| <= i < |drained| ==> drained[i].handler.status == Completed
      ensures callbacks == [] || callbacks[0].handler.status != Completed
    {
      while |callbacks| > 0 && callbacks[0].handler.status == Completed
        invariant CallbacksOk() && Drained(old(callbacks), old(drained), callbacks, drained)
        invariant forall i :: |old(drained)| <= i < |drained| ==> drained[i].handler.status == Completed
        decreases |callbacks|
      {
        ghost var n := |old(callbacks)| - |callbacks|;
        assert old(callbacks)[..n + 1] == old(callbacks)[..n] + [callbacks[0]];
        drained := drained + [callbacks[0]];
        callbacks := callbacks[1..];
      }
    }

    /**
     * `LoadStartIfCan()`: unless the threads are saturated, start the first
     * handler that has not started, if there is one.
     */
    method LoadStartIfCan() returns (ok: bool)
      requires Valid()
      modifies this`fetches, this`tasks, this`callbacks, this`drained, assetReprs`status, bundleReprs`status, bundleReprs`onLoaded
      decreases Waiting(), 4, 0
      ensures Valid() && Progressed() && Started({})
      ensures old(Saturated(Statuses(handlers), maxThreadCount) || FirstNotStarted(Statuses(handlers)).None?) ==>
                ok && unchanged(this`fetches, this`tasks, this`callbacks, this`drained, assetReprs`status, bundleReprs`status, bundleReprs`onLoaded)
      ensures !old(Saturated(Statuses(handlers), maxThreadCount)) && old(FirstNotStarted(Statuses(handlers))).Some? ==>
                old(handlers[FirstNotStarted(Statuses(handlers)).value]).status != NotStarted
    {
      var saturated := ThreadsSaturated();
      if saturated {
        return true;
      }
      var k := FirstNotStarted(Statuses(handlers));
      if k.None? {
        return true;
      }
      var h := handlers[k.value];
      ok := h.LoadAsync(this);
    }

    /** `OnLoadedAssetHandler()`: drain the completed front of the queue, then start a load if a thread is free. */
    method OnLoadedAssetHandler() returns (ok: bool)
      requires Valid()
      modifies this`fetches, this`tasks, this`callbacks, this`drained, assetReprs`status, bundleReprs`status, bundleReprs`onLoaded
      decreases Waiting(), 5, 0
      ensures Valid() && Progressed() && Started({})
    {
      DrainCompleted();
      label drainedNow:
      ok := LoadStartIfCan();
      OnlyStartedCompose(old(BundleStates()), old@drainedNow(BundleStates()), BundleStates(), {}, {}, {});
      AdvanceCompose(old(Waiting()), old(Done()), old(callbacks), old(drained), old(fetches), old(tasks),
                     old@drainedNow(Waiting()), old@drainedNow(Done()), old@drainedNow(callbacks), old@drainedNow(drained),
                     old@drainedNow(fetches), old@drainedNow(tasks),
                     Waiting(), Done(), callbacks, drained, fetches, tasks);
    }

    /** Run a bundle callback: the bundle of an asset is ready, or a dependency of `parent` is. */
    method Continue(cb: BundleCallback) returns (ok: bool)
      requires Valid() && CallbackWithin(cb, assetReprs, bundleReprs) && Ranked(cb)
      modifies this`fetches, this`tasks, this`callbacks, this`drained, assetReprs`status, bundleReprs`status, bundleReprs`onLoaded
      decreases Waiting(), 7, 1
      ensures Valid() && Progressed() && Started(Resets(cb))
      ensures cb.AssetReady? ==> BundleReadyDone(cb.asset, ok)
      ensures cb.DependencyReady? ==> cb.parent.status != NotStarted
    {
      match cb
      case AssetReady(h) =>
        ok := BundleReady(h);
      case DependencyReady(p, next) =>
        ok := Restart(p, next);
    }

    /** The closure a bundle leaves on its dependency: back to not started, then `LoadAsync(next)` again. */
    method Restart(p: AssetBundleHandler, next: BundleCallback) returns (ok: bool)
      requires Valid() && p in bundleReprs && CallbackWithin(next, assetReprs, bundleReprs) && RankedAbove(next, p.info.rank)
      modifies this`fetches, this`tasks, this`callbacks, this`drained, assetReprs`status, bundleReprs`status, bundleReprs`onLoaded
      decreases Waiting(), 7, 1, 0
      ensures Valid() && Progressed() && Started({p}) && p.status != NotStarted
    {
      Reset(p);
      label reset:
      ok := p.LoadAsync(this, next);
      OnlyStartedCompose(old(BundleStates()), old@reset(BundleStates()), BundleStates(), {p}, {}, {p});
    }

    /** `this.status = Status.None` on the bundle a dependency was waited on for. */
    method Reset(p: AssetBundleHandler)
      requires Valid() && p in bundleReprs
      modifies p`status
      ensures Valid() && p.status == NotStarted && Started({p})
      ensures Waiting() == old(Waiting()) && Done() == old(Done())
    {
      p.status := NotStarted;
    }

    /**
     * The closure `AssetBundleAssetHandler.LoadAsync` passes to its bundle:
     * a bundle of streamed scenes completes the asset at once; any other
     * bundle is asked for the asset. A handler detached from its bundle, or
     * a bundle whose file was missing, dereferences null.
     */
    method BundleReady(h: AssetHandler) returns (ok: bool)
      requires Valid() && h in assetReprs && h.kind == BundleAsset
      modifies this`fetches, this`tasks, this`callbacks, this`drained, assetReprs`status, bundleReprs`status, bundleReprs`onLoaded
      decreases Waiting(), 7, 0
      ensures Valid() && Progressed() && Started({}) && BundleReadyDone(h, ok)
    {
      if h.handler == null || h.handler.assetBundle.None? {
        return false;
      }
      if h.handler.assetBundle.value.isStreamedSceneAssetBundle {
        ok := SceneReady(h);
      } else {
        ok := RequestAsset(h);
      }
    }

    /** A bundle of streamed scenes: the asset completes as soon as its bundle has. */
    method SceneReady(h: AssetHandler) returns (ok: bool)
      requires Valid() && h in assetReprs && h.kind == BundleAsset
      requires h.handler != null && h.handler.assetBundle.Some? && h.handler.assetBundle.value.isStreamedSceneAssetBundle
      modifies this`fetches, this`tasks, this`callbacks, this`drained, assetReprs`status, bundleReprs`status, bundleReprs`onLoaded
      decreases Waiting(), 7, 0, 1
      ensures Valid() && Progressed() && Started({}) && BundleReadyDone(h, ok)
    {
      ok := Finish(h);
    }

    /**
     * Any other bundle: `LoadAssetAsync` or `LoadAssetWithSubAssetsAsync` on
     * the loaded bundle, asking for the query `AssetQueryOf` computes.
     */
    method RequestAsset(h: AssetHandler) returns (ok: bool)
      requires Valid() && h in assetReprs && h.kind == BundleAsset
      requires h.handler != null && h.handler.assetBundle.Some? && !h.handler.assetBundle.value.isStreamedSceneAssetBundle
      modifies this`fetches
      ensures Valid() && Progressed() && Started({}) && BundleReadyDone(h, ok)
    {
      var bundle := h.handler.assetBundle.value;
      var query := AssetQueryOf(h, bundle);
      ghost var b := h.handler;
      Issue(BundleAssetRequest(h, bundle, query));
      ok := true;
      assert h.handler == b && b.assetBundle == Some(bundle);
    }

    /** An engine request is issued: it joins the end of `fetches`, and nothing else changes. */
    method Issue(f: Fetch)
      requires Valid() && FetchWithin(f, assetReprs, bundleReprs)
      modifies this`fetches
      ensures Valid() && Progressed() && Started({}) && Issued(f)
    {
      fetches := fetches + [f];
      assert Waiting() == old(Waiting()) && Done() == old(Done()) && BundleStates() == old(BundleStates());
    }

    /** The only change is the request `f` joining the end of `fetches`. */
    twostate predicate Issued(f: Fetch)
      reads this`fetches, this`tasks, this`callbacks, this`drained, this`assetReprs, this`bundleReprs
      reads assetReprs`status, bundleReprs`status, bundleReprs`onLoaded
    {
      fetches == old(fetches) + [f] && assetReprs == old(assetReprs) && bundleReprs == old(bundleReprs) &&
      unchanged(this`tasks, this`callbacks, this`drained, old(assetReprs)`status, old(bundleReprs)`status, old(bundleReprs)`onLoaded)
    }

    /** What `BundleReady(h)` did, by the state of the bundle it found. */
    twostate predicate BundleReadyDone(h: AssetHandler, ok: bool)
      reads this`fetches, this`tasks, this`callbacks, this`drained, assetReprs`status, bundleReprs`status, bundleReprs`onLoaded, h`handler, h`status, h.handler, this`assetReprs, this`bundleReprs
    {
      if h.handler == null || h.handler.assetBundle.None? then
        !ok && assetReprs == old(assetReprs) && bundleReprs == old(bundleReprs) &&
        unchanged(this`fetches, this`tasks, this`callbacks, this`drained, old(assetReprs)`status, old(bundleReprs)`status, old(bundleReprs)`onLoaded)
      else if h.handler.assetBundle.value.isStreamedSceneAssetBundle then
        h.status == Completed
      else
        ok && Issued(BundleAssetRequest(h, h.handler.assetBundle.value, AssetQueryOf(h, h.handler.assetBundle.value)))
    }

    /**
     * `LoadAsync<T>(path, onLoaded)`: the handler found or made for the path
     * and type, with the caller's callback queued behind it.
     */
    method LoadAsync(path: string, assetType: TypeRef, listener: Option<nat>) returns (h: AssetHandler)
      requires Valid() && UsersOk()
      modifies this`handlers, this`assetReprs, this`bundles, this`bundleReprs, this`errors, this`callbacks, this`drained
      modifies this`fetches, this`tasks, bundleReprs`referenceUsers, assetReprs`referenceCount, assetReprs`status
      modifies bundleReprs`status, bundleReprs`onLoaded
      ensures Valid() && UsersOk() && AsyncQueued(h, path, Some(assetType), AssetCallback(listener))
    {
      var r := LoadAsyncWith(path, Some(assetType), AssetCallback(listener));
      h := r;
    }

    /**
     * `LoadSceneAssetAsync(path, onLoaded)`: the same without a type; outside
     * the editor a scene with no bundle info only logs an error and gets
     * `null`, and its callback is dropped.
     */
    method LoadSceneAssetAsync(path: string, listener: Option<nat>) returns (h: AssetHandler?)
      requires Valid() && UsersOk()
      modifies this`handlers, this`assetReprs, this`bundles, this`bundleReprs, this`errors, this`callbacks, this`drained
      modifies this`fetches, this`tasks, bundleReprs`referenceUsers, assetReprs`referenceCount, assetReprs`status
      modifies bundleReprs`status, bundleReprs`onLoaded
      ensures Valid() && UsersOk() && AsyncQueued(h, path, None, SceneCallback(listener))
    {
      h := LoadAsyncWith(path, None, SceneCallback(listener));
    }

    /** The body shared by the two asynchronous loads. */
    method LoadAsyncWith(path: string, assetType: Option<TypeRef>, cb: UserCallback) returns (h: AssetHandler?)
      requires Valid() && UsersOk()
      modifies this`handlers, this`assetReprs, this`bundles, this`bundleReprs, this`errors, this`callbacks, this`drained
      modifies this`fetches, this`tasks, bundleReprs`referenceUsers, assetReprs`referenceCount, assetReprs`status
      modifies bundleReprs`status, bundleReprs`onLoaded
      ensures Valid() && UsersOk() && AsyncQueued(h, path, assetType, cb)
    {
      var k := FindAssetHandler(path, assetType);
      if k.Some? {
        h := handlers[k.value];
        Requeue(h, cb);
      } else {
        h := LoadAsyncNew(path, assetType, cb);
      }
    }

    /** No live handler matched: make one, unless refused, queue the callback and start what can start. */
    method LoadAsyncNew(path: string, assetType: Option<TypeRef>, cb: UserCallback) returns (h: AssetHandler?)
      requires Valid() && UsersOk()
      modifies this`handlers, this`assetReprs, this`bundles, this`bundleReprs, this`errors, this`callbacks, this`drained
      modifies this`fetches, this`tasks, bundleReprs`referenceUsers, assetReprs`status, bundleReprs`status, bundleReprs`onLoaded
      ensures Valid() && UsersOk() && AsyncMade(h, path, assetType, cb)
    {
      h := MakeTracked(path, assetType);
      if h != null {
        ghost var hs := handlers;
        ghost var es := errors;
        ghost var rc := h.referenceCount;
        var started := Start(h, cb, old(Statuses(handlers)));
        assert handlers == hs && errors == es && h.referenceCount == rc;
      }
    }

    /** `Make`, with the statuses of the handlers extended by the new one's. */
    method MakeTracked(path: string, assetType: Option<TypeRef>) returns (h: AssetHandler?)
      requires Valid() && UsersOk()
      modifies this`handlers, this`assetReprs, this`bundles, this`bundleReprs, this`errors, bundleReprs`referenceUsers
      ensures Valid() && UsersOk() && Made(h, path, assetType)
      ensures old(bundleReprs) <= bundleReprs && forall b :: b in bundleReprs && b !in old(bundleReprs) ==> fresh(b)
      ensures h != null ==> Statuses(handlers) == old(Statuses(handlers)) + [NotStarted]
    {
      h := Make(path, assetType);
      if h != null {
        StatusesKept(old(handlers));
        StatusesSnoc(old(handlers), h);
      }
    }

    /** A live handler found again: one more reference, its callback queued, and a drain on the next frame if it is completed. */
    method Requeue(h: AssetHandler, cb: UserCallback)
      requires Valid() && h in handlers
      modifies h`referenceCount, this`callbacks, this`tasks
      ensures Valid() && h.referenceCount == old(h.referenceCount) + 1
      ensures callbacks == old(callbacks) + [Pending(h, cb)]
      ensures tasks == old(tasks) + if h.status == Completed then [DrainCallbacks] else []
    {
      h.referenceCount := h.referenceCount + 1;
      callbacks := callbacks + [Pending(h, cb)];
      if h.status == Completed {
        tasks := tasks + [DrainCallbacks];
      }
    }

    /** A handler just made: its callback queued, then `LoadStartIfCan()`. */
    method Start(h: AssetHandler, cb: UserCallback, ghost before: seq<Status>) returns (ok: bool)
      requires Valid() && UsersOk() && h in assetReprs && Statuses(handlers) == before + [NotStarted]
      modifies this`fetches, this`tasks, this`callbacks, this`drained, assetReprs`status, bundleReprs`status, bundleReprs`onLoaded
      ensures Valid() && UsersOk() && Drained(old(callbacks) + [Pending(h, cb)], old(drained), callbacks, drained)
      ensures !Saturated(before, maxThreadCount) ==> StartedFirst(before, handlers)
    {
      ghost var ss := Statuses(handlers);
      Enqueue(h, cb);
      ok := StartNext();
      FirstStarted(before, ss, handlers, maxThreadCount);
    }

    /** `LoadStartIfCan()`, which leaves the bundle users and the handlers' bundles alone. */
    method StartNext() returns (ok: bool)
      requires Valid() && UsersOk()
      modifies this`fetches, this`tasks, this`callbacks, this`drained, assetReprs`status, bundleReprs`status, bundleReprs`onLoaded
      ensures Valid() && UsersOk() && Progressed() && Started({})
      ensures old(Saturated(Statuses(handlers), maxThreadCount) || FirstNotStarted(Statuses(handlers)).None?) ==>
                ok && unchanged(this`fetches, this`tasks, this`callbacks, this`drained, assetReprs`status, bundleReprs`status, bundleReprs`onLoaded)
      ensures !old(Saturated(Statuses(handlers), maxThreadCount)) && old(FirstNotStarted(Statuses(handlers))).Some? ==>
                old(handlers[FirstNotStarted(Statuses(handlers)).value]).status != NotStarted
    {
      ok := LoadStartIfCan();
    }

    /** `callbacks.Add((handler, onLoaded))`. */
    method Enqueue(h: AssetHandler, cb: UserCallback)
      requires Valid() && UsersOk() && h in assetReprs
      modifies this`callbacks
      ensures Valid() && UsersOk() && callbacks == old(callbacks) + [Pending(h, cb)] && Statuses(handlers) == old(Statuses(handlers))
    {
      callbacks := callbacks + [Pending(h, cb)];
    }

    /**
     * What the asynchronous loads did. A found handler gained a reference
     * and exactly one queued callback, and a drain is scheduled when it is
     * already completed; nothing starts. A new handler of the right kind
     * joined `handlers` with its one callback queued, after which the queue
     * was only drained from the front and, unless every thread was busy,
     * the first handler not yet started (counting the new one) started. A
     * refused scene only logged an error.
     */
    twostate predicate AsyncQueued(new h: AssetHandler?, path: string, assetType: Option<TypeRef>, cb: UserCallback)
      reads this`handlers, this`errors, this`callbacks, this`drained, this`fetches, this`tasks, this`assetReprs, assetReprs`status, handlers`status
      reads if h == null then {} else {h}
    {
      match old(FindAssetHandler(path, assetType))
      case Some(k) => h == old(handlers[k]) && AsyncFound(h, cb)
      case None => AsyncMade(h, path, assetType, cb)
    }

    /** A found handler: one more reference and one queued callback, and a drain scheduled when it is completed. */
    twostate predicate AsyncFound(h: AssetHandler, cb: UserCallback)
      reads this`handlers, this`errors, this`callbacks, this`drained, this`fetches, this`tasks, h`referenceCount, h`status
    {
        h.referenceCount == old(h.referenceCount) + 1 && h.status == old(h.status) &&
        handlers == old(handlers) && errors == old(errors) && drained == old(drained) && fetches == old(fetches) &&
        callbacks == old(callbacks) + [Pending(h, cb)] &&
        tasks == old(tasks) + if h.status == Completed then [DrainCallbacks] else []
    }

    /** A new handler with its one callback queued, then the queue drained from the front and the first waiting load started; or a refused scene. */
    twostate predicate AsyncMade(new h: AssetHandler?, path: string, assetType: Option<TypeRef>, cb: UserCallback)
      reads this`handlers, this`errors, this`callbacks, this`drained, this`fetches, this`tasks, this`assetReprs, assetReprs`status, handlers`status
      reads if h == null then {} else {h}
    {
        if Refused(path, assetType) then
          h == null && handlers == old(handlers) && errors == old(errors) + [NoBundleInfo(path)] &&
          callbacks == old(callbacks) && drained == old(drained) && fetches == old(fetches) && tasks == old(tasks)
        else
          h != null && Joined(h, path, assetType) &&
          Drained(old(callbacks) + [Pending(h, cb)], old(drained), callbacks, drained) &&
          (!old(Saturated(Statuses(handlers), maxThreadCount)) ==> StartedFirst(old(Statuses(handlers)), handlers))
    }

    /**
     * The environment completes the engine request `fetches[i]`: it leaves
     * the list, and its continuation runs with `loaded`, the object the
     * engine returned (`None` for null), for an asset request.
     */
    method CompleteFetch(i: nat, loaded: Option<Asset>) returns (ok: bool)
      requires Valid() && i < |fetches|
      modifies this`fetches, this`tasks, this`callbacks, this`drained, assetReprs`status, assetReprs`asset
      modifies bundleReprs`status, bundleReprs`onLoaded, bundleReprs`assetBundle
      ensures Valid()
      ensures Advance(old(Waiting()), old(Done()), old(callbacks), old(drained), old(fetches[..i] + fetches[i + 1..]), old(tasks),
                      Waiting(), Done(), callbacks, drained, fetches, tasks)
      ensures FetchCompleted(old(fetches[i]), loaded, ok)
      ensures forall x :: x in assetReprs && x.kind == DummyAsset ==> x.asset == old(x.asset)
    {
      var f := fetches[i];
      assert FetchWithin(f, assetReprs, bundleReprs);
      fetches := fetches[..i] + fetches[i + 1..];
      ok := Resume(f, loaded);
    }

    /** The `completed` handler of a request that has left the list. */
    method Resume(f: Fetch, loaded: Option<Asset>) returns (ok: bool)
      requires Valid() && FetchWithin(f, assetReprs, bundleReprs)
      modifies this`fetches, this`tasks, this`callbacks, this`drained, assetReprs`status, assetReprs`asset
      modifies bundleReprs`status, bundleReprs`onLoaded, bundleReprs`assetBundle
      ensures Valid() && Progressed() && FetchCompleted(f, loaded, ok)
      ensures forall x :: x in assetReprs && x.kind == DummyAsset ==> x.asset == old(x.asset)
    {
      match f
      case ResourcesRequest(h, _, _) =>
        ok := AssetLoaded(h, loaded);
      case BundleFileRequest(b, cb) =>
        ok := BundleLoaded(b, cb);
      case BundleAssetRequest(h, _, _) =>
        if !h.isMonoBehaviour {
          ok := AssetLoaded(h, loaded);
        } else if loaded.Some? {
          ok := AssetLoaded(h, Some(ComponentOf(loaded.value, h.assetType)));
        } else {
          // `(asset as GameObject).GetComponent(type)` on null
          ok := false;
        }
    }

    /**
     * What completing a request did: an asset request stored the object
     * (the component of the `GameObject`, for a `MonoBehaviour` type) and
     * completed its handler; a bundle request stored the bundle file and
     * emptied the queued callbacks unless one of them failed.
     */
    twostate predicate FetchCompleted(f: Fetch, loaded: Option<Asset>, ok: bool)
      reads if f.BundleFileRequest? then {f.bundle} else {f.handler}
    {
      match f
      case ResourcesRequest(h, _, _) => h.asset == loaded && h.status == Completed
      case BundleFileRequest(b, _) => b.assetBundle == FileFor(b.info) && b.status == Completed && (ok ==> b.onLoaded == [])
      case BundleAssetRequest(h, _, _) =>
        if !h.isMonoBehaviour then h.asset == loaded && h.status == Completed
        else if loaded.Some? then h.asset == Some(ComponentOf(loaded.value, h.assetType)) && h.status == Completed
        else !ok
    }

    /** An asset request completed: the asset is stored, then the handler completes. */
    method AssetLoaded(h: AssetHandler, loaded: Option<Asset>) returns (ok: bool)
      requires Valid() && h in assetReprs && h.kind != DummyAsset
      modifies this`fetches, this`tasks, this`callbacks, this`drained, assetReprs`status, h`asset, bundleReprs`status, bundleReprs`onLoaded
      ensures Valid() && Progressed() && h.asset == loaded && h.status == Completed
    {
      h.asset := loaded;
      ok := Finish(h);
    }

    /**
     * `AssetBundle.LoadFromFileAsync` completed: the file (null when it is
     * missing) is stored and the bundle completes; the request's own
     * callback runs, then the callbacks queued while it loaded, in order,
     * and the queue is emptied. A callback that fails stops the rest.
     */
    method BundleLoaded(b: AssetBundleHandler, cb: BundleCallback) returns (ok: bool)
      requires Valid() && b in bundleReprs && CallbackWithin(cb, assetReprs, bundleReprs) && RankedAbove(cb, b.info.rank)
      modifies this`fetches, this`tasks, this`callbacks, this`drained, assetReprs`status, bundleReprs`status, bundleReprs`onLoaded
      modifies b`assetBundle
      ensures Valid() && Progressed() && b.assetBundle == FileFor(b.info) && b.status == Completed && (ok ==> b.onLoaded == [])
    {
      ok := StoreAndContinue(b, cb);
      if !ok {
        return;
      }
      label ran:
      NotReset(b, b.onLoaded);
      ok := RunQueued(b);
      AdvanceCompose(old(Waiting()), old(Done()), old(callbacks), old(drained), old(fetches), old(tasks),
                     old@ran(Waiting()), old@ran(Done()), old@ran(callbacks), old@ran(drained),
                     old@ran(fetches), old@ran(tasks),
                     Waiting(), Done(), callbacks, drained, fetches, tasks);
    }

    /** The file stored and the handler completed, then the request's own callback. */
    method StoreAndContinue(b: AssetBundleHandler, cb: BundleCallback) returns (ok: bool)
      requires Valid() && b in bundleReprs && CallbackWithin(cb, assetReprs, bundleReprs) && RankedAbove(cb, b.info.rank)
      modifies this`fetches, this`tasks, this`callbacks, this`drained, assetReprs`status, bundleReprs`status, bundleReprs`onLoaded
      modifies b`assetBundle
      ensures Valid() && Progressed() && b.assetBundle == FileFor(b.info) && b.status == Completed
    {
      StoreFile(b);
      label stored:
      assert b !in Resets(cb) && old@stored(BundleStates())[b] == Completed;
      ok := Continue(cb);
      assert BundleStates()[b] == Completed;
    }

    /** `this.assetBundle = request.assetBundle`, then completed. */
    method StoreFile(b: AssetBundleHandler)
      modifies b`assetBundle, b`status
      ensures b.assetBundle == FileFor(b.info) && b.status == Completed
    {
      b.assetBundle := FileFor(b.info);
      b.status := Completed;
    }

    /** `this.onLoaded?.Invoke()` and `this.onLoaded = null`, which a failing callback skips. */
    method RunQueued(b: AssetBundleHandler) returns (ok: bool)
      requires Valid() && b in bundleReprs
      modifies this`fetches, this`tasks, this`callbacks, this`drained, assetReprs`status, bundleReprs`status, bundleReprs`onLoaded
      ensures Valid() && Progressed() && Started(ResetsOf(old(b.onLoaded))) && (ok ==> b.onLoaded == [])
    {
      var queued := b.onLoaded;
      ok := RunAll(queued);
      if ok {
        b.onLoaded := [];
      }
    }

    /** `this.onLoaded?.Invoke()`: the queued bundle callbacks, in order, until one fails. */
    method RunAll(queued: seq<BundleCallback>) returns (ok: bool)
      requires Valid() && forall c :: c in queued ==> CallbackWithin(c, assetReprs, bundleReprs) && Ranked(c)
      modifies this`fetches, this`tasks, this`callbacks, this`drained, assetReprs`status, bundleReprs`status, bundleReprs`onLoaded
      ensures Valid() && Progressed() && Started(ResetsOf(queued))
    {
      var i := 0;
      while i < |queued|
        invariant 0 <= i <= |queued| && Valid() && Progressed() && Started(ResetsOf(queued))
        invariant assetReprs == old(assetReprs) && bundleReprs == old(bundleReprs)
      {
        label step:
        ok := Continue(queued[i]);
        OnlyStartedCompose(old(BundleStates()), old@step(BundleStates()), BundleStates(), ResetsOf(queued), Resets(queued[i]), ResetsOf(queued));
        AdvanceCompose(old(Waiting()), old(Done()), old(callbacks), old(drained), old(fetches), old(tasks),
                       old@step(Waiting()), old@step(Done()), old@step(callbacks), old@step(drained),
                       old@step(fetches), old@step(tasks),
                       Waiting(), Done(), callbacks, drained, fetches, tasks);
        if !ok {
          return;
        }
        i := i + 1;
      }
      ok := true;
    }

    /**
     * The next frame: every task deferred so far runs once, in order, and
     * tasks deferred while they run wait for the frame after. A task that
     * fails does not stop the others. Each deferred asset load has
     * completed its handler.
     */
    method RunNextFrame() returns (ok: bool)
      requires Valid()
      modifies this`fetches, this`tasks, this`callbacks, this`drained, assetReprs`status, ResourcesHandlers()`asset
      modifies bundleReprs`status, bundleReprs`onLoaded
      ensures Valid() && Drained(old(callbacks), old(drained), callbacks, drained) && old(fetches) <= fetches
      ensures old(Done()) <= Done() && Waiting() <= old(Waiting())
      ensures forall t :: t in old(tasks) && !t.DrainCallbacks? ==> t.handler.status == Completed
      ensures forall x :: x in assetReprs && x.kind == DummyAsset ==> x.asset == old(x.asset)
    {
      var frame := tasks;
      tasks := [];
      ok := RunTasks(frame);
    }

    /** The coroutines resumed this frame, in the order they were started. */
    method RunTasks(frame: seq<Task>) returns (ok: bool)
      requires Valid() && forall t :: t in frame ==> TaskWithin(t, assetReprs)
      modifies this`fetches, this`tasks, this`callbacks, this`drained, assetReprs`status, ResourcesHandlers()`asset
      modifies bundleReprs`status, bundleReprs`onLoaded
      ensures Valid() && Progressed()
      ensures forall t :: t in frame && !t.DrainCallbacks? ==> t.handler in Done()
    {
      ok := true;
      var i := 0;
      while i < |frame|
        invariant 0 <= i <= |frame| && Valid() && Progressed() && assetReprs == old(assetReprs)
        invariant forall j :: 0 <= j < i && !frame[j].DrainCallbacks? ==> frame[j].handler in Done()
      {
        label step:
        var r := RunTask(frame[i]);
        assert old@step(Done()) <= Done();
        AdvanceCompose(old(Waiting()), old(Done()), old(callbacks), old(drained), old(fetches), old(tasks),
                       old@step(Waiting()), old@step(Done()), old@step(callbacks), old@step(drained),
                       old@step(fetches), old@step(tasks),
                       Waiting(), Done(), callbacks, drained, fetches, tasks);
        ok := ok && r;
        i := i + 1;
      }
    }

    /** One deferred task: drain the queue, or complete an editor asset or a dummy. */
    method RunTask(t: Task) returns (ok: bool)
      requires Valid() && TaskWithin(t, assetReprs)
      modifies this`fetches, this`tasks, this`callbacks, this`drained, assetReprs`status, ResourcesHandlers()`asset
      modifies bundleReprs`status, bundleReprs`onLoaded
      ensures Valid() && Progressed()
      ensures !t.DrainCallbacks? ==> t.handler in Done()
      ensures t.EditorAssetLoaded? ==> t.handler.asset == Some(AtPath(t.assetPath, t.handler.assetType))
    {
      match t
      case DrainCallbacks =>
        ok := OnLoadedAssetHandler();
      case EditorAssetLoaded(h, p) =>
        // `AssetDatabase.LoadAssetAtPath(assetPath, type)`
        ok := AssetLoaded(h, Some(AtPath(p, h.assetType)));
      case DummyLoaded(h) =>
        ok := Finish(h);
    }

    /** Completed, then `onLoaded`, which is `OnLoadedAssetHandler`. */
    method Finish(h: AssetHandler) returns (ok: bool)
      requires Valid() && h in assetReprs
      modifies this`fetches, this`tasks, this`callbacks, this`drained, assetReprs`status, bundleReprs`status, bundleReprs`onLoaded
      decreases Waiting(), 7, 0, 0
      ensures Valid() && Progressed() && Started({}) && h.status == Completed
    {
      h.status := Completed;
      assert h in Done();
      label completed:
      ok := OnLoadedAssetHandler();
      OnlyStartedCompose(old(BundleStates()), old@completed(BundleStates()), BundleStates(), {}, {}, {});
      assert h in Done();
      AdvanceCompose(old(Waiting()), old(Done()), old(callbacks), old(drained), old(fetches), old(tasks),
                     old@completed(Waiting()), old@completed(Done()), old@completed(callbacks), old@completed(drained),
                     old@completed(fetches), old@completed(tasks),
                     Waiting(), Done(), callbacks, drained, fetches, tasks);
    }
  }
}
