/**
 * The integer part of `PipeMeshEditor`: `CreateMesh` rebuilds the list of
 * rings, one per point of the path, each `Ring` holding `sidesCount + 1`
 * points with the last one a copy of the first, and then joins neighbouring
 * rings with the same two-triangles-per-side layout as the tube mesh.
 *
 * Ring centres, directions and point positions are floating-point geometry;
 * a point is identified by the ring it belongs to and its place on the circle.
 */
module PipeMesh {
  import opened Wrappers
  import opened IndexMath
  import TubeMesh

  /** A ring point: the `side`-th point on the circle around path point `center`, or the zero vector. */
  datatype Point = OnCircle(center: nat, side: int) | Origin

  datatype Mesh = Mesh(vertices: seq<Point>, triangles: seq<int>, uvX: seq<int>)

  /** Exceptions the .NET runtime raises inside `CreateMesh`. */
  datatype Failure =
    | PointIndexOutOfRange  // `GetPoint(i - 1)` for a one-point path, or `points[sidesCount]` with sidesCount == -1
    | NegativeArraySize     // `new Vector3[sidesCount + 1]` with sidesCount < -1

  /** The point the `Ring` constructor leaves at index `j`. */
  function RingPoint(center: nat, sidesCount: nat, j: int): Point
  {
    if 0 <= j < sidesCount then OnCircle(center, j)
    else if sidesCount == 0 then Origin   // points[0] = points[0] on a never-written array
    else OnCircle(center, 0)
  }

  class Ring {
    /** The path point the ring is centred on. */
    const center: nat
    var points: array<Point>
    /** The field keeps its initialiser: the constructor never stores its argument. */
    var sidesCount: int

    constructor (center: nat, sidesCount: nat)
      ensures this.center == center && this.sidesCount == 16
      ensures fresh(points) && points.Length == sidesCount + 1
      ensures forall j :: 0 <= j < points.Length ==> points[j] == RingPoint(center, sidesCount, j)
      ensures points[sidesCount] == points[0]
    {
      this.center := center;
      this.sidesCount := 16;
      var pts := new Point[sidesCount + 1](_ => Origin);
      var i := 0;
      while i < sidesCount
        invariant 0 <= i <= sidesCount
        invariant forall j :: 0 <= j < i ==> pts[j] == OnCircle(center, j)
        invariant forall j :: i <= j <= sidesCount ==> pts[j] == Origin
      {
        pts[i] := OnCircle(center, i);
        i := i + 1;
      }
      pts[sidesCount] := pts[0];
      points := pts;
    }
  }

  /** The pipe `CreateMesh` builds from `n` path points with `sidesCount` sides per ring. */
  ghost predicate PipeLayout(mesh: Mesh, n: nat, sidesCount: nat)
  {
    var m := sidesCount + 1;
    |mesh.vertices| == n * m &&
    (forall k :: 0 <= k < |mesh.vertices| ==> mesh.vertices[k] == RingPoint(k / m, sidesCount, k % m)) &&
    TubeMesh.QuadsUpTo(mesh.triangles, TubeMesh.QuadCount(n, m), m) &&
    |mesh.uvX| == n * m &&
    (forall k :: 0 <= k < |mesh.uvX| ==> mesh.uvX[k] == k % m)
  }

  /** Each ring `k` of `rings` is the ring around path point `k` with `sidesCount + 1` points. */
  ghost predicate RingsBuilt(rings: seq<Ring>, sidesCount: nat)
    reads rings, set r | r in rings :: r.points
  {
    forall k :: 0 <= k < |rings| ==>
      rings[k].center == k && rings[k].points.Length == sidesCount + 1 &&
      forall j :: 0 <= j <= sidesCount ==> rings[k].points[j] == RingPoint(k, sidesCount, j)
  }

  class PipeMeshEditor {
    const sidesCount: int
    var rings: seq<Ring>
    /** `meshFilter.mesh`. */
    var mesh: Option<Mesh>

    constructor (sidesCount: int)
      ensures this.sidesCount == sidesCount && rings == [] && mesh == None
    {
      this.sidesCount := sidesCount;
      rings := [];
      mesh := None;
    }

    /**
     * `CreateMesh` for a path of `numPoints` points. On an exception the
     * rings built so far stay in the list and the mesh filter keeps its
     * old mesh.
     */
    method CreateMesh(numPoints: nat) returns (failure: Option<Failure>)
      modifies this
      ensures failure == RingFailure(numPoints, sidesCount)
      ensures failure.Some? ==> rings == [] && mesh == old(mesh)
      ensures failure.None? ==> |rings| == numPoints && mesh.Some?
      ensures forall k :: 0 <= k < |rings| ==> fresh(rings[k]) && fresh(rings[k].points)
      ensures failure.None? && numPoints > 0 ==>
        RingsBuilt(rings, sidesCount) && PipeLayout(mesh.value, numPoints, sidesCount)
      ensures failure.None? && numPoints == 0 ==> mesh == Some(Mesh([], [], []))
    {
      rings := [];
      var built;
      built, failure := BuildRings(numPoints, sidesCount);
      rings := built;
      if failure.Some? {
        return;
      }
      if numPoints == 0 {
        mesh := Some(Mesh([], [], []));
        return;
      }
      var vertices := Flatten(built, sidesCount);
      var triangles := Triangles(built, sidesCount);
      var uvs := UvX(built, sidesCount);
      LaidOut(vertices, triangles, uvs, numPoints, sidesCount);
      mesh := Some(Mesh(vertices, triangles, uvs));
    }
  }

  /** The vertices, triangles and uvs of `n` rings make up their pipe. */
  lemma LaidOut(vertices: seq<Point>, triangles: seq<int>, uvs: seq<int>, n: nat, sidesCount: nat)
    requires |vertices| == n * (sidesCount + 1)
    requires forall k :: 0 <= k < |vertices| ==> vertices[k] == RingPoint(k / (sidesCount + 1), sidesCount, k % (sidesCount + 1))
    requires TubeMesh.QuadsUpTo(triangles, TubeMesh.QuadCount(n, sidesCount + 1), sidesCount + 1)
    requires |uvs| == n * (sidesCount + 1)
    requires forall k :: 0 <= k < |uvs| ==> uvs[k] == k % (sidesCount + 1)
    ensures PipeLayout(Mesh(vertices, triangles, uvs), n, sidesCount)
  {
  }

  /** The exception `CreateMesh` runs into, if any, while building the rings. */
  function RingFailure(numPoints: nat, sidesCount: int): (r: Option<Failure>)
    ensures r.None? <==> numPoints == 0 || (numPoints > 1 && sidesCount >= 0)
  {
    if numPoints == 0 then None
    else if numPoints == 1 then Some(PointIndexOutOfRange)
    else if sidesCount < -1 then Some(NegativeArraySize)
    else if sidesCount == -1 then Some(PointIndexOutOfRange)
    else None
  }

  /**
   * The ring loop of `CreateMesh`: for each path point its direction (which
   * needs a neighbouring point) and its `Ring`. An exception leaves the rings
   * built before it; as every failure happens at the first point, none.
   */
  method BuildRings(numPoints: nat, sidesCount: int) returns (rings: seq<Ring>, failure: Option<Failure>)
    ensures failure == RingFailure(numPoints, sidesCount)
    ensures failure.Some? ==> rings == []
    ensures failure.None? ==> |rings| == numPoints
    ensures forall k :: 0 <= k < |rings| ==> fresh(rings[k]) && fresh(rings[k].points)
    ensures failure.None? && numPoints > 0 ==> RingsBuilt(rings, sidesCount)
  {
    rings := [];
    var imax := numPoints;
    var i: int := 0;
    while i < imax
      invariant 0 <= i <= imax
      invariant imax == 1 ==> i == 0
      invariant i > 0 ==> sidesCount >= 0 && imax > 1
      invariant |rings| == i
      invariant forall k :: 0 <= k < i ==> fresh(rings[k]) && fresh(rings[k].points)
      invariant sidesCount >= 0 ==> RingsBuilt(rings, sidesCount)
    {
      if !(i < imax - 1) && i - 1 < 0 {
        // the ring's direction needs GetPoint(i - 1)
        return [], Some(PointIndexOutOfRange);
      }
      if sidesCount + 1 < 0 {
        return [], Some(NegativeArraySize);
      } else if sidesCount < 0 {
        // points[sidesCount] = points[0] on an empty array
        return [], Some(PointIndexOutOfRange);
      }
      var ring := new Ring(i, sidesCount);
      rings := rings + [ring];
      i := i + 1;
    }
    failure := None;
  }

  /** `rings.SelectMany(x => x.points).ToArray()`. */
  method Flatten(rings: seq<Ring>, sidesCount: nat) returns (vertices: seq<Point>)
    requires RingsBuilt(rings, sidesCount)
    ensures var m := sidesCount + 1;
      |vertices| == |rings| * m &&
      forall k :: 0 <= k < |vertices| ==> vertices[k] == RingPoint(k / m, sidesCount, k % m)
  {
    var m := sidesCount + 1;
    vertices := [];
    var i := 0;
    while i < |rings|
      invariant 0 <= i <= |rings|
      invariant |vertices| == i * m
      invariant forall k :: 0 <= k < |vertices| ==> vertices[k] == RingPoint(k / m, sidesCount, k % m)
    {
      vertices := AppendRing(vertices, rings[i].points, i, sidesCount);
      i := i + 1;
    }
  }

  /** One ring's points appended behind the rings before it. */
  method AppendRing(vertices: seq<Point>, points: array<Point>, i: nat, sidesCount: nat) returns (vs: seq<Point>)
    requires points.Length == sidesCount + 1 && |vertices| == i * (sidesCount + 1)
    requires forall j :: 0 <= j <= sidesCount ==> points[j] == RingPoint(i, sidesCount, j)
    requires forall k :: 0 <= k < |vertices| ==> vertices[k] == RingPoint(k / (sidesCount + 1), sidesCount, k % (sidesCount + 1))
    ensures var m := sidesCount + 1;
      |vs| == (i + 1) * m &&
      forall k :: 0 <= k < |vs| ==> vs[k] == RingPoint(k / m, sidesCount, k % m)
  {
    var m := sidesCount + 1;
    vs := vertices;
    var j := 0;
    while j < points.Length
      invariant 0 <= j <= m
      invariant |vs| == i * m + j
      invariant forall k :: 0 <= k < |vs| ==> vs[k] == RingPoint(k / m, sidesCount, k % m)
    {
      AppendPoint(vs, i, j, sidesCount, points[j]);
      vs := vs + [points[j]];
      j := j + 1;
    }
    assert (i + 1) * m == i * m + m;
  }

  /** Point `j` of ring `i` lands at index `i * m + j` of the flattened vertices. */
  lemma AppendPoint(vertices: seq<Point>, i: nat, j: nat, sidesCount: nat, p: Point)
    requires j <= sidesCount && |vertices| == i * (sidesCount + 1) + j && p == RingPoint(i, sidesCount, j)
    requires forall k :: 0 <= k < |vertices| ==> vertices[k] == RingPoint(k / (sidesCount + 1), sidesCount, k % (sidesCount + 1))
    ensures forall k :: 0 <= k < |vertices| + 1 ==>
      (vertices + [p])[k] == RingPoint(k / (sidesCount + 1), sidesCount, k % (sidesCount + 1))
  {
    GridIndex(i, j, i + 1, sidesCount + 1);
  }

  /** The triangle loop, with `a, c, d` and `a, d, b` for each side. */
  method Triangles(rings: seq<Ring>, sidesCount: nat) returns (triangles: seq<int>)
    requires RingsBuilt(rings, sidesCount)
    ensures TubeMesh.QuadsUpTo(triangles, TubeMesh.QuadCount(|rings|, sidesCount + 1), sidesCount + 1)
  {
    ghost var m := sidesCount + 1;
    var imax := |rings| - 1;
    triangles := [];
    var i := 0;
    var offset := 0;
    while i < imax
      invariant 0 <= i <= if imax < 0 then 0 else imax
      invariant offset == i * m
      invariant TubeMesh.QuadsUpTo(triangles, i * m, m)
    {
      triangles := JoinRings(triangles, offset, rings[i].points.Length, i, m);
      assert (i + 1) * m == i * m + m;
      offset := offset + rings[i].points.Length;
      i := i + 1;
    }
    assert i * m == TubeMesh.QuadCount(|rings|, m);
  }

  /** The inner triangle loop: the quads of every side between ring `i` and ring `i + 1`. */
  method JoinRings(triangles: seq<int>, offset: int, jmax: int, ghost i: nat, ghost m: nat) returns (t: seq<int>)
    requires jmax == m && offset == i * m && TubeMesh.QuadsUpTo(triangles, i * m, m)
    ensures TubeMesh.QuadsUpTo(t, i * m + m, m)
  {
    t := triangles;
    var j := 0;
    while j < jmax
      invariant 0 <= j <= jmax
      invariant TubeMesh.QuadsUpTo(t, i * m + j, m)
    {
      var a := offset + j;
      var b := ((a + 1) % jmax) + offset;
      var c := a + jmax;
      var d := b + jmax;
      TubeMesh.NextQuad(t, i, j, m, a, b, c, d);
      t := t + [a, c, d, a, d, b];
      j := j + 1;
    }
  }

  /** The uv loop: one uv per ring point, with x the point's place on the ring. */
  method UvX(rings: seq<Ring>, sidesCount: nat) returns (uvs: seq<int>)
    requires RingsBuilt(rings, sidesCount)
    ensures |uvs| == |rings| * (sidesCount + 1)
    ensures forall k :: 0 <= k < |uvs| ==> uvs[k] == k % (sidesCount + 1)
  {
    ghost var m := sidesCount + 1;
    uvs := [];
    var i := 0;
    while i < |rings|
      invariant 0 <= i <= |rings|
      invariant |uvs| == i * m
      invariant forall k :: 0 <= k < |uvs| ==> uvs[k] == k % m
    {
      var j := 0;
      while j < rings[i].points.Length
        invariant 0 <= j <= m
        invariant |uvs| == i * m + j
        invariant forall k :: 0 <= k < |uvs| ==> uvs[k] == k % m
      {
        GridIndex(i, j, i + 1, m);
        uvs := uvs + [j];
        j := j + 1;
      }
      assert (i + 1) * m == i * m + m;
      i := i + 1;
    }
  }

  /** The last point of every ring in the mesh is a copy of the ring's first point. */
  lemma {:induction false} SeamRepeatsFirstPoint(mesh: Mesh, n: nat, sidesCount: nat, i: nat)
    requires PipeLayout(mesh, n, sidesCount) && i < n
    ensures var m := sidesCount + 1;
      0 <= TubeMesh.Index(i, 0, m) < TubeMesh.Index(i, sidesCount, m) + 1 <= |mesh.vertices| &&
      mesh.vertices[TubeMesh.Index(i, sidesCount, m)] == mesh.vertices[TubeMesh.Index(i, 0, m)]
  {
    var m := sidesCount + 1;
    GridIndex(i, 0, n, m);
    GridIndex(i, sidesCount, n, m);
  }

  /** Every ring point, except the seam copy, is a distinct point of the ring's circle. */
  lemma {:induction false} RingPointsDistinct(mesh: Mesh, n: nat, sidesCount: nat, i: nat, j: nat)
    requires PipeLayout(mesh, n, sidesCount) && i < n && j < sidesCount
    ensures var m := sidesCount + 1;
      TubeMesh.Index(i, j, m) < |mesh.vertices| &&
      mesh.vertices[TubeMesh.Index(i, j, m)] == OnCircle(i, j) &&
      mesh.uvX[TubeMesh.Index(i, j, m)] == j
  {
    GridIndex(i, j, n, sidesCount + 1);
  }
  /**
   * The pipe's triangle list holds 6 indices per side of each pair of
   * neighbouring rings, and every index names a vertex of the pipe.
   */
  lemma {:induction false} TrianglesInRange(mesh: Mesh, n: nat, sidesCount: nat, e: nat)
    requires PipeLayout(mesh, n, sidesCount)
    ensures n >= 1 ==> |mesh.triangles| == 6 * (n - 1) * (sidesCount + 1)
    ensures n <= 1 ==> mesh.triangles == []
    ensures e < |mesh.triangles| ==> 0 <= mesh.triangles[e] < |mesh.vertices|
  {
    var m := sidesCount + 1;
    var slots := seq(n * m, k requires 0 <= k < n * m => TubeMesh.Slot(k / m, k % m));
    var tube := TubeMesh.Mesh(slots, mesh.triangles, seq(n * m, k requires 0 <= k < n * m => k % m));
    assert TubeMesh.TubeLayout(tube, n, m);
    TubeMesh.TriangleCount(tube, n, m);
    if e < |mesh.triangles| {
      TubeMesh.TriangleIndicesInRange(tube, n, m, e);
    }
  }
}
