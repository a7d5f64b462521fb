/**
 * The integer part of `TubeMeshData.CreateMesh`: a tube is a chain of
 * rings, one per point of the Bezier path, each with `edgeCount + 1`
 * vertices (the first vertex is repeated at the end so that the texture
 * seam has its own UV). Consecutive rings are joined by two triangles per
 * side, and every vertex gets the UV x coordinate of its slot on the ring.
 *
 * Vertex positions and the UV y coordinate are floating-point geometry and
 * are not modelled; a vertex is identified by its ring and its slot.
 */
module TubeMesh {
  import opened Wrappers
  import opened IndexMath

  /** The vertex at position `side` of ring `ring`. */
  datatype Slot = Slot(ring: int, side: int)

  datatype Mesh = Mesh(vertices: seq<Slot>, triangles: seq<int>, uvX: seq<int>)

  /** Exceptions the .NET runtime raises inside `CreateMesh`. */
  datatype Failure =
    | NegativeArraySize     // `new T[edgeCount + 1]` with edgeCount < -1
    | PointIndexOutOfRange  // `GetPoint(i - 1)` for the only point of a one-point path

  datatype Outcome = NoMesh | Failed(failure: Failure) | Built(mesh: Mesh)

  // ---------------------------------------------------------------------
  // the layout the method produces

  /** Where vertex (i, j) sits in the flattened vertex array of rings of `m` vertices. */
  function Index(i: int, j: int, m: int): int
  {
    i * m + j
  }

  /** The two triangles joining side j of ring i to ring i + 1. */
  function Quad(i: int, j: int, m: int): seq<int>
    requires m > 0
  {
    var a0 := Index(i, j, m);
    var a1 := Index(i, (j + 1) % m, m);
    var b0 := Index(i + 1, j, m);
    var b1 := Index(i + 1, (j + 1) % m, m);
    [a0, b0, b1, a0, b1, a1]
  }

  /** The `q`-th quad, counting sides within rings. */
  function QuadOf(q: int, m: int): seq<int>
  {
    if m <= 0 then [] else Quad(q / m, q % m, m)
  }

  /** The six indices of quad `q` in the triangle list. */
  function Slice(tris: seq<int>, q: int): seq<int>
    requires 0 <= q && 6 * q + 6 <= |tris|
  {
    tris[6 * q..6 * q + 6]
  }

  /** Number of quads between `n` rings of `m` vertices. */
  function QuadCount(n: nat, m: nat): nat
  {
    if n == 0 then 0 else (n - 1) * m
  }

  ghost predicate QuadsUpTo(tris: seq<int>, count: nat, m: nat)
  {
    |tris| == 6 * count &&
    forall q :: 0 <= q < count ==> Slice(tris, q) == QuadOf(q, m)
  }

  ghost predicate RingsLaidOut(vertices: seq<Slot>, n: nat, m: nat)
  {
    |vertices| == n * m &&
    forall k :: 0 <= k < |vertices| ==> vertices[k] == Slot(k / m, k % m)
  }

  /** What `CreateMesh` builds for `n` path points and rings of `m` vertices. */
  ghost predicate TubeLayout(mesh: Mesh, n: nat, m: nat)
  {
    RingsLaidOut(mesh.vertices, n, m) &&
    QuadsUpTo(mesh.triangles, QuadCount(n, m), m) &&
    |mesh.uvX| == n * m &&
    forall k :: 0 <= k < |mesh.uvX| ==> mesh.uvX[k] == mesh.vertices[k].side
  }

  /** `ringVerts` holds `n` rings of `m` slots each, ring k holding its own slots in order. */
  ghost predicate RingsBuilt(ringVerts: array<array?<Slot>>, n: int, m: int)
    reads ringVerts, ringVerts[..]
  {
    forall k :: 0 <= k < n && k < ringVerts.Length ==>
      ringVerts[k] != null && ringVerts[k].Length == m &&
      forall j :: 0 <= j < m ==> ringVerts[k][j] == Slot(k, j)
  }

  // ---------------------------------------------------------------------
  // arithmetic of the index layout

  /** Slot indexing is a bijection between (ring, side) pairs and [0, n * m). */
  lemma {:induction false} IndexBijection(n: nat, m: nat, k: int)
    requires 0 <= k < n * m
    ensures m > 0 && 0 <= k / m < n && 0 <= k % m < m && Index(k / m, k % m, m) == k
    ensures forall i, j :: 0 <= i < n && 0 <= j < m && Index(i, j, m) == k ==> i == k / m && j == k % m
  {
    GridCell(k, n, m);
    forall i, j | 0 <= i < n && 0 <= j < m && Index(i, j, m) == k ensures i == k / m && j == k % m {
      GridIndex(i, j, n, m);
    }
  }

  // ---------------------------------------------------------------------
  // CreateMesh

  method CreateMesh(hasBezier: bool, numPoints: nat, edgeCount: int) returns (r: Outcome)
    ensures !hasBezier <==> r == NoMesh
    ensures hasBezier && edgeCount < -1 ==> r == Failed(NegativeArraySize)
    ensures hasBezier && edgeCount >= -1 && numPoints == 1 ==> r == Failed(PointIndexOutOfRange)
    ensures hasBezier && edgeCount >= -1 && numPoints != 1 ==>
      r.Built? && TubeLayout(r.mesh, numPoints, edgeCount + 1)
  {
    if !hasBezier {
      return NoMesh;
    }

    var ringVerts, failure := BuildRings(numPoints, edgeCount);
    if failure.Some? {
      return Failed(failure.value);
    }
    var imax := ringVerts.Length;
    ghost var m: nat := if edgeCount + 1 < 0 then 0 else edgeCount + 1;

    var triangles := Triangles(ringVerts, m);
    // the uv of every vertex; uv[k].y is floating-point and left out
    if numPoints * (edgeCount + 1) < 0 || edgeCount + 1 < 0 {
      return Failed(NegativeArraySize);
    }
    var uv := UvX(ringVerts, edgeCount + 1, numPoints * (edgeCount + 1));
    var vertices := Flatten(ringVerts, m);
    r := Built(Mesh(vertices, triangles, uv));
    forall k | 0 <= k < |uv| ensures uv[k] == vertices[k].side {
      IndexBijection(imax, m, k);
    }
  }

  /**
   * The ring loop: ring i gets `edgeCount + 1` vertices. The array
   * allocation fails first for a negative size; a one-point path then fails
   * on the direction of its only ring.
   */
  method BuildRings(numPoints: nat, edgeCount: int) returns (ringVerts: array<array?<Slot>>, failure: Option<Failure>)
    ensures ringVerts.Length == numPoints
    ensures failure.None? <==> numPoints == 0 || (edgeCount >= -1 && numPoints != 1)
    ensures failure.Some? ==> failure.value == if edgeCount < -1 then NegativeArraySize else PointIndexOutOfRange
    ensures failure.None? ==> RingsBuilt(ringVerts, numPoints, edgeCount + 1)
  {
    ringVerts := new array?<Slot>[numPoints];
    var imax := ringVerts.Length;
    var i := 0;
    while i < imax
      invariant 0 <= i <= imax
      invariant i > 0 ==> edgeCount + 1 >= 0
      invariant imax == 1 ==> i == 0
      invariant RingsBuilt(ringVerts, i, edgeCount + 1)
    {
      if edgeCount + 1 < 0 {
        return ringVerts, Some(NegativeArraySize);
      }
      var ring := new Slot[edgeCount + 1];
      ringVerts[i] := ring;
      if !(i < imax - 1) && i - 1 < 0 {
        // the ring's direction needs GetPoint(i - 1)
        return ringVerts, Some(PointIndexOutOfRange);
      }
      FillRing(ring, i);
      i := i + 1;
    }
    failure := None;
  }

  /** The vertex loop of ring `i`: slot j holds vertex (i, j). */
  method FillRing(ring: array<Slot>, i: int)
    modifies ring
    ensures forall j :: 0 <= j < ring.Length ==> ring[j] == Slot(i, j)
  {
    var j := 0;
    while j < ring.Length
      invariant 0 <= j <= ring.Length
      invariant forall j' :: 0 <= j' < j ==> ring[j'] == Slot(i, j')
    {
      ring[j] := Slot(i, j);
      j := j + 1;
    }
  }

  /** The triangle loop: two triangles per side between ring i and ring i + 1. */
  method Triangles(ringVerts: array<array?<Slot>>, ghost m: nat) returns (triangles: seq<int>)
    requires RingsBuilt(ringVerts, ringVerts.Length, m)
    ensures QuadsUpTo(triangles, QuadCount(ringVerts.Length, m), m)
  {
    var imax := ringVerts.Length;
    triangles := [];
    var i := 0;
    var offset := 0;
    while i < imax - 1
      invariant 0 <= i <= if imax == 0 then 0 else imax - 1
      invariant offset == i * m
      invariant QuadsUpTo(triangles, i * m, m)
    {
      var jmax := ringVerts[i].Length;
      var j := 0;
      while j < jmax
        invariant 0 <= j <= jmax
        invariant QuadsUpTo(triangles, i * m + j, m)
      {
        var a0 := offset + j;
        var a1 := ((a0 + 1) % jmax) + offset;
        var b0 := a0 + jmax;
        var b1 := a1 + jmax;
        NextQuad(triangles, i, j, m, a0, a1, b0, b1);
        triangles := triangles + [a0, b0, b1] + [a0, b1, a1];
        j := j + 1;
      }
      assert (i + 1) * m == i * m + m;
      offset := offset + ringVerts[i].Length;
      i := i + 1;
    }
    assert i * m == QuadCount(imax, m);
  }

  /** The uv loop: slot `k = i * (edgeCount + 1) + j` gets x coordinate `j`. */
  method UvX(ringVerts: array<array?<Slot>>, m: nat, size: nat) returns (uvX: seq<int>)
    requires RingsBuilt(ringVerts, ringVerts.Length, m)
    requires size == ringVerts.Length * m
    ensures |uvX| == size
    ensures forall k :: 0 <= k < size ==> uvX[k] == k % m
  {
    var uv := new int[size];
    ghost var done := 0;
    var i := 0;
    while i < ringVerts.Length
      invariant 0 <= i <= ringVerts.Length
      invariant done == i * m <= size
      invariant forall k :: 0 <= k < done ==> uv[k] == k % m
      invariant RingsBuilt(ringVerts, ringVerts.Length, m)
    {
      var jmax := ringVerts[i].Length;
      var j := 0;
      MulMonotone(i + 1, ringVerts.Length, m);
      while j < jmax
        invariant 0 <= j <= jmax
        invariant done == i * m + j <= size
        invariant forall k :: 0 <= k < done ==> uv[k] == k % m
        invariant RingsBuilt(ringVerts, ringVerts.Length, m)
      {
        var k := i * m + j;
        GridIndex(i, j, ringVerts.Length, m);
        uv[k] := j;
        j := j + 1;
        done := done + 1;
      }
      i := i + 1;
    }
    uvX := uv[..];
  }

  /** Appending quad (i, j), written with the running `offset`, extends the quads laid out so far. */
  lemma {:induction false} NextQuad(tris: seq<int>, i: nat, j: nat, m: nat, a0: int, a1: int, b0: int, b1: int)
    requires j < m && QuadsUpTo(tris, i * m + j, m)
    requires a0 == i * m + j && a1 == ((a0 + 1) % m) + i * m && b0 == a0 + m && b1 == a1 + m
    ensures QuadsUpTo(tris + [a0, b0, b1] + [a0, b1, a1], i * m + j + 1, m)
  {
    var q := i * m + j;
    var t := tris + [a0, b0, b1] + [a0, b1, a1];
    RunningOffsets(i, j, m, a0, a1, b0, b1);
    assert Slice(t, q) == [a0, b0, b1, a0, b1, a1];
    forall p | 0 <= p < q + 1 ensures Slice(t, p) == QuadOf(p, m) {
      if p < q {
        assert Slice(t, p) == Slice(tris, p);
      }
    }
  }

  /** The indices computed from the running offset are those of quad (i, j). */
  lemma RunningOffsets(i: nat, j: nat, m: nat, a0: int, a1: int, b0: int, b1: int)
    requires j < m
    requires a0 == i * m + j && a1 == ((a0 + 1) % m) + i * m && b0 == a0 + m && b1 == a1 + m
    ensures QuadOf(i * m + j, m) == [a0, b0, b1, a0, b1, a1]
  {
    GridIndex(i, j, i + 1, m);
    NextColumn(i, j, m);
    assert (i + 1) * m == i * m + m;
  }

  /** `ringVerts.SelectMany(x => x).ToArray()`: the rings' vertices one ring after the other. */
  method Flatten(ringVerts: array<array?<Slot>>, ghost m: nat) returns (vertices: seq<Slot>)
    requires RingsBuilt(ringVerts, ringVerts.Length, m)
    ensures RingsLaidOut(vertices, ringVerts.Length, m)
  {
    vertices := [];
    var i := 0;
    while i < ringVerts.Length
      invariant 0 <= i <= ringVerts.Length
      invariant RingsLaidOut(vertices, i, m)
    {
      var j := 0;
      while j < ringVerts[i].Length
        invariant 0 <= j <= m
        invariant |vertices| == i * m + j
        invariant forall k :: 0 <= k < |vertices| ==> vertices[k] == Slot(k / m, k % m)
      {
        GridIndex(i, j, i + 1, m);
        vertices := vertices + [ringVerts[i][j]];
        j := j + 1;
      }
      assert (i + 1) * m == i * m + m;
      i := i + 1;
    }
  }

  // ---------------------------------------------------------------------
  // what the layout means

  /** Index `k` names the vertex at `slot`. */
  ghost predicate Names(mesh: Mesh, k: int, slot: Slot)
  {
    0 <= k < |mesh.vertices| && mesh.vertices[k] == slot
  }

  /**
   * Quad (i, j) is the triangles (a0, b0, b1) and (a0, b1, a1), where a0
   * and a1 are sides j and j + 1 (wrapping to side 0) of ring i, and b0
   * and b1 the same sides of ring i + 1.
   */
  lemma {:induction false} QuadJoinsNeighbourRings(mesh: Mesh, n: nat, m: nat, i: nat, j: nat)
    requires TubeLayout(mesh, n, m)
    requires i + 1 < n && j < m
    ensures 6 * Index(i, j, m) + 6 <= |mesh.triangles|
    ensures var t := Slice(mesh.triangles, Index(i, j, m));
      t[3] == t[0] && t[4] == t[2] &&
      Names(mesh, t[0], Slot(i, j)) && Names(mesh, t[1], Slot(i + 1, j)) &&
      Names(mesh, t[2], Slot(i + 1, (j + 1) % m)) && Names(mesh, t[5], Slot(i, (j + 1) % m))
  {
    var j1 := (j + 1) % m;
    QuadAt(mesh, n, m, i, j);
    VertexAt(mesh.vertices, n, m, i, j);
    VertexAt(mesh.vertices, n, m, i, j1);
    VertexAt(mesh.vertices, n, m, i + 1, j);
    VertexAt(mesh.vertices, n, m, i + 1, j1);
  }

  /** Quad (i, j) of a tube is the one `Quad` describes. */
  lemma QuadAt(mesh: Mesh, n: nat, m: nat, i: nat, j: nat)
    requires TubeLayout(mesh, n, m)
    requires i + 1 < n && j < m
    ensures 6 * Index(i, j, m) + 6 <= |mesh.triangles|
    ensures Slice(mesh.triangles, Index(i, j, m)) == Quad(i, j, m)
  {
    GridIndex(i, j, n - 1, m);
    assert Slice(mesh.triangles, Index(i, j, m)) == QuadOf(Index(i, j, m), m);
  }

  /** Vertex (i, j) of the laid-out rings sits at index `Index(i, j, m)`. */
  lemma VertexAt(vertices: seq<Slot>, n: nat, m: nat, i: int, j: int)
    requires RingsLaidOut(vertices, n, m) && 0 <= i < n && 0 <= j < m
    ensures 0 <= Index(i, j, m) < |vertices| && vertices[Index(i, j, m)] == Slot(i, j)
  {
    GridIndex(i, j, n, m);
  }

  /** Every triangle index of a tube lies in [0, n * m). */
  lemma {:induction false} TriangleIndicesInRange(mesh: Mesh, n: nat, m: nat, e: nat)
    requires TubeLayout(mesh, n, m)
    requires e < |mesh.triangles|
    ensures 0 <= mesh.triangles[e] < n * m
  {
    var q := e / 6;
    assert 0 <= q < QuadCount(n, m);
    assert m > 0 && n > 1;
    IndexBijection(n - 1, m, q);
    var i, j := q / m, q % m;
    QuadJoinsNeighbourRings(mesh, n, m, i, j);
    var d := e - 6 * q;
    assert mesh.triangles[e] == Slice(mesh.triangles, q)[d];
    assert d == 0 || d == 1 || d == 2 || d == 3 || d == 4 || d == 5;
  }

  /** The triangle list holds 6 indices for each side of each pair of neighbouring rings. */
  lemma {:induction false} TriangleCount(mesh: Mesh, n: nat, m: nat)
    requires TubeLayout(mesh, n, m)
    ensures n >= 1 ==> |mesh.triangles| == 6 * (n - 1) * m
    ensures n <= 1 ==> mesh.triangles == []
  {
  }
}
