/**
 * The procedural cylinder of cylinder.js: a unit-radius cylinder of height 1
 * with `n` side faces, built as a vertex list, a triangle index list and a
 * normal list, plus the placement vectors its setters overwrite.
 *
 * Coordinates are computed in the source with floating-point sine and cosine
 * of multiples of `angle = 360 / n` degrees; here every pushed point is kept
 * symbolic (`Vec`), one `Vec` standing for the three numbers pushed for it.
 */
module CylinderMesh {
  import opened MeshBuffers

  /** A pushed point or direction, symbolic in the angle it is computed from. */
  datatype Vec =
    | Circle(step: int, z: int)      // (cos(step * angle), sin(step * angle), z)
    | FaceNormal(face: int)          // the unit vector at angle / 2 + face * angle, z = 0
    | Exact(x: int, y: int, z: int)  // a vector with integer coordinates

  /** The vector is a point at height `h`. */
  predicate AtHeight(v: Vec, h: int)
  {
    match v
    case Circle(_, z) => z == h
    case Exact(_, _, z) => z == h
    case FaceNormal(_) => false
  }

  /** The rim step after `k`, wrapping around to 0: (k + 1) mod n. */
  function Next(n: int, k: int): (r: int)
    requires 0 <= k < n
    ensures 0 <= r < n
    ensures r == (k + 1) % n
  {
    if k == n - 1 then 0 else k + 1
  }

  // ---------------------------------------------------------------- vertices

  /**
   * The four corners of side face `i`, in the order top right, top left,
   * bottom left, bottom right; the right edge is at the next rim step.
   */
  function FaceCorners(n: int, i: int): (r: seq<Vec>)
    requires 0 <= i < n
    ensures |r| == 4
  {
    [Circle(Next(n, i), 1), Circle(i, 1), Circle(i, 0), Circle(Next(n, i), 0)]
  }

  /** The corners of the first `k` side faces, face after face. */
  function SideVertices(n: int, k: int): (r: seq<Vec>)
    requires 0 <= k <= n
    ensures |r| == 4 * k
    decreases k
  {
    if k == 0 then [] else SideVertices(n, k - 1) + FaceCorners(n, k - 1)
  }

  /** The first `k` points of a rim at height `z`. */
  function RimVertices(z: int, k: nat): (r: seq<Vec>)
    ensures |r| == k
  {
    if k == 0 then [] else RimVertices(z, k - 1) + [Circle(k - 1, z)]
  }

  /** Centre of the top cap (z = 1) and of the bottom cap (z = 0). */
  const TopCentre: Vec := Exact(0, 0, 1)
  const BottomCentre: Vec := Exact(0, 0, 0)

  /** The whole vertex list of an `n`-sided cylinder: 6n + 2 points. */
  function Vertices(n: int): (r: seq<Vec>)
    requires n >= 1
    ensures |r| == 6 * n + 2
  {
    SideVertices(n, n) + RimVertices(1, n) + RimVertices(0, n) + [TopCentre, BottomCentre]
  }

  /** The first loop: four unshared corners per side face. */
  method PushSideVertices(n: int, buf: seq<Vec>) returns (r: seq<Vec>)
    requires n >= 1
    ensures r == buf + SideVertices(n, n)
  {
    r := buf;
    for i := 0 to n
      invariant r == buf + SideVertices(n, i)
    {
      if i == n - 1 {
        r := r + [Circle(0, 1)];  // top right
        r := r + [Circle(i, 1)];  // top left
        r := r + [Circle(i, 0)];  // bottom left
        r := r + [Circle(0, 0)];  // bottom right
      } else {
        r := r + [Circle(i + 1, 1)];
        r := r + [Circle(i, 1)];
        r := r + [Circle(i, 0)];
        r := r + [Circle(i + 1, 0)];
      }
    }
  }

  /** The rim loops: `n` points at height `z` (1 for the top cap, 0 for the bottom cap). */
  method PushRimVertices(n: int, z: int, buf: seq<Vec>) returns (r: seq<Vec>)
    requires n >= 0
    ensures r == buf + RimVertices(z, n)
  {
    r := buf;
    for i := 0 to n
      invariant r == buf + RimVertices(z, i)
    {
      r := r + [Circle(i, z)];
    }
  }

  lemma {:induction false} SideVerticesAt(n: int, k: int, i: int, c: int)
    requires 0 <= i < k <= n && 0 <= c < 4
    ensures SideVertices(n, k)[4 * i + c] == FaceCorners(n, i)[c]
  {
    if i < k - 1 {
      SideVerticesAt(n, k - 1, i, c);
    }
  }

  lemma {:induction false} RimVerticesAt(z: int, k: nat, s: int)
    requires 0 <= s < k
    ensures RimVertices(z, k)[s] == Circle(s, z)
  {
    if s < k - 1 {
      RimVerticesAt(z, k - 1, s);
    }
  }

  /**
   * The layout of the vertex list: side face `i` at 4i..4i+3, the top rim at
   * 4n..5n-1, the bottom rim at 5n..6n-1, the top centre at 6n and the
   * bottom centre at 6n + 1.
   */
  lemma VertexLayout(n: int, p: int)
    requires n >= 1 && 0 <= p < 6 * n + 2
    ensures Vertices(n)[p] ==
      if p < 4 * n then FaceCorners(n, p / 4)[p % 4]
      else if p < 5 * n then Circle(p - 4 * n, 1)
      else if p < 6 * n then Circle(p - 5 * n, 0)
      else if p == 6 * n then TopCentre
      else BottomCentre
  {
    if p < 4 * n {
      SideVerticesAt(n, n, p / 4, p % 4);
    } else if p < 5 * n {
      RimVerticesAt(1, n, p - 4 * n);
    } else if p < 6 * n {
      RimVerticesAt(0, n, p - 5 * n);
    }
  }

  /**
   * Side face `i` lies at angle steps ((i+1) mod n, i, i, (i+1) mod n) and
   * heights (1, 1, 0, 0); every corner repeats the position of a rim vertex
   * (positions are shared, vertices are not).
   */
  lemma SideCornersOnRims(n: int, i: int)
    requires n >= 1 && 0 <= i < n
    ensures Vertices(n)[4 * i] == Circle((i + 1) % n, 1) == Vertices(n)[4 * n + (i + 1) % n]
    ensures Vertices(n)[4 * i + 1] == Circle(i, 1) == Vertices(n)[4 * n + i]
    ensures Vertices(n)[4 * i + 2] == Circle(i, 0) == Vertices(n)[5 * n + i]
    ensures Vertices(n)[4 * i + 3] == Circle((i + 1) % n, 0) == Vertices(n)[5 * n + (i + 1) % n]
  {
    SideVerticesAt(n, n, i, 0);
    SideVerticesAt(n, n, i, 1);
    SideVerticesAt(n, n, i, 2);
    SideVerticesAt(n, n, i, 3);
    RimVerticesAt(1, n, Next(n, i));
    RimVerticesAt(1, n, i);
    RimVerticesAt(0, n, i);
    RimVerticesAt(0, n, Next(n, i));
  }

  // ----------------------------------------------------------------- indices

  /** The six indices of side face `i`: triangles (0, 1, 2) and (2, 3, 0) of its block. */
  function FaceIndices(i: int): (r: seq<int>)
    ensures |r| == 6
  {
    [4 * i, 4 * i + 1, 4 * i + 2, 4 * i + 2, 4 * i + 3, 4 * i]
  }

  /** The indices of the first `k` side faces: each one names a corner of those faces. */
  function SideIndices(k: nat): (r: seq<int>)
    ensures |r| == 6 * k
    ensures forall x :: x in r ==> 0 <= x < 4 * k
  {
    if k == 0 then [] else SideIndices(k - 1) + FaceIndices(k - 1)
  }

  /**
   * The rim step at the lower end of the `t`-th top-cap triangle the code
   * emits: 0 for the first, then n-1, n-2, ..., 1.
   */
  function TopLow(n: int, t: int): (k: int)
    requires 0 <= t < n
    ensures 0 <= k < n
  {
    if t == 0 then 0 else n - t
  }

  /**
   * The `t`-th top-cap triangle: a rim vertex, the top centre, and the rim
   * vertex one step before it.
   */
  function TopTriangle(n: int, t: int): (r: seq<int>)
    requires 0 <= t < n
    ensures |r| == 3
  {
    var low := TopLow(n, t);
    [4 * n + Next(n, low), 6 * n, 4 * n + low]
  }

  /**
   * The `t`-th bottom-cap triangle: a rim vertex, the bottom centre, and the
   * rim vertex one step after it; the first starts at step 1.
   */
  function BottomTriangle(n: int, t: int): (r: seq<int>)
    requires 0 <= t < n
    ensures |r| == 3
  {
    var low := Next(n, t);
    [5 * n + low, 6 * n + 1, 5 * n + Next(n, low)]
  }

  /** The indices of the first `k` top-cap triangles: top-rim vertices and the top centre only. */
  function TopCap(n: int, k: int): (r: seq<int>)
    requires 0 <= k <= n
    ensures |r| == 3 * k
    ensures forall x :: x in r ==> 4 * n <= x < 5 * n || x == 6 * n
    decreases k
  {
    if k == 0 then [] else TopCap(n, k - 1) + TopTriangle(n, k - 1)
  }

  /** The indices of the first `k` bottom-cap triangles: bottom-rim vertices and the bottom centre only. */
  function BottomCap(n: int, k: int): (r: seq<int>)
    requires 0 <= k <= n
    ensures |r| == 3 * k
    ensures forall x :: x in r ==> 5 * n <= x < 6 * n || x == 6 * n + 1
    decreases k
  {
    if k == 0 then [] else BottomCap(n, k - 1) + BottomTriangle(n, k - 1)
  }

  /**
   * The whole index list: 6n side indices, then 3n for the top cap and 3n
   * for the bottom cap (n triangles each, despite the seam special cases);
   * every index names a vertex of the list.
   */
  function Indices(n: int): (r: seq<int>)
    requires n >= 1
    ensures |r| == 12 * n
    ensures forall s :: 0 <= s < |r| ==> 0 <= r[s] < |Vertices(n)|
  {
    var r := SideIndices(n) + TopCap(n, n) + BottomCap(n, n);
    assert forall s :: 0 <= s < |r| ==> r[s] in SideIndices(n) || r[s] in TopCap(n, n) || r[s] in BottomCap(n, n);
    r
  }

  /** The side index loop: two triangles per face, inside the face's own block. */
  method PushSideIndices(n: int, buf: seq<int>) returns (r: seq<int>)
    requires n >= 0
    ensures r == buf + SideIndices(n)
  {
    r := buf;
    for i := 0 to n
      invariant r == buf + SideIndices(i)
    {
      r := r + [i * 4, i * 4 + 1, i * 4 + 2];
      r := r + [i * 4 + 2, i * 4 + 3, i * 4];
    }
  }

  /**
   * The top-cap loop: its first pass emits two triangles and the pass at
   * i = n - 1 breaks out, so n triangles are emitted in all.
   */
  method PushTopCapIndices(n: int, buf: seq<int>) returns (r: seq<int>)
    requires n >= 3
    ensures r == buf + TopCap(n, n)
  {
    r := buf;
    var i := 0;
    while i < n
      invariant 0 <= i <= n - 1
      invariant r == buf + TopCap(n, if i == 0 then 0 else i + 1)
      decreases n - i
    {
      if i == n - 1 {
        break;
      }
      if i == 0 {
        r := r + [4 * n + 1, 4 * n + 2 * n, 4 * n];
        r := r + [4 * n, 4 * n + 2 * n, 4 * n + (n - 1)];
      } else {
        r := r + [4 * n + (n - i), 4 * n + 2 * n, 4 * n + (n - i - 1)];
      }
      i := i + 1;
    }
  }

  /**
   * The bottom-cap loop: its first pass bumps the counter itself, so the
   * pass for i = 1 never runs, and the pass at i = n - 1 emits the two
   * triangles across the seam and breaks out; n triangles in all.
   */
  method PushBottomCapIndices(n: int, buf: seq<int>) returns (r: seq<int>)
    requires n >= 3
    ensures r == buf + BottomCap(n, n)
  {
    r := buf;
    var i := 0;
    while i < n
      invariant i == 0 || 2 <= i <= n - 1
      invariant r == buf + BottomCap(n, if i == 0 then 0 else i - 1)
      decreases n - i
    {
      if i == 0 {
        r := r + [4 * n + n + 1, 4 * n + 2 * n + 1, 4 * n + n + 2];
        i := i + 1;
      } else if i == n - 1 {
        r := r + [4 * n + n + i, 4 * n + 2 * n + 1, 4 * n + n];
        r := r + [4 * n + n, 4 * n + 2 * n + 1, 4 * n + n + 1];
        break;
      } else {
        r := r + [4 * n + n + i, 4 * n + 2 * n + 1, 4 * n + n + i + 1];
      }
      i := i + 1;  // the loop's own update, also reached by `continue`
    }
  }

  lemma {:induction false} SideIndicesAt(k: nat, i: int)
    requires 0 <= i < k
    ensures SideIndices(k)[6 * i .. 6 * i + 6] == FaceIndices(i)
  {
    if i < k - 1 {
      SideIndicesAt(k - 1, i);
      SliceOfConcat(SideIndices(k - 1), FaceIndices(k - 1), 6 * i, 6 * i + 6);
    }
  }

  lemma {:induction false} TopCapAt(n: int, k: int, t: int)
    requires 0 <= t < k <= n
    ensures TopCap(n, k)[3 * t .. 3 * t + 3] == TopTriangle(n, t)
  {
    if t < k - 1 {
      TopCapAt(n, k - 1, t);
      SliceOfConcat(TopCap(n, k - 1), TopTriangle(n, k - 1), 3 * t, 3 * t + 3);
    }
  }

  lemma {:induction false} BottomCapAt(n: int, k: int, t: int)
    requires 0 <= t < k <= n
    ensures BottomCap(n, k)[3 * t .. 3 * t + 3] == BottomTriangle(n, t)
  {
    if t < k - 1 {
      BottomCapAt(n, k - 1, t);
      SliceOfConcat(BottomCap(n, k - 1), BottomTriangle(n, k - 1), 3 * t, 3 * t + 3);
    }
  }

  /**
   * Side face `i` takes index slots 6i..6i+5, holding (4i, 4i+1, 4i+2) and
   * (4i+2, 4i+3, 4i): all inside its own block of four vertices, naming its
   * corners top right, top left, bottom left and bottom left, bottom right,
   * top right. The two triangles cross their shared diagonal in opposite
   * directions, so they wind the same way.
   */
  lemma SideFaceTriangles(n: int, i: int)
    requires n >= 1 && 0 <= i < n
    ensures Indices(n)[6 * i .. 6 * i + 3] == [4 * i, 4 * i + 1, 4 * i + 2]
    ensures Indices(n)[6 * i + 3 .. 6 * i + 6] == [4 * i + 2, 4 * i + 3, 4 * i]
    ensures forall s :: 6 * i <= s < 6 * i + 6 ==> 4 * i <= Indices(n)[s] <= 4 * i + 3
    ensures HasDirectedEdge(Indices(n)[6 * i .. 6 * i + 3], 4 * i + 2, 4 * i)
    ensures HasDirectedEdge(Indices(n)[6 * i + 3 .. 6 * i + 6], 4 * i, 4 * i + 2)
  {
    var all := Indices(n);
    SideIndicesAt(n, i);
    SliceOfConcat(SideIndices(n), TopCap(n, n) + BottomCap(n, n), 6 * i, 6 * i + 6);
    assert all[6 * i .. 6 * i + 6] == FaceIndices(i);
    assert all[6 * i .. 6 * i + 3] == all[6 * i .. 6 * i + 6][..3];
    assert all[6 * i + 3 .. 6 * i + 6] == all[6 * i .. 6 * i + 6][3..];
    forall s | 6 * i <= s < 6 * i + 6
      ensures 4 * i <= all[s] <= 4 * i + 3
    {
      assert all[s] == FaceIndices(i)[s - 6 * i];
    }
  }

  /** Top-cap triangle `t` takes index slots 6n + 3t .. 6n + 3t + 2. */
  lemma TopCapSlots(n: int, t: int)
    requires n >= 1 && 0 <= t < n
    ensures Indices(n)[6 * n + 3 * t .. 6 * n + 3 * t + 3] == TopTriangle(n, t)
  {
    TopCapAt(n, n, t);
    SliceOfConcat(TopCap(n, n), BottomCap(n, n), 3 * t, 3 * t + 3);
    SliceOfConcat(SideIndices(n), TopCap(n, n) + BottomCap(n, n), 6 * n + 3 * t, 6 * n + 3 * t + 3);
  }

  /** Bottom-cap triangle `t` takes index slots 9n + 3t .. 9n + 3t + 2. */
  lemma BottomCapSlots(n: int, t: int)
    requires n >= 1 && 0 <= t < n
    ensures Indices(n)[9 * n + 3 * t .. 9 * n + 3 * t + 3] == BottomTriangle(n, t)
  {
    BottomCapAt(n, n, t);
    SliceOfConcat(TopCap(n, n), BottomCap(n, n), 3 * n + 3 * t, 3 * n + 3 * t + 3);
    SliceOfConcat(SideIndices(n), TopCap(n, n) + BottomCap(n, n), 9 * n + 3 * t, 9 * n + 3 * t + 3);
  }

  /**
   * Every top-cap triangle has the top centre 6n in the middle and two
   * adjacent top-rim vertices (4n..5n-1, at height 1) around it, the first
   * one step after the last: decreasing cyclic order.
   */
  lemma TopTriangleShape(n: int, t: int)
    requires n >= 2 && 0 <= t < n
    ensures var tri := TopTriangle(n, t);
      && tri[1] == 6 * n && Vertices(n)[6 * n] == TopCentre
      && 4 * n <= tri[0] < 5 * n && 4 * n <= tri[2] < 5 * n
      && tri[0] - 4 * n == (tri[2] - 4 * n + 1) % n
      && NonDegenerate(tri)
      && AtHeight(Vertices(n)[tri[0]], 1) && AtHeight(Vertices(n)[tri[2]], 1)
  {
    var tri := TopTriangle(n, t);
    VertexLayout(n, 6 * n);
    VertexLayout(n, tri[0]);
    VertexLayout(n, tri[2]);
  }

  /**
   * Every bottom-cap triangle has the bottom centre 6n + 1 in the middle and
   * two adjacent bottom-rim vertices (5n..6n-1, at height 0) around it, the
   * last one step after the first: increasing cyclic order.
   */
  lemma BottomTriangleShape(n: int, t: int)
    requires n >= 2 && 0 <= t < n
    ensures var tri := BottomTriangle(n, t);
      && tri[1] == 6 * n + 1 && Vertices(n)[6 * n + 1] == BottomCentre
      && 5 * n <= tri[0] < 6 * n && 5 * n <= tri[2] < 6 * n
      && tri[2] - 5 * n == (tri[0] - 5 * n + 1) % n
      && NonDegenerate(tri)
      && AtHeight(Vertices(n)[tri[0]], 0) && AtHeight(Vertices(n)[tri[2]], 0)
  {
    var tri := BottomTriangle(n, t);
    VertexLayout(n, 6 * n + 1);
    VertexLayout(n, tri[0]);
    VertexLayout(n, tri[2]);
  }

  /**
   * The top cap covers every rim edge exactly once: for each step `k` there
   * is one and only one top-cap triangle whose lower rim end is step `k`.
   */
  lemma TopCapCoversEachRimEdgeOnce(n: int, k: int)
    requires n >= 1 && 0 <= k < n
    ensures exists t :: 0 <= t < n && TopTriangle(n, t) == [4 * n + Next(n, k), 6 * n, 4 * n + k]
    ensures forall t, u :: 0 <= t < n && 0 <= u < n && TopTriangle(n, t)[2] == 4 * n + k == TopTriangle(n, u)[2] ==> t == u
  {
    var w := if k == 0 then 0 else n - k;
    assert TopTriangle(n, w) == [4 * n + Next(n, k), 6 * n, 4 * n + k];
  }

  /**
   * The bottom cap covers every rim edge exactly once: for each step `k` there
   * is one and only one bottom-cap triangle whose lower rim end is step `k`.
   */
  lemma BottomCapCoversEachRimEdgeOnce(n: int, k: int)
    requires n >= 1 && 0 <= k < n
    ensures exists t :: 0 <= t < n && BottomTriangle(n, t) == [5 * n + k, 6 * n + 1, 5 * n + Next(n, k)]
    ensures forall t, u :: 0 <= t < n && 0 <= u < n && BottomTriangle(n, t)[0] == 5 * n + k == BottomTriangle(n, u)[0] ==> t == u
  {
    var w := if k == 0 then n - 1 else k - 1;
    assert BottomTriangle(n, w) == [5 * n + k, 6 * n + 1, 5 * n + Next(n, k)];
  }

  /**
   * The caps wind in opposite directions: over the rim edge between steps
   * `k` and k + 1, the top cap walks from step k to k + 1 and never back, the
   * bottom cap walks from k + 1 to k and never forward.
   */
  lemma CapsWindOppositely(n: int, k: int)
    requires n >= 3 && 0 <= k < n
    ensures exists t :: 0 <= t < n && HasDirectedEdge(TopTriangle(n, t), 4 * n + k, 4 * n + Next(n, k))
    ensures forall t :: 0 <= t < n ==> !HasDirectedEdge(TopTriangle(n, t), 4 * n + Next(n, k), 4 * n + k)
    ensures exists u :: 0 <= u < n && HasDirectedEdge(BottomTriangle(n, u), 5 * n + Next(n, k), 5 * n + k)
    ensures forall u :: 0 <= u < n ==> !HasDirectedEdge(BottomTriangle(n, u), 5 * n + k, 5 * n + Next(n, k))
  {
    var t := if k == 0 then 0 else n - k;
    assert TopTriangle(n, t) == [4 * n + Next(n, k), 6 * n, 4 * n + k];
    var u := if k == 0 then n - 1 else k - 1;
    assert BottomTriangle(n, u) == [5 * n + k, 6 * n + 1, 5 * n + Next(n, k)];
  }

  /** While 6n + 1 fits in 16 bits, the `Uint16Array` conversion keeps every index. */
  lemma IndicesFitUint16(n: int)
    requires n >= 1 && 6 * n + 2 <= Uint16Range
    ensures Uint16Array(Indices(n)) == Indices(n)
  {
    Uint16ArrayKeepsSmallIndices(Indices(n));
  }

  // ----------------------------------------------------------------- normals

  /** `k` copies of `v`. */
  function Copies(v: Vec, k: nat): (r: seq<Vec>)
    ensures |r| == k
    ensures forall p :: 0 <= p < k ==> r[p] == v
  {
    if k == 0 then [] else Copies(v, k - 1) + [v]
  }

  /** The normals of the first `k` side faces: the face normal, once per corner. */
  function SideNormals(k: nat): (r: seq<Vec>)
    ensures |r| == 4 * k
  {
    if k == 0 then [] else SideNormals(k - 1) + Copies(FaceNormal(k - 1), 4)
  }

  const Up: Vec := Exact(0, 0, 1)
  const Down: Vec := Exact(0, 0, -1)

  /** The flat normal list, one normal per vertex. */
  function FlatNormals(n: int): (r: seq<Vec>)
    requires n >= 0
    ensures |r| == 6 * n + 2
  {
    SideNormals(n) + Copies(Up, n) + Copies(Down, n) + [Up, Down]
  }

  /** The normal list the constructor keeps: the positions themselves in smooth mode. */
  function Normals(n: int, shading: string): (r: seq<Vec>)
    requires n >= 1
    ensures |r| == |Vertices(n)|
  {
    if shading == "smooth" then Vertices(n) else FlatNormals(n)
  }

  /** The side normal loop, with its inner loop pushing each face's normal four times. */
  method PushSideNormals(n: int, buf: seq<Vec>) returns (r: seq<Vec>)
    requires n >= 0
    ensures r == buf + SideNormals(n)
  {
    r := buf;
    for i := 0 to n
      invariant r == buf + SideNormals(i)
    {
      var normal := FaceNormal(i);
      for k := 0 to 4
        invariant r == buf + SideNormals(i) + Copies(normal, k)
      {
        r := r + [normal];
      }
    }
  }

  /** The cap normal loops: `n` copies of the cap's normal. */
  method PushCapNormals(n: int, normal: Vec, buf: seq<Vec>) returns (r: seq<Vec>)
    requires n >= 0
    ensures r == buf + Copies(normal, n)
  {
    r := buf;
    for i := 0 to n
      invariant r == buf + Copies(normal, i)
    {
      r := r + [normal];
    }
  }

  lemma {:induction false} SideNormalsAt(k: nat, p: int)
    requires 0 <= p < 4 * k
    ensures SideNormals(k)[p] == FaceNormal(p / 4)
  {
    if p < 4 * (k - 1) {
      SideNormalsAt(k - 1, p);
    } else {
      assert SideNormals(k)[p] == Copies(FaceNormal(k - 1), 4)[p - 4 * (k - 1)];
    }
  }

  /**
   * The flat normals: one per vertex; face `i`'s normal repeated for its four
   * corners, then (0, 0, 1) for each top-rim vertex, (0, 0, -1) for each
   * bottom-rim vertex, and (0, 0, 1), (0, 0, -1) for the two centres.
   */
  lemma FlatNormalLayout(n: int, p: int)
    requires n >= 1 && 0 <= p < 6 * n + 2
    ensures |FlatNormals(n)| == |Vertices(n)|
    ensures FlatNormals(n)[p] ==
      if p < 4 * n then FaceNormal(p / 4)
      else if p < 5 * n then Up
      else if p < 6 * n then Down
      else if p == 6 * n then Up
      else Down
  {
    if p < 4 * n {
      SideNormalsAt(n, p);
    }
  }

  /**
   * Each flat cap normal points out of its cap: up for the top rim and
   * centre (height 1), down for the bottom rim and centre (height 0).
   */
  lemma CapNormalsPointOutward(n: int, p: int)
    requires n >= 1 && 4 * n <= p < 6 * n + 2
    ensures AtHeight(Vertices(n)[p], 1) ==> FlatNormals(n)[p] == Up
    ensures AtHeight(Vertices(n)[p], 0) ==> FlatNormals(n)[p] == Down
  {
    VertexLayout(n, p);
    FlatNormalLayout(n, p);
  }

  /**
   * The normal list always has one entry per vertex, and it equals the vertex
   * list exactly when the shading is "smooth".
   */
  lemma NormalsMatchVertices(n: int, shading: string)
    requires n >= 1
    ensures |Normals(n, shading)| == |Vertices(n)|
    ensures Normals(n, shading) == Vertices(n) <==> shading == "smooth"
  {
    if shading != "smooth" {
      FlatNormalLayout(n, 0);
      VertexLayout(n, 0);
      assert Normals(n, shading)[0] != Vertices(n)[0];
    }
  }

  // ------------------------------------------------------- the constructor's sections

  /** The constructor's vertex section: sides, top rim, bottom rim, then the two centres. */
  method BuildVertices(n: int) returns (verts: seq<Vec>)
    requires n >= 1
    ensures verts == Vertices(n)
  {
    verts := [];
    verts := PushSideVertices(n, verts);
    verts := PushRimVertices(n, 1, verts);
    verts := PushRimVertices(n, 0, verts);
    verts := verts + [TopCentre];
    verts := verts + [BottomCentre];
  }

  /** The constructor's index section: sides, then the top cap, then the bottom cap. */
  method BuildIndices(n: int) returns (idx: seq<int>)
    requires n >= 3
    ensures idx == Indices(n)
  {
    idx := [];
    idx := PushSideIndices(n, idx);
    idx := PushTopCapIndices(n, idx);
    idx := PushBottomCapIndices(n, idx);
  }

  /** The constructor's normal section: side normals, cap normals, then the two centres. */
  method BuildFlatNormals(n: int) returns (nors: seq<Vec>)
    requires n >= 0
    ensures nors == FlatNormals(n)
  {
    nors := [];
    nors := PushSideNormals(n, nors);
    nors := PushCapNormals(n, Up, nors);
    nors := PushCapNormals(n, Down, nors);
    nors := nors + [Up];    // top centre
    nors := nors + [Down];  // bottom centre
  }

  // ---------------------------------------------------------------- the class

  /** A placed cylinder: its mesh buffers and its translate, rotate and scale vectors. */
  class Cylinder {
    ghost const sides: int
    const color: seq<real>
    var vertices: seq<Vec>
    var indices: seq<int>
    var normals: seq<Vec>
    const translate: array<real>
    const rotate: array<real>
    const scale: array<real>

    ghost predicate Valid()
      reads this
    {
      && sides >= 3
      && translate.Length == 3 && rotate.Length == 3 && scale.Length == 3
      && translate != rotate && rotate != scale && scale != translate
      && vertices == Vertices(sides)
      && indices == Uint16Array(Indices(sides))
      && (normals == Vertices(sides) || normals == FlatNormals(sides))
    }

    constructor (n: int, color: seq<real>, shading: string)
      requires n >= 3
      ensures Valid() && sides == n && this.color == color
      ensures vertices == Vertices(n)
      ensures indices == Uint16Array(Indices(n))
      ensures normals == Normals(n, shading)
      ensures translate[..] == [0.0, 0.0, 0.0] && rotate[..] == [0.0, 0.0, 0.0]
      ensures scale[..] == [1.0, 1.0, 1.0]
      ensures fresh(translate) && fresh(rotate) && fresh(scale)
    {
      sides := n;
      this.color := color;
      translate := new real[] [0.0, 0.0, 0.0];
      rotate := new real[] [0.0, 0.0, 0.0];
      scale := new real[] [1.0, 1.0, 1.0];

      var verts := BuildVertices(n);
      var idx := BuildIndices(n);
      var nors := BuildFlatNormals(n);

      if shading == "smooth" {
        nors := verts;
      }

      // Float32Array keeps the symbolic values; Uint16Array reduces each index.
      vertices := verts;
      indices := Uint16Array(idx);
      normals := nors;
    }

    /** Overwrites the three scale factors; nothing else changes. */
    method SetScale(x: real, y: real, z: real)
      requires Valid()
      modifies scale
      ensures Valid()
      ensures scale[..] == [x, y, z]
      ensures rotate[..] == old(rotate[..]) && translate[..] == old(translate[..])
      ensures vertices == old(vertices) && indices == old(indices) && normals == old(normals)
    {
      scale[0] := x;
      scale[1] := y;
      scale[2] := z;
    }

    /** Overwrites the three rotation angles; nothing else changes. */
    method SetRotate(x: real, y: real, z: real)
      requires Valid()
      modifies rotate
      ensures Valid()
      ensures rotate[..] == [x, y, z]
      ensures scale[..] == old(scale[..]) && translate[..] == old(translate[..])
      ensures vertices == old(vertices) && indices == old(indices) && normals == old(normals)
    {
      rotate[0] := x;
      rotate[1] := y;
      rotate[2] := z;
    }

    /** Overwrites the three translation offsets; nothing else changes. */
    method SetTranslate(x: real, y: real, z: real)
      requires Valid()
      modifies translate
      ensures Valid()
      ensures translate[..] == [x, y, z]
      ensures scale[..] == old(scale[..]) && rotate[..] == old(rotate[..])
      ensures vertices == old(vertices) && indices == old(indices) && normals == old(normals)
    {
      translate[0] := x;
      translate[1] := y;
      translate[2] := z;
    }
  }
}
