/**
 * The latitude/longitude sphere of models/sphere.js: an (n+1) x (n+1) grid of
 * points on the unit sphere and two triangles per grid cell.
 *
 * Grid point (j, i) stands for the floating-point point
 * (sin(ai) sin(aj), cos(aj), cos(ai) sin(aj)) with aj = j π / n and
 * ai = 2 i π / n; it is kept symbolic, one `GridPoint` for the three numbers
 * pushed for it.
 */
module SphereMesh {
  import opened MeshBuffers

  /** Grid point `j` rows down from the pole and `i` steps round the axis. */
  datatype GridPoint = GridPoint(j: int, i: int)

  /** The first `k` points of row `j`. */
  function GridRow(j: int, k: nat): (r: seq<GridPoint>)
    ensures |r| == k
  {
    if k == 0 then [] else GridRow(j, k - 1) + [GridPoint(j, k - 1)]
  }

  /** The first `k` rows of the grid, each n + 1 points long, row after row. */
  function GridRows(n: nat, k: nat): (r: seq<GridPoint>)
    ensures |r| == k * (n + 1)
  {
    if k == 0 then [] else GridRows(n, k - 1) + GridRow(k - 1, n + 1)
  }

  /** The whole vertex list: (n + 1)^2 grid points in row-major order. */
  function GridVertices(n: nat): (r: seq<GridPoint>)
    ensures |r| == (n + 1) * (n + 1)
  {
    GridRows(n, n + 1)
  }

  /**
   * The six indices of cell (j, i), with p1 = j(n+1) + i its upper-left
   * point and p2 = p1 + (n+1) the point below it: triangles
   * (p1, p2, p1+1) and (p1+1, p2, p2+1).
   */
  function CellIndices(n: nat, j: int, i: int): (r: seq<int>)
    ensures |r| == 6
  {
    var p1 := j * (n + 1) + i;
    var p2 := p1 + (n + 1);
    [p1, p2, p1 + 1, p1 + 1, p2, p2 + 1]
  }

  /** The indices of the first `k` cells of row `j`. */
  function CellRow(n: nat, j: int, k: nat): (r: seq<int>)
    ensures |r| == 6 * k
  {
    if k == 0 then [] else CellRow(n, j, k - 1) + CellIndices(n, j, k - 1)
  }

  /** The indices of the first `k` rows of cells, each n cells long. */
  function CellRows(n: nat, k: nat): (r: seq<int>)
    ensures |r| == 6 * n * k
  {
    if k == 0 then [] else CellRows(n, k - 1) + CellRow(n, k - 1, n)
  }

  /** The whole index list: 6n^2 indices, six per cell. */
  function GridIndices(n: nat): (r: seq<int>)
    ensures |r| == 6 * n * n
  {
    CellRows(n, n)
  }

  lemma {:induction false} GridRowAt(j: int, k: nat, i: int)
    requires 0 <= i < k
    ensures GridRow(j, k)[i] == GridPoint(j, i)
  {
    if i < k - 1 {
      GridRowAt(j, k - 1, i);
    }
  }

  lemma {:induction false} GridRowsAt(n: nat, k: nat, j: int, i: int)
    requires 0 <= j < k && 0 <= i <= n
    ensures 0 <= j * (n + 1) + i < |GridRows(n, k)|
    ensures GridRows(n, k)[j * (n + 1) + i] == GridPoint(j, i)
  {
    if j < k - 1 {
      GridRowsAt(n, k - 1, j, i);
    } else {
      GridRowAt(j, n + 1, i);
    }
  }

  /** Grid point (j, i) is point number j(n+1) + i: the points are in row-major order. */
  lemma GridVerticesRowMajor(n: nat, j: int, i: int)
    requires 0 <= j <= n && 0 <= i <= n
    ensures 0 <= j * (n + 1) + i < |GridVertices(n)|
    ensures GridVertices(n)[j * (n + 1) + i] == GridPoint(j, i)
  {
    GridRowsAt(n, n + 1, j, i);
  }

  lemma {:induction false} CellRowAt(n: nat, j: int, k: nat, i: int)
    requires 0 <= i < k
    ensures CellRow(n, j, k)[6 * i .. 6 * i + 6] == CellIndices(n, j, i)
  {
    if i < k - 1 {
      CellRowAt(n, j, k - 1, i);
      SliceOfConcat(CellRow(n, j, k - 1), CellIndices(n, j, k - 1), 6 * i, 6 * i + 6);
    }
  }

  lemma {:induction false} CellRowsAt(n: nat, k: nat, j: int, i: int)
    requires 0 <= j < k && 0 <= i < n
    ensures 0 <= 6 * (j * n + i) && 6 * (j * n + i) + 6 <= |CellRows(n, k)|
    ensures CellRows(n, k)[6 * (j * n + i) .. 6 * (j * n + i) + 6] == CellIndices(n, j, i)
  {
    var s := 6 * (j * n + i);
    if j < k - 1 {
      CellRowsAt(n, k - 1, j, i);
      SliceOfConcat(CellRows(n, k - 1), CellRow(n, k - 1, n), s, s + 6);
    } else {
      assert s == |CellRows(n, k - 1)| + 6 * i;
      CellRowAt(n, j, n, i);
      SliceOfConcat(CellRows(n, k - 1), CellRow(n, k - 1, n), s, s + 6);
    }
  }

  /** Cell (j, i) occupies index slots 6(jn + i) .. 6(jn + i) + 5, in row-major cell order. */
  lemma CellSlots(n: nat, j: int, i: int)
    requires 0 <= j < n && 0 <= i < n
    ensures 0 <= 6 * (j * n + i) && 6 * (j * n + i) + 6 <= |GridIndices(n)|
    ensures GridIndices(n)[6 * (j * n + i) .. 6 * (j * n + i) + 6] == CellIndices(n, j, i)
  {
    CellRowsAt(n, n, j, i);
  }

  /**
   * The indices of cell (j, i) name exactly its four corners: p1 is grid
   * point (j, i), p1 + 1 is (j, i+1), p2 is (j+1, i) and p2 + 1 is
   * (j+1, i+1); so every triangle spans rows j and j + 1.
   */
  lemma CellCorners(n: nat, j: int, i: int)
    requires 0 <= j < n && 0 <= i < n
    ensures var c := CellIndices(n, j, i);
      && 0 <= c[0] && c[5] < |GridVertices(n)|
      && GridVertices(n)[c[0]] == GridPoint(j, i)
      && GridVertices(n)[c[1]] == GridPoint(j + 1, i)
      && GridVertices(n)[c[2]] == GridPoint(j, i + 1)
      && c[3] == c[2] && c[4] == c[1]
      && GridVertices(n)[c[5]] == GridPoint(j + 1, i + 1)
  {
    var c := CellIndices(n, j, i);
    assert (j + 1) * (n + 1) == j * (n + 1) + (n + 1);
    assert c[1] == (j + 1) * (n + 1) + i && c[5] == (j + 1) * (n + 1) + (i + 1);
    GridVerticesRowMajor(n, j, i);
    GridVerticesRowMajor(n, j + 1, i);
    GridVerticesRowMajor(n, j, i + 1);
    GridVerticesRowMajor(n, j + 1, i + 1);
  }

  /**
   * Each triangle of cell (j, i) has three distinct corners, and the two
   * triangles share the diagonal p1+1 -- p2, crossed in opposite directions,
   * so they wind the same way.
   */
  lemma CellTriangles(n: nat, j: int, i: int)
    requires 0 <= j < n && 0 <= i < n
    ensures var c := CellIndices(n, j, i);
      && NonDegenerate(c[0..3]) && NonDegenerate(c[3..6])
      && HasDirectedEdge(c[0..3], c[1], c[2]) && HasDirectedEdge(c[3..6], c[2], c[1])
      && (forall x :: x in c[0..3] && x in c[3..6] ==> x == c[1] || x == c[2])
  {
  }

  lemma {:induction false} CellRowInRange(n: nat, j: int, k: nat)
    requires 0 <= j < n && k <= n
    ensures forall x :: x in CellRow(n, j, k) ==> 0 <= x < (n + 1) * (n + 1)
  {
    if k > 0 {
      CellRowInRange(n, j, k - 1);
      CellCorners(n, j, k - 1);
    }
  }

  lemma {:induction false} CellRowsInRange(n: nat, k: nat)
    requires k <= n
    ensures forall x :: x in CellRows(n, k) ==> 0 <= x < (n + 1) * (n + 1)
  {
    if k > 0 {
      CellRowsInRange(n, k - 1);
      CellRowInRange(n, k - 1, n);
    }
  }

  /**
   * Every index lies in [0, (n+1)^2 - 1], and the largest, (n+1)^2 - 1, is
   * the last one, p2 + 1 of cell (n-1, n-1).
   */
  lemma GridIndicesInRange(n: nat)
    requires n >= 1
    ensures forall s :: 0 <= s < |GridIndices(n)| ==> 0 <= GridIndices(n)[s] < |GridVertices(n)|
    ensures GridIndices(n)[|GridIndices(n)| - 1] == (n + 1) * (n + 1) - 1
  {
    CellRowsInRange(n, n);
    forall s | 0 <= s < |GridIndices(n)|
      ensures 0 <= GridIndices(n)[s] < |GridVertices(n)|
    {
      assert GridIndices(n)[s] in CellRows(n, n);
    }
    CellSlots(n, n - 1, n - 1);
    assert (n - 1) * n == n * n - n;
    assert 6 * ((n - 1) * n + (n - 1)) + 5 == |GridIndices(n)| - 1;
    assert (n - 1) * (n + 1) + (n - 1) + (n + 1) + 1 == (n + 1) * (n + 1) - 1;
    assert GridIndices(n)[|GridIndices(n)| - 1] == CellIndices(n, n - 1, n - 1)[5];
  }

  /** While (n+1)^2 fits in 16 bits, the `Uint16Array` conversion keeps every index. */
  lemma GridIndicesFitUint16(n: nat)
    requires n >= 1 && (n + 1) * (n + 1) <= Uint16Range
    ensures Uint16Array(GridIndices(n)) == GridIndices(n)
  {
    GridIndicesInRange(n);
    Uint16ArrayKeepsSmallIndices(GridIndices(n));
  }

  /** A sphere mesh: its vertex, index and normal buffers. */
  class Sphere {
    var vertices: seq<GridPoint>
    var indices: seq<int>
    var normals: seq<GridPoint>

    /** The normals are a second copy of the vertex list: on a unit sphere a point is its own normal. */
    constructor (n: int)
      requires n >= 1
      ensures vertices == GridVertices(n)
      ensures indices == Uint16Array(GridIndices(n))
      ensures normals == vertices
    {
      var points := CreateVertices(n);
      vertices := points;                      // new Float32Array(vertices)
      var idx := CreateIndices(n);
      indices := Uint16Array(idx);             // new Uint16Array(...)
      normals := points;                       // new Float32Array(vertices)
    }

    /** The grid points, row j = 0..n, each with i = 0..n. */
    static method CreateVertices(n: int) returns (vertices: seq<GridPoint>)
      requires n >= 1
      ensures vertices == GridVertices(n)
    {
      vertices := [];
      for j := 0 to n + 1
        invariant vertices == GridRows(n, j)
      {
        for i := 0 to n + 1
          invariant vertices == GridRows(n, j) + GridRow(j, i)
        {
          vertices := vertices + [GridPoint(j, i)];
        }
      }
    }

    /** The cell triangles, cell rows j = 0..n-1, each with cells i = 0..n-1. */
    static method CreateIndices(n: int) returns (indices: seq<int>)
      requires n >= 0
      ensures indices == GridIndices(n)
    {
      indices := [];
      for j := 0 to n
        invariant indices == CellRows(n, j)
      {
        for i := 0 to n
          invariant indices == CellRows(n, j) + CellRow(n, j, i)
        {
          var p1 := j * (n + 1) + i;
          var p2 := p1 + (n + 1);
          indices := indices + [p1, p2, p1 + 1];
          indices := indices + [p1 + 1, p2, p2 + 1];
        }
      }
    }
  }
}
