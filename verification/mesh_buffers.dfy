/**
 * What the two mesh builders share: the conversion of an index list to a
 * `Uint16Array`, and the vocabulary used to talk about index triangles.
 */
module MeshBuffers {

  /** Number of distinct values of an unsigned 16-bit integer. */
  const Uint16Range := 0x1_0000

  /**
   * The conversion JavaScript applies to every element of a `new Uint16Array(list)`:
   * the unique value in [0, 2^16) congruent to the number modulo 2^16.
   */
  function ToUint16(x: int): (r: int)
    ensures 0 <= r < Uint16Range
    ensures (x - r) % Uint16Range == 0
  {
    x % Uint16Range
  }

  /** `new Uint16Array(list)` applied to an index list of integers. */
  function Uint16Array(s: seq<int>): (r: seq<int>)
    ensures |r| == |s|
    ensures forall k :: 0 <= k < |s| ==> r[k] == ToUint16(s[k])
  {
    seq(|s|, k requires 0 <= k < |s| => ToUint16(s[k]))
  }

  /** Converting to 16 bits changes nothing when every index is representable. */
  lemma Uint16ArrayKeepsSmallIndices(s: seq<int>)
    requires forall k :: 0 <= k < |s| ==> 0 <= s[k] < Uint16Range
    ensures Uint16Array(s) == s
  {
    forall k | 0 <= k < |s|
      ensures Uint16Array(s)[k] == s[k]
    {
      var r := ToUint16(s[k]);
      assert -Uint16Range < s[k] - r < Uint16Range;
    }
  }

  /** A slice of a concatenation lies in one of the two parts when it does not straddle them. */
  lemma SliceOfConcat<T>(a: seq<T>, b: seq<T>, lo: int, hi: int)
    requires 0 <= lo <= hi <= |a| + |b|
    ensures hi <= |a| ==> (a + b)[lo..hi] == a[lo..hi]
    ensures |a| <= lo ==> (a + b)[lo..hi] == b[lo - |a| .. hi - |a|]
  {
    if hi <= |a| {
      assert forall s :: lo <= s < hi ==> (a + b)[s] == a[s];
    }
    if |a| <= lo {
      assert forall s :: lo <= s < hi ==> (a + b)[s] == b[s - |a|];
    }
  }

  /** A triangle of an index buffer: three consecutive entries. */
  predicate IsTriangle(t: seq<int>)
  {
    |t| == 3
  }

  /** The triangle's three corners are three different vertices. */
  predicate NonDegenerate(t: seq<int>)
    requires IsTriangle(t)
  {
    t[0] != t[1] && t[1] != t[2] && t[2] != t[0]
  }

  /**
   * Walking the triangle's corners in order (and back to the first) crosses
   * the edge from vertex a to vertex b: this is what the winding of a
   * triangle is made of.
   */
  predicate HasDirectedEdge(t: seq<int>, a: int, b: int)
    requires IsTriangle(t)
  {
    (t[0] == a && t[1] == b) || (t[1] == a && t[2] == b) || (t[2] == a && t[0] == b)
  }
}
