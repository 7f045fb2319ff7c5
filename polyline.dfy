/** The vertex buffers of one thick line of the WebGL wave background. A
    polyline through `count` points becomes 2*count vertices: every point
    twice, once per side of the line. Each vertex also carries its
    neighbouring points (prev, next), its side (-1 or +1) and a uv pair,
    and each segment between consecutive points becomes two triangles in
    a 16-bit index buffer. */
module ThreeBackground {
  import opened Common


  datatype Vec3 = Vec3(x: real, y: real, z: real)

  function Coord(p: Vec3, c: nat): real
    requires c < 3
  {
    if c == 0 then p.x else if c == 1 then p.y else p.z
  }

  /** The coordinate written at position c (0 to 5) of a vertex pair:
      x, y, z, x, y, z. */
  function PairCoord(p: Vec3, c: nat): real
    requires c < 6
  {
    if c < 3 then Coord(p, c) else Coord(p, c - 3)
  }

  /** tmp.copy(p).sub(q).add(p): q mirrored through p. */
  function Reflect(p: Vec3, q: Vec3): (r: Vec3)
    ensures r.x + q.x == 2.0 * p.x && r.y + q.y == 2.0 * p.y && r.z + q.z == 2.0 * p.z
  {
    Vec3(p.x - q.x + p.x, p.y - q.y + p.y, p.z - q.z + p.z)
  }

  /** A Uint16Array stores a non-negative integer modulo 2^16. */
  const Uint16Modulus: nat := 65536

  function ToUint16(v: nat): (r: nat)
    ensures r < Uint16Modulus
    ensures v < Uint16Modulus ==> r == v
    ensures Uint16Modulus <= v < 2 * Uint16Modulus ==> r == v - Uint16Modulus
  {
    v % Uint16Modulus
  }

  /** Corner c of the two triangles of segment i: (2i, 2i+1, 2i+2) and
      (2i+2, 2i+1, 2i+3). */
  function Corner(i: nat, c: nat): nat
    requires c < 6
  {
    if c == 0 then 2 * i
    else if c == 1 || c == 4 then 2 * i + 1
    else if c == 2 || c == 3 then 2 * i + 2
    else 2 * i + 3
  }

  // ---------------------------------------------------------------------
  // The buffer contents, as functions of the points

  /** Every point twice, as x, y, z, x, y, z. */
  function VertexBuffer(ps: seq<Vec3>): seq<real>
  {
    seq(6 * |ps|, k requires 0 <= k < 6 * |ps| => PairCoord(ps[k / 6], k % 6))
  }

  /** The previous point of each point; the first point's is the second
      point mirrored through the first. */
  function PrevPoints(ps: seq<Vec3>): seq<Vec3>
    requires |ps| >= 2
  {
    seq(|ps|, i requires 0 <= i < |ps| => if i == 0 then Reflect(ps[0], ps[1]) else ps[i - 1])
  }

  /** The next point of each point; the last point's is the one before it
      mirrored through the last. */
  function NextPoints(ps: seq<Vec3>): seq<Vec3>
    requires |ps| >= 2
  {
    var last := |ps| - 1;
    seq(|ps|, i requires 0 <= i < |ps| => if i == last then Reflect(ps[last], ps[last - 1]) else ps[i + 1])
  }

  function SideBuffer(n: nat): seq<real>
  {
    seq(2 * n, k requires 0 <= k < 2 * n => if k % 2 == 0 then -1.0 else 1.0)
  }

  /** v of point i: its position along the line, from 0 to 1. */
  function V(n: nat, i: nat): real
    requires n >= 2
  {
    i as real / (n - 1) as real
  }

  function UvBuffer(n: nat): seq<real>
    requires n >= 2
  {
    seq(4 * n, k requires 0 <= k < 4 * n =>
      if k % 4 == 0 then 0.0 else if k % 4 == 2 then 1.0 else V(n, k / 4))
  }

  function IndexBuffer(n: nat): seq<nat>
    requires n >= 1
  {
    seq(6 * (n - 1), k requires 0 <= k < 6 * (n - 1) => ToUint16(Corner(k / 6, k % 6)))
  }

  // ---------------------------------------------------------------------
  // Row arithmetic

  lemma Div2(i: nat, c: nat)
    requires c < 2
    ensures (2 * i + c) / 2 == i && (2 * i + c) % 2 == c
  {
  }

  lemma Div4(i: nat, c: nat)
    requires c < 4
    ensures (4 * i + c) / 4 == i && (4 * i + c) % 4 == c
  {
  }

  lemma Div6(i: nat, c: nat)
    requires c < 6
    ensures (6 * i + c) / 6 == i && (6 * i + c) % 6 == c
  {
  }

  lemma Uint16Exact(v: nat)
    requires v < Uint16Modulus
    ensures ToUint16(v) == v
  {
  }

  lemma Split2(k: nat)
    ensures k == 2 * (k / 2) + k % 2 && k % 2 < 2
  {
  }

  lemma Split4(k: nat)
    ensures k == 4 * (k / 4) + k % 4 && k % 4 < 4
  {
  }

  lemma Split6(k: nat)
    ensures k == 6 * (k / 6) + k % 6 && k % 6 < 6
  {
  }

  // ---------------------------------------------------------------------
  // What the buffers hold, vertex by vertex

  /** Both vertices of point i are at the point. */
  lemma VertexBufferAt(ps: seq<Vec3>, i: nat, c: nat)
    requires i < |ps| && c < 3
    ensures |VertexBuffer(ps)| == 6 * |ps|
    ensures VertexBuffer(ps)[6 * i + c] == Coord(ps[i], c)
    ensures VertexBuffer(ps)[6 * i + 3 + c] == Coord(ps[i], c)
  {
    Div6(i, c);
    Div6(i, 3 + c);
  }

  /** Inner points see their actual neighbours; at each end the missing
      neighbour is mirrored, so the end point lies halfway between its two
      neighbours. */
  lemma NeighbourPoints(ps: seq<Vec3>, i: nat)
    requires |ps| >= 2 && i < |ps|
    ensures 0 < i ==> PrevPoints(ps)[i] == ps[i - 1]
    ensures i < |ps| - 1 ==> NextPoints(ps)[i] == ps[i + 1]
    ensures PrevPoints(ps)[0].x + ps[1].x == 2.0 * ps[0].x
    ensures PrevPoints(ps)[0].y + ps[1].y == 2.0 * ps[0].y
    ensures PrevPoints(ps)[0].z + ps[1].z == 2.0 * ps[0].z
    ensures NextPoints(ps)[|ps| - 1].x + ps[|ps| - 2].x == 2.0 * ps[|ps| - 1].x
    ensures NextPoints(ps)[|ps| - 1].y + ps[|ps| - 2].y == 2.0 * ps[|ps| - 1].y
    ensures NextPoints(ps)[|ps| - 1].z + ps[|ps| - 2].z == 2.0 * ps[|ps| - 1].z
  {
    var last := |ps| - 1;
    assert NextPoints(ps)[last] == Reflect(ps[last], ps[last - 1]);
    assert PrevPoints(ps)[0] == Reflect(ps[0], ps[1]);
  }

  /** The two vertices of a point lie on opposite sides: -1 then +1. */
  lemma SideAt(n: nat, i: nat)
    requires i < n
    ensures |SideBuffer(n)| == 2 * n
    ensures SideBuffer(n)[2 * i] == -1.0 && SideBuffer(n)[2 * i + 1] == 1.0
  {
    Div2(i, 0);
    Div2(i, 1);
  }

  /** The uv row of point i is (0, v, 1, v). */
  lemma UvAt(n: nat, i: nat)
    requires 2 <= n && i < n
    ensures |UvBuffer(n)| == 4 * n
    ensures UvBuffer(n)[4 * i] == 0.0 && UvBuffer(n)[4 * i + 1] == V(n, i)
    ensures UvBuffer(n)[4 * i + 2] == 1.0 && UvBuffer(n)[4 * i + 3] == V(n, i)
  {
    Div4(i, 0);
    Div4(i, 1);
    Div4(i, 2);
    Div4(i, 3);
  }

  lemma UvEnds(n: nat, i: nat)
    requires 2 <= n && i < n
    ensures V(n, 0) == 0.0 && V(n, n - 1) == 1.0
    ensures 0.0 <= V(n, i) <= 1.0
  {
    var d := (n - 1) as real;
    assert 0.0 < d;
    assert V(n, i) * d == i as real;
    assert i as real <= d;
  }

  /** v runs from 0 at the first point to 1 at the last and grows along
      the line. */
  lemma UvIncreasing(n: nat, i: nat, j: nat)
    requires 2 <= n && i < j < n
    ensures V(n, i) < V(n, j)
  {
    var d := (n - 1) as real;
    assert V(n, i) * d == i as real && V(n, j) * d == j as real;
    assert (V(n, j) - V(n, i)) * d == (j - i) as real;
  }

  lemma IndexAt(n: nat, i: nat, c: nat)
    requires 1 <= n && i < n - 1 && c < 6
    ensures 6 * i + c < |IndexBuffer(n)| && IndexBuffer(n)[6 * i + c] == ToUint16(Corner(i, c))
  {
    Div6(i, c);
  }

  /** While 2*count fits in 16 bits, segment i's six indices are exactly
      its two triangles. */
  lemma IndexTriangles(n: nat, i: nat)
    requires 1 <= n && i < n - 1 && 2 * n <= Uint16Modulus
    ensures |IndexBuffer(n)| == 6 * (n - 1)
    ensures forall c | 0 <= c < 6 :: IndexBuffer(n)[6 * i + c] == Corner(i, c)
  {
    forall c | 0 <= c < 6
      ensures IndexBuffer(n)[6 * i + c] == Corner(i, c)
    {
      IndexAt(n, i, c);
      Uint16Exact(Corner(i, c));
    }
  }

  /** Every index names a vertex (is below 2*count) exactly when 2*count
      fits in 16 bits; with more points the largest indices wrap around. */
  lemma IndexInRangeIff(n: nat)
    requires 2 <= n
    ensures (forall k | 0 <= k < |IndexBuffer(n)| :: IndexBuffer(n)[k] < 2 * n
                                                 && IndexBuffer(n)[k] == Corner(k / 6, k % 6))
        <==> 2 * n <= Uint16Modulus
  {
    if 2 * n <= Uint16Modulus {
      forall k | 0 <= k < |IndexBuffer(n)|
        ensures IndexBuffer(n)[k] < 2 * n && IndexBuffer(n)[k] == Corner(k / 6, k % 6)
      {
        Split6(k);
        var i, c := k / 6, k % 6;
        assert i < n - 1;
        assert Corner(i, c) <= 2 * i + 3 < 2 * n;
      }
    } else {
      var k := 6 * (n - 2) + 5;
      Div6(n - 2, 5);
      assert Corner(k / 6, k % 6) == 2 * n - 1;
      assert IndexBuffer(n)[k] != Corner(k / 6, k % 6);
    }
  }

  /** Every vertex is a corner of some triangle. */
  lemma EveryVertexDrawn(n: nat, v: nat)
    requires 2 <= n && 2 * n <= Uint16Modulus && v < 2 * n
    ensures exists k | 0 <= k < |IndexBuffer(n)| :: IndexBuffer(n)[k] == v
  {
    var i := v / 2;
    Split2(v);
    var seg, c := if i < n - 1 then i else n - 2, if i < n - 1 then v % 2 else if v % 2 == 0 then 2 else 5;
    assert Corner(seg, c) == v;
    IndexTriangles(n, seg);
    var k := 6 * seg + c;
    assert IndexBuffer(n)[k] == Corner(seg, c);
  }

  // ---------------------------------------------------------------------
  // From per-vertex facts to whole buffers

  /** The two vertices of point j as stored in `a`. */
  ghost function Pair(a: array<real>, j: nat): (Vec3, Vec3)
    requires 6 * j + 6 <= a.Length
    reads a
  {
    (Vec3(a[6 * j], a[6 * j + 1], a[6 * j + 2]), Vec3(a[6 * j + 3], a[6 * j + 4], a[6 * j + 5]))
  }

  lemma VertexRows(a: array<real>, ps: seq<Vec3>)
    requires a.Length == 6 * |ps|
    requires forall j | 0 <= j < |ps| :: Pair(a, j) == (ps[j], ps[j])
    ensures a[..] == VertexBuffer(ps)
  {
    forall k | 0 <= k < a.Length
      ensures a[k] == VertexBuffer(ps)[k]
    {
      Split6(k);
      var j, c := k / 6, k % 6;
      assert Pair(a, j) == (ps[j], ps[j]);
      assert a[6 * j + c] == PairCoord(ps[j], c);
    }
  }

  /** The side, uv and index entries of point (or segment) j. */
  ghost predicate SideRow(a: array<real>, j: nat)
    reads a
  {
    2 * j + 2 <= a.Length && a[2 * j] == -1.0 && a[2 * j + 1] == 1.0
  }

  ghost predicate UvRow(a: array<real>, n: nat, j: nat)
    requires 2 <= n
    reads a
  {
    4 * j + 4 <= a.Length &&
    a[4 * j] == 0.0 && a[4 * j + 1] == V(n, j) && a[4 * j + 2] == 1.0 && a[4 * j + 3] == V(n, j)
  }

  ghost predicate IndexRow(a: array<nat>, j: nat)
    reads a
  {
    6 * j + 6 <= a.Length &&
    a[6 * j] == ToUint16(2 * j) && a[6 * j + 1] == ToUint16(2 * j + 1) && a[6 * j + 2] == ToUint16(2 * j + 2) &&
    a[6 * j + 3] == ToUint16(2 * j + 2) && a[6 * j + 4] == ToUint16(2 * j + 1) && a[6 * j + 5] == ToUint16(2 * j + 3)
  }

  lemma SideRows(a: array<real>, n: nat)
    requires a.Length == 2 * n
    requires forall j | 0 <= j < n :: SideRow(a, j)
    ensures a[..] == SideBuffer(n)
  {
    forall k | 0 <= k < a.Length
      ensures a[k] == SideBuffer(n)[k]
    {
      Split2(k);
      var j := k / 2;
      assert SideRow(a, j);
    }
  }

  lemma UvRows(a: array<real>, n: nat)
    requires 2 <= n && a.Length == 4 * n
    requires forall j | 0 <= j < n :: UvRow(a, n, j)
    ensures a[..] == UvBuffer(n)
  {
    forall k | 0 <= k < a.Length
      ensures a[k] == UvBuffer(n)[k]
    {
      Split4(k);
      var j := k / 4;
      assert UvRow(a, n, j);
    }
  }

  lemma IndexRows(a: array<nat>, n: nat)
    requires 1 <= n && a.Length == 6 * (n - 1)
    requires forall j | 0 <= j < n - 1 :: IndexRow(a, j)
    ensures a[..] == IndexBuffer(n)
  {
    forall k | 0 <= k < a.Length
      ensures a[k] == IndexBuffer(n)[k]
    {
      Split6(k);
      var j, c := k / 6, k % 6;
      assert IndexRow(a, j);
      assert a[6 * j + c] == ToUint16(Corner(j, c));
    }
  }

  /** p.toArray(a, offset) */
  method WriteVec(a: array<real>, offset: nat, p: Vec3)
    requires offset + 3 <= a.Length
    modifies a
    ensures a[offset] == p.x && a[offset + 1] == p.y && a[offset + 2] == p.z
    ensures forall k | 0 <= k < a.Length && (k < offset || offset + 3 <= k) :: a[k] == old(a[k])
  {
    a[offset], a[offset + 1], a[offset + 2] := p.x, p.y, p.z;
  }

  /** The two toArray calls that place p at both vertices of point j. */
  method WriteVertex(a: array<real>, j: nat, p: Vec3)
    requires 6 * j + 6 <= a.Length
    modifies a
    ensures Pair(a, j) == (p, p)
    ensures forall m | 0 <= m < a.Length / 6 && m != j :: Pair(a, m) == old(Pair(a, m))
  {
    WriteVec(a, j * 3 * 2, p);
    WriteVec(a, j * 3 * 2 + 3, p);
    forall m | 0 <= m < a.Length / 6 && m != j
      ensures Pair(a, m) == old(Pair(a, m))
    {
      assert 6 * m + 6 <= a.Length;
      assert 6 * m + 6 <= 6 * j || 6 * j + 6 <= 6 * m;
    }
  }

  /** a.set(values, offset) on a typed array. */
  method Set<T>(a: array<T>, values: seq<T>, offset: nat)
    requires offset + |values| <= a.Length
    modifies a
    ensures forall k | 0 <= k < |values| :: a[offset + k] == values[k]
    ensures forall k | 0 <= k < a.Length && (k < offset || offset + |values| <= k) :: a[k] == old(a[k])
  {
    for k := 0 to |values|
      invariant forall m | 0 <= m < k :: a[offset + m] == values[m]
      invariant forall m | 0 <= m < a.Length && (m < offset || offset + k <= m) :: a[m] == old(a[m])
    {
      a[offset + k] := values[k];
    }
  }

  /** The side entries of point i: -1 and +1. */
  method SetSide(side: array<real>, i: nat)
    requires 2 * i + 2 <= side.Length
    modifies side
    ensures SideRow(side, i)
    ensures forall j | 0 <= j < i && old(SideRow(side, j)) :: SideRow(side, j)
    ensures forall k | 0 <= k < side.Length && (k < 2 * i || 2 * i + 2 <= k) :: side[k] == old(side[k])
  {
    var i2 := i * 2;
    var values := [-1.0, 1.0];
    Set(side, values, i2);
    assert values[0] == -1.0 && values[1] == 1.0;
  }

  /** The uv entries of point i: (0, v, 1, v) with v = i / (n - 1). */
  method SetUv(uv: array<real>, n: nat, i: nat)
    requires 2 <= n && 4 * i + 4 <= uv.Length
    modifies uv
    ensures UvRow(uv, n, i)
    ensures forall j | 0 <= j < i && old(UvRow(uv, n, j)) :: UvRow(uv, n, j)
    ensures forall k | 0 <= k < uv.Length && (k < 4 * i || 4 * i + 4 <= k) :: uv[k] == old(uv[k])
  {
    var v := i as real / (n - 1) as real;
    var values := [0.0, v, 1.0, v];
    Set(uv, values, i * 4);
    assert values[0] == 0.0 && values[1] == v && values[2] == 1.0 && values[3] == v;
  }

  /** The two triangles of segment i, each index stored in 16 bits. */
  method SetIndex(index: array<nat>, i: nat)
    requires 6 * i + 6 <= index.Length
    modifies index
    ensures IndexRow(index, i)
    ensures forall j | 0 <= j < i && old(IndexRow(index, j)) :: IndexRow(index, j)
    ensures forall k | 0 <= k < index.Length && (k < 6 * i || 6 * i + 6 <= k) :: index[k] == old(index[k])
  {
    var i2 := i * 2;
    var first := [ToUint16(i2 + 0), ToUint16(i2 + 1), ToUint16(i2 + 2)];
    Set(index, first, (i2 + 0) * 3);
    assert first[0] == ToUint16(i2) && first[1] == ToUint16(i2 + 1) && first[2] == ToUint16(i2 + 2);
    var second := [ToUint16(i2 + 2), ToUint16(i2 + 1), ToUint16(i2 + 3)];
    Set(index, second, (i2 + 1) * 3);
    assert second[0] == ToUint16(i2 + 2) && second[1] == ToUint16(i2 + 1) && second[2] == ToUint16(i2 + 3);
  }

  /** The side, uv and index buffers of a line of n points, filled point by
      point. */
  method Attributes(n: nat) returns (side: array<real>, uv: array<real>, index: array<nat>)
    requires 2 <= n
    ensures fresh(side) && fresh(uv) && fresh(index)
    ensures side[..] == SideBuffer(n) && uv[..] == UvBuffer(n) && index[..] == IndexBuffer(n)
  {
    side := new real[n * 1 * 2];
    uv := new real[n * 2 * 2];
    index := new nat[(n - 1) * 3 * 2];
    for i := 0 to n
      invariant forall j | 0 <= j < i :: SideRow(side, j)
      invariant forall j | 0 <= j < i :: UvRow(uv, n, j)
      invariant forall j | 0 <= j < Min(i, n - 1) :: IndexRow(index, j)
    {
      SetSide(side, i);
      SetUv(uv, n, i);
      if i == n - 1 {
        continue;
      }
      SetIndex(index, i);
    }
    SideRows(side, n);
    UvRows(uv, n);
    IndexRows(index, n);
  }

  class Polyline {
    var points: seq<Vec3>
    var count: nat
    var position: array<real>
    var prev: array<real>
    var next: array<real>
    // side, uv and index are handed to the geometry; they are kept here
    // so that their contents can be stated
    var side: array<real>
    var uv: array<real>
    var index: array<nat>

    ghost predicate Valid()
      reads this
    {
      count == |points| && 2 <= count &&
      position.Length == 6 * count && prev.Length == 6 * count && next.Length == 6 * count &&
      position != prev && position != next && prev != next
    }

    /** A polyline through `points`, with all six buffers filled. */
    constructor (points: seq<Vec3>)
      requires 2 <= |points|
      ensures Valid() && this.points == points && count == |points|
      ensures side[..] == SideBuffer(count) && uv[..] == UvBuffer(count) && index[..] == IndexBuffer(count)
      ensures position[..] == VertexBuffer(points)
      ensures prev[..] == VertexBuffer(PrevPoints(points))
      ensures next[..] == VertexBuffer(NextPoints(points))
    {
      this.points := points;
      count := |points|;
      // the buffers are allocated by Init
      var none := new real[0];
      position, prev, next, side, uv := none, none, none, none, none;
      index := new nat[0];
      new;
      Init();
      UpdateGeometry();
    }

    /** Allocates the buffers and fills side, uv and index, which depend
        only on the number of points. */
    method Init()
      requires count == |points| && 2 <= count
      modifies this
      ensures points == old(points) && count == old(count) && Valid()
      ensures fresh(position) && fresh(prev) && fresh(next)
      ensures side[..] == SideBuffer(count) && uv[..] == UvBuffer(count) && index[..] == IndexBuffer(count)
    {
      position := new real[count * 3 * 2];
      prev := new real[count * 3 * 2];
      next := new real[count * 3 * 2];
      var side, uv, index := Attributes(count);
      this.side, this.uv, this.index := side, uv, index;
    }

    /** Writes every point into position (twice), and its neighbours into
        prev and next, mirroring the missing neighbour at each end. */
    method UpdateGeometry()
      requires Valid()
      modifies position, prev, next
      ensures position[..] == VertexBuffer(points)
      ensures prev[..] == VertexBuffer(PrevPoints(points))
      ensures next[..] == VertexBuffer(NextPoints(points))
    {
      var n := |points|;
      for i := 0 to n
        invariant forall j | 0 <= j < i :: Pair(position, j) == (points[j], points[j])
        invariant forall j | 0 <= j < (if i == 0 then 0 else Min(i + 1, n)) ::
          Pair(prev, j) == (PrevPoints(points)[j], PrevPoints(points)[j])
        invariant forall j | 0 <= j < (if i == n then n else if i == 0 then 0 else i - 1) ::
          Pair(next, j) == (NextPoints(points)[j], NextPoints(points)[j])
      {
        var p := points[i];
        WriteVertex(position, i, p);

        if i == 0 {
          var tmp := Reflect(p, points[i + 1]);
          WriteVertex(prev, i, tmp);
        } else {
          WriteVertex(next, i - 1, p);
        }

        if i == n - 1 {
          var tmp := Reflect(p, points[i - 1]);
          WriteVertex(next, i, tmp);
        } else {
          WriteVertex(prev, i + 1, p);
        }
      }
      VertexRows(position, points);
      VertexRows(prev, PrevPoints(points));
      VertexRows(next, NextPoints(points));
    }
  }
}
