/** Definitions shared by the components: the stream of Math.random draws,
    scaling a draw by a canvas dimension, and the minimum of two counts. */
module Common {

  /** A stream of draws of Math.random. Each creation call consumes its own
      stream from index 0, in the order the source makes its calls. */
  ghost predicate IsRandom(random: nat -> real)
  {
    forall k: nat :: 0.0 <= random(k) < 1.0
  }

  /** A draw scaled by a canvas dimension lies on the canvas. */
  lemma ScaleBelow(r: real, n: nat, v: real)
    requires 0.0 <= r < 1.0 && v == r * n as real
    ensures 0.0 <= v <= n as real
    ensures 0 < n ==> v < n as real
  {
    var w := n as real;
    assert v == r * w && 0.0 <= w;
    assert r * w <= 1.0 * w;
    if 0 < n {
      assert r * w < 1.0 * w;
    }
  }

  function Min(a: nat, b: nat): nat { if a < b then a else b }
}
