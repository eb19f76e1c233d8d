/**
 * Math.random() as an injected, finite stream of draws. Every consumer takes the
 * stream and hands back the part it did not use; the JavaScript idiom
 * `Math.floor(Math.random() * n)` is Pick.
 */
module RandomDraws {
  /** One value of Math.random(). */
  type Draw = r: real | 0.0 <= r < 1.0

  /** `Math.floor(r * n)`: a uniform index into a pool of n elements. */
  function Pick(r: Draw, n: nat): (k: nat)
    requires n > 0
    ensures k < n
    ensures k as real <= r * n as real < k as real + 1.0
  {
    ScaledBelow(r, n as real);
    (r * n as real).Floor
  }

  lemma ScaledBelow(r: Draw, x: real)
    requires x > 0.0
    ensures 0.0 <= r * x < x
  {
    assert x - r * x == (1.0 - r) * x;
  }

  lemma ScaledWithin(r: Draw, x: real)
    requires x >= 0.0
    ensures 0.0 <= r * x <= x
    ensures x > 0.0 ==> r * x < x
  {
    if x > 0.0 { ScaledBelow(r, x); }
  }

  /** `s` is what is left of `rs` after a prefix was consumed. */
  predicate IsSuffix(s: seq<Draw>, rs: seq<Draw>) {
    |s| <= |rs| && s == rs[|rs| - |s|..]
  }
}
