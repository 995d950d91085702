/**
 * `Math.random`, taken as an input: the k-th call returns `stream(k)`, some
 * real in [0, 1). Operations that draw random numbers take the stream and
 * the number of draws made so far, and return the new number of draws.
 */
module RandomSource {

  type Unit = u: real | 0.0 <= u < 1.0

  type RandomStream = nat -> Unit

  /** `Math.floor(u * n)`: a uniformly drawn index into a collection of `n` elements. */
  function Pick(u: Unit, n: nat): (i: nat)
    requires n > 0
    ensures i < n
  {
    ScaleBelow(u, n);
    (u * n as real).Floor
  }

  lemma ScaleBelow(u: Unit, n: nat)
    requires n > 0
    ensures 0.0 <= u * n as real < n as real
  {
  }
}
