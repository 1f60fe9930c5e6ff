/** The random source of the generator.

    The program draws every random choice as `Math.floor(Math.random() * n)`.
    Here `Math.random()` is a stream of unit draws, one real number in [0, 1)
    per call, and each caller says which position of the stream it reads. */
module Entropy {

  /** A value returned by `Math.random()`. */
  type Unit = u: real | 0.0 <= u < 1.0

  /** The successive values `Math.random()` returns, from position 0 on. */
  type Stream = nat -> Unit

  /** `Math.floor(u * n)`: a uniform draw mapped onto [0, n). */
  function Scale(u: Unit, n: nat): (k: nat)
    requires n > 0
    ensures k < n
  {
    ScaleBelow(u, n);
    (u * n as real).Floor
  }

  /** The scaled draw lies in [0, n). */
  lemma ScaleBelow(u: Unit, n: nat)
    requires n > 0
    ensures 0.0 <= u * n as real < n as real
  {
    assert u * n as real <= u * n as real + (1.0 - u) * n as real;
  }

  /** The draw `Math.floor(Math.random() * n)` made at position `at`. */
  function Below(src: Stream, at: nat, n: nat): (k: nat)
    requires n > 0
    ensures k < n
  {
    Scale(src(at), n)
  }

  /** `randomNumber(min, max)`: `Math.floor(Math.random() * (max - min + 1)) + min`. */
  function RandomNumber(src: Stream, at: nat, min: int, max: int): (k: int)
    requires min <= max
    ensures min <= k <= max
  {
    Below(src, at, max - min + 1) + min
  }
}
