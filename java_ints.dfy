/**
 * Java's fixed-width integers. `long` and `int` arithmetic wraps around
 * modulo 2^64 and 2^32; `Wrap64` is that reduction, written out.
 */
module JavaInts {

  const TwoTo63: int := 0x8000_0000_0000_0000
  const TwoTo64: int := 0x1_0000_0000_0000_0000

  /** Java `long`. */
  newtype int64 = x: int | -0x8000_0000_0000_0000 <= x < 0x8000_0000_0000_0000

  /** Java `int`. */
  newtype int32 = x: int | -0x8000_0000 <= x < 0x8000_0000

  /** The `long` that Java's two's-complement arithmetic yields for the exact result `x`. */
  function Wrap64(x: int): (r: int64)
    ensures (x - r as int) % TwoTo64 == 0
    ensures -TwoTo63 <= x < TwoTo63 ==> r as int == x
  {
    ((x + TwoTo63) % TwoTo64 - TwoTo63) as int64
  }

  /**
   * `Wrap64` depends only on its argument modulo 2^64: the one `long` in range
   * that is congruent to `x` is `Wrap64(x)`.
   */
  lemma WrapUnique(x: int, r: int)
    requires -TwoTo63 <= r < TwoTo63
    requires (x - r) % TwoTo64 == 0
    ensures Wrap64(x) as int == r
  {
    var w := Wrap64(x) as int;
    var d, e := (x - r) / TwoTo64, (x - w) / TwoTo64;
    assert x - r == d * TwoTo64 && x - w == e * TwoTo64;
    assert w - r == (d - e) * TwoTo64;
  }

  /** Wrapping an intermediate result and then wrapping again equals wrapping once at the end. */
  lemma WrapTwice(x: int, y: int)
    ensures Wrap64(Wrap64(x) as int + y) == Wrap64(x + y)
  {
    var w1 := Wrap64(x) as int;
    var w2 := Wrap64(w1 + y) as int;
    var d, e := (x - w1) / TwoTo64, (w1 + y - w2) / TwoTo64;
    assert x - w1 == d * TwoTo64 && w1 + y - w2 == e * TwoTo64;
    assert (x + y) - w2 == (d + e) * TwoTo64;
    WrapUnique(x + y, w2);
  }
}
