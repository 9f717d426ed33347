/**
 * Identity stamping at build time (`genTimestamp`, `genNonce`). The wall
 * clock, the random jitter and the random nonce are inputs: the model
 * states what the stamp is for given readings, not that readings differ.
 */
module Identity {
  import opened JavaInts

  /** Nanoseconds per millisecond: the factor applied to the clock reading. */
  const NanosPerMilli: int := 1000000

  /** The bounds passed to `randInt` for the jitter: at least 1000, below 1000000. */
  const JitterLow: int := 1000
  const JitterHigh: int := 1000000

  /**
   * `clockMillis * 1000000 + jitter` evaluated in Java: a `long` product
   * followed by a `long` sum, each wrapping modulo 2^64. The two wraps come
   * to one wrap of the exact value.
   */
  function GenTimestamp(clockMillis: int64, jitter: int32): (r: int64)
    ensures r == Wrap64(clockMillis as int * NanosPerMilli + jitter as int)
  {
    WrapTwice(clockMillis as int * NanosPerMilli, jitter as int);
    Wrap64(Wrap64(clockMillis as int * NanosPerMilli) as int + jitter as int)
  }

  /** A jitter value `randInt(1000, 1000000)` can return. */
  predicate JitterInRange(jitter: int32) {
    JitterLow <= jitter as int < JitterHigh
  }

  /** The clock readings for which the whole tick, up to the next millisecond, fits in a `long`. */
  predicate ClockFits(clockMillis: int64) {
    -TwoTo63 <= clockMillis as int * NanosPerMilli && clockMillis as int * NanosPerMilli + NanosPerMilli < TwoTo63
  }

  /**
   * With the jitter in range and no overflow, the stamp is the exact sum,
   * and it lies strictly inside the clock's millisecond in nanoseconds.
   */
  lemma TimestampExact(clockMillis: int64, jitter: int32)
    requires JitterInRange(jitter) && ClockFits(clockMillis)
    ensures GenTimestamp(clockMillis, jitter) as int == clockMillis as int * NanosPerMilli + jitter as int
    ensures clockMillis as int * NanosPerMilli < GenTimestamp(clockMillis, jitter) as int < (clockMillis as int + 1) * NanosPerMilli
  {
  }

  /**
   * Stamps taken in different milliseconds are ordered like the clock
   * readings, whatever the jitters; in the same millisecond they differ
   * exactly when the jitters differ.
   */
  lemma TimestampsSeparate(c1: int64, j1: int32, c2: int64, j2: int32)
    requires JitterInRange(j1) && ClockFits(c1)
    requires JitterInRange(j2) && ClockFits(c2)
    ensures c1 < c2 ==> GenTimestamp(c1, j1) < GenTimestamp(c2, j2)
    ensures c1 == c2 ==> (GenTimestamp(c1, j1) == GenTimestamp(c2, j2) <==> j1 == j2)
  {
  }

  /**
   * The `long` product does wrap: the clock reading 9223372036855 ms,
   * in the year 2262, yields a negative stamp.
   */
  lemma TimestampWrapsAfter2262()
    ensures GenTimestamp(9223372036855, 1000) < 0
  {
  }
}
