/** Fixed-width unsigned integers as the C code uses them, and the RTC32K modulus. */
module Words {

  const U32: int := 0x1_0000_0000

  /** RTC32K counts modulo this, not modulo 2^32. */
  const RTC_MODULUS: int := 0xA8C0_0000

  type u8 = x: int | 0 <= x < 0x100
  type u32 = x: int | 0 <= x < U32

  datatype Option<+T> = None | Some(value: T)

  /** What RTC32K shows at time t. */
  function Counter(t: int): (c: u32)
    ensures c < RTC_MODULUS
  {
    t % RTC_MODULUS
  }

  /** `(uint32_t)(a - b)`: the distance from b to a on a free-running 32-bit counter. */
  function Since(a: int, b: int): (d: u32)
    ensures (b + d) % U32 == a % U32
  {
    (a - b) % U32
  }

  /** A 32-bit difference never exceeds the real time that has passed, and is exact below one wrap. */
  lemma SinceRealTime(t: int, t0: int)
    requires t0 <= t
    ensures Since(t % U32, t0 % U32) <= t - t0
    ensures t - t0 < U32 ==> Since(t % U32, t0 % U32) == t - t0
  {
    assert Since(t % U32, t0 % U32) == (t - t0) % U32;
  }

  /** It makes no difference whether the counter itself has wrapped. */
  lemma SinceWrapped(t: int, t0: int)
    ensures Since(t % U32, t0) == Since(t, t0)
  {
  }

  /** Counting one tick further, short of a wrap. */
  lemma SinceNextTick(t: int, t0: int)
    ensures Since(t + 1, t0) == if Since(t, t0) == U32 - 1 then 0 else Since(t, t0) + 1
  {
  }
}
