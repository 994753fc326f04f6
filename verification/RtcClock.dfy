/** The monotonic clock over a modular counter whose reads may be stale (rtc_clock.c). */
module RtcClock {
  import opened Words

  datatype Reading = Reading(started: bool, lastRaw: u32, elapsed: u32)

  const FRESH := Reading(false, 0, 0)

  function Advanced(clk: Reading, raw: u32, modulus: u32, backstep: u32): Reading
  {
    if !clk.started then clk.(started := true, lastRaw := raw)
    else
      var delta := if raw >= clk.lastRaw then raw - clk.lastRaw
                   else (raw + (modulus - clk.lastRaw)) % U32;
      if delta != 0 && delta >= (modulus - backstep) % U32 then clk
      else clk.(elapsed := (clk.elapsed + delta) % U32, lastRaw := raw)
  }

  class Clock {
    var started: bool
    var lastRaw: u32
    var elapsed: u32

    function View(): Reading
      reads this
    {
      Reading(started, lastRaw, elapsed)
    }

    constructor ()
      ensures View() == FRESH
    {
      started, lastRaw, elapsed := false, 0, 0;
    }

    method Advance(raw: u32, modulus: u32, backstep: u32) returns (ticks: u32)
      modifies this
      ensures View() == Advanced(old(View()), raw, modulus, backstep)
      ensures ticks == elapsed
    {
      if !started {
        started := true;
        lastRaw := raw;
        return elapsed;
      }
      var delta: u32;
      if raw >= lastRaw {
        delta := raw - lastRaw;
      } else {
        delta := (raw + (modulus - lastRaw)) % U32;
      }
      if delta != 0 && delta >= (modulus - backstep) % U32 {
        return elapsed;
      }
      elapsed := (elapsed + delta) % U32;
      lastRaw := raw;
      return elapsed;
    }
  }

  // ---------------------------------------------------------------- sampling true time

  /** One read of the counter at true time `time` that returned the count of `stale` ticks earlier. */
  datatype Sample = Sample(time: int, stale: nat)

  function Value(s: Sample): int { s.time - s.stale }

  /** The newest counter value any sample has shown. */
  function Newest(samples: seq<Sample>): int
    requires samples != []
  {
    var last := Value(samples[|samples| - 1]);
    if |samples| == 1 then last
    else
      var before := Newest(samples[..|samples| - 1]);
      if last > before then last else before
  }

  function Follow(samples: seq<Sample>, modulus: u32, backstep: u32): Reading
    requires 0 < modulus
  {
    if samples == [] then FRESH
    else
      var n := |samples| - 1;
      Advanced(Follow(samples[..n], modulus, backstep), Value(samples[n]) % modulus, modulus, backstep)
  }

  /** Every read at most `backstep` stale, and consecutive reads less than modulus - 2*backstep apart. */
  ghost predicate WellRead(samples: seq<Sample>, modulus: u32, backstep: u32)
  {
    && (forall i :: 0 <= i < |samples| ==> samples[i].stale <= backstep)
    && (forall i :: 0 < i < |samples| ==>
          0 <= samples[i].time - samples[i - 1].time < modulus - 2 * backstep)
  }

  /** The clock has seen counter values from `first` up to `newest`, and is right about both. */
  ghost predicate Tracks(clk: Reading, first: int, newest: int, modulus: u32)
    requires 0 < modulus
  {
    clk.started && clk.lastRaw == newest % modulus && clk.elapsed == (newest - first) % U32
  }

  lemma {:induction false} MultipleIsFar(k: int, m: int)
    requires 0 < m && k != 0
    ensures k > 0 ==> k * m >= m
    ensures k < 0 ==> k * m <= -m
    decreases if k < 0 then -k else k
  {
    if k > 1 {
      MultipleIsFar(k - 1, m);
      assert k * m == (k - 1) * m + m;
    } else if k < -1 {
      MultipleIsFar(k + 1, m);
      assert k * m == (k + 1) * m - m;
    }
  }

  lemma ModularUnique(a: int, q: int, r: int, m: int)
    requires 0 < m && 0 <= r < m && a == q * m + r
    ensures a % m == r
  {
    var q', r' := a / m, a % m;
    assert (q - q') * m == q * m - q' * m == r' - r;
    if q != q' {
      MultipleIsFar(q - q', m);
    }
  }

  lemma ModularDistance(a: int, b: int, m: int)
    requires 0 < m && 0 <= b - a < m
    ensures b - a == if b % m >= a % m then b % m - a % m else b % m + m - a % m
  {
    var q, d := a / m, b - a;
    if a % m + d < m {
      ModularUnique(b, q, a % m + d, m);
    } else {
      assert b == q * m + m + (a % m + d - m) == (q + 1) * m + (a % m + d - m);
      ModularUnique(b, q + 1, a % m + d - m, m);
    }
  }

  lemma ModularPeriod(a: int, m: int)
    requires 0 < m
    ensures (a + m) % m == a % m
  {
    var q := a / m;
    assert a + m == (q + 1) * m + a % m;
    ModularUnique(a + m, q + 1, a % m, m);
  }

  /** One sample, less than a whole counter period from the newest one so far: the clock stays right
      exactly when the sample is at most `backstep` behind it and less than modulus - backstep ahead. */
  lemma OneSampleExact(clk: Reading, first: int, newest: int, value: int, modulus: u32, backstep: u32)
    requires 0 < modulus && backstep < modulus
    requires Tracks(clk, first, newest, modulus)
    requires 0 - modulus < value - newest < modulus
    ensures Tracks(Advanced(clk, value % modulus, modulus, backstep), first,
                   if value > newest then value else newest, modulus)
            <==> 0 - backstep <= value - newest < modulus - backstep
  {
    var raw := value % modulus;
    if value >= newest {
      ModularDistance(newest, value, modulus);
      AdvancedBy(clk, raw, value - newest, modulus, backstep);
      ElapsedOnward(first, newest, value - newest);
    } else {
      ModularPeriod(value, modulus);
      ModularDistance(newest, value + modulus, modulus);
      AdvancedBy(clk, raw, value + modulus - newest, modulus, backstep);
      ElapsedOnward(first, newest, value + modulus - newest);
    }
  }

  /** What one read does, given how far it is ahead on the counter. */
  lemma AdvancedBy(clk: Reading, raw: u32, delta: int, modulus: u32, backstep: u32)
    requires clk.started && clk.lastRaw < modulus && backstep < modulus && raw < modulus
    requires delta == if raw >= clk.lastRaw then raw - clk.lastRaw else raw + modulus - clk.lastRaw
    ensures Advanced(clk, raw, modulus, backstep) ==
              if delta != 0 && delta >= modulus - backstep then clk
              else clk.(elapsed := (clk.elapsed + delta) % U32, lastRaw := raw)
  {
  }

  lemma ElapsedOnward(first: int, newest: int, delta: int)
    requires 0 <= delta < U32
    ensures ((newest - first) % U32 + delta) % U32 == (newest + delta - first) % U32
    ensures delta != 0 ==> (newest + delta - first) % U32 != (newest - first) % U32
  {
  }

  /** The clock refines true time: after any well-read run, across any number of counter wraps and with
      stale reads straddling a wrap, it shows the newest value seen minus the first, modulo 2^32. */
  lemma {:induction false} ElapsedIsNewestMinusFirst(samples: seq<Sample>, modulus: u32, backstep: u32)
    requires samples != [] && 0 < modulus
    requires WellRead(samples, modulus, backstep)
    ensures Tracks(Follow(samples, modulus, backstep), Value(samples[0]), Newest(samples), modulus)
    ensures samples[|samples| - 1].time - backstep <= Newest(samples) <= samples[|samples| - 1].time
  {
    var n := |samples| - 1;
    if n > 0 {
      var before := samples[..n];
      assert forall i :: 0 <= i < n ==> before[i] == samples[i];
      ElapsedIsNewestMinusFirst(before, modulus, backstep);
      OneSampleExact(Follow(before, modulus, backstep), Value(samples[0]), Newest(before),
                     Value(samples[n]), modulus, backstep);
    }
  }

  lemma TrackedDifference(c: Reading, c': Reading, first: int, newest: int, newest': int, modulus: u32)
    requires 0 < modulus && Tracks(c, first, newest, modulus) && Tracks(c', first, newest', modulus)
    requires first <= newest <= newest' < first + U32
    ensures c'.elapsed - c.elapsed == newest' - newest
  {
  }

  /** Elapsed time never runs backwards: while the run spans less than 2^32 ticks, a further sample raises
      it by exactly how much newer that sample is, and a stale one not at all. */
  lemma {:induction false} ElapsedIsMonotone(samples: seq<Sample>, next: Sample, modulus: u32, backstep: u32)
    requires samples != [] && 0 < modulus
    requires WellRead(samples, modulus, backstep) && WellRead(samples + [next], modulus, backstep)
    requires Value(samples[0]) <= Newest(samples) && Newest(samples + [next]) < Value(samples[0]) + U32
    ensures Newest(samples + [next]) == if Value(next) > Newest(samples) then Value(next) else Newest(samples)
    ensures Follow(samples + [next], modulus, backstep).elapsed - Follow(samples, modulus, backstep).elapsed
            == Newest(samples + [next]) - Newest(samples)
  {
    var all := samples + [next];
    assert all[..|samples|] == samples;
    ElapsedIsNewestMinusFirst(all, modulus, backstep);
    ElapsedIsNewestMinusFirst(samples, modulus, backstep);
    TrackedDifference(Follow(samples, modulus, backstep), Follow(all, modulus, backstep),
                      Value(samples[0]), Newest(samples), Newest(all), modulus);
  }
}
