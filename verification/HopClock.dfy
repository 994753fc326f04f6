/** The connected-mode hop (rf_task.c): the listen channel advances with elapsed RTC time, and a +/-1 servo
    pulls the phase anchor toward the polls that are caught.

    `Hop` keeps the anchor on an unbounded time line; class `HopScheduler` is the code, on a counter that
    wraps at RTC_MODULUS, and is proved to follow it. */
module HopClock {
  import opened Words

  const BACKSTEP: nat := 1024
  const CHANNELS: nat := 5
  const DESYNC_INTERVALS: nat := 64

  datatype Hop = Hop(
    anchor: int,             // when the present slot began
    idx: nat,                // data-channel index listened on
    sinceRx: nat,            // slots since the last caught poll
    provisional: bool,       // parked until the first poll is caught
    interval: nat,
    responsePending: bool,
    armedAt: int)            // when the pending response was armed
  {
    predicate Valid() { 20 <= interval <= 40 && idx < CHANNELS && sinceRx <= 0xFFFF }
  }

  /** RX latency: how long before the callback a poll of this length began. */
  function Latency(len: nat): nat { 12 + len / 8 }

  /** The servo's verdict: one tick the way the poll lies, or none within the deadband. */
  function Pull(anchor: int, ref: int): int
  {
    if ref - anchor > 1 then 1 else if ref - anchor < -1 then -1 else 0
  }

  function Pulled(anchor: int, ref: int): int { anchor + Pull(anchor, ref) }

  /** A poll caught at time t. */
  function Caught(h: Hop, t: int, len: nat): Hop
  {
    h.(anchor := Pulled(h.anchor, t - Latency(len)), sinceRx := 0, provisional := false,
       responsePending := true, armedAt := t)
  }

  /** The response has been sent, or has failed. */
  function Answered(h: Hop): Hop { h.(responsePending := false) }

  /** A tick that leaves everything to the response in flight. */
  predicate Held(h: Hop, t: int)
  {
    h.responsePending && t - h.armedAt <= 2 * h.interval
  }

  function Step(elapsed: int, interval: nat): (step: int)
    requires 0 < interval
  {
    if elapsed <= interval then 0 else if elapsed / interval > CHANNELS then CHANNELS else elapsed / interval
  }

  function Hopped(h: Hop, t: int): Hop
    requires h.Valid()
  {
    var elapsed := t - h.anchor;
    if h.provisional then
      if elapsed > h.interval then h.(anchor := h.anchor + h.interval) else h
    else if elapsed > h.interval * DESYNC_INTERVALS then h.(anchor := t - 13)
    else if elapsed > h.interval then
      var step := Step(elapsed, h.interval);
      h.(anchor := h.anchor + h.interval * step - if step == 1 && h.sinceRx == 1 then 1 else 0,
         idx := (h.idx + step) % CHANNELS,
         sinceRx := if h.sinceRx < 0xFFFF then h.sinceRx + 1 else h.sinceRx)
    else h
  }

  /** RF_ConnectedTick: the hold is tested on a read at `checked`, the hop made on one at t. */
  function Ticked(h: Hop, checked: int, t: int): (h': Hop)
    requires h.Valid()
  {
    if Held(h, checked) then h else Hopped(Answered(h), t)
  }

  // ---------------------------------------------------------------- counter arithmetic

  /** rtc_delta_32k: elapsed counts, a small step back being none. */
  function Delta(now: u32, before: u32): int
  {
    if now >= before then now - before
    else if before - now <= BACKSTEP then 0
    else RTC_MODULUS - before + now
  }

  function Backdate(t: u32, ticks: nat): (r: int)
    requires t < RTC_MODULUS && ticks <= RTC_MODULUS
    ensures 0 <= r
  {
    if t >= ticks then t - ticks else RTC_MODULUS - (ticks - t)
  }

  /** rtc_signed_delta_32k: from `a` to `ref`, the short way round. */
  function SignedDelta(ref: u32, a: u32): int
  {
    var fwd := if ref >= a then ref - a else RTC_MODULUS - a + ref;
    if fwd <= RTC_MODULUS / 2 then fwd else -(RTC_MODULUS - fwd)
  }

  /** On reads that do not step back, elapsed counts are elapsed time, wrap or no wrap. */
  lemma DeltaIsElapsed(t: int, t0: int)
    requires 0 <= t - t0 < RTC_MODULUS - BACKSTEP
    ensures Delta(Counter(t), Counter(t0)) == t - t0
  {
  }

  lemma CounterLater(t: int, ticks: nat)
    ensures (Counter(t) + ticks) % RTC_MODULUS == Counter(t + ticks)
  {
    assert t == t / RTC_MODULUS * RTC_MODULUS + Counter(t);
  }

  lemma BackdateIsEarlier(t: int, ticks: nat)
    requires ticks < RTC_MODULUS
    ensures Backdate(Counter(t), ticks) == Counter(t - ticks)
  {
  }

  lemma SignedDeltaIsDifference(ref: int, a: int)
    requires -(RTC_MODULUS / 2) < ref - a <= RTC_MODULUS / 2
    ensures SignedDelta(Counter(ref), Counter(a)) == ref - a
  {
  }

  // ---------------------------------------------------------------- the code's own form

  class HopScheduler {
    var hopAnchor: u32
    var prevDataIdx: nat
    var sinceRx: nat
    var provisional: bool
    const interval: nat
    var responsePending: bool
    var responseArmedRtc: u32
    ghost var anchor: int
    ghost var armedAt: int

    ghost function View(): Hop
      reads this
    {
      Hop(anchor, prevDataIdx, sinceRx, provisional, interval, responsePending, armedAt)
    }

    ghost predicate Shaped()
      reads this
    {
      View().Valid() && hopAnchor == Counter(anchor) && responseArmedRtc == Counter(armedAt)
    }

    /** rf_enter_connected: park on the seed channel, the anchor 13 ticks before the pair reply's callback. */
    constructor (connInterval: nat, typeTag: nat, pendingAnchor: u32, ghost seededAt: int)
      requires 20 <= connInterval <= 40 && pendingAnchor == Counter(seededAt)
      ensures Shaped()
      ensures View() == Hop(seededAt, (typeTag + 1) % CHANNELS, 0, true, connInterval, false, 0)
    {
      interval := connInterval;
      prevDataIdx := (typeTag + 1) % CHANNELS;
      hopAnchor, anchor := pendingAnchor, seededAt;
      sinceRx, provisional, responsePending := 0, true, false;
      responseArmedRtc, armedAt := 0, 0;
    }

    static method Add(t: u32, ticks: nat) returns (s: u32)
      requires t < RTC_MODULUS && t + ticks < U32
      ensures s < RTC_MODULUS && s == (t + ticks) % RTC_MODULUS
    {
      s := t + ticks;
      while s >= RTC_MODULUS
        invariant s % RTC_MODULUS == (t + ticks) % RTC_MODULUS
      {
        s := s - RTC_MODULUS;
      }
    }

    method HopServo(reference: u32, ghost at: int)
      requires Shaped() && reference == Counter(at)
      requires -(RTC_MODULUS / 2) < at - anchor <= RTC_MODULUS / 2
      modifies this`hopAnchor, this`anchor
      ensures Shaped() && View() == old(View()).(anchor := Pulled(old(anchor), at))
    {
      SignedDeltaIsDifference(at, anchor);
      var err := SignedDelta(reference, hopAnchor);
      if err > 1 {
        Later(1);
      } else if err < -1 {
        OneTickBack();
      }
    }

    /** The connected-poll branch of the RX callback, as far as the hop is concerned. */
    method OnPoll(now: u32, len: nat, ghost t: int)
      requires Shaped() && now == Counter(t) && len <= 10
      requires -1000 < t - anchor < RTC_MODULUS / 2
      modifies this
      ensures Shaped() && View() == Caught(old(View()), t, len)
    {
      BackdateIsEarlier(t, Latency(len));
      HopServo(Backdate(now, Latency(len)), t - Latency(len));
      sinceRx := 0;
      provisional := false;
      responseArmedRtc, armedAt := now, t;
      responsePending := true;
    }

    /** TX_FINISH and TX_FAIL in the RX callback, and a transmission that did not start. */
    method OnAnswered()
      requires Shaped()
      modifies this`responsePending
      ensures Shaped() && View() == Answered(old(View()))
    {
      responsePending := false;
    }

    /** RF_ConnectedTick; `retune` is whether RX is to be re-armed on the current channel. */
    method ConnectedTick(check: u32, now: u32, ghost checked: int, ghost t: int) returns (retune: bool)
      requires Shaped() && check == Counter(checked) && now == Counter(t)
      requires 0 <= t - anchor < RTC_MODULUS - BACKSTEP
      requires responsePending ==> 0 <= checked - armedAt < RTC_MODULUS - BACKSTEP
      modifies this
      ensures Shaped() && View() == Ticked(old(View()), checked, t)
      ensures retune <==> anchor != old(anchor)
    {
      if responsePending {
        DeltaIsElapsed(checked, armedAt);
        if Delta(check, responseArmedRtc) <= interval * 2 {
          return false;
        }
        responsePending := false;
      }
      retune := HopOn(now, t);
    }

    /** The critical section of RF_ConnectedTick. */
    method HopOn(now: u32, ghost t: int) returns (retune: bool)
      requires Shaped() && now == Counter(t) && 0 <= t - anchor < RTC_MODULUS - BACKSTEP
      modifies this
      ensures Shaped() && View() == Hopped(old(View()), t)
      ensures retune <==> anchor != old(anchor)
    {
      DeltaIsElapsed(t, anchor);
      var elapsed := Delta(now, hopAnchor);
      if provisional {
        if elapsed > interval {
          Later(interval);
          return true;
        }
        return false;
      } else if elapsed > interval * DESYNC_INTERVALS {
        BackdateIsEarlier(t, 13);
        hopAnchor := Backdate(now, 13);
        anchor := t - 13;
        return true;
      } else if elapsed > interval {
        var step := elapsed / interval;
        if step > CHANNELS {
          step := CHANNELS;
        }
        StepRange(elapsed, interval);
        Advance(step, interval * step);
        return true;
      }
      return false;
    }

    /** `step` slots on, `ticks` in all; one tick back on the slot just after an RX. */
    method Advance(step: nat, ticks: nat)
      requires Shaped() && 1 <= step && 0 < ticks < 0x1000_0000
      modifies this
      ensures Shaped()
      ensures View() == old(View()).(
                          anchor := old(anchor) + ticks - (if step == 1 && old(sinceRx) == 1 then 1 else 0),
                          idx := (old(prevDataIdx) + step) % CHANNELS,
                          sinceRx := if old(sinceRx) < 0xFFFF then old(sinceRx) + 1 else old(sinceRx))
    {
      Later(ticks);
      prevDataIdx := (prevDataIdx + step) % CHANNELS;
      if step == 1 && sinceRx == 1 {
        OneTickBack();
      }
      if sinceRx < 0xFFFF {
        sinceRx := sinceRx + 1;
      }
    }

    method Later(ticks: nat)
      requires hopAnchor == Counter(anchor) && ticks < 0x1000_0000
      modifies this`hopAnchor, this`anchor
      ensures hopAnchor == Counter(anchor) && anchor == old(anchor) + ticks
    {
      CounterLater(anchor, ticks);
      hopAnchor := Add(hopAnchor, ticks);
      anchor := anchor + ticks;
    }

    method OneTickBack()
      requires hopAnchor == Counter(anchor)
      modifies this`hopAnchor, this`anchor
      ensures hopAnchor == Counter(anchor) && anchor == old(anchor) - 1
    {
      BackdateIsEarlier(anchor, 1);
      hopAnchor := Backdate(hopAnchor, 1);
      anchor := anchor - 1;
    }
  }

  /** The hop never overshoots the present, and falls short by an interval or less up to six of them. */
  lemma StepRange(elapsed: int, interval: nat)
    requires 20 <= interval <= 40 && interval < elapsed
    ensures var step := Step(elapsed, interval);
            && 1 <= step <= CHANNELS
            && 0 < interval * step <= elapsed
            && (elapsed <= 6 * interval ==> elapsed - interval * step <= interval)
            && (step == 1 ==> elapsed - interval < interval)
  {
    var q := elapsed / interval;
    assert elapsed == q * interval + elapsed % interval;
    assert q >= 1;
    if q == 1 { assert q * interval == interval;
    } else if q == 2 { assert q * interval == 2 * interval;
    } else if q == 3 { assert q * interval == 3 * interval;
    } else if q == 4 { assert q * interval == 4 * interval;
    } else {
      assert q * interval == (q - 5) * interval + 5 * interval && (q - 5) * interval >= 0;
    }
  }
}
