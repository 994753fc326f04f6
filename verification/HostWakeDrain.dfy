/** The backlog budget of keyboard_uart.h: with nothing more offered and a step every tick, the machine is
    idle again within (8 + 2) * (guard + (attempts + 1) * timeout) ticks, whatever ACKs arrive or do not. */
module HostWakeDrain {
  import opened Words
  import opened HostWake

  /** The longest one frame can occupy the wire, guard apart. */
  function FrameTicks(cfg: Config): nat { Times(cfg.attempts + 1, cfg.timeout) }

  /** Frames not yet started. */
  function Ahead(s: State): (n: nat)
    requires s.Valid()
    ensures n <= QUEUE_SIZE + 1
  {
    |s.queue| - (if s.HeadOut() then 1 else 0) + (if s.latestPending then 1 else 0)
  }

  function Remaining(total: nat, waited: nat): nat
  {
    if waited >= total then 0 else total - waited
  }

  predicate GivesUp(s: State, waited: u32)
  {
    waited >= s.cfg.timeout && s.attempts >= s.cfg.attempts
  }

  /** Ticks the current wait can still take when the next step is `waited` ticks into it. A wait that has
      reached 2^32 - 1 ticks unserved starts over at the next tick, which costs one tick more. */
  function CurrentWait(s: State, waited: u32): nat
    requires s.Valid()
  {
    match s.phase
    case Idle => if !s.Pending() then 0 else if s.cfg.guard == 0 then 1 else s.cfg.guard
    case Guard => Remaining(s.cfg.guard, waited)
    case Quarantine => Remaining(QuarantineTicks(s.cfg), waited)
    case WaitAck =>
      if s.acked && s.attempts == 1 then 0
      else if s.acked || GivesUp(s, waited) then 1 + Remaining(QuarantineTicks(s.cfg), (waited + 1) % U32)
      else
        Remaining(s.cfg.timeout, waited) + Times(s.cfg.attempts - s.attempts, s.cfg.timeout) + s.cfg.timeout
        + if waited == U32 - 1 && s.cfg.timeout < waited then 1 else 0
  }

  /** `n` times `ticks`, by repeated addition. */
  function Times(n: nat, ticks: nat): nat
  {
    if n == 0 then 0 else Times(n - 1, ticks) + ticks
  }

  lemma {:induction false} TimesIsProduct(n: nat, ticks: nat)
    ensures Times(n, ticks) == n * ticks
  {
    if n > 0 {
      TimesIsProduct(n - 1, ticks);
      assert n * ticks == (n - 1) * ticks + ticks;
    }
  }

  lemma {:induction false} TimesMonotone(n: nat, n': nat, ticks: nat)
    requires n <= n'
    ensures Times(n, ticks) <= Times(n', ticks)
    decreases n'
  {
    if n < n' {
      TimesMonotone(n, n' - 1, ticks);
    }
  }

  /** The decreasing measure: ticks until idle, counted from the next step, at true time `t`. */
  function Measure(s: State, t: nat): nat
    requires s.Valid()
  {
    CurrentWait(s, Since(t, s.since)) + Times(Ahead(s), FrameTicks(s.cfg))
  }

  /** Just after a copy has gone out at true time t. */
  lemma CopyOutWait(s: State, t: nat)
    requires s.Valid() && s.phase == WaitAck && !s.acked && 0 < s.cfg.timeout && s.since == t % U32
    ensures CurrentWait(s, Since(t + 1, s.since))
            < Times(s.cfg.attempts - s.attempts, s.cfg.timeout) + 2 * s.cfg.timeout
  {
    assert Since(t + 1, s.since) == 1;
    hide FrameTicks, Since, Times;
  }

  /** A frame that starts now takes one unit off the backlog. */
  lemma StartDecreases(s: State, t: nat)
    requires s.Valid() && s.phase != WaitAck && s.Pending() && 0 < s.cfg.timeout
    ensures var s' := NextSent(s, t % U32);
            s'.Valid() && Measure(s', t + 1) < Times(Ahead(s), FrameTicks(s.cfg))
  {
    var s' := NextSent(s, t % U32);
    CopyOutWait(s', t);
    assert Ahead(s') == Ahead(s) - 1;
    assert FrameTicks(s.cfg) == Times(s.cfg.attempts, s.cfg.timeout) + s.cfg.timeout;
  }

  lemma RetireDecreases(s: State, t: nat)
    requires s.Valid() && s.phase == WaitAck && 0 < s.cfg.timeout
    requires s.acked || GivesUp(s, Since(t, s.since))
    ensures var s' := Stepped(s, t % U32); s'.Quiet() || Measure(s', t + 1) < Measure(s, t)
  {
    hide FrameTicks, Times;
    SinceWrapped(t, s.since);
    SinceNextTick(t, s.since);
    var r := Released(s, !s.acked);
    assert Ahead(r) == Ahead(s);
    if s.acked && s.attempts == 1 && r.Pending() {
      StartDecreases(r, t);
    }
  }

  lemma ResendDecreases(s: State, t: nat)
    requires s.Valid() && s.phase == WaitAck && 0 < s.cfg.timeout
    requires !s.acked && s.attempts < s.cfg.attempts && Since(t, s.since) >= s.cfg.timeout
    ensures Measure(Stepped(s, t % U32), t + 1) < Measure(s, t)
  {
    SinceWrapped(t, s.since);
    CopyOutWait(Stepped(s, t % U32), t);
  }

  lemma WaitDecreases(s: State, t: nat)
    requires s.Valid() && s.phase == WaitAck && 0 < s.cfg.timeout
    requires !s.acked && Since(t, s.since) < s.cfg.timeout
    ensures Stepped(s, t % U32) == s && Measure(s, t + 1) < Measure(s, t)
  {
    hide FrameTicks, Times, NextSent, Transmitted, Retired;
    SinceWrapped(t, s.since);
    SinceNextTick(t, s.since);
  }

  lemma StepDecreases(s: State, t: nat)
    requires s.Valid() && 0 < s.cfg.timeout
    ensures var s' := Stepped(s, t % U32); s'.Quiet() || Measure(s', t + 1) < Measure(s, t)
  {
    if s.phase == WaitAck {
      hide Measure, Stepped;
      if s.acked || GivesUp(s, Since(t, s.since)) {
        RetireDecreases(s, t);
      } else if Since(t, s.since) >= s.cfg.timeout {
        ResendDecreases(s, t);
      } else {
        WaitDecreases(s, t);
      }
    } else {
      hide Measure, Stepped;
      LineDecreases(s, t);
    }
  }

  lemma LineDecreases(s: State, t: nat)
    requires s.Valid() && 0 < s.cfg.timeout && s.phase != WaitAck
    ensures var s' := Stepped(s, t % U32); s'.Quiet() || Measure(s', t + 1) < Measure(s, t)
  {
    hide FrameTicks, Times;
    SinceWrapped(t, s.since);
    if Stepped(s, t % U32).phase == WaitAck {
      hide CurrentWait;
      StartDecreases(s, t);
    } else if s.phase == Idle {
      RaiseDecreases(s, t);
    } else {
      SinceNextTick(t, s.since);
      hide NextSent, Since;
    }
  }

  /** Raising the line begins the guard. */
  lemma RaiseDecreases(s: State, t: nat)
    requires s.Valid() && s.phase == Idle
    ensures var s' := Stepped(s, t % U32); s'.Quiet() || Measure(s', t + 1) < Measure(s, t)
  {
    hide FrameTicks, Times, NextSent, Transmitted, Retired;
    assert Since(t + 1, t % U32) == 1;
  }

  lemma AckShortensWait(s: State, waited: u32)
    requires s.Valid() && 0 < s.cfg.timeout && s.phase == WaitAck
    ensures Acked(s).Valid() && CurrentWait(Acked(s), waited) <= CurrentWait(s, waited)
  {
    if s.attempts > 1 && !GivesUp(s, waited) {
      assert waited >= s.cfg.timeout ==> Times(s.cfg.attempts - s.attempts, s.cfg.timeout) >= s.cfg.timeout;
    }
    hide Times;
  }

  lemma AckDoesNotDelay(s: State, t: nat)
    requires s.Valid() && 0 < s.cfg.timeout
    ensures Acked(s).Valid() && Measure(Acked(s), t) <= Measure(s, t)
  {
    hide FrameTicks, Since, CurrentWait, Times;
    if s.phase == WaitAck {
      AckShortensWait(s, Since(t, s.since));
      assert Ahead(Acked(s)) == Ahead(s);
    }
  }

  /** The one kind of state that needs a tick more: a full backlog behind a frame with a single attempt, no
      guard, and a wait that has gone unserved for 2^32 - 1 ticks, so that its quarantine starts from zero. */
  predicate Overruns(s: State, t: nat)
    requires s.Valid()
  {
    && s.cfg.guard == 0 && s.cfg.attempts == 1 && 2 * s.cfg.timeout < U32
    && s.phase == WaitAck && !s.acked && Since(t, s.since) == U32 - 1 && Ahead(s) == QUEUE_SIZE + 1
  }

  lemma QuietLineBound(s: State, waited: u32)
    requires s.Valid() && 0 < s.cfg.timeout && s.phase != WaitAck
    ensures CurrentWait(s, waited) <= if s.phase == Quarantine then 2 * s.cfg.timeout
                                      else if s.cfg.guard == 0 then 1 else s.cfg.guard
  {
    hide Times, FrameTicks, Since;
  }

  lemma OutstandingBound(s: State, waited: u32)
    requires s.Valid() && 0 < s.cfg.timeout && s.phase == WaitAck
    ensures CurrentWait(s, waited) <= FrameTicks(s.cfg) + 1
    ensures waited != U32 - 1 || s.cfg.attempts != 1 || s.acked || 2 * s.cfg.timeout >= U32 ==>
              CurrentWait(s, waited) <= FrameTicks(s.cfg)
  {
    assert FrameTicks(s.cfg) == Times(s.cfg.attempts, s.cfg.timeout) + s.cfg.timeout;
    assert Times(s.cfg.attempts, s.cfg.timeout) == Times(s.cfg.attempts - 1, s.cfg.timeout) + s.cfg.timeout;
    TimesMonotone(s.cfg.attempts - s.attempts, s.cfg.attempts - 1, s.cfg.timeout);
    if s.cfg.attempts > 1 {
      TimesMonotone(1, s.cfg.attempts - 1, s.cfg.timeout);
      assert Times(1, s.cfg.timeout) == Times(0, s.cfg.timeout) + s.cfg.timeout == s.cfg.timeout;
    }
    hide Times, FrameTicks, Since;
  }

  lemma MeasureBound(s: State, t: nat)
    requires s.Valid() && 0 < s.cfg.timeout && !Overruns(s, t)
    ensures Measure(s, t) <= Times(10, FrameTicks(s.cfg)) + 10 * s.cfg.guard
  {
    var frame := FrameTicks(s.cfg);
    TimesMonotone(1, s.cfg.attempts, s.cfg.timeout);
    assert Times(1, s.cfg.timeout) == Times(0, s.cfg.timeout) + s.cfg.timeout;
    assert frame == Times(s.cfg.attempts, s.cfg.timeout) + s.cfg.timeout >= 2 * s.cfg.timeout;
    TimesMonotone(Ahead(s), 9, frame);
    assert Times(10, frame) == Times(9, frame) + frame && Times(9, frame) == Times(8, frame) + frame;
    hide Times, FrameTicks, Since, CurrentWait;
    if s.phase == WaitAck {
      OutstandingBound(s, Since(t, s.since));
      if Ahead(s) <= 8 {
        TimesMonotone(Ahead(s), 8, frame);
      }
    } else {
      QuietLineBound(s, Since(t, s.since));
    }
  }

  /** One step per tick from true time `t` on, with an ACK arriving before each step or not. */
  function Drained(s: State, t: nat, acks: seq<bool>): (s': State)
    requires s.Valid()
    ensures s'.Valid()
    decreases |acks|
  {
    if acks == [] then s
    else Drained(Stepped(if acks[0] then Acked(s) else s, t % U32), t + 1, acks[1..])
  }

  lemma {:induction false} QuietStays(s: State, t: nat, acks: seq<bool>)
    requires s.Valid() && s.Quiet()
    ensures Drained(s, t, acks).Quiet()
    decreases |acks|
  {
    if acks != [] {
      QuietStays(s, t + 1, acks[1..]);
    }
  }

  lemma {:induction false} DrainedWithinMeasure(s: State, t: nat, acks: seq<bool>)
    requires s.Valid() && 0 < s.cfg.timeout && Measure(s, t) < |acks|
    ensures Drained(s, t, acks).Quiet()
    decreases |acks|
  {
    var a := if acks[0] then Acked(s) else s;
    AckDoesNotDelay(s, t);
    StepDecreases(a, t);
    var s' := Stepped(a, t % U32);
    if s'.Quiet() {
      QuietStays(s', t + 1, acks[1..]);
    } else {
      DrainedWithinMeasure(s', t + 1, acks[1..]);
    }
  }

  /** The backlog budget. */
  function Budget(cfg: Config): nat { (QUEUE_SIZE + 2) * (cfg.guard + (cfg.attempts + 1) * cfg.timeout) }

  /** The drain bound, from any valid state but those and at any tick, wrap included: once the steps span
      (8 + 2) * (guard + (attempts + 1) * timeout) ticks the machine is idle. */
  lemma DrainBound(s: State, t: nat, acks: seq<bool>)
    requires s.Valid() && 0 < s.cfg.timeout && !Overruns(s, t)
    requires |acks| > Budget(s.cfg)
    ensures Drained(s, t, acks).Quiet()
  {
    MeasureBound(s, t);
    TimesIsProduct(10, FrameTicks(s.cfg));
    TimesIsProduct(s.cfg.attempts + 1, s.cfg.timeout);
    hide Times, Measure;
    DrainedWithinMeasure(s, t, acks);
  }

  // ---------------------------------------------------------------- the bound is exact

  /** One attempt, no guard, nothing acknowledged. */
  predicate Silent(s: State)
  {
    && s.Valid() && s.cfg.guard == 0 && s.cfg.attempts == 1 && 0 < s.cfg.timeout && 2 * s.cfg.timeout < U32
    && !s.acked && s.phase != Guard && (s.phase == Idle ==> !s.Pending())
  }

  /** Steps such a machine still needs when no ACK ever comes. */
  function Needs(s: State, t: nat): nat
    requires Silent(s)
  {
    var waited := Since(t, s.since);
    var backlog := Times(Ahead(s), 2 * s.cfg.timeout);
    if s.phase == Idle then 0
    else if s.phase == WaitAck && waited == U32 - 1 then 2 * s.cfg.timeout + 2 + backlog
    else if s.phase == WaitAck && waited >= 2 * s.cfg.timeout then 2 + backlog
    else Remaining(2 * s.cfg.timeout, waited) + 1 + backlog
  }

  lemma StepNeedsOneLess(s: State, t: nat)
    requires Silent(s)
    ensures var s' := Stepped(s, t % U32);
            Silent(s') && s'.cfg == s.cfg && Needs(s', t + 1) + 1 >= Needs(s, t)
  {
    if s.phase == WaitAck {
      OutstandingNeedsOneLess(s, t);
    } else if s.phase == Quarantine {
      QuarantineNeedsOneLess(s, t);
    }
  }

  lemma OutstandingNeedsOneLess(s: State, t: nat)
    requires Silent(s) && s.phase == WaitAck
    ensures var s' := Stepped(s, t % U32);
            Silent(s') && s'.cfg == s.cfg && Needs(s', t + 1) + 1 >= Needs(s, t)
  {
    hide Times, NextSent, Transmitted;
    SinceWrapped(t, s.since);
    SinceNextTick(t, s.since);
    assert Ahead(Stepped(s, t % U32)) == Ahead(s);
  }

  lemma QuarantineNeedsOneLess(s: State, t: nat)
    requires Silent(s) && s.phase == Quarantine
    ensures var s' := Stepped(s, t % U32);
            Silent(s') && s'.cfg == s.cfg && Needs(s', t + 1) + 1 >= Needs(s, t)
  {
    assert Times(0, 2 * s.cfg.timeout) == 0;
    hide Times, NextSent;
    SinceWrapped(t, s.since);
    SinceNextTick(t, s.since);
    if s.Pending() {
      SentNeeds(s, t);
    }
  }

  lemma SentNeeds(s: State, t: nat)
    requires Silent(s) && s.phase == Quarantine && s.Pending()
    ensures var s' := NextSent(s, t % U32);
            Silent(s') && Needs(s', t + 1) == Times(Ahead(s), 2 * s.cfg.timeout)
  {
    var s' := NextSent(s, t % U32);
    assert Since(t + 1, t % U32) == 1;
    assert Ahead(s') == Ahead(s) - 1;
    assert Times(Ahead(s), 2 * s.cfg.timeout) == Times(Ahead(s'), 2 * s.cfg.timeout) + 2 * s.cfg.timeout;
    hide Times;
  }

  function NoAcks(n: nat): seq<bool> { seq(n, i => false) }

  lemma {:induction false} NotYetQuiet(s: State, t: nat, n: nat)
    requires Silent(s) && Needs(s, t) > n
    ensures !Drained(s, t, NoAcks(n)).Quiet()
    decreases n
  {
    hide Needs, Stepped, Silent;
    NeedsMeansBusy(s, t);
    if n > 0 {
      assert NoAcks(n)[1..] == NoAcks(n - 1);
      StepNeedsOneLess(s, t);
      NotYetQuiet(Stepped(s, t % U32), t + 1, n - 1);
    }
  }

  lemma NeedsMeansBusy(s: State, t: nat)
    requires Silent(s)
    ensures s.Valid() && (Needs(s, t) > 0 ==> !s.Quiet())
  {
  }

  /** In a state that overruns, a host that never answers leaves the machine busy past the budget. */
  lemma OverrunsTheBudget(s: State, t: nat)
    requires s.Valid() && 0 < s.cfg.timeout && Overruns(s, t)
    ensures !Drained(s, t, NoAcks(Budget(s.cfg) + 1)).Quiet()
  {
    TimesIsProduct(9, 2 * s.cfg.timeout);
    assert Needs(s, t) == 20 * s.cfg.timeout + 2;
    hide Needs, Times, Silent;
    NotYetQuiet(s, t, Budget(s.cfg) + 1);
  }

  /** So the budget of keyboard_uart.h holds, whatever ACKs come, in exactly the states that do not overrun. */
  lemma DrainBoundExact(s: State, t: nat)
    requires s.Valid() && 0 < s.cfg.timeout
    ensures (forall acks: seq<bool> :: |acks| > Budget(s.cfg) ==> Drained(s, t, acks).Quiet()) <==> !Overruns(s, t)
  {
    hide Overruns, Budget, Drained;
    if Overruns(s, t) {
      OverrunsTheBudget(s, t);
      assert |NoAcks(Budget(s.cfg) + 1)| > Budget(s.cfg);
    } else {
      forall acks: seq<bool> | |acks| > Budget(s.cfg) ensures Drained(s, t, acks).Quiet() {
        DrainBound(s, t, acks);
      }
    }
  }

  function Filled(s: State, n: nat): State
  {
    if n == 0 then s else Enqueued(Filled(s, n - 1), Frame(0x5B, 0))
  }

  lemma {:induction false} FilledQueue(s: State, n: nat)
    requires s.queue == [] && n <= QUEUE_SIZE
    ensures |Filled(s, n).queue| == n && Filled(s, n) == s.(queue := Filled(s, n).queue)
  {
    if n > 0 {
      FilledQueue(s, n - 1);
    }
  }

  /** Such a state is reached: an LED byte set and sent, the queue filled and a newer byte set behind it, and no
      step until the counter is about to come round. */
  lemma OverrunReached()
    ensures var led := Stepped(Stepped(WithLatest(Init(0, 1, 1), Frame(0x5A, 1)), 0), 0);
            var s := WithLatest(Filled(led, QUEUE_SIZE), Frame(0x5A, 2));
            s.Valid() && Overruns(s, U32 - 1)
  {
    var led := Stepped(Stepped(WithLatest(Init(0, 1, 1), Frame(0x5A, 1)), 0), 0);
    assert led.phase == WaitAck && led.sendingLatest && led.queue == [] && led.since == 0 && led.attempts == 1;
    FilledQueue(led, QUEUE_SIZE);
  }
}
