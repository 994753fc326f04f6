/** Whole runs of the host-wake machine: it refines an unbounded-history FIFO beside a one-value slot,
    it never sends before the guard time, and neither source of frames can starve the other. */
module HostWakeHistory {
  import opened Words
  import opened HostWake

  datatype Event =
    | Offer(f: Frame)          // HostWake_Enqueue
    | Set(f: Frame)            // HostWake_SetLatest
    | Ack                      // HostWake_OnAck
    | Tick(t: nat)             // HostWake_Step, at true time t

  datatype Origin = Queued | Latest | Resend

  /** One frame on the wire: where it came from, and how long the line had been high. */
  datatype Sent = Sent(frame: Frame, origin: Origin, highFor: int)

  datatype History = History(
    hw: State,
    accepted: seq<Frame>,      // every frame HostWake_Enqueue took, in order
    retiredQ: nat,             // how many of those are done with
    startedQ: nat,             // how many of those have been sent at least once
    startedL: nat,             // how many latest-slot values have been sent at least once
    newest: Option<Frame>,     // the last value set in the latest slot
    wire: seq<Sent>,
    line: bool,
    raisedAt: int,             // when the line last went high
    time: nat)

  function Start(guard: u32, timeout: u32, attempts: u8): History
  {
    History(Init(guard, timeout, attempts), [], 0, 0, 0, None, [], false, 0, 0)
  }

  function FrameStarts(h: History): nat { h.startedQ + h.startedL }

  function TickAt(h: History, t: nat): History
    requires h.hw.Valid()
  {
    var hw' := Stepped(h.hw, t % U32);
    var emitted := Emits(h.hw, t % U32);
    var first := emitted.send.Some? && hw'.attempts == 1;
    var origin := if !first then Resend else if hw'.sendingLatest then Latest else Queued;
    var raised := if emitted.line && !h.line then t else h.raisedAt;
    h.(hw := hw',
       retiredQ := h.retiredQ + if |hw'.queue| < |h.hw.queue| then 1 else 0,
       startedQ := h.startedQ + if first && origin == Queued then 1 else 0,
       startedL := h.startedL + if first && origin == Latest then 1 else 0,
       wire := h.wire + if emitted.send.Some? then [Sent(emitted.send.value, origin, t - raised)] else [],
       line := emitted.line, raisedAt := raised, time := t)
  }

  function Next(h: History, e: Event): (h': History)
    requires h.hw.Valid()
    ensures h'.hw.Valid() && h'.hw.cfg == h.hw.cfg
  {
    match e
    case Offer(f) =>
      h.(hw := Enqueued(h.hw, f), accepted := h.accepted + if |h.hw.queue| < QUEUE_SIZE then [f] else [])
    case Set(f) => h.(hw := WithLatest(h.hw, f), newest := Some(f))
    case Ack => h.(hw := Acked(h.hw))
    case Tick(t) => TickAt(h, t)
  }

  function Run(h: History, events: seq<Event>): (h': History)
    requires h.hw.Valid()
    ensures h'.hw.Valid() && h'.hw.cfg == h.hw.cfg
  {
    if events == [] then h
    else Next(Run(h, events[..|events| - 1]), events[|events| - 1])
  }

  /** True time does not run backwards between steps. */
  predicate Ordered(h: History, events: seq<Event>)
    requires h.hw.Valid()
  {
    if events == [] then true
    else
      var before, e := events[..|events| - 1], events[|events| - 1];
      Ordered(h, before) && (e.Tick? ==> Run(h, before).time <= e.t)
  }

  /** The frames that went out for the first time from the queue, in wire order. */
  function FirstSends(wire: seq<Sent>): seq<Frame>
  {
    if wire == [] then []
    else
      var last := wire[|wire| - 1];
      FirstSends(wire[..|wire| - 1]) + if last.origin == Queued then [last.frame] else []
  }

  ghost predicate Fifo(h: History)
  {
    && h.retiredQ <= h.startedQ <= |h.accepted|
    && h.hw.queue == h.accepted[h.retiredQ..]
    && h.startedQ == h.retiredQ + (if h.hw.HeadOut() then 1 else 0)
    && FirstSends(h.wire) == h.accepted[..h.startedQ]
  }

  ghost predicate Resends(h: History)
  {
    && (forall i :: 0 <= i < |h.wire| && h.wire[i].origin == Resend ==> 0 < i && h.wire[i].frame == h.wire[i - 1].frame)
    && (h.hw.phase == WaitAck ==> h.wire != [] && h.wire[|h.wire| - 1].frame == h.hw.out)
  }

  ghost predicate Guarded(h: History)
  {
    && (forall i :: 0 <= i < |h.wire| ==> h.wire[i].highFor >= h.hw.cfg.guard)
    && h.line == (h.hw.phase != Idle)
    && (h.line ==> h.raisedAt <= h.time)
    && (h.hw.phase == Guard ==> h.hw.since == h.raisedAt % U32)
    && (h.hw.phase == WaitAck || h.hw.phase == Quarantine ==> h.time - h.raisedAt >= h.hw.cfg.guard)
  }

  ghost predicate SlotIsNewest(h: History)
  {
    h.hw.latestPending ==> h.newest == Some(h.hw.latest)
  }

  ghost predicate Inv(h: History)
  {
    h.hw.Valid() && Fifo(h) && Resends(h) && Guarded(h) && SlotIsNewest(h)
  }

  // ---------------------------------------------------------------- what one step does

  /** The four things a step can do to the wire and the queue. */
  lemma StepShape(s: State, now: u32)
    requires s.Valid()
    ensures var s', o := Stepped(s, now), Emits(s, now);
            && s'.Valid() && o.line == (s'.phase != Idle)
            && (o.send.Some? ==> o.send.value == s'.out && s'.phase == WaitAck)
            && (o.send.Some? && s'.attempts != 1 ==>
                  && s.phase == WaitAck && s'.out == s.out
                  && s'.sendingLatest == s.sendingLatest && s'.queue == s.queue)
            && (o.send.None? && s'.phase == WaitAck ==> s' == s)
            && (s'.queue == s.queue || (s.HeadOut() && s'.queue == s.queue[1..]))
            && (s.HeadOut() && s' != s && s'.queue == s.queue ==> o.send.Some? && s'.attempts != 1)
  {
  }

  /** The head leaves the queue when it stops being outstanding, and not before. */
  lemma RetireShape(s: State, now: u32)
    requires s.Valid()
    ensures var s' := Stepped(s, now);
            && (s.HeadOut() && s'.queue != s.queue ==> |s'.queue| == |s.queue| - 1)
            && (s.HeadOut() && s'.queue == s.queue ==> s'.HeadOut())
            && (s.HeadOut() && Emits(s, now).send.Some? && s'.attempts == 1 ==> s'.queue != s.queue)
  {
  }

  lemma TickKeepsFifo(h: History, t: nat)
    requires Inv(h)
    ensures Fifo(TickAt(h, t))
  {
    hide Stepped, Emits, Resends, Guarded, SlotIsNewest;
    StepShape(h.hw, t % U32);
    RetireShape(h.hw, t % U32);
    var h' := TickAt(h, t);
    if h'.wire != h.wire {
      assert h'.wire[..|h.wire|] == h.wire;
      assert h'.startedQ > h.startedQ ==> h'.accepted[..h'.startedQ] == h.accepted[..h.startedQ] + [h'.hw.out];
    }
  }

  lemma TickKeepsResends(h: History, t: nat)
    requires Inv(h)
    ensures Resends(TickAt(h, t))
  {
    StepShape(h.hw, t % U32);
  }

  lemma TickKeepsGuarded(h: History, t: nat)
    requires Inv(h) && h.time <= t
    ensures Guarded(TickAt(h, t))
  {
    StepShape(h.hw, t % U32);
    if h.hw.phase == Guard {
      SinceRealTime(t, h.raisedAt);
    }
  }

  lemma TickKeepsSlot(h: History, t: nat)
    requires Inv(h)
    ensures SlotIsNewest(TickAt(h, t))
  {
  }

  lemma HostKeepsInv(h: History, e: Event)
    requires Inv(h) && !e.Tick?
    ensures Inv(Next(h, e))
  {
    match e
    case Offer(f) => OfferKeepsInv(h, f);
    case _ => hide FirstSends;
  }

  lemma OfferKeepsInv(h: History, f: Frame)
    requires Inv(h)
    ensures Inv(Next(h, Offer(f)))
  {
    hide FirstSends;
  }

  lemma NextKeepsInv(h: History, e: Event)
    requires Inv(h) && (e.Tick? ==> h.time <= e.t)
    ensures Inv(Next(h, e))
  {
    if e.Tick? {
      TickKeepsFifo(h, e.t);
      TickKeepsResends(h, e.t);
      TickKeepsGuarded(h, e.t);
      TickKeepsSlot(h, e.t);
    } else {
      HostKeepsInv(h, e);
    }
  }

  // ---------------------------------------------------------------- whole runs

  lemma {:induction false} RunKeepsInv(h: History, events: seq<Event>)
    requires Inv(h) && Ordered(h, events)
    ensures Inv(Run(h, events))
  {
    if events != [] {
      var n := |events| - 1;
      RunKeepsInv(h, events[..n]);
      NextKeepsInv(Run(h, events[..n]), events[n]);
    }
  }

  /** From power-up and through any run: frames the queue accepted are first sent in the order accepted,
      each exactly once; every resend repeats the bytes before it; what was accepted is what is retired
      plus what is held; nothing is ever sent before the line has been high for the guard time. */
  lemma QueueRefinesFifo(guard: u32, timeout: u32, attempts: u8, events: seq<Event>)
    requires Ordered(Start(guard, timeout, attempts), events)
    ensures var h := Run(Start(guard, timeout, attempts), events);
            && h.retiredQ <= h.startedQ <= h.retiredQ + 1 && h.startedQ <= |h.accepted|
            && h.accepted == h.accepted[..h.retiredQ] + h.hw.queue
            && FirstSends(h.wire) == h.accepted[..h.startedQ]
            && (forall i :: 0 <= i < |h.wire| && h.wire[i].origin == Resend ==>
                  0 < i && h.wire[i].frame == h.wire[i - 1].frame)
            && (forall i :: 0 <= i < |h.wire| ==> h.wire[i].highFor >= guard)
  {
    StartInv(guard, timeout, attempts);
    hide Inv;
    RunKeepsInv(Start(guard, timeout, attempts), events);
    var h := Run(Start(guard, timeout, attempts), events);
    InvMeans(h);
  }

  lemma StartInv(guard: u32, timeout: u32, attempts: u8)
    ensures Inv(Start(guard, timeout, attempts)) && Start(guard, timeout, attempts).hw.cfg.guard == guard
  {
  }

  lemma InvMeans(h: History)
    requires Inv(h)
    ensures h.retiredQ <= h.startedQ <= h.retiredQ + 1 && h.startedQ <= |h.accepted|
    ensures h.accepted == h.accepted[..h.retiredQ] + h.hw.queue && FirstSends(h.wire) == h.accepted[..h.startedQ]
    ensures forall i :: 0 <= i < |h.wire| && h.wire[i].origin == Resend ==>
              0 < i && h.wire[i].frame == h.wire[i - 1].frame
    ensures forall i :: 0 <= i < |h.wire| ==> h.wire[i].highFor >= h.hw.cfg.guard
  {
  }

  /** After every step the line is low exactly when nothing is queued, pending or outstanding. */
  lemma LineLowExactlyWhenIdle(h: History, t: nat)
    requires h.hw.Valid()
    ensures !Next(h, Tick(t)).line <==> Next(h, Tick(t)).hw.Quiet()
  {
    StepShape(h.hw, t % U32);
  }

  /** A latest-slot value that starts is the newest one set. */
  lemma LatestStartIsNewest(h: History, t: nat)
    requires Inv(h) && TickAt(h, t).startedL > h.startedL
    ensures h.newest == Some(TickAt(h, t).hw.out)
  {
  }

  // ---------------------------------------------------------------- no starvation

  /** Twice the queue's starts, plus one while the slot went last. */
  function Progress(h: History): int { 2 * h.startedQ + if h.hw.lastLatest then 1 else 0 }

  lemma StartMakesProgress(h: History, t: nat)
    requires Inv(h) && h.startedQ < |h.accepted|
    ensures Progress(TickAt(h, t)) - Progress(h) >= FrameStarts(TickAt(h, t)) - FrameStarts(h)
  {
    TurnShape(h.hw, t % U32);
    hide Stepped, Emits, Resends, Guarded, SlotIsNewest, FirstSends;
  }

  /** Whose turn it is: the slot never goes twice running past a queue. */
  lemma TurnShape(s: State, now: u32)
    requires s.Valid()
    ensures var s', o := Stepped(s, now), Emits(s, now);
            if o.send.Some? && s'.attempts == 1 then
              && s'.lastLatest == s'.sendingLatest
              && (s'.sendingLatest && s.lastLatest ==> s'.queue == [])
              && (s'.queue == s.queue || (s.HeadOut() && s'.queue == s.queue[1..]))
            else s'.lastLatest == s.lastLatest
  {
  }

  lemma NextMakesProgress(h: History, e: Event)
    requires Inv(h) && (e.Tick? ==> h.time <= e.t)
    ensures Next(h, e).startedQ >= h.startedQ && |Next(h, e).accepted| >= |h.accepted|
    ensures h.startedQ < |h.accepted| ==>
              Progress(Next(h, e)) - Progress(h) >= FrameStarts(Next(h, e)) - FrameStarts(h)
  {
    if e.Tick? && h.startedQ < |h.accepted| {
      StartMakesProgress(h, e.t);
    }
  }

  lemma {:induction false} StartsCount(h: History, events: seq<Event>, index: nat)
    requires Inv(h) && Ordered(h, events) && index < |h.accepted|
    ensures var h' := Run(h, events);
            && Inv(h') && index < |h'.accepted| && h'.startedQ >= h.startedQ
            && (h'.startedQ > index || Progress(h') - Progress(h) >= FrameStarts(h') - FrameStarts(h))
  {
    if events != [] {
      var n := |events| - 1;
      var mid := Run(h, events[..n]);
      StartsCount(h, events[..n], index);
      NextKeepsInv(mid, events[n]);
      NextMakesProgress(mid, events[n]);
    }
  }

  /** Whatever else is queued or set: an accepted frame with k not-yet-sent frames ahead of it has been sent
      once 2(k+1) further frames have started. */
  lemma QueuedFrameNotStarved(h: History, events: seq<Event>, index: nat)
    requires Inv(h) && Ordered(h, events)
    requires h.startedQ <= index < |h.accepted|
    requires FrameStarts(Run(h, events)) - FrameStarts(h) >= 2 * (index - h.startedQ + 1)
    ensures Run(h, events).startedQ > index
  {
    StartsCount(h, events, index);
  }

  /** Since `h`, the slot has not started and at most one frame has: a queued one, taken because the slot
      had gone last. */
  ghost predicate SlotWaiting(h: History, h': History)
  {
    && h'.hw.latestPending && h'.startedL == h.startedL
    && (h'.startedQ == h.startedQ || (h'.startedQ == h.startedQ + 1 && !h'.hw.lastLatest))
  }

  lemma SlotStepCount(h: History, mid: History, e: Event)
    requires Inv(mid) && (SlotWaiting(h, mid) || mid.startedL > h.startedL)
    ensures SlotWaiting(h, Next(mid, e)) || Next(mid, e).startedL > h.startedL
  {
    hide FirstSends, Resends, Guarded, SlotIsNewest;
    if e.Tick? {
      hide Stepped, Emits;
      TurnShape(mid.hw, e.t % U32);
      if mid.hw.latestPending {
        SlotShape(mid.hw, e.t % U32);
      }
    }
  }

  /** The slot empties only by being sent, and a waiting slot yields only to a queue it has just passed. */
  lemma SlotShape(s: State, now: u32)
    requires s.Valid() && s.latestPending
    ensures var s', o := Stepped(s, now), Emits(s, now);
            && (!s'.latestPending ==> o.send.Some? && s'.attempts == 1 && s'.sendingLatest)
            && (o.send.Some? && s'.attempts == 1 && !s'.sendingLatest ==> s.lastLatest)
  {
  }

  lemma {:induction false} SlotStartsCount(h: History, events: seq<Event>)
    requires Inv(h) && Ordered(h, events) && h.hw.latestPending
    ensures Inv(Run(h, events))
    ensures SlotWaiting(h, Run(h, events)) || Run(h, events).startedL > h.startedL
  {
    if events != [] {
      var n := |events| - 1;
      SlotStartsCount(h, events[..n]);
      NextKeepsInv(Run(h, events[..n]), events[n]);
      SlotStepCount(h, Run(h, events[..n]), events[n]);
    }
  }

  /** A value waiting in the latest slot, or a newer one that replaced it, has been sent once two further
      frames have started. */
  lemma LatestValueNotStarved(h: History, events: seq<Event>)
    requires Inv(h) && Ordered(h, events) && h.hw.latestPending
    requires FrameStarts(Run(h, events)) - FrameStarts(h) >= 2
    ensures Run(h, events).startedL > h.startedL
  {
    SlotStartsCount(h, events);
  }
}
