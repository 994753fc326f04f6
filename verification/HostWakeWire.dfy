/** The wire by history alone: when the host-wake machine raises and drops its line, which frame it sends and when,
    and which LED value it calls lost, told from what was offered and set, the ACKs heard and the copies already on
    the wire. */
module HostWakeWire {
  import opened Words
  import opened HostWake

  datatype Event =
    | Offer(f: Frame)          // HostWake_Enqueue
    | Set(f: Frame)            // HostWake_SetLatest
    | Ack                      // HostWake_OnAck
    | TakeLost                 // HostWake_TakeLatestLost
    | Tick(t: nat)             // HostWake_Step, at true time t

  /** A copy on the wire: the first of its frame, from the slot or the queue, or one more of the same. */
  datatype Copy = Copy(frame: Frame, first: bool, slot: bool, at: nat)

  datatype Stage =
    | Low          // the line is low
    | Raised       // high since `raisedAt`, nothing sent yet
    | Out          // a frame is out
    | Sitting      // it has been let go, and late ACKs for it are sat out

  /** What has happened. */
  datatype Past = Past(
    cfg: Config,
    backlog: seq<Frame>,       // accepted and not yet sent
    held: nat,                 // accepted and not let go
    slot: Option<Frame>,       // set and not yet sent
    wire: seq<Copy>,
    heard: bool,               // an ACK since the last copy
    stage: Stage,
    raisedAt: nat,
    lost: bool)                // a slot value abandoned with no newer one waiting, since last asked

  function Beginning(cfg: Config): Past { Past(cfg, [], 0, None, [], false, Low, 0, false) }

  /** Copies of the last frame so far, and where it came from. */
  function Copies(wire: seq<Copy>): nat
  {
    if wire == [] then 0
    else if wire[|wire| - 1].first then 1
    else Copies(wire[..|wire| - 1]) + 1
  }

  predicate FromSlot(wire: seq<Copy>) { wire != [] && wire[|wire| - 1].slot }

  /** Ticks on the 32-bit clock. */
  function Gone(t: nat, since: nat): u32 { (t - since) % U32 }

  function SinceCopy(p: Past, t: nat): u32 { if p.wire == [] then 0 else Gone(t, p.wire[|p.wire| - 1].at) }

  datatype Call = Wait | RaiseLine | SendFirst | SendAgain | LetGo | DropLine

  predicate SomethingWaits(p: Past) { p.backlog != [] || p.slot.Some? }

  /** What the history calls for at a tick. */
  function Called(p: Past, t: nat): Call
  {
    match p.stage
    case Low => if SomethingWaits(p) then RaiseLine else Wait
    case Raised => if Gone(t, p.raisedAt) >= p.cfg.guard then SendFirst else Wait
    case Out =>
      if p.heard then
        if Copies(p.wire) > 1 then LetGo else if SomethingWaits(p) then SendFirst else DropLine
      else if SinceCopy(p, t) < p.cfg.timeout then Wait
      else if Copies(p.wire) < p.cfg.attempts then SendAgain
      else LetGo
    case Sitting =>
      if SinceCopy(p, t) < (2 * p.cfg.timeout) % U32 then Wait
      else if SomethingWaits(p) then SendFirst
      else DropLine
  }

  /** The slot goes first, but never twice running past a queue. */
  predicate SlotsTurn(p: Past) { p.slot.Some? && !(FromSlot(p.wire) && p.backlog != []) }

  /** The frame out was abandoned with a value of the slot in it, and nothing newer waits. */
  predicate Loses(p: Past, t: nat)
  {
    p.stage == Out && Called(p, t) == LetGo && !p.heard && FromSlot(p.wire) && p.slot.None?
  }

  /** A queue frame that is let go leaves the queue. */
  function StillHeld(p: Past, call: Call): nat
  {
    if p.stage == Out && !FromSlot(p.wire) && (call == LetGo || call == SendFirst || call == DropLine) && p.held > 0
    then p.held - 1 else p.held
  }

  /** The history after a tick. */
  function Ticked(p: Past, t: nat): Past
  {
    var call := Called(p, t);
    var q := p.(held := StillHeld(p, call), lost := p.lost || Loses(p, t));
    match call
    case Wait => p
    case RaiseLine => q.(stage := Raised, raisedAt := t)
    case LetGo => q.(stage := Sitting)
    case DropLine => q.(stage := Low)
    case SendAgain =>
      if p.wire == [] then q
      else q.(wire := p.wire + [p.wire[|p.wire| - 1].(first := false, at := t)], heard := false)
    case SendFirst => Started(q, t)
  }

  /** The next frame goes out for the first time. */
  function Started(p: Past, t: nat): Past
  {
    var sent := p.(stage := Out, heard := false);
    if SlotsTurn(p) then sent.(wire := p.wire + [Copy(p.slot.value, true, true, t)], slot := None)
    else if p.backlog != [] then
      sent.(wire := p.wire + [Copy(p.backlog[0], true, false, t)], backlog := p.backlog[1..])
    else sent
  }

  function After(p: Past, e: Event): Past
  {
    match e
    case Offer(f) => if p.held < 8 then p.(backlog := p.backlog + [f], held := p.held + 1) else p
    case Set(f) => p.(slot := Some(f))
    case Ack => p.(heard := true)
    case TakeLost => p.(lost := false)
    case Tick(t) => Ticked(p, t)
  }

  // ---------------------------------------------------------------- the machine does just that

  function Next(s: State, e: Event): (s': State)
    requires s.Valid()
    ensures s'.Valid() && s'.cfg == s.cfg
  {
    match e
    case Offer(f) => Enqueued(s, f)
    case Set(f) => WithLatest(s, f)
    case Ack => Acked(s)
    case TakeLost => LostTaken(s)
    case Tick(t) => Stepped(s, t % U32)
  }

  function StageOf(phase: Phase): Stage
  {
    match phase case Idle => Low case Guard => Raised case WaitAck => Out case Quarantine => Sitting
  }

  /** The machine knows of its past what it needs. */
  predicate Recalls(s: State, p: Past)
  {
    && s.Valid() && p.cfg == s.cfg && p.stage == StageOf(s.phase)
    && p.held == |s.queue|
    && s.queue == (if s.HeadOut() then [s.out] else []) + p.backlog
    && p.slot == (if s.latestPending then Some(s.latest) else None)
    && s.latestLost == p.lost && s.lastLatest == FromSlot(p.wire)
    && (s.phase == Guard ==> s.since == p.raisedAt % U32)
    && (s.phase == WaitAck || s.phase == Quarantine ==>
          p.wire != [] && s.since == p.wire[|p.wire| - 1].at % U32)
    && (s.phase == WaitAck ==>
          && s.out == p.wire[|p.wire| - 1].frame && s.sendingLatest == FromSlot(p.wire)
          && s.attempts == Copies(p.wire) && s.acked == p.heard)
  }

  /** What goes on the wire in a step. */
  predicate Shows(o: Output, p: Past, p': Past)
  {
    && o.line == (p'.stage != Low)
    && if o.send.Some? then |p'.wire| == |p.wire| + 1 && p'.wire[|p.wire|].frame == o.send.value
       else p'.wire == p.wire
  }

  lemma GoneIsSince(t: nat, since: nat)
    ensures Gone(t, since) == Since(t % U32, since % U32)
  {
  }

  lemma FirstCopy(wire: seq<Copy>, c: Copy)
    ensures Copies(wire + [c]) == if c.first then 1 else Copies(wire) + 1
    ensures FromSlot(wire + [c]) == c.slot
  {
    assert (wire + [c])[..|wire|] == wire;
  }

  /** Nothing is out, and something waits. */
  predicate Ready(s: State, p: Past)
  {
    && s.Pending() && |s.queue| <= QUEUE_SIZE && s.cfg == p.cfg && 1 <= s.cfg.attempts
    && s.queue == p.backlog && p.held == |s.queue| && s.latestLost == p.lost
    && p.slot == (if s.latestPending then Some(s.latest) else None) && s.lastLatest == FromSlot(p.wire)
  }

  /** The next frame's start, whatever let the last one go. */
  lemma StartRecalls(s: State, p: Past, t: nat)
    requires Ready(s, p)
    ensures Recalls(NextSent(s, t % U32), Started(p, t))
    ensures Shows(Output(true, Some(NextSent(s, t % U32).out)), p, Started(p, t))
    ensures NextSent(s, t % U32).phase == WaitAck
  {
    FirstCopy(p.wire, if SlotsTurn(p) then Copy(p.slot.value, true, true, t) else Copy(p.backlog[0], true, false, t));
    hide Copies, FromSlot;
    if !PicksLatest(s) {
      assert s.queue == [s.queue[0]] + s.queue[1..];
    }
  }

  /** From a state in which nothing is out, a tick either starts the next frame or leaves the wire alone. */
  predicate StartsOrNot(s: State, p: Past, t: nat)
    requires s.Valid()
  {
    || (&& Ready(s, p) && Stepped(s, t % U32) == NextSent(s, t % U32) && Ticked(p, t) == Started(p, t)
        && Emits(s, t % U32) == Output(true, Some(NextSent(s, t % U32).out)))
    || (Recalls(Stepped(s, t % U32), Ticked(p, t)) && Shows(Emits(s, t % U32), p, Ticked(p, t)))
  }

  lemma StartsOrNotRecalls(s: State, p: Past, t: nat)
    requires s.Valid() && StartsOrNot(s, p, t)
    ensures Recalls(Stepped(s, t % U32), Ticked(p, t)) && Shows(Emits(s, t % U32), p, Ticked(p, t))
  {
    hide Recalls, Shows, Stepped, Ticked, Emits, NextSent, Started;
    if Ready(s, p) {
      StartRecalls(s, p, t);
    }
  }

  lemma HostRecalls(s: State, p: Past, e: Event)
    requires Recalls(s, p) && !e.Tick?
    ensures Recalls(Next(s, e), After(p, e))
  {
    hide Copies, FromSlot;
  }

  lemma LowRecalls(s: State, p: Past, t: nat)
    requires Recalls(s, p) && s.phase == Idle
    ensures Recalls(Stepped(s, t % U32), Ticked(p, t)) && Shows(Emits(s, t % U32), p, Ticked(p, t))
  {
    hide Copies, FromSlot;
  }

  lemma RaisedRecalls(s: State, p: Past, t: nat)
    requires Recalls(s, p) && s.phase == Guard
    ensures StartsOrNot(s, p, t)
  {
    GoneIsSince(t, p.raisedAt);
    NextIsOut(s, t % U32);
    hide Copies, FromSlot, NextSent, Started, Gone;
  }

  lemma NextIsOut(s: State, now: u32)
    requires s.Pending()
    ensures NextSent(s, now).phase == WaitAck
  {
  }

  lemma SittingRecalls(s: State, p: Past, t: nat)
    requires Recalls(s, p) && s.phase == Quarantine
    ensures StartsOrNot(s, p, t)
  {
    GoneIsSince(t, p.wire[|p.wire| - 1].at);
    if s.Pending() {
      NextIsOut(s, t % U32);
    }
    hide Copies, FromSlot, NextSent, Started, Gone;
  }

  /** The frame that is out is let go. */
  lemma ReleaseRecalls(s: State, p: Past, abandoned: bool)
    requires Recalls(s, p) && s.phase == WaitAck
    ensures var r := Released(s, abandoned);
            && r.queue == p.backlog && r.cfg == s.cfg && r.lastLatest == s.lastLatest && r.latest == s.latest
            && r.latestPending == s.latestPending && r.since == s.since && r.attempts == 0
            && !r.sendingLatest && !r.acked
            && |r.queue| == (if FromSlot(p.wire) then p.held else p.held - 1)
            && r.latestLost == (p.lost || (abandoned && FromSlot(p.wire) && p.slot.None?))
            && r.phase == (if Copies(p.wire) > 1 || abandoned then Quarantine else Idle)
  {
    hide Copies, FromSlot;
  }

  lemma OutRecalls(s: State, p: Past, t: nat)
    requires Recalls(s, p) && s.phase == WaitAck
    ensures Recalls(Stepped(s, t % U32), Ticked(p, t)) && Shows(Emits(s, t % U32), p, Ticked(p, t))
  {
    GoneIsSince(t, p.wire[|p.wire| - 1].at);
    if s.acked {
      AckedRecalls(s, p, t);
    } else if SinceCopy(p, t) < p.cfg.timeout {
    } else if s.attempts < s.cfg.attempts {
      AgainRecalls(s, p, t);
    } else {
      AbandonedRecalls(s, p, t);
    }
    hide Copies, FromSlot, Released, NextSent, Gone;
  }

  lemma AckedRecalls(s: State, p: Past, t: nat)
    requires Recalls(s, p) && s.phase == WaitAck && s.acked
    ensures Recalls(Stepped(s, t % U32), Ticked(p, t)) && Shows(Emits(s, t % U32), p, Ticked(p, t))
  {
    ReleaseRecalls(s, p, false);
    var r, q := Released(s, false), p.(held := StillHeld(p, SendFirst));
    if r.phase == Idle && r.Pending() {
      AckedIsReady(s, p, t);
      hide Recalls, Shows, Stepped, Ticked, Emits, NextSent, Started, Released;
      StartRecalls(r, q, t);
      ShowsMore(Output(true, Some(NextSent(r, t % U32).out)), q, p, Started(q, t));
    } else {
      hide Copies, FromSlot, Released, NextSent;
    }
  }

  lemma ShowsMore(o: Output, q: Past, p: Past, after: Past)
    requires Shows(o, q, after) && q.wire == p.wire
    ensures Shows(o, p, after)
  {
  }

  lemma AckedIsReady(s: State, p: Past, t: nat)
    requires Recalls(s, p) && s.phase == WaitAck && s.acked && Released(s, false).phase == Idle
    requires Released(s, false).Pending()
    ensures var r, q := Released(s, false), p.(held := StillHeld(p, SendFirst));
            && Ready(r, q) && Stepped(s, t % U32) == NextSent(r, t % U32) && Ticked(p, t) == Started(q, t)
            && Emits(s, t % U32) == Output(true, Some(NextSent(r, t % U32).out))
  {
    ReleaseRecalls(s, p, false);
    NextIsOut(Released(s, false), t % U32);
    AttemptsAgain(Released(s, false), s, t % U32);
    hide Copies, FromSlot, Released, NextSent, Started;
  }

  lemma AttemptsAgain(r: State, s: State, now: u32)
    requires r.Pending() && s.Valid() && s.phase == WaitAck && s.acked
    ensures NextSent(r, now) != s
  {
  }

  lemma AgainRecalls(s: State, p: Past, t: nat)
    requires Recalls(s, p) && s.phase == WaitAck && !s.acked && SinceCopy(p, t) >= p.cfg.timeout
    requires s.attempts < s.cfg.attempts && Gone(t, p.wire[|p.wire| - 1].at) == Since(t % U32, s.since)
    ensures Recalls(Stepped(s, t % U32), Ticked(p, t)) && Shows(Emits(s, t % U32), p, Ticked(p, t))
  {
    FirstCopy(p.wire, p.wire[|p.wire| - 1].(first := false, at := t));
    hide Copies;
  }

  lemma AbandonedRecalls(s: State, p: Past, t: nat)
    requires Recalls(s, p) && s.phase == WaitAck && !s.acked && SinceCopy(p, t) >= p.cfg.timeout
    requires s.attempts >= s.cfg.attempts && Gone(t, p.wire[|p.wire| - 1].at) == Since(t % U32, s.since)
    ensures Recalls(Stepped(s, t % U32), Ticked(p, t)) && Shows(Emits(s, t % U32), p, Ticked(p, t))
  {
    ReleaseRecalls(s, p, true);
    hide Copies, FromSlot, Released, NextSent;
  }

  lemma NextRecalls(s: State, p: Past, e: Event)
    requires Recalls(s, p)
    ensures Recalls(Next(s, e), After(p, e))
    ensures e.Tick? ==> Shows(Emits(s, e.t % U32), p, Ticked(p, e.t))
  {
    hide Recalls, Shows, Stepped, Ticked, Emits;
    match e
    case Tick(t) => TickRecalls(s, p, t);
    case _ => HostRecalls(s, p, e);
  }

  lemma RecallsValid(s: State, p: Past)
    requires Recalls(s, p)
    ensures s.Valid()
  {
  }

  lemma TickRecalls(s: State, p: Past, t: nat)
    requires Recalls(s, p)
    ensures Recalls(Stepped(s, t % U32), Ticked(p, t)) && Shows(Emits(s, t % U32), p, Ticked(p, t))
  {
    RecallsValid(s, p);
    hide Recalls, Shows, Stepped, Ticked, Emits, StartsOrNot;
    match s.phase
    case Idle => LowRecalls(s, p, t);
    case Guard => RaisedRecalls(s, p, t); StartsOrNotRecalls(s, p, t);
    case WaitAck => OutRecalls(s, p, t);
    case Quarantine => SittingRecalls(s, p, t); StartsOrNotRecalls(s, p, t);
  }

  function Run(s: State, events: seq<Event>): (s': State)
    requires s.Valid()
    ensures s'.Valid()
  {
    if events == [] then s else Next(Run(s, events[..|events| - 1]), events[|events| - 1])
  }

  function History(p: Past, events: seq<Event>): Past
  {
    if events == [] then p else After(History(p, events[..|events| - 1]), events[|events| - 1])
  }

  lemma {:induction false} RunRecalls(s: State, p: Past, events: seq<Event>)
    requires Recalls(s, p)
    ensures Recalls(Run(s, events), History(p, events))
  {
    if events != [] {
      hide Recalls, Next, After;
      var n := |events| - 1;
      RunRecalls(s, p, events[..n]);
      NextRecalls(Run(s, events[..n]), History(p, events[..n]), events[n]);
    }
  }

  /** Over every run from power-up, tick wrap and late ticks included: each step raises, holds or drops the line
      and puts on the wire what the history calls for, frame by frame and copy by copy; and the loss flag is up
      exactly when a slot value has been abandoned, all its attempts unanswered and no newer value set, since it
      was last asked for. */
  lemma WireFollowsHistory(guard: u32, timeout: u32, attempts: u8, events: seq<Event>, t: nat)
    ensures var s := Run(Init(guard, timeout, attempts), events);
            var p := History(Beginning(Config(guard, timeout, if attempts == 0 then 1 else attempts)), events);
            && Shows(Emits(s, t % U32), p, Ticked(p, t))
            && s.latestLost == p.lost && Stepped(s, t % U32).latestLost == (p.lost || Loses(p, t))
  {
    var start := Beginning(Config(guard, timeout, if attempts == 0 then 1 else attempts));
    var s0 := Init(guard, timeout, attempts);
    assert Recalls(s0, start);
    RunRecalls(s0, start, events);
    var s, p := Run(s0, events), History(start, events);
    TickRecalls(s, p, t);
    LossIs(p, t);
    hide Shows, Stepped, Ticked, Emits, Loses;
  }

  lemma LossIs(p: Past, t: nat)
    ensures Ticked(p, t).lost == (p.lost || Loses(p, t))
  {
  }

  /** An acknowledged value is never called lost: only a tick that finds the slot's frame unanswered for all its
      attempts, the last of them a timeout old, and nothing newer set, does that. */
  lemma LostExactly(s: State, p: Past, t: nat)
    requires Recalls(s, p) && !s.latestLost
    ensures Stepped(s, t % U32).latestLost <==>
              && p.stage == Out && FromSlot(p.wire) && !p.heard && p.slot.None?
              && Copies(p.wire) >= p.cfg.attempts && SinceCopy(p, t) >= p.cfg.timeout
  {
    TickRecalls(s, p, t);
    LossIs(p, t);
    hide Stepped, Copies, FromSlot, SinceCopy;
  }
}
