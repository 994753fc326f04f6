/** Who an ACK belongs to. It names no frame, and a host may acknowledge each copy of a frame it hears; yet so long
    as it acknowledges a copy within two ACK timeouts or not at all, an ACK never retires any frame but the one
    whose copy it answers. */
module HostWakeAck {
  import opened Words
  import opened HostWake

  /** One transmission on the wire: which frame (counted from 1), which send of it, and when. */
  datatype Copy = Copy(frame: nat, send: nat, at: nat)

  datatype Event =
    | Offer(f: Frame)
    | Set(f: Frame)
    | Tick(t: nat)             // HostWake_Step at true time t
    | Answer(c: Copy)          // the host's ACK of that copy arrives

  datatype World = World(
    hw: State,
    time: nat,
    frames: nat,               // frames started; while one is outstanding, its number
    sentAt: nat,               // when the last copy went out
    unanswered: set<Copy>,     // copies the host has not ACKed
    answeredBy: nat,           // frame number of the copy whose ACK set `acked`
    retirements: seq<(nat, nat)>)  // ACKed retirements: the frame retired, the frame the ACK answered

  function Start(guard: u32, timeout: u32, attempts: u8): (w: World)
    ensures w.hw.Valid() && w.hw.cfg == Config(guard, timeout, if attempts == 0 then 1 else attempts)
  {
    World(Init(guard, timeout, attempts), 0, 0, 0, {}, 0, [])
  }

  function TickAt(w: World, t: nat): World
    requires w.hw.Valid()
  {
    var hw' := Stepped(w.hw, t % U32);
    var sends := Sends(w.hw, t % U32);
    var frames := w.frames + if sends && hw'.attempts == 1 then 1 else 0;
    w.(hw := hw', time := t, frames := frames,
       sentAt := if sends then t else w.sentAt,
       unanswered := w.unanswered + if sends then {Copy(frames, hw'.attempts, t)} else {},
       retirements := w.retirements + if w.hw.phase == WaitAck && w.hw.acked then [(w.frames, w.answeredBy)] else [])
  }

  function Next(w: World, e: Event): (w': World)
    requires w.hw.Valid()
    ensures w'.hw.Valid() && w'.hw.cfg == w.hw.cfg
  {
    match e
    case Offer(f) => w.(hw := Enqueued(w.hw, f))
    case Set(f) => w.(hw := WithLatest(w.hw, f))
    case Tick(t) => TickAt(w, t)
    case Answer(c) =>
      w.(hw := Acked(w.hw), unanswered := w.unanswered - {c},
         answeredBy := if w.hw.phase == WaitAck then c.frame else w.answeredBy)
  }

  function Run(w: World, events: seq<Event>): (w': World)
    requires w.hw.Valid()
    ensures w'.hw.Valid() && w'.hw.cfg == w.hw.cfg
  {
    if events == [] then w
    else Next(Run(w, events[..|events| - 1]), events[|events| - 1])
  }

  predicate Late(w: World, c: Copy) { w.time >= c.at + 2 * w.hw.cfg.timeout }

  /** The host ACKs each copy at most once, and within two ACK timeouts of its being sent. */
  predicate Possible(w: World, e: Event)
  {
    match e
    case Tick(t) => w.time <= t
    case Answer(c) => c in w.unanswered && !Late(w, c)
    case _ => true
  }

  predicate Honest(w: World, events: seq<Event>)
    requires w.hw.Valid()
  {
    events == []
    || (Honest(w, events[..|events| - 1]) && Possible(Run(w, events[..|events| - 1]), events[|events| - 1]))
  }

  /** Which copies can still be ACKed in each phase. */
  ghost predicate Inv(w: World)
  {
    && w.hw.Valid() && w.sentAt <= w.time
    && (w.hw.phase == WaitAck || w.hw.phase == Quarantine ==> w.hw.since == w.sentAt % U32)
    && (forall c <- w.unanswered :: c.at <= w.sentAt)
    && (w.hw.phase == Idle || w.hw.phase == Guard ==> forall c <- w.unanswered :: Late(w, c))
    && (w.hw.phase == WaitAck || w.hw.phase == Quarantine ==>
          forall c <- w.unanswered :: Late(w, c) || c.frame == w.frames)
    && (w.hw.phase == WaitAck && w.hw.attempts == 1 ==>
          forall c <- w.unanswered :: Late(w, c) || (!w.hw.acked && c == Copy(w.frames, 1, w.sentAt)))
    && (w.hw.acked ==> w.answeredBy == w.frames)
    && (forall i :: 0 <= i < |w.retirements| ==> w.retirements[i].0 == w.retirements[i].1)
  }

  /** Leaving the quarantine, or never having needed one: nothing that could still be ACKed is left. */
  lemma NothingAnswerable(w: World, t: nat)
    requires Inv(w) && w.time <= t && 2 * w.hw.cfg.timeout < U32
    requires w.hw.phase == Idle || w.hw.phase == Guard
             || (w.hw.phase == WaitAck && w.hw.acked && w.hw.attempts == 1)
             || (w.hw.phase == Quarantine && Since(t % U32, w.hw.since) >= QuarantineTicks(w.hw.cfg))
    ensures forall c <- w.unanswered :: Late(w.(time := t), c)
  {
    if w.hw.phase == Quarantine {
      SinceRealTime(t, w.sentAt);
    }
  }

  lemma TickKeepsInv(w: World, t: nat)
    requires Inv(w) && w.time <= t && 2 * w.hw.cfg.timeout < U32
    ensures Inv(TickAt(w, t))
  {
    var s := w.hw;
    if s.phase == Idle || s.phase == Guard || (s.phase == WaitAck && s.acked && s.attempts == 1)
       || (s.phase == Quarantine && Since(t % U32, s.since) >= QuarantineTicks(s.cfg)) {
      NothingAnswerable(w, t);
      FreshTickKeepsInv(w, t);
    } else {
      BusyTickKeepsInv(w, t);
    }
  }

  /** With nothing left to answer, a copy that goes out is the only one. */
  lemma FreshTickKeepsInv(w: World, t: nat)
    requires Inv(w) && w.time <= t && (forall c <- w.unanswered :: Late(w.(time := t), c))
    requires w.hw.phase == WaitAck ==> w.hw.acked
    ensures Inv(TickAt(w, t))
  {
  }

  /** A wait goes on, or ends in a resend or a quarantine: the frame stays the one that can be answered. */
  lemma BusyTickKeepsInv(w: World, t: nat)
    requires Inv(w) && w.time <= t
    requires if w.hw.phase == WaitAck then !(w.hw.acked && w.hw.attempts == 1)
             else w.hw.phase == Quarantine && Since(t % U32, w.hw.since) < QuarantineTicks(w.hw.cfg)
    ensures Inv(TickAt(w, t))
  {
  }

  lemma NextKeepsInv(w: World, e: Event)
    requires Inv(w) && Possible(w, e) && 2 * w.hw.cfg.timeout < U32
    ensures Inv(Next(w, e))
  {
    if e.Tick? {
      TickKeepsInv(w, e.t);
    }
  }

  lemma {:induction false} RunKeepsInv(w: World, events: seq<Event>)
    requires Inv(w) && Honest(w, events) && 2 * w.hw.cfg.timeout < U32
    ensures Inv(Run(w, events))
  {
    if events != [] {
      var n := |events| - 1;
      RunKeepsInv(w, events[..n]);
      NextKeepsInv(Run(w, events[..n]), events[n]);
    }
  }

  /** Every ACK the machine listens to answers a copy of the outstanding frame, and every frame retired as ACKed
      was retired by an ACK of one of its own copies. */
  ghost predicate Attributed(w: World)
  {
    && (forall c: Copy :: Possible(w, Answer(c)) && w.hw.phase == WaitAck ==> c.frame == w.frames)
    && (forall i :: 0 <= i < |w.retirements| ==> w.retirements[i].0 == w.retirements[i].1)
  }

  /** No mis-attributed ACK, across tick wrap and whatever is queued, set or lost. Twice the ACK timeout must fit
      the 32-bit tick. */
  lemma NoMisattributedAck(guard: u32, timeout: u32, attempts: u8, events: seq<Event>)
    requires 2 * timeout < U32
    requires Honest(Start(guard, timeout, attempts), events)
    ensures Attributed(Run(Start(guard, timeout, attempts), events))
  {
    RunKeepsInv(Start(guard, timeout, attempts), events);
  }

  // ---------------------------------------------------------------- and for longer timeouts it fails

  const FIRST := Frame(0x5B, 1)
  const SECOND := Frame(0x5B, 2)

  /** Two frames queued, and the first has gone out for the k-th time, at time `at`. */
  ghost predicate FirstOut(w: World, k: nat, at: nat)
  {
    && w.hw.Valid() && w.hw.phase == WaitAck && w.hw.attempts == k && !w.hw.acked && !w.hw.sendingLatest
    && !w.hw.latestPending && w.hw.queue == [FIRST, SECOND] && w.hw.since == at % U32
    && w.time == at && w.frames == 1 && Copy(1, k, at) in w.unanswered && w.retirements == []
  }

  lemma Extended(w: World, events: seq<Event>, e: Event)
    requires w.hw.Valid() && Honest(w, events) && Possible(Run(w, events), e)
    ensures Honest(w, events + [e]) && Run(w, events + [e]) == Next(Run(w, events), e)
  {
    assert (events + [e])[..|events|] == events;
  }

  lemma FirstSent(guard: u32, timeout: u32, attempts: u8) returns (events: seq<Event>)
    ensures Honest(Start(guard, timeout, attempts), events)
    ensures FirstOut(Run(Start(guard, timeout, attempts), events), 1, guard)
  {
    var w := Start(guard, timeout, attempts);
    events := [];
    Extended(w, events, Offer(FIRST));
    events := events + [Offer(FIRST)];
    Extended(w, events, Offer(SECOND));
    events := events + [Offer(SECOND)];
    assert Run(w, events).hw.queue == [FIRST, SECOND] && Run(w, events).hw.phase == Idle;
    Extended(w, events, Tick(0));
    events := events + [Tick(0)];
    assert Run(w, events).hw.phase == Guard && Run(w, events).hw.since == 0;
    Extended(w, events, Tick(guard));
    events := events + [Tick(guard)];
  }

  lemma Resends(w: World, k: nat, at: nat)
    requires FirstOut(w, k, at) && k < w.hw.cfg.attempts
    ensures FirstOut(Next(w, Tick(at + w.hw.cfg.timeout)), k + 1, at + w.hw.cfg.timeout)
  {
    SinceRealTime(at + w.hw.cfg.timeout, at);
  }

  lemma {:induction false} SentTimes(guard: u32, timeout: u32, attempts: u8, k: nat)
    returns (events: seq<Event>, at: nat)
    requires 1 <= k <= if attempts == 0 then 1 else attempts
    ensures Honest(Start(guard, timeout, attempts), events)
    ensures FirstOut(Run(Start(guard, timeout, attempts), events), k, at)
    decreases k
  {
    hide FirstOut, Honest, Run, Start;
    if k == 1 {
      events := FirstSent(guard, timeout, attempts);
      at := guard;
    } else {
      events, at := SentTimes(guard, timeout, attempts, k - 1);
      SentOnceMore(Start(guard, timeout, attempts), events, k - 1, at);
      events := events + [Tick(at + timeout)];
      at := at + timeout;
    }
  }

  lemma SentOnceMore(start: World, events: seq<Event>, k: nat, at: nat)
    requires start.hw.Valid() && Honest(start, events) && FirstOut(Run(start, events), k, at)
    requires k < start.hw.cfg.attempts
    ensures var t := at + start.hw.cfg.timeout;
            && Honest(start, events + [Tick(t)])
            && FirstOut(Run(start, events + [Tick(t)]), k + 1, t)
  {
    hide FirstOut, Honest, Run, Next;
    OutAt(Run(start, events), k, at);
    Resends(Run(start, events), k, at);
    Extended(start, events, Tick(at + start.hw.cfg.timeout));
  }

  lemma OutAt(w: World, k: nat, at: nat)
    requires FirstOut(w, k, at)
    ensures w.time == at && w.hw.Valid()
  {
  }

  /** The second frame is out, and a copy of the first can still be answered. */
  ghost predicate SecondOut(w: World, copy: Copy)
  {
    && w.hw.Valid() && w.hw.phase == WaitAck && !w.hw.acked && w.hw.attempts == 1 && !w.hw.sendingLatest
    && w.frames == 2 && w.retirements == [] && copy.frame == 1 && copy in w.unanswered && !Late(w, copy)
  }

  /** The last copy has timed out: the frame is abandoned, and its quarantine, two timeouts less 2^32 ticks, is
      already over. */
  lemma QuarantineSkipped(w: World, k: nat, at: nat)
    requires FirstOut(w, k, at) && k == w.hw.cfg.attempts && 2 * w.hw.cfg.timeout >= U32
    ensures var t := at + w.hw.cfg.timeout;
            SecondOut(Next(Next(w, Tick(t)), Tick(t)), Copy(1, k, at))
  {
    var t := at + w.hw.cfg.timeout;
    SinceRealTime(t, at);
    var q := Next(w, Tick(t));
    assert q.hw.phase == Quarantine && q.hw.queue == [SECOND] && q.hw.since == at % U32;
    assert QuarantineTicks(w.hw.cfg) == 2 * w.hw.cfg.timeout - U32;
  }

  lemma AnswerRetiresSecond(w: World, copy: Copy)
    requires SecondOut(w, copy)
    ensures Next(Next(w, Answer(copy)), Tick(w.time)).retirements == [(2, 1)]
  {
  }

  lemma ReachesSecond(guard: u32, timeout: u32, attempts: u8) returns (events: seq<Event>, copy: Copy)
    requires 2 * timeout >= U32
    ensures Honest(Start(guard, timeout, attempts), events)
    ensures SecondOut(Run(Start(guard, timeout, attempts), events), copy)
  {
    hide FirstOut, SecondOut, Honest, Run, Start;
    var sends := if attempts == 0 then 1 else attempts;
    var at: nat;
    events, at := SentTimes(guard, timeout, attempts, sends);
    SkippedFrom(Start(guard, timeout, attempts), events, sends, at);
    events := events + [Tick(at + timeout)] + [Tick(at + timeout)];
    copy := Copy(1, sends, at);
  }

  lemma SkippedFrom(start: World, events: seq<Event>, k: nat, at: nat)
    requires start.hw.Valid() && Honest(start, events) && FirstOut(Run(start, events), k, at)
    requires k == start.hw.cfg.attempts && 2 * start.hw.cfg.timeout >= U32
    ensures var t := at + start.hw.cfg.timeout;
            && Honest(start, events + [Tick(t)] + [Tick(t)])
            && SecondOut(Run(start, events + [Tick(t)] + [Tick(t)]), Copy(1, k, at))
  {
    hide FirstOut, SecondOut, Honest, Run, Next;
    var t := at + start.hw.cfg.timeout;
    var out := Run(start, events);
    OutAt(out, k, at);
    QuarantineSkipped(out, k, at);
    TickTime(out, t);
    Extended(start, events, Tick(t));
    Extended(start, events + [Tick(t)], Tick(t));
  }

  lemma TickTime(w: World, t: nat)
    requires w.hw.Valid()
    ensures Next(w, Tick(t)).time == t
  {
  }

  /** From 2^31 ticks on, `2u * ack_timeout_ticks` wraps: with any guard and any number of attempts there is a
      run, the host answering within two timeouts, in which an ACK of frame 1 retires frame 2. */
  lemma WrappedTimeoutMisattributes(guard: u32, timeout: u32, attempts: u8) returns (events: seq<Event>)
    requires 2 * timeout >= U32
    ensures Honest(Start(guard, timeout, attempts), events)
    ensures Run(Start(guard, timeout, attempts), events).retirements == [(2, 1)]
  {
    hide SecondOut, Late, Next, Honest, Run, Start;
    var copy: Copy;
    events, copy := ReachesSecond(guard, timeout, attempts);
    var w := Start(guard, timeout, attempts);
    var second := Run(w, events);
    SecondAnswerable(second, copy);
    Extended(w, events, Answer(copy));
    AnswerRetiresSecond(second, copy);
    AnsweredTime(second, copy);
    Extended(w, events + [Answer(copy)], Tick(second.time));
    events := events + [Answer(copy)] + [Tick(second.time)];
  }

  lemma AnsweredTime(w: World, copy: Copy)
    requires w.hw.Valid()
    ensures Next(w, Answer(copy)).time == w.time
  {
  }

  lemma SecondAnswerable(w: World, copy: Copy)
    requires SecondOut(w, copy)
    ensures Possible(w, Answer(copy))
  {
  }

  /** The two together: a host that answers within two timeouts is never misunderstood if and only if twice the
      timeout fits the 32-bit tick. */
  lemma AttributionExact(guard: u32, timeout: u32, attempts: u8)
    ensures (forall events :: Honest(Start(guard, timeout, attempts), events) ==>
               Attributed(Run(Start(guard, timeout, attempts), events))) <==> 2 * timeout < U32
  {
    if 2 * timeout < U32 {
      forall events | Honest(Start(guard, timeout, attempts), events)
        ensures Attributed(Run(Start(guard, timeout, attempts), events))
      {
        NoMisattributedAck(guard, timeout, attempts, events);
      }
    } else {
      var events := WrappedTimeoutMisattributes(guard, timeout, attempts);
      assert !Attributed(Run(Start(guard, timeout, attempts), events)) by {
        assert Run(Start(guard, timeout, attempts), events).retirements[0] == (2, 1);
      }
    }
  }
}
