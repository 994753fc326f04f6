/** Sleep by history: over whole runs, a deep sleep is entered only where the frames received so far, the radio
    and the UART allow it. */
module PowerSleepRuns {
  import opened Words
  import opened SleepProtocol
  import opened PowerSleep

  /** Times are on an unbounded line; every RTC read shows `Counter` of its time. */
  datatype Event =
    | Received(f: Frame, t: int)
    | Pass(clock: u32, txIdle: bool)
    | IdlePass(t: int, deadline: u32, i: Idle, w: Wake, wokeAt: int)

  datatype Trace = Trace(
    p: Power,
    h: seq<Frame>,      // every frame accepted since boot
    now: int,
    lastFrame: int,     // when the last one came; meaningless before the first
    noted: int,         // the time holdoffStart was read at
    spent: nat)         // how many frames there were when last no request stood

  function Boot(cfg: Config, now: int): Trace { Trace(PowerSleep.Start(cfg), [], now, now, now, 0) }

  predicate Enters(x: Trace, e: Event)
  {
    e.IdlePass? && IdleCode(x.p, e.deadline, Counter(e.t), e.i) == 0
  }

  /** The time holdoffStart is read at in an idle pass, if it is. */
  function NotedIn(x: Trace, e: Event): int
    requires e.IdlePass?
  {
    if Enters(x, e) && !e.w.rtc && e.w.edge then e.wokeAt
    else if !x.p.explicit && x.p.autosleep && !x.p.updating && e.i.rxActivity then e.t
    else x.noted
  }

  function Moved(x: Trace, e: Event): Trace
  {
    match e
    case Received(f, t) => Trace(FrameHandled(x.p, f, Counter(t)), x.h + [f], t, t, t, x.spent)
    case Pass(clock, txIdle) => x.(p := Serviced(x.p, clock, txIdle))
    case IdlePass(t, deadline, i, w, wokeAt) =>
      Trace(Idled(x.p, deadline, Counter(t), i, w, Counter(wokeAt)), x.h, if Enters(x, e) then wokeAt else t,
            x.lastFrame, NotedIn(x, e), x.spent)
  }

  /** A request stands: pending, or handed to the power layer. */
  predicate RequestStands(p: Power) { p.proto.sleepPending || p.explicit }

  function Next(x: Trace, e: Event): Trace
  {
    var y := Moved(x, e);
    if RequestStands(y.p) then y else y.(spent := |y.h|)
  }

  /** Time does not run backwards. */
  predicate Timely(x: Trace, e: Event)
  {
    match e
    case Received(_, t) => x.now <= t
    case Pass(_, _) => true
    case IdlePass(t, _, _, _, wokeAt) => x.now <= t <= wokeAt
  }

  function Run(x: Trace, events: seq<Event>): Trace
  {
    if events == [] then x else Next(Run(x, events[..|events| - 1]), events[|events| - 1])
  }

  predicate AllTimely(x: Trace, events: seq<Event>)
  {
    if events == [] then true
    else
      var n := |events| - 1;
      AllTimely(x, events[..n]) && Timely(Run(x, events[..n]), events[n])
  }

  ghost predicate LatchesInv(p: Power, h: seq<Frame>)
  {
    && (p.proto.unlocked <==> Seen(h, IsUnlock))
    && (p.updating <==> Seen(h, IsUpdate))
    && (p.autosleep <==> Standing(h, IsAuto, EndsAuto))
    && p.proto.autosleep == p.autosleep
  }

  /** An A6 54 came after an unlock, and no frame that ends it since; the first `from` frames do not count. */
  ghost predicate AskedSince(h: seq<Frame>, from: nat, ends: Frame -> bool)
  {
    exists j :: from <= j < |h| && IsSleepNow(h[j]) && Seen(h[..j], IsUnlock) && Undisturbed(h, j, ends)
  }

  /** A request that stands was made after the last moment when none did. */
  ghost predicate RequestInv(p: Power, h: seq<Frame>, spent: nat)
  {
    && spent <= |h|
    && (p.proto.unlocked ==> Seen(h, IsUnlock))
    && (p.proto.sleepPending ==> AskedSince(h, spent, EndsRequest))
    && (p.explicit ==> AskedSince(h, spent, IsStateChanging))
    && (!RequestStands(p) ==> spent == |h|)
  }

  ghost predicate HoldoffInv(x: Trace)
  {
    && x.lastFrame <= x.noted <= x.now
    && (x.p.holdoffActive ==> x.p.holdoffStart == Counter(x.noted))
    && (!x.p.holdoffActive && x.h != [] ==> x.now - x.noted >= x.p.cfg.holdoff)
  }

  lemma FrameKeepsLatches(p: Power, h: seq<Frame>, f: Frame, now: u32)
    requires LatchesInv(p, h)
    ensures LatchesInv(FrameHandled(p, f, now), h + [f])
  {
    SeenNext(h, f, IsUnlock);
    SeenNext(h, f, IsUpdate);
    StandingNext(h, f, IsAuto, EndsAuto);
  }

  // ---------------------------------------------------------------- requests

  lemma AskedStill(h: seq<Frame>, f: Frame, from: nat, ends: Frame -> bool)
    requires AskedSince(h, from, ends) && !ends(f)
    ensures AskedSince(h + [f], from, ends)
  {
    var j :| from <= j < |h| && IsSleepNow(h[j]) && Seen(h[..j], IsUnlock) && Undisturbed(h, j, ends);
    assert (h + [f])[..j] == h[..j];
    assert Undisturbed(h + [f], j, ends);
  }

  lemma AskedNow(h: seq<Frame>, f: Frame, from: nat, ends: Frame -> bool)
    requires from <= |h| && IsSleepNow(f) && Seen(h, IsUnlock)
    ensures AskedSince(h + [f], from, ends)
  {
    assert (h + [f])[..|h|] == h;
    assert Undisturbed(h + [f], |h|, ends);
  }

  /** What Power_Service hands over stands by the weaker test too: an A6 56 no longer withdraws it. */
  lemma HandedOverStands(h: seq<Frame>, from: nat)
    requires AskedSince(h, from, EndsRequest)
    ensures AskedSince(h, from, IsStateChanging)
  {
    var j :| from <= j < |h| && IsSleepNow(h[j]) && Seen(h[..j], IsUnlock) && Undisturbed(h, j, EndsRequest);
    assert Undisturbed(h, j, IsStateChanging);
  }

  lemma FrameKeepsRequests(p: Power, h: seq<Frame>, spent: nat, f: Frame, now: u32)
    requires RequestInv(p, h, spent)
    ensures var p' := FrameHandled(p, f, now);
            RequestInv(p', h + [f], if RequestStands(p') then spent else |h| + 1)
  {
    SeenNext(h, f, IsUnlock);
    var p' := FrameHandled(p, f, now);
    if p'.explicit {
      AskedStill(h, f, spent, IsStateChanging);
    }
    if p'.proto.sleepPending {
      if p.proto.sleepPending {
        AskedStill(h, f, spent, EndsRequest);
      } else {
        AskedNow(h, f, spent, EndsRequest);
      }
    }
  }

  lemma NextKeepsRequests(x: Trace, e: Event)
    requires RequestInv(x.p, x.h, x.spent)
    ensures RequestInv(Next(x, e).p, Next(x, e).h, Next(x, e).spent)
  {
    if e.Received? {
      FrameKeepsRequests(x.p, x.h, x.spent, e.f, Counter(e.t));
      hide FrameHandled;
    } else if x.p.proto.sleepPending {
      HandedOverStands(x.h, x.spent);
    }
  }

  lemma IdleKeepsHoldoff(x: Trace, e: Event)
    requires x.p.cfg.Valid() && HoldoffInv(x) && e.IdlePass? && Timely(x, e)
    ensures HoldoffInv(Next(x, e))
  {
    if x.p.holdoffActive {
      ElapsedNeverOverstates(e.t, x.noted, RTC_MODULUS, BACKSTEP);
    }
  }

  lemma NextKeepsLatches(x: Trace, e: Event)
    requires LatchesInv(x.p, x.h)
    ensures LatchesInv(Next(x, e).p, Next(x, e).h)
  {
    match e
    case Received(f, t) => FrameKeepsLatches(x.p, x.h, f, Counter(t));
    case Pass(_, _) =>
    case IdlePass(_, _, _, _, _) =>
  }

  lemma NextKeepsHoldoff(x: Trace, e: Event)
    requires x.p.cfg.Valid() && HoldoffInv(x) && Timely(x, e)
    ensures HoldoffInv(Next(x, e))
  {
    if e.IdlePass? {
      IdleKeepsHoldoff(x, e);
    }
  }

  lemma BootInv(cfg: Config, now: int)
    ensures LatchesInv(Boot(cfg, now).p, []) && HoldoffInv(Boot(cfg, now)) && RequestInv(Boot(cfg, now).p, [], 0)
  {
  }

  lemma BootIs(cfg: Config, now: int)
    ensures var x := Boot(cfg, now);
            LatchesInv(x.p, x.h) && RequestInv(x.p, x.h, x.spent) && HoldoffInv(x) && x.p.cfg == cfg
  {
    BootInv(cfg, now);
  }

  lemma NextKeepsConfig(x: Trace, e: Event)
    ensures Next(x, e).p.cfg == x.p.cfg && (x.p.updating ==> Next(x, e).p.updating)
  {
  }

  lemma {:induction false} RunKeepsInv(x: Trace, events: seq<Event>)
    requires x.p.cfg.Valid() && LatchesInv(x.p, x.h) && RequestInv(x.p, x.h, x.spent) && HoldoffInv(x)
    requires AllTimely(x, events)
    ensures var y := Run(x, events);
            LatchesInv(y.p, y.h) && RequestInv(y.p, y.h, y.spent) && HoldoffInv(y) && y.p.cfg == x.p.cfg
  {
    if events != [] {
      hide LatchesInv, RequestInv, HoldoffInv, Next, Timely;
      NextKeepsConfig(Run(x, events[..|events| - 1]), events[|events| - 1]);
      var n := |events| - 1;
      RunKeepsInv(x, events[..n]);
      NextKeepsLatches(Run(x, events[..n]), events[n]);
      NextKeepsRequests(Run(x, events[..n]), events[n]);
      NextKeepsHoldoff(Run(x, events[..n]), events[n]);
    }
  }

  /** When a sleep may be entered on request: an A6 54 came after an A6 56, with no state-changing frame since
      and after the last moment when no request stood; no A6 81 ever, the radio is idle and the UART quiet. */
  ghost predicate RequestedSleep(h: seq<Frame>, spent: nat, i: Idle)
  {
    AskedSince(h, spent, IsStateChanging) && !Seen(h, IsUpdate) && i.rfIdle && i.txIdle && i.rxQuiet
  }

  /** When one may be entered unasked: an A6 57 came after an A6 56, with no A6 56, 51, 52 or 63 since, no
      A6 81 ever, the radio is shut, the UART quiet, and the holdoff over since the last sign of the host, which is
      a frame, raw bytes or a wake. */
  ghost predicate AutomaticSleep(h: seq<Frame>, i: Idle, sinceSign: int, holdoff: u32)
  {
    && Standing(h, IsAuto, EndsAuto) && !Seen(h, IsUpdate) && i.txIdle && i.rxQuiet
    && (i.rfIdle || i.rfCanSleep) && !i.rxActivity && sinceSign >= holdoff
  }

  lemma EntryJustified(x: Trace, e: Event)
    requires x.p.cfg.Valid() && LatchesInv(x.p, x.h) && RequestInv(x.p, x.h, x.spent) && HoldoffInv(x)
    requires Timely(x, e) && Enters(x, e)
    ensures if x.p.explicit then RequestedSleep(x.h, x.spent, e.i)
            else AutomaticSleep(x.h, e.i, e.t - x.noted, x.p.cfg.holdoff)
  {
    if x.p.holdoffActive {
      ElapsedNeverOverstates(e.t, x.noted, RTC_MODULUS, BACKSTEP);
    }
    if !x.p.explicit {
      assert x.h != [] by { assert Standing(x.h, IsAuto, EndsAuto); }
    }
  }

  /** Sleep by history, over every run of frames, service passes and idle passes. */
  lemma SleepsByHistory(cfg: Config, booted: int, events: seq<Event>, e: Event)
    requires cfg.Valid() && AllTimely(Boot(cfg, booted), events)
    requires Timely(Run(Boot(cfg, booted), events), e) && Enters(Run(Boot(cfg, booted), events), e)
    ensures var x := Run(Boot(cfg, booted), events);
            && x.lastFrame <= x.noted
            && (RequestedSleep(x.h, x.spent, e.i) || AutomaticSleep(x.h, e.i, e.t - x.noted, cfg.holdoff))
  {
    hide LatchesInv, RequestInv, HoldoffInv, Next, Timely, Boot, RequestedSleep, AutomaticSleep, Enters;
    BootIs(cfg, booted);
    RunKeepsInv(Boot(cfg, booted), events);
    EntryJustified(Run(Boot(cfg, booted), events), e);
    SignsAreLater(Run(Boot(cfg, booted), events));
  }

  lemma SignsAreLater(x: Trace)
    requires HoldoffInv(x)
    ensures x.lastFrame <= x.noted
  {
  }

  /** Nothing vetoes a sleep to this deadline. */
  predicate Unvetoed(cfg: Config, e: Event)
  {
    && e.IdlePass? && !e.i.masked && !e.i.wakeAsserted && !e.i.alreadyFired && e.i.txIdle && e.i.rxQuiet
    && WindowAccepted(cfg, e.deadline, Counter(e.t))
  }

  /** ... and both ways: over every run, an idle pass that nothing vetoes enters a sleep if and only if no A6 81 has
      come and either a request is in the power layer and the radio idle, or none is, auto-sleep stands, the radio
      can sleep and the holdoff is over since the host's last sign. (Short of a counter's wrap since that.) */
  lemma SleepsExactlyWhen(cfg: Config, booted: int, events: seq<Event>, e: Event)
    requires cfg.Valid() && AllTimely(Boot(cfg, booted), events) && Timely(Run(Boot(cfg, booted), events), e)
    requires e.IdlePass? && e.t - Run(Boot(cfg, booted), events).noted < RTC_MODULUS - BACKSTEP
    ensures var x := Run(Boot(cfg, booted), events);
            Enters(x, e) <==>
              && Unvetoed(cfg, e) && !Seen(x.h, IsUpdate)
              && if x.p.explicit then e.i.rfIdle else AutomaticSleep(x.h, e.i, e.t - x.noted, cfg.holdoff)
  {
    hide LatchesInv, RequestInv, HoldoffInv, Next, Timely, Boot, AutomaticSleep, Enters, Unvetoed;
    BootIs(cfg, booted);
    RunKeepsInv(Boot(cfg, booted), events);
    EntersExactly(Run(Boot(cfg, booted), events), e);
  }

  lemma EntersExactly(x: Trace, e: Event)
    requires x.p.cfg.Valid() && LatchesInv(x.p, x.h) && HoldoffInv(x) && Timely(x, e)
    requires e.IdlePass? && e.t - x.noted < RTC_MODULUS - BACKSTEP
    ensures Enters(x, e) <==>
              && Unvetoed(x.p.cfg, e) && !Seen(x.h, IsUpdate)
              && if x.p.explicit then e.i.rfIdle else AutomaticSleep(x.h, e.i, e.t - x.noted, x.p.cfg.holdoff)
  {
    if x.p.holdoffActive {
      ElapsedNeverOverstates(e.t, x.noted, RTC_MODULUS, BACKSTEP);
    }
    hide Seen, WindowAccepted, ElapsedTicks;
    assert Standing(x.h, IsAuto, EndsAuto) ==> x.h != [];
    hide Standing;
  }

  /** Nothing of the host in it: no frame, no raw bytes, no edge that ends a sleep. */
  predicate NoSign(e: Event)
  {
    !e.Received? && (e.IdlePass? ==> !e.i.rxActivity && (e.w.rtc || !e.w.edge))
  }

  predicate AllNoSign(events: seq<Event>)
  {
    events == [] || (AllNoSign(events[..|events| - 1]) && NoSign(events[|events| - 1]))
  }

  /** A holdoff found over stays over until the host's next sign, however often the counter wraps: from the idle pass
      that found it so, over any run without one, no later pass finds it running, whatever the clock shows. */
  lemma {:induction false} HoldoffStaysOver(x: Trace, e: Event, events: seq<Event>, clock: u32, i: Idle)
    requires e.IdlePass? && !x.p.explicit && x.p.autosleep && !x.p.updating
    requires HoldoffOver(x.p, Counter(e.t), e.i) && NoSign(e) && AllNoSign(events) && !i.rxActivity
    ensures !Run(Next(x, e), events).p.holdoffActive && HoldoffOver(Run(Next(x, e), events).p, clock, i)
  {
    if events != [] {
      HoldoffStaysOver(x, e, events[..|events| - 1], clock, i);
      NoSignKeepsHoldoff(Run(Next(x, e), events[..|events| - 1]), events[|events| - 1]);
      hide Next, NoSign;
    }
  }

  lemma NoSignKeepsHoldoff(x: Trace, e: Event)
    requires NoSign(e) && !x.p.holdoffActive
    ensures !Next(x, e).p.holdoffActive
  {
  }

  /** A request handed to the power layer outlives RTC wakes: it ends with a host edge during a sleep it led
      to, or with a state-changing frame, and with nothing else. An A6 56 in particular leaves it standing. */
  lemma RequestEndsOnlyByHost(x: Trace, e: Event)
    requires x.p.explicit
    ensures Next(x, e).p.explicit <==>
              match e
              case Received(f, _) => !IsStateChanging(f)
              case Pass(_, _) => true
              case IdlePass(_, _, _, w, _) => !(Enters(x, e) && (w.edge || w.lateEdge))
  {
  }

  // ---------------------------------------------------------------- spent requests

  /** A requested sleep ends with the host's edge. */
  predicate WokenByHost(x: Trace, e: Event)
  {
    x.p.explicit && Enters(x, e) && (e.w.edge || e.w.lateEdge)
  }

  /** Power_Service gives up on a pending request: its drain is out of time, or an update is pending. */
  predicate GivenUp(x: Trace, e: Event)
  {
    e.Pass? && x.p.proto.sleepPending && ServiceOutcome(x.p, e.clock, e.txIdle) == StandDown
  }

  predicate NotAsked(events: seq<Event>)
  {
    forall i :: 0 <= i < |events| && events[i].Received? ==> !IsSleepNow(events[i].f)
  }

  lemma {:induction false} NothingStandsUnasked(x: Trace, events: seq<Event>)
    requires !RequestStands(x.p) && NotAsked(events)
    ensures !RequestStands(Run(x, events).p)
  {
    if events != [] {
      hide Next, RequestStands;
      NothingStandsUnasked(x, events[..|events| - 1]);
      NoneArises(Run(x, events[..|events| - 1]), events[|events| - 1]);
    }
  }

  lemma NoneArises(x: Trace, e: Event)
    requires !RequestStands(x.p) && (e.Received? ==> !IsSleepNow(e.f))
    ensures !RequestStands(Next(x, e).p)
  {
  }

  lemma UnaskedIsAutomatic(x: Trace, after: seq<Event>, e: Event)
    requires x.p.cfg.Valid() && LatchesInv(x.p, x.h) && RequestInv(x.p, x.h, x.spent) && HoldoffInv(x)
    requires !RequestStands(x.p) && NotAsked(after) && AllTimely(x, after)
    requires Timely(Run(x, after), e) && Enters(Run(x, after), e)
    ensures var z := Run(x, after); AutomaticSleep(z.h, e.i, e.t - z.noted, x.p.cfg.holdoff)
  {
    hide LatchesInv, RequestInv, HoldoffInv, Timely, AutomaticSleep, Enters, NotAsked;
    NothingStandsUnasked(x, after);
    RunKeepsInv(x, after);
    EntryJustified(Run(x, after), e);
  }

  /** The last request that stood goes. */
  predicate Spends(x: Trace, e: Event)
  {
    (WokenByHost(x, e) && !x.p.proto.sleepPending) || (GivenUp(x, e) && !x.p.explicit)
  }

  /** What comes of it: in any run, until the next A6 54, only an automatic sleep is entered. */
  lemma SpentRequestsDoNotSleep(cfg: Config, booted: int, before: seq<Event>, spending: Event,
                                after: seq<Event>, e: Event)
    requires cfg.Valid() && AllTimely(Boot(cfg, booted), before)
    requires var x := Run(Boot(cfg, booted), before);
             && Timely(x, spending) && Spends(x, spending)
             && NotAsked(after) && AllTimely(Next(x, spending), after)
             && Timely(Run(Next(x, spending), after), e) && Enters(Run(Next(x, spending), after), e)
    ensures var z := Run(Next(Run(Boot(cfg, booted), before), spending), after);
            AutomaticSleep(z.h, e.i, e.t - z.noted, cfg.holdoff)
  {
    hide LatchesInv, RequestInv, HoldoffInv, Next, Timely, Spends, Boot, AutomaticSleep, Enters;
    hide NotAsked, RequestStands;
    BootIs(cfg, booted);
    RunKeepsInv(Boot(cfg, booted), before);
    var x := Run(Boot(cfg, booted), before);
    NothingStandsAfter(x, spending);
    NextKeepsConfig(x, spending);
    NextKeepsLatches(x, spending);
    NextKeepsRequests(x, spending);
    NextKeepsHoldoff(x, spending);
    UnaskedIsAutomatic(Next(x, spending), after, e);
  }

  lemma NothingStandsAfter(x: Trace, e: Event)
    requires Spends(x, e)
    ensures !RequestStands(Next(x, e).p)
  {
  }

  const READY := PowerSleep.Idle(true, true, true, true, false, false, false, false)

  /** With no A6 54 in between, a requested sleep is entered. */
  ghost predicate SleptOn(y: Trace, after: seq<Event>, e: Event)
  {
    && NotAsked(after) && AllTimely(y, after) && Timely(Run(y, after), e)
    && Run(y, after).p.explicit && Enters(Run(y, after), e)
  }

  ghost predicate CanBeSleptOn(y: Trace) { exists after, e :: SleptOn(y, after, e) }

  /** Two passes with TX idle leave a request that stands in the power layer, and none pending. */
  lemma HandsOver(x: Trace)
    requires RequestStands(x.p) && !x.p.updating
    ensures var y := Next(Next(x, Pass(0, true)), Pass(0, true));
            && y.p.explicit && !y.p.proto.sleepPending
            && y.h == x.h && y.now == x.now && y.p.cfg == x.p.cfg && !y.p.updating
  {
  }

  function ReadyAt(x: Trace): Event
    requires x.p.cfg.Valid()
  {
    IdlePass(x.now, Counter(x.now + x.p.cfg.margin + x.p.cfg.minSleep), READY, Wake(false, true, false), x.now)
  }

  lemma EntersWhenReady(x: Trace)
    requires x.p.cfg.Valid() && x.p.cfg.minSleep <= x.p.cfg.maxSleep && x.p.explicit && !x.p.updating
    ensures Timely(x, ReadyAt(x)) && Enters(x, ReadyAt(x))
  {
    SleepsToTheDeadline(x.p.cfg, x.now + x.p.cfg.margin + x.p.cfg.minSleep, x.now);
  }

  lemma SleepNeedsAWindow(x: Trace, e: Event)
    requires Enters(x, e)
    ensures x.p.cfg.minSleep <= x.p.cfg.maxSleep && !x.p.updating
  {
  }

  lemma {:induction false} UpdateAndConfigStay(x: Trace, events: seq<Event>)
    ensures Run(x, events).p.cfg == x.p.cfg && (x.p.updating ==> Run(x, events).p.updating)
  {
    if events != [] {
      hide Next;
      UpdateAndConfigStay(x, events[..|events| - 1]);
      NextKeepsConfig(Run(x, events[..|events| - 1]), events[|events| - 1]);
    }
  }

  lemma OneMore(x: Trace, events: seq<Event>, e: Event)
    ensures Run(x, events + [e]) == Next(Run(x, events), e)
    ensures AllTimely(x, events + [e]) <==> AllTimely(x, events) && Timely(Run(x, events), e)
  {
    assert (events + [e])[..|events|] == events;
  }

  lemma StandingIsSleptOn(y: Trace)
    requires y.p.cfg.Valid() && RequestStands(y.p) && !y.p.updating && y.p.cfg.minSleep <= y.p.cfg.maxSleep
    ensures CanBeSleptOn(y)
  {
    var pass := Pass(0, true);
    var after := [] + [pass] + [pass];
    var z := Run(y, after);
    OneMore(y, [], pass);
    OneMore(y, [] + [pass], pass);
    HandsOver(y);
    EntersWhenReady(z);
    hide Enters, Timely;
    assert SleptOn(y, after, ReadyAt(z));
  }

  /** Exactly when a requested sleep can still be entered with no further A6 54: when a request stands, pending
      or in the power layer, no update is pending, and some deadline is in the window at all. */
  lemma SleptOnExactlyWhenStanding(y: Trace)
    requires y.p.cfg.Valid()
    ensures CanBeSleptOn(y) <==>
              RequestStands(y.p) && !y.p.updating && y.p.cfg.minSleep <= y.p.cfg.maxSleep
  {
    if CanBeSleptOn(y) {
      var after, e :| SleptOn(y, after, e);
      if !RequestStands(y.p) {
        NothingStandsUnasked(y, after);
      }
      SleepNeedsAWindow(Run(y, after), e);
      UpdateAndConfigStay(y, after);
    } else if RequestStands(y.p) && !y.p.updating && y.p.cfg.minSleep <= y.p.cfg.maxSleep {
      StandingIsSleptOn(y);
    }
  }

  /** So a host wake ends the matter unless a further A6 54 is waiting in the reducer, */
  lemma SleptOnAfterAWake(x: Trace, e: Event)
    requires x.p.cfg.Valid() && WokenByHost(x, e)
    ensures CanBeSleptOn(Next(x, e)) <==> x.p.proto.sleepPending
  {
    SleepNeedsAWindow(x, e);
    SleptOnExactlyWhenStanding(Next(x, e));
    hide CanBeSleptOn, Enters;
    WakeLeaves(x, e);
  }

  lemma WakeLeaves(x: Trace, e: Event)
    requires WokenByHost(x, e)
    ensures var y := Next(x, e);
            && (RequestStands(y.p) <==> x.p.proto.sleepPending)
            && y.p.cfg == x.p.cfg && y.p.updating == x.p.updating
  {
  }

  /** and a request given up ends it unless an earlier one is already in the power layer. */
  lemma SleptOnAfterGivingUp(x: Trace, e: Event)
    requires x.p.cfg.Valid() && GivenUp(x, e)
    ensures CanBeSleptOn(Next(x, e)) <==>
              x.p.explicit && !x.p.updating && x.p.cfg.minSleep <= x.p.cfg.maxSleep
  {
    SleptOnExactlyWhenStanding(Next(x, e));
    hide CanBeSleptOn;
  }

  // ---------------------------------------------------------------- both are reached

  /** An A6 56 and an A6 54, handed over, and an A6 54 again. */
  function AskedTwice(t: int): seq<Event>
  {
    [Received(Frame(0xA6, 0x56), t)] + [Received(Frame(0xA6, 0x54), t)] + [Pass(0, true)] + [Pass(0, true)]
    + [Received(Frame(0xA6, 0x54), t)]
  }

  lemma AskedTwiceStands(cfg: Config, booted: int)
    ensures AllTimely(Boot(cfg, booted), AskedTwice(booted))
    ensures var x := Run(Boot(cfg, booted), AskedTwice(booted));
            && x.p.explicit && x.p.proto.sleepPending && !x.p.updating && !x.p.draining
            && x.p.cfg == cfg && x.now == booted
  {
    var boot, pass := Boot(cfg, booted), Pass(0, true);
    var unlock, ask := Received(Frame(0xA6, 0x56), booted), Received(Frame(0xA6, 0x54), booted);
    OneMore(boot, [], unlock);
    OneMore(boot, [unlock], ask);
    OneMore(boot, [unlock] + [ask], pass);
    OneMore(boot, [unlock] + [ask] + [pass], pass);
    OneMore(boot, [unlock] + [ask] + [pass] + [pass], ask);
    assert [] + [unlock] == [unlock];
    var asked := Next(Next(boot, unlock), ask);
    assert asked.p.proto == Proto(true, true, false) && !asked.p.explicit && !asked.p.updating && !asked.p.draining;
    var handed := Next(Next(asked, pass), pass);
    assert handed.p.proto == Proto(true, false, false) && handed.p.explicit && !handed.p.draining;
  }

  /** The repetition waits while its forerunner is slept on, outlives the host's wake, and can be slept on in
      turn with nothing more heard from the host. */
  lemma RepeatedRequestSleepsTwice(cfg: Config, booted: int)
    requires cfg.Valid() && cfg.minSleep <= cfg.maxSleep
    ensures var x := Run(Boot(cfg, booted), AskedTwice(booted));
            && AllTimely(Boot(cfg, booted), AskedTwice(booted)) && x.p.cfg == cfg
            && Timely(x, ReadyAt(x)) && WokenByHost(x, ReadyAt(x)) && CanBeSleptOn(Next(x, ReadyAt(x)))
  {
    AskedTwiceStands(cfg, booted);
    hide AllTimely, Timely, Enters, CanBeSleptOn, AskedTwice, Boot;
    var x := Run(Boot(cfg, booted), AskedTwice(booted));
    EntersWhenReady(x);
    SleptOnAfterAWake(x, ReadyAt(x));
  }

  /** The repetition's drain runs out of time with TX busy, and its forerunner can still be slept on. */
  lemma DrainedRepetitionLeavesTheFirst(cfg: Config, booted: int)
    requires cfg.Valid() && cfg.minSleep <= cfg.maxSleep
    ensures var x := Run(Boot(cfg, booted), AskedTwice(booted) + [Pass(0, false)]);
            && AllTimely(Boot(cfg, booted), AskedTwice(booted) + [Pass(0, false)])
            && GivenUp(x, Pass(cfg.drain, false)) && CanBeSleptOn(Next(x, Pass(cfg.drain, false)))
  {
    AskedTwiceStands(cfg, booted);
    OneMore(Boot(cfg, booted), AskedTwice(booted), Pass(0, false));
    hide AllTimely, CanBeSleptOn, AskedTwice, Boot;
    DrainsOut(Run(Boot(cfg, booted), AskedTwice(booted)));
    SleptOnAfterGivingUp(Next(Run(Boot(cfg, booted), AskedTwice(booted)), Pass(0, false)), Pass(cfg.drain, false));
  }

  lemma DrainsOut(x: Trace)
    requires x.p.explicit && x.p.proto.sleepPending && !x.p.updating && !x.p.draining
    ensures var y := Next(x, Pass(0, false));
            GivenUp(y, Pass(x.p.cfg.drain, false)) && y.p.explicit && !y.p.updating && y.p.cfg == x.p.cfg
  {
  }

  /** So a host that renegotiates with A6 56 after the hand-over is slept on all the same. */
  lemma UnlockDoesNotWithdraw(x: Trace, t: int, clock: u32)
    requires x.p.proto.unlocked && !x.p.updating && !x.p.draining && !x.p.proto.sleepPending
    ensures var asked := Next(x, Received(Frame(0xA6, 0x54), t));
            var handed := Next(Next(asked, Pass(clock, true)), Pass(clock, true));
            var unlocked := Next(handed, Received(Frame(0xA6, 0x56), t));
            handed.p.explicit && unlocked.p.explicit && !unlocked.p.proto.sleepPending
  {
  }

  /** Passes of the main loop at these times, TX busy in each. */
  function BusyPasses(p: Power, times: seq<int>): Power
  {
    if times == [] then p else Serviced(BusyPasses(p, times[..|times| - 1]), times[|times| - 1] % U32, false)
  }

  lemma {:induction false} BusyPassesWait(p: Power, began: int, times: seq<int>)
    requires p.proto.sleepPending && !p.updating && !p.draining
    requires forall i :: 0 <= i < |times| ==> began <= times[i] < began + p.cfg.drain
    ensures BusyPasses(Serviced(p, began % U32, false), times) == p.(draining := true, drainStart := began % U32)
  {
    if times != [] {
      BusyPassesWait(p, began, times[..|times| - 1]);
      SinceRealTime(times[|times| - 1], began);
    }
  }

  /** A request waits for the UART and for nothing else: from the pass that begins the drain, through any passes that
      find TX busy inside the bound, it is neither handed over nor dropped; the next pass hands it over if TX is
      idle, goes on waiting if not, and gives it up once the bound is reached. */
  lemma RequestWaitsForTheUart(p: Power, began: int, times: seq<int>, now: int, txIdle: bool)
    requires p.proto.sleepPending && !p.updating && !p.draining
    requires forall i :: 0 <= i < |times| ==> began <= times[i] < began + p.cfg.drain
    requires began <= now < began + U32
    ensures var waiting := BusyPasses(Serviced(p, began % U32, false), times);
            var q := Serviced(waiting, now % U32, txIdle);
            && waiting.proto == p.proto && waiting.explicit == p.explicit
            && (if txIdle then q.explicit && !q.proto.sleepPending
                else if now - began < p.cfg.drain then q == waiting
                else q.explicit == p.explicit && !q.proto.sleepPending && !q.draining)
  {
    BusyPassesWait(p, began, times);
    SinceRealTime(now, began);
  }

  /** Power_Service never waits past its bound: from the pass that begins the drain, one made `drain` ticks
      later or more has asked for the sleep or stood down. */
  lemma DrainIsBounded(p: Power, began: int, now: int, txIdle: bool)
    requires !p.draining && began <= now && now - began < U32
    requires now - began >= p.cfg.drain
    ensures var begun := Serviced(p, began % U32, false);
            ServiceOutcome(begun, now % U32, txIdle) != Wait || !begun.draining
  {
    SinceRealTime(now, began);
  }
}
