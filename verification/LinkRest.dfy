/** Resting is silent and never stalls: from the moment the link rests to the next host frame nothing is said to
    the host, supervision never comes due, every probe ends, and in stage 1 the next probe is always armed. */
module LinkRest {
  import opened Words
  import opened ReportRing
  import opened LinkMachine
  import opened LinkSafety
  import opened LinkReports

  /** TMOS may be this late with an event: a probe's timeout is then served before the next probe is due. */
  const MAX_DELAY: nat := REST_PROBE_TICKS - REST_PROBE_TIMEOUT_TICKS

  /** Supervision cannot come due: it is not armed, or only since a probe that is still running. */
  predicate SupervisionFar(l: Link)
  {
    if l.st == Connected
    then l.tasks.disconnect.posted.None? && l.tasks.disconnect.due.Some? &&
         l.tasks.disconnect.due.value >= l.past.probeStart + CONNECTED_TIMEOUT_TICKS
    else l.tasks.disconnect == OFF
  }

  predicate ProbeTimed(l: Link)
  {
    if l.rest.probe
    then && EndsAt(l.tasks.restProbeTimeout, l.past.probeStart + REST_PROBE_TIMEOUT_TICKS)
         && l.past.probeStart <= l.now < l.past.probeStart + REST_PROBE_TICKS
    else l.tasks.restProbeTimeout == OFF
  }

  predicate NextProbeArmed(l: Link)
  {
    l.rest.stage == 1 ==>
      if l.rest.probe then l.tasks.restProbe == Task(None, Some(l.past.probeStart + REST_PROBE_TICKS))
      else l.tasks.restProbe.Active()
  }

  predicate Calm(l: Link)
  {
    AtRest(l) && 1 <= l.rest.stage <= 2 && SupervisionFar(l) && ProbeTimed(l) && NextProbeArmed(l)
  }

  /** A step within rest: nothing said, nothing torn down. */
  predicate Undisturbed(l: Link, m: Link)
  {
    Calm(m) && m.past.status == l.past.status && m.past.tornDown == l.past.tornDown
  }

  lemma EntryIsCalm(l: Link)
    requires LinkInv(l) && l.st == Connected && !l.rest.probe
    ensures Calm(RestEntered(l)) && RestEntered(l).past.status == l.past.status
  {
  }

  lemma QuietIsCalm(l: Link)
    requires Calm(l)
    ensures Undisturbed(l, GoneQuiet(l))
  {
  }

  lemma RadioIsCalm(l: Link, mac: int, accessAddr: u32, typeTag: u8, offered: nat)
    requires LinkInv(l) && Calm(l)
    ensures Undisturbed(l, RestartPosted(l)) && Undisturbed(l, Caught15(l, mac, accessAddr, typeTag, offered))
  {
  }

  lemma ResponsesAreCalm(l: Link, acks: bool, started: bool)
    requires LinkInv(l) && Calm(l)
    ensures Undisturbed(l, Polled(l, acks)) && Undisturbed(l, Responded(l, started))
  {
  }

  lemma CompletionsAreCalm(l: Link)
    requires LinkInv(l) && Calm(l)
    ensures Undisturbed(l, TxFinished(l)) && Undisturbed(l, TxFailed(l)) && Undisturbed(l, TurnedAround(l))
  {
  }

  lemma TickIsCalm(l: Link, overdue: bool, hops: bool)
    requires LinkInv(l) && Calm(l)
    ensures Undisturbed(l, LinkTicked(l, overdue, hops))
  {
    if l.rest.quietPending {
      QuietIsCalm(l);
    }
  }

  lemma SearchIsCalm(l: Link)
    requires LinkInv(l) && Calm(l)
    ensures Undisturbed(l, Restarted(l)) && Undisturbed(l, Broadcast(l)) && Undisturbed(l, WindowClosed(l))
  {
  }

  lemma EnterIsCalm(l: Link)
    requires LinkInv(l) && Calm(l)
    ensures Undisturbed(l, ConnectedEntered(l))
  {
  }

  lemma NothingElseIsDue(l: Link)
    requires LinkInv(l) && Calm(l)
    ensures IdleElapsed(l) == l && Undisturbed(l, QueueDropped(l))
  {
  }

  /** The timeout ends the probe it was armed for. */
  lemma TimeoutIsCalm(l: Link)
    requires LinkInv(l) && Calm(l) && l.tasks.restProbeTimeout.posted.Some?
    ensures Silent(l) && l.now >= l.past.probeStart
    ensures var m := ProbeTimedOut(Taken(l, RestProbeTimeout)); Undisturbed(l, m) && m.st == Resting
  {
  }

  lemma StageTwoIsCalm(l: Link)
    requires LinkInv(l) && Calm(l)
    ensures Undisturbed(l, StageTwo(l))
  {
  }

  /** Stage 1's probe, its event served: it can only be found resting. */
  lemma ProbeIsCalm(l: Link)
    requires LinkInv(l) && Calm(l) && l.tasks.restProbe.posted.Some?
    ensures l.rest.stage == 1 ==>
              l.st == Resting &&
              var m := ProbeDue(Taken(l, RestProbe)); Silent(m) && m.past.probeStart == l.now
    ensures Undisturbed(l, ProbeDue(Taken(l, RestProbe)))
  {
  }

  /** Events whose loss cannot matter to rest. */
  predicate NoRestTimer(task: TaskId)
  {
    task != RestProbe && task != RestProbeTimeout && task != Disconnect
  }

  lemma TakenIsCalm(l: Link, task: TaskId)
    requires Calm(l) && NoRestTimer(task)
    ensures Undisturbed(l, Taken(l, task))
  {
  }

  lemma FiredIsCalm(l: Link, timer: TaskId)
    requires Calm(l) && Enabled(l, Fire(timer))
    ensures timer != Disconnect && Undisturbed(l, Fired(l, timer))
    ensures timer == RestProbe && l.rest.stage == 1 ==> l.st == Resting
  {
  }

  /** REST_PROBE_TIMEOUT has been kept waiting for less than `delay`. */
  predicate Prompt(l: Link, delay: nat)
  {
    && (l.tasks.restProbeTimeout.posted.Some? ==> l.now - l.tasks.restProbeTimeout.posted.value < delay)
    && (l.tasks.restProbeTimeout.due.Some? ==> l.now - l.tasks.restProbeTimeout.due.value < delay)
  }

  lemma LaterIsCalm(l: Link, ticks: nat)
    requires Calm(l) && Prompt(l.(now := l.now + ticks), MAX_DELAY)
    ensures Undisturbed(l, l.(now := l.now + ticks))
  {
  }

  lemma HandlerIsCalm(l: Link, task: TaskId, started: bool)
    requires LinkInv(l) && Calm(l) && NoRestTimer(task) && task != Start && task != PairTimeout && task != PairRxOff
    ensures Undisturbed(l, Handled(l, task, started))
  {
    hide LinkInv, Undisturbed, Restarted, Broadcast, ConnectedEntered, Responded, QueueDropped, IdleElapsed;
    hide ProbeDue, ProbeTimedOut, StageTwo, Dropped, WindowClosed, PairingOver, Calm;
    ItselfUndisturbed(l);
    match task
    case RxRestart => SearchIsCalm(l);
    case PairBcast => SearchIsCalm(l);
    case EnterConnected => EnterIsCalm(l);
    case Respond => ResponsesAreCalm(l, false, started);
    case DiscardHid => NothingElseIsDue(l);
    case SaveBond =>
    case RestIdle => NothingElseIsDue(l);
    case RestStage2 => StageTwoIsCalm(l);
  }

  lemma ItselfUndisturbed(l: Link)
    requires Calm(l)
    ensures Undisturbed(l, l)
  {
  }

  lemma WindowIsCalm(l: Link)
    requires Calm(l)
    ensures Undisturbed(l, WindowClosed(Taken(l, PairRxOff)))
  {
  }

  lemma NoPairTimeout(l: Link)
    requires LinkInv(l) && Calm(l)
    ensures !l.tasks.pairTimeout.Active() && l.tasks.disconnect.posted.None? && l.tasks.start == OFF
  {
  }

  lemma Chained(l: Link, m: Link, n: Link)
    requires Undisturbed(l, m) && Undisturbed(m, n)
    ensures Undisturbed(l, n)
  {
  }

  lemma ServeIsCalm(l: Link, task: TaskId, started: bool)
    requires LinkInv(l) && Calm(l) && l.tasks.Get(task).posted.Some?
    ensures Undisturbed(l, Handled(Taken(l, task), task, started))
  {
    NoPairTimeout(l);
    hide LinkInv, Undisturbed, Calm, Restarted, Broadcast, ConnectedEntered, Responded, QueueDropped, IdleElapsed;
    hide ProbeDue, ProbeTimedOut, StageTwo, Dropped, WindowClosed, PairingOver;
    if task == PairRxOff {
      WindowIsCalm(l);
    } else if task == RestProbe {
      ProbeIsCalm(l);
    } else if task == RestProbeTimeout {
      TimeoutIsCalm(l);
    } else {
      hide Handled;
      var t := Taken(l, task);
      TakenKeepsInv(l, task);
      TakenIsCalm(l, task);
      UndisturbedIsCalm(l, t);
      HandlerIsCalm(t, task, started);
      Chained(l, t, Handled(t, task, started));
    }
  }

  lemma UndisturbedIsCalm(l: Link, m: Link)
    requires Undisturbed(l, m)
    ensures Calm(m)
  {
  }

  lemma NextIsCalm(l: Link, e: Event)
    requires LinkInv(l) && Calm(l) && !FromHost(e) && (e.Advance? ==> Prompt(l.(now := l.now + e.ticks), MAX_DELAY))
    ensures Undisturbed(l, Next(l, e))
  {
    hide LinkInv, Undisturbed, Calm, Prompt;
    hide Caught15, Polled, TxFinished, TxFailed, TurnedAround, LinkTicked, Handled, RestartPosted;
    hide Reported, Selected2G4, PairingEntered, Left, Unpaired, FactoryPaired, Disconnected, Fired;
    ItselfUndisturbed(l);
    if Enabled(l, e) {
      match e
      case Serve(task, started) => ServeIsCalm(l, task, started);
      case Fire(timer) => FiredIsCalm(l, timer);
      case Rx15(mac, accessAddr, typeTag, offered) => RadioIsCalm(l, mac, accessAddr, typeTag, offered);
      case RxPoll(acks) => ResponsesAreCalm(l, acks, true);
      case RxOther => RadioIsCalm(l, 0, 0, 0, 0);
      case TxFinish => CompletionsAreCalm(l);
      case TxFail => CompletionsAreCalm(l);
      case Turnaround => CompletionsAreCalm(l);
      case Tick(overdue, hops) => TickIsCalm(l, overdue, hops);
      case Advance(ticks) => LaterIsCalm(l, ticks);
    }
  }

  // ---------------------------------------------------------------- a whole rest

  /** No host frame, and no REST_PROBE_TIMEOUT kept waiting for `delay`. */
  predicate LeftToRest(l: Link, events: seq<Event>, delay: nat)
  {
    if events == [] then true
    else
      var n := |events| - 1;
      && LeftToRest(l, events[..n], delay) && !FromHost(events[n])
      && Prompt(Run(l, events), delay)
  }

  lemma {:induction false} RunIsCalm(l: Link, events: seq<Event>)
    requires LinkInv(l) && Calm(l) && LeftToRest(l, events, MAX_DELAY)
    ensures LinkInv(Run(l, events)) && Undisturbed(l, Run(l, events))
  {
    hide LinkInv, Calm, Undisturbed, Next, Prompt;
    if events == [] {
      ItselfUndisturbed(l);
    } else {
      var n := |events| - 1;
      var before := Run(l, events[..n]);
      RunIsCalm(l, events[..n]);
      NextKeepsInv(before, events[n]);
      UndisturbedIsCalm(l, before);
      AdvanceIs(before, events[n]);
      NextIsCalm(before, events[n]);
      Chained(l, before, Next(before, events[n]));
    }
  }

  lemma AdvanceIs(l: Link, e: Event)
    ensures e.Advance? ==> Next(l, e) == l.(now := l.now + e.ticks)
  {
    hide Caught15, Polled, TxFinished, TxFailed, TurnedAround, LinkTicked, Handled, RestartPosted;
    hide Reported, Selected2G4, PairingEntered, Left, Unpaired, FactoryPaired, Disconnected, Fired;
  }

  lemma RestedIsSilent(l: Link, events: seq<Event>)
    requires LinkInv(l) && l.st == Connected && !l.rest.probe && MayRest(l)
    requires LeftToRest(RestEntered(l), events, MAX_DELAY)
    ensures LinkInv(Run(RestEntered(l), events)) && Undisturbed(l, Run(RestEntered(l), events))
  {
    EntryIsCalm(l);
    ConnectedIsBonded(l);
    QuietKeepsInv(l);
    EntryTearsNothing(l);
    hide LinkInv, LeftToRest, Calm;
    RunIsCalm(RestEntered(l), events);
  }

  lemma ConnectedIsBonded(l: Link)
    requires LinkInv(l) && l.st == Connected
    ensures l.bond.hasBond && l.bond.identity
  {
  }

  lemma EntryTearsNothing(l: Link)
    ensures RestEntered(l).past.tornDown == l.past.tornDown && RestEntered(l).past.status == l.past.status
  {
  }

  /** A served REST_IDLE that rests the link found it connected, with no probe running and free to rest. */
  lemma EntersByRestIdle(l: Link, started: bool)
    requires l.st == Connected && l.tasks.restIdle.posted.Some?
    requires Next(l, Serve(RestIdle, started)).st == Resting
    ensures var t := Taken(l, RestIdle);
            && t.st == Connected && !t.rest.probe && MayRest(t)
            && Next(l, Serve(RestIdle, started)) == RestEntered(t)
            && t.past == l.past
  {
    NextIs(l, Serve(RestIdle, started));
    hide Next, RestEntered, Restarted, Broadcast, ConnectedEntered, Responded, Dropped, ProbeDue, ProbeTimedOut;
  }

  /** From rest entry, in any run from boot, to the next host frame, however the radio and the timers
      interleave: no 5B status is sent, supervision tears nothing down and cannot come due, a probe that is
      running started less than 1616 ticks ago and has its 640-tick timeout set, and in stage 1 the next probe
      is armed. */
  lemma RestIsSilentAndNeverStalls(hasBond: bool, mac: int, identity: bool, now: int, before: seq<Event>,
                                   started: bool, events: seq<Event>)
    requires var l := Run(Boot(hasBond, mac, identity, now), before);
             && l.st == Connected && l.tasks.restIdle.posted.Some?
             && Next(l, Serve(RestIdle, started)).st == Resting
             && LeftToRest(Next(l, Serve(RestIdle, started)), events, MAX_DELAY)
    ensures var l := Run(Boot(hasBond, mac, identity, now), before);
            var m := Run(Next(l, Serve(RestIdle, started)), events);
            && m.past.status == l.past.status && m.past.tornDown == l.past.tornDown
            && AtRest(m) && SupervisionFar(m) && ProbeTimed(m) && NextProbeArmed(m)
  {
    hide LinkInv, LeftToRest, Next, MayRest, Run, Boot, Taken, RestEntered, AtRest, SupervisionFar, ProbeTimed;
    hide NextProbeArmed;
    var boot := Boot(hasBond, mac, identity, now);
    BootInv(hasBond, mac, identity, now);
    RunKeepsInv(boot, before);
    var l := Run(boot, before);
    TakenKeepsInv(l, RestIdle);
    EntersByRestIdle(l, started);
    RestedIsSilent(Taken(l, RestIdle), events);
  }

  lemma ProbeIsTimed(l: Link)
    requires LinkInv(l) && Calm(l) && l.rest.stage == 1 && l.tasks.restProbe.posted.Some?
    ensures var m := ProbeDue(Taken(l, RestProbe));
            && m.tasks.restProbe == Task(None, Some(l.now + 1616))
            && m.tasks.restProbeTimeout == Task(None, Some(l.now + 640))
  {
    ProbeIsCalm(l);
  }

  /** ... and that probe, when its event comes, fires in RESTING and begins at once. */
  lemma ProbesFireInResting(l: Link, started: bool)
    requires LinkInv(l) && Calm(l) && l.rest.stage == 1 && l.tasks.restProbe.posted.Some?
    ensures l.st == Resting
    ensures var m := Next(l, Serve(RestProbe, started));
            && Silent(m) && m.past.probeStart == l.now
            && m.tasks.restProbe == Task(None, Some(l.now + 1616))
            && m.tasks.restProbeTimeout == Task(None, Some(l.now + 640))
  {
    ProbeIsCalm(l);
    ProbeIsTimed(l);
    NoPairTimeout(l);
    hide Calm, LinkInv, ProbeDue, Silent, Restarted, Broadcast, ConnectedEntered, Responded, IdleElapsed, Dropped;
    hide Reported, Selected2G4, PairingEntered, Left, Unpaired, FactoryPaired, Disconnected, Fired, LinkTicked;
  }

  /** ... and a probe nothing has ended is ended by its timeout, back in RESTING. */
  lemma TimeoutsEndProbes(l: Link, started: bool)
    requires LinkInv(l) && Calm(l) && l.tasks.restProbeTimeout.posted.Some?
    ensures Silent(l) && Next(l, Serve(RestProbeTimeout, started)).st == Resting
  {
    TimeoutIsCalm(l);
    NoPairTimeout(l);
    hide Calm, LinkInv, ProbeTimedOut, Restarted, Broadcast, ConnectedEntered, Responded, IdleElapsed, Dropped;
    hide Reported, Selected2G4, PairingEntered, Left, Unpaired, FactoryPaired, Disconnected, Fired, LinkTicked;
  }
}
