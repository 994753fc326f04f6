/** Rest and the report queue: what rest covers, and the one way a key can be held under it. */
module LinkReports {
  import opened Words
  import opened ReportRing
  import opened LinkMachine
  import opened LinkSafety

  /** Resting, or in a probe the host has not woken. */
  predicate AtRest(l: Link) { l.st == Resting || Silent(l) }

  predicate ReportInv(l: Link)
  {
    && l.q.Valid()
    && (AtRest(l) ==> l.q.entries == [] && !l.q.KeyHeld())
    && (l.q.lastValid <==> l.past.newest.Some? && !l.past.tornDown)
    && (l.q.lastValid ==> l.past.newest == Some(l.q.last))
  }

  // ---------------------------------------------------------------- steps that bring no report

  /** Nothing joins the queue, and what it last held is not forgotten. */
  predicate Lighter(q: Queue, p: Queue)
  {
    p.Valid() && (q.entries == [] ==> p.entries == []) && p.last == q.last && p.lastValid == q.lastValid
  }

  lemma QueueStepsLighten(q: Queue, acks: bool)
    requires q.Valid()
    ensures Lighter(q, q) && Lighter(q, RetiredIf(q, acks)) && Lighter(q, q.(headSent := false))
    ensures Lighter(q, Discarded(q)) && (q.entries != [] ==> Lighter(q, Sent(q)))
  {
  }

  predicate NoNews(l: Link, m: Link)
  {
    m.past.newest == l.past.newest && m.past.tornDown == l.past.tornDown && (AtRest(m) ==> AtRest(l))
  }

  lemma NoNewsKeepsReports(l: Link, m: Link)
    requires ReportInv(l) && NoNews(l, m) && Lighter(l.q, m.q)
    ensures ReportInv(m)
  {
  }

  predicate SameReports(l: Link, m: Link) { NoNews(l, m) && m.q == l.q }

  lemma SameReportsKeepReports(l: Link, m: Link)
    requires ReportInv(l) && SameReports(l, m)
    ensures ReportInv(m)
  {
  }

  lemma RadioStepsAreSame(l: Link, mac: int, accessAddr: u32, typeTag: u8, offered: nat)
    ensures SameReports(l, RestartPosted(l)) && SameReports(l, Caught15(l, mac, accessAddr, typeTag, offered))
    ensures SameReports(l, TxFinished(l)) && SameReports(l, TxFailed(l)) && SameReports(l, TurnedAround(l))
  {
  }

  lemma StartIsSame(l: Link)
    ensures SameReports(l, StartedUp(l))
  {
  }

  lemma RestartIsSame(l: Link)
    ensures SameReports(l, Restarted(l))
  {
    OpenedIsSame(l);
    hide WindowOpened, SameReports;
  }

  lemma OpenedIsSame(l: Link)
    ensures SameReports(l, WindowOpened(l)) && SameReports(l, l.(radio := Listening)) && SameReports(l, l)
  {
  }

  lemma PairingStepsAreSame(l: Link)
    requires RestInv(l)
    ensures SameReports(l, Broadcast(l)) && SameReports(l, WindowClosed(l)) && SameReports(l, PairingOver(l))
  {
  }

  lemma RestStepsAreSame(l: Link)
    requires LinkInv(l)
    ensures SameReports(l, ProbeDue(l)) && SameReports(l, ProbeTimedOut(l)) && SameReports(l, StageTwo(l))
  {
  }

  lemma TickIsSame(l: Link, overdue: bool, hops: bool)
    requires RestInv(l)
    ensures SameReports(l, LinkTicked(l, overdue, hops))
  {
  }

  lemma SelectionsAreSame(l: Link)
    requires RestInv(l)
    ensures SameReports(l, Selected2G4(l)) && SameReports(l, PairingEntered(l))
  {
    PairIsSame(l);
    SelectIsSame(l);
    hide Selected2G4, PairingEntered, SameReports;
  }

  lemma PairIsSame(l: Link)
    requires RestInv(l)
    ensures SameReports(l, PairingEntered(l))
  {
  }

  lemma SelectIsSame(l: Link)
    requires RestInv(l)
    ensures SameReports(l, Selected2G4(l))
  {
  }

  lemma PollIsNoNews(l: Link, acks: bool)
    ensures NoNews(l, Polled(l, acks))
    ensures Polled(l, acks).q == l.q || Polled(l, acks).q == RetiredIf(l.q, acks)
  {
    hide RetiredIf;
  }

  lemma PollKeepsReports(l: Link, acks: bool)
    requires ReportInv(l)
    ensures ReportInv(Polled(l, acks))
  {
    hide Polled;
    PollIsNoNews(l, acks);
    QueueStepsLighten(l.q, acks);
    NoNewsKeepsReports(l, Polled(l, acks));
  }

  lemma ResponseIsNoNews(l: Link, started: bool)
    ensures NoNews(l, Responded(l, started))
    ensures Responded(l, started).q == l.q || (l.q.entries != [] && Responded(l, started).q == Sent(l.q))
  {
  }

  lemma ResponseKeepsReports(l: Link, started: bool)
    requires ReportInv(l)
    ensures ReportInv(Responded(l, started))
  {
    hide Responded;
    ResponseIsNoNews(l, started);
    QueueStepsLighten(l.q, false);
    NoNewsKeepsReports(l, Responded(l, started));
  }

  lemma EnterIsNoNews(l: Link)
    ensures NoNews(l, ConnectedEntered(l))
    ensures ConnectedEntered(l).q == l.q || ConnectedEntered(l).q == l.q.(headSent := false)
  {
    JoinedIsNoNews(l);
    SessionIsNoNews(Joined(l), Announced(Joined(l), [0x32, 0x23]));
    hide Joined, Promoted, IdleArmed;
  }

  lemma JoinedIsNoNews(l: Link)
    ensures NoNews(l, Joined(l)) && Joined(l).q == l.q.(headSent := false) && Joined(l).st == Connected
    ensures NoNews(l, Announced(Joined(l), [0x32, 0x23]))
  {
  }

  lemma SessionIsNoNews(l: Link, m: Link)
    requires l.st == Connected
    ensures SameReports(l, Promoted(l)) && SameReports(m, IdleArmed(m))
  {
  }

  lemma EnterKeepsReports(l: Link)
    requires ReportInv(l)
    ensures ReportInv(ConnectedEntered(l))
  {
    hide ConnectedEntered;
    EnterIsNoNews(l);
    QueueStepsLighten(l.q, false);
    NoNewsKeepsReports(l, ConnectedEntered(l));
  }

  lemma DiscardKeepsReports(l: Link)
    requires ReportInv(l)
    ensures ReportInv(QueueDropped(l))
  {
    QueueStepsLighten(l.q, false);
    NoNewsKeepsReports(l, l.(q := Discarded(l.q)));
    hide ReportInv;
  }

  // ---------------------------------------------------------------- teardown, rest and reports

  lemma TeardownKeepsReports(l: Link)
    requires ReportInv(l) && LinkInv(l)
    ensures ReportInv(Dropped(l)) && ReportInv(Disconnected(l)) && ReportInv(Left(l))
  {
  }

  lemma UnpairKeepsReports(l: Link)
    requires ReportInv(l) && LinkInv(l)
    ensures ReportInv(Unpaired(l))
  {
    TeardownKeepsReports(l);
  }

  lemma TimersAreSame(l: Link, tasks: Tasks)
    ensures SameReports(l, l.(tasks := tasks))
  {
  }

  lemma RestEntryKeepsReports(l: Link)
    requires ReportInv(l) && MayRest(l)
    ensures ReportInv(RestEntered(l))
  {
  }

  lemma IdleKeepsReports(l: Link)
    requires ReportInv(l)
    ensures ReportInv(IdleElapsed(l))
  {
    hide ReportInv, RestEntered, MayRest;
    if MayRest(l) {
      RestEntryKeepsReports(l);
    }
    var retried := l.(tasks := l.tasks.(restIdle := Armed(l.tasks.restIdle, l.now + REST_IDLE_RETRY_TICKS)));
    TimersAreSame(l, retried.tasks);
    SameReportsKeepReports(l, retried);
  }

  lemma HostReportKeepsReports(l: Link, r: Report)
    requires ReportInv(l) && LinkInv(l)
    ensures ReportInv(Reported(l, r)) && !AtRest(Reported(l, r))
  {
    StaysValid(l.q, r);
    RousedIsAwake(Noted(l, r));
    hide Queued, Roused;
  }

  lemma RousedIsAwake(l: Link)
    requires LinkInv(l)
    ensures !AtRest(Roused(l))
    ensures Roused(l).q == l.q && Roused(l).past.newest == l.past.newest && Roused(l).past.tornDown == l.past.tornDown
  {
  }

  // ---------------------------------------------------------------- whole runs

  lemma SideStepsKeepReports(l: Link)
    requires ReportInv(l)
    ensures forall tasks :: ReportInv(l.(tasks := tasks))
    ensures forall now :: ReportInv(l.(now := now))
  {
  }

  lemma HandlerKeepsReports(l: Link, task: TaskId, started: bool)
    requires ReportInv(l) && LinkInv(l) && task != PairTimeout
    ensures ReportInv(Handled(l, task, started))
  {
    PairingStepsAreSame(l);
    hide LinkInv, ReportInv, SameReports, Restarted, Broadcast, ConnectedEntered, Responded, QueueDropped, IdleElapsed;
    hide ProbeDue, ProbeTimedOut, StageTwo, Dropped, WindowClosed, PairingOver, StartedUp;
    match task
    case Start => StartIsSame(l); SameReportsKeepReports(l, StartedUp(l));
    case RxRestart => RestartIsSame(l); SameReportsKeepReports(l, Restarted(l));
    case PairBcast => SameReportsKeepReports(l, Broadcast(l));
    case PairRxOff => SameReportsKeepReports(l, WindowClosed(l));
    case EnterConnected => EnterKeepsReports(l);
    case Respond => ResponseKeepsReports(l, started);
    case DiscardHid => DiscardKeepsReports(l);
    case SaveBond =>
    case RestIdle => IdleKeepsReports(l);
    case RestProbe => RestStepsAreSame(l); SameReportsKeepReports(l, ProbeDue(l));
    case RestProbeTimeout => RestStepsAreSame(l); SameReportsKeepReports(l, ProbeTimedOut(l));
    case RestStage2 => RestStepsAreSame(l); SameReportsKeepReports(l, StageTwo(l));
    case Disconnect => TeardownKeepsReports(l);
  }

  lemma WindowHandlerKeepsReports(l: Link)
    requires ReportInv(l)
    ensures ReportInv(WindowClosed(l)) && (!l.rest.probe ==> ReportInv(PairingOver(l)))
  {
  }

  lemma ServeKeepsReports(l: Link, task: TaskId, started: bool)
    requires ReportInv(l) && LinkInv(l) && l.tasks.Get(task).posted.Some?
    ensures ReportInv(Handled(Taken(l, task), task, started))
  {
    SideStepsKeepReports(l);
    var t := Taken(l, task);
    assert task == PairTimeout ==> !t.rest.probe;
    assert ReportInv(t);
    hide LinkInv, ReportInv;
    if task == PairTimeout || task == PairRxOff {
      hide Broadcast, ConnectedEntered, IdleElapsed, ProbeDue, Dropped, WindowClosed, PairingOver;
      WindowHandlerKeepsReports(t);
    } else {
      hide Handled;
      TakenKeepsInv(l, task);
      HandlerKeepsReports(t, task, started);
    }
  }

  lemma HostKeepsReports(l: Link, e: Event)
    requires ReportInv(l) && LinkInv(l) && FromHost(e)
    ensures ReportInv(Next(l, e))
  {
    hide ReportInv, SameReports, Reported, Selected2G4, PairingEntered, Left, Unpaired, Disconnected, Handled, LinkInv;
    hide Caught15, Polled, TxFinished, TxFailed, TurnedAround, LinkTicked, RestartPosted, Fired, Taken, RestInv;
    InvHasRest(l);
    SelectionsAreSame(l);
    match e
    case HostReport(r) => HostReportKeepsReports(l, r);
    case HostSelect2G4 => SameReportsKeepReports(l, Selected2G4(l));
    case HostPair => SameReportsKeepReports(l, PairingEntered(l));
    case HostUnpair => UnpairKeepsReports(l);
    case HostFactoryPair =>
      UnpairKeepsReports(l);
      UnpairKeepsInv(l);
      InvHasRest(Unpaired(l));
      SelectionsAreSame(Unpaired(l));
      SameReportsKeepReports(Unpaired(l), PairingEntered(Unpaired(l)));
    case _ => TeardownKeepsReports(l);
  }

  lemma NextKeepsReports(l: Link, e: Event)
    requires ReportInv(l) && LinkInv(l)
    ensures ReportInv(Next(l, e))
  {
    if !FromHost(e) && Enabled(l, e) {
      SideStepsKeepReports(l);
      hide Caught15, Polled, TxFinished, TxFailed, TurnedAround, LinkTicked, Handled, RestartPosted;
      hide LinkInv, ReportInv, SameReports;
      match e
      case Serve(task, started) => ServeKeepsReports(l, task, started);
      case Fire(_) =>
      case Rx15(mac, accessAddr, typeTag, offered) =>
        RadioStepsAreSame(l, mac, accessAddr, typeTag, offered);
        SameReportsKeepReports(l, Caught15(l, mac, accessAddr, typeTag, offered));
      case RxPoll(acks) => PollKeepsReports(l, acks);
      case RxOther => RadioStepsAreSame(l, 0, 0, 0, 0); SameReportsKeepReports(l, RestartPosted(l));
      case TxFinish => RadioStepsAreSame(l, 0, 0, 0, 0); SameReportsKeepReports(l, TxFinished(l));
      case TxFail => RadioStepsAreSame(l, 0, 0, 0, 0); SameReportsKeepReports(l, TxFailed(l));
      case Turnaround => RadioStepsAreSame(l, 0, 0, 0, 0); SameReportsKeepReports(l, TurnedAround(l));
      case Tick(overdue, hops) =>
        InvHasRest(l);
        TickIsSame(l, overdue, hops);
        SameReportsKeepReports(l, LinkTicked(l, overdue, hops));
      case Advance(_) =>
    } else if FromHost(e) {
      hide Next, ReportInv, LinkInv;
      HostKeepsReports(l, e);
    }
  }

  lemma InvHasRest(l: Link)
    requires LinkInv(l)
    ensures RestInv(l)
  {
  }

  lemma {:induction false} RunKeepsReports(l: Link, events: seq<Event>)
    requires ReportInv(l) && LinkInv(l)
    ensures ReportInv(Run(l, events)) && LinkInv(Run(l, events))
  {
    hide Next, ReportInv, LinkInv;
    if events != [] {
      var n := |events| - 1;
      RunKeepsReports(l, events[..n]);
      NextKeepsReports(Run(l, events[..n]), events[n]);
      NextKeepsInv(Run(l, events[..n]), events[n]);
    }
  }

  lemma BootReports(hasBond: bool, mac: int, identity: bool, now: int)
    ensures ReportInv(Boot(hasBond, mac, identity, now))
  {
  }

  /** The newest report shows a key held, and no teardown has had the dongle release it since. */
  predicate KeyDown(l: Link) { l.past.newest.Some? && HoldsKey(l.past.newest.value) && !l.past.tornDown }

  /** Resting, and throughout a silent probe, the queue is empty and no key is down, whatever reports, polls and
      completions interleave. */
  lemma RestCoversNothing(hasBond: bool, mac: int, identity: bool, now: int, events: seq<Event>)
    requires AtRest(Run(Boot(hasBond, mac, identity, now), events))
    ensures var l := Run(Boot(hasBond, mac, identity, now), events); l.q.entries == [] && !KeyDown(l)
  {
    BootReports(hasBond, mac, identity, now);
    BootInv(hasBond, mac, identity, now);
    RunKeepsReports(Boot(hasBond, mac, identity, now), events);
  }

  /** When the idle timer rests the link: exactly when nothing is undelivered, no response is out and no key is
      down. A key held since before a teardown does not keep it up. */
  lemma RestsExactlyWhenReleased(l: Link)
    requires ReportInv(l) && LinkInv(l) && l.st == Connected && !l.rest.probe
    ensures IdleElapsed(l).st == Resting <==> l.q.entries == [] && !l.air.responsePending && !KeyDown(l)
  {
    assert l.q.KeyHeld() <==> KeyDown(l);
    hide RestEntered;
    RestEntryRests(l);
  }

  lemma RestEntryRests(l: Link)
    ensures RestEntered(l).st == Resting
  {
  }

  lemma RousingAndPollsCommute(l: Link, acks: bool)
    requires l.st == Connected || l.st == Pairing
    ensures Roused(Polled(l, acks)) == Polled(Roused(l), acks)
  {
    hide RetiredIf;
  }

  /** A poll that strikes the call between its occupancy test and its end leaves what one straight after the call
      does: with whole calls and polls as its events, a run loses no interleaving of the two. */
  lemma PollDuringReport(l: Link, r: Report, acks: bool)
    requires LinkInv(l) && l.radio == Listening
    ensures Roused(Polled(Noted(l, r), acks)) == Next(Next(l, HostReport(r)), RxPoll(acks))
  {
    ListeningStates(l);
    RousingAndPollsCommute(Noted(l, r), acks);
    RousedListens(Noted(l, r));
    hide LinkInv, Roused, Polled, Queued, Handled;
    assert Next(l, HostReport(r)) == Roused(Noted(l, r));
  }

  lemma ListeningStates(l: Link)
    requires LinkInv(l) && l.radio == Listening
    ensures l.st == Connected || l.st == Pairing
  {
  }

  lemma RousedListens(l: Link)
    requires l.st == Connected || l.st == Pairing
    ensures Roused(l).radio == l.radio
  {
  }
}
