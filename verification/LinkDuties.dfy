/** What the link owes by history: an answer to each poll, a saved bond to each session, and a receiver that comes
    back after whatever it sends. */
module LinkDuties {
  import opened Words
  import opened ReportRing
  import opened LinkMachine
  import opened LinkSafety

  /** A run, with what its events say is outstanding. */
  datatype Duty = Duty(
    l: Link,
    owed: bool,       // a poll caught on this connection has no answer finished, failed, refused or given up
    unsaved: bool,    // the last session was announced, or a woken probe's, and nothing has settled its bond since
    onAir: bool,      // the frame being sent has neither finished nor failed
    spent: bool)      // the receiver has taken its frame and has not been set going again

  predicate Caught(l: Link, e: Event) { e.RxPoll? && Enabled(l, e) && l.st == Connected }

  /** The response is owed no longer. */
  predicate Discharges(l: Link, e: Event)
  {
    e.TxFinish? || e.TxFail? || (e.Tick? && e.overdue) || (e.Serve? && e.task == Respond && !e.started && Enabled(l, e))
  }

  /** The bond is saved, or is not to be: a poll, the end of the connection, or the host taking the link away. */
  predicate Settles(l: Link, e: Event)
  {
    || Caught(l, e) || (e.Serve? && e.task == Disconnect && Enabled(l, e) && l.st == Connected)
    || e.HostLeave? || e.Quit? || e.HostUnpair? || (e.HostFactoryPair? && l.bond.identity)
  }

  /** A beacon, or the response that is owed, begins. */
  predicate Begins(d: Duty, e: Event)
  {
    e.Serve? && Enabled(d.l, e) &&
    ((e.task == PairBcast && d.l.st == Pairing) || (e.task == Respond && e.started && d.l.st == Connected && d.owed))
  }

  /** A served restart, a new connection, and a hop set the receiver going; the tick that gives a response up leaves
      that to the hop. */
  predicate Rearms(d: Duty, e: Event)
  {
    || (e.Serve? && (e.task == RxRestart || e.task == EnterConnected) && Enabled(d.l, e))
    || (e.Tick? && d.l.st == Connected && if d.owed then e.overdue else e.hops)
  }

  predicate Receives(l: Link, e: Event) { (e.Rx15? || e.RxPoll? || e.RxOther?) && Enabled(l, e) }

  /** What event e, which leaves the link as m, adds. */
  function After(d: Duty, e: Event, m: Link): Duty
  {
    var l := d.l;
    Duty(m,
         l.st == Connected && m.st == Connected && (Caught(l, e) || (d.owed && !Discharges(l, e))),
         if l.st != Connected && m.st == Connected then !Silent(l) else d.unsaved && !Settles(l, e),
         m.radio == Sending && (Begins(d, e) || (d.onAir && !e.TxFinish? && !e.TxFail?)),
         m.radio == Listening && (Receives(l, e) || (d.spent && !Rearms(d, e))))
  }

  function Owing(d: Duty, e: Event): Duty { After(d, e, Next(d.l, e)) }

  /** The receiver is going, or is set going by a posted restart, or by the end of the frame on the air. */
  predicate Hearing(d: Duty)
  {
    (d.l.radio == Listening && !d.spent) || d.l.tasks.rxRestart.posted.Some? || d.onAir
  }

  /** ... or by the response still to come. */
  predicate HearingLive(d: Duty) { Hearing(d) || (d.l.radio == Listening && d.owed) }

  /** ... or, in a search, by the next beacon or the catch. */
  predicate HearingSearch(d: Duty)
  {
    Hearing(d) || d.l.tasks.bcast.posted.Some? || d.l.tasks.enter.posted.Some?
  }

  predicate DutyInv(d: Duty)
  {
    && (d.l.st == Connected ==> d.l.air.responsePending == d.owed && HearingLive(d))
    && (d.l.st == Pairing && d.l.search.rxOpen ==> HearingSearch(d))
    && d.l.air.bondSavePending == d.unsaved
    && (d.onAir ==> d.l.radio == Sending)
  }

  // ---------------------------------------------------------------- each event keeps it

  /** A step that touches neither the air nor the receiver of a link that stays as it is. */
  predicate Bystander(l: Link, m: Link)
  {
    && m.st == l.st && m.search == l.search && m.radio == l.radio && m.rest.probe == l.rest.probe
    && m.air.responsePending == l.air.responsePending && m.air.bondSavePending == l.air.bondSavePending
    && (l.tasks.rxRestart.posted.Some? ==> m.tasks.rxRestart.posted.Some?)
    && (l.tasks.bcast.posted.Some? ==> m.tasks.bcast.posted.Some?)
    && (l.tasks.enter.posted.Some? ==> m.tasks.enter.posted.Some?)
  }

  predicate Ordinary(e: Event)
  {
    e.Advance? || e.Turnaround? || e.Fire?
  }

  lemma BystanderKeepsDuties(d: Duty, e: Event, m: Link)
    requires DutyInv(d) && Bystander(d.l, m) && Ordinary(e)
    ensures DutyInv(After(d, e, m))
  {
  }

  lemma ReceptionKeepsDuties(d: Duty, mac: int, accessAddr: u32, typeTag: u8, offered: nat)
    requires DutyInv(d)
    ensures d.l.radio == Listening ==>
              DutyInv(After(d, Rx15(mac, accessAddr, typeTag, offered),
                            Caught15(d.l, mac, accessAddr, typeTag, offered)))
    ensures DutyInv(After(d, RxOther, RestartPosted(d.l)))
  {
  }

  lemma AirIsBystander(l: Link, ticks: nat)
    ensures Bystander(l, TurnedAround(l)) && Bystander(l, l.(now := l.now + ticks))
  {
  }

  lemma FireIsBystander(l: Link, timer: TaskId)
    requires Enabled(l, Fire(timer))
    ensures Bystander(l, Fired(l, timer))
  {
  }

  lemma PollKeepsDuties(d: Duty, acks: bool)
    requires DutyInv(d) && Enabled(d.l, RxPoll(acks))
    ensures DutyInv(After(d, RxPoll(acks), Polled(d.l, acks)))
  {
  }

  lemma SentKeepsDuties(d: Duty)
    requires DutyInv(d)
    ensures DutyInv(After(d, TxFinish, TxFinished(d.l))) && DutyInv(After(d, TxFail, TxFailed(d.l)))
  {
  }

  lemma TickKeepsDuties(d: Duty, overdue: bool, hops: bool)
    requires DutyInv(d)
    ensures DutyInv(After(d, Tick(overdue, hops), LinkTicked(d.l, overdue, hops)))
  {
  }

  lemma BeaconKeepsDuties(d: Duty, started: bool)
    requires LinkInv(d.l) && DutyInv(d) && Enabled(d.l, Serve(PairBcast, started))
    ensures DutyInv(After(d, Serve(PairBcast, started), Broadcast(Taken(d.l, PairBcast))))
  {
  }

  lemma RestartKeepsDuties(d: Duty, started: bool)
    requires DutyInv(d) && Enabled(d.l, Serve(RxRestart, started))
    ensures DutyInv(After(d, Serve(RxRestart, started), Restarted(Taken(d.l, RxRestart))))
  {
  }

  lemma ResponseKeepsDuties(d: Duty, started: bool)
    requires DutyInv(d) && Enabled(d.l, Serve(Respond, started))
    ensures DutyInv(After(d, Serve(Respond, started), Responded(Taken(d.l, Respond), started)))
  {
  }

  lemma SearchServesKeepDuties(d: Duty, started: bool)
    requires DutyInv(d)
    ensures DutyInv(After(d, Serve(PairRxOff, started), WindowClosed(Taken(d.l, PairRxOff))))
    ensures DutyInv(After(d, Serve(PairTimeout, started), PairingOver(Taken(d.l, PairTimeout))))
    ensures DutyInv(After(d, Serve(Start, started), StartedUp(Taken(d.l, Start))))
  {
  }

  lemma EnterKeepsDuties(d: Duty, started: bool)
    requires DutyInv(d) && Enabled(d.l, Serve(EnterConnected, started))
    ensures DutyInv(After(d, Serve(EnterConnected, started), ConnectedEntered(Taken(d.l, EnterConnected))))
  {
  }

  lemma RestServesKeepDuties(d: Duty, started: bool)
    requires LinkInv(d.l) && DutyInv(d)
    ensures DutyInv(After(d, Serve(RestIdle, started), IdleElapsed(Taken(d.l, RestIdle))))
    ensures DutyInv(After(d, Serve(RestProbeTimeout, started), ProbeTimedOut(Taken(d.l, RestProbeTimeout))))
  {
  }

  lemma ProbeServesKeepDuties(d: Duty, started: bool)
    requires LinkInv(d.l) && DutyInv(d)
    ensures DutyInv(After(d, Serve(RestProbe, started), ProbeDue(Taken(d.l, RestProbe))))
    ensures DutyInv(After(d, Serve(RestStage2, started), StageTwo(Taken(d.l, RestStage2))))
  {
  }

  lemma PlainServesKeepDuties(d: Duty, started: bool)
    requires DutyInv(d)
    ensures DutyInv(After(d, Serve(DiscardHid, started), QueueDropped(Taken(d.l, DiscardHid))))
    ensures DutyInv(After(d, Serve(SaveBond, started), Taken(d.l, SaveBond)))
  {
  }

  lemma DropKeepsDuties(d: Duty, started: bool)
    requires DutyInv(d) && Enabled(d.l, Serve(Disconnect, started))
    ensures DutyInv(After(d, Serve(Disconnect, started), Dropped(Taken(d.l, Disconnect))))
  {
  }

  lemma ServeKeepsDuties(d: Duty, task: TaskId, started: bool)
    requires LinkInv(d.l) && DutyInv(d) && Enabled(d.l, Serve(task, started))
    ensures DutyInv(After(d, Serve(task, started), Handled(Taken(d.l, task), task, started)))
  {
    hide LinkInv, DutyInv, After, Taken, Enabled;
    hide Restarted, Broadcast, ConnectedEntered, Responded, QueueDropped, IdleElapsed, ProbeDue, StartedUp;
    hide ProbeTimedOut, StageTwo, Dropped, WindowClosed, PairingOver;
    match task
    case PairBcast => BeaconKeepsDuties(d, started);
    case RxRestart => RestartKeepsDuties(d, started);
    case Respond => ResponseKeepsDuties(d, started);
    case EnterConnected => EnterKeepsDuties(d, started);
    case Start => SearchServesKeepDuties(d, started);
    case PairRxOff => SearchServesKeepDuties(d, started);
    case PairTimeout => SearchServesKeepDuties(d, started);
    case DiscardHid => PlainServesKeepDuties(d, started);
    case SaveBond => PlainServesKeepDuties(d, started);
    case Disconnect => DropKeepsDuties(d, started);
    case RestProbe => ProbeServesKeepDuties(d, started);
    case RestStage2 => ProbeServesKeepDuties(d, started);
    case _ => RestServesKeepDuties(d, started);
  }

  lemma ReportKeepsDuties(d: Duty, r: Report)
    requires LinkInv(d.l) && DutyInv(d)
    ensures DutyInv(After(d, HostReport(r), Reported(d.l, r)))
  {
  }

  lemma SelectKeepsDuties(d: Duty)
    requires LinkInv(d.l) && DutyInv(d)
    ensures DutyInv(After(d, HostSelect2G4, Selected2G4(d.l)))
    ensures DutyInv(After(d, HostPair, PairingEntered(d.l)))
  {
  }

  lemma LeaveKeepsDuties(d: Duty, e: Event)
    requires DutyInv(d) && (e.HostLeave? || e.Quit? || e.HostUnpair?)
    ensures DutyInv(After(d, e, Disconnected(d.l))) && DutyInv(After(d, e, Left(d.l)))
    ensures DutyInv(After(d, e, Unpaired(d.l)))
  {
  }

  lemma FactoryKeepsDuties(d: Duty)
    requires DutyInv(d)
    ensures DutyInv(After(d, HostFactoryPair, FactoryPaired(d.l)))
  {
  }

  // ---------------------------------------------------------------- whole runs

  lemma HostKeepsDuties(d: Duty, e: Event)
    requires LinkInv(d.l) && DutyInv(d) && FromHost(e)
    ensures DutyInv(Owing(d, e))
  {
    hide Reported, Selected2G4, PairingEntered, Left, Unpaired, FactoryPaired, Disconnected, Handled;
    hide LinkInv, DutyInv, After;
    NextOfHost(d.l, e);
    hide Next;
    match e
    case HostReport(r) => ReportKeepsDuties(d, r);
    case HostSelect2G4 => SelectKeepsDuties(d);
    case HostPair => SelectKeepsDuties(d);
    case HostFactoryPair => FactoryKeepsDuties(d);
    case _ => LeaveKeepsDuties(d, e);
  }

  lemma TimeKeepsDuties(d: Duty, e: Event)
    requires DutyInv(d) && Enabled(d.l, e) && Ordinary(e)
    ensures DutyInv(Owing(d, e))
  {
    NextIs(d.l, e);
    AirIsBystander(d.l, if e.Advance? then e.ticks else 0);
    if e.Fire? {
      FireIsBystander(d.l, e.timer);
    }
    hide Next, TurnedAround, DutyInv, Bystander, After, Fired;
    BystanderKeepsDuties(d, e, Next(d.l, e));
  }

  lemma DisabledKeepsDuties(d: Duty, e: Event)
    requires DutyInv(d) && !Enabled(d.l, e)
    ensures DutyInv(After(d, e, d.l))
  {
  }

  lemma CatchListens(l: Link, e: Event)
    requires e.Rx15? && Enabled(l, e)
    ensures l.radio == Listening
  {
  }

  lemma NextKeepsDuties(d: Duty, e: Event)
    requires LinkInv(d.l) && DutyInv(d)
    ensures DutyInv(Owing(d, e))
  {
    NextIs(d.l, e);
    if e.Rx15? && Enabled(d.l, e) {
      CatchListens(d.l, e);
    }
    hide LinkInv, DutyInv, After, Next, Enabled, Handled, Taken, Fired, Caught15, Polled, TxFinished, TxFailed;
    hide TurnedAround, LinkTicked, RestartPosted;
    if FromHost(e) {
      HostKeepsDuties(d, e);
    } else if !Enabled(d.l, e) {
      DisabledKeepsDuties(d, e);
    } else {
      match e
      case Serve(task, started) => ServeKeepsDuties(d, task, started);
      case RxPoll(acks) => PollKeepsDuties(d, acks);
      case TxFinish => SentKeepsDuties(d);
      case TxFail => SentKeepsDuties(d);
      case Tick(overdue, hops) => TickKeepsDuties(d, overdue, hops);
      case Rx15(mac, accessAddr, typeTag, offered) => ReceptionKeepsDuties(d, mac, accessAddr, typeTag, offered);
      case RxOther => ReceptionKeepsDuties(d, 0, 0, 0, 0);
      case _ => TimeKeepsDuties(d, e);
    }
  }

  function OwingRun(d: Duty, events: seq<Event>): Duty
  {
    if events == [] then d else Owing(OwingRun(d, events[..|events| - 1]), events[|events| - 1])
  }

  lemma {:induction false} RunKeepsDuties(d: Duty, events: seq<Event>)
    requires LinkInv(d.l) && DutyInv(d)
    ensures var c := OwingRun(d, events); LinkInv(c.l) && DutyInv(c) && c.l == Run(d.l, events)
  {
    if events != [] {
      hide LinkInv, DutyInv, Next;
      var n := |events| - 1;
      RunKeepsDuties(d, events[..n]);
      NextKeepsInv(OwingRun(d, events[..n]).l, events[n]);
      NextKeepsDuties(OwingRun(d, events[..n]), events[n]);
    }
  }

  /** Over every run from boot. A response is pending on a live link if and only if one is owed, and the bond's save
      if and only if the last session was not a silent probe's and nothing has settled it; a poll posts that save. The
      receiver is going, or is set going by what is posted, on the air or owed, and in an open window by the next
      beacon or the catch; a hop sets it going at once. */
  lemma DutiesByHistory(hasBond: bool, mac: int, identity: bool, now: int, events: seq<Event>, acks: bool,
                        overdue: bool)
    ensures var d := OwingRun(Duty(Boot(hasBond, mac, identity, now), false, false, false, false), events);
            && d.l == Run(Boot(hasBond, mac, identity, now), events)
            && (d.l.st == Connected ==> (d.l.air.responsePending <==> d.owed) && HearingLive(d))
            && (d.l.air.bondSavePending <==> d.unsaved)
            && (d.l.st == Connected && d.l.radio == Listening ==>
                  (Next(d.l, RxPoll(acks)).tasks.saveBond.posted.Some? <==>
                     d.l.tasks.saveBond.posted.Some? || d.unsaved))
            && (d.l.st == Pairing && d.l.search.rxOpen ==> HearingSearch(d))
            && (d.l.st == Connected && (overdue || !d.owed) && Next(d.l, Tick(overdue, true)).st == Connected ==>
                  Next(d.l, Tick(overdue, true)).radio == Listening)
  {
    BootInv(hasBond, mac, identity, now);
    var d := Duty(Boot(hasBond, mac, identity, now), false, false, false, false);
    assert DutyInv(d);
    RunKeepsDuties(d, events);
    NextIs(OwingRun(d, events).l, RxPoll(acks));
    NextIs(OwingRun(d, events).l, Tick(overdue, true));
    hide LinkInv, Next, Hearing;
  }
}
