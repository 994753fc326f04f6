/** What every reachable state of the link keeps: no stale catch, and a radio that is off whenever the module
    may sleep. */
module LinkSafety {
  import opened Words
  import opened ReportRing
  import opened LinkMachine

  // ---------------------------------------------------------------- the invariants, one concern each

  /** The timer will set its bit at `at`, or has. */
  predicate EndsAt(t: Task, at: int) { t == Task(None, Some(at)) || t == Task(Some(at), None) }

  /** The radio is shut wherever the module may sleep; a bonded search has a receiver only with the end of its
      window fixed, six ticks after it opened. */
  predicate RadioInv(l: Link)
  {
    && (CanDeepSleep(l) ==> l.radio == Shut)
    && (l.st == Pairing && l.search.bonded && l.radio == Listening ==> l.search.rxOffArmed)
    && (l.st == Pairing && l.search.bonded && l.search.rxOffArmed ==>
          EndsAt(l.tasks.rxOff, l.past.openedAt + RX_WINDOW_TICKS))
    && (l.st == Pairing && !l.search.rxOffArmed ==> l.tasks.rxOff == OFF)
  }

  predicate FreshCatch(l: Link, c: Catch)
  {
    l.bond.hasBond && c.mac == l.bond.mac && c.epoch == l.past.epoch && 20 <= c.interval <= 40 && c.typeTag < 5
  }

  /** A waiting catch is of the present pairing, from the dongle of the bond. */
  predicate CatchInv(l: Link)
  {
    && (l.tasks.enter.Active() ==> FreshCatch(l, l.pend))
    && (l.st == Connected || l.st == Resting || l.rest.probe || (l.st == Pairing && l.search.bonded) ==> l.bond.hasBond)
    && (l.st != Idle || l.rest.probe ==> l.bond.identity)
  }

  predicate RestInv(l: Link)
  {
    && (l.rest.stage != 0 <==> l.st == Resting || l.rest.probe)
    && (l.rest.probe ==> l.st == Connected || (l.st == Pairing && l.search.bonded))
    && (l.rest.wake ==> l.rest.probe)
    && (l.rest.quietPending ==> Silent(l))
    && (l.st == Resting ==> !l.rest.probe)
    && (l.st == Resting || (l.st == Pairing && l.rest.probe) ==> !l.air.responsePending)
    && (l.st == Resting || l.rest.probe ==> !l.tasks.pairTimeout.Active())
  }

  /** Until START has been served nothing can have happened but the beginning of a first pairing. */
  predicate StartInv(l: Link)
  {
    && l.tasks.start.due.None?
    && (l.tasks.start.posted.Some? ==>
          && l.radio == Shut && l.rest == AWAKE && l.tasks.enter == OFF && !(l.bond.hasBond && l.bond.identity)
          && (l.st == Idle || (l.st == Pairing && !l.search.bonded)))
  }

  predicate LinkInv(l: Link) { RadioInv(l) && CatchInv(l) && RestInv(l) && StartInv(l) }

  lemma BootInv(hasBond: bool, mac: int, identity: bool, now: int)
    ensures LinkInv(Boot(hasBond, mac, identity, now))
  {
  }

  // ---------------------------------------------------------------- interrupts and the tick

  lemma CatchKeepsInv(l: Link, mac: int, accessAddr: u32, typeTag: u8, offered: nat)
    requires LinkInv(l) && l.radio == Listening
    ensures LinkInv(Caught15(l, mac, accessAddr, typeTag, offered))
  {
    RestartPostedKeepsInv(l);
    if !l.bond.hasBond && l.st == Pairing {
      RestartPostedKeepsInv(l.(bond := l.bond.(mac := mac, hasBond := true)));
    }
    var c := Catch(mac, accessAddr, typeTag, Interval(offered), l.past.epoch);
    if FreshCatch(l, c) {
      CatchTakenKeepsInv(l, c);
    }
    hide LinkInv;
  }

  lemma RestartPostedKeepsInv(l: Link)
    requires LinkInv(l)
    ensures LinkInv(RestartPosted(l))
  {
  }

  lemma CatchTakenKeepsInv(l: Link, c: Catch)
    requires LinkInv(l) && FreshCatch(l, c) && l.radio == Listening
    ensures LinkInv(CatchTaken(l, c))
  {
  }

  lemma PollKeepsInv(l: Link, acks: bool)
    requires LinkInv(l)
    ensures LinkInv(Polled(l, acks))
  {
    if l.st == Connected {
      HeardKeepsInv(l, acks);
    } else {
      RestartPostedKeepsInv(l);
    }
    hide LinkInv;
  }

  lemma HeardKeepsInv(l: Link, acks: bool)
    requires LinkInv(l) && l.st == Connected
    ensures LinkInv(Heard(l, acks))
  {
  }

  lemma TxKeepsInv(l: Link)
    requires LinkInv(l)
    ensures LinkInv(TxFinished(l)) && LinkInv(TxFailed(l))
  {
    ResponseDoneKeepsInv(l, AnswerCounted(l));
    ResponseDoneKeepsInv(l, l.rest);
    hide LinkInv;
    RestartPostedKeepsInv(l.(rest := AnswerCounted(l), air := l.air.(responsePending := false)));
    assert l.(rest := l.rest, air := l.air.(responsePending := false)) == l.(air := l.air.(responsePending := false));
    RestartPostedKeepsInv(l.(air := l.air.(responsePending := false)));
  }

  lemma ResponseDoneKeepsInv(l: Link, rest: Rest)
    requires LinkInv(l) && rest.stage == l.rest.stage && rest.probe == l.rest.probe && rest.wake == l.rest.wake
    requires !Silent(l) ==> rest == l.rest
    ensures LinkInv(l.(rest := rest, air := l.air.(responsePending := false)))
  {
  }

  lemma TurnaroundKeepsInv(l: Link)
    requires LinkInv(l)
    ensures LinkInv(TurnedAround(l))
  {
  }

  lemma TickKeepsInv(l: Link, overdue: bool, hops: bool)
    requires LinkInv(l)
    ensures LinkInv(LinkTicked(l, overdue, hops))
  {
    if l.st == Connected && l.rest.quietPending {
      QuietKeepsInv(l);
    }
  }

  lemma FiredKeepsInv(l: Link, timer: TaskId)
    requires LinkInv(l) && l.tasks.Get(timer).due.Some?
    ensures LinkInv(Fired(l, timer))
  {
  }

  // ---------------------------------------------------------------- task handlers

  lemma StartedKeepsInv(l: Link)
    requires LinkInv(l) && l.tasks.start.posted.Some?
    ensures LinkInv(StartedUp(Taken(l, Start)))
  {
  }

  lemma BroadcastKeepsInv(l: Link)
    requires LinkInv(l) && l.tasks.start == OFF
    ensures LinkInv(Broadcast(l))
  {
  }

  lemma RestartKeepsInv(l: Link)
    requires LinkInv(l) && l.tasks.start == OFF
    ensures LinkInv(Restarted(l))
  {
    if l.st == Pairing && l.search.rxOpen {
      if l.search.bonded && !l.search.rxOffArmed {
        WindowOpenedKeepsInv(l);
      } else {
        ListeningKeepsInv(l);
      }
    } else if l.st == Connected {
      ListeningKeepsInv(l);
    }
    hide LinkInv;
  }

  lemma WindowOpenedKeepsInv(l: Link)
    requires LinkInv(l) && l.tasks.start == OFF && l.st == Pairing && l.search.rxOpen && !l.search.rxOffArmed
    ensures LinkInv(WindowOpened(l))
  {
  }

  lemma ListeningKeepsInv(l: Link)
    requires LinkInv(l) && l.tasks.start == OFF
    requires l.st == Connected || (l.st == Pairing && l.search.rxOpen && (l.search.bonded ==> l.search.rxOffArmed))
    ensures LinkInv(l.(radio := Listening))
  {
  }

  lemma WindowClosedKeepsInv(l: Link)
    requires LinkInv(l) && l.tasks.rxOff.posted.Some?
    ensures LinkInv(WindowClosed(Taken(l, PairRxOff)))
  {
  }

  lemma PairingOverKeepsInv(l: Link)
    requires LinkInv(l) && l.tasks.pairTimeout.posted.Some?
    ensures LinkInv(PairingOver(Taken(l, PairTimeout)))
  {
    TakenKeepsInv(l, PairTimeout);
    AbandonedKeepsInv(Taken(l, PairTimeout));
    hide LinkInv;
  }

  lemma AbandonedKeepsInv(l: Link)
    requires LinkInv(l) && !l.rest.probe
    ensures LinkInv(PairingOver(l))
  {
  }

  lemma JoinedKeepsInv(l: Link)
    requires LinkInv(l) && l.st == Pairing && l.bond.hasBond
    ensures LinkInv(Joined(l)) && LinkInv(Announced(Joined(l), [0x32, 0x23]))
  {
  }

  lemma PromotedKeepsInv(l: Link)
    requires LinkInv(l) && l.st == Connected
    ensures LinkInv(Promoted(l))
  {
  }

  lemma IdleArmedKeepsInv(l: Link)
    requires LinkInv(l)
    ensures LinkInv(IdleArmed(l))
  {
  }

  lemma EnterKeepsInv(l: Link)
    requires LinkInv(l) && l.bond.hasBond
    ensures LinkInv(ConnectedEntered(l))
  {
    if l.st == Pairing {
      JoinedKeepsInv(l);
      PromotedKeepsInv(Joined(l));
      IdleArmedKeepsInv(Announced(Joined(l), [0x32, 0x23]));
    }
    hide LinkInv;
  }

  lemma RespondedKeepsInv(l: Link, started: bool)
    requires LinkInv(l)
    ensures LinkInv(Responded(l, started))
  {
  }

  lemma DropKeepsInv(l: Link)
    requires LinkInv(l)
    ensures LinkInv(Dropped(l))
  {
  }

  lemma QueueDroppedKeepsInv(l: Link)
    requires LinkInv(l)
    ensures LinkInv(QueueDropped(l))
  {
  }

  lemma QuietKeepsInv(l: Link)
    requires LinkInv(l) && l.bond.hasBond && l.bond.identity
    ensures l.rest.stage != 0 ==> LinkInv(GoneQuiet(l))
    ensures LinkInv(RestEntered(l))
  {
  }

  lemma RestTimersFree(l: Link, idle: Task, probe: Task, timeout: Task)
    requires LinkInv(l)
    ensures LinkInv(l.(tasks := l.tasks.(restIdle := idle)))
    ensures LinkInv(l.(tasks := l.tasks.(restProbe := probe)))
    ensures LinkInv(l.(tasks := l.tasks.(restProbeTimeout := timeout)))
  {
  }

  lemma IdleElapsedKeepsInv(l: Link)
    requires LinkInv(l)
    ensures LinkInv(IdleElapsed(l))
  {
    if l.st == Connected {
      QuietKeepsInv(l);
      RestTimersFree(l, Armed(l.tasks.restIdle, l.now + REST_IDLE_RETRY_TICKS), OFF, OFF);
    }
    hide LinkInv;
  }

  lemma TimeoutKeepsInv(l: Link)
    requires LinkInv(l)
    ensures LinkInv(ProbeTimedOut(l))
  {
    if l.rest.probe {
      QuietKeepsInv(l);
      RestTimersFree(l, OFF, OFF, Armed(l.tasks.restProbeTimeout, l.now + REST_PROBE_TIMEOUT_TICKS));
    }
    hide LinkInv;
  }

  /** A probe begun at rest, woken by a report or not. */
  lemma ProbeStartedKeepsInv(l: Link, wake: bool)
    requires LinkInv(l) && l.st == Resting
    ensures LinkInv(ProbeStarted(l.(rest := l.rest.(wake := wake))))
  {
  }

  lemma ProbeDueKeepsInv(l: Link)
    requires LinkInv(l)
    ensures LinkInv(ProbeDue(l))
  {
    if l.st == Resting {
      var probe := Armed(l.tasks.restProbe, l.now + REST_PROBE_TICKS);
      RestTimersFree(l, OFF, probe, OFF);
      var m := l.(tasks := l.tasks.(restProbe := probe));
      ProbeStartedKeepsInv(m, false);
      assert m.rest == m.rest.(wake := false);
    }
    hide LinkInv;
  }

  lemma StageTwoKeepsInv(l: Link)
    requires LinkInv(l)
    ensures LinkInv(StageTwo(l))
  {
  }

  /** Taking an event bit loosens only what waits for that event. */
  lemma TakenKeepsInv(l: Link, task: TaskId)
    requires LinkInv(l) && task != PairRxOff
    ensures LinkInv(Taken(l, task))
  {
  }

  lemma ServeKeepsInv(l: Link, task: TaskId, started: bool)
    requires LinkInv(l) && Enabled(l, Serve(task, started))
    ensures LinkInv(Handled(Taken(l, task), task, started))
  {
    var t := Taken(l, task);
    assert task != Start ==> t.tasks.start == OFF;
    if task == EnterConnected {
      assert t.bond.hasBond;
    }
    hide LinkInv;
    if task == Start {
      hide Broadcast, ConnectedEntered, IdleElapsed, ProbeDue, Dropped;
      StartedKeepsInv(l);
    } else if task == PairRxOff {
      hide Broadcast, ConnectedEntered, IdleElapsed, ProbeDue, Dropped;
      WindowClosedKeepsInv(l);
    } else if task == PairTimeout {
      hide Broadcast, ConnectedEntered, IdleElapsed, ProbeDue, Dropped;
      PairingOverKeepsInv(l);
    } else {
      hide Handled;
      TakenKeepsInv(l, task);
      HandlerKeepsInv(t, task, started);
    }
  }

  lemma HandlerKeepsInv(l: Link, task: TaskId, started: bool)
    requires LinkInv(l) && l.tasks.start == OFF && task != Start && task != PairRxOff && task != PairTimeout
    requires task == EnterConnected ==> l.bond.hasBond
    ensures LinkInv(Handled(l, task, started))
  {
    hide LinkInv, Restarted, Broadcast, ConnectedEntered, Responded, QueueDropped, IdleElapsed, ProbeDue;
    hide ProbeTimedOut, StageTwo, Dropped;
    match task
    case RxRestart => RestartKeepsInv(l);
    case PairBcast => BroadcastKeepsInv(l);
    case EnterConnected => EnterKeepsInv(l);
    case Respond => RespondedKeepsInv(l, started);
    case DiscardHid => QueueDroppedKeepsInv(l);
    case SaveBond =>
    case RestIdle => IdleElapsedKeepsInv(l);
    case RestProbe => ProbeDueKeepsInv(l);
    case RestProbeTimeout => TimeoutKeepsInv(l);
    case RestStage2 => StageTwoKeepsInv(l);
    case Disconnect => DropKeepsInv(l);
  }

  // ---------------------------------------------------------------- host requests

  lemma RousedKeepsInv(l: Link)
    requires LinkInv(l)
    ensures LinkInv(Roused(l))
  {
    if l.st == Resting {
      var q := l.(tasks := l.tasks.(restProbe := OFF, restStage2 := OFF));
      assert LinkInv(q);
      ProbeStartedKeepsInv(q, true);
    } else if l.rest.probe {
      WokenKeepsInv(l);
      if l.st == Connected {
        PromotedKeepsInv(l.(rest := l.rest.(wake := true, quietPending := false)));
      }
    } else {
      IdleArmedKeepsInv(l);
    }
    hide LinkInv;
  }

  lemma WokenKeepsInv(l: Link)
    requires LinkInv(l) && l.rest.probe
    ensures LinkInv(l.(rest := l.rest.(wake := true, quietPending := false)))
  {
  }

  lemma ReportedKeepsInv(l: Link, r: Report)
    requires LinkInv(l)
    ensures LinkInv(Reported(l, r))
  {
    var m := Noted(l, r);
    assert LinkInv(m);
    RousedKeepsInv(m);
    hide LinkInv;
  }

  lemma SearchKeepsInv(l: Link)
    requires LinkInv(l) && l.bond.hasBond && l.bond.identity
    ensures LinkInv(BondedSearch(RestCancelled(l)))
  {
  }

  lemma CancelKeepsInv(l: Link)
    requires LinkInv(l) && l.st != Resting
    ensures LinkInv(RestCancelled(l))
  {
  }

  lemma SelectKeepsInv(l: Link)
    requires LinkInv(l)
    ensures LinkInv(Selected2G4(l))
  {
    var c := l.(tasks := l.tasks.(discard := OFF));
    assert LinkInv(c);
    if l.bond.identity {
      if l.st == Connected {
        PromotedKeepsInv(c);
      } else if l.bond.hasBond {
        SearchKeepsInv(c);
      } else {
        CancelKeepsInv(c);
      }
    }
    hide LinkInv;
  }

  lemma PairKeepsInv(l: Link)
    requires LinkInv(l)
    ensures LinkInv(PairingEntered(l))
  {
  }

  lemma LeaveKeepsInv(l: Link)
    requires LinkInv(l)
    ensures LinkInv(Disconnected(l)) && LinkInv(Left(l))
  {
  }

  lemma UnpairKeepsInv(l: Link)
    requires LinkInv(l)
    ensures LinkInv(Unpaired(l))
  {
  }

  lemma HostKeepsInv(l: Link, e: Event)
    requires LinkInv(l) && FromHost(e)
    ensures LinkInv(Next(l, e))
  {
    hide LinkInv, Reported, Selected2G4, PairingEntered, Left, Unpaired, Disconnected, Handled, LinkTicked;
    match e
    case HostReport(r) => ReportedKeepsInv(l, r);
    case HostSelect2G4 => SelectKeepsInv(l);
    case HostPair => PairKeepsInv(l);
    case HostFactoryPair => UnpairKeepsInv(l); PairKeepsInv(Unpaired(l));
    case HostUnpair => UnpairKeepsInv(l);
    case _ => LeaveKeepsInv(l);
  }

  lemma LaterKeepsInv(l: Link, ticks: nat)
    requires LinkInv(l)
    ensures LinkInv(l.(now := l.now + ticks))
  {
  }

  lemma NextKeepsInv(l: Link, e: Event)
    requires LinkInv(l)
    ensures LinkInv(Next(l, e))
  {
    hide LinkInv, Next;
    NextIs(l, e);
    if FromHost(e) {
      HostKeepsInv(l, e);
    } else if Enabled(l, e) {
      hide Caught15, Polled, TxFinished, TxFailed, TurnedAround, LinkTicked, Handled, RestartPosted, Taken, Fired;
      match e
      case Serve(task, started) => ServeKeepsInv(l, task, started);
      case Fire(timer) => FiredKeepsInv(l, timer);
      case Rx15(mac, accessAddr, typeTag, offered) => CatchKeepsInv(l, mac, accessAddr, typeTag, offered);
      case RxPoll(acks) => PollKeepsInv(l, acks);
      case RxOther => RestartPostedKeepsInv(l);
      case TxFinish => TxKeepsInv(l);
      case TxFail => TxKeepsInv(l);
      case Turnaround => TurnaroundKeepsInv(l);
      case Tick(overdue, hops) => TickKeepsInv(l, overdue, hops);
      case Advance(ticks) => LaterKeepsInv(l, ticks);
    }
  }

  lemma {:induction false} RunKeepsInv(l: Link, events: seq<Event>)
    requires LinkInv(l)
    ensures LinkInv(Run(l, events))
  {
    hide LinkInv, Next;
    if events != [] {
      var n := |events| - 1;
      RunKeepsInv(l, events[..n]);
      NextKeepsInv(Run(l, events[..n]), events[n]);
    }
  }

  /** What START does when it is served late: a pairing begun in the meantime ends, its timers left running to no
      purpose; and that is all it can end. */
  lemma StartEndsOnlyAPairing(l: Link, started: bool)
    requires LinkInv(l) && l.tasks.start.posted.Some?
    ensures var m := Next(l, Serve(Start, started));
            && m == Taken(l, Start).(st := Idle)
            && (m.st != l.st <==> l.st == Pairing) && (l.st == Pairing ==> !l.search.bonded)
  {
    StartedLeavesTheRest(l);
    hide LinkInv, Restarted, Broadcast, ConnectedEntered, Responded, QueueDropped, IdleElapsed, ProbeDue;
    hide ProbeTimedOut, StageTwo, Dropped, Reported, Selected2G4, PairingEntered, Left, Unpaired, FactoryPaired;
  }

  lemma StartedLeavesTheRest(l: Link)
    requires LinkInv(l) && l.tasks.start.posted.Some?
    ensures StartedUp(Taken(l, Start)) == Taken(l, Start).(st := Idle)
    ensures l.st == Idle || (l.st == Pairing && !l.search.bonded)
  {
  }

  /** ... which it does when the host asks for a pairing before TMOS has served anything. */
  lemma LateStartEndsAPairing(mac: int, now: int)
    ensures var l := Run(Boot(false, mac, true, now), [HostPair]);
            && l.st == Pairing && l.tasks.pairTimeout.Active() && l.tasks.bcast.posted.Some?
            && Enabled(l, Serve(Start, true))
            && Next(l, Serve(Start, true)).st == Idle
  {
    var boot := Boot(false, mac, true, now);
    assert [HostPair][..0] == [] && Run(boot, []) == boot;
    var l := Run(boot, [HostPair]);
    assert l == PairingEntered(boot);
    BootInv(false, mac, true, now);
    PairKeepsInv(boot);
    StartEndsOnlyAPairing(l, true);
    hide LinkInv, Next;
  }
}
