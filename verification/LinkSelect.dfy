/** What a selection of 2.4 GHz comes to: a bonded link that only supervision, or the host itself, can end. */
module LinkSelect {
  import opened Words
  import opened ReportRing
  import opened LinkMachine
  import opened LinkSafety
  import LinkStatus

  /** The host asks for nothing but 2.4 GHz. */
  predicate StaysSelected(e: Event)
  {
    !e.HostPair? && !e.HostLeave? && !e.HostUnpair? && !e.HostFactoryPair? && !e.Quit?
  }

  predicate AllStaySelected(events: seq<Event>)
  {
    events == [] || (AllStaySelected(events[..|events| - 1]) && StaysSelected(events[|events| - 1]))
  }

  predicate Bonded(l: Link) { l.bond.hasBond && l.bond.identity && l.tasks.start == OFF }

  /** Connected, resting, or searching for its own dongle with no end to the search. */
  predicate Up(l: Link)
  {
    Bonded(l) && l.st != Idle && (l.st == Pairing ==> l.search.bonded && l.tasks.pairTimeout == OFF)
  }

  /** Supervision ends it, and the keyboard MCU is told. */
  predicate Reported33(l: Link, m: Link)
  {
    m.past.status == l.past.status + [0x33]
  }

  lemma SelectingBringsUp(l: Link)
    requires Bonded(l)
    ensures Up(Selected2G4(l)) && Selected2G4(l).past.status == l.past.status
    ensures l.st == Connected ==> Selected2G4(l).st == Connected && Selected2G4(l).session == l.session
    ensures !Selected2G4(l).rest.probe || l.st == Pairing
  {
  }

  lemma AirKeepsUp(l: Link, acks: bool, overdue: bool, hops: bool)
    requires Up(l)
    ensures Up(RestartPosted(l)) && Up(Polled(l, acks)) && Up(TxFinished(l)) && Up(TxFailed(l)) && Up(TurnedAround(l))
    ensures Up(LinkTicked(l, overdue, hops))
  {
  }

  lemma CatchKeepsUp(l: Link, mac: int, accessAddr: u32, typeTag: u8, offered: nat)
    requires Up(l)
    ensures Up(Caught15(l, mac, accessAddr, typeTag, offered))
  {
  }

  lemma FireKeepsUp(l: Link, timer: TaskId)
    requires Up(l) && Enabled(l, Fire(timer))
    ensures Up(Fired(l, timer))
  {
  }

  lemma SearchServesKeepUp(l: Link, started: bool)
    requires Up(l)
    ensures Up(Restarted(l)) && Up(Broadcast(l)) && Up(WindowClosed(l)) && Up(ConnectedEntered(l))
    ensures Up(Responded(l, started)) && Up(QueueDropped(l))
  {
  }

  lemma RestServesKeepUp(l: Link)
    requires Up(l)
    ensures Up(IdleElapsed(l)) && Up(ProbeDue(l)) && Up(ProbeTimedOut(l)) && Up(StageTwo(l))
  {
  }

  lemma ServeKeepsUp(l: Link, task: TaskId, started: bool)
    requires Up(l) && task != Start && task != PairTimeout && task != Disconnect
    ensures Up(Handled(l, task, started))
  {
    SearchServesKeepUp(l, started);
    RestServesKeepUp(l);
    hide Up, Restarted, Broadcast, ConnectedEntered, Responded, QueueDropped, IdleElapsed, ProbeDue, StartedUp;
    hide ProbeTimedOut, StageTwo, Dropped, WindowClosed, PairingOver;
  }

  lemma TakenKeepsUp(l: Link, task: TaskId)
    requires Up(l)
    ensures Up(Taken(l, task)) && Taken(l, task).past == l.past && Taken(l, task).st == l.st
  {
  }

  lemma NotTimedOut(l: Link, task: TaskId, started: bool)
    requires Up(l) && Enabled(l, Serve(task, started)) && (task == Start || task == PairTimeout)
    ensures Up(Handled(Taken(l, task), task, started))
  {
  }

  lemma DropEndsUp(l: Link, started: bool)
    requires Up(l)
    ensures var m := Handled(Taken(l, Disconnect), Disconnect, started); Up(m) || Reported33(l, m)
  {
  }

  lemma ReportKeepsUp(l: Link, r: Report)
    requires LinkInv(l) && Up(l)
    ensures Up(Reported(l, r))
  {
  }

  lemma StepKeepsUp(l: Link, e: Event)
    requires LinkInv(l) && Up(l) && StaysSelected(e)
    ensures Up(Next(l, e)) || Reported33(l, Next(l, e))
  {
    hide Up, LinkInv, Reported33, Handled, Reported, Selected2G4, PairingEntered, Left, Unpaired, FactoryPaired;
    hide Disconnected, Taken, Caught15, Polled, TxFinished, TxFailed, TurnedAround, LinkTicked, RestartPosted, Fired;
    NextIs(l, e);
    AirKeepsUp(l, e.RxPoll? && e.acks, e.Tick? && e.overdue, e.Tick? && e.hops);
    if FromHost(e) {
      NextOfHost(l, e);
      UpIsBonded(l);
      SelectingBringsUp(l);
      ReportKeepsUp(l, if e.HostReport? then e.r else NO_KEYS);
    } else if e.Serve? && Enabled(l, e) {
      ServedUp(l, e.task, e.started);
    } else if e.Rx15? {
      CatchKeepsUp(l, e.rxMac, e.accessAddr, e.typeTag, e.offered);
    } else if e.Fire? && Enabled(l, e) {
      FireKeepsUp(l, e.timer);
    } else if e.Advance? {
      LaterKeepsUp(l, e.ticks);
    }
    hide Next, Enabled, Bonded;
  }

  lemma UpIsBonded(l: Link)
    requires Up(l)
    ensures Bonded(l)
  {
  }

  lemma LaterKeepsUp(l: Link, ticks: nat)
    requires Up(l)
    ensures Up(l.(now := l.now + ticks))
  {
  }

  lemma ServedUp(l: Link, task: TaskId, started: bool)
    requires Up(l) && Enabled(l, Serve(task, started))
    ensures var m := Handled(Taken(l, task), task, started); Up(m) || Reported33(l, m)
  {
    if task == Start || task == PairTimeout {
      NotTimedOut(l, task, started);
    } else if task == Disconnect {
      DropEndsUp(l, started);
    } else {
      TakenKeepsUp(l, task);
      ServeKeepsUp(Taken(l, task), task, started);
    }
    hide Up, Handled, Taken, Reported33;
  }

  // ---------------------------------------------------------------- whole runs

  /** Up, or told since there were n status bytes that it is not. */
  predicate UpOrTold(l: Link, n: nat) { |l.past.status| >= n && (Up(l) || 0x33 in l.past.status[n..]) }

  lemma ToldKeeps(l: Link, m: Link, n: nat, said: seq<u8>)
    requires UpOrTold(l, n) && m.past.status == l.past.status + said
    ensures |m.past.status| >= n && (0x33 in l.past.status[n..] ==> 0x33 in m.past.status[n..])
    ensures said == [0x33] ==> 0x33 in m.past.status[n..]
  {
    assert m.past.status[n..] == l.past.status[n..] + said;
  }

  lemma StepKeepsUpOrTold(l: Link, e: Event, n: nat)
    requires LinkInv(l) && UpOrTold(l, n) && StaysSelected(e)
    ensures UpOrTold(Next(l, e), n)
  {
    hide Next, Up, LinkInv;
    LinkStatus.EveryStepAccounted(l, e);
    ToldKeeps(l, Next(l, e), n, LinkStatus.Said(l, e, Next(l, e)));
    if Up(l) {
      StepKeepsUp(l, e);
      if !Up(Next(l, e)) {
        ToldKeeps(l, Next(l, e), n, [0x33]);
      }
    }
    hide LinkStatus.Said;
  }

  lemma {:induction false} RunKeepsUpOrTold(l: Link, events: seq<Event>, n: nat)
    requires LinkInv(l) && UpOrTold(l, n) && AllStaySelected(events)
    ensures LinkInv(Run(l, events)) && UpOrTold(Run(l, events), n)
  {
    if events != [] {
      hide LinkInv, UpOrTold, Next;
      var k := |events| - 1;
      RunKeepsUpOrTold(l, events[..k], n);
      NextKeepsInv(Run(l, events[..k]), events[k]);
      StepKeepsUpOrTold(Run(l, events[..k]), events[k], n);
    }
  }

  /** Over every run from boot: once a bonded keyboard has selected 2.4 GHz, then, however the radio, the timers and
      its reports come, it is connected, resting, or in a bonded search without an end, until the MCU has been sent a
      5B 33. A live link is not disturbed by the selection, and a rest probe becomes the session. */
  lemma SelectedUntilReported(hasBond: bool, mac: int, identity: bool, now: int, before: seq<Event>,
                              events: seq<Event>)
    requires Bonded(Run(Boot(hasBond, mac, identity, now), before)) && AllStaySelected(events)
    ensures var l := Run(Boot(hasBond, mac, identity, now), before);
            var m := Run(Next(l, HostSelect2G4), events);
            && |m.past.status| >= |l.past.status|
            && (|| 0x33 in m.past.status[|l.past.status|..]
                || (m.st != Idle && (m.st == Pairing ==> m.search.bonded && !m.tasks.pairTimeout.Active())))
    ensures var l := Run(Boot(hasBond, mac, identity, now), before);
            l.st == Connected ==>
              Next(l, HostSelect2G4).st == Connected && Next(l, HostSelect2G4).session == l.session &&
              !Next(l, HostSelect2G4).rest.probe
  {
    var l := Run(Boot(hasBond, mac, identity, now), before);
    BootInv(hasBond, mac, identity, now);
    RunKeepsInv(Boot(hasBond, mac, identity, now), before);
    NextKeepsInv(l, HostSelect2G4);
    NextOfHost(l, HostSelect2G4);
    SelectingBringsUp(l);
    hide LinkInv, Next, Selected2G4, Boot;
    RunKeepsUpOrTold(Next(l, HostSelect2G4), events, |l.past.status|);
  }
}
