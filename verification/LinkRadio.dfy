/** Sleepable means radio off: the deep-sleep gate, the duty-cycled listen window of a bonded search, and the
    two together with the idle callback. */
module LinkRadio {
  import opened Words
  import opened ReportRing
  import opened LinkMachine
  import opened LinkSafety
  import PowerSleep

  /** At every handler boundary of every run, the radio is shut wherever RF_CanDeepSleep says so. */
  lemma SleepableMeansShut(hasBond: bool, mac: int, identity: bool, now: int, events: seq<Event>)
    requires CanDeepSleep(Run(Boot(hasBond, mac, identity, now), events))
    ensures Run(Boot(hasBond, mac, identity, now), events).radio == Shut
  {
    BootInv(hasBond, mac, identity, now);
    RunKeepsInv(Boot(hasBond, mac, identity, now), events);
    assert RadioInv(Run(Boot(hasBond, mac, identity, now), events));
  }

  /** The idle callback asks the link about its radio. */
  predicate Reads(i: PowerSleep.Idle, l: Link)
  {
    i.rfIdle == (l.st == Idle) && i.rfCanSleep == CanDeepSleep(l)
  }

  /** CH59x_LowPower never enters deep sleep on a live radio. */
  lemma NoSleepOnALiveRadio(hasBond: bool, mac: int, identity: bool, now: int, events: seq<Event>,
                            p: PowerSleep.Power, deadline: u32, clock: u32, i: PowerSleep.Idle)
    requires Reads(i, Run(Boot(hasBond, mac, identity, now), events))
    requires PowerSleep.IdleCode(p, deadline, clock, i) == 0
    ensures Run(Boot(hasBond, mac, identity, now), events).radio == Shut
  {
    SleepableMeansShut(hasBond, mac, identity, now, events);
  }

  // ---------------------------------------------------------------- the listen window

  predicate WindowShut(l: Link) { l.st == Pairing && l.search.bonded && !l.search.rxOpen }

  predicate WindowOpen(l: Link) { l.st == Pairing && l.search.bonded && l.search.rxOffArmed }

  /** A beacon, the connection a catch leads to, or a host request. */
  predicate ReopensWindow(e: Event)
  {
    FromHost(e) || (e.Serve? && (e.task == PairBcast || e.task == EnterConnected))
  }

  /** Off, and not about to listen by itself. */
  predicate Off(l: Link) { l.radio == Shut && (l.st == Pairing ==> WindowShut(l)) }

  lemma PairingHandlersLeaveOff(l: Link)
    requires WindowShut(l) && l.radio == Shut
    ensures Off(Restarted(l)) && Off(WindowClosed(l)) && Off(PairingOver(l)) && Off(QueueDropped(l))
  {
  }

  lemma RestHandlersLeaveOff(l: Link)
    requires WindowShut(l) && l.radio == Shut
    ensures Off(ProbeTimedOut(l)) && Off(StageTwo(l)) && IdleElapsed(l) == ProbeDue(l) == Dropped(l) == l
  {
  }

  lemma HandlersLeaveOff(l: Link, task: TaskId, started: bool)
    requires WindowShut(l) && l.radio == Shut && task != PairBcast && task != EnterConnected
    ensures Off(Handled(l, task, started))
  {
    hide Restarted, Broadcast, ConnectedEntered, QueueDropped, IdleElapsed, ProbeDue;
    hide ProbeTimedOut, StageTwo, Dropped, WindowClosed, PairingOver;
    PairingHandlersLeaveOff(l);
    RestHandlersLeaveOff(l);
  }

  lemma RadioStaysOff(l: Link)
    requires WindowShut(l) && l.radio == Shut
    ensures Off(RestartPosted(l)) && Off(TxFinished(l)) && Off(TxFailed(l)) && Off(TurnedAround(l))
  {
  }

  lemma TickStaysOff(l: Link, overdue: bool, hops: bool)
    requires WindowShut(l) && l.radio == Shut
    ensures Off(LinkTicked(l, overdue, hops))
  {
  }

  lemma FireStaysOff(l: Link, timer: TaskId, ticks: nat)
    requires WindowShut(l) && l.radio == Shut
    ensures Enabled(l, Fire(timer)) ==> Off(Fired(l, timer))
    ensures Off(l) && Off(l.(now := l.now + ticks))
  {
  }

  lemma TakenStaysShut(l: Link, task: TaskId)
    requires WindowShut(l) && l.radio == Shut
    ensures WindowShut(Taken(l, task)) && Taken(l, task).radio == Shut
  {
  }

  lemma ShutWindowIsOff(l: Link)
    requires LinkInv(l) && WindowShut(l)
    ensures l.radio == Shut
  {
  }

  /** Once closed, the window stays closed: no RX restart, late TX completion or timer opens it. A search that
      ends takes its window with it, and the next one begins with its own open. */
  lemma ClosedWindowStaysClosed(l: Link, e: Event)
    requires LinkInv(l) && WindowShut(l) && !ReopensWindow(e)
    ensures Off(Next(l, e))
  {
    ShutWindowIsOff(l);
    hide LinkInv, Next, Handled, Taken, Fired, TxFinished, TxFailed, TurnedAround, RestartPosted, LinkTicked, Caught15;
    hide Polled, WindowShut, Off;
    NextIs(l, e);
    RadioStaysOff(l);
    match e
    case Serve(task, started) =>
      TakenStaysShut(l, task);
      HandlersLeaveOff(Taken(l, task), task, started);
      FireStaysOff(l, task, 0);
    case Tick(overdue, hops) => TickStaysOff(l, overdue, hops);
    case Fire(timer) => FireStaysOff(l, timer, 0);
    case Advance(ticks) => FireStaysOff(l, RxRestart, ticks);
    case _ => FireStaysOff(l, RxRestart, 0);
  }

  /** No beacon, connection or host request, and the search goes on up to the last of the events. */
  predicate LeftSearching(l: Link, events: seq<Event>)
  {
    if events == [] then true
    else
      var n := |events| - 1;
      LeftSearching(l, events[..n]) && Run(l, events[..n]).st == Pairing && !ReopensWindow(events[n])
  }

  /** ... over whole runs, from the closing of the window to the next beacon, connection or host request, or the
      end of the search: the radio is off throughout, and while the search lasts its window is shut. */
  lemma {:induction false} ClosedUntilReopened(l: Link, events: seq<Event>)
    requires LinkInv(l) && WindowShut(l) && LeftSearching(l, events)
    ensures LinkInv(Run(l, events)) && Off(Run(l, events))
  {
    hide LinkInv, Next;
    if events == [] {
      ShutWindowIsOff(l);
    } else {
      var n := |events| - 1;
      var before := Run(l, events[..n]);
      ClosedUntilReopened(l, events[..n]);
      NextKeepsInv(before, events[n]);
      ClosedWindowStaysClosed(before, events[n]);
    }
  }

  predicate KeepsEnd(l: Link, m: Link) { WindowOpen(m) ==> m.past.openedAt == l.past.openedAt }

  lemma PairingHandlersKeepEnd(l: Link)
    requires WindowOpen(l)
    ensures KeepsEnd(l, Restarted(l)) && KeepsEnd(l, WindowClosed(l)) && KeepsEnd(l, PairingOver(l))
  {
  }

  lemma RestHandlersKeepEnd(l: Link)
    requires WindowOpen(l)
    ensures KeepsEnd(l, ProbeTimedOut(l)) && KeepsEnd(l, StageTwo(l))
    ensures IdleElapsed(l) == ProbeDue(l) == Dropped(l) == l
  {
  }

  lemma HandlersKeepEnd(l: Link, task: TaskId, started: bool)
    requires WindowOpen(l) && task != PairBcast && task != EnterConnected
    ensures KeepsEnd(l, Handled(l, task, started))
  {
    hide Restarted, Broadcast, ConnectedEntered, IdleElapsed, ProbeDue;
    hide ProbeTimedOut, StageTwo, Dropped, WindowClosed, PairingOver;
    PairingHandlersKeepEnd(l);
    RestHandlersKeepEnd(l);
  }

  lemma NextKeepsEnd(l: Link, e: Event)
    requires WindowOpen(l) && !ReopensWindow(e)
    ensures KeepsEnd(l, Next(l, e))
  {
    NextIs(l, e);
    hide Next, Handled;
    if Enabled(l, e) {
      if e.Serve? {
        hide Taken;
        TakenKeepsWindow(l, e.task);
        HandlersKeepEnd(Taken(l, e.task), e.task, e.started);
      } else {
        RadioKeepsEnd(l, e);
      }
    }
  }

  lemma TakenKeepsWindow(l: Link, task: TaskId)
    requires WindowOpen(l)
    ensures WindowOpen(Taken(l, task)) && Taken(l, task).past.openedAt == l.past.openedAt
  {
  }

  lemma RadioKeepsEnd(l: Link, e: Event)
    requires !FromHost(e) && !e.Serve?
    ensures Next(l, e).past.openedAt == l.past.openedAt
  {
    NextIs(l, e);
    hide Next, Handled, Taken, Caught15, Polled, TxFinished, TxFailed, TurnedAround, RestartPosted, LinkTicked, Fired;
    match e
    case Rx15(mac, accessAddr, typeTag, offered) => CatchesKeepTime(l, mac, accessAddr, typeTag, offered);
    case RxPoll(acks) => RadioKeepsTime(l, acks);
    case Tick(overdue, hops) => TickKeepsTime(l, overdue, hops);
    case Fire(timer) => FiredKeepsTime(l, timer);
    case _ => RadioKeepsTime(l, false);
  }

  lemma FiredKeepsTime(l: Link, timer: TaskId)
    ensures Enabled(l, Fire(timer)) ==> Fired(l, timer).past.openedAt == l.past.openedAt
  {
  }

  lemma CatchesKeepTime(l: Link, mac: int, accessAddr: u32, typeTag: u8, offered: nat)
    ensures Caught15(l, mac, accessAddr, typeTag, offered).past.openedAt == l.past.openedAt
  {
    hide RestartPosted, CatchTaken;
  }

  lemma TickKeepsTime(l: Link, overdue: bool, hops: bool)
    ensures LinkTicked(l, overdue, hops).past.openedAt == l.past.openedAt
  {
  }

  lemma RadioKeepsTime(l: Link, acks: bool)
    ensures Polled(l, acks).past.openedAt == RestartPosted(l).past.openedAt == l.past.openedAt
    ensures TxFinished(l).past.openedAt == l.past.openedAt
    ensures TxFailed(l).past.openedAt == TurnedAround(l).past.openedAt == l.past.openedAt
  {
  }

  /** An open window is never extended: whatever comes between, its end stays six ticks after it opened. */
  lemma OpenWindowKeepsItsEnd(l: Link, e: Event)
    requires LinkInv(l) && WindowOpen(l) && !ReopensWindow(e) && WindowOpen(Next(l, e))
    ensures Next(l, e).past.openedAt == l.past.openedAt
    ensures EndsAt(Next(l, e).tasks.rxOff, l.past.openedAt + 6)
  {
    hide Next, LinkInv;
    NextKeepsInv(l, e);
    NextKeepsEnd(l, e);
    OpenWindowHasAnEnd(Next(l, e));
  }

  lemma OpenWindowHasAnEnd(l: Link)
    requires LinkInv(l) && WindowOpen(l)
    ensures EndsAt(l.tasks.rxOff, l.past.openedAt + RX_WINDOW_TICKS)
  {
  }

  /** So the receiver of a bonded search is on for six ticks after a beacon, and as long as TMOS then takes to
      serve the event that ends it. */
  lemma ListeningIsBounded(l: Link, delay: nat)
    requires LinkInv(l) && l.st == Pairing && l.search.bonded && l.radio == Listening
    requires l.tasks.rxOff.posted.Some? ==> l.now - l.tasks.rxOff.posted.value <= delay
    requires l.tasks.rxOff.due.Some? ==> l.now - l.tasks.rxOff.due.value <= delay
    ensures l.now <= l.past.openedAt + 6 + delay
  {
  }
}
