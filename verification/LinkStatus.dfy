/** What the link tells the keyboard MCU, whose bond it keeps, and which frames it acts on: each step both ways. */
module LinkStatus {
  import opened Words
  import opened ReportRing
  import opened LinkMachine
  import opened LinkSafety

  /** The 5B bytes an event sends: a session that is not a probe's is announced, one that supervision ends is
      reported, and nothing else is said. */
  function Said(l: Link, e: Event, m: Link): seq<u8>
  {
    if l.st != Connected && m.st == Connected && !l.rest.probe then [0x32, 0x23]
    else if e.Serve? && e.task == Disconnect && l.st == Connected && m.st != Connected then [0x33]
    else []
  }

  /** A LEN-15 that an unbonded pairing takes for its dongle. */
  predicate Adopts(l: Link, e: Event)
  {
    e.Rx15? && l.radio == Listening && l.st == Pairing && !l.bond.hasBond && e.typeTag < 5
  }

  /** A LEN-15 of the bonded dongle with an interval the hop can follow. */
  predicate Accepts(l: Link, e: Event)
  {
    && e.Rx15? && l.radio == Listening && l.st == Pairing && l.bond.hasBond && e.rxMac == l.bond.mac
    && e.typeTag < 5 && (e.offered == 0 || 20 <= e.offered <= 40)
  }

  /** What it offers, an interval of none meaning 28. */
  function Offer(l: Link, e: Event): Catch
    requires e.Rx15?
  {
    Catch(e.rxMac, e.accessAddr, e.typeTag, if e.offered == 0 then 28 else e.offered, l.past.epoch)
  }

  predicate Unbonds(l: Link, e: Event) { e.HostUnpair? || (e.HostFactoryPair? && l.bond.identity) }

  function BondAfter(l: Link, e: Event): Bond
  {
    if Adopts(l, e) then Bond(true, e.rxMac, l.bond.identity)
    else if Unbonds(l, e) then Bond(false, 0, l.bond.identity)
    else l.bond
  }

  /** Says nothing and keeps the bond. */
  predicate Mute(l: Link, m: Link)
  {
    m.past.status == l.past.status && m.bond == l.bond && (m.st == Connected ==> l.st == Connected)
  }

  lemma AirIsMute(l: Link, acks: bool)
    ensures Mute(l, RestartPosted(l)) && Mute(l, Polled(l, acks)) && Mute(l, TxFinished(l)) && Mute(l, TxFailed(l))
    ensures Mute(l, TurnedAround(l))
  {
  }

  lemma TickIsMute(l: Link, overdue: bool, hops: bool)
    ensures Mute(l, LinkTicked(l, overdue, hops))
  {
  }

  lemma HandlersAreMute(l: Link, task: TaskId, started: bool)
    requires task != EnterConnected && task != Disconnect
    ensures Mute(l, Handled(l, task, started))
  {
    SearchHandlersAreMute(l);
    RestHandlersAreMute(l, started);
    hide Mute, Restarted, Broadcast, ConnectedEntered, Responded, QueueDropped, IdleElapsed, ProbeDue, StartedUp;
    hide ProbeTimedOut, StageTwo, Dropped, WindowClosed, PairingOver;
  }

  lemma SearchHandlersAreMute(l: Link)
    ensures Mute(l, Restarted(l)) && Mute(l, Broadcast(l)) && Mute(l, WindowClosed(l)) && Mute(l, PairingOver(l))
    ensures Mute(l, StartedUp(l)) && Mute(l, QueueDropped(l)) && Mute(l, l)
  {
  }

  lemma RestHandlersAreMute(l: Link, started: bool)
    ensures Mute(l, IdleElapsed(l)) && Mute(l, ProbeDue(l)) && Mute(l, ProbeTimedOut(l)) && Mute(l, StageTwo(l))
    ensures Mute(l, Responded(l, started))
  {
  }

  lemma HostIsMute(l: Link, r: Report)
    ensures Mute(l, Reported(l, r)) && Mute(l, Selected2G4(l)) && Mute(l, PairingEntered(l)) && Mute(l, Left(l))
    ensures Mute(l, Disconnected(l))
  {
  }

  lemma UnpairingUnbonds(l: Link)
    ensures var m := Unpaired(l);
            m.bond == Bond(false, 0, l.bond.identity) && m.past.status == l.past.status && m.st != Connected
    ensures var m := FactoryPaired(l);
            && m.bond == (if l.bond.identity then Bond(false, 0, l.bond.identity) else l.bond)
            && m.past.status == l.past.status && (m.st == Connected ==> l.st == Connected)
  {
  }

  lemma CatchesBond(l: Link, e: Event)
    requires e.Rx15? && l.radio == Listening
    ensures var m := Caught15(l, e.rxMac, e.accessAddr, e.typeTag, e.offered);
            && m.bond == BondAfter(l, e) && m.past.status == l.past.status && m.st == l.st
            && (Accepts(l, e) ==> m.tasks.enter.posted.Some? && m.pend == Offer(l, e))
  {
  }

  lemma SessionsAreAnnounced(l: Link)
    ensures var m := ConnectedEntered(Taken(l, EnterConnected));
            && m.past.status == l.past.status + (if l.st == Pairing && !l.rest.probe then [0x32, 0x23] else [])
            && m.bond == l.bond && (l.st == Pairing ==> m.st == Connected && m.session == l.pend)
            && (l.st != Pairing ==> m.st == l.st)
  {
  }

  lemma DropsAreReported(l: Link)
    ensures var m := Dropped(Taken(l, Disconnect));
            && m.past.status == l.past.status + (if l.st == Connected then [0x33] else [])
            && m.bond == l.bond && m.st == (if l.st == Connected then Idle else l.st)
  {
  }

  lemma ServedSays(l: Link, task: TaskId, started: bool)
    requires Enabled(l, Serve(task, started))
    ensures var m := Handled(Taken(l, task), task, started);
            && m.past.status == l.past.status + Said(l, Serve(task, started), m)
            && m.bond == l.bond
            && (task == EnterConnected && l.st == Pairing ==> m.st == Connected && m.session == l.pend)
  {
    SessionsAreAnnounced(l);
    DropsAreReported(l);
    TakenIsMute(l, task);
    if task != EnterConnected && task != Disconnect {
      HandlersAreMute(Taken(l, task), task, started);
      hide Handled;
    }
    hide Restarted, Broadcast, ConnectedEntered, Responded, QueueDropped, IdleElapsed, ProbeDue, StartedUp;
    hide ProbeTimedOut, StageTwo, Dropped, WindowClosed, PairingOver, Taken;
  }

  lemma TakenIsMute(l: Link, task: TaskId)
    ensures Mute(l, Taken(l, task)) && Taken(l, task).st == l.st
  {
  }

  /** For every event in every state: the bytes sent to the keyboard MCU are those of `Said`, the bond changes by an
      adoption or an unpairing and by nothing else, a good LEN-15 always posts its catch, and a posted catch served
      while pairing always connects to what was caught. */
  lemma EveryStepAccounted(l: Link, e: Event)
    ensures var m := Next(l, e);
            && m.past.status == l.past.status + Said(l, e, m)
            && m.bond == BondAfter(l, e)
            && (Accepts(l, e) ==> m.tasks.enter.posted.Some? && m.pend == Offer(l, e))
            && (e.Serve? && e.task == EnterConnected && Enabled(l, e) && l.st == Pairing ==>
                  m.st == Connected && m.session == l.pend)
  {
    NextIs(l, e);
    hide Next, Handled, Taken, Caught15, Polled, TxFinished, TxFailed, TurnedAround, LinkTicked, RestartPosted, Fired;
    if FromHost(e) {
      HostAccounted(l, e);
    } else if Enabled(l, e) {
      AirIsMute(l, e.RxPoll? && e.acks);
      match e
      case Serve(task, started) => ServedSays(l, task, started);
      case Rx15(_, _, _, _) => CatchesBond(l, e);
      case Tick(overdue, hops) => TickIsMute(l, overdue, hops);
      case Fire(timer) => FiredIsMute(l, timer);
      case _ =>
    }
  }

  lemma FiredIsMute(l: Link, timer: TaskId)
    requires Enabled(l, Fire(timer))
    ensures Mute(l, Fired(l, timer))
  {
  }

  lemma HostAccounted(l: Link, e: Event)
    requires FromHost(e)
    ensures var m := Next(l, e);
            m.past.status == l.past.status + Said(l, e, m) && m.bond == BondAfter(l, e)
  {
    hide Reported, Selected2G4, PairingEntered, Left, Unpaired, FactoryPaired, Disconnected, Handled;
    NextOfHost(l, e);
    hide Next;
    if e.HostUnpair? || e.HostFactoryPair? {
      UnpairingUnbonds(l);
    } else {
      HostIsMute(l, if e.HostReport? then e.r else NO_KEYS);
    }
  }
}
