/** The link's timers by history: supervision counts from the last poll the main loop has seen, a search never stops
    beaconing, and a live link rests only when its host has been quiet. */
module LinkTimers {
  import opened Words
  import opened ReportRing
  import opened LinkMachine
  import opened LinkSafety

  /** A run, with what its events say of polls and activity. */
  datatype Watch = Watch(
    l: Link,
    polled: bool,        // a poll has been caught on a live link since the main loop's last tick on one
    restartedAt: int,    // the last of: a connection, a tick that found a poll, a probe that became the session
    activeAt: int)       // the last of: a session begun, a report from the host on it

  predicate Connects(l: Link, m: Link) { l.st != Connected && m.st == Connected }

  predicate Promotes(l: Link, m: Link) { l.st == Connected && m.st == Connected && l.rest.probe && !m.rest.probe }

  /** What event e, which leaves the link as m, adds. */
  function After(w: Watch, e: Event, m: Link): Watch
  {
    var l, live := w.l, w.l.st == Connected;
    Watch(m,
          if e.RxPoll? && Enabled(l, e) && live then true
          else if (e.Tick? && live) || (m.st == Resting && l.st != Resting) then false
          else w.polled,
          if Connects(l, m) || Promotes(l, m) || (e.Tick? && live && m.st == Connected && w.polled) then l.now
          else w.restartedAt,
          if (Connects(l, m) && !m.rest.probe) || Promotes(l, m) || (e.HostReport? && m.st == Connected) then l.now
          else w.activeAt)
  }

  function Watched(w: Watch, e: Event): Watch { After(w, e, Next(w.l, e)) }

  /** The timer's event comes up at `at`, or has. */
  predicate RunsTo(l: Link, t: Task, at: int)
  {
    t == Task(None, Some(at)) || (t == Task(Some(at), None) && at <= l.now)
  }

  predicate SupervisionInv(w: Watch)
  {
    && w.polled == w.l.air.kick
    && if w.l.st == Connected then RunsTo(w.l, w.l.tasks.disconnect, w.restartedAt + 5000)
       else w.l.tasks.disconnect == OFF
  }

  predicate BeaconInv(l: Link)
  {
    l.st == Pairing ==>
      l.tasks.bcast.posted.Some? || (l.tasks.bcast.due.Some? && l.tasks.bcast.due.value <= l.now + 32)
  }

  /** A first pairing listens throughout and has its end running out; a bonded search has none. */
  predicate WindowInv(l: Link)
  {
    l.st == Pairing ==>
      if l.search.bonded then l.tasks.pairTimeout == OFF
      else l.search.rxOpen &&
           (l.tasks.pairTimeout.posted.Some? ||
            (l.tasks.pairTimeout.due.Some? && l.tasks.pairTimeout.due.value <= l.now + 8480))
  }

  /** A probe has its timeout running out, stage 1 its end, and in stage 2 there are no more probes. */
  predicate RestTimersInv(l: Link)
  {
    && (l.rest.probe ==>
          l.tasks.restProbeTimeout.posted.Some? ||
          (l.tasks.restProbeTimeout.due.Some? && l.tasks.restProbeTimeout.due.value <= l.now + 640))
    && (l.rest.stage == 1 && !l.rest.wake ==>
          l.tasks.restStage2.posted.Some? ||
          (l.tasks.restStage2.due.Some? && l.tasks.restStage2.due.value <= l.now + 2880000))
    && (l.rest.stage == 2 ==> l.tasks.restProbe == OFF) && l.rest.stage <= 2
  }

  predicate IdleInv(w: Watch)
  {
    w.l.st == Connected && !w.l.rest.probe ==>
      var t := w.l.tasks.restIdle;
      || (t.posted.None? && t.due.Some? && w.activeAt + 4800 <= t.due.value <= w.l.now + 4800)
      || (t.due.None? && t.posted.Some? && w.activeAt + 4800 <= t.posted.value <= w.l.now)
  }

  predicate TimersInv(w: Watch)
  {
    SupervisionInv(w) && BeaconInv(w.l) && WindowInv(w.l) && RestTimersInv(w.l) && IdleInv(w)
  }

  // ---------------------------------------------------------------- each event keeps them

  /** A step that begins no session, ends no probe and touches none of these timers. */
  predicate Bystander(l: Link, m: Link)
  {
    && m.st == l.st && m.rest.probe == l.rest.probe && m.air.kick == l.air.kick && m.now >= l.now
    && m.tasks.disconnect == l.tasks.disconnect && m.tasks.bcast == l.tasks.bcast
    && m.tasks.restIdle == l.tasks.restIdle && m.tasks.pairTimeout == l.tasks.pairTimeout
    && m.search.bonded == l.search.bonded && (l.search.rxOpen && !l.search.bonded ==> m.search.rxOpen)
    && m.rest.stage == l.rest.stage && m.rest.wake == l.rest.wake
    && m.tasks.restProbe == l.tasks.restProbe && m.tasks.restProbeTimeout == l.tasks.restProbeTimeout
    && m.tasks.restStage2 == l.tasks.restStage2
  }

  lemma CatchIsBystander(l: Link, mac: int, accessAddr: u32, typeTag: u8, offered: nat)
    ensures Bystander(l, Caught15(l, mac, accessAddr, typeTag, offered))
  {
  }

  lemma AirIsBystander(l: Link)
    ensures Bystander(l, l) && Bystander(l, RestartPosted(l)) && Bystander(l, TxFinished(l))
    ensures Bystander(l, TxFailed(l)) && Bystander(l, TurnedAround(l))
  {
  }

  predicate Ordinary(l: Link, e: Event)
  {
    !e.HostReport? && (l.st == Connected ==> !e.Tick? && !e.RxPoll?)
  }

  lemma BystanderKeepsTimers(w: Watch, e: Event, m: Link)
    requires TimersInv(w) && Bystander(w.l, m) && Ordinary(w.l, e)
    ensures TimersInv(After(w, e, m))
  {
  }

  lemma PollKeepsTimers(w: Watch, acks: bool)
    requires TimersInv(w) && Enabled(w.l, RxPoll(acks))
    ensures TimersInv(After(w, RxPoll(acks), Polled(w.l, acks)))
  {
  }

  lemma TickKeepsTimers(w: Watch, overdue: bool, hops: bool)
    requires LinkInv(w.l) && TimersInv(w)
    ensures TimersInv(After(w, Tick(overdue, hops), LinkTicked(w.l, overdue, hops)))
  {
  }

  lemma FireKeepsTimers(w: Watch, timer: TaskId)
    requires LinkInv(w.l) && TimersInv(w) && Enabled(w.l, Fire(timer))
    ensures TimersInv(After(w, Fire(timer), Fired(w.l, timer)))
  {
  }

  lemma AdvanceKeepsTimers(w: Watch, ticks: nat)
    requires TimersInv(w)
    ensures TimersInv(After(w, Advance(ticks), w.l.(now := w.l.now + ticks)))
  {
  }

  /** Handlers that are bystanders. */
  predicate Quiet(task: TaskId)
  {
    task == RxRestart || task == PairRxOff || task == Respond || task == DiscardHid || task == SaveBond
  }

  lemma QuietHandlersAreBystanders(l: Link, started: bool)
    ensures Bystander(l, Restarted(l)) && Bystander(l, WindowClosed(l)) && Bystander(l, Responded(l, started))
    ensures Bystander(l, QueueDropped(l)) && Bystander(l, l)
  {
  }

  lemma TakenIsBystander(l: Link, task: TaskId)
    requires Quiet(task)
    ensures Bystander(l, Taken(l, task))
  {
  }

  lemma QuietServesAreBystanders(l: Link, task: TaskId, started: bool)
    requires Quiet(task)
    ensures Bystander(l, Handled(Taken(l, task), task, started))
  {
    TakenIsBystander(l, task);
    QuietHandlersAreBystanders(Taken(l, task), started);
    hide Taken, Restarted, WindowClosed, Responded, QueueDropped;
  }

  lemma SearchServesKeepTimers(w: Watch, started: bool)
    requires LinkInv(w.l) && TimersInv(w)
    ensures Enabled(w.l, Serve(PairBcast, started)) ==>
              TimersInv(After(w, Serve(PairBcast, started), Broadcast(Taken(w.l, PairBcast))))
    ensures TimersInv(After(w, Serve(PairTimeout, started), PairingOver(Taken(w.l, PairTimeout))))
    ensures Enabled(w.l, Serve(Start, started)) ==>
              TimersInv(After(w, Serve(Start, started), StartedUp(Taken(w.l, Start))))
  {
  }

  lemma EnterKeepsTimers(w: Watch, started: bool)
    requires LinkInv(w.l) && TimersInv(w)
    ensures TimersInv(After(w, Serve(EnterConnected, started), ConnectedEntered(Taken(w.l, EnterConnected))))
  {
  }

  lemma RestServesKeepTimers(w: Watch, started: bool)
    requires LinkInv(w.l) && TimersInv(w)
    ensures Enabled(w.l, Serve(RestIdle, started)) ==>
              TimersInv(After(w, Serve(RestIdle, started), IdleElapsed(Taken(w.l, RestIdle))))
  {
  }

  lemma ProbeKeepsTimers(w: Watch, started: bool)
    requires LinkInv(w.l) && TimersInv(w) && Enabled(w.l, Serve(RestProbe, started))
    ensures TimersInv(After(w, Serve(RestProbe, started), ProbeDue(Taken(w.l, RestProbe))))
  {
  }

  lemma TimeoutKeepsTimers(w: Watch, started: bool)
    requires LinkInv(w.l) && TimersInv(w)
    ensures TimersInv(After(w, Serve(RestProbeTimeout, started), ProbeTimedOut(Taken(w.l, RestProbeTimeout))))
  {
  }

  lemma StageKeepsTimers(w: Watch, started: bool)
    requires LinkInv(w.l) && TimersInv(w)
    ensures TimersInv(After(w, Serve(RestStage2, started), StageTwo(Taken(w.l, RestStage2))))
  {
  }

  lemma DropKeepsTimers(w: Watch, started: bool)
    requires LinkInv(w.l) && TimersInv(w) && Enabled(w.l, Serve(Disconnect, started))
    ensures TimersInv(After(w, Serve(Disconnect, started), Dropped(Taken(w.l, Disconnect))))
  {
  }

  lemma ReportKeepsTimers(w: Watch, r: Report)
    requires LinkInv(w.l) && TimersInv(w)
    ensures TimersInv(After(w, HostReport(r), Reported(w.l, r)))
  {
  }

  lemma SelectKeepsTimers(w: Watch)
    requires LinkInv(w.l) && TimersInv(w)
    ensures TimersInv(After(w, HostSelect2G4, Selected2G4(w.l)))
  {
  }

  lemma PairKeepsTimers(w: Watch)
    requires LinkInv(w.l) && TimersInv(w)
    ensures TimersInv(After(w, HostPair, PairingEntered(w.l)))
  {
  }

  lemma LeaveKeepsTimers(w: Watch, e: Event)
    requires LinkInv(w.l) && TimersInv(w) && (e.HostLeave? || e.Quit? || e.HostUnpair?)
    ensures TimersInv(After(w, e, Disconnected(w.l))) && TimersInv(After(w, e, Left(w.l)))
    ensures TimersInv(After(w, e, Unpaired(w.l)))
  {
  }

  lemma FactoryKeepsTimers(w: Watch)
    requires LinkInv(w.l) && TimersInv(w)
    ensures TimersInv(After(w, HostFactoryPair, FactoryPaired(w.l)))
  {
  }

  // ---------------------------------------------------------------- whole runs

  lemma ServeKeepsTimers(w: Watch, task: TaskId, started: bool)
    requires LinkInv(w.l) && TimersInv(w) && Enabled(w.l, Serve(task, started))
    ensures TimersInv(After(w, Serve(task, started), Handled(Taken(w.l, task), task, started)))
  {
    hide LinkInv, TimersInv, After, Taken, Enabled;
    hide Restarted, Broadcast, ConnectedEntered, Responded, QueueDropped, IdleElapsed, ProbeDue, StartedUp;
    hide ProbeTimedOut, StageTwo, Dropped, WindowClosed, PairingOver;
    if Quiet(task) {
      QuietServesAreBystanders(w.l, task, started);
      BystanderKeepsTimers(w, Serve(task, started), Handled(Taken(w.l, task), task, started));
    } else {
      match task
      case Start => SearchServesKeepTimers(w, started);
      case PairBcast => SearchServesKeepTimers(w, started);
      case PairTimeout => SearchServesKeepTimers(w, started);
      case EnterConnected => EnterKeepsTimers(w, started);
      case RestIdle => RestServesKeepTimers(w, started);
      case RestProbe => ProbeKeepsTimers(w, started);
      case RestProbeTimeout => TimeoutKeepsTimers(w, started);
      case RestStage2 => StageKeepsTimers(w, started);
      case Disconnect => DropKeepsTimers(w, started);
    }
  }

  lemma HostKeepsTimers(w: Watch, e: Event)
    requires LinkInv(w.l) && TimersInv(w) && FromHost(e)
    ensures TimersInv(Watched(w, e))
  {
    hide LinkInv, TimersInv, After, Reported, Selected2G4, PairingEntered, Left, Unpaired, Disconnected, FactoryPaired;
    hide Handled;
    match e
    case HostReport(r) => ReportKeepsTimers(w, r);
    case HostSelect2G4 => SelectKeepsTimers(w);
    case HostPair => PairKeepsTimers(w);
    case HostFactoryPair => FactoryKeepsTimers(w);
    case _ => LeaveKeepsTimers(w, e);
  }

  lemma AirKeepsTimers(w: Watch, e: Event)
    requires TimersInv(w) && (e.Rx15? || e.RxOther? || e.TxFinish? || e.TxFail? || e.Turnaround?)
    ensures TimersInv(Watched(w, e))
  {
    NextIs(w.l, e);
    AirIsBystander(w.l);
    if e.Rx15? {
      CatchIsBystander(w.l, e.rxMac, e.accessAddr, e.typeTag, e.offered);
    }
    hide Next, Caught15, TxFinished, TxFailed, TurnedAround, RestartPosted, TimersInv, Bystander, After;
    BystanderKeepsTimers(w, e, Next(w.l, e));
  }

  lemma DisabledKeepsTimers(w: Watch, e: Event)
    requires TimersInv(w) && !Enabled(w.l, e)
    ensures TimersInv(After(w, e, w.l))
  {
  }

  lemma NextKeepsTimers(w: Watch, e: Event)
    requires LinkInv(w.l) && TimersInv(w)
    ensures TimersInv(Watched(w, e))
  {
    NextIs(w.l, e);
    hide LinkInv, TimersInv, After, Next, Enabled, Handled, Taken, Fired, Caught15, Polled, TxFinished, TxFailed;
    hide TurnedAround, LinkTicked, RestartPosted;
    if FromHost(e) {
      HostKeepsTimers(w, e);
    } else if !Enabled(w.l, e) {
      DisabledKeepsTimers(w, e);
    } else {
      match e
      case Serve(task, started) => ServeKeepsTimers(w, task, started);
      case Fire(timer) => FireKeepsTimers(w, timer);
      case RxPoll(acks) => PollKeepsTimers(w, acks);
      case Tick(overdue, hops) => TickKeepsTimers(w, overdue, hops);
      case Advance(ticks) => AdvanceKeepsTimers(w, ticks);
      case _ => AirKeepsTimers(w, e);
    }
  }

  function BootWatch(hasBond: bool, mac: int, identity: bool, now: int): Watch
  {
    Watch(Boot(hasBond, mac, identity, now), false, now, now)
  }

  function WatchedRun(w: Watch, events: seq<Event>): Watch
  {
    if events == [] then w else Watched(WatchedRun(w, events[..|events| - 1]), events[|events| - 1])
  }

  lemma {:induction false} RunKeepsTimers(w: Watch, events: seq<Event>)
    requires LinkInv(w.l) && TimersInv(w)
    ensures var v := WatchedRun(w, events); LinkInv(v.l) && TimersInv(v) && v.l == Run(w.l, events)
  {
    if events != [] {
      hide LinkInv, TimersInv, Next;
      var n := |events| - 1;
      RunKeepsTimers(w, events[..n]);
      NextKeepsInv(WatchedRun(w, events[..n]).l, events[n]);
      NextKeepsTimers(WatchedRun(w, events[..n]), events[n]);
    }
  }

  lemma BootTimers(hasBond: bool, mac: int, identity: bool, now: int)
    ensures LinkInv(Boot(hasBond, mac, identity, now)) && TimersInv(BootWatch(hasBond, mac, identity, now))
  {
    BootInv(hasBond, mac, identity, now);
  }

  /** Supervision, over every run from boot: a live link has its timer running to 5000 ticks after the last of its
      making, a tick that found a poll caught, or a probe made the session. So it is dropped only when the main loop
      has seen no poll for that long, and one that is polled and ticked oftener is never dropped. */
  lemma SupervisionCountsFromThePolls(hasBond: bool, mac: int, identity: bool, now: int, events: seq<Event>,
                                      started: bool)
    ensures var w := WatchedRun(BootWatch(hasBond, mac, identity, now), events);
            && w.l == Run(Boot(hasBond, mac, identity, now), events)
            && (w.l.st == Connected ==>
                  && RunsTo(w.l, w.l.tasks.disconnect, w.restartedAt + 5000)
                  && (Enabled(w.l, Serve(Disconnect, started)) ==> w.l.now >= w.restartedAt + 5000))
            && (w.l.st == Connected && w.l.now < w.restartedAt + 5000 ==>
                  Next(w.l, Serve(Disconnect, started)) == w.l)
  {
    BootTimers(hasBond, mac, identity, now);
    RunKeepsTimers(BootWatch(hasBond, mac, identity, now), events);
    var w := WatchedRun(BootWatch(hasBond, mac, identity, now), events);
    NextIs(w.l, Serve(Disconnect, started));
    hide LinkInv, Next, Handled;
  }

  /** A search never falls silent, and only a first pairing runs out: over every run, whenever one is on its next
      beacon is posted, or due within 32 ticks; a first pairing's end is posted, or due within 8480, with its window
      open till then, and a bonded search has none. */
  lemma BeaconsKeepComing(hasBond: bool, mac: int, identity: bool, now: int, events: seq<Event>)
    requires Run(Boot(hasBond, mac, identity, now), events).st == Pairing
    ensures var l := Run(Boot(hasBond, mac, identity, now), events);
            && (l.tasks.bcast.posted.Some? || (l.tasks.bcast.due.Some? && l.tasks.bcast.due.value <= l.now + 32))
            && if l.search.bonded then l.tasks.pairTimeout == OFF
               else l.search.rxOpen &&
                    (l.tasks.pairTimeout.posted.Some? ||
                     (l.tasks.pairTimeout.due.Some? && l.tasks.pairTimeout.due.value <= l.now + 8480))
  {
    BootTimers(hasBond, mac, identity, now);
    RunKeepsTimers(BootWatch(hasBond, mac, identity, now), events);
  }

  /** Rest runs its course: over every run, a probe has its timeout posted, or due within 640 ticks; stage 1
      its end within 2880000, and after it no probe is left to come. (TMOS's own delay is apart.) */
  lemma RestRunsItsCourse(hasBond: bool, mac: int, identity: bool, now: int, events: seq<Event>)
    ensures var l := Run(Boot(hasBond, mac, identity, now), events);
            && (l.rest.probe ==>
                  l.tasks.restProbeTimeout.posted.Some? ||
                  (l.tasks.restProbeTimeout.due.Some? && l.tasks.restProbeTimeout.due.value <= l.now + 640))
            && (l.rest.stage == 1 && !l.rest.wake ==>
                  l.tasks.restStage2.posted.Some? ||
                  (l.tasks.restStage2.due.Some? && l.tasks.restStage2.due.value <= l.now + 2880000))
            && (l.rest.stage == 2 ==> !l.tasks.restProbe.Active())
  {
    BootTimers(hasBond, mac, identity, now);
    RunKeepsTimers(BootWatch(hasBond, mac, identity, now), events);
  }

  /** Rest comes to a quiet link and to no other: over every run, a session has its idle timer running, and an
      event that rests it is that timer's, 4800 ticks or more after the session began and after the last report from
      the host. */
  lemma RestsAfterQuiet(hasBond: bool, mac: int, identity: bool, now: int, events: seq<Event>, e: Event)
    ensures var w := WatchedRun(BootWatch(hasBond, mac, identity, now), events);
            w.l == Run(Boot(hasBond, mac, identity, now), events)
    ensures var w := WatchedRun(BootWatch(hasBond, mac, identity, now), events);
            w.l.st == Connected && !w.l.rest.probe ==>
              && w.l.tasks.restIdle.Active()
              && (w.l.tasks.restIdle.due.Some? ==> w.l.tasks.restIdle.due.value <= w.l.now + 4800)
              && (Next(w.l, e).st == Resting ==>
                    e.Serve? && e.task == RestIdle && w.l.now >= w.activeAt + 4800)
  {
    BootTimers(hasBond, mac, identity, now);
    RunKeepsTimers(BootWatch(hasBond, mac, identity, now), events);
    var w := WatchedRun(BootWatch(hasBond, mac, identity, now), events);
    if w.l.st == Connected && !w.l.rest.probe && Next(w.l, e).st == Resting {
      hide TimersInv, LinkInv;
      OnlyTheIdleTimerRests(w.l, e);
    }
    hide LinkInv, Next;
  }

  /** Leaving 2.4 GHz drops the queue after 800 ticks and no sooner, and a selection in between keeps it. */
  lemma LeavingKeepsTheQueueAWhile(l: Link, ticks: nat)
    ensures var left := Next(l, HostLeave);
            var later := Next(left, Advance(ticks));
            && later.st == Idle && later.q.entries == l.q.entries
            && (Enabled(later, Fire(DiscardHid)) <==> ticks >= 800)
            && (ticks >= 800 && later.tasks.start.posted.None? ==>
                  Next(Next(later, Fire(DiscardHid)), Serve(DiscardHid, true)).q.entries == [])
            && !Next(later, HostSelect2G4).tasks.discard.Active()
            && Next(later, HostSelect2G4).q.entries == l.q.entries
  {
    hide Reported, PairingEntered, Unpaired, FactoryPaired;
  }

  lemma OnlyTheIdleTimerRests(l: Link, e: Event)
    requires LinkInv(l) && l.st == Connected && !l.rest.probe && Next(l, e).st == Resting
    ensures e.Serve? && e.task == RestIdle && Enabled(l, e)
  {
    NextIs(l, e);
    HostNeverRests(l);
    AirIsBystander(l);
    if e.Rx15? {
      CatchIsBystander(l, e.rxMac, e.accessAddr, e.typeTag, e.offered);
    } else if e.Tick? {
      TickRests(l, e.overdue, e.hops);
    } else if e.Serve? && e.task != RestIdle {
      ServedProbe(l, e.task);
      HandlersRest(Taken(l, e.task), e.task, e.started);
    }
    hide LinkInv, Handled, Reported, Selected2G4, PairingEntered, Left, Unpaired, FactoryPaired, Disconnected;
    hide TxFinished, TxFailed, TurnedAround, RestartPosted, LinkTicked, Caught15;
  }

  lemma ServedProbe(l: Link, task: TaskId)
    ensures Taken(l, task).st == l.st && Taken(l, task).rest == l.rest
  {
  }

  lemma TickRests(l: Link, overdue: bool, hops: bool)
    requires LinkInv(l) && !l.rest.probe && l.st == Connected
    ensures LinkTicked(l, overdue, hops).st == Connected
  {
  }

  lemma HostNeverRests(l: Link)
    requires l.st == Connected
    ensures forall r :: Reported(l, r).st != Resting
    ensures Selected2G4(l).st != Resting && PairingEntered(l).st != Resting && Left(l).st != Resting
    ensures Unpaired(l).st != Resting && FactoryPaired(l).st != Resting && Disconnected(l).st != Resting
  {
  }

  lemma HandlersRest(l: Link, task: TaskId, started: bool)
    requires l.st == Connected && !l.rest.probe && task != RestIdle
    ensures Handled(l, task, started).st != Resting
  {
  }
}
