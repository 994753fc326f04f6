/** Which reports the link gives up, and when: those acknowledged, those of a host that unpairs, and those of one that
    left 2.4 GHz and did not come back. */
module LinkQueue {
  import opened Words
  import opened ReportRing
  import opened LinkMachine
  import LinkSafety
  import LinkStatus
  import LinkTimers

  /** A run, and when the host left 2.4 GHz, unless it has selected it or unpaired since. */
  datatype Keep = Keep(l: Link, leftAt: Option<int>)

  function After(k: Keep, e: Event, m: Link): Keep
  {
    Keep(m, if e.HostLeave? then Some(k.l.now)
            else if e.HostSelect2G4? || LinkStatus.Unbonds(k.l, e) then None
            else k.leftAt)
  }

  function Kept(k: Keep, e: Event): Keep { After(k, e, Next(k.l, e)) }

  predicate KeepInv(k: Keep)
  {
    k.l.tasks.discard == OFF || (k.leftAt.Some? && LinkTimers.RunsTo(k.l, k.l.tasks.discard, k.leftAt.value + 800))
  }

  /** What is left of the reports after an event. */
  function Remaining(l: Link, e: Event): seq<Report>
  {
    if e.HostReport? then Queued(l.q, e.r).entries
    else if LinkStatus.Unbonds(l, e) then []
    else if e.RxPoll? && Enabled(l, e) && l.st == Connected then RetiredIf(l.q, e.acks).entries
    else if e.Serve? && e.task == DiscardHid && Enabled(l, e) && l.st == Idle then []
    else l.q.entries
  }

  // ---------------------------------------------------------------- each event

  predicate SameTimer(l: Link, m: Link) { m.tasks.discard == l.tasks.discard && m.now >= l.now }

  predicate Alike(l: Link, m: Link) { SameTimer(l, m) && m.q.entries == l.q.entries }

  /** Says nothing of the timer. */
  predicate Aside(l: Link, e: Event)
  {
    !e.HostLeave? && !e.HostSelect2G4? && !LinkStatus.Unbonds(l, e)
  }

  lemma SameTimerKeeps(k: Keep, e: Event, m: Link)
    requires KeepInv(k) && SameTimer(k.l, m) && Aside(k.l, e)
    ensures KeepInv(After(k, e, m))
  {
  }

  lemma AirIsAlike(l: Link, overdue: bool, hops: bool, ticks: nat)
    ensures Alike(l, l) && Alike(l, RestartPosted(l)) && Alike(l, TxFinished(l)) && Alike(l, TxFailed(l))
    ensures Alike(l, TurnedAround(l)) && Alike(l, LinkTicked(l, overdue, hops))
    ensures Alike(l, l.(now := l.now + ticks))
  {
  }

  lemma CatchIsAlike(l: Link, mac: int, accessAddr: u32, typeTag: u8, offered: nat)
    ensures Alike(l, Caught15(l, mac, accessAddr, typeTag, offered))
  {
  }

  lemma PollRetires(l: Link, acks: bool)
    ensures SameTimer(l, Polled(l, acks))
    ensures Polled(l, acks).q.entries == if l.st == Connected then RetiredIf(l.q, acks).entries else l.q.entries
  {
  }

  lemma SearchServesAreAlike(l: Link, started: bool)
    ensures Alike(l, Restarted(l)) && Alike(l, Broadcast(l)) && Alike(l, WindowClosed(l)) && Alike(l, PairingOver(l))
    ensures Alike(l, StartedUp(l)) && Alike(l, ConnectedEntered(l)) && Alike(l, Responded(l, started))
    ensures Alike(l, Dropped(l))
  {
  }

  lemma RestServesAreAlike(l: Link)
    ensures Alike(l, IdleElapsed(l)) && Alike(l, ProbeDue(l)) && Alike(l, ProbeTimedOut(l)) && Alike(l, StageTwo(l))
  {
  }

  lemma ServesAreAlike(l: Link, task: TaskId, started: bool)
    requires task != DiscardHid
    ensures Alike(l, Handled(l, task, started))
  {
    SearchServesAreAlike(l, started);
    RestServesAreAlike(l);
    AirIsAlike(l, false, false, 0);
    hide Alike, Restarted, Broadcast, ConnectedEntered, Responded, QueueDropped, IdleElapsed, ProbeDue, StartedUp;
    hide ProbeTimedOut, StageTwo, Dropped, WindowClosed, PairingOver;
  }

  lemma TakenIsAlike(l: Link, task: TaskId)
    requires task != DiscardHid
    ensures Alike(l, Taken(l, task))
  {
  }

  lemma ServeIsAlike(l: Link, task: TaskId, started: bool)
    requires task != DiscardHid
    ensures Alike(l, Handled(Taken(l, task), task, started))
  {
    TakenIsAlike(l, task);
    ServesAreAlike(Taken(l, task), task, started);
    hide Handled, Taken;
  }

  lemma DiscardServed(k: Keep, started: bool)
    requires KeepInv(k) && Enabled(k.l, Serve(DiscardHid, started))
    ensures var m := Handled(Taken(k.l, DiscardHid), DiscardHid, started);
            && KeepInv(After(k, Serve(DiscardHid, started), m))
            && k.leftAt.Some? && k.l.now >= k.leftAt.value + 800
            && m.q.entries == if k.l.st == Idle then [] else k.l.q.entries
  {
  }

  lemma FireKeeps(k: Keep, timer: TaskId)
    requires KeepInv(k) && Enabled(k.l, Fire(timer))
    ensures KeepInv(After(k, Fire(timer), Fired(k.l, timer))) && Fired(k.l, timer).q == k.l.q
  {
  }

  lemma HostKeeps(k: Keep, r: Report)
    ensures Reported(k.l, r).q == Queued(k.l.q, r) && SameTimer(k.l, Reported(k.l, r))
    ensures Alike(k.l, PairingEntered(k.l)) && Alike(k.l, Disconnected(k.l))
    ensures KeepInv(After(k, HostSelect2G4, Selected2G4(k.l))) && Selected2G4(k.l).q == k.l.q
    ensures KeepInv(After(k, HostLeave, Left(k.l))) && Left(k.l).q.entries == k.l.q.entries
  {
  }

  lemma UnpairingDrops(k: Keep)
    ensures KeepInv(After(k, HostUnpair, Unpaired(k.l))) && Unpaired(k.l).q.entries == []
    ensures k.l.bond.identity ==>
              KeepInv(After(k, HostFactoryPair, FactoryPaired(k.l))) && FactoryPaired(k.l).q.entries == []
    ensures !k.l.bond.identity ==> FactoryPaired(k.l) == k.l
  {
  }

  // ---------------------------------------------------------------- whole runs

  lemma HostAccounted(k: Keep, e: Event)
    requires KeepInv(k) && FromHost(e)
    ensures KeepInv(Kept(k, e)) && Next(k.l, e).q.entries == Remaining(k.l, e)
  {
    hide Reported, Selected2G4, PairingEntered, Left, Unpaired, FactoryPaired, Disconnected, Handled;
    hide KeepInv, SameTimer;
    NextOfHost(k.l, e);
    HostKeeps(k, if e.HostReport? then e.r else NO_KEYS);
    UnpairingDrops(k);
    AirIsAlike(k.l, false, false, 0);
    if Aside(k.l, e) {
      SameTimerKeeps(k, e, Next(k.l, e));
    }
    hide Next, After, Queued;
  }

  lemma AirAccounted(k: Keep, e: Event)
    requires KeepInv(k) && Enabled(k.l, e) && !FromHost(e) && !e.Fire?
    requires e.Serve? ==> e.task != DiscardHid
    ensures KeepInv(Kept(k, e)) && Next(k.l, e).q.entries == Remaining(k.l, e)
  {
    NextIs(k.l, e);
    AirIsAlike(k.l, e.Tick? && e.overdue, e.Tick? && e.hops, if e.Advance? then e.ticks else 0);
    if e.Serve? {
      ServeIsAlike(k.l, e.task, e.started);
    } else if e.Rx15? {
      CatchIsAlike(k.l, e.rxMac, e.accessAddr, e.typeTag, e.offered);
    } else if e.RxPoll? {
      PollRetires(k.l, e.acks);
    }
    hide Next, Caught15, Polled, TxFinished, TxFailed, TurnedAround, LinkTicked, RestartPosted, Handled, Taken;
    hide KeepInv, SameTimer, RetiredIf;
    SameTimerKeeps(k, e, Next(k.l, e));
  }

  lemma NextAccounted(k: Keep, e: Event)
    requires KeepInv(k)
    ensures KeepInv(Kept(k, e)) && Next(k.l, e).q.entries == Remaining(k.l, e)
  {
    NextIs(k.l, e);
    if !FromHost(e) && !Enabled(k.l, e) {
      AirIsAlike(k.l, false, false, 0);
      SameTimerKeeps(k, e, k.l);
    } else if e.Fire? {
      FireKeeps(k, e.timer);
    } else if e.Serve? && e.task == DiscardHid {
      DiscardServed(k, e.started);
    }
    hide Next, KeepInv, Handled, Taken, Fired, Enabled, Alike, SameTimer;
    if FromHost(e) {
      HostAccounted(k, e);
    } else if Enabled(k.l, e) && !e.Fire? && !(e.Serve? && e.task == DiscardHid) {
      AirAccounted(k, e);
    }
  }

  function KeptRun(k: Keep, events: seq<Event>): Keep
  {
    if events == [] then k else Kept(KeptRun(k, events[..|events| - 1]), events[|events| - 1])
  }

  lemma {:induction false} RunKeeps(k: Keep, events: seq<Event>)
    requires KeepInv(k)
    ensures KeepInv(KeptRun(k, events)) && KeptRun(k, events).l == Run(k.l, events)
  {
    if events != [] {
      hide KeepInv, Next;
      RunKeeps(k, events[..|events| - 1]);
      NextAccounted(KeptRun(k, events[..|events| - 1]), events[|events| - 1]);
    }
  }

  /** Over every run from boot, what an event leaves of the waiting reports: all of them, but for the report it adds,
      the one a poll acknowledges, an unpairing, which drops them all, and the end of the wait after leaving, which
      comes 800 ticks or more after the host left with no selection and no unpairing since. */
  lemma ReportsAreKept(hasBond: bool, mac: int, identity: bool, now: int, events: seq<Event>, e: Event)
    ensures var k := KeptRun(Keep(Boot(hasBond, mac, identity, now), None), events);
            && k.l == Run(Boot(hasBond, mac, identity, now), events)
            && Next(k.l, e).q.entries == Remaining(k.l, e)
            && (e.Serve? && e.task == DiscardHid && Enabled(k.l, e) ==>
                  k.leftAt.Some? && k.l.now >= k.leftAt.value + 800)
  {
    var boot := Keep(Boot(hasBond, mac, identity, now), None);
    assert KeepInv(boot);
    RunKeeps(boot, events);
    NextAccounted(KeptRun(boot, events), e);
    if e.Serve? && e.task == DiscardHid && Enabled(KeptRun(boot, events).l, e) {
      DiscardServed(KeptRun(boot, events), e.started);
    }
    hide Next, KeepInv, Boot, Remaining;
  }
}
