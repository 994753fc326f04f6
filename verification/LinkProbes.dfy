/** How long a silent probe lasts: until two of its answers have gone out whole, by the completions of the run. */
module LinkProbes {
  import opened Words
  import opened ReportRing
  import opened LinkMachine
  import opened LinkSafety

  /** A run, and how many responses have completed in the silent probe it is in. */
  datatype Count = Count(l: Link, answered: nat)

  function After(c: Count, e: Event, m: Link): Count
  {
    Count(m, if !Silent(m) then 0
             else if !Silent(c.l) then 0
             else c.answered + if e.TxFinish? && c.l.air.responsePending then 1 else 0)
  }

  function Counted(c: Count, e: Event): Count { After(c, e, Next(c.l, e)) }

  predicate Agrees(c: Count)
  {
    && (Silent(c.l) ==> c.l.rest.answers == c.answered % 0x100 && (c.l.rest.quietPending <==> c.answered >= 2))
    && Settled(c.l)
  }

  /** Only a silent probe is to end at a tick, and a woken one is never connected: it becomes the session. */
  predicate Settled(l: Link)
  {
    (!Silent(l) ==> !l.rest.quietPending) && (l.rest.wake ==> l.st == Pairing)
  }

  /** A step that counts nothing: the probe goes on as it is, or there is none. */
  predicate Idles(l: Link, m: Link)
  {
    (m.rest.wake ==> m.st == Pairing) &&
    if Silent(m) then
      if Silent(l) then m.rest.answers == l.rest.answers && m.rest.quietPending == l.rest.quietPending
      else m.rest.answers == 0 && !m.rest.quietPending
    else !m.rest.quietPending
  }

  lemma IdlingAgrees(c: Count, e: Event, m: Link)
    requires Agrees(c) && Idles(c.l, m) && !e.TxFinish?
    ensures Agrees(After(c, e, m))
  {
  }

  lemma AirIdles(l: Link, acks: bool)
    requires Settled(l)
    ensures Idles(l, l) && Idles(l, RestartPosted(l)) && Idles(l, Polled(l, acks)) && Idles(l, TxFailed(l))
    ensures Idles(l, TurnedAround(l))
  {
  }

  lemma CatchIdles(l: Link, mac: int, accessAddr: u32, typeTag: u8, offered: nat)
    requires Settled(l)
    ensures Idles(l, Caught15(l, mac, accessAddr, typeTag, offered))
  {
  }

  lemma TickIdles(l: Link, overdue: bool, hops: bool)
    requires Settled(l)
    ensures Idles(l, LinkTicked(l, overdue, hops))
  {
  }

  lemma FinishAgrees(c: Count)
    requires LinkInv(c.l) && Agrees(c)
    ensures Agrees(After(c, TxFinish, TxFinished(c.l)))
  {
  }

  lemma SearchHandlersIdle(l: Link)
    requires Settled(l)
    ensures Idles(l, Restarted(l)) && Idles(l, WindowClosed(l)) && Idles(l, QueueDropped(l)) && Idles(l, StageTwo(l))
    ensures Idles(l, Dropped(l)) && (LinkInv(l) ==> Idles(l, Broadcast(l)))
    ensures !l.rest.wake ==> Idles(l, PairingOver(l)) && Idles(l, StartedUp(l))
  {
  }

  lemma RestHandlersIdle(l: Link, started: bool)
    requires LinkInv(l) && Settled(l)
    ensures Idles(l, IdleElapsed(l)) && Idles(l, ProbeDue(l)) && Idles(l, ProbeTimedOut(l))
    ensures Idles(l, Responded(l, started)) && Idles(l, ConnectedEntered(l))
  {
  }

  /** No probe has been woken when a first pairing or the boot ends. */
  predicate EndsUnwoken(l: Link, task: TaskId) { task == Start || task == PairTimeout ==> !l.rest.wake }

  lemma ServedUnwoken(l: Link, task: TaskId, started: bool)
    requires LinkInv(l) && Enabled(l, Serve(task, started))
    ensures EndsUnwoken(l, task)
  {
  }

  lemma HandlersIdle(l: Link, task: TaskId, started: bool)
    requires LinkInv(l) && Settled(l) && EndsUnwoken(l, task)
    ensures Idles(l, Handled(l, task, started))
  {
    SearchHandlersIdle(l);
    RestHandlersIdle(l, started);
    ItIdles(l);
    hide Idles, Restarted, Broadcast, ConnectedEntered, Responded, QueueDropped, IdleElapsed, ProbeDue, StartedUp;
    hide ProbeTimedOut, StageTwo, Dropped, WindowClosed, PairingOver, LinkInv;
  }

  lemma ItIdles(l: Link)
    requires Settled(l)
    ensures Idles(l, l)
  {
  }

  lemma HostIdles(l: Link, r: Report)
    requires LinkInv(l) && Settled(l)
    ensures Idles(l, Reported(l, r)) && Idles(l, Selected2G4(l)) && Idles(l, PairingEntered(l)) && Idles(l, Left(l))
    ensures Idles(l, Disconnected(l)) && Idles(l, Unpaired(l)) && Idles(l, FactoryPaired(l))
  {
  }

  // ---------------------------------------------------------------- whole runs

  lemma TakenIsAlike(l: Link, task: TaskId)
    requires LinkInv(l)
    ensures Taken(l, task).rest == l.rest && Taken(l, task).st == l.st
    ensures task != PairRxOff ==> LinkInv(Taken(l, task))
  {
    if task != PairRxOff {
      TakenKeepsInv(l, task);
    }
  }

  lemma IdlesFromAlike(l: Link, t: Link, m: Link)
    requires t.rest == l.rest && t.st == l.st && Idles(t, m)
    ensures Idles(l, m)
  {
  }

  lemma AgreesFacts(c: Count)
    requires Agrees(c)
    ensures Settled(c.l)
  {
  }

  lemma ServeAgrees(c: Count, task: TaskId, started: bool)
    requires LinkInv(c.l) && Agrees(c) && Enabled(c.l, Serve(task, started))
    ensures Agrees(After(c, Serve(task, started), Handled(Taken(c.l, task), task, started)))
  {
    var t := Taken(c.l, task);
    TakenIsAlike(c.l, task);
    ServedUnwoken(c.l, task, started);
    AgreesFacts(c);
    if task == PairRxOff {
      WindowIdles(t, started);
    } else {
      hide LinkInv, Idles, Handled, Agrees, After, Taken;
      HandlersIdle(t, task, started);
    }
    hide LinkInv, Idles, Handled, Agrees, After, Taken;
    IdlesFromAlike(c.l, t, Handled(t, task, started));
    IdlingAgrees(c, Serve(task, started), Handled(t, task, started));
  }

  lemma WindowIdles(l: Link, started: bool)
    requires Settled(l)
    ensures Idles(l, Handled(l, PairRxOff, started))
  {
    SearchHandlersIdle(l);
    hide Idles, Restarted, Broadcast, ConnectedEntered, Responded, QueueDropped, IdleElapsed, ProbeDue, StartedUp;
    hide ProbeTimedOut, StageTwo, Dropped, WindowClosed, PairingOver;
  }

  lemma OtherIdles(l: Link, e: Event)
    requires LinkInv(l) && Settled(l) && !e.Serve? && !e.TxFinish?
    ensures Idles(l, Next(l, e))
  {
    NextIs(l, e);
    ItIdles(l);
    AirIdles(l, e.RxPoll? && e.acks);
    if FromHost(e) {
      HostIdles(l, if e.HostReport? then e.r else NO_KEYS);
      NextOfHost(l, e);
    } else if e.Rx15? {
      CatchIdles(l, e.rxMac, e.accessAddr, e.typeTag, e.offered);
    } else if e.Tick? {
      TickIdles(l, e.overdue, e.hops);
    } else if e.Fire? {
      FireIdles(l, e.timer);
    } else if e.Advance? {
      LaterIdles(l, e.ticks);
    }
    hide LinkInv, Idles, Next, Caught15, Polled, TxFailed, TurnedAround, LinkTicked, RestartPosted, Fired, Reported;
    hide Selected2G4, PairingEntered, Left, Unpaired, FactoryPaired, Disconnected;
  }

  lemma LaterIdles(l: Link, ticks: nat)
    requires Settled(l)
    ensures Idles(l, l.(now := l.now + ticks))
  {
  }

  lemma FireIdles(l: Link, timer: TaskId)
    requires Settled(l)
    ensures Enabled(l, Fire(timer)) ==> Idles(l, Fired(l, timer))
  {
  }

  lemma NextAgrees(c: Count, e: Event)
    requires LinkInv(c.l) && Agrees(c)
    ensures Agrees(Counted(c, e))
  {
    NextIs(c.l, e);
    AgreesFacts(c);
    ItIdles(c.l);
    hide LinkInv, Agrees, After, Next, Handled, Taken, TxFinished, Idles, Silent;
    if e.Serve? {
      if Enabled(c.l, e) {
        ServeAgrees(c, e.task, e.started);
      } else {
        IdlingAgrees(c, e, c.l);
      }
    } else if e.TxFinish? {
      FinishAgrees(c);
    } else {
      OtherIdles(c.l, e);
      IdlingAgrees(c, e, Next(c.l, e));
    }
  }

  function CountedRun(c: Count, events: seq<Event>): Count
  {
    if events == [] then c else Counted(CountedRun(c, events[..|events| - 1]), events[|events| - 1])
  }

  lemma {:induction false} RunAgrees(c: Count, events: seq<Event>)
    requires LinkInv(c.l) && Agrees(c)
    ensures var d := CountedRun(c, events); LinkInv(d.l) && Agrees(d) && d.l == Run(c.l, events)
  {
    if events != [] {
      hide LinkInv, Agrees, Next;
      var n := |events| - 1;
      RunAgrees(c, events[..n]);
      NextKeepsInv(CountedRun(c, events[..n]).l, events[n]);
      NextAgrees(CountedRun(c, events[..n]), events[n]);
    }
  }

  /** A report ends rest, in every run: after one no link rests and no probe is silent, a connected link is the
      session, and a probe still searching becomes it on connecting; for a connected probe is always a silent one. */
  lemma ReportsMakeSessions(hasBond: bool, mac: int, identity: bool, now: int, events: seq<Event>, r: Report)
    ensures var l := Run(Boot(hasBond, mac, identity, now), events);
            var m := Next(l, HostReport(r));
            && (l.st == Connected && l.rest.probe ==> Silent(l))
            && m.st != Resting && !Silent(m) && (m.st == Connected ==> !m.rest.probe)
            && (l.st == Connected ==> m.st == Connected && m.session == l.session)
            && (l.st == Resting ==> m.st == Pairing && m.rest.probe)
  {
    BootInv(hasBond, mac, identity, now);
    RunAgrees(Count(Boot(hasBond, mac, identity, now), 0), events);
    var l := Run(Boot(hasBond, mac, identity, now), events);
    NextOfHost(l, HostReport(r));
    NextKeepsInv(l, HostReport(r));
    NextAgrees(Count(l, CountedRun(Count(Boot(hasBond, mac, identity, now), 0), events).answered), HostReport(r));
    hide Next, Boot;
    ReportedWakes(l, r);
  }

  lemma ReportedWakes(l: Link, r: Report)
    requires LinkInv(l)
    ensures var m := Reported(l, r);
            && m.st != Resting && !Silent(m)
            && (l.st == Connected ==> m.st == Connected && m.session == l.session)
            && (l.st == Resting ==> m.st == Pairing && m.rest.probe)
  {
  }

  /** Over every run from boot: a tick of a connected silent probe with no response out ends the probe, back in
      RESTING, if and only if two or more of its responses have completed; started and failed ones do not count. */
  lemma TwoAnswersEndAProbe(hasBond: bool, mac: int, identity: bool, now: int, events: seq<Event>,
                            overdue: bool, hops: bool)
    requires var l := Run(Boot(hasBond, mac, identity, now), events);
             l.st == Connected && Silent(l) && !l.air.responsePending
    ensures var c := CountedRun(Count(Boot(hasBond, mac, identity, now), 0), events);
            && c.l == Run(Boot(hasBond, mac, identity, now), events)
            && (Next(c.l, Tick(overdue, hops)).st == Resting <==> c.answered >= 2)
  {
    BootInv(hasBond, mac, identity, now);
    RunAgrees(Count(Boot(hasBond, mac, identity, now), 0), events);
    var c := CountedRun(Count(Boot(hasBond, mac, identity, now), 0), events);
    NextIs(c.l, Tick(overdue, hops));
    hide LinkInv, Next;
  }
}
