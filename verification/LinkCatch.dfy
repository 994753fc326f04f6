/** No stale catch: a connection is only ever made from a LEN-15 accepted in the pairing in hand. */
module LinkCatch {
  import opened Words
  import opened ReportRing
  import opened LinkMachine
  import opened LinkSafety

  lemma HandlersNeverConnect(l: Link, task: TaskId, started: bool)
    requires task != EnterConnected
    ensures Stays(l, Handled(l, task, started))
  {
    hide Restarted, Broadcast, ConnectedEntered, Responded, QueueDropped, IdleElapsed, ProbeDue;
    hide ProbeTimedOut, StageTwo, Dropped, WindowClosed, PairingOver;
  }

  lemma EnterConnects(l: Link)
    requires l.st != Connected && ConnectedEntered(l).st == Connected
    ensures l.st == Pairing && ConnectedEntered(l).session == l.pend
  {
    hide IdleArmed, Promoted;
  }

  /** Only the handler of a posted catch connects, and only out of a pairing. */
  lemma OnlyACatchConnects(l: Link, e: Event)
    requires l.st != Connected && Next(l, e).st == Connected
    ensures l.st == Pairing && e.Serve? && e.task == EnterConnected && l.tasks.enter.posted.Some?
    ensures Next(l, e).session == l.pend
  {
    hide Caught15, Polled, TxFinished, TxFailed, TurnedAround, LinkTicked, Reported, RestartPosted;
    hide Selected2G4, PairingEntered, Left, Unpaired, FactoryPaired, Disconnected, Handled, ConnectedEntered;
    if e.Rx15? {
      AcceptedFrames(l, e.rxMac, e.accessAddr, e.typeTag, e.offered);
    }
    if e.Serve? {
      var t := Taken(l, e.task);
      if e.task != EnterConnected {
        HandlersNeverConnect(t, e.task, e.started);
      } else {
        assert Handled(t, e.task, e.started) == ConnectedEntered(t) by { EnterHandled(t, e.started); }
        EnterConnects(t);
      }
    }
  }

  lemma EnterHandled(l: Link, started: bool)
    ensures Handled(l, EnterConnected, started) == ConnectedEntered(l)
  {
  }

  lemma WaitingCatchIsFresh(l: Link)
    requires LinkInv(l) && l.tasks.enter.posted.Some?
    ensures FreshCatch(l, l.pend)
  {
  }

  /** No stale catch: over any order of selections, pairings, unpairings, disconnects, timeouts, rests and
      interrupts, every entry to CONNECTED comes from PAIRING and is made from a catch from the dongle of the
      stored bond, accepted since the pairing in hand began, with an interval the hop can follow. */
  lemma NoStaleCatch(hasBond: bool, mac: int, identity: bool, now: int, events: seq<Event>, e: Event)
    requires var l := Run(Boot(hasBond, mac, identity, now), events);
             l.st != Connected && Next(l, e).st == Connected
    ensures var l := Run(Boot(hasBond, mac, identity, now), events);
            l.st == Pairing && Next(l, e).session == l.pend && FreshCatch(l, l.pend)
    ensures CaughtIn(Boot(hasBond, mac, identity, now), events)
  {
    hide Next, LinkInv, FreshCatch, CaughtAt;
    var boot := Boot(hasBond, mac, identity, now);
    BootInv(hasBond, mac, identity, now);
    RunKeepsInv(boot, events);
    OnlyACatchConnects(Run(boot, events), e);
    WaitingCatchIsFresh(Run(boot, events));
    BootHasNoCatch(hasBond, mac, identity, now);
    CatchHasASource(boot, events);
    NoCatchIsNotFresh(Run(boot, events));
  }

  lemma BootHasNoCatch(hasBond: bool, mac: int, identity: bool, now: int)
    ensures Boot(hasBond, mac, identity, now).pend == NO_CATCH
  {
  }

  lemma NoCatchIsNotFresh(l: Link)
    requires FreshCatch(l, l.pend)
    ensures l.pend != NO_CATCH
  {
  }

  // ---------------------------------------------------------------- where a catch comes from

  /** Event i is the LEN-15 the waiting catch holds, accepted while pairing, in the catch's epoch. */
  ghost predicate CaughtAt(boot: Link, events: seq<Event>, i: nat)
    requires i < |events|
  {
    var before := Run(boot, events[..i]);
    var c := Run(boot, events).pend;
    && events[i].Rx15? && c.mac == events[i].rxMac == before.bond.mac
    && c.accessAddr == events[i].accessAddr && c.typeTag == events[i].typeTag
    && c.interval == Interval(events[i].offered)
    && before.st == Pairing && before.bond.hasBond && before.radio == Listening && before.past.epoch == c.epoch
  }

  ghost predicate CaughtIn(boot: Link, events: seq<Event>)
  {
    exists i: nat :: i < |events| && CaughtAt(boot, events, i)
  }

  lemma HandlersLeaveCatch(l: Link, task: TaskId, started: bool)
    ensures Handled(l, task, started).pend == l.pend
  {
    hide Restarted, Broadcast, ConnectedEntered, Responded, QueueDropped, IdleElapsed, ProbeDue;
    hide ProbeTimedOut, StageTwo, Dropped, WindowClosed, PairingOver;
  }

  lemma AcceptedFrames(l: Link, mac: int, accessAddr: u32, typeTag: u8, offered: nat)
    ensures var m := Caught15(l, mac, accessAddr, typeTag, offered);
            && MakesNone(l, m)
            && (m.pend == l.pend ||
                (l.st == Pairing && l.bond.hasBond && l.bond.mac == mac &&
                 m.pend == Offered(l, mac, accessAddr, typeTag, offered)))
  {
    hide RestartPosted, CatchTaken;
  }

  lemma OnlyRx15Catches(l: Link, e: Event)
    requires Next(l, e).pend != l.pend
    ensures e.Rx15? && l.radio == Listening && l.st == Pairing && l.bond.hasBond && l.bond.mac == e.rxMac
    ensures Next(l, e).pend == Offered(l, e.rxMac, e.accessAddr, e.typeTag, e.offered)
  {
    hide Caught15, Polled, TxFinished, TxFailed, TurnedAround, LinkTicked, Reported, RestartPosted;
    hide Selected2G4, PairingEntered, Left, Unpaired, FactoryPaired, Disconnected, Handled;
    if e.Rx15? {
      AcceptedFrames(l, e.rxMac, e.accessAddr, e.typeTag, e.offered);
    }
    if e.Serve? {
      HandlersLeaveCatch(Taken(l, e.task), e.task, e.started);
    }
  }

  lemma {:induction false} CatchHasASource(boot: Link, events: seq<Event>)
    requires boot.pend == NO_CATCH
    ensures Run(boot, events).pend == NO_CATCH || CaughtIn(boot, events)
  {
    hide Next;
    if events != [] {
      var n := |events| - 1;
      var before := Run(boot, events[..n]);
      CatchHasASource(boot, events[..n]);
      if Run(boot, events).pend != before.pend {
        OnlyRx15Catches(before, events[n]);
        assert CaughtAt(boot, events, n);
      } else if before.pend != NO_CATCH {
        var i: nat :| i < n && CaughtAt(boot, events[..n], i);
        assert events[..n][..i] == events[..i];
        assert CaughtAt(boot, events, i);
      }
    }
  }
}
