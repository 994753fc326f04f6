/** A run that rests under a held key: the key goes down, the host leaves 2.4 GHz long enough for its report to be
    dropped, comes back, and nothing more is pressed or released. */
module LinkHeldKey {
  import opened Words
  import opened ReportRing
  import opened LinkMachine

  const KEY: Report := [0, 0, 4, 0, 0, 0, 0, 0]

  const DONGLE: int := 7

  /** What every later stage keeps: the key is the newest report, and only the teardown is known of it. */
  predicate KeyForgotten(l: Link)
  {
    && l.past.newest == Some(KEY) && !l.q.lastValid && l.bond.hasBond && l.bond.identity && l.bond.mac == DONGLE
    && l.rest == AWAKE && l.tasks.start == OFF
  }

  predicate AwayFrom2G4(l: Link)
  {
    KeyForgotten(l) && l.st == Idle && l.tasks.discard == Task(None, Some(l.now + RESELECT_KEEP_TICKS))
  }

  predicate QueueEmptied(l: Link) { KeyForgotten(l) && l.st == Idle && l.q.entries == [] }

  predicate Searching(l: Link)
  {
    KeyForgotten(l) && l.st == Pairing && l.search.bonded && l.search.rxOpen && l.q.entries == []
  }

  predicate InSession(l: Link)
  {
    && KeyForgotten(l) && l.st == Connected && l.q.entries == [] && !l.air.responsePending
    && l.tasks.restIdle == Task(None, Some(l.now + REST_IDLE_TICKS))
  }

  lemma Leaves()
    ensures AwayFrom2G4(Left(Reported(Boot(true, DONGLE, true, 0), KEY)))
  {
    var l := Boot(true, DONGLE, true, 0);
    assert Queued(l.q, KEY) == Queue([KEY], false, KEY, true);
  }

  lemma Forgets(l: Link)
    requires AwayFrom2G4(l)
    ensures var later := l.(now := l.now + RESELECT_KEEP_TICKS);
            var fired := Fired(later, DiscardHid);
            && Enabled(later, Fire(DiscardHid)) && Enabled(fired, Serve(DiscardHid, true))
            && QueueEmptied(QueueDropped(Taken(fired, DiscardHid)))
  {
  }

  lemma Returns(l: Link)
    requires QueueEmptied(l)
    ensures var s := Selected2G4(l);
            && Enabled(s, Serve(PairBcast, true))
            && Searching(Broadcast(Taken(s, PairBcast)))
  {
  }

  lemma Listens(l: Link)
    requires Searching(l)
    ensures var f := TxFinished(l);
            && Enabled(f, Serve(RxRestart, true))
            && Searching(Restarted(Taken(f, RxRestart))) && Restarted(Taken(f, RxRestart)).radio == Listening
  {
  }

  /** The dongle is heard, and its catch is waiting. */
  predicate Waiting(l: Link) { Searching(l) && l.tasks.enter.posted.Some? }

  lemma Hears(l: Link)
    requires Searching(l)
    ensures Waiting(Caught15(l, DONGLE, 1, 0, 28))
  {
    var c := Offered(l, DONGLE, 1, 0, 28);
    assert Caught15(l, DONGLE, 1, 0, 28) == CatchTaken(l, c) by {
      hide CatchTaken, RestartPosted, Searching;
      KnownDongle(l);
    }
    hide Caught15;
  }

  lemma KnownDongle(l: Link)
    requires Searching(l)
    ensures l.st == Pairing && l.bond.hasBond && l.bond.mac == DONGLE
  {
  }

  lemma Reconnects(l: Link)
    requires Waiting(l)
    ensures Enabled(l, Serve(EnterConnected, true))
    ensures InSession(ConnectedEntered(Taken(l, EnterConnected)))
  {
  }

  lemma Rests(l: Link)
    requires InSession(l)
    ensures var later := l.(now := l.now + REST_IDLE_TICKS);
            var fired := Fired(later, RestIdle);
            var r := IdleElapsed(Taken(fired, RestIdle));
            && Enabled(later, Fire(RestIdle)) && Enabled(fired, Serve(RestIdle, true))
            && r.st == Resting && r.past.newest == Some(KEY)
  {
  }

  // ---------------------------------------------------------------- the stages as one run

  lemma Then(l: Link, events: seq<Event>, a: Event)
    ensures Run(l, events + [a]) == Next(Run(l, events), a)
  {
    assert (events + [a])[..|events|] == events;
  }

  lemma ThenThree(l: Link, events: seq<Event>, a: Event, b: Event, c: Event)
    ensures Run(l, events + [a, b, c]) == Next(Next(Next(Run(l, events), a), b), c)
  {
    hide Next, Run;
    Then(l, events, a);
    Then(l, events + [a], b);
    Then(l, events + [a] + [b], c);
    assert events + [a] + [b] + [c] == events + [a, b, c];
  }

  const LEAVE := [HostReport(KEY), HostLeave, Advance(RESELECT_KEEP_TICKS)]
  const DISCARD := [Fire(DiscardHid), Serve(DiscardHid, true), HostSelect2G4]
  const SEARCH := [Serve(PairBcast, true), TxFinish, Serve(RxRestart, true)]
  const CONNECT := [Rx15(DONGLE, 1, 0, 28), Serve(EnterConnected, true), Advance(REST_IDLE_TICKS)]

  lemma ServeIs(l: Link, task: TaskId)
    requires Enabled(l, Serve(task, true))
    ensures Next(l, Serve(task, true)) == Handled(Taken(l, task), task, true)
  {
    hide Handled, Reported, Left, Selected2G4, Caught15, TxFinished;
  }

  lemma HandledIs(l: Link)
    ensures Handled(l, DiscardHid, true) == QueueDropped(l) && Handled(l, PairBcast, true) == Broadcast(l)
    ensures Handled(l, RxRestart, true) == Restarted(l) && Handled(l, RestIdle, true) == IdleElapsed(l)
    ensures Handled(l, EnterConnected, true) == ConnectedEntered(l)
  {
    hide Restarted, Broadcast, ConnectedEntered, QueueDropped, IdleElapsed, ProbeDue, Responded;
    hide ProbeTimedOut, StageTwo, Dropped, WindowClosed, PairingOver;
  }

  lemma OthersAre(l: Link, timer: TaskId)
    ensures Enabled(l, Fire(timer)) ==> Next(l, Fire(timer)) == Fired(l, timer)
    ensures Next(l, HostReport(KEY)) == Reported(l, KEY) && Next(l, HostLeave) == Left(l)
    ensures Next(l, HostSelect2G4) == Selected2G4(l) && Next(l, TxFinish) == TxFinished(l)
    ensures Next(l, Advance(RESELECT_KEEP_TICKS)) == l.(now := l.now + RESELECT_KEEP_TICKS)
    ensures Next(l, Advance(REST_IDLE_TICKS)) == l.(now := l.now + REST_IDLE_TICKS)
    ensures l.radio == Listening ==> Next(l, Rx15(DONGLE, 1, 0, 28)) == Caught15(l, DONGLE, 1, 0, 28)
  {
    hide Handled, Reported, Left, Selected2G4, Caught15, TxFinished;
  }

  predicate Selected(l: Link)
  {
    Enabled(l, Serve(PairBcast, true)) && Searching(Broadcast(Taken(l, PairBcast)))
  }

  lemma AfterLeave()
    ensures var l := Boot(true, DONGLE, true, 0);
            AwayFrom2G4(Next(Next(l, HostReport(KEY)), HostLeave))
  {
    var l := Boot(true, DONGLE, true, 0);
    hide AwayFrom2G4, Next;
    OthersAre(l, RestIdle);
    OthersAre(Reported(l, KEY), RestIdle);
    Leaves();
  }

  lemma AfterDiscard(l: Link)
    requires AwayFrom2G4(l)
    ensures var later := Next(l, Advance(RESELECT_KEEP_TICKS));
            Selected(Next(Next(Next(later, Fire(DiscardHid)), Serve(DiscardHid, true)), HostSelect2G4))
  {
    hide Next, AwayFrom2G4, Enabled, Fired, Handled, QueueDropped, Selected2G4, Searching, QueueEmptied, Taken;
    var later := l.(now := l.now + RESELECT_KEEP_TICKS);
    OthersAre(l, RestIdle);
    Forgets(l);
    OthersAre(later, DiscardHid);
    var fired := Fired(later, DiscardHid);
    ServeIs(fired, DiscardHid);
    HandledIs(Taken(fired, DiscardHid));
    var d := QueueDropped(Taken(fired, DiscardHid));
    OthersAre(d, RestIdle);
    Returns(d);
  }

  lemma AfterSearch(l: Link)
    requires Selected(l)
    ensures var m := Next(Next(Next(l, Serve(PairBcast, true)), TxFinish), Serve(RxRestart, true));
            Searching(m) && m.radio == Listening
  {
    hide Next, Enabled, Handled, Broadcast, TxFinished, Restarted, Searching, Taken;
    ServeIs(l, PairBcast);
    HandledIs(Taken(l, PairBcast));
    var b := Broadcast(Taken(l, PairBcast));
    Listens(b);
    OthersAre(b, RestIdle);
    ServeIs(TxFinished(b), RxRestart);
    HandledIs(Taken(TxFinished(b), RxRestart));
  }

  lemma AfterConnect(l: Link)
    requires Searching(l) && l.radio == Listening
    ensures InSession(Next(Next(l, Rx15(DONGLE, 1, 0, 28)), Serve(EnterConnected, true)))
  {
    hide Next, Enabled, Handled, Caught15, ConnectedEntered, Searching, Waiting, InSession, Taken;
    OthersAre(l, RestIdle);
    Hears(l);
    var c := Caught15(l, DONGLE, 1, 0, 28);
    Reconnects(c);
    ServeIs(c, EnterConnected);
    HandledIs(Taken(c, EnterConnected));
  }

  lemma AfterRest(l: Link)
    requires InSession(l)
    ensures var r := Next(Next(Next(l, Advance(REST_IDLE_TICKS)), Fire(RestIdle)), Serve(RestIdle, true));
            r.st == Resting && r.past.newest == Some(KEY)
  {
    hide Next, Enabled, Handled, Fired, IdleElapsed, InSession, Taken;
    OthersAre(l, RestIdle);
    Rests(l);
    var later := l.(now := l.now + REST_IDLE_TICKS);
    OthersAre(later, RestIdle);
    ServeIs(Fired(later, RestIdle), RestIdle);
    HandledIs(Taken(Fired(later, RestIdle), RestIdle));
  }

  /** The link rests with the newest report, neither delivered nor taken back, holding a key. */
  lemma RestsUnderAHeldKey()
    ensures var events := LEAVE + DISCARD + SEARCH + CONNECT + [Fire(RestIdle), Serve(RestIdle, true)];
            var l := Run(Boot(true, DONGLE, true, 0), events);
            l.st == Resting && l.past.newest == Some(KEY) && HoldsKey(KEY)
  {
    hide Next, Boot, AwayFrom2G4, Selected, Searching, InSession;
    var boot := Boot(true, DONGLE, true, 0);
    ThenThree(boot, [], HostReport(KEY), HostLeave, Advance(RESELECT_KEEP_TICKS));
    assert [] + LEAVE == LEAVE;
    AfterLeave();
    var away := Next(Next(boot, HostReport(KEY)), HostLeave);
    ThenThree(boot, LEAVE, DISCARD[0], DISCARD[1], DISCARD[2]);
    AfterDiscard(away);
    var selected := Run(boot, LEAVE + DISCARD);
    ThenThree(boot, LEAVE + DISCARD, SEARCH[0], SEARCH[1], SEARCH[2]);
    AfterSearch(selected);
    var listening := Run(boot, LEAVE + DISCARD + SEARCH);
    ThenThree(boot, LEAVE + DISCARD + SEARCH, CONNECT[0], CONNECT[1], CONNECT[2]);
    AfterConnect(listening);
    var session := Next(Next(listening, CONNECT[0]), CONNECT[1]);
    ThenTwo(boot, LEAVE + DISCARD + SEARCH + CONNECT, Fire(RestIdle), Serve(RestIdle, true));
    AfterRest(session);
  }

  lemma ThenTwo(l: Link, events: seq<Event>, a: Event, b: Event)
    ensures Run(l, events + [a, b]) == Next(Next(Run(l, events), a), b)
  {
    hide Next, Run;
    Then(l, events, a);
    Then(l, events + [a], b);
    assert events + [a] + [b] == events + [a, b];
  }
}
