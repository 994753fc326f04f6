/** Why a probe's timeout must be served in time: a run in which it is not, and resting comes to a stop. */
module LinkStall {
  import opened Words
  import opened ReportRing
  import opened LinkMachine
  import opened LinkHeldKey
  import opened LinkRest

  /** Resting with no probe running and none to come. */
  predicate Stuck(l: Link)
  {
    && l.st == Resting && !l.rest.probe && !l.rest.quietPending && l.tasks.restProbe == OFF
    && !l.air.responsePending && !l.air.turnaround && l.radio == Shut && l.tasks.enter == OFF
    && l.tasks.restProbeTimeout == OFF && l.tasks.start == OFF
  }

  predicate Stalled(l: Link) { Stuck(l) && l.rest.stage == 1 }

  // ---------------------------------------------------------------- the stages of the run

  predicate Bonded(l: Link)
  {
    && l.bond.hasBond && l.bond.identity && l.bond.mac == DONGLE && l.q.entries == [] && !l.q.lastValid
    && l.tasks.start == OFF
  }

  predicate Hunting(l: Link)
  {
    && Bonded(l) && l.st == Pairing && l.search.bonded && l.search.rxOpen && l.rest == AWAKE
    && l.tasks.restProbe == OFF
  }

  predicate Joining(l: Link) { Hunting(l) && l.tasks.enter.posted.Some? }

  predicate Linked(l: Link)
  {
    && Bonded(l) && l.st == Connected && l.rest == AWAKE && !l.air.responsePending && l.tasks.restProbe == OFF
    && l.tasks.restIdle == Task(None, Some(l.now + REST_IDLE_TICKS))
  }

  predicate AtEase(l: Link)
  {
    && Bonded(l) && l.st == Resting && l.rest == AWAKE.(stage := 1)
    && l.tasks.restProbe == Task(None, Some(l.now + REST_PROBE_TICKS)) && l.tasks.restProbeTimeout == OFF
  }

  predicate Probing(l: Link)
  {
    && Silent(l) && l.st == Pairing && l.rest.stage == 1 && l.tasks.start == OFF
    && l.tasks.restProbe == Task(None, Some(l.now + REST_PROBE_TICKS))
    && l.tasks.restProbeTimeout == Task(None, Some(l.now + REST_PROBE_TIMEOUT_TICKS))
  }

  /** Both timers of the probe have come up, the timeout 976 ticks late. */
  predicate Overtaken(l: Link)
  {
    && Silent(l) && l.st == Pairing && l.rest.stage == 1 && l.tasks.start == OFF
    && l.tasks.restProbe == Task(Some(l.now), None)
    && l.tasks.restProbeTimeout == Task(None, Some(l.now - MAX_DELAY))
  }

  lemma BootHunts()
    ensures Hunting(Boot(true, DONGLE, true, 0)) && Enabled(Boot(true, DONGLE, true, 0), Serve(PairBcast, true))
  {
  }

  lemma Beacons(l: Link)
    requires Hunting(l) && l.tasks.bcast.posted.Some?
    ensures Hunting(Broadcast(Taken(l, PairBcast)))
  {
  }

  lemma Receives(l: Link)
    requires Hunting(l)
    ensures var f := TxFinished(l);
            && Enabled(f, Serve(RxRestart, true))
            && Hunting(Restarted(Taken(f, RxRestart))) && Restarted(Taken(f, RxRestart)).radio == Listening
  {
  }

  lemma Catches(l: Link)
    requires Hunting(l)
    ensures Joining(Caught15(l, DONGLE, 1, 0, 28))
  {
    assert Caught15(l, DONGLE, 1, 0, 28) == CatchTaken(l, Offered(l, DONGLE, 1, 0, 28));
    hide Caught15;
  }

  lemma Joins(l: Link)
    requires Joining(l)
    ensures Enabled(l, Serve(EnterConnected, true)) && Linked(ConnectedEntered(Taken(l, EnterConnected)))
  {
  }

  lemma ComesToRest(l: Link)
    requires Linked(l)
    ensures var later := l.(now := l.now + REST_IDLE_TICKS);
            var fired := Fired(later, RestIdle);
            && Enabled(later, Fire(RestIdle)) && Enabled(fired, Serve(RestIdle, true))
            && AtEase(IdleElapsed(Taken(fired, RestIdle)))
  {
  }

  lemma Probes(l: Link)
    requires AtEase(l)
    ensures var later := l.(now := l.now + REST_PROBE_TICKS);
            var fired := Fired(later, RestProbe);
            && Enabled(later, Fire(RestProbe)) && Enabled(fired, Serve(RestProbe, true))
            && Probing(ProbeDue(Taken(fired, RestProbe)))
  {
  }

  lemma IsOvertaken(l: Link)
    requires Probing(l)
    ensures var later := l.(now := l.now + REST_PROBE_TICKS);
            Enabled(later, Fire(RestProbe)) && Overtaken(Fired(later, RestProbe))
  {
  }

  /** The probe's event is dropped in the probe, and the timeout then ends it. */
  lemma Drops(l: Link)
    requires Overtaken(l)
    ensures var dropped := ProbeDue(Taken(l, RestProbe));
            var fired := Fired(dropped, RestProbeTimeout);
            && Enabled(l, Serve(RestProbe, true)) && Enabled(dropped, Fire(RestProbeTimeout))
            && Enabled(fired, Serve(RestProbeTimeout, true))
            && Stalled(ProbeTimedOut(Taken(fired, RestProbeTimeout)))
  {
  }

  // ---------------------------------------------------------------- and as one run

  lemma AlsoHandled(l: Link)
    ensures Handled(l, RestProbe, true) == ProbeDue(l) && Handled(l, RestProbeTimeout, true) == ProbeTimedOut(l)
  {
    hide Restarted, Broadcast, ConnectedEntered, QueueDropped, IdleElapsed, ProbeDue, Responded;
    hide ProbeTimedOut, StageTwo, Dropped, WindowClosed, PairingOver;
  }

  lemma Later(l: Link, ticks: nat)
    ensures Next(l, Advance(ticks)) == l.(now := l.now + ticks)
  {
    hide Handled, Reported, Left, Selected2G4, Caught15, TxFinished;
  }

  const FIND := [Serve(PairBcast, true), TxFinish, Serve(RxRestart, true)]
  const JOIN := [Rx15(DONGLE, 1, 0, 28), Serve(EnterConnected, true), Advance(REST_IDLE_TICKS)]
  const PROBE := [Advance(REST_PROBE_TICKS)] + [Fire(RestProbe)] + [Serve(RestProbe, true)]
  const WAIT := [Advance(REST_PROBE_TICKS)] + [Fire(RestProbe)]
  const LATE := [Serve(RestProbe, true)] + [Fire(RestProbeTimeout)] + [Serve(RestProbeTimeout, true)]

  lemma AfterFind()
    ensures var l := Boot(true, DONGLE, true, 0);
            var m := Next(Next(Next(l, FIND[0]), FIND[1]), FIND[2]);
            Hunting(m) && m.radio == Listening
  {
    hide Next, Boot, Enabled, Handled, Broadcast, TxFinished, Restarted, Hunting, Taken;
    var l := Boot(true, DONGLE, true, 0);
    BootHunts();
    ServeIs(l, PairBcast);
    HandledIs(Taken(l, PairBcast));
    BootPosts();
    Beacons(l);
    var b := Broadcast(Taken(l, PairBcast));
    Receives(b);
    OthersAre(b, RestIdle);
    ServeIs(TxFinished(b), RxRestart);
    HandledIs(Taken(TxFinished(b), RxRestart));
  }

  lemma BootPosts()
    ensures Boot(true, DONGLE, true, 0).tasks.bcast.posted.Some?
  {
  }

  lemma AfterJoin(l: Link)
    requires Hunting(l) && l.radio == Listening
    ensures Linked(Next(Next(l, JOIN[0]), JOIN[1]))
  {
    hide Next, Enabled, Handled, Caught15, ConnectedEntered, Hunting, Joining, Linked, Taken;
    OthersAre(l, RestIdle);
    Catches(l);
    var c := Caught15(l, DONGLE, 1, 0, 28);
    Joins(c);
    ServeIs(c, EnterConnected);
    HandledIs(Taken(c, EnterConnected));
  }

  lemma AfterRest(l: Link)
    requires Linked(l)
    ensures var due := Next(Next(l, Advance(REST_IDLE_TICKS)), Fire(RestIdle));
            due.st == Connected && due.tasks.restIdle.posted.Some? && AtEase(Next(due, Serve(RestIdle, true)))
  {
    hide Next, Enabled, Handled, Fired, IdleElapsed, Linked, AtEase, Taken;
    Later(l, REST_IDLE_TICKS);
    ComesToRest(l);
    var later := l.(now := l.now + REST_IDLE_TICKS);
    OthersAre(later, RestIdle);
    IdleFires(l);
    ServeIs(Fired(later, RestIdle), RestIdle);
    HandledIs(Taken(Fired(later, RestIdle), RestIdle));
  }

  lemma IdleFires(l: Link)
    requires Linked(l)
    ensures var fired := Fired(l.(now := l.now + REST_IDLE_TICKS), RestIdle);
            fired.st == Connected && fired.tasks.restIdle.posted.Some?
  {
  }

  lemma OneMoreAtRest(l: Link, events: seq<Event>, e: Event, m: Link, delay: nat)
    requires LeftToRest(l, events, delay) && !FromHost(e) && Next(Run(l, events), e) == m && Prompt(m, delay)
    ensures LeftToRest(l, events + [e], delay) && Run(l, events + [e]) == m
  {
    assert (events + [e])[..|events|] == events;
  }

  lemma ProbingIsPrompt(l: Link)
    requires AtEase(l)
    ensures var later := l.(now := l.now + REST_PROBE_TICKS);
            var fired := Fired(later, RestProbe);
            && Prompt(later, MAX_DELAY + 1) && Prompt(fired, MAX_DELAY + 1)
            && Prompt(ProbeDue(Taken(fired, RestProbe)), MAX_DELAY + 1)
  {
  }

  lemma AfterProbe(l: Link)
    requires AtEase(l)
    ensures LeftToRest(l, PROBE, MAX_DELAY + 1) && Probing(Run(l, PROBE))
  {
    hide Next, Enabled, Handled, Fired, ProbeDue, AtEase, Probing, Taken, Prompt;
    var later := l.(now := l.now + REST_PROBE_TICKS);
    Probes(l);
    var fired := Fired(later, RestProbe);
    Later(l, REST_PROBE_TICKS);
    ProbingIsPrompt(l);
    OthersAre(later, RestProbe);
    ServeIs(fired, RestProbe);
    AlsoHandled(Taken(fired, RestProbe));
    OneMoreAtRest(l, [], Advance(REST_PROBE_TICKS), later, MAX_DELAY + 1);
    assert [] + [Advance(REST_PROBE_TICKS)] == [Advance(REST_PROBE_TICKS)];
    OneMoreAtRest(l, [Advance(REST_PROBE_TICKS)], Fire(RestProbe), fired, MAX_DELAY + 1);
    OneMoreAtRest(l, [Advance(REST_PROBE_TICKS)] + [Fire(RestProbe)], Serve(RestProbe, true),
                  ProbeDue(Taken(fired, RestProbe)), MAX_DELAY + 1);
  }

  lemma LateIsPrompt(l: Link)
    requires Overtaken(l)
    ensures var dropped := ProbeDue(Taken(l, RestProbe));
            var fired := Fired(dropped, RestProbeTimeout);
            && Prompt(l, MAX_DELAY + 1) && Prompt(dropped, MAX_DELAY + 1) && Prompt(fired, MAX_DELAY + 1)
            && Prompt(ProbeTimedOut(Taken(fired, RestProbeTimeout)), MAX_DELAY + 1)
  {
  }

  lemma LaterIsPrompt(l: Link)
    requires Probing(l)
    ensures Prompt(l.(now := l.now + REST_PROBE_TICKS), MAX_DELAY + 1)
  {
  }

  lemma AfterWait(l: Link)
    requires Probing(l)
    ensures LeftToRest(l, WAIT, MAX_DELAY + 1) && Overtaken(Run(l, WAIT))
  {
    hide Next, Enabled, Fired, Probing, Overtaken, Prompt;
    Later(l, REST_PROBE_TICKS);
    IsOvertaken(l);
    LaterIsPrompt(l);
    var later := l.(now := l.now + REST_PROBE_TICKS);
    OthersAre(later, RestProbe);
    LateIsPrompt(Fired(later, RestProbe));
    OneMoreAtRest(l, [], Advance(REST_PROBE_TICKS), later, MAX_DELAY + 1);
    assert [] + [Advance(REST_PROBE_TICKS)] == [Advance(REST_PROBE_TICKS)];
    OneMoreAtRest(l, [Advance(REST_PROBE_TICKS)], Fire(RestProbe), Fired(later, RestProbe), MAX_DELAY + 1);
  }

  lemma AfterLate(l: Link)
    requires Overtaken(l)
    ensures LeftToRest(l, LATE, MAX_DELAY + 1) && Stalled(Run(l, LATE))
  {
    hide Next, Enabled, Handled, Fired, ProbeDue, ProbeTimedOut, Overtaken, Stalled, Taken, Prompt;
    Drops(l);
    LateIsPrompt(l);
    ServeIs(l, RestProbe);
    AlsoHandled(Taken(l, RestProbe));
    var d := ProbeDue(Taken(l, RestProbe));
    var f := Fired(d, RestProbeTimeout);
    OthersAre(d, RestProbeTimeout);
    ServeIs(f, RestProbeTimeout);
    AlsoHandled(Taken(f, RestProbeTimeout));
    OneMoreAtRest(l, [], Serve(RestProbe, true), d, MAX_DELAY + 1);
    assert [] + [Serve(RestProbe, true)] == [Serve(RestProbe, true)];
    OneMoreAtRest(l, [Serve(RestProbe, true)], Fire(RestProbeTimeout), f, MAX_DELAY + 1);
    OneMoreAtRest(l, [Serve(RestProbe, true)] + [Fire(RestProbeTimeout)], Serve(RestProbeTimeout, true),
                  ProbeTimedOut(Taken(f, RestProbeTimeout)), MAX_DELAY + 1);
  }

  // ---------------------------------------------------------------- nothing but the host gets it going again

  lemma StaysStalled(l: Link, e: Event)
    requires Stuck(l) && !FromHost(e)
    ensures Stuck(Next(l, e))
  {
    hide Reported, Left, Selected2G4, PairingEntered, Unpaired, FactoryPaired, Disconnected;
    NextIs(l, e);
  }

  predicate NoHost(events: seq<Event>)
  {
    forall i :: 0 <= i < |events| ==> !FromHost(events[i])
  }

  lemma {:induction false} StalledForGood(l: Link, events: seq<Event>)
    requires Stuck(l) && NoHost(events)
    ensures Stuck(Run(l, events))
  {
    if events != [] {
      hide Next, Stuck;
      StalledForGood(l, events[..|events| - 1]);
      StaysStalled(Run(l, events[..|events| - 1]), events[|events| - 1]);
    }
  }

  // ---------------------------------------------------------------- the delay is exact

  lemma {:induction false} RunsOn(l: Link, first: seq<Event>, more: seq<Event>)
    ensures Run(l, first + more) == Run(Run(l, first), more)
  {
    if more == [] {
      assert first + more == first;
    } else {
      RunsOn(l, first, more[..|more| - 1]);
      assert (first + more)[..|first + more| - 1] == first + more[..|more| - 1];
    }
  }

  lemma {:induction false} RestsOn(l: Link, first: seq<Event>, more: seq<Event>, delay: nat)
    requires LeftToRest(l, first, delay) && LeftToRest(Run(l, first), more, delay)
    ensures LeftToRest(l, first + more, delay)
  {
    if more == [] {
      assert first + more == first;
    } else {
      RunsOn(l, first, more);
      RestsOn(l, first, more[..|more| - 1], delay);
      assert (first + more)[..|first + more| - 1] == first + more[..|more| - 1];
    }
  }

  /** The link about to be rested by its idle timer, at the end of a run from boot. */
  predicate AboutToRest(l: Link, started: bool)
  {
    l.st == Connected && l.tasks.restIdle.posted.Some? && Next(l, Serve(RestIdle, started)).st == Resting
  }

  lemma ReachesRest()
    ensures var l := Run(Boot(true, DONGLE, true, 0), FIND + JOIN + [Fire(RestIdle)]);
            AboutToRest(l, true) && AtEase(Next(l, Serve(RestIdle, true)))
  {
    var boot := Boot(true, DONGLE, true, 0);
    hide Next, Boot, Hunting, Linked;
    ThenThree(boot, [], FIND[0], FIND[1], FIND[2]);
    assert [] + FIND == FIND;
    AfterFind();
    ThenThree(boot, FIND, JOIN[0], JOIN[1], JOIN[2]);
    AfterJoin(Run(boot, FIND));
    Then(boot, FIND + JOIN, Fire(RestIdle));
    AfterRest(Next(Next(Run(boot, FIND), JOIN[0]), JOIN[1]));
  }

  /** A run from boot in which the timeout of a probe is found 976 ticks late, and no later: the link comes to
      rest in stage 1 with no probe armed, and until the host says something none ever runs again. */
  lemma LaterTimeoutsStallRest(events: seq<Event>)
    requires NoHost(events)
    ensures var l := Run(Boot(true, DONGLE, true, 0), FIND + JOIN + [Fire(RestIdle)]);
            var r := Next(l, Serve(RestIdle, true));
            var m := Run(r, PROBE + WAIT + LATE);
            && AboutToRest(l, true) && LeftToRest(r, PROBE + WAIT + LATE, MAX_DELAY + 1)
            && m.st == Resting && m.rest.stage == 1 && !m.rest.probe && !m.tasks.restProbe.Active()
            && Run(m, events).st == Resting && !Run(m, events).tasks.restProbe.Active()
  {
    hide Next, Boot, AtEase, Probing, AboutToRest, LeftToRest, PROBE, WAIT, LATE, FIND, JOIN, Run;
    ReachesRest();
    var r := Next(Run(Boot(true, DONGLE, true, 0), FIND + JOIN + [Fire(RestIdle)]), Serve(RestIdle, true));
    AfterProbe(r);
    AfterWait(Run(r, PROBE));
    RunsOn(r, PROBE, WAIT);
    RestsOn(r, PROBE, WAIT, MAX_DELAY + 1);
    AfterLate(Run(r, PROBE + WAIT));
    RunsOn(r, PROBE + WAIT, LATE);
    RestsOn(r, PROBE + WAIT, LATE, MAX_DELAY + 1);
    StalledForGood(Run(r, PROBE + WAIT + LATE), events);
  }

  /** In one run of a rest, no REST_PROBE_TIMEOUT kept waiting for `delay`, stage 1 has its next probe armed. */
  predicate ArmedThrough(boot: Link, before: seq<Event>, started: bool, events: seq<Event>, delay: nat)
  {
    var l := Run(boot, before);
    AboutToRest(l, started) && LeftToRest(Next(l, Serve(RestIdle, started)), events, delay) ==>
      NextProbeArmed(Run(Next(l, Serve(RestIdle, started)), events))
  }

  lemma {:induction false} LeftLonger(l: Link, events: seq<Event>, delay: nat, longer: nat)
    requires LeftToRest(l, events, delay) && delay <= longer
    ensures LeftToRest(l, events, longer)
  {
    if events != [] {
      LeftLonger(l, events[..|events| - 1], delay, longer);
    }
  }

  /** The limit, exactly: rest never stalls, in any run from any boot, if and only if its probes' timeouts are
      kept waiting for less than 976 ticks. */
  lemma NeverStallsExactly(delay: nat)
    ensures (forall hasBond: bool, mac: int, identity: bool, now: int, before: seq<Event>, started: bool,
               events: seq<Event> :: ArmedThrough(Boot(hasBond, mac, identity, now), before, started, events, delay))
            <==> delay <= MAX_DELAY
  {
    hide Next, Boot, Run, NextProbeArmed, LeftToRest, PROBE, WAIT, LATE, FIND, JOIN;
    if delay <= MAX_DELAY {
      forall hasBond: bool, mac: int, identity: bool, now: int, before: seq<Event>, started: bool, events: seq<Event>
        ensures ArmedThrough(Boot(hasBond, mac, identity, now), before, started, events, delay)
      {
        var l := Run(Boot(hasBond, mac, identity, now), before);
        var r := Next(l, Serve(RestIdle, started));
        if AboutToRest(l, started) && LeftToRest(r, events, delay) {
          LeftLonger(r, events, delay, MAX_DELAY);
          RestIsSilentAndNeverStalls(hasBond, mac, identity, now, before, started, events);
        }
      }
    } else {
      LaterTimeoutsStallRest([]);
      var r := Next(Run(Boot(true, DONGLE, true, 0), FIND + JOIN + [Fire(RestIdle)]), Serve(RestIdle, true));
      LeftLonger(r, PROBE + WAIT + LATE, MAX_DELAY + 1, delay);
      StalledIsUnarmed(Run(r, PROBE + WAIT + LATE));
      var before := FIND + JOIN + [Fire(RestIdle)];
      assert !ArmedThrough(Boot(true, DONGLE, true, 0), before, true, PROBE + WAIT + LATE, delay);
    }
  }

  lemma StalledIsUnarmed(l: Link)
    requires l.rest.stage == 1 && !l.rest.probe && !l.tasks.restProbe.Active()
    ensures !NextProbeArmed(l)
  {
  }
}
