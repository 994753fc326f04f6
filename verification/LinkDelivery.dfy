/** Rest and delivery: the link and the uplink as one run, so that what the link asks of its queue before it rests
    is what the dongle has heard. The link's events are the uplink's too; the dongle adds its control bit and the
    hearing of what is in the air. */
module LinkDelivery {
  import opened Words
  import opened ReportRing
  import opened LinkMachine
  import opened LinkSafety
  import opened LinkReports
  import L = ReportLink
  import D = ReportDelivery

  datatype Happening =
    | Other(e: Event)         // any event of the link but the two below
    | Caught(rx: bv8)         // a poll with the dongle's control byte
    | Joins(dongle: bool)     // the catch is served, the dongle's bit being whatever it is
    | Hears                   // the transmission in the air reaches the dongle

  datatype Joint = Joint(
    l: Link,
    w: D.World,
    log: seq<D.Event>)        // the uplink's own run so far

  function JointBoot(hasBond: bool, mac: int, identity: bool, now: int): Joint
  {
    Joint(Boot(hasBond, mac, identity, now), D.START, [])
  }

  /** What a link event means for the uplink. */
  function Echo(l: Link, e: Event): seq<D.Event>
  {
    match e
    case TxFinish => [D.TxEnd, D.ForceRelease]
    case TxFail => [D.TxEnd, D.ForceRelease]
    case Turnaround => [D.Turnaround]
    case Serve(task, started) => ServedEcho(Taken(l, task), task, started)
    case Tick(overdue, hops) => TickEcho(l, overdue, hops)
    case HostReport(r) => [D.Host(r)]
    case HostLeave => [D.Leave]
    case Quit => [D.Leave]
    case HostUnpair => [D.Leave, D.Discard]
    case HostFactoryPair => if l.bond.identity then [D.Leave, D.Discard] else []
    case _ => []
  }

  function ServedEcho(l: Link, task: TaskId, started: bool): seq<D.Event>
  {
    match task
    case RxRestart => [D.Rearm]
    case Respond => [D.Serve(started)]
    case DiscardHid => if l.st == Idle then [D.Discard] else []
    case RestIdle => if l.st == Connected && !l.rest.probe && MayRest(l) then [D.Rest] else []
    case RestProbeTimeout => if Silent(l) then [D.Rest] else []
    case Disconnect => if l.st == Connected then [D.Lapse] else []
    case _ => []
  }

  function TickEcho(l: Link, overdue: bool, hops: bool): seq<D.Event>
  {
    if l.st != Connected then []
    else if l.rest.quietPending && !l.air.responsePending then [D.Rest]
    else if l.air.responsePending && !overdue then []
    else [D.ForceRelease] + if hops then [D.Rearm] else []
  }

  function Did(w: D.World, e: D.Event): D.World { if D.Enabled(w, e) then D.Next(w, e) else w }

  function DidAll(w: D.World, events: seq<D.Event>): D.World
  {
    if events == [] then w else Did(DidAll(w, events[..|events| - 1]), events[|events| - 1])
  }

  /** The dongle's bit has moved. */
  predicate Moved(w: D.World, rx: bv8) { L.Bit0(rx) != L.Bit0(w.k.txCtrl) }

  /** The event of the link, and its echo. */
  function LinkEvent(j: Joint, h: Happening): Event
  {
    match h
    case Other(e) => e
    case Caught(rx) => RxPoll(Moved(j.w, rx))
    case Joins(_) => Serve(EnterConnected, true)
    case Hears => Advance(0)
  }

  function UplinkEvents(j: Joint, h: Happening): seq<D.Event>
  {
    if !Enabled(j.l, LinkEvent(j, h)) then []
    else
      match h
      case Other(e) => Echo(j.l, e)
      case Caught(rx) => if j.l.st == Connected then [D.Poll(rx)] else []
      case Joins(dongle) => if j.l.st == Pairing then [D.Connect(dongle)] else []
      case Hears => [D.Hear]
  }

  function JointNext(j: Joint, h: Happening): Joint
  {
    Joint(Next(j.l, LinkEvent(j, h)), DidAll(j.w, UplinkEvents(j, h)), j.log + UplinkEvents(j, h))
  }

  /** A poll carries the dongle's bit as it is. */
  predicate MayHappen(j: Joint, h: Happening)
  {
    match h
    case Other(e) => !e.RxPoll? && (e.Serve? ==> e.task != EnterConnected)
    case Caught(rx) => L.Bit0(rx) == j.w.dongle
    case _ => true
  }

  /** The two tell the same story, */
  predicate Matches(l: Link, w: D.World)
  {
    MatchesApart(l, w) && (l.st == Connected ==> l.air.responsePending == w.k.responsePending)
  }

  /** whatever they say of a pending response. */
  predicate MatchesApart(l: Link, w: D.World)
  {
    && l.q == w.k.queue
    && (w.up <==> l.st == Connected)
    && (l.st == Connected && l.radio == Listening ==> w.radio == D.Listening)
    && (l.air.turnaround ==> w.turnaround)
    && l.tasks.respond.due.None? && (l.tasks.respond.posted.Some? ==> w.respond)
  }

  // ---------------------------------------------------------------- each event keeps them matched

  lemma ReleaseMatches(l: Link, w: D.World)
    requires Matches(l, w)
    ensures var m := l.(air := l.air.(responsePending := false));
            Matches(m, Did(w, D.ForceRelease)) && Matches(m, Did(Did(w, D.TxEnd), D.ForceRelease))
  {
    EndMatches(l, w);
    ForcedMatches(l, w);
    ForcedMatches(l, Did(w, D.TxEnd));
    hide MatchesApart, Did;
  }

  lemma EndMatches(l: Link, w: D.World)
    requires MatchesApart(l, w)
    ensures MatchesApart(l, Did(w, D.TxEnd))
  {
  }

  lemma ForcedMatches(l: Link, w: D.World)
    requires MatchesApart(l, w)
    ensures Matches(l.(air := l.air.(responsePending := false)), Did(w, D.ForceRelease))
  {
  }

  lemma PostedMatches(l: Link, w: D.World, rest: Rest)
    requires Matches(l, w)
    ensures Matches(RestartPosted(l), w) && Matches(RestartPosted(l.(rest := rest)), w)
  {
  }

  lemma TxMatches(l: Link, w: D.World)
    requires Matches(l, w)
    ensures var w' := Did(Did(w, D.TxEnd), D.ForceRelease);
            Matches(TxFinished(l), w') && Matches(TxFailed(l), w')
  {
    ReleaseMatches(l, w);
    var m, w' := l.(air := l.air.(responsePending := false)), Did(Did(w, D.TxEnd), D.ForceRelease);
    PostedMatches(m, w', AnswerCounted(l));
    assert l.(rest := AnswerCounted(l), air := m.air) == m.(rest := AnswerCounted(l));
    hide Matches, Did, RestartPosted, AnswerCounted;
  }

  lemma TurnaroundMatches(l: Link, w: D.World)
    requires Matches(l, w) && l.air.turnaround
    ensures Matches(TurnedAround(l), Did(w, D.Turnaround))
  {
  }

  lemma PollMatches(l: Link, w: D.World, rx: bv8)
    requires Matches(l, w) && l.radio == Listening && L.Bit0(rx) == w.dongle
    ensures l.st == Connected ==> Matches(Polled(l, Moved(w, rx)), Did(w, D.Poll(rx)))
    ensures l.st != Connected ==> Matches(Polled(l, Moved(w, rx)), w)
  {
  }

  lemma ConnectMatches(l: Link, w: D.World, dongle: bool)
    requires Matches(l, w)
    ensures var m := ConnectedEntered(Taken(l, EnterConnected));
            Matches(m, if l.st == Pairing then Did(w, D.Connect(dongle)) else w)
  {
  }

  lemma HearMatches(l: Link, w: D.World)
    requires Matches(l, w)
    ensures Matches(l, Did(w, D.Hear))
  {
  }

  lemma RespondMatches(l: Link, w: D.World, started: bool)
    requires Matches(l, w) && l.tasks.respond.posted.Some?
    ensures Matches(Responded(Taken(l, Respond), started), Did(w, D.Serve(started)))
  {
  }

  lemma RestartMatches(l: Link, w: D.World)
    requires Matches(l, w)
    ensures Matches(Restarted(l), Did(w, D.Rearm))
  {
  }

  lemma QuietMatches(l: Link, w: D.World)
    requires Matches(l, w)
    ensures Matches(GoneQuiet(l), Did(w, D.Rest)) && Matches(RestEntered(l), Did(w, D.Rest))
  {
  }

  lemma TeardownMatches(l: Link, w: D.World)
    requires Matches(l, w)
    ensures l.st == Connected ==> Matches(Dropped(l), Did(w, D.Lapse))
    ensures Matches(Disconnected(l), Did(w, D.Leave)) && Matches(Left(l), Did(w, D.Leave))
  {
  }

  lemma DiscardMatches(l: Link, w: D.World)
    requires Matches(l, w) && l.st == Idle
    ensures Matches(QueueDropped(l), Did(w, D.Discard)) && Matches(BondCleared(l), Did(w, D.Discard))
  {
  }

  lemma ReportMatches(l: Link, w: D.World, r: Report)
    requires Matches(l, w)
    ensures Matches(Reported(l, r), Did(w, D.Host(r)))
  {
  }

  lemma DidOneOrTwo(w: D.World, a: D.Event, b: D.Event)
    ensures DidAll(w, [a]) == Did(w, a) && DidAll(w, [a, b]) == Did(Did(w, a), b) && DidAll(w, []) == w
  {
    hide Did;
    assert [a][..0] == [] && [a, b][..1] == [a];
    assert DidAll(w, [a]) == Did(w, a);
  }

  lemma RearmMatches(l: Link, w: D.World)
    requires Matches(l, w) && l.st == Connected
    ensures Matches(l.(radio := Listening), Did(w, D.Rearm))
  {
  }

  lemma KickMatches(l: Link, w: D.World)
    requires Matches(l, w)
    ensures Matches(Kicked(l), w) && Kicked(l).st == l.st && Kicked(l).air.responsePending == l.air.responsePending
  {
  }

  lemma TickMatches(l: Link, w: D.World, overdue: bool, hops: bool)
    requires Matches(l, w)
    ensures Matches(LinkTicked(l, overdue, hops), DidAll(w, TickEcho(l, overdue, hops)))
  {
    DidOneOrTwo(w, D.ForceRelease, D.Rearm);
    DidOneOrTwo(w, D.Rest, D.Rearm);
    QuietMatches(l, w);
    KickMatches(l, w);
    var k := Kicked(l);
    ReleaseMatches(k, w);
    var released := k.(air := k.air.(responsePending := false));
    if l.st == Connected {
      RearmMatches(released, Did(w, D.ForceRelease));
    }
    hide Matches, Did, DidAll, Kicked, GoneQuiet;
  }

  lemma PairMatches(l: Link, w: D.World)
    requires Matches(l, w)
    ensures Matches(PairingEntered(l), w) && Matches(Selected2G4(l), w)
  {
  }

  lemma SearchMatches(l: Link, w: D.World)
    requires Matches(l, w)
    ensures Matches(Broadcast(l), w) && Matches(WindowClosed(l), w) && Matches(PairingOver(l), w)
    ensures l.st != Connected ==> Matches(StartedUp(l), w)
  {
  }

  lemma ProbeMatches(l: Link, w: D.World)
    requires Matches(l, w)
    ensures Matches(ProbeDue(l), w) && Matches(StageTwo(l), w)
    ensures !Silent(l) ==> Matches(ProbeTimedOut(l), w)
    ensures !(l.st == Connected && !l.rest.probe && MayRest(l)) ==> Matches(IdleElapsed(l), w)
  {
  }

  lemma AirMatches(l: Link, w: D.World, mac: int, accessAddr: u32, typeTag: u8, offered: nat)
    requires Matches(l, w)
    ensures Matches(RestartPosted(l), w) && Matches(Caught15(l, mac, accessAddr, typeTag, offered), w)
  {
  }

  lemma TimeMatches(l: Link, w: D.World, timer: TaskId, ticks: nat)
    requires Matches(l, w)
    ensures Enabled(l, Fire(timer)) ==> Matches(Fired(l, timer), w)
    ensures Matches(l.(now := l.now + ticks), w)
    ensures timer != Respond ==> Matches(Taken(l, timer), w)
  {
  }

  // ---------------------------------------------------------------- and so every run does

  lemma ServeMatches(l: Link, w: D.World, task: TaskId, started: bool)
    requires LinkInv(l) && Matches(l, w) && Enabled(l, Serve(task, started)) && task != EnterConnected
    ensures Matches(Handled(Taken(l, task), task, started), DidAll(w, ServedEcho(Taken(l, task), task, started)))
  {
    var t := Taken(l, task);
    ServedState(l, task, started);
    if task != Respond {
      TimeMatches(l, w, task, 0);
    }
    hide LinkInv, Matches, Taken, Enabled, MayRest, Silent, Did, DidAll;
    hide Restarted, Broadcast, ConnectedEntered, Responded, QueueDropped, IdleElapsed, ProbeDue, StartedUp;
    hide ProbeTimedOut, StageTwo, Dropped, WindowClosed, PairingOver;
    DidOneOrTwo(w, D.Rest, D.Rest);
    match task
    case Start => SearchMatches(t, w);
    case RxRestart => DidOneOrTwo(w, D.Rearm, D.Rest); RestartMatches(t, w);
    case PairBcast => SearchMatches(t, w);
    case PairRxOff => SearchMatches(t, w);
    case PairTimeout => SearchMatches(t, w);
    case Respond => DidOneOrTwo(w, D.Serve(started), D.Rest); RespondMatches(l, w, started);
    case DiscardHid =>
      DidOneOrTwo(w, D.Discard, D.Rest);
      if t.st == Idle { DiscardMatches(t, w); } else { NotIdleKeeps(t); }
    case SaveBond =>
    case RestIdle =>
      if t.st == Connected && !t.rest.probe && MayRest(t) {
        QuietMatches(t, w);
        RestsNow(t);
      } else {
        ProbeMatches(t, w);
      }
    case RestProbe => ProbeMatches(t, w);
    case RestProbeTimeout =>
      if Silent(t) { QuietMatches(t, w); EndsNow(t); } else { ProbeMatches(t, w); }
    case RestStage2 => ProbeMatches(t, w);
    case Disconnect =>
      DidOneOrTwo(w, D.Lapse, D.Rest);
      if t.st == Connected { TeardownMatches(t, w); } else { NotConnectedKeeps(t); }
  }

  lemma ServedState(l: Link, task: TaskId, started: bool)
    requires LinkInv(l) && Enabled(l, Serve(task, started))
    ensures Taken(l, task).st == l.st && (task == Start ==> l.st != Connected)
    ensures task == Respond ==> l.tasks.respond.posted.Some?
  {
  }

  lemma NotIdleKeeps(l: Link)
    requires l.st != Idle
    ensures QueueDropped(l) == l
  {
  }

  lemma NotConnectedKeeps(l: Link)
    requires l.st != Connected
    ensures Dropped(l) == l
  {
  }

  lemma RestsNow(l: Link)
    requires l.st == Connected && !l.rest.probe && MayRest(l)
    ensures IdleElapsed(l) == RestEntered(l)
  {
  }

  lemma EndsNow(l: Link)
    requires Silent(l)
    ensures ProbeTimedOut(l) == GoneQuiet(l)
  {
  }

  lemma UnpairMatches(l: Link, w: D.World)
    requires Matches(l, w)
    ensures Matches(Unpaired(l), DidAll(w, [D.Leave, D.Discard]))
    ensures l.bond.identity ==> Matches(FactoryPaired(l), DidAll(w, [D.Leave, D.Discard]))
  {
    DidOneOrTwo(w, D.Leave, D.Discard);
    TeardownMatches(l, w);
    LeavesIdle(l);
    DiscardMatches(Disconnected(l), Did(w, D.Leave));
    PairMatches(Unpaired(l), Did(Did(w, D.Leave), D.Discard));
    hide Matches, Did, DidAll, Disconnected, BondCleared, PairingEntered;
  }

  lemma LeavesIdle(l: Link)
    ensures Disconnected(l).st == Idle
  {
  }

  lemma HostMatches(l: Link, w: D.World, e: Event)
    requires Matches(l, w) && FromHost(e)
    ensures Matches(Next(l, e), DidAll(w, Echo(l, e)))
  {
    hide Matches, Did, DidAll, Reported, Selected2G4, PairingEntered, Left, Unpaired, Disconnected, Handled;
    DidOneOrTwo(w, D.Leave, D.Discard);
    match e
    case HostReport(r) => DidOneOrTwo(w, D.Host(r), D.Rest); ReportMatches(l, w, r);
    case HostSelect2G4 => PairMatches(l, w);
    case HostPair => PairMatches(l, w);
    case HostUnpair => UnpairMatches(l, w);
    case HostFactoryPair => UnpairMatches(l, w);
    case _ => TeardownMatches(l, w);
  }

  lemma OtherMatches(l: Link, w: D.World, e: Event)
    requires LinkInv(l) && Matches(l, w) && Enabled(l, e) && !e.RxPoll? && (e.Serve? ==> e.task != EnterConnected)
    ensures Matches(Next(l, e), DidAll(w, Echo(l, e)))
  {
    NextIs(l, e);
    hide Next, LinkInv, Matches, Did, DidAll, Handled, Taken, Fired, ServedEcho, TickEcho;
    hide Caught15, TxFinished, TxFailed, TurnedAround, RestartPosted, LinkTicked, Polled;
    if FromHost(e) {
      HostMatches(l, w, e);
    } else {
      DidOneOrTwo(w, D.TxEnd, D.ForceRelease);
      match e
      case Serve(task, started) => ServeMatches(l, w, task, started);
      case Fire(timer) => TimeMatches(l, w, timer, 0);
      case Rx15(mac, accessAddr, typeTag, offered) => AirMatches(l, w, mac, accessAddr, typeTag, offered);
      case RxOther => AirMatches(l, w, 0, 0, 0, 0);
      case TxFinish => TxMatches(l, w);
      case TxFail => TxMatches(l, w);
      case Turnaround => DidOneOrTwo(w, D.Turnaround, D.Rest); TurnaroundMatches(l, w);
      case Tick(overdue, hops) => TickMatches(l, w, overdue, hops);
      case Advance(ticks) => TimeMatches(l, w, RxRestart, ticks);
    }
  }

  lemma JointMatches(j: Joint, h: Happening)
    requires LinkInv(j.l) && Matches(j.l, j.w) && MayHappen(j, h)
    ensures Matches(JointNext(j, h).l, JointNext(j, h).w)
  {
    var l, w, e := j.l, j.w, LinkEvent(j, h);
    NextIs(l, e);
    DidOneOrTwo(w, D.Hear, D.Rest);
    if Enabled(l, e) {
      match h
      case Other(_) =>
        hide Matches, LinkInv, Next, Echo, DidAll, Enabled;
        OtherMatches(l, w, e);
      case Caught(rx) =>
        hide Matches, LinkInv, Next, DidAll, Did, Polled;
        DidOneOrTwo(w, D.Poll(rx), D.Rest);
        PollMatches(l, w, rx);
      case Joins(dongle) =>
        hide Matches, LinkInv, Next, DidAll, Did, ConnectedEntered, Taken;
        DidOneOrTwo(w, D.Connect(dongle), D.Rest);
        ConnectMatches(l, w, dongle);
      case Hears =>
        hide Matches, LinkInv, Next, DidAll, Did;
        HearMatches(l, w);
    } else {
      hide Matches, LinkInv, Next, DidAll;
    }
  }

  function JointRun(j: Joint, happenings: seq<Happening>): Joint
  {
    if happenings == [] then j
    else JointNext(JointRun(j, happenings[..|happenings| - 1]), happenings[|happenings| - 1])
  }

  predicate AllMayHappen(j: Joint, happenings: seq<Happening>)
  {
    if happenings == [] then true
    else
      var n := |happenings| - 1;
      AllMayHappen(j, happenings[..n]) && MayHappen(JointRun(j, happenings[..n]), happenings[n])
  }

  lemma {:induction false} LogIsARun(log: seq<D.Event>, more: seq<D.Event>)
    ensures DidAll(D.After(log), more) == D.After(log + more)
  {
    if more == [] {
      assert log + more == log;
    } else {
      var n := |more| - 1;
      LogIsARun(log, more[..n]);
      D.AfterOneMore(log + more[..n], more[n]);
      assert log + more[..n] + [more[n]] == log + more;
    }
  }

  ghost predicate JointInv(j: Joint)
  {
    LinkInv(j.l) && ReportInv(j.l) && Matches(j.l, j.w) && j.w == D.After(j.log)
  }

  lemma {:induction false} JointRunKeepsInv(j: Joint, happenings: seq<Happening>)
    requires JointInv(j) && AllMayHappen(j, happenings)
    ensures JointInv(JointRun(j, happenings))
  {
    if happenings != [] {
      hide Matches, LinkInv, ReportInv, Next, MayHappen, D.After, DidAll, UplinkEvents, LinkEvent;
      var n := |happenings| - 1;
      JointRunKeepsInv(j, happenings[..n]);
      var before := JointRun(j, happenings[..n]);
      NextKeepsInv(before.l, LinkEvent(before, happenings[n]));
      NextKeepsReports(before.l, LinkEvent(before, happenings[n]));
      JointMatches(before, happenings[n]);
      LogIsARun(before.log, UplinkEvents(before, happenings[n]));
    }
  }

  lemma BootMatches(hasBond: bool, mac: int, identity: bool, now: int)
    ensures JointInv(JointBoot(hasBond, mac, identity, now))
  {
    BootInv(hasBond, mac, identity, now);
    BootReports(hasBond, mac, identity, now);
    hide LinkInv, ReportInv;
  }

  /** What rest may rely on. Over every run of the link and the dongle in which the module starts no second
      response for a poll: in rest, and throughout silent probes, nothing is queued, and the dongle has received
      exactly what the host has reported since the last discard, in order, repeats merged. */
  lemma RestHasDelivered(hasBond: bool, mac: int, identity: bool, now: int, happenings: seq<Happening>)
    requires AllMayHappen(JointBoot(hasBond, mac, identity, now), happenings)
    requires var j := JointRun(JointBoot(hasBond, mac, identity, now), happenings);
             AtRest(j.l) && D.ResponsesWithin(j.log, 1)
    ensures var j := JointRun(JointBoot(hasBond, mac, identity, now), happenings);
            && j.l.q == j.w.k.queue && j.l.q.entries == [] && j.w.retired == j.w.log.reports
            && D.Collapsed(j.w.received) == D.Collapsed(j.w.log.reports)
  {
    var boot := JointBoot(hasBond, mac, identity, now);
    BootMatches(hasBond, mac, identity, now);
    JointRunKeepsInv(boot, happenings);
    var j := JointRun(boot, happenings);
    hide LinkInv, D.After, D.ResponsesWithin, JointRun, AllMayHappen, D.Collapsed;
    D.ReceivedIsPrefixOfQueued(j.log);
    assert j.w.retired + [] == j.w.retired;
  }
}
