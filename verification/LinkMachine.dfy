/** The 2.4 GHz link of rf_task.c: idle, pairing, connected and resting, the TMOS tasks that move between them,
    and the radio they leave on or shut.

    `Link` is the state of the link as a value, with one function for each handler and entry point. */
module LinkMachine {
  import opened Words
  import opened ReportRing

  // TMOS ticks of 625 us
  const BCAST_TICKS: nat := 32
  const PAIR_WINDOW_TICKS: nat := 8480
  const RX_WINDOW_TICKS: nat := 6
  const CONNECTED_TIMEOUT_TICKS: nat := 5000
  const REST_IDLE_TICKS: nat := 4800
  const REST_IDLE_RETRY_TICKS: nat := 160
  const REST_PROBE_TICKS: nat := 1616
  const REST_PROBE_TIMEOUT_TICKS: nat := 640
  const REST_STAGE2_TICKS: nat := 2880000
  const RESELECT_KEEP_TICKS: nat := 800

  const PROBE_ANSWERS: nat := 2
  const PAIR_INTERVAL: nat := 28

  /** A TMOS event bit with its timer: when the bit was set, or its deadline passed, and when the timer is due. */
  datatype Task = Task(posted: Option<int>, due: Option<int>)
  {
    predicate Active() { posted.Some? || due.Some? }
  }

  const OFF := Task(None, None)

  function Posted(t: Task, now: int): Task { if t.posted.Some? then t else t.(posted := Some(now)) }

  function Armed(t: Task, at: int): Task { t.(due := Some(at)) }

  datatype TaskId =
    | Start | PairBcast | PairRxOff | PairTimeout | EnterConnected | RxRestart | Respond | DiscardHid
    | SaveBond | RestIdle | RestProbe | RestProbeTimeout | RestStage2 | Disconnect

  datatype Tasks = Tasks(
    start: Task, bcast: Task, rxOff: Task, pairTimeout: Task, enter: Task, rxRestart: Task, respond: Task,
    discard: Task, saveBond: Task, restIdle: Task, restProbe: Task, restProbeTimeout: Task, restStage2: Task,
    disconnect: Task)
  {
    function Get(id: TaskId): Task
    {
      match id
      case Start => start
      case PairBcast => bcast case PairRxOff => rxOff case PairTimeout => pairTimeout
      case EnterConnected => enter case RxRestart => rxRestart case Respond => respond
      case DiscardHid => discard case SaveBond => saveBond case RestIdle => restIdle
      case RestProbe => restProbe case RestProbeTimeout => restProbeTimeout
      case RestStage2 => restStage2 case Disconnect => disconnect
    }

    function Put(id: TaskId, t: Task): Tasks
    {
      match id
      case Start => this.(start := t)
      case PairBcast => this.(bcast := t) case PairRxOff => this.(rxOff := t)
      case PairTimeout => this.(pairTimeout := t) case EnterConnected => this.(enter := t)
      case RxRestart => this.(rxRestart := t) case Respond => this.(respond := t)
      case DiscardHid => this.(discard := t) case SaveBond => this.(saveBond := t)
      case RestIdle => this.(restIdle := t) case RestProbe => this.(restProbe := t)
      case RestProbeTimeout => this.(restProbeTimeout := t) case RestStage2 => this.(restStage2 := t)
      case Disconnect => this.(disconnect := t)
    }
  }

  const NO_TASKS := Tasks(OFF, OFF, OFF, OFF, OFF, OFF, OFF, OFF, OFF, OFF, OFF, OFF, OFF, OFF)

  datatype LinkState = Idle | Pairing | Connected | Resting

  /** Shut only by RF_Shut; a transmission that has ended leaves it as it is. */
  datatype Radio = Shut | Listening | Sending

  /** What a LEN-15 of the dongle offers, and the pairing epoch it was caught in. */
  datatype Catch = Catch(mac: int, accessAddr: u32, typeTag: u8, interval: nat, epoch: nat)

  const NO_CATCH := Catch(0, 0, 0, 0, 0)

  datatype Rest = Rest(stage: nat, probe: bool, wake: bool, answers: nat, quietPending: bool)

  const AWAKE := Rest(0, false, false, 0, false)

  /** The pairing in hand: whether it is a bonded reconnect, and its listen window. */
  datatype Search = Search(bonded: bool, rxOpen: bool, rxOffArmed: bool)

  /** has_bond, stored_dongle_mac, keyboard_mac_valid. */
  datatype Bond = Bond(hasBond: bool, mac: int, identity: bool)

  /** The response to a poll, TMR0 that times it, and what a poll leaves for the main loop. */
  datatype Air = Air(responsePending: bool, turnaround: bool, kick: bool, bondSavePending: bool)

  const SILENCE := Air(false, false, false, false)

  /** What has happened, for the properties only. */
  datatype Past = Past(
    epoch: nat,                 // pairings begun
    openedAt: int,              // when RX last opened after a beacon
    probeStart: int,            // when the last probe began
    status: seq<u8>,            // 5B status bytes sent from here
    newest: Option<Report>,     // the newest report from the host
    tornDown: bool)             // the link has been torn down since it came

  datatype Link = Link(
    st: LinkState,
    search: Search,
    bond: Bond,
    pend: Catch,                // pending_*
    session: Catch,             // what the present or last connection was made from
    radio: Radio,
    air: Air,
    q: Queue,
    rest: Rest,
    tasks: Tasks,
    now: int,
    past: Past)

  function Boot(hasBond: bool, mac: int, identity: bool, now: int): Link
  {
    var searching := hasBond && identity;
    Link(if searching then Pairing else Idle, Search(searching, searching, false), Bond(hasBond, mac, identity),
         NO_CATCH, NO_CATCH, Shut, SILENCE, EMPTY, AWAKE,
         if searching then NO_TASKS.(bcast := Posted(OFF, now)) else NO_TASKS.(start := Posted(OFF, now)),
         now, Past(if searching then 1 else 0, now, now, [], None, false))
  }

  /** A step that makes no connection. */
  predicate MakesNone(l: Link, m: Link)
  {
    (m.st == Connected ==> l.st == Connected) && m.session == l.session
  }

  /** ... and catches nothing either. */
  predicate Stays(l: Link, m: Link)
  {
    MakesNone(l, m) && m.pend == l.pend
  }

  // ---------------------------------------------------------------- resting helpers

  function RestCancelled(l: Link): (m: Link)
    ensures Stays(l, m)
  {
    l.(rest := AWAKE,
       tasks := l.tasks.(restIdle := OFF, restProbe := OFF, restProbeTimeout := OFF, restStage2 := OFF))
  }

  function IdleArmed(l: Link): (m: Link)
    ensures Stays(l, m)
  {
    if l.st == Connected && !l.rest.probe
    then l.(tasks := l.tasks.(restIdle := Armed(OFF, l.now + REST_IDLE_TICKS)))
    else l
  }

  function GoneQuiet(l: Link): (m: Link)
    ensures Stays(l, m)
  {
    l.(air := SILENCE.(bondSavePending := l.air.bondSavePending), tasks := LinkTasksStopped(l.tasks),
       search := Search(l.search.bonded, false, false), rest := AWAKE.(stage := l.rest.stage),
       st := Resting, radio := Shut)
  }

  function LinkTasksStopped(tasks: Tasks): Tasks
  {
    tasks.(disconnect := OFF, bcast := OFF, rxOff := OFF, pairTimeout := OFF, enter := OFF, restProbeTimeout := OFF)
  }

  function RestEntered(l: Link): (m: Link)
    ensures Stays(l, m)
  {
    var g := GoneQuiet(l);
    g.(rest := g.rest.(stage := 1),
       tasks := g.tasks.(restProbe := Armed(g.tasks.restProbe, g.now + REST_PROBE_TICKS),
                         restStage2 := Armed(g.tasks.restStage2, g.now + REST_STAGE2_TICKS)))
  }

  /** The bonded reconnect that RF_Select2G4 and a rest probe share: quiesce, sweep, then search. */
  function BondedSearch(l: Link): Link
  {
    l.(air := l.air.(turnaround := false), radio := Shut, st := Pairing, search := Search(true, true, false),
       tasks := l.tasks.(enter := OFF, pairTimeout := OFF, rxOff := OFF, bcast := Posted(l.tasks.bcast, l.now)),
       past := l.past.(epoch := l.past.epoch + 1))
  }

  function ProbeStarted(l: Link): (m: Link)
    ensures Stays(l, m)
  {
    if !l.bond.hasBond || !l.bond.identity then RestCancelled(l).(st := Idle, radio := Shut)
    else ProbeTimerSet(BondedSearch(l.(rest := l.rest.(probe := true, answers := 0, quietPending := false))))
  }

  function ProbeTimerSet(l: Link): (m: Link)
    ensures Stays(l, m)
  {
    l.(tasks := l.tasks.(restProbeTimeout := Armed(OFF, l.now + REST_PROBE_TIMEOUT_TICKS)),
       past := l.past.(probeStart := l.now))
  }

  /** A probe becomes the session. */
  function Promoted(l: Link): (m: Link)
    ensures Stays(l, m)
  {
    IdleArmed(l.(rest := AWAKE,
              tasks := l.tasks.(restProbe := OFF, restProbeTimeout := OFF, restStage2 := OFF,
                                disconnect := Armed(OFF, l.now + CONNECTED_TIMEOUT_TICKS))))
  }

  lemma PromotedKeepsBond(l: Link)
    ensures Promoted(l).bond == l.bond
  {
  }

  lemma PromotedAnyway(l: Link, rest: Rest)
    ensures Promoted(l.(rest := rest)) == Promoted(l)
  {
  }

  // ---------------------------------------------------------------- interrupts

  function RestartPosted(l: Link): (m: Link)
    ensures Stays(l, m)
    ensures m.past.openedAt == l.past.openedAt
  {
    l.(tasks := l.tasks.(rxRestart := Posted(l.tasks.rxRestart, l.now)))
  }

  function Interval(offered: nat): nat { if offered == 0 then PAIR_INTERVAL else offered }

  function Offered(l: Link, mac: int, accessAddr: u32, typeTag: u8, offered: nat): Catch
  {
    Catch(mac, accessAddr, typeTag, Interval(offered), l.past.epoch)
  }

  /** RF_2G4StatusCallBack on a LEN-15 frame, while pairing. */
  function Caught15(l: Link, mac: int, accessAddr: u32, typeTag: u8, offered: nat): (m: Link)
  {
    if l.st != Pairing || typeTag >= 5 then RestartPosted(l)
    else if !l.bond.hasBond then RestartPosted(l.(bond := l.bond.(mac := mac, hasBond := true)))
    else if l.bond.mac != mac || !(20 <= Interval(offered) <= 40) then RestartPosted(l)
    else CatchTaken(l, Offered(l, mac, accessAddr, typeTag, offered))
  }

  function CatchTaken(l: Link, c: Catch): (m: Link)
    ensures MakesNone(l, m) && m.pend == c && m.past.openedAt == l.past.openedAt
  {
    l.(pend := c, tasks := l.tasks.(enter := Posted(l.tasks.enter, l.now)))
  }

  /** ... and on a poll, while connected; `acks` is whether the dongle's control bit has moved. */
  function Polled(l: Link, acks: bool): (m: Link)
    ensures Stays(l, m)
  {
    if l.st != Connected then RestartPosted(l) else Heard(l, acks)
  }

  function Heard(l: Link, acks: bool): Link
  {
    l.(air := Air(true, true, true, false), q := RetiredIf(l.q, acks),
       tasks := if l.air.bondSavePending then l.tasks.(saveBond := Posted(l.tasks.saveBond, l.now)) else l.tasks)
  }

  /** A response that completed in a silent probe counts towards its end. */
  function AnswerCounted(l: Link): Rest
  {
    var answers := (l.rest.answers + 1) % 0x100;
    if l.air.responsePending && Silent(l)
    then l.rest.(answers := answers, quietPending := l.rest.quietPending || answers >= PROBE_ANSWERS)
    else l.rest
  }

  function TxFinished(l: Link): (m: Link)
    ensures Stays(l, m)
  {
    RestartPosted(l.(rest := AnswerCounted(l), air := l.air.(responsePending := false)))
  }

  function TxFailed(l: Link): (m: Link)
    ensures Stays(l, m)
  {
    RestartPosted(l.(air := l.air.(responsePending := false)))
  }

  /** TMR0: the turnaround after a poll is over. */
  function TurnedAround(l: Link): (m: Link)
    ensures Stays(l, m)
  {
    l.(air := l.air.(turnaround := false),
       tasks := if l.st == Connected then l.tasks.(respond := Posted(l.tasks.respond, l.now)) else l.tasks)
  }

  // ---------------------------------------------------------------- task handlers

  /** RF_EVT_START: an unbonded boot's first event. */
  function StartedUp(l: Link): (m: Link)
    ensures Stays(l, m)
  {
    l.(st := Idle, radio := Shut)
  }

  function Restarted(l: Link): (m: Link)
    ensures Stays(l, m)
  {
    if l.st == Connected then l.(radio := Listening)
    else if l.st == Pairing && l.search.rxOpen then
      if l.search.bonded && !l.search.rxOffArmed then WindowOpened(l) else l.(radio := Listening)
    else l
  }

  /** The first restart after a beacon fixes the window's end. */
  function WindowOpened(l: Link): Link
  {
    l.(radio := Listening, search := l.search.(rxOffArmed := true), past := l.past.(openedAt := l.now),
       tasks := l.tasks.(rxOff := Armed(l.tasks.rxOff, l.now + RX_WINDOW_TICKS)))
  }

  function Broadcast(l: Link): (m: Link)
    ensures Stays(l, m)
  {
    if l.st != Pairing then l
    else if !l.bond.identity then l.(st := Idle, radio := Shut)
    else
      l.(radio := Sending, search := Search(l.search.bonded, true, false),
         tasks := l.tasks.(bcast := Armed(l.tasks.bcast, l.now + BCAST_TICKS), rxOff := OFF))
  }

  function WindowClosed(l: Link): (m: Link)
    ensures Stays(l, m)
  {
    if l.st == Pairing && l.search.bonded then l.(search := Search(true, false, false), radio := Shut) else l
  }

  function PairingOver(l: Link): (m: Link)
    ensures Stays(l, m)
  {
    if l.st == Pairing then l.(st := Idle, radio := Shut, tasks := l.tasks.(rxOff := OFF)) else l
  }

  /** A probe that no host frame has woken. */
  predicate Silent(l: Link) { l.rest.probe && !l.rest.wake }

  /** The connection itself, up to the point where a silent probe returns. */
  function Joined(l: Link): Link
  {
    SearchOver(l).(session := l.pend, q := l.q.(headSent := false), air := Air(false, false, l.air.kick, !Silent(l)),
                   st := Connected, radio := Listening)
  }

  /** The search's timers go, and supervision starts. */
  function SearchOver(l: Link): (m: Link)
    ensures Stays(l, m)
  {
    l.(tasks := l.tasks.(bcast := OFF, pairTimeout := OFF, rxOff := OFF,
                         disconnect := Armed(OFF, l.now + CONNECTED_TIMEOUT_TICKS)))
  }

  /** 5B status bytes for the keyboard MCU. */
  function Announced(l: Link, status: seq<u8>): (m: Link)
    ensures Stays(l, m)
  {
    l.(past := l.past.(status := l.past.status + status))
  }

  /** rf_enter_connected. */
  function ConnectedEntered(l: Link): (m: Link)
    ensures m.pend == l.pend
  {
    if l.st != Pairing then l
    else if Silent(l) then Joined(l)
    else if l.rest.probe then Promoted(Joined(l))
    else IdleArmed(Announced(Joined(l), [0x32, 0x23]))
  }

  /** rf_do_response_tx; `started` is whether the radio took the frame. */
  function Responded(l: Link, started: bool): (m: Link)
    ensures Stays(l, m)
  {
    if l.st != Connected || !l.air.responsePending then l
    else if started then HeadOnAir(l)
    else TxFailed(l.(radio := Shut))
  }

  function HeadOnAir(l: Link): (m: Link)
    ensures Stays(l, m)
  {
    l.(radio := Sending, q := if l.q.entries != [] then Sent(l.q) else l.q)
  }

  function QueueDropped(l: Link): (m: Link)
    ensures Stays(l, m)
  {
    if l.st == Idle then l.(q := Discarded(l.q)) else l
  }

  predicate MayRest(l: Link) { l.q.entries == [] && !l.air.responsePending && !l.q.KeyHeld() }

  function IdleElapsed(l: Link): (m: Link)
    ensures Stays(l, m)
  {
    if l.st == Connected && !l.rest.probe then
      if MayRest(l) then RestEntered(l)
      else l.(tasks := l.tasks.(restIdle := Armed(l.tasks.restIdle, l.now + REST_IDLE_RETRY_TICKS)))
    else l
  }

  function ProbeDue(l: Link): (m: Link)
    ensures Stays(l, m)
  {
    if l.st == Resting && l.rest.stage == 1
    then ProbeStarted(l.(tasks := l.tasks.(restProbe := Armed(l.tasks.restProbe, l.now + REST_PROBE_TICKS))))
    else l
  }

  function ProbeTimedOut(l: Link): (m: Link)
    ensures Stays(l, m)
  {
    if !l.rest.probe then l
    else if l.rest.wake
    then l.(tasks := l.tasks.(restProbeTimeout := Armed(l.tasks.restProbeTimeout, l.now + REST_PROBE_TIMEOUT_TICKS)))
    else GoneQuiet(l)
  }

  function StageTwo(l: Link): (m: Link)
    ensures Stays(l, m)
  {
    if l.rest.stage == 1 then l.(rest := l.rest.(stage := 2), tasks := l.tasks.(restProbe := OFF)) else l
  }

  /** Supervision: the dongle has not been heard for too long. */
  function Dropped(l: Link): (m: Link)
    ensures Stays(l, m)
  {
    if l.st != Connected then l else TornDown(RestCancelled(l))
  }

  function TornDown(l: Link): (m: Link)
    ensures Stays(l, m)
  {
    l.(air := SILENCE.(kick := l.air.kick), q := Forgotten(l.q).(headSent := false), st := Idle, radio := Shut,
       past := l.past.(status := l.past.status + [0x33], tornDown := true))
  }

  /** RF_ProcessEvent on one event, its bit already cleared. */
  function Handled(l: Link, id: TaskId, started: bool): Link
  {
    match id
    case Start => StartedUp(l)
    case RxRestart => Restarted(l)
    case PairBcast => Broadcast(l)
    case PairRxOff => WindowClosed(l)
    case PairTimeout => PairingOver(l)
    case EnterConnected => ConnectedEntered(l)
    case Respond => Responded(l, started)
    case DiscardHid => QueueDropped(l)
    case SaveBond => l
    case RestIdle => IdleElapsed(l)
    case RestProbe => ProbeDue(l)
    case RestProbeTimeout => ProbeTimedOut(l)
    case RestStage2 => StageTwo(l)
    case Disconnect => Dropped(l)
  }

  function Taken(l: Link, id: TaskId): Link
  {
    l.(tasks := l.tasks.Put(id, l.tasks.Get(id).(posted := None)))
  }

  // ---------------------------------------------------------------- the main loop's tick

  function Kicked(l: Link): Link
  {
    if l.air.kick
    then l.(air := l.air.(kick := false),
            tasks := l.tasks.(disconnect := Armed(OFF, l.now + CONNECTED_TIMEOUT_TICKS)))
    else l
  }

  /** RF_ConnectedTick less the hop's own arithmetic: `overdue` is whether a response has been held too long,
      `hops` whether the channel is to change. */
  function LinkTicked(l: Link, overdue: bool, hops: bool): (m: Link)
    ensures Stays(l, m)
  {
    if l.st != Connected then l
    else if l.rest.quietPending && !l.air.responsePending then GoneQuiet(l)
    else
      var k := Kicked(l);
      if k.air.responsePending && !overdue then k
      else k.(air := k.air.(responsePending := false), radio := if hops then Listening else k.radio)
  }

  // ---------------------------------------------------------------- what the host asks for

  function Selected2G4(l: Link): (m: Link)
    ensures Stays(l, m)
  {
    var c := l.(tasks := l.tasks.(discard := OFF));
    if !l.bond.identity then c
    else if l.st == Connected then
      if l.rest.probe then Promoted(c) else c
    else if l.bond.hasBond then BondedSearch(RestCancelled(c))
    else RestCancelled(c)
  }

  function PairingEntered(l: Link): (m: Link)
    ensures Stays(l, m)
  {
    if !l.bond.identity || l.st == Connected then l
    else
      var c := RestCancelled(l);
      c.(air := c.air.(turnaround := false), radio := Shut, st := Pairing, search := Search(false, true, false),
         tasks := c.tasks.(enter := OFF, rxOff := OFF, bcast := Posted(c.tasks.bcast, c.now),
                           pairTimeout := Armed(c.tasks.pairTimeout, c.now + PAIR_WINDOW_TICKS)),
         past := c.past.(epoch := c.past.epoch + 1))
  }

  function Disconnected(l: Link): (m: Link)
    ensures Stays(l, m)
  {
    var c := RestCancelled(l);
    c.(q := Forgotten(c.q), past := c.past.(tornDown := true), st := Idle, radio := Shut,
       air := c.air.(turnaround := false, bondSavePending := false),
       tasks := c.tasks.(bcast := OFF, pairTimeout := OFF, rxOff := OFF, enter := OFF, disconnect := OFF))
  }

  /** RF_Disconnect, then RF_DropQueueUnlessReselected: the host left 2.4 GHz. */
  function Left(l: Link): (m: Link)
    ensures Stays(l, m)
  {
    var d := Disconnected(l);
    d.(tasks := d.tasks.(discard := Armed(OFF, d.now + RESELECT_KEEP_TICKS)))
  }

  function BondCleared(l: Link): (m: Link)
    ensures Stays(l, m)
  {
    var c := RestCancelled(l);
    QueueDropped(c.(bond := Bond(false, 0, c.bond.identity), air := c.air.(bondSavePending := false),
                 tasks := c.tasks.(discard := OFF)))
  }

  function Unpaired(l: Link): (m: Link)
    ensures Stays(l, m)
  {
    BondCleared(Disconnected(l))
  }

  function FactoryPaired(l: Link): (m: Link)
    ensures Stays(l, m)
  {
    if l.bond.identity then PairingEntered(Unpaired(l)) else l
  }

  /** The queue's part of a report, up to where it rouses the link. */
  function Noted(l: Link, r: Report): (m: Link)
    ensures Stays(l, m)
  {
    l.(q := Queued(l.q, r), past := l.past.(newest := Some(r), tornDown := false))
  }

  function Reported(l: Link, r: Report): (m: Link)
    ensures Stays(l, m)
  {
    Roused(Noted(l, r))
  }

  /** Every report is activity, whether or not it changed anything. */
  function Roused(l: Link): (m: Link)
    ensures Stays(l, m)
  {
    if l.st == Resting then
      ProbeStarted(l.(rest := l.rest.(wake := true), tasks := l.tasks.(restProbe := OFF, restStage2 := OFF)))
    else if l.rest.probe then
      var w := l.(rest := l.rest.(wake := true, quietPending := false));
      if l.st == Connected then Promoted(w) else w
    else IdleArmed(l)
  }

  /** RF_CanDeepSleep. */
  predicate CanDeepSleep(l: Link)
  {
    l.st == Idle || l.st == Resting || (l.st == Pairing && l.search.bonded && !l.search.rxOpen)
  }

  // ---------------------------------------------------------------- events

  datatype Event =
    | Rx15(rxMac: int, accessAddr: u32, typeTag: u8, offered: nat)
    | RxPoll(acks: bool)
    | RxOther                                   // any other frame, or an RX error
    | TxFinish
    | TxFail
    | Turnaround
    | Fire(timer: TaskId)                       // TMOS finds a timer due
    | Serve(task: TaskId, started: bool)        // TMOS runs the handler of a set event bit
    | Tick(overdue: bool, hops: bool)
    | Advance(ticks: nat)
    | HostReport(r: Report)
    | HostSelect2G4
    | HostPair
    | HostLeave                                 // USB or Bluetooth selected
    | HostUnpair
    | HostFactoryPair
    | Quit                                      // RF_Disconnect for a sleep or an update

  predicate FromHost(e: Event)
  {
    e.HostReport? || e.HostSelect2G4? || e.HostPair? || e.HostLeave? || e.HostUnpair? || e.HostFactoryPair? || e.Quit?
  }

  /** Of the event bits set RF_ProcessEvent takes START first. */
  predicate Enabled(l: Link, e: Event)
  {
    match e
    case Rx15(_, _, _, _) => l.radio == Listening
    case RxPoll(_) => l.radio == Listening
    case Turnaround => l.air.turnaround
    case Fire(timer) => l.tasks.Get(timer).due.Some? && l.tasks.Get(timer).due.value <= l.now
    case Serve(task, _) => l.tasks.Get(task).posted.Some? && (task == Start || l.tasks.start.posted.None?)
    case _ => true
  }

  function Fired(l: Link, timer: TaskId): Link
    requires l.tasks.Get(timer).due.Some?
  {
    var t := l.tasks.Get(timer);
    l.(tasks := l.tasks.Put(timer, Task(if t.posted.Some? then t.posted else t.due, None)))
  }

  /** An event that cannot happen changes nothing. */
  function Next(l: Link, e: Event): Link
  {
    if !Enabled(l, e) then l
    else
      match e
      case Rx15(mac, accessAddr, typeTag, offered) => Caught15(l, mac, accessAddr, typeTag, offered)
      case RxPoll(acks) => Polled(l, acks)
      case RxOther => RestartPosted(l)
      case TxFinish => TxFinished(l)
      case TxFail => TxFailed(l)
      case Turnaround => TurnedAround(l)
      case Fire(timer) => Fired(l, timer)
      case Serve(task, started) => Handled(Taken(l, task), task, started)
      case Tick(overdue, hops) => LinkTicked(l, overdue, hops)
      case Advance(ticks) => l.(now := l.now + ticks)
      case HostReport(r) => Reported(l, r)
      case HostSelect2G4 => Selected2G4(l)
      case HostPair => PairingEntered(l)
      case HostLeave => Left(l)
      case HostUnpair => Unpaired(l)
      case HostFactoryPair => FactoryPaired(l)
      case Quit => Disconnected(l)
  }

  /** What an enabled event does, without what that comes to. */
  lemma NextIs(l: Link, e: Event)
    ensures Next(l, e) ==
              if !Enabled(l, e) then l
              else if FromHost(e) then Next(l, e)
              else match e
                case Rx15(mac, accessAddr, typeTag, offered) => Caught15(l, mac, accessAddr, typeTag, offered)
                case RxPoll(acks) => Polled(l, acks)
                case RxOther => RestartPosted(l)
                case TxFinish => TxFinished(l)
                case TxFail => TxFailed(l)
                case Turnaround => TurnedAround(l)
                case Fire(timer) => Fired(l, timer)
                case Serve(task, started) => Handled(Taken(l, task), task, started)
                case Tick(overdue, hops) => LinkTicked(l, overdue, hops)
                case Advance(ticks) => l.(now := l.now + ticks)
                case _ => l
  {
  }

  lemma NextOfHost(l: Link, e: Event)
    requires FromHost(e)
    ensures Next(l, e) ==
              match e
              case HostReport(r) => Reported(l, r)
              case HostSelect2G4 => Selected2G4(l)
              case HostPair => PairingEntered(l)
              case HostLeave => Left(l)
              case HostUnpair => Unpaired(l)
              case HostFactoryPair => FactoryPaired(l)
              case _ => Disconnected(l)
  {
    hide Reported, Selected2G4, PairingEntered, Left, Unpaired, FactoryPaired, Disconnected, Handled;
  }

  function Run(l: Link, events: seq<Event>): Link
  {
    if events == [] then l else Next(Run(l, events[..|events| - 1]), events[|events| - 1])
  }
}
