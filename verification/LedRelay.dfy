/** The host's LED byte on its way from the dongle to the keyboard MCU: the RX interrupt stores each relayed
    byte (rf_task.c), a main-loop handler hands it to host wake's latest slot (host_wake.c), and the main loop
    turns a lost frame into a request to send again (main.c).

    `Led` is a configuration of the three, with the handler's own progress, so that the interrupt may strike
    between any two of its steps; class `LedTask` is the code. */
module LedRelay {
  import opened Words
  import HostWake

  const LED_FRAME: u8 := 0x5A

  /** "Nothing sent yet": not a real LED byte. */
  const UNSENT: u8 := 0xFF

  /** How far the NOTIFY_LED handler has got. */
  datatype Progress =
    | Ready
    | Started               // the event bit is cleared
    | Read(led: u8)         // pending_led copied
    | Given(led: u8)        // handed to host wake
    | Recorded(led: u8)     // recorded as sent

  datatype Led = Led(
    pending: u8,
    lastSent: u8,
    posted: bool,           // NOTIFY_LED is set
    pc: Progress,
    resyncDue: bool,        // between TakeLedLost and RF_LedResync
    hw: HostWake.State)

  datatype Event =
    | Relayed(v: u8)            // RX interrupt: a LEN-3 poll carries v
    | Serve                     // TMOS picks NOTIFY_LED
    | Continue                  // the handler's next step
    | Connect                   // rf_enter_connected, announced
    | Step(now: u32)            // KeyboardUart_Service
    | Ack                       // an ACK is parsed
    | Enqueue(f: HostWake.Frame)
    | TakeLost
    | Resync

  function Init(guard: u32, timeout: u32, attempts: u8): Led
  {
    Led(0, UNSENT, false, Ready, false, HostWake.Init(guard, timeout, attempts))
  }

  /** The main loop is between jobs: only the interrupt can run when it is not. */
  predicate AtLoop(s: Led) { s.pc.Ready? && !s.resyncDue }

  predicate Enabled(s: Led, e: Event)
  {
    match e
    case Relayed(_) => true
    case Serve => AtLoop(s) && s.posted
    case Continue => !s.pc.Ready?
    case Resync => s.resyncDue
    case _ => AtLoop(s)
  }

  function Interrupted(s: Led, v: u8): Led
  {
    s.(pending := v, posted := s.posted || v != s.lastSent)
  }

  /** One step of the handler. */
  function Continued(s: Led): Led
  {
    match s.pc
    case Ready => s
    case Started => s.(pc := Read(s.pending))
    case Read(led) =>
      if led == s.lastSent then s.(pc := Ready)
      else s.(pc := Given(led), hw := HostWake.WithLatest(s.hw, HostWake.Frame(LED_FRAME, led)))
    case Given(led) => s.(pc := Recorded(led), lastSent := led)
    case Recorded(led) => s.(pc := Ready, posted := s.posted || s.pending != led)
  }

  /** An event that cannot happen here changes nothing. */
  function Next(s: Led, e: Event): (s': Led)
    requires s.hw.Valid()
    ensures s'.hw.Valid()
  {
    if Enabled(s, e) then Happened(s, e) else s
  }

  function Happened(s: Led, e: Event): (s': Led)
    requires s.hw.Valid()
    ensures s'.hw.Valid()
  {
    match e
    case Relayed(v) => Interrupted(s, v)
    case Serve => s.(posted := false, pc := Started)
    case Continue => Continued(s)
    case Connect => s.(lastSent := UNSENT)
    case Step(now) => s.(hw := HostWake.Stepped(s.hw, now))
    case Ack => s.(hw := HostWake.Acked(s.hw))
    case Enqueue(f) => s.(hw := HostWake.Enqueued(s.hw, f))
    case TakeLost => s.(resyncDue := s.hw.latestLost, hw := HostWake.LostTaken(s.hw))
    case Resync => s.(resyncDue := false, lastSent := UNSENT)
  }

  // ---------------------------------------------------------------- what the host knows

  datatype Track = Track(
    s: Led,
    newest: Option<u8>,     // the last byte relayed
    hostLed: Option<u8>)    // the last LED byte the host acknowledged

  /** This step lets go of the outstanding LED frame because the host has acknowledged it. */
  predicate Delivers(s: Led, e: Event)
  {
    Enabled(s, e) && e.Step? && s.hw.phase == HostWake.WaitAck && s.hw.acked && s.hw.sendingLatest
  }

  function Observed(t: Track, e: Event): Track
    requires t.s.hw.Valid()
  {
    Track(Next(t.s, e), if e.Relayed? then Some(e.v) else t.newest,
          if Delivers(t.s, e) then Some(t.s.hw.out.val) else t.hostLed)
  }

  /** A send is on its way: the handler is due, or on its way to send or to post itself again, the slot is
      full, or the frame is out. */
  predicate OnItsWay(s: Led)
  {
    || s.posted
    || s.pc.Started?
    || (s.pc.Read? && s.pc.led != s.lastSent)
    || (s.pc.Recorded? && s.pc.led != s.pending)
    || s.hw.latestPending
    || s.hw.sendingLatest
  }

  predicate LossRecorded(s: Led) { s.hw.latestLost || s.resyncDue || s.lastSent == UNSENT }

  /** The agreement kept between the dongle's LED byte and the host's. */
  predicate Agrees(t: Track)
  {
    t.newest.None? || t.hostLed == t.newest || OnItsWay(t.s) || LossRecorded(t.s)
  }

  ghost predicate Inv(t: Track)
  {
    var s := t.s;
    && s.hw.Valid()
    && s.pending != UNSENT
    && (t.newest.Some? ==> t.newest.value == s.pending)
    && (s.resyncDue ==> s.pc.Ready?)
    && HandlerInv(s)
    && (s.hw.sendingLatest && !s.hw.latestPending ==> s.hw.out.val == s.hw.latest.val)
    && (!OnTheWire(s) && !LossRecorded(s) ==> t.hostLed == Some(s.hw.latest.val))
  }

  predicate OnTheWire(s: Led) { s.hw.latestPending || s.hw.sendingLatest }

  predicate HandlerInv(s: Led)
  {
    && (s.lastSent != UNSENT && !s.pc.Given? ==> s.hw.latest.val == s.lastSent)
    && match s.pc
       case Ready => s.posted || s.pending == s.lastSent || s.lastSent == UNSENT
       case Started => true
       case Read(led) => led != UNSENT && (led == s.lastSent ==> s.posted || s.pending == led)
       case Given(led) => led != UNSENT && s.hw.latest.val == led && s.hw.latestPending
       case Recorded(led) => s.lastSent == led && led != UNSENT
  }

  lemma WakeStepKeepsSlot(s: HostWake.State, now: u32)
    requires s.Valid() && (s.sendingLatest && !s.latestPending ==> s.out.val == s.latest.val)
    ensures var r := HostWake.Stepped(s, now);
            && r.latest == s.latest && (s.latestLost ==> r.latestLost)
            && (r.sendingLatest && !r.latestPending ==> r.out.val == r.latest.val)
            && ((s.latestPending || s.sendingLatest) && !r.latestPending && !r.sendingLatest && !r.latestLost ==>
                  s.phase == HostWake.WaitAck && s.acked && s.sendingLatest && s.out.val == s.latest.val)
            && (s.phase == HostWake.WaitAck && s.acked && s.sendingLatest && !s.latestPending ==>
                  s.out.val == s.latest.val)
  {
  }

  lemma HandlerKeepsInv(t: Track, e: Event)
    requires Inv(t) && (e.Serve? || e.Continue? || (e.Relayed? && e.v != UNSENT))
    ensures Inv(Observed(t, e))
  {
  }

  lemma WireKeepsInv(t: Track, e: Event)
    requires Inv(t) && (e.Step? || e.Ack? || e.Enqueue?)
    ensures Inv(Observed(t, e))
  {
    if e.Step? {
      WakeStepKeepsSlot(t.s.hw, e.now);
    }
  }

  lemma LossKeepsInv(t: Track, e: Event)
    requires Inv(t) && (e.Connect? || e.TakeLost? || e.Resync?)
    ensures Inv(Observed(t, e))
  {
  }

  function Run(start: Track, events: seq<Event>): (t: Track)
    requires start.s.hw.Valid()
    ensures t.s.hw.Valid()
  {
    if events == [] then start
    else Observed(Run(start, events[..|events| - 1]), events[|events| - 1])
  }

  /** No relayed byte equals the marker. */
  predicate RealLeds(events: seq<Event>)
  {
    events == [] ||
    (var n := |events| - 1; RealLeds(events[..n]) && (events[n].Relayed? ==> events[n].v != UNSENT))
  }

  function Start(guard: u32, timeout: u32, attempts: u8): Track
  {
    Track(Init(guard, timeout, attempts), None, None)
  }

  lemma {:induction false} RunKeepsInv(start: Track, events: seq<Event>)
    requires Inv(start) && RealLeds(events)
    ensures Inv(Run(start, events))
  {
    if events != [] {
      var n := |events| - 1;
      RunKeepsInv(start, events[..n]);
      var e := events[n];
      if e.Serve? || e.Continue? || e.Relayed? {
        HandlerKeepsInv(Run(start, events[..n]), e);
      } else if e.Step? || e.Ack? || e.Enqueue? {
        WireKeepsInv(Run(start, events[..n]), e);
      } else {
        LossKeepsInv(Run(start, events[..n]), e);
      }
    }
  }

  lemma InvAgrees(t: Track)
    requires Inv(t)
    ensures Agrees(t)
  {
  }

  /** LED agreement end to end: at every moment, wherever the interrupt strikes, the host's last acknowledged
      LED byte is the newest relayed one, or a send of it is on its way, or the loss of one is recorded. */
  lemma LedAgreement(guard: u32, timeout: u32, attempts: u8, events: seq<Event>)
    requires RealLeds(events)
    ensures Agrees(Run(Start(guard, timeout, attempts), events))
  {
    RunKeepsInv(Start(guard, timeout, attempts), events);
    InvAgrees(Run(Start(guard, timeout, attempts), events));
  }

  /** The handler, if it is due, run to its end undisturbed. */
  function Settled(s: Led): Led
    requires s.hw.Valid()
  {
    if s.posted then Continued(Continued(Continued(Continued(Next(s, Serve))))) else s
  }

  /** A handler left undisturbed puts the newest byte in the slot, unless that is what it last put there. */
  lemma UndisturbedHandlerSends(t: Track)
    requires Inv(t) && AtLoop(t.s) && t.s.posted
    ensures var s := Settled(t.s);
            s.pc == Ready && !s.posted && s.hw.latest.val == s.lastSent == t.s.pending
  {
  }

  /** What the host already has is not sent again: a relay that repeats the byte last sent posts nothing by itself,
      and a handler that finds no other byte waiting leaves the slot alone. */
  lemma RepeatsAreNotSent(s: Led)
    requires s.hw.Valid() && s.pc.Ready? && !s.resyncDue
    ensures !s.posted ==> !Next(s, Relayed(s.lastSent)).posted
    ensures Settled(Next(s, Relayed(s.lastSent))).hw == s.hw && !Settled(Next(s, Relayed(s.lastSent))).posted
  {
  }

  /** The main loop forgets what it sent exactly when a loss has been recorded. */
  lemma ForgetsOnlyAfterALoss(s: Led)
    requires s.hw.Valid() && AtLoop(s)
    ensures var s' := Next(Next(s, TakeLost), Resync);
            && AtLoop(s') && !s'.hw.latestLost
            && s'.lastSent == if s.hw.latestLost then UNSENT else s.lastSent
  {
  }

  /** What an announced connection or a resync promises: the next relay reaches the slot whatever it repeats and
      whatever was waiting, the marker byte alone excepted, of which nothing comes. */
  lemma ForgettingForwardsTheNextRelay(s: Led, forget: Event, v: u8)
    requires s.hw.Valid() && (forget.Connect? || forget.Resync?) && s.pc.Ready? && Enabled(s, forget)
    ensures var s' := Settled(Next(Next(s, forget), Relayed(v)));
            && s'.pc.Ready? && !s'.posted
            && s'.lastSent == v
            && s'.hw == if v != UNSENT then HostWake.WithLatest(s.hw, HostWake.Frame(LED_FRAME, v)) else s.hw
  {
  }

  // ---------------------------------------------------------------- the code's own form

  /** The interrupt may strike, with a relay or with none. */
  function MaybeInterrupted(s: Led, relay: Option<u8>): Led
  {
    if relay.Some? then Interrupted(s, relay.value) else s
  }

  /** The handler from event to return, with up to one relay before each of its steps. */
  function Handled(s: Led, relays: seq<Option<u8>>): Led
    requires |relays| == 4
  {
    var read := Continued(MaybeInterrupted(s.(posted := false, pc := Started), relays[0]));
    var given := Continued(MaybeInterrupted(read, relays[1]));
    if given.pc.Ready? then given
    else Continued(MaybeInterrupted(Continued(MaybeInterrupted(given, relays[2])), relays[3]))
  }

  function SeenMaybe(t: Track, relay: Option<u8>): (t': Track)
    requires t.s.hw.Valid()
    ensures t'.s.hw.Valid() && t'.s == MaybeInterrupted(t.s, relay)
  {
    if relay.Some? then Observed(t, Relayed(relay.value)) else t
  }

  /** The handler and its interruptions as events of a run. */
  function HandledTrack(t: Track, relays: seq<Option<u8>>): Track
    requires t.s.hw.Valid() && |relays| == 4
  {
    var read := Observed(SeenMaybe(Observed(t, Serve), relays[0]), Continue);
    var given := Observed(SeenMaybe(read, relays[1]), Continue);
    if given.s.pc.Ready? then given
    else Observed(SeenMaybe(Observed(SeenMaybe(given, relays[2]), Continue), relays[3]), Continue)
  }

  lemma SeenKeepsInv(t: Track, relay: Option<u8>)
    requires Inv(t) && relay != Some(UNSENT)
    ensures Inv(SeenMaybe(t, relay))
  {
    if relay.Some? {
      HandlerKeepsInv(t, Relayed(relay.value));
    }
  }

  /** The handler as the code runs it is such a run, and leaves the agreement standing. */
  lemma HandledKeepsAgreement(t: Track, relays: seq<Option<u8>>)
    requires Inv(t) && AtLoop(t.s) && t.s.posted && |relays| == 4
    requires relays[0] != Some(UNSENT) && relays[1] != Some(UNSENT)
    requires relays[2] != Some(UNSENT) && relays[3] != Some(UNSENT)
    ensures HandledTrack(t, relays).s == Handled(t.s, relays)
    ensures Inv(HandledTrack(t, relays)) && Agrees(HandledTrack(t, relays))
  {
    var started := Observed(t, Serve);
    HandlerKeepsInv(t, Serve);
    SeenKeepsInv(started, relays[0]);
    var read := Observed(SeenMaybe(started, relays[0]), Continue);
    HandlerKeepsInv(SeenMaybe(started, relays[0]), Continue);
    SeenKeepsInv(read, relays[1]);
    var given := Observed(SeenMaybe(read, relays[1]), Continue);
    HandlerKeepsInv(SeenMaybe(read, relays[1]), Continue);
    if !given.s.pc.Ready? {
      SeenKeepsInv(given, relays[2]);
      var recorded := Observed(SeenMaybe(given, relays[2]), Continue);
      HandlerKeepsInv(SeenMaybe(given, relays[2]), Continue);
      SeenKeepsInv(recorded, relays[3]);
      HandlerKeepsInv(SeenMaybe(recorded, relays[3]), Continue);
    }
    InvAgrees(HandledTrack(t, relays));
  }

  class LedTask {
    var pendingLed: u8
    var lastLedSent: u8
    var posted: bool
    var resyncDue: bool
    const wake: HostWake.Wake
    ghost var pc: Progress

    ghost predicate Valid()
      reads this, wake, wake.cmd, wake.val
    {
      wake.Valid()
    }

    ghost function View(): Led
      requires Valid()
      reads this, wake, wake.cmd, wake.val
    {
      Led(pendingLed, lastLedSent, posted, pc, resyncDue, wake.View())
    }

    constructor (guard: u32, timeout: u32, attempts: u8)
      ensures Valid() && View() == Init(guard, timeout, attempts)
      ensures fresh(wake) && fresh(wake.cmd) && fresh(wake.val)
    {
      wake := new HostWake.Wake(guard, timeout, attempts);
      pendingLed, lastLedSent, posted, resyncDue, pc := 0, UNSENT, false, false, Ready;
    }

    /** The LED branch of the RX interrupt. */
    method OnRelay(v: u8)
      requires Valid()
      modifies this`pendingLed, this`posted
      ensures Valid() && View() == Interrupted(old(View()), v)
    {
      pendingLed := v;
      if pendingLed != lastLedSent {
        posted := true;
      }
    }

    method Interruptible(relay: Option<u8>)
      requires Valid()
      modifies this`pendingLed, this`posted
      ensures Valid() && View() == MaybeInterrupted(old(View()), relay)
    {
      if relay.Some? {
        OnRelay(relay.value);
      }
    }

    /** The NOTIFY_LED handler. */
    method NotifyLed(relays: seq<Option<u8>>)
      requires Valid() && pc.Ready? && posted && |relays| == 4
      modifies this, wake
      ensures Valid() && View() == Handled(old(View()), relays)
    {
      posted, pc := false, Started;
      Interruptible(relays[0]);
      var led := Copy();
      Interruptible(relays[1]);
      if led != lastLedSent {
        Give(led);
        Interruptible(relays[2]);
        Record(led);
        Interruptible(relays[3]);
        LookAgain(led);
      } else {
        pc := Ready;
      }
    }

    method Copy() returns (led: u8)
      requires Valid() && pc.Started?
      modifies this`pc
      ensures Valid() && View() == Continued(old(View())) && pc == Read(led)
    {
      led := pendingLed;
      pc := Read(led);
    }

    method Give(led: u8)
      requires Valid() && pc == Read(led) && led != lastLedSent
      modifies this`pc, wake
      ensures Valid() && View() == Continued(old(View())) && pc == Given(led)
    {
      wake.SetLatest(LED_FRAME, led);
      pc := Given(led);
    }

    method Record(led: u8)
      requires Valid() && pc == Given(led)
      modifies this`pc, this`lastLedSent
      ensures Valid() && View() == Continued(old(View())) && pc == Recorded(led)
    {
      lastLedSent := led;
      pc := Recorded(led);
    }

    /** A byte relayed before the record may have been compared with the old one. */
    method LookAgain(led: u8)
      requires Valid() && pc == Recorded(led)
      modifies this`pc, this`posted
      ensures Valid() && View() == Continued(old(View()))
    {
      if pendingLed != led {
        posted := true;
      }
      pc := Ready;
    }

    /** The main loop's KeyboardUart_TakeLedLost and RF_LedResync, the interrupt possibly between them. */
    method ResyncIfLost(relay: Option<u8>)
      requires Valid() && AtLoop(View())
      modifies this, wake
      ensures Valid()
      ensures var taken := MaybeInterrupted(Next(old(View()), TakeLost), relay);
              View() == if taken.resyncDue then Next(taken, Resync) else taken
    {
      resyncDue := wake.TakeLatestLost();
      Interruptible(relay);
      if resyncDue {
        lastLedSent := UNSENT;
        resyncDue := false;
      }
    }
  }
}
