/** The LED relay joined to a host that answers: `LedRelay` knows only that some ACK came while an LED frame was
    out, `HostWakeAck` whose copy an ACK answers. Together they say which byte the host has really answered. */
module LedHost {
  import opened Words
  import opened LedRelay
  import HostWake
  import A = HostWakeAck

  datatype Joint = Joint(
    t: Track,
    w: A.World,
    leds: map<nat, u8>,       // the LED frames among those started, by number, with their bytes
    shown: Option<u8>)        // the byte of the last LED copy the host answered

  datatype Happening =
    | Main(e: Event)          // the relay, its handler, connects, resyncs, other frames queued
    | Tick(t: nat)            // HostWake_Step at true time t
    | Answer(c: A.Copy)       // the host's ACK of that copy is parsed

  function JointStart(guard: u32, timeout: u32, attempts: u8): Joint
  {
    Joint(Start(guard, timeout, attempts), A.Start(guard, timeout, attempts), map[], None)
  }

  /** A frame from the slot starts in this step, and which number it has. */
  function LedsAfter(leds: map<nat, u8>, w: A.World, w': A.World): map<nat, u8>
  {
    if w'.frames > w.frames && w'.hw.sendingLatest then leds[w'.frames := w'.hw.out.val] else leds
  }

  function JointNext(j: Joint, e: Happening): (j': Joint)
    requires j.t.s.hw.Valid() && j.w.hw.Valid()
    ensures j'.t.s.hw.Valid() && j'.w.hw.Valid()
  {
    match e
    case Main(m) =>
      var t' := Observed(j.t, m);
      j.(t := t', w := j.w.(hw := t'.s.hw))
    case Tick(t) =>
      var w' := A.Next(j.w, A.Tick(t));
      Joint(Observed(j.t, Step(t % U32)), w', LedsAfter(j.leds, j.w, w'), j.shown)
    case Answer(c) =>
      Joint(Observed(j.t, Ack), A.Next(j.w, A.Answer(c)), j.leds,
            if c.frame in j.leds then Some(j.leds[c.frame]) else j.shown)
  }

  /** The host answers each copy at most once and within two timeouts; ticks and ACKs are for the main loop, and
      no relayed byte equals the marker. */
  predicate MayHappen(j: Joint, e: Happening)
  {
    match e
    case Main(m) => !m.Step? && !m.Ack? && (m.Relayed? ==> m.v != UNSENT)
    case Tick(t) => AtLoop(j.t.s) && A.Possible(j.w, A.Tick(t))
    case Answer(c) => AtLoop(j.t.s) && A.Possible(j.w, A.Answer(c))
  }

  ghost predicate JointInv(j: Joint)
  {
    && Inv(j.t) && A.Inv(j.w) && j.w.hw == j.t.s.hw
    && (forall f <- j.leds :: f <= j.w.frames)
    && FrameInv(j)
    && (!OnTheWire(j.t.s) && !LossRecorded(j.t.s) ==> j.shown == Some(j.w.hw.latest.val))
  }

  /** What the number of the last frame started says of it. */
  predicate FrameInv(j: Joint)
  {
    var hw := j.w.hw;
    && (hw.phase == HostWake.WaitAck ==> (hw.sendingLatest <==> j.w.frames in j.leds))
    && (hw.sendingLatest && j.w.frames in j.leds ==> j.leds[j.w.frames] == hw.out.val)
    && (hw.sendingLatest && hw.acked ==> j.shown == Some(hw.out.val))
    && (hw.phase == HostWake.Quarantine && j.w.frames in j.leds && !hw.latestPending ==>
          j.leds[j.w.frames] == hw.latest.val)
  }

  lemma MainKeepsInv(j: Joint, m: Event)
    requires JointInv(j) && MayHappen(j, Main(m))
    ensures JointInv(JointNext(j, Main(m)))
  {
    if m.Enqueue? {
      WireKeepsInv(j.t, m);
    } else if m.Connect? || m.TakeLost? || m.Resync? {
      LossKeepsInv(j.t, m);
    } else {
      HandlerKeepsInv(j.t, m);
    }
  }

  lemma TickKeepsFrames(j: Joint, t: nat)
    requires JointInv(j)
    ensures FrameInv(JointNext(j, Tick(t)).(t := j.t))
  {
    WakeStepKeepsSlot(j.w.hw, t % U32);
    hide LossRecorded;
  }

  lemma TickKeepsJoint(j: Joint, t: nat)
    requires JointInv(j) && MayHappen(j, Tick(t)) && 2 * j.w.hw.cfg.timeout < U32
    ensures JointInv(JointNext(j, Tick(t)))
  {
    TickKeepsFrames(j, t);
    hide FrameInv;
    A.TickKeepsInv(j.w, t);
    WireKeepsInv(j.t, Step(t % U32));
    WakeStepKeepsSlot(j.w.hw, t % U32);
    hide A.Inv, Inv;
    assert JointNext(j, Tick(t)).(t := j.t).w == JointNext(j, Tick(t)).w;
  }

  lemma AnswerKeepsJoint(j: Joint, c: A.Copy)
    requires JointInv(j) && MayHappen(j, Answer(c)) && 2 * j.w.hw.cfg.timeout < U32
    ensures JointInv(JointNext(j, Answer(c)))
  {
    A.NextKeepsInv(j.w, A.Answer(c));
    WireKeepsInv(j.t, Ack);
  }

  function JointRun(j: Joint, events: seq<Happening>): (j': Joint)
    requires j.t.s.hw.Valid() && j.w.hw.Valid()
    ensures j'.t.s.hw.Valid() && j'.w.hw.Valid()
  {
    if events == [] then j
    else JointNext(JointRun(j, events[..|events| - 1]), events[|events| - 1])
  }

  predicate AllMayHappen(j: Joint, events: seq<Happening>)
    requires j.t.s.hw.Valid() && j.w.hw.Valid()
  {
    events == []
    || (AllMayHappen(j, events[..|events| - 1])
        && MayHappen(JointRun(j, events[..|events| - 1]), events[|events| - 1]))
  }

  lemma {:induction false} RunKeepsJoint(j: Joint, events: seq<Happening>)
    requires JointInv(j) && AllMayHappen(j, events) && 2 * j.w.hw.cfg.timeout < U32
    ensures JointInv(JointRun(j, events)) && JointRun(j, events).w.hw.cfg == j.w.hw.cfg
  {
    if events != [] {
      var n := |events| - 1;
      RunKeepsJoint(j, events[..n]);
      var before := JointRun(j, events[..n]);
      CfgKept(before, events[n]);
      hide JointInv, MayHappen, JointNext;
      match events[n]
      case Main(m) => MainKeepsInv(before, m);
      case Tick(t) => TickKeepsJoint(before, t);
      case Answer(c) => AnswerKeepsJoint(before, c);
    }
  }

  lemma SlotKeepsCfg(s: Led)
    ensures HostWake.LostTaken(s.hw).cfg == HostWake.Acked(s.hw).cfg == s.hw.cfg
    ensures forall f :: HostWake.WithLatest(s.hw, f).cfg == s.hw.cfg
    ensures forall f :: HostWake.Enqueued(s.hw, f).cfg == s.hw.cfg
  {
  }

  lemma CfgKept(j: Joint, e: Happening)
    requires JointInv(j)
    ensures JointNext(j, e).w.hw.cfg == j.w.hw.cfg
  {
    hide A.Inv, Inv, FrameInv, OnTheWire, LossRecorded, LedsAfter, HostWake.Stepped, HostWake.WithLatest;
    hide HostWake.Enqueued, HostWake.Acked, HostWake.LostTaken;
    SlotKeepsCfg(j.t.s);
  }

  /** LED agreement with the host itself. For a host that answers each copy at most once and within two timeouts:
      at every moment, wherever the interrupt strikes, the byte of the last LED copy the host answered is the
      newest relayed one, or a send of it is on its way, or the loss of one is recorded. */
  lemma HostAgrees(guard: u32, timeout: u32, attempts: u8, events: seq<Happening>)
    requires 2 * timeout < U32 && AllMayHappen(JointStart(guard, timeout, attempts), events)
    ensures var j := JointRun(JointStart(guard, timeout, attempts), events);
            j.t.newest.None? || j.shown == j.t.newest || OnItsWay(j.t.s) || LossRecorded(j.t.s)
  {
    RunKeepsJoint(JointStart(guard, timeout, attempts), events);
    var j := JointRun(JointStart(guard, timeout, attempts), events);
    assert Inv(j.t.(hostLed := j.shown));
    InvAgrees(j.t.(hostLed := j.shown));
  }

  /** ... and whenever the module believes an LED byte delivered, it is one the host has answered. */
  lemma DeliveriesAreAnswered(guard: u32, timeout: u32, attempts: u8, events: seq<Happening>, now: u32)
    requires 2 * timeout < U32 && AllMayHappen(JointStart(guard, timeout, attempts), events)
    ensures var j := JointRun(JointStart(guard, timeout, attempts), events);
            Delivers(j.t.s, Step(now)) ==> j.shown == Some(j.t.s.hw.out.val)
  {
    RunKeepsJoint(JointStart(guard, timeout, attempts), events);
  }
}
