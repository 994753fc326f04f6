/** The control byte of the uplink, by the polls alone: what the dongle reads in every response. */
module ReportControl {
  import opened Words
  import ReportRing
  import opened ReportLink
  import opened ReportDelivery

  /** The bit of the last poll caught in this session, and how often it has changed. */
  datatype Bits = Bits(last: bool, changes: nat)

  function Seen(events: seq<Event>): Bits
  {
    if events == [] then Bits(false, 0)
    else
      var n := |events| - 1;
      var b := Seen(events[..n]);
      if !Enabled(After(events[..n]), events[n]) then b
      else
        match events[n]
        case Connect(_) => Bits(false, 0)
        case Poll(rx) => Bits(Bit0(rx), b.changes + if Bit0(rx) != b.last then 1 else 0)
        case _ => b
  }

  /** Bit 0 echoes the dongle's, bit 1 starts high and turns over at every change, the rest are clear. */
  function Byte(b: Bits): bv8
  {
    if b.changes % 2 == 0 then (if b.last then 3 else 2) else if b.last then 1 else 0
  }

  lemma PollTurns(b: Bits, rx: bv8)
    ensures var tx, b' := Byte(b), Bits(Bit0(rx), b.changes + if Bit0(rx) != b.last then 1 else 0);
            Byte(b') == if Bit0(rx) != Bit0(tx) then Advanced(tx, rx) else tx
  {
    var tx := Byte(b);
    TurnedBits(rx);
    assert (b.changes + 1) % 2 != b.changes % 2;
  }

  lemma TurnedBits(rx: bv8)
    ensures Bit0(rx) ==> Advanced(2, rx) == 1 && Advanced(0, rx) == 3
    ensures !Bit0(rx) ==> Advanced(3, rx) == 0 && Advanced(1, rx) == 2
    ensures !Bit0(0) && Bit0(1) && !Bit0(2) && Bit0(3)
  {
  }

  /** Over every run: in a session the control byte is that of the polls caught in it, and a response that is due
      will carry it. */
  lemma {:induction false} ControlByteCountsChanges(events: seq<Event>)
    ensures var k := After(events).k;
            After(events).up ==> k.txCtrl == Byte(Seen(events)) && (k.responsePending ==> k.responseCtrl == k.txCtrl)
  {
    if events != [] {
      var n := |events| - 1;
      ControlByteCountsChanges(events[..n]);
      if Enabled(After(events[..n]), events[n]) {
        ControlStep(After(events[..n]), events[n], Seen(events[..n]));
      }
      hide Next, Enabled, Byte, Bit0;
    }
  }

  lemma ControlStep(w: World, e: Event, b: Bits)
    requires Enabled(w, e)
    requires w.up ==> w.k.txCtrl == Byte(b) && (w.k.responsePending ==> w.k.responseCtrl == w.k.txCtrl)
    ensures var w' := Next(w, e);
            var b' := match e
              case Connect(_) => Bits(false, 0)
              case Poll(rx) => Bits(Bit0(rx), b.changes + if Bit0(rx) != b.last then 1 else 0)
              case _ => b;
            w'.up ==> w'.k.txCtrl == Byte(b') && (w'.k.responsePending ==> w'.k.responseCtrl == w'.k.txCtrl)
  {
    hide Byte;
    if e.Poll? {
      PollTurns(b, e.rx);
      hide Bit0, Advanced;
    } else {
      OthersKeepControl(w, e);
      hide Next, Enabled, Bit0;
    }
  }

  /** A step that leaves the control byte and the latched copy as they are, or begins a session. */
  predicate KeepsControl(w: World, w': World, connects: bool)
  {
    w'.up ==>
      if connects then w'.k.txCtrl == 0x02 && !w'.k.responsePending
      else w.up && w'.k.txCtrl == w.k.txCtrl && w'.k.responseCtrl == w.k.responseCtrl &&
           (w'.k.responsePending ==> w.k.responsePending)
  }

  lemma RadioKeepsControl(w: World, e: Event)
    requires e.Turnaround? || e.Hear? || e.TxEnd? || e.Rearm? || e.ForceRelease? || e.Host?
    ensures KeepsControl(w, Next(w, e), false)
  {
    hide ReportRing.Queued;
  }

  lemma ResponseKeepsControl(w: World, started: bool)
    ensures KeepsControl(w, Next(w, Serve(started)), false)
  {
  }

  lemma SessionKeepsControl(w: World, e: Event)
    requires e.Lapse? || e.Leave? || e.Rest? || e.Discard? || e.Connect?
    ensures KeepsControl(w, Next(w, e), e.Connect?)
  {
  }

  lemma OthersKeepControl(w: World, e: Event)
    requires Enabled(w, e) && !e.Poll?
    ensures KeepsControl(w, Next(w, e), e.Connect?) && Byte(Bits(false, 0)) == 0x02
  {
    hide Next, KeepsControl;
    match e
    case Serve(started) => ResponseKeepsControl(w, started);
    case _ =>
      if e.Lapse? || e.Leave? || e.Rest? || e.Discard? || e.Connect? {
        SessionKeepsControl(w, e);
      } else {
        RadioKeepsControl(w, e);
      }
  }
}
