/** The uplink of rf_task.c: the keyboard answers each poll it catches with the head of the report ring, and
    the dongle's control bit, flipped once per response it hears, is the only acknowledgement. */
module ReportLink {
  import opened Words
  import opened ReportRing

  datatype Payload = Keepalive | Hid(report: Report)

  /** The keyboard's half of the link. */
  datatype Keyboard = Keyboard(
    queue: Queue,
    txCtrl: bv8,
    responsePending: bool,
    responseCtrl: bv8)

  predicate Bit0(x: bv8) { x & 1 == 1 }

  /** `tx_ctrl` once the dongle's bit has moved: its bit is copied, our own bit 1 toggles. */
  function Advanced(tx: bv8, rx: bv8): bv8
  {
    ((tx & 0xFE) | (rx & 1)) ^ 2
  }

  lemma AdvancedCopiesBit0(tx: bv8, rx: bv8)
    ensures Bit0(Advanced(tx, rx)) == Bit0(rx)
    ensures (rx ^ tx) & 1 != 0 <==> Bit0(rx) != Bit0(tx)
  {
  }

  const POWER_UP := Keyboard(EMPTY, 0x02, false, 0)

  function PollCaught(k: Keyboard, rx: bv8): Keyboard
  {
    var moved := Bit0(rx) != Bit0(k.txCtrl);
    var tx := if moved then Advanced(k.txCtrl, rx) else k.txCtrl;
    Keyboard(if moved then Retired(k.queue) else k.queue, tx, true, tx)
  }

  function Selected(k: Keyboard): Payload
  {
    if k.queue.entries == [] then Keepalive else Hid(k.queue.entries[0])
  }

  /** rf_do_response_tx, for a transmission that does or does not start. */
  function Responded(k: Keyboard, started: bool): Keyboard
  {
    if !k.responsePending then k
    else if !started then k.(responsePending := false)
    else k.(queue := if k.queue.entries == [] then k.queue else Sent(k.queue))
  }

  function Released(k: Keyboard): Keyboard { k.(responsePending := false) }

  /** rf_enter_connected. */
  function Connected(k: Keyboard): Keyboard
  {
    k.(queue := k.queue.(headSent := false), txCtrl := 0x02, responsePending := false)
  }

  /** The supervision teardown. */
  function Lapsed(k: Keyboard): Keyboard
  {
    k.(queue := Forgotten(k.queue).(headSent := false), responsePending := false)
  }

  class Uplink {
    const fifo: HidFifo
    var txCtrl: bv8
    var responsePending: bool
    var responseCtrl: bv8

    ghost predicate Shaped()
      reads this, fifo, fifo.slots
    {
      fifo.Shaped()
    }

    ghost function View(): Keyboard
      requires Shaped()
      reads this, fifo, fifo.slots
    {
      Keyboard(fifo.View(), txCtrl, responsePending, responseCtrl)
    }

    constructor ()
      ensures Shaped() && View() == POWER_UP && fresh(fifo) && fresh(fifo.slots)
    {
      fifo := new HidFifo();
      txCtrl, responsePending, responseCtrl := 0x02, false, 0;
    }

    /** The connected-poll branch of RF_2G4StatusCallBack. */
    method OnPoll(rxCtrl: bv8)
      requires Shaped()
      modifies this, fifo
      ensures Shaped() && View() == PollCaught(old(View()), rxCtrl)
    {
      AdvancedCopiesBit0(txCtrl, rxCtrl);
      if (rxCtrl ^ txCtrl) & 1 != 0 {
        txCtrl := ((txCtrl & 0xFE) | (rxCtrl & 1)) ^ 2;
        fifo.RetireOnAck();
      }
      responseCtrl := txCtrl;
      responsePending := true;
    }

    /** What to transmit, if a response is pending; `started` is whether RF_Tx accepts it. */
    method DoResponseTx(started: bool) returns (frame: Option<Payload>)
      requires Shaped()
      modifies this, fifo
      ensures Shaped() && View() == Responded(old(View()), started)
      ensures frame == if old(responsePending) && started then Some(Selected(old(View()))) else None
    {
      if !responsePending {
        return None;
      }
      var head := fifo.SelectHead();
      if !started {
        responsePending := false;
        return None;
      }
      if head.Some? {
        fifo.headSent := true;
        return Some(Hid(head.value));
      }
      return Some(Keepalive);
    }

    /** TX_FINISH, TX_FAIL, or the main loop giving up on either. */
    method Release()
      requires Shaped()
      modifies this`responsePending
      ensures Shaped() && View() == Released(old(View()))
    {
      responsePending := false;
    }

    method EnterConnected()
      requires Shaped()
      modifies this, fifo
      ensures Shaped() && View() == Connected(old(View()))
    {
      txCtrl := 0x02;
      fifo.headSent := false;
      responsePending := false;
    }

    method Lapse()
      requires Shaped()
      modifies this, fifo
      ensures Shaped() && View() == Lapsed(old(View()))
    {
      responsePending := false;
      fifo.headSent := false;
      fifo.lastQueuedValid := false;
    }
  }
}
