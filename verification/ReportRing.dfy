/** The HID report ring of rf_task.c: the main loop enqueues, the RX interrupt retires the head on the
    dongle's acknowledgement, and a full ring coalesces onto its newest entry. */
module ReportRing {
  import opened Words

  const SLOTS: nat := 16

  const NO_KEYS: seq<u8> := [0, 0, 0, 0, 0, 0, 0, 0]

  /** An eight-byte boot keyboard report. */
  type Report = r: seq<u8> | |r| == 8 witness [0, 0, 0, 0, 0, 0, 0, 0]

  /** Any key or modifier is down. */
  predicate HoldsKey(r: Report) { r != NO_KEYS }

  datatype Queue = Queue(
    entries: seq<Report>,
    headSent: bool,        // the head is in flight; an acknowledgement may retire it
    last: Report,          // the newest state queued
    lastValid: bool)       // ... still describes what the host shows
  {
    predicate Valid() { |entries| <= SLOTS && (headSent ==> entries != []) }

    /** hid_key_held(). */
    predicate KeyHeld() { lastValid && HoldsKey(last) }
  }

  const EMPTY := Queue([], false, NO_KEYS, false)

  function Coalesced(entries: seq<Report>, r: Report): seq<Report>
  {
    if |entries| < SLOTS then entries + [r] else entries[..|entries| - 1] + [r]
  }

  /** Queue every transition; an unchanged repeat of the newest queued state adds nothing. */
  function Queued(q: Queue, r: Report): Queue
  {
    if q.lastValid && q.last == r then q
    else q.(entries := Coalesced(q.entries, r), last := r, lastValid := true)
  }

  /** The dongle's control bit moved. */
  function Retired(q: Queue): Queue
  {
    if q.headSent then q.(headSent := false, entries := if q.entries == [] then [] else q.entries[1..]) else q
  }

  function Discarded(q: Queue): Queue { q.(entries := [], headSent := false) }

  /** The link is gone: the dongle releases every key, so the newest state no longer describes the host. */
  function Forgotten(q: Queue): Queue { q.(lastValid := false) }

  function Sent(q: Queue): Queue { q.(headSent := true) }

  function RetiredIf(q: Queue, acks: bool): Queue { if acks then Retired(q) else q }

  /** Only a full ring can tell whether an acknowledgement came before a new report or after it. */
  lemma OrderMattersOnlyWhenFull(q: Queue, r: Report)
    requires q.Valid() && q.headSent && !(q.lastValid && q.last == r)
    ensures Queued(Retired(q), r) == Retired(Queued(q, r)) <==> |q.entries| < SLOTS
  {
    assert |q.entries| == SLOTS ==> |Queued(Retired(q), r).entries| != |Retired(Queued(q, r)).entries|;
  }

  lemma StaysValid(q: Queue, r: Report)
    requires q.Valid()
    ensures Queued(q, r).Valid() && Retired(q).Valid() && Discarded(q).Valid() && Forgotten(q).Valid()
  {
  }

  // ---------------------------------------------------------------- the code's own form

  /** Where the i-th entry from the head lives. */
  function Slot(head: nat, i: nat): (k: nat)
    ensures k < SLOTS
  {
    (head + i) % SLOTS
  }

  function Held(slots: seq<Report>, head: nat, count: nat): (q: seq<Report>)
    requires |slots| == SLOTS
    ensures |q| == count
  {
    seq(count, i requires 0 <= i => slots[Slot(head, i)])
  }

  lemma SlotsDiffer(head: nat, i: nat, j: nat)
    requires i < j < i + SLOTS
    ensures Slot(head, i) != Slot(head, j)
  {
    var a, b := head + i, head + j;
    assert a == a / SLOTS * SLOTS + a % SLOTS && b == b / SLOTS * SLOTS + b % SLOTS;
  }

  /** The slot past the held ones is none of them. */
  lemma HeldIgnoresFree(slots: seq<Report>, head: nat, count: nat, r: Report)
    requires |slots| == SLOTS && count < SLOTS
    ensures Held(slots[Slot(head, count) := r], head, count) == Held(slots, head, count)
  {
    forall i: nat | i < count ensures Slot(head, i) != Slot(head, count) {
      SlotsDiffer(head, i, count);
    }
    hide Slot;
  }

  lemma HeldPush(slots: seq<Report>, head: nat, count: nat, r: Report)
    requires |slots| == SLOTS && count < SLOTS
    ensures Held(slots[Slot(head, count) := r], head, count + 1) == Held(slots, head, count) + [r]
  {
    HeldIgnoresFree(slots, head, count, r);
    var after := slots[Slot(head, count) := r];
    hide Slot;
    assert Held(after, head, count + 1) == Held(after, head, count) + [after[Slot(head, count)]];
  }

  lemma HeldPop(slots: seq<Report>, head: nat, count: nat)
    requires |slots| == SLOTS && 0 < count && head < 0x100
    ensures Held(slots, (head + 1) % 0x100, count - 1) == Held(slots, head, count)[1..]
  {
    var popped, rest := Held(slots, (head + 1) % 0x100, count - 1), Held(slots, head, count)[1..];
    forall i | 0 <= i < |popped| ensures popped[i] == rest[i] {
      SlotPopped(head, i);
    }
    hide Slot, Held;
    assert popped == rest;
  }

  lemma SlotPopped(head: nat, i: nat)
    requires head < 0x100
    ensures Slot((head + 1) % 0x100, i) == Slot(head, i + 1)
  {
  }

  /** Where the free-running indices point: 256 is a multiple of the ring size. */
  lemma IndexPast(head: u8, tail: u8)
    ensures Slot(head, (tail - head) % 0x100) == tail % SLOTS
  {
  }

  /** Writing the slot before the tail replaces the newest entry and no other. */
  lemma HeldReplaceNewest(slots: seq<Report>, head: nat, count: nat, r: Report)
    requires |slots| == SLOTS && 0 < count <= SLOTS
    ensures Held(slots[Slot(head, count - 1) := r], head, count) == Held(slots, head, count)[..count - 1] + [r]
  {
    HeldPush(slots, head, count - 1, r);
    hide Slot;
    assert Held(slots, head, count)[..count - 1] == Held(slots, head, count - 1);
  }

  lemma OneBack(head: u8, tail: u8)
    requires head != tail
    ensures ((tail - 1) % 0x100 - head) % 0x100 == (tail - head) % 0x100 - 1
  {
  }

  lemma CountPopped(head: u8, tail: u8)
    requires head != tail
    ensures (tail - (head + 1) % 0x100) % 0x100 == (tail - head) % 0x100 - 1
  {
  }

  lemma CountPushed(head: u8, tail: u8)
    requires (tail - head) % 0x100 < 0xFF
    ensures ((tail + 1) % 0x100 - head) % 0x100 == (tail - head) % 0x100 + 1
  {
  }

  class HidFifo {
    const slots: array<Report>
    var head: u8                  // interrupt-owned: retire on acknowledgement
    var tail: u8                  // main-loop-owned: enqueue
    var headSent: bool
    var lastQueued: Report
    var lastQueuedValid: bool

    function Count(): u8
      reads this
    {
      (tail - head) % 0x100
    }

    ghost predicate Shaped()
      reads this, slots
    {
      slots.Length == SLOTS && Count() <= SLOTS && (headSent ==> Count() > 0)
    }

    ghost function View(): (q: Queue)
      requires Shaped()
      reads this, slots
      ensures q.Valid()
    {
      Queue(Held(slots[..], head, Count()), headSent, lastQueued, lastQueuedValid)
    }

    constructor ()
      ensures Shaped() && View() == EMPTY && fresh(slots)
    {
      slots := new Report[SLOTS](i => NO_KEYS);
      head, tail, headSent, lastQueued, lastQueuedValid := 0, 0, false, NO_KEYS, false;
    }

    /** The acknowledgement branch of the RX interrupt. */
    method RetireOnAck()
      requires Shaped()
      modifies this`head, this`headSent
      ensures Shaped() && View() == Retired(old(View()))
      ensures Count() >= old(Count()) - 1 && !headSent
    {
      if headSent {
        headSent := false;
        if tail != head {
          HeldPop(slots[..], head, Count());
          CountPopped(head, tail);
          head := (head + 1) % 0x100;
        }
      }
    }

    /** A point at which the RX interrupt may strike. */
    method Interruptible(acks: bool)
      requires Shaped()
      modifies this`head, this`headSent
      ensures Shaped() && View() == RetiredIf(old(View()), acks)
      ensures Count() >= old(Count()) - if old(headSent) then 1 else 0
    {
      if acks { RetireOnAck(); }
    }

    /** RF_QueueHIDReport, with the RX interrupt free to acknowledge the head before the occupancy test,
        after it, once the slot is written, and once the entry is published. The occupancy test is where the
        report takes effect: a retirement before it goes first, and one that strikes anywhere after it has
        the outcome of retiring once the report is queued. The coalescing overwrite never lands on the head,
        because only one retirement can come between the test and the write. */
    method QueueHIDReport(report: Report, ackBefore: bool, ackTested: bool, ackWritten: bool, ackPublished: bool)
      requires Shaped()
      modifies this, slots
      ensures Shaped()
      ensures View() == RetiredIf(Queued(RetiredIf(old(View()), ackBefore), report),
                                  ackTested || ackWritten || ackPublished)
    {
      Interruptible(ackBefore);
      if !lastQueuedValid || lastQueued != report {
        Enqueue(report, ackTested, ackWritten);
      } else {
        Interruptible(ackTested || ackWritten);
      }
      Interruptible(ackPublished);
    }

    method Enqueue(report: Report, ackTested: bool, ackWritten: bool)
      requires Shaped() && (!lastQueuedValid || lastQueued != report)
      modifies this, slots
      ensures Shaped()
      ensures View() == RetiredIf(Queued(old(View()), report), ackTested || ackWritten)
    {
      if Count() < SLOTS {
        Append(report, ackTested, ackWritten);
      } else {
        Coalesce(report, ackTested, ackWritten);
      }
      lastQueued := report;
      lastQueuedValid := true;
    }

    method Append(report: Report, ackTested: bool, ackWritten: bool)
      requires Shaped() && Count() < SLOTS
      modifies this`head, this`tail, this`headSent, slots
      ensures Shaped()
      ensures View() == RetiredIf(old(View()).(entries := old(View()).entries + [report]), ackTested || ackWritten)
    {
      Interruptible(ackTested);
      WriteSlot(tail % SLOTS, report);
      Interruptible(ackWritten);
      Publish(report);
    }

    method Coalesce(report: Report, ackTested: bool, ackWritten: bool)
      requires Shaped() && Count() == SLOTS
      modifies this`head, this`headSent, slots
      ensures Shaped()
      ensures View() == RetiredIf(old(View()).(entries := old(View()).entries[..SLOTS - 1] + [report]),
                                  ackTested || ackWritten)
    {
      Interruptible(ackTested);
      Overwrite(report);
      Interruptible(ackWritten);
    }

    /** The payload store, not yet visible: the slot past the newest entry. */
    method WriteSlot(slot: nat, report: Report)
      requires Shaped() && slot == tail % SLOTS && Count() < SLOTS
      modifies slots
      ensures Shaped() && View() == old(View()) && slots[tail % SLOTS] == report
    {
      IndexPast(head, tail);
      HeldIgnoresFree(slots[..], head, Count(), report);
      slots[slot] := report;
    }

    method Publish(report: Report)
      requires Shaped() && Count() < SLOTS && slots[tail % SLOTS] == report
      modifies this`tail
      ensures Shaped() && View() == old(View()).(entries := old(View()).entries + [report])
    {
      IndexPast(head, tail);
      HeldPush(slots[..], head, Count(), report);
      assert slots[..][tail % SLOTS := report] == slots[..];
      CountPushed(head, tail);
      tail := (tail + 1) % 0x100;
    }

    method Overwrite(report: Report)
      requires Shaped() && Count() > 1
      modifies slots
      ensures Shaped() && slots[head % SLOTS] == old(slots[head % SLOTS])
      ensures View() == old(View()).(entries := old(View()).entries[..Count() - 1] + [report])
    {
      OneBack(head, tail);
      IndexPast(head, (tail - 1) % 0x100);
      HeldReplaceNewest(slots[..], head, Count(), report);
      SlotsDiffer(head, 0, Count() - 1);
      slots[(tail - 1) % 0x100 % SLOTS] := report;
    }

    /** rf_discard_hid_queue, IDLE only. */
    method Discard()
      requires Shaped()
      modifies this`head, this`headSent
      ensures Shaped() && View() == Discarded(old(View()))
    {
      head := tail;
      headSent := false;
    }

    /** A response carrying the head has gone on air. */
    method MarkSent()
      requires Shaped() && Count() > 0
      modifies this`headSent
      ensures Shaped() && View() == Sent(old(View()))
    {
      headSent := true;
    }

    /** A new session, or a teardown: nothing is in flight. */
    method ForgetSent()
      requires Shaped()
      modifies this`headSent
      ensures Shaped() && View() == old(View()).(headSent := false)
    {
      headSent := false;
    }

    method ForgetLast()
      requires Shaped()
      modifies this`lastQueuedValid
      ensures Shaped() && View() == Forgotten(old(View()))
    {
      lastQueuedValid := false;
    }

    /** Both, as supervision does. */
    method LoseLink()
      requires Shaped()
      modifies this`headSent, this`lastQueuedValid
      ensures Shaped() && View() == Forgotten(old(View())).(headSent := false)
    {
      headSent := false;
      lastQueuedValid := false;
    }

    /** hid_key_held(). */
    predicate KeyHeld()
      reads this
    {
      lastQueuedValid && HoldsKey(lastQueued)
    }

    /** The selection in rf_do_response_tx: one occupancy test and one slot, with interrupts masked. */
    method SelectHead() returns (r: Option<Report>)
      requires Shaped()
      ensures r == if View().entries == [] then None else Some(View().entries[0])
    {
      if (tail - head) % 0x100 != 0 {
        return Some(slots[head % SLOTS]);
      }
      return None;
    }
  }
}
