/** The UART receive ring between UART1_IRQHandler and KeyboardUart_Poll (keyboard_uart.c).

    The interrupt may run between any two accesses of the poll loop, so the loop is a step machine: each
    `Step` is one access, and a run is any interleaving of steps and interrupts. */
module RxRing {
  import opened Words

  const RING_SIZE: nat := 64

  /** Where the poll loop stands. */
  datatype Place =
    | AtLatch    // about to read rx_overrun_latch
    | AtEmpty    // latch was clear; about to compare tail with head
    | AtFeed     // not empty; about to feed the byte at the tail
    | AtAdvance  // fed; about to increment the tail

  /** What the parser sees. */
  datatype Feed = Byte(b: u8) | Reset

  datatype Rx = Rx(ring: seq<u8>, latch: bool, place: Place)

  const QUIET := Rx([], false, AtLatch)

  /** The interrupt takes one byte from the hardware. */
  function Taken(r: Rx, b: u8): Rx
  {
    if |r.ring| < RING_SIZE then r.(ring := r.ring + [b]) else r.(latch := true)
  }

  /** The interrupt finds that the hardware itself lost bytes. */
  function Overrun(r: Rx): Rx { r.(latch := true) }

  function Polled(r: Rx): Rx
    requires r.place == AtFeed || r.place == AtAdvance ==> r.ring != []
  {
    match r.place
    case AtLatch => if r.latch then r.(ring := [], latch := false) else r.(place := AtEmpty)
    case AtEmpty => r.(place := if r.ring == [] then AtLatch else AtFeed)
    case AtFeed => r.(place := AtAdvance)
    case AtAdvance => r.(ring := r.ring[1..], place := AtLatch)
  }

  /** What that step hands the parser. */
  function Handed(r: Rx): seq<Feed>
    requires r.place == AtFeed ==> r.ring != []
  {
    if r.place == AtLatch && r.latch then [Reset]
    else if r.place == AtFeed then [Byte(r.ring[0])]
    else []
  }

  // ---------------------------------------------------------------- the code's own form

  /** The bytes held, oldest first, between two free-running 8-bit indices. */
  function Held(ring: seq<u8>, tail: nat, count: nat): (q: seq<u8>)
    requires |ring| == RING_SIZE
    ensures |q| == count
  {
    seq(count, i requires 0 <= i => ring[Slot(tail, i)])
  }

  /** Where the i-th byte from the tail lives. */
  function Slot(tail: nat, i: nat): (k: nat)
    ensures k < RING_SIZE
  {
    (tail + i) % RING_SIZE
  }

  lemma SlotsDiffer(tail: nat, i: nat, j: nat)
    requires i < j < i + RING_SIZE
    ensures Slot(tail, i) != Slot(tail, j)
  {
    var a, b := tail + i, tail + j;
    assert a == a / RING_SIZE * RING_SIZE + a % RING_SIZE && b == b / RING_SIZE * RING_SIZE + b % RING_SIZE;
  }

  lemma HeldPush(ring: seq<u8>, tail: nat, count: nat, b: u8)
    requires |ring| == RING_SIZE && count < RING_SIZE
    ensures Held(ring[Slot(tail, count) := b], tail, count + 1) == Held(ring, tail, count) + [b]
  {
    forall i: nat | i < count ensures Slot(tail, i) != Slot(tail, count) {
      SlotsDiffer(tail, i, count);
    }
    hide Slot;
    var after := ring[Slot(tail, count) := b];
    assert Held(after, tail, count + 1) == Held(after, tail, count) + [after[Slot(tail, count)]];
  }

  lemma HeldPop(ring: seq<u8>, tail: nat, count: nat)
    requires |ring| == RING_SIZE && 0 < count && tail < 0x100
    ensures Held(ring, (tail + 1) % 0x100, count - 1) == Held(ring, tail, count)[1..]
  {
    var popped, rest := Held(ring, (tail + 1) % 0x100, count - 1), Held(ring, tail, count)[1..];
    forall i | 0 <= i < |popped| ensures popped[i] == rest[i] {
      SlotPopped(tail, i);
    }
    hide Slot, Held;
    assert popped == rest;
  }

  lemma SlotPopped(tail: nat, i: nat)
    requires tail < 0x100
    ensures Slot((tail + 1) % 0x100, i) == Slot(tail, i + 1)
  {
  }

  /** 256 is a multiple of the ring size. */
  lemma IndexPast(tail: u8, head: u8)
    ensures Slot(tail, (head - tail) % 0x100) == head % RING_SIZE
    ensures (head - tail) % 0x100 < 0xFF ==>
              ((head + 1) % 0x100 - tail) % 0x100 == (head - tail) % 0x100 + 1
    ensures head != tail ==> (head - (tail + 1) % 0x100) % 0x100 == (head - tail) % 0x100 - 1
  {
  }

  class RxPort {
    const rxRing: array<u8>
    var head: u8                  // interrupt-owned
    var tail: u8                  // main-loop-owned
    var overrunLatch: bool
    var toParser: seq<Feed>       // the calls of feed_byte() and reset_parser()
    ghost var place: Place

    function Count(): u8
      reads this
    {
      (head - tail) % 0x100
    }

    ghost predicate Shaped()
      reads this, rxRing
    {
      rxRing.Length == RING_SIZE && Count() <= RING_SIZE && (place == AtFeed || place == AtAdvance ==> Count() > 0)
    }

    ghost function View(): (r: Rx)
      requires Shaped()
      reads this, rxRing
      ensures r.place == AtFeed || r.place == AtAdvance ==> r.ring != []
    {
      Rx(Held(rxRing[..], tail, Count()), overrunLatch, place)
    }

    constructor ()
      ensures Shaped() && View() == QUIET && toParser == [] && fresh(rxRing)
    {
      rxRing := new u8[RING_SIZE](i => 0);
      head, tail, overrunLatch, toParser, place := 0, 0, false, [], AtLatch;
    }

    /** One turn of the interrupt's drain loop. */
    method IrqByte(b: u8)
      requires Shaped()
      modifies this`head, this`overrunLatch, rxRing
      ensures Shaped() && View() == Taken(old(View()), b)
    {
      if (head - tail) % 0x100 < RING_SIZE {
        IndexPast(tail, head);
        HeldPush(rxRing[..], tail, Count(), b);
        rxRing[head % RING_SIZE] := b;
        head := (head + 1) % 0x100;
      } else {
        overrunLatch := true;
      }
    }

    method IrqOverrun()
      requires Shaped()
      modifies this`overrunLatch
      ensures Shaped() && View() == Overrun(old(View()))
    {
      overrunLatch := true;
    }

    /** The latch test, and the recovery whose two stores run with interrupts masked. */
    method PollLatch() returns (hole: bool)
      requires Shaped() && place == AtLatch
      modifies this
      ensures hole == old(overrunLatch)
      ensures Shaped() && View() == Polled(old(View()))
      ensures toParser == old(toParser) + Handed(old(View()))
    {
      hole := overrunLatch;
      if hole {
        tail := head;
        overrunLatch := false;
        toParser := toParser + [Reset];
      } else {
        place := AtEmpty;
      }
    }

    method PollEmpty() returns (empty: bool)
      requires Shaped() && place == AtEmpty
      modifies this`place
      ensures Shaped() && View() == Polled(old(View())) && Handed(old(View())) == []
      ensures empty == (place == AtLatch)
    {
      empty := tail == head;
      place := if empty then AtLatch else AtFeed;
    }

    method PollFeed()
      requires Shaped() && place == AtFeed
      modifies this`toParser, this`place
      ensures Shaped() && View() == Polled(old(View()))
      ensures toParser == old(toParser) + Handed(old(View()))
    {
      assert View().ring[0] == rxRing[tail % RING_SIZE];
      toParser := toParser + [Byte(rxRing[tail % RING_SIZE])];
      place := AtAdvance;
    }

    method PollAdvance()
      requires Shaped() && place == AtAdvance
      modifies this`tail, this`place
      ensures Shaped() && View() == Polled(old(View())) && Handed(old(View())) == []
    {
      IndexPast(tail, head);
      HeldPop(rxRing[..], tail, Count());
      tail := (tail + 1) % 0x100;
      place := AtLatch;
    }

    /** One turn of KeyboardUart_Poll's loop when no interrupt arrives during it. */
    method PollOnce() returns (done: bool)
      requires Shaped() && place == AtLatch
      modifies this
      ensures Shaped() && place == AtLatch && !overrunLatch
      ensures done <==> old(!overrunLatch && View().ring == [])
      ensures toParser == old(toParser) + (if old(overrunLatch) then [Reset]
                                           else if done then [] else [Byte(old(View()).ring[0])])
      ensures View().ring == if done || old(overrunLatch) then [] else old(View()).ring[1..]
    {
      done := false;
      var hole := PollLatch();
      if !hole {
        done := PollEmpty();
        if !done {
          PollFeed();
          PollAdvance();
        }
      }
    }

    /** KeyboardUart_Poll when no interrupt arrives while it runs: everything held reaches the parser, in
        order, or, after a hole, nothing but the reset does. */
    method Poll()
      requires Shaped() && place == AtLatch
      modifies this
      ensures Shaped() && View() == QUIET
      ensures toParser == old(toParser) + if old(overrunLatch) then [Reset] else Bytes(old(View()).ring)
    {
      if overrunLatch {
        var done := PollOnce();
        ghost var reset := toParser;
        Drain();
        assert reset + Bytes([]) == reset;
      } else {
        Drain();
      }
    }

    /** The loop, from a turn that finds no hole. */
    method Drain()
      requires Shaped() && place == AtLatch && !overrunLatch
      modifies this
      ensures Shaped() && View() == QUIET
      ensures toParser == old(toParser) + Bytes(old(View()).ring)
    {
      hide Held, Bytes;
      ghost var was, start := View().ring, toParser;
      var done := false;
      FedAll(start, was);
      while !done
        invariant Shaped() && place == AtLatch && !overrunLatch
        invariant done ==> View().ring == []
        invariant Joined(toParser, View().ring) == Joined(start, was)
        decreases !done, Count()
      {
        ghost var ring, fed := View().ring, toParser;
        done := PollOnce();
        if !done {
          JoinedStep(fed, ring);
        }
      }
      FedAll(toParser, []);
    }
  }

  /** What the parser will have seen once the ring is empty. */
  function Joined(fed: seq<Feed>, ring: seq<u8>): seq<Feed> { fed + Bytes(ring) }

  lemma FedAll(fed: seq<Feed>, ring: seq<u8>)
    ensures Joined(fed, ring) == fed + Bytes(ring) && Joined(fed, []) == fed
  {
  }

  lemma JoinedStep(fed: seq<Feed>, ring: seq<u8>)
    requires ring != []
    ensures Joined(fed + [Byte(ring[0])], ring[1..]) == Joined(fed, ring)
  {
    BytesUnfold(ring);
  }

  function Bytes(ring: seq<u8>): (f: seq<Feed>)
  {
    seq(|ring|, i requires 0 <= i < |ring| => Byte(ring[i]))
  }

  lemma BytesUnfold(ring: seq<u8>)
    requires ring != []
    ensures Bytes(ring) == [Byte(ring[0])] + Bytes(ring[1..])
  {
  }
}
