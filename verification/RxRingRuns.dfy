/** Whole runs of the receive ring, over every interleaving of interrupts and poll steps. */
module RxRingRuns {
  import opened Words
  import opened RxRing

  datatype Event =
    | Arrives(b: u8)     // a byte taken by the interrupt; dropped when the ring is full
    | LostInFifo(b: u8)  // a byte the hardware lost, reported as an overrun
    | Step               // the next access of the poll loop

  /** The parser's view, with each byte named by its place among all bytes sent on the line. */
  datatype Fed = Nth(n: nat) | Cleared

  datatype Run = Run(
    rx: Rx,
    line: seq<u8>,       // every byte sent on the line, received or not
    held: seq<nat>,      // the places of the bytes in the ring
    fed: seq<Fed>)

  const START := Run(QUIET, [], [], [])

  ghost predicate Named(r: Run)
  {
    && |r.held| == |r.rx.ring| <= RING_SIZE
    && (forall i :: 0 <= i < |r.held| ==> r.held[i] < |r.line| && r.line[r.held[i]] == r.rx.ring[i])
    && (r.rx.place == AtFeed || r.rx.place == AtAdvance ==> r.held != [])
  }

  function Next(r: Run, e: Event): (r': Run)
    requires Named(r)
    ensures Named(r')
  {
    match e
    case Arrives(b) =>
      r.(rx := Taken(r.rx, b), line := r.line + [b],
         held := if |r.rx.ring| < RING_SIZE then r.held + [|r.line|] else r.held)
    case LostInFifo(b) => r.(rx := Overrun(r.rx), line := r.line + [b])
    case Step =>
      r.(rx := Polled(r.rx),
         held := if r.rx.place == AtLatch && r.rx.latch then []
                 else if r.rx.place == AtAdvance then r.held[1..] else r.held,
         fed := r.fed + if r.rx.place == AtLatch && r.rx.latch then [Cleared]
                        else if r.rx.place == AtFeed then [Nth(r.held[0])] else [])
  }

  /** A step names exactly what it hands the parser. */
  lemma NamesAreFaithful(r: Run)
    requires Named(r)
    ensures var fed' := Next(r, Step).fed;
            && |fed'| == |r.fed| + |Handed(r.rx)|
            && (Handed(r.rx) != [] ==>
                  match fed'[|r.fed|]
                  case Cleared => Handed(r.rx) == [Reset]
                  case Nth(n) => n < |r.line| && Handed(r.rx) == [Byte(r.line[n])])
  {
  }

  function After(events: seq<Event>): (r: Run)
    ensures Named(r)
  {
    if events == [] then START
    else Next(After(events[..|events| - 1]), events[|events| - 1])
  }

  /** Stands for the place of the last byte fed since the last reset. */
  function LastFed(fed: seq<Fed>): int
  {
    if fed == [] || fed[|fed| - 1].Cleared? then -1 else fed[|fed| - 1].n
  }

  /** Bytes reach the parser in the order they were sent, none twice. */
  ghost predicate InOrder(fed: seq<Fed>)
  {
    forall i, j :: 0 <= i < j < |fed| && fed[i].Nth? && fed[j].Nth? ==> fed[i].n < fed[j].n
  }

  /** Between two resets the parser is fed consecutive bytes of the line. */
  ghost predicate NoHiddenGap(fed: seq<Fed>)
  {
    forall i :: 0 < i < |fed| && fed[i - 1].Nth? && fed[i].Nth? ==> fed[i].n == fed[i - 1].n + 1
  }

  /** Nothing from here on down has yet to be fed. */
  function Floor(r: Run): nat
  {
    if r.held == [] then |r.line| else r.held[0] + if r.rx.place == AtAdvance then 1 else 0
  }

  ghost predicate Increasing(r: Run)
  {
    && InOrder(r.fed)
    && (forall i, j :: 0 <= i < j < |r.held| ==> r.held[i] < r.held[j])
    && (forall i :: 0 <= i < |r.fed| && r.fed[i].Nth? ==> r.fed[i].n < Floor(r))
  }

  lemma NextKeepsIncreasing(r: Run, e: Event)
    requires Named(r) && Increasing(r)
    ensures Increasing(Next(r, e))
  {
    var r' := Next(r, e);
    if r'.fed != r.fed {
      assert r'.fed[..|r.fed|] == r.fed;
    }
  }

  /** The ring is a run of consecutive bytes that ends with the newest on the line. */
  ghost predicate Contiguous(r: Run)
  {
    forall i :: 0 <= i < |r.held| ==> r.held[i] == |r.line| - |r.held| + i
  }

  /** The next byte the parser would be fed, if the loop went on now, continues what it was fed last. */
  ghost predicate Continues(r: Run)
    requires Named(r)
  {
    LastFed(r.fed) >= 0 ==>
      if r.rx.place == AtAdvance then r.held[0] == LastFed(r.fed)
      else (if r.held == [] then |r.line| else r.held[0]) == LastFed(r.fed) + 1
  }

  ghost predicate Tight(r: Run)
    requires Named(r)
  {
    && NoHiddenGap(r.fed)
    && (!r.rx.latch ==> Contiguous(r) && Continues(r))
    && (r.rx.latch && r.rx.place != AtLatch ==> Continues(r) && (LastFed(r.fed) >= 0 ==> r.held != []))
  }

  /** The parser's last byte is the one the loop is about to drop from the ring. */
  ghost predicate Advancing(r: Run)
    requires Named(r)
  {
    r.rx.place == AtAdvance ==> LastFed(r.fed) == r.held[0]
  }

  /** The one moment at which a hardware overrun is noticed too late: the parser holds a byte, the latch has just
      been found clear, and the ring is empty. */
  predicate LateOverrun(r: Run, e: Event)
  {
    e.LostInFifo? && r.rx.place == AtEmpty && r.rx.ring == [] && LastFed(r.fed) >= 0
  }

  predicate NoLateOverrun(events: seq<Event>)
  {
    if events == [] then true
    else
      var n := |events| - 1;
      NoLateOverrun(events[..n]) && !LateOverrun(After(events[..n]), events[n])
  }

  lemma NextKeepsTight(r: Run, e: Event)
    requires Named(r) && Tight(r) && Advancing(r) && !LateOverrun(r, e)
    ensures Tight(Next(r, e))
  {
  }

  lemma {:induction false} AfterIsTight(events: seq<Event>)
    requires NoLateOverrun(events)
    ensures Tight(After(events)) && Advancing(After(events))
  {
    if events != [] {
      var n := |events| - 1;
      AfterIsTight(events[..n]);
      NextKeepsTight(After(events[..n]), events[n]);
    }
  }

  lemma {:induction false} AfterIsIncreasing(events: seq<Event>)
    ensures Increasing(After(events))
  {
    if events != [] {
      var n := |events| - 1;
      AfterIsIncreasing(events[..n]);
      NextKeepsIncreasing(After(events[..n]), events[n]);
    }
  }

  /** Whatever the interleaving, and whatever was dropped or lost, bytes reach the parser in the order they
      were sent, each at most once and unaltered. */
  lemma FedInArrivalOrder(events: seq<Event>)
    ensures InOrder(After(events).fed)
    ensures forall i :: 0 <= i < |After(events).fed| && After(events).fed[i].Nth? ==>
              After(events).fed[i].n < |After(events).line|
  {
    AfterIsIncreasing(events);
  }

  /** After bytes are dropped on a full ring, or lost in the hardware at any but one moment, the parser is
      reset before it is fed any later byte: between resets it sees consecutive bytes of the line. */
  lemma ResetBeforeAnyLaterByte(events: seq<Event>)
    requires NoLateOverrun(events)
    ensures NoHiddenGap(After(events).fed)
  {
    AfterIsTight(events);
  }

  /** And that moment does let one byte through: from every state in which it is reached, an overrun followed by
      one received byte puts a gap in front of the parser. */
  lemma LateOverrunFeedsPastTheGap(events: seq<Event>, lost: u8, later: u8)
    requires NoLateOverrun(events) && LateOverrun(After(events), LostInFifo(lost))
    ensures var r := Next(Next(Next(Next(After(events), LostInFifo(lost)), Arrives(later)), Step), Step);
            !NoHiddenGap(r.fed)
  {
    AfterIsTight(events);
    var r := After(events);
    assert LastFed(r.fed) == |r.line| - 1;
    var r2 := Next(Next(r, LostInFifo(lost)), Arrives(later));
    assert r2.held == [|r.line| + 1];
    var r4 := Next(Next(r2, Step), Step);
    assert r4.fed[|r.fed| - 1].n + 1 == |r.line| && r4.fed[|r.fed|] == Nth(|r.line| + 1);
  }

  lemma OneMore(events: seq<Event>, e: Event)
    ensures After(events + [e]) == Next(After(events), e)
    ensures NoLateOverrun(events + [e]) <==> NoLateOverrun(events) && !LateOverrun(After(events), e)
  {
    assert (events + [e])[..|events|] == events;
  }

  /** It is reached by any first byte: taken, fed, dropped from the ring, and the latch tested again. */
  lemma LateOverrunReached(b: u8, lost: u8)
    ensures var events := [Arrives(b)] + [Step] + [Step] + [Step] + [Step] + [Step];
            NoLateOverrun(events) && LateOverrun(After(events), LostInFifo(lost))
  {
    var e0 := [Arrives(b)];
    OneMore([], Arrives(b));
    assert [] + [Arrives(b)] == e0;
    OneMore(e0, Step);
    OneMore(e0 + [Step], Step);
    OneMore(e0 + [Step] + [Step], Step);
    OneMore(e0 + [Step] + [Step] + [Step], Step);
    OneMore(e0 + [Step] + [Step] + [Step] + [Step], Step);
  }

  // ---------------------------------------------------------------- what overruns leave true

  predicate Gap(fed: seq<Fed>, i: int)
    requires 0 < i < |fed|
  {
    fed[i - 1].Nth? && fed[i].Nth? && fed[i].n != fed[i - 1].n + 1
  }

  /** A byte fed past a gap is the last one before a reset. */
  ghost predicate GapThenReset(fed: seq<Fed>)
  {
    forall i :: 0 < i < |fed| - 1 && Gap(fed, i) ==> fed[i + 1].Cleared?
  }

  ghost predicate Loose(r: Run)
    requires Named(r)
  {
    && GapThenReset(r.fed)
    && (|r.fed| > 1 && Gap(r.fed, |r.fed| - 1) ==> r.rx.latch && (r.rx.place == AtAdvance || r.rx.place == AtLatch))
    && (!r.rx.latch ==> Contiguous(r) && Continues(r))
  }

  lemma NextKeepsLoose(r: Run, e: Event)
    requires Named(r) && Loose(r) && Advancing(r)
    ensures Loose(Next(r, e))
  {
    var r' := Next(r, e);
    if r'.fed != r.fed {
      assert r'.fed[..|r.fed|] == r.fed;
      forall i | 0 < i < |r'.fed| - 1 && Gap(r'.fed, i)
        ensures r'.fed[i + 1].Cleared?
      {
        assert Gap(r.fed, i);
      }
    }
  }

  lemma {:induction false} AfterIsLoose(events: seq<Event>)
    ensures Loose(After(events)) && Advancing(After(events))
  {
    if events != [] {
      var n := |events| - 1;
      AfterIsLoose(events[..n]);
      NextKeepsLoose(After(events[..n]), events[n]);
    }
  }

  /** Over every run, hardware overruns at any moment included, at most one byte is fed past a gap before
      the parser is reset. */
  lemma AtMostOneByteFedPastAGap(events: seq<Event>)
    ensures GapThenReset(After(events).fed)
  {
    AfterIsLoose(events);
  }

  // ---------------------------------------------------------------- nothing is lost without cause

  /** No byte came to a full ring, and the hardware lost none. */
  predicate NoDrops(events: seq<Event>)
  {
    if events == [] then true
    else
      var n := |events| - 1;
      && NoDrops(events[..n]) && !events[n].LostInFifo?
      && (events[n].Arrives? ==> |After(events[..n]).rx.ring| < 64)
  }

  /** Everything sent has been fed or is held, in its place. */
  ghost predicate Complete(r: Run)
  {
    && !r.rx.latch
    && |r.fed| + |r.held| == |r.line| + (if r.rx.place == AtAdvance then 1 else 0)
    && (forall i :: 0 <= i < |r.fed| ==> r.fed[i] == Nth(i))
    && (forall i :: 0 <= i < |r.held| ==> r.held[i] == |r.line| - |r.held| + i)
  }

  lemma NextKeepsComplete(r: Run, e: Event)
    requires Named(r) && Complete(r) && !e.LostInFifo? && (e.Arrives? ==> |r.rx.ring| < 64)
    ensures Complete(Next(r, e))
  {
  }

  /** Conservation: in any interleaving in which the ring never overflows and the hardware loses nothing, every byte
      sent has been fed to the parser, in order and once, or is still in the ring; and the parser is never reset. */
  lemma {:induction false} NothingLostWithoutCause(events: seq<Event>)
    requires NoDrops(events)
    ensures Complete(After(events))
  {
    if events != [] {
      var n := |events| - 1;
      NothingLostWithoutCause(events[..n]);
      NextKeepsComplete(After(events[..n]), events[n]);
    }
  }
}
