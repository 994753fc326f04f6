/** From the line to the frames: the receive ring, between its interrupt and the poll loop, joined to the parser
    it feeds. Frames are placed by where their bytes stood on the line, lost bytes counted. */
module RxFrames {
  import opened Words
  import opened RxRing
  import opened RxRingRuns
  import P = FrameParser
  import Proofs = FrameParserProofs

  datatype Parsing = Parsing(
    p: P.Parse,
    upTo: nat)      // one past the place of the last byte the parser has been handed

  /** What the step hands the parser: the byte at the ring's tail, or the reset. */
  function Handled(c: Parsing, r: Run, e: Event): Parsing
    requires Named(r)
  {
    if !e.Step? || Handed(r.rx) == [] then c
    else
      match Handed(r.rx)[0]
      case Byte(b) => Parsing(P.Fed(c.p, b, r.held[0]), r.held[0] + 1)
      case Reset => c.(p := P.Parse([], c.p.frames))
  }

  function Parsed(events: seq<Event>): Parsing
  {
    if events == [] then Parsing(P.Parse([], []), 0)
    else
      var n := |events| - 1;
      Handled(Parsed(events[..n]), After(events[..n]), events[n])
  }

  /** The parser has buffered the end of what it was last fed, and all its frames lie before. */
  ghost predicate InPlace(c: Parsing, r: Run)
  {
    && c.upTo <= |r.line|
    && Proofs.Sound(c.p, r.line[..c.upTo]) && P.Partial(c.p.buf)
    && (if LastFed(r.fed) >= 0 then c.upTo == LastFed(r.fed) + 1 else c.p.buf == [])
    && (c.upTo == 0 || exists i :: 0 <= i < |r.fed| && r.fed[i] == Nth(c.upTo - 1))
  }

  /** A parser that holds nothing may be moved on over bytes it never sees. */
  lemma SoundFurther(p: P.Parse, line: seq<u8>, from: nat, to: nat)
    requires from <= to <= |line| && Proofs.Sound(p, line[..from]) && p.buf == []
    ensures Proofs.Sound(p, line[..to])
  {
    forall i | 0 <= i < |p.frames|
      ensures line[..to][p.frames[i].start..p.frames[i].start + |p.frames[i].bytes|] == p.frames[i].bytes
    {
      var d := p.frames[i];
      assert line[..to][d.start..d.start + |d.bytes|] == line[..from][d.start..d.start + |d.bytes|];
    }
    hide Proofs.Whole;
  }

  lemma ResetIsSound(p: P.Parse, stream: seq<u8>)
    requires Proofs.Sound(p, stream)
    ensures Proofs.Sound(P.Parse([], p.frames), stream)
  {
    Proofs.GenuineShorter(p.frames, stream, |stream| - |p.buf|, |stream|);
    hide Proofs.Genuine;
  }

  /** The byte to be fed is the next after the last, or, after a reset, some later one. */
  lemma FeedsOnward(c: Parsing, r: Run)
    requires Named(r) && Increasing(r) && Tight(r) && InPlace(c, r) && r.rx.place == AtFeed
    requires NoHiddenGap(Next(r, Step).fed)
    ensures c.upTo <= r.held[0] < |r.line| && r.rx.ring[0] == r.line[r.held[0]]
    ensures LastFed(r.fed) >= 0 ==> r.held[0] == c.upTo
  {
    hide Proofs.Sound, P.Partial;
    var fed' := Next(r, Step).fed;
    if LastFed(r.fed) >= 0 {
      assert fed'[|r.fed|].Nth? && fed'[|r.fed| - 1].Nth?;
    }
  }

  lemma FedIsSound(p: P.Parse, line: seq<u8>, upTo: nat, n: nat)
    requires upTo <= n < |line| && Proofs.Sound(p, line[..upTo]) && P.Partial(p.buf) && (upTo == n || p.buf == [])
    ensures Proofs.Sound(P.Fed(p, line[n], n), line[..n + 1]) && P.Partial(P.Fed(p, line[n], n).buf)
  {
    hide Proofs.Sound, P.Partial, P.Fed;
    if upTo < n {
      SoundFurther(p, line, upTo, n);
    }
    assert line[..n] + [line[n]] == line[..n + 1];
    Proofs.FedKeepsSound(p, line[..n], line[n]);
  }

  lemma FedInPlace(c: Parsing, r: Run)
    requires Named(r) && Increasing(r) && Tight(r) && InPlace(c, r) && r.rx.place == AtFeed
    requires NoHiddenGap(Next(r, Step).fed)
    ensures InPlace(Handled(c, r, Step), Next(r, Step))
  {
    hide Proofs.Sound, P.Partial, P.Fed, Tight, Increasing, NoHiddenGap;
    FeedsOnward(c, r);
    FedIsSound(c.p, r.line, c.upTo, r.held[0]);
    assert Next(r, Step).fed[|r.fed|] == Nth(r.held[0]);
  }

  lemma OthersInPlace(c: Parsing, r: Run, e: Event)
    requires Named(r) && InPlace(c, r) && !(e.Step? && r.rx.place == AtFeed)
    ensures InPlace(Handled(c, r, e), Next(r, e))
  {
    ResetIsSound(c.p, r.line[..c.upTo]);
    assert Next(r, e).line[..c.upTo] == r.line[..c.upTo];
    hide Proofs.Sound;
    if c.upTo > 0 {
      var i :| 0 <= i < |r.fed| && r.fed[i] == Nth(c.upTo - 1);
      assert Next(r, e).fed[i] == Nth(c.upTo - 1);
    }
  }

  lemma {:induction false} ParsedInPlace(events: seq<Event>)
    requires NoLateOverrun(events)
    ensures InPlace(Parsed(events), After(events))
  {
    if events != [] {
      var n := |events| - 1;
      var r := After(events[..n]);
      ParsedInPlace(events[..n]);
      AfterIsTight(events[..n]);
      AfterIsTight(events);
      AfterIsIncreasing(events[..n]);
      hide InPlace, Handled, Increasing;
      if events[n].Step? && r.rx.place == AtFeed {
        FedInPlace(Parsed(events[..n]), r);
      } else {
        OthersInPlace(Parsed(events[..n]), r, events[n]);
      }
    }
  }

  /** Over every interleaving of interrupts and poll steps with no late overrun, whatever was dropped or lost:
      each frame the parser dispatches is valid and stood on the line as one unbroken run of bytes, no byte
      belongs to two, and they are dispatched in the order they were sent. */
  lemma FramesStoodOnTheLine(events: seq<Event>)
    requires NoLateOverrun(events)
    ensures Proofs.Genuine(Parsed(events).p.frames, After(events).line, |After(events).line|)
  {
    ParsedInPlace(events);
    var c, r := Parsed(events), After(events);
    ResetIsSound(c.p, r.line[..c.upTo]);
    SoundFurther(P.Parse([], c.p.frames), r.line, c.upTo, |r.line|);
    assert r.line[..|r.line|] == r.line;
  }
}
