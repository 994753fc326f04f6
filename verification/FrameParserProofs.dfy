/** What the frame parser promises about whole received streams. */
module FrameParserProofs {
  import opened Words
  import opened FrameParser

  /** The buffer is the end of what has been received. */
  ghost predicate EndsWith(stream: seq<u8>, buf: seq<u8>)
  {
    |buf| <= |stream| && stream[|stream| - |buf|..] == buf
  }

  predicate Whole(bytes: seq<u8>)
  {
    Complete(bytes) && |bytes| == Expected(bytes[0]) && Valid(bytes)
  }

  /** The frames are valid, contiguous, disjoint and ordered runs of the stream, all before `limit`. */
  ghost predicate Genuine(frames: seq<Dispatch>, stream: seq<u8>, limit: int)
  {
    && limit <= |stream|
    && (forall i :: 0 <= i < |frames| ==>
          var d := frames[i];
          && 0 <= d.start && d.start + |d.bytes| <= limit
          && Whole(d.bytes) && stream[d.start..d.start + |d.bytes|] == d.bytes)
    && (forall i, j :: 0 <= i < j < |frames| ==> frames[i].start + |frames[i].bytes| <= frames[j].start)
  }

  ghost predicate Sound(p: Parse, stream: seq<u8>)
  {
    && EndsWith(stream, p.buf)
    && (p.buf != [] ==> Expected(p.buf[0]) > 0)
    && Genuine(p.frames, stream, |stream| - |p.buf|)
  }

  lemma ValidByPrefix(buf: seq<u8>)
    requires Complete(buf)
    ensures Whole(buf[..Expected(buf[0])]) <==> Valid(buf)
  {
    var f := buf[..Expected(buf[0])];
    if f[0] == 0xA6 {
      assert f[..2] == buf[..2];
    } else if f[0] == 0xA1 {
      assert f[..9] == buf[..9];
    } else if f[0] == 0xA9 && f[1] <= 18 {
      assert f[..2 + f[1]] == buf[..2 + f[1]];
    }
  }

  lemma OnceKeepsSound(p: Parse, stream: seq<u8>)
    requires Sound(p, stream) && Complete(p.buf)
    ensures Sound(Once(p, |stream|), stream)
  {
    hide Sound, Valid, Resynced, Shifted;
    if Valid(p.buf) {
      DispatchKeepsSound(p, stream);
    } else {
      ResyncKeepsSound(p, stream);
    }
  }

  lemma DispatchKeepsSound(p: Parse, stream: seq<u8>)
    requires Sound(p, stream) && Complete(p.buf) && Valid(p.buf)
    ensures var n := Expected(p.buf[0]);
            Sound(Parse(Shifted(p.buf, n), p.frames + [Dispatch(|stream| - |p.buf|, p.buf[..n])]), stream)
  {
    var n := Expected(p.buf[0]);
    DispatchIsGenuine(p, stream);
    ShiftKeepsEnd(stream, p.buf, n);
    hide Genuine, Valid, Shifted, EndsWith;
    GenuineShorter(p.frames + [Dispatch(|stream| - |p.buf|, p.buf[..n])], stream, |stream| - |p.buf| + n,
                   |stream| - |Shifted(p.buf, n)|);
  }

  lemma EndFits(stream: seq<u8>, buf: seq<u8>)
    ensures EndsWith(stream, buf) ==> |buf| <= |stream|
    ensures EndsWith(stream, []) && buf[|buf|..] == []
  {
  }

  lemma ResyncKeepsSound(p: Parse, stream: seq<u8>)
    requires Sound(p, stream) && Complete(p.buf)
    ensures Sound(Parse(Resynced(p.buf, 1), p.frames), stream)
  {
    hide Genuine, Resynced, EndsWith;
    var r := Resynced(p.buf, 1);
    EndFits(stream, p.buf);
    TailKeepsEnd(stream, p.buf, |p.buf| - |r|);
    EndFits(stream, r);
    GenuineShorter(p.frames, stream, |stream| - |p.buf|, |stream| - |r|);
  }

  lemma TailKeepsEnd(stream: seq<u8>, buf: seq<u8>, k: nat)
    requires EndsWith(stream, buf) && k <= |buf|
    ensures EndsWith(stream, buf[k..])
  {
    assert stream[|stream| - |buf|..][k..] == stream[|stream| - |buf| + k..];
  }

  lemma ShiftKeepsEnd(stream: seq<u8>, buf: seq<u8>, n: nat)
    requires EndsWith(stream, buf)
    ensures EndsWith(stream, Shifted(buf, n)) && (n <= |buf| ==> |Shifted(buf, n)| <= |buf| - n)
    ensures Shifted(buf, n) != [] ==> Expected(Shifted(buf, n)[0]) > 0
  {
    if n < |buf| {
      TailKeepsEnd(stream, buf, n);
    }
  }

  lemma GenuineShorter(frames: seq<Dispatch>, stream: seq<u8>, limit: int, further: int)
    requires Genuine(frames, stream, limit) && limit <= further <= |stream|
    ensures Genuine(frames, stream, further)
  {
  }

  lemma DispatchIsGenuine(p: Parse, stream: seq<u8>)
    requires Sound(p, stream) && Complete(p.buf) && Valid(p.buf)
    ensures var n := Expected(p.buf[0]);
            Genuine(p.frames + [Dispatch(|stream| - |p.buf|, p.buf[..n])], stream, |stream| - |p.buf| + n)
  {
    ValidByPrefix(p.buf);
    var at, n := |stream| - |p.buf|, Expected(p.buf[0]);
    assert stream[at..][..n] == stream[at..at + n];
    hide Whole, Valid, Expected;
  }

  lemma {:induction false} ProcessedKeepsSound(p: Parse, stream: seq<u8>)
    requires Sound(p, stream)
    ensures Sound(Processed(p, |stream|), stream) && Partial(Processed(p, |stream|).buf)
    decreases |p.buf|
  {
    if Complete(p.buf) {
      OnceKeepsSound(p, stream);
      ProcessedKeepsSound(Once(p, |stream|), stream);
    }
  }

  lemma GenuineLater(frames: seq<Dispatch>, stream: seq<u8>, limit: int, b: u8)
    requires Genuine(frames, stream, limit)
    ensures Genuine(frames, stream + [b], limit)
  {
    forall i | 0 <= i < |frames|
      ensures (stream + [b])[frames[i].start..frames[i].start + |frames[i].bytes|] == frames[i].bytes
    {
      var d := frames[i];
      assert (stream + [b])[d.start..d.start + |d.bytes|] == stream[d.start..d.start + |d.bytes|];
    }
  }

  lemma {:induction false} ReceivedIsSound(stream: seq<u8>)
    ensures Sound(Received(stream), stream) && Partial(Received(stream).buf)
  {
    if stream != [] {
      hide Sound, Fed, Partial;
      var n := |stream| - 1;
      ReceivedIsSound(stream[..n]);
      assert stream[..n] + [stream[n]] == stream;
      FedKeepsSound(Received(stream[..n]), stream[..n], stream[n]);
    }
  }

  lemma FedKeepsSound(p: Parse, stream: seq<u8>, b: u8)
    requires Sound(p, stream) && Partial(p.buf)
    ensures Sound(Fed(p, b, |stream|), stream + [b]) && Partial(Fed(p, b, |stream|).buf)
  {
    hide Sound, Processed, Partial;
    PartialFits(p.buf);
    if p.buf == [] && Expected(b) == 0 {
      SkippedIsSound(p, stream, b);
    } else {
      AppendedIsSound(p, stream, b);
      ProcessedKeepsSound(Parse(p.buf + [b], p.frames), stream + [b]);
    }
  }

  lemma PartialFits(buf: seq<u8>)
    requires Partial(buf)
    ensures |buf| < MAX_FRAME
  {
  }

  lemma SkippedIsSound(p: Parse, stream: seq<u8>, b: u8)
    requires Sound(p, stream) && p.buf == []
    ensures Sound(p, stream + [b])
  {
    GenuineLater(p.frames, stream, |stream|, b);
    GenuineShorter(p.frames, stream + [b], |stream|, |stream + [b]|);
    hide Genuine;
  }

  lemma AppendedIsSound(p: Parse, stream: seq<u8>, b: u8)
    requires Sound(p, stream) && (p.buf == [] ==> Expected(b) != 0)
    ensures Sound(Parse(p.buf + [b], p.frames), stream + [b])
  {
    GenuineLater(p.frames, stream, |stream| - |p.buf|, b);
    var longer, buf := stream + [b], p.buf + [b];
    assert longer[|longer| - |buf|..] == stream[|stream| - |p.buf|..] + [b];
    hide Genuine;
  }

  /** Every dispatched frame is a valid frame that was received as one contiguous run of bytes; no byte
      belongs to two frames, and frames are dispatched in the order they were received. */
  lemma DispatchedFramesAreGenuine(stream: seq<u8>)
    ensures Genuine(Received(stream).frames, stream, |stream|)
  {
    ReceivedIsSound(stream);
  }

  predicate Noise(bytes: seq<u8>)
  {
    forall i :: 0 <= i < |bytes| ==> Expected(bytes[i]) == 0
  }

  /** From whatever state the parser is in, 20 bytes that start no frame leave it empty and aligned. */
  lemma NoiseFlushes(stream: seq<u8>, tail: seq<u8>)
    requires Noise(tail) && |tail| >= 20
    ensures Received(stream + tail).buf == []
  {
    var all := stream + tail;
    ReceivedIsSound(all);
    assert all[|all| - |tail|..] == tail;
    assert forall i :: |all| - |tail| <= i < |all| ==> all[i] == tail[i - |stream|];
  }

  // ---------------------------------------------------------------- nothing valid is missed

  lemma AppendLast<T>(a: seq<T>, b: seq<T>)
    requires b != []
    ensures a + b[..|b| - 1] + [b[|b| - 1]] == a + b
  {
  }

  lemma AppendNothing<T>(a: seq<T>)
    ensures a + [] == a
  {
  }

  lemma Associative<T>(a: seq<T>, b: seq<T>, c: seq<T>)
    ensures a + b + c == a + (b + c)
  {
  }

  lemma ReceivedOneMore(stream: seq<u8>, b: u8)
    ensures Received(stream + [b]) == Fed(Received(stream), b, |stream|)
  {
    assert (stream + [b])[..|stream|] == stream;
  }

  lemma {:induction false} NoiseIsIgnored(stream: seq<u8>, noise: seq<u8>)
    requires Received(stream).buf == [] && Noise(noise)
    ensures Received(stream + noise) == Received(stream)
  {
    hide Received;
    if noise == [] {
      assert stream + noise == stream;
    } else {
      var n := |noise| - 1;
      NoiseIsIgnored(stream, noise[..n]);
      ReceivedOneMore(stream + noise[..n], noise[n]);
      assert stream + noise[..n] + [noise[n]] == stream + noise;
    }
  }

  lemma FedPart(frame: seq<u8>, k: nat, frames: seq<Dispatch>, fed: int)
    requires k <= |frame| && 0 < k < Expected(frame[0])
    ensures Fed(Parse(frame[..k - 1], frames), frame[k - 1], fed) == Parse(frame[..k], frames)
  {
    assert frame[..k] == frame[..k - 1] + [frame[k - 1]];
  }

  lemma {:induction false} PartOfFrameIsKept(stream: seq<u8>, frame: seq<u8>, k: nat)
    requires Received(stream).buf == []
    requires k <= |frame| && 0 < k < Expected(frame[0])
    ensures Received(stream + frame[..k]) == Parse(frame[..k], Received(stream).frames)
  {
    hide Received, Fed, Processed;
    assert stream + frame[..k] == stream + frame[..k - 1] + [frame[k - 1]];
    FedPart(frame, k, Received(stream).frames, |stream + frame[..k - 1]|);
    ReceivedOneMore(stream + frame[..k - 1], frame[k - 1]);
    if k > 1 {
      PartOfFrameIsKept(stream, frame, k - 1);
    } else {
      assert stream + frame[..0] == stream;
    }
  }

  /** Nineteen such bytes are not enough: an unfinished device-name frame swallows them all. */
  lemma NineteenDoNotFlush()
    ensures var tail := seq(19, i => 0); Noise(tail) && Received([0xA9] + tail).buf == [0xA9] + tail
  {
    var frame := [0xA9] + seq(19, i => 0);
    PartOfFrameIsKept([], frame, 20);
    assert [] + frame[..20] == frame == frame[..20];
  }

  lemma WholeFrameProcessed(frame: seq<u8>, frames: seq<Dispatch>, end: int)
    requires Whole(frame)
    ensures Processed(Parse(frame, frames), end) == Parse([], frames + [Dispatch(end - |frame|, frame)])
  {
    assert frame[..|frame|] == frame;
  }

  lemma LastByteOfFrame(frame: seq<u8>, frames: seq<Dispatch>, fed: int)
    requires Whole(frame)
    ensures var n := |frame| - 1;
            Fed(Parse(frame[..n], frames), frame[n], fed) == Parse([], frames + [Dispatch(fed - n, frame)])
  {
    var n := |frame| - 1;
    assert frame[..n] + [frame[n]] == frame;
    WholeFrameProcessed(frame, frames, fed + 1);
  }

  lemma WholeFrameIsDispatched(stream: seq<u8>, frame: seq<u8>)
    requires Received(stream).buf == [] && Whole(frame)
    ensures Received(stream + frame) == Parse([], Received(stream).frames + [Dispatch(|stream|, frame)])
  {
    var n := |frame| - 1;
    var before := stream + frame[..n];
    PartOfFrameIsKept(stream, frame, n);
    LastByteOfFrame(frame, Received(stream).frames, |before|);
    ReceivedOneMore(before, frame[n]);
    AppendLast(stream, frame);
  }

  /** A stretch of what a host sends: frames, with bytes between them that start no frame. */
  datatype Piece = Gap(noise: seq<u8>) | Good(frame: seq<u8>)

  function PieceBytes(p: Piece): seq<u8>
  {
    if p.Gap? then p.noise else p.frame
  }

  predicate WellFormed(pieces: seq<Piece>)
  {
    forall i :: 0 <= i < |pieces| ==> if pieces[i].Gap? then Noise(pieces[i].noise) else Whole(pieces[i].frame)
  }

  function Wire(pieces: seq<Piece>): seq<u8>
  {
    if pieces == [] then []
    else Wire(pieces[..|pieces| - 1]) + PieceBytes(pieces[|pieces| - 1])
  }

  /** The frames among the pieces, with their places in the stream when the pieces start at `at`. */
  function Sent(pieces: seq<Piece>, at: int): seq<Dispatch>
  {
    if pieces == [] then []
    else
      var n := |pieces| - 1;
      Sent(pieces[..n], at) + PieceFrames(pieces[n], at + |Wire(pieces[..n])|)
  }

  function PieceFrames(p: Piece, at: int): seq<Dispatch>
  {
    if p.Gap? then [] else [Dispatch(at, p.frame)]
  }

  lemma PieceIsReceived(stream: seq<u8>, p: Piece)
    requires Received(stream).buf == []
    requires if p.Gap? then Noise(p.noise) else Whole(p.frame)
    ensures Received(stream + PieceBytes(p))
            == Parse([], Received(stream).frames + PieceFrames(p, |stream|))
  {
    if p.Gap? {
      NoiseIsIgnored(stream, p.noise);
      assert Received(stream).frames + [] == Received(stream).frames;
    } else {
      WholeFrameIsDispatched(stream, p.frame);
    }
  }

  /** What the parser must show after `pieces`, the last of which ends where `before` goes on to `after`. */
  lemma OnePieceMore(pieces: seq<Piece>, stream: seq<u8>, frames: seq<Dispatch>)
    requires pieces != []
    ensures var init, last := pieces[..|pieces| - 1], pieces[|pieces| - 1];
            var before := stream + Wire(init);
            && stream + Wire(pieces) == before + PieceBytes(last)
            && frames + Sent(pieces, |stream|) == frames + Sent(init, |stream|) + PieceFrames(last, |before|)
  {
    var init, last := pieces[..|pieces| - 1], pieces[|pieces| - 1];
    assert Wire(pieces) == Wire(init) + PieceBytes(last);
    assert Sent(pieces, |stream|) == Sent(init, |stream|) + PieceFrames(last, |stream| + |Wire(init)|);
    hide Wire, Sent, PieceBytes, PieceFrames;
    Associative(stream, Wire(init), PieceBytes(last));
    Associative(frames, Sent(init, |stream|), PieceFrames(last, |stream| + |Wire(init)|));
  }

  lemma {:induction false} PiecesAreReceived(stream: seq<u8>, pieces: seq<Piece>, end: seq<u8>,
                                             frames: seq<Dispatch>, all: seq<Dispatch>)
    requires Received(stream) == Parse([], frames) && WellFormed(pieces)
    requires end == stream + Wire(pieces) && all == frames + Sent(pieces, |stream|)
    ensures Received(end) == Parse([], all)
    decreases |pieces|
  {
    if pieces == [] {
      AppendNothing(stream);
      AppendNothing(frames);
    } else {
      var init := pieces[..|pieces| - 1];
      OnePieceMore(pieces, stream, frames);
      PiecesAreReceived(stream, init, stream + Wire(init), frames, frames + Sent(init, |stream|));
      PieceIsReceived(stream + Wire(init), pieces[|pieces| - 1]);
    }
  }

  /** From an empty buffer, valid frames separated by non-header bytes are dispatched exactly once each, in
      order and byte for byte, and nothing else is. */
  lemma ValidFramesAreAllDispatched(stream: seq<u8>, pieces: seq<Piece>)
    requires Received(stream).buf == [] && WellFormed(pieces)
    ensures Received(stream + Wire(pieces)) == Parse([], Received(stream).frames + Sent(pieces, |stream|))
  {
    PiecesAreReceived(stream, pieces, stream + Wire(pieces), Received(stream).frames,
                      Received(stream).frames + Sent(pieces, |stream|));
  }

  /** Recovery: whatever was received before, 20 non-header bytes later every valid frame gets through. */
  lemma RecoversAfterNoise(garbage: seq<u8>, noise: seq<u8>, pieces: seq<Piece>)
    requires Noise(noise) && |noise| >= 20 && WellFormed(pieces)
    ensures Received(garbage + noise + Wire(pieces))
            == Parse([], Received(garbage + noise).frames + Sent(pieces, |garbage + noise|))
  {
    NoiseFlushes(garbage, noise);
    ValidFramesAreAllDispatched(garbage + noise, pieces);
  }
}
