/** What a false header costs: the parser waits for the whole frame it seems to start, finds it invalid, and looks
    again at the bytes behind it. And which bytes make a frame valid, by their plain sum. */
module FrameResync {
  import opened Words
  import opened FrameParser
  import opened FrameParserProofs

  // ---------------------------------------------------------------- valid frames, by their bytes

  function Total(bytes: seq<u8>): nat { if bytes == [] then 0 else bytes[0] + Total(bytes[1..]) }

  lemma {:induction false} TotalOfMore(bytes: seq<u8>, b: u8)
    ensures Total(bytes + [b]) == Total(bytes) + b
  {
    if bytes == [] {
      assert [b][1..] == [];
    } else {
      assert (bytes + [b])[1..] == bytes[1..] + [b];
      TotalOfMore(bytes[1..], b);
    }
  }

  lemma {:induction false} SumIsTotal(bytes: seq<u8>)
    ensures Sum(bytes) == Total(bytes) % 0x100
  {
    if bytes != [] {
      var n := |bytes| - 1;
      SumIsTotal(bytes[..n]);
      TotalOfMore(bytes[..n], bytes[n]);
      assert bytes[..n] + [bytes[n]] == bytes;
      LowByteOfSum(Total(bytes[..n]), bytes[n]);
    }
  }

  lemma LowByteOfSum(a: nat, b: nat)
    ensures (a % 0x100 + b) % 0x100 == (a + b) % 0x100
  {
  }

  /** The four kinds of frame: a command and a report end in the low byte of the sum of what comes before; a name
      of up to 18 bytes does so right behind its last byte, whatever pads it; the fourth is fixed. */
  lemma WholeByItsBytes(bytes: seq<u8>)
    ensures Whole(bytes) <==>
              && bytes != []
              && ((bytes[0] == 0xA6 && |bytes| == 3 && bytes[2] == Total(bytes[..2]) % 0x100)
                  || (bytes[0] == 0xA1 && |bytes| == 10 && bytes[9] == Total(bytes[..9]) % 0x100)
                  || (bytes[0] == 0xA9 && |bytes| == 21 && bytes[1] <= 18
                      && bytes[2 + bytes[1]] == Total(bytes[..2 + bytes[1]]) % 0x100)
                  || bytes == [0x61, 0x0D, 0x0A])
  {
    if bytes != [] {
      if bytes[0] == 0xA6 && |bytes| == 3 {
        SumIsTotal(bytes[..2]);
      } else if bytes[0] == 0xA1 && |bytes| == 10 {
        SumIsTotal(bytes[..9]);
      } else if bytes[0] == 0xA9 && |bytes| == 21 && bytes[1] <= 18 {
        SumIsTotal(bytes[..2 + bytes[1]]);
      }
    }
  }

  // ---------------------------------------------------------------- an invalid front

  /** An invalid frame at the front loses the bytes before the next one that starts a frame, and no others. */
  lemma InvalidFrontKeepsTheRest(p: Parse, end: int, k: nat)
    requires Complete(p.buf) && !Valid(p.buf) && 1 <= k <= |p.buf|
    requires forall j :: 1 <= j < k ==> Expected(p.buf[j]) == 0
    requires k < |p.buf| ==> Expected(p.buf[k]) > 0
    ensures Once(p, end) == Parse(p.buf[k..], p.frames)
  {
    ResyncsAt(p.buf, 1, k);
    hide Valid;
  }

  lemma {:induction false} ResyncsAt(buf: seq<u8>, i: nat, k: nat)
    requires i <= k <= |buf| && (forall j :: i <= j < k ==> Expected(buf[j]) == 0)
    requires k < |buf| ==> Expected(buf[k]) > 0
    ensures Resynced(buf, i) == buf[k..]
    decreases k - i
  {
    if i < k {
      ResyncsAt(buf, i + 1, k);
    }
  }

  // ---------------------------------------------------------------- feeding from a place on

  /** The parser after these bytes too, the first of them at place `at`. */
  function Feed(p: Parse, bytes: seq<u8>, at: nat): Parse
  {
    if bytes == [] then p
    else
      var n := |bytes| - 1;
      Fed(Feed(p, bytes[..n], at), bytes[n], at + n)
  }

  lemma {:induction false} FeedOn(p: Parse, a: seq<u8>, b: seq<u8>, at: nat)
    ensures Feed(p, a + b, at) == Feed(Feed(p, a, at), b, at + |a|)
  {
    hide Fed;
    if b == [] {
      assert a + b == a;
    } else {
      var n := |b| - 1;
      assert (a + b)[..|a + b| - 1] == a + b[..n];
      FeedOn(p, a, b[..n], at);
    }
  }

  lemma {:induction false} ReceivedFeeds(stream: seq<u8>, more: seq<u8>)
    ensures Received(stream + more) == Feed(Received(stream), more, |stream|)
  {
    hide Fed;
    if more == [] {
      assert stream + more == stream;
    } else {
      var n := |more| - 1;
      ReceivedFeeds(stream, more[..n]);
      ReceivedOneMore(stream + more[..n], more[n]);
      assert stream + more[..n] + [more[n]] == stream + more;
    }
  }

  lemma {:induction false} PartIsKept(frame: seq<u8>, k: nat, frames: seq<Dispatch>, at: nat)
    requires k <= |frame| && (k > 0 ==> k < Expected(frame[0]))
    ensures Feed(Parse([], frames), frame[..k], at) == Parse(frame[..k], frames)
  {
    hide Fed, Expected;
    if k > 0 {
      assert frame[..k][..k - 1] == frame[..k - 1];
      PartIsKept(frame, k - 1, frames, at);
      FedPart(frame, k, frames, at + k - 1);
    }
  }

  lemma WholeIsDispatched(frame: seq<u8>, frames: seq<Dispatch>, at: nat)
    requires Whole(frame)
    ensures Feed(Parse([], frames), frame, at) == Parse([], frames + [Dispatch(at, frame)])
  {
    LastByteOfFrame(frame, frames, at + |frame| - 1);
    WholeIsLong(frame);
    PartIsKept(frame, |frame| - 1, frames, at);
    hide Fed, Whole;
  }

  lemma WholeIsLong(frame: seq<u8>)
    requires Whole(frame)
    ensures |frame| == Expected(frame[0]) >= 3
  {
  }

  lemma {:induction false} NoiseIsSkipped(noise: seq<u8>, frames: seq<Dispatch>, at: nat)
    requires Noise(noise)
    ensures Feed(Parse([], frames), noise, at) == Parse([], frames)
  {
    if noise != [] {
      NoiseIsSkipped(noise[..|noise| - 1], frames, at);
    }
  }

  // ---------------------------------------------------------------- frames back to back

  predicate AllWhole(frames: seq<seq<u8>>) { forall i :: 0 <= i < |frames| ==> Whole(frames[i]) }

  function Flat(frames: seq<seq<u8>>): seq<u8> { if frames == [] then [] else frames[0] + Flat(frames[1..]) }

  function Places(frames: seq<seq<u8>>, at: nat): seq<Dispatch>
  {
    if frames == [] then [] else [Dispatch(at, frames[0])] + Places(frames[1..], at + |frames[0]|)
  }

  lemma {:induction false} FlatIsDispatched(frames: seq<seq<u8>>, before: seq<Dispatch>, at: nat)
    requires AllWhole(frames)
    ensures Feed(Parse([], before), Flat(frames), at) == Parse([], before + Places(frames, at))
  {
    if frames == [] {
      AppendNothing(before);
    } else {
      var f, rest := frames[0], frames[1..];
      var d, later := Dispatch(at, f), Places(rest, at + |f|);
      FlatIsDispatched(rest, before + [d], at + |f|);
      FirstIsDispatched(f, Flat(rest), before, before + [d] + later, at);
      Associative(before, [d], later);
    }
  }

  lemma FirstIsDispatched(f: seq<u8>, more: seq<u8>, before: seq<Dispatch>, all: seq<Dispatch>, at: nat)
    requires Whole(f)
    requires Feed(Parse([], before + [Dispatch(at, f)]), more, at + |f|) == Parse([], all)
    ensures Feed(Parse([], before), f + more, at) == Parse([], all)
  {
    hide Feed, Whole;
    FeedOn(Parse([], before), f, more, at);
    WholeIsDispatched(f, before, at);
  }

  lemma FlatStartsFrame(frames: seq<seq<u8>>)
    requires AllWhole(frames) && frames != []
    ensures Flat(frames) != [] && Expected(Flat(frames)[0]) > 0
  {
  }

  /** Bytes of back-to-back frames come to the same whether they were fed one by one or lay in the buffer. */
  lemma {:induction false} BatchIsFeed(frames: seq<seq<u8>>, k: nat, before: seq<Dispatch>, at: nat)
    requires AllWhole(frames) && k <= |Flat(frames)|
    ensures Processed(Parse(Flat(frames)[..k], before), at + k) == Feed(Parse([], before), Flat(frames)[..k], at)
  {
    hide Processed, Feed, Whole;
    if frames == [] {
      BatchOfNothing(before, at);
    } else {
      var f, rest := frames[0], frames[1..];
      FlatIs(frames);
      hide Flat;
      if k < |f| {
        BatchOfPart(f, Flat(rest), k, before, at);
      } else {
        BatchIsFeed(rest, k - |f|, before + [Dispatch(at, f)], at + |f|);
        BatchOfMore(f, rest, k - |f|, before, at);
        TakeBeyond(f, Flat(rest), k);
      }
    }
  }

  lemma BatchOfNothing(before: seq<Dispatch>, at: nat)
    ensures Processed(Parse([], before), at) == Feed(Parse([], before), [], at)
  {
  }

  lemma FlatIs(frames: seq<seq<u8>>)
    requires frames != []
    ensures Flat(frames) == frames[0] + Flat(frames[1..]) && Flat([]) == []
  {
  }

  lemma BatchOfPart(f: seq<u8>, more: seq<u8>, k: nat, before: seq<Dispatch>, at: nat)
    requires Whole(f) && k < |f|
    ensures Processed(Parse((f + more)[..k], before), at + k) == Feed(Parse([], before), (f + more)[..k], at)
  {
    assert (f + more)[..k] == f[..k];
    PartIsKept(f, k, before, at);
    PartIsNotProcessed(f, k, before, at + k);
    hide Processed, Feed;
  }

  lemma BatchOfMore(f: seq<u8>, rest: seq<seq<u8>>, k: nat, before: seq<Dispatch>, at: nat)
    requires Whole(f) && AllWhole(rest) && k <= |Flat(rest)|
    requires var frames, place := before + [Dispatch(at, f)], at + |f|;
             Processed(Parse(Flat(rest)[..k], frames), place + k) == Feed(Parse([], frames), Flat(rest)[..k], place)
    ensures Processed(Parse(f + Flat(rest)[..k], before), at + |f| + k)
            == Feed(Parse([], before), f + Flat(rest)[..k], at)
  {
    hide Processed, Feed, Whole, AllWhole, Flat;
    FrontIsDispatched(f, rest, k, before, at + |f| + k);
    FirstIsFed(f, Flat(rest)[..k], before, at);
  }

  lemma TakeBeyond(a: seq<u8>, b: seq<u8>, k: nat)
    requires |a| <= k <= |a| + |b|
    ensures (a + b)[..k] == a + b[..k - |a|]
  {
  }

  lemma FirstIsFed(f: seq<u8>, more: seq<u8>, before: seq<Dispatch>, at: nat)
    requires Whole(f)
    ensures Feed(Parse([], before), f + more, at)
            == Feed(Parse([], before + [Dispatch(at, f)]), more, at + |f|)
  {
    hide Feed, Whole;
    FeedOn(Parse([], before), f, more, at);
    WholeIsDispatched(f, before, at);
  }

  lemma PartIsNotProcessed(f: seq<u8>, k: nat, before: seq<Dispatch>, end: int)
    requires Whole(f) && k < |f|
    ensures Processed(Parse(f[..k], before), end) == Parse(f[..k], before)
  {
  }

  lemma FrontIsDispatched(f: seq<u8>, rest: seq<seq<u8>>, k: nat, before: seq<Dispatch>, end: int)
    requires Whole(f) && AllWhole(rest) && k <= |Flat(rest)|
    ensures var w := Flat(rest)[..k];
            Processed(Parse(f + w, before), end)
            == Processed(Parse(w, before + [Dispatch(end - |f| - k, f)]), end)
  {
    var w := Flat(rest)[..k];
    assert (f + w)[..|f|] == f && (f + w)[|f|..] == w;
    ValidByPrefix(f + w);
    if w != [] {
      FlatStartsFrame(rest);
      assert (f + w)[|f|] == w[0] == Flat(rest)[0];
    }
    ProcessedOnce(Parse(f + w, before), end);
    hide Valid, Processed;
  }

  // ---------------------------------------------------------------- a false header

  /** The bytes from h to the end of the frame it seems to start are no valid frame. */
  predicate FalseHeader(h: u8, next: seq<u8>)
  {
    var n := Expected(h);
    0 < n <= |next| + 1 && !Valid([h] + next[..n - 1])
  }

  /** Up to the byte at which the false frame is seen through. */
  lemma SeenThrough(h: u8, next: seq<u8>, before: seq<Dispatch>, at: nat)
    requires FalseHeader(h, next) && Expected(next[0]) > 0
    ensures var n := Expected(h);
            Feed(Parse([], before), [h] + next[..n - 1], at) == Processed(Parse(next[..n - 1], before), at + n)
  {
    var n := Expected(h);
    var front := [h] + next[..n - 1];
    assert front[..n - 1] + [front[n - 1]] == front;
    PartIsKept(front, n - 1, before, at);
    FrontResyncs(front, before, at + n);
    hide Valid, Processed;
  }

  lemma FrontResyncs(front: seq<u8>, before: seq<Dispatch>, end: int)
    requires Complete(front) && |front| > 1 && !Valid(front) && Expected(front[1]) > 0
    ensures Processed(Parse(front, before), end) == Processed(Parse(front[1..], before), end)
  {
    InvalidFrontKeepsTheRest(Parse(front, before), end, 1);
    ProcessedOnce(Parse(front, before), end);
    hide Valid, Processed;
  }

  /** A false header costs itself and nothing else: from an empty buffer, every valid frame sent back to back behind
      it is dispatched, however many of them lay in the buffer while the parser still took it for a frame's. */
  lemma FalseHeaderCostsItself(stream: seq<u8>, h: u8, frames: seq<seq<u8>>)
    requires Received(stream).buf == [] && AllWhole(frames) && frames != []
    requires FalseHeader(h, Flat(frames))
    ensures Received(stream + ([h] + Flat(frames)))
            == Parse([], Received(stream).frames + Places(frames, |stream| + 1))
  {
    hide Received, Processed, Valid, Whole, Feed, Flat, FalseHeader;
    var before, at := Received(stream).frames, |stream|;
    ReceivedFeeds(stream, [h] + Flat(frames));
    HeaderIsSkipped(h, frames, before, at);
    FlatIsDispatched(frames, before, at + 1);
  }

  lemma HeaderIsSkipped(h: u8, frames: seq<seq<u8>>, before: seq<Dispatch>, at: nat)
    requires AllWhole(frames) && frames != [] && FalseHeader(h, Flat(frames))
    ensures Feed(Parse([], before), [h] + Flat(frames), at) == Feed(Parse([], before), Flat(frames), at + 1)
  {
    FlatStartsFrame(frames);
    BatchIsFeed(frames, Expected(h) - 1, before, at + 1);
    hide Processed, Valid, Whole, Feed, Flat;
    WindowIsFed(h, Flat(frames), before, at);
  }

  /** What lay in the buffer while the false frame filled up comes to what it would have, fed one by one. */
  lemma WindowIsFed(h: u8, all: seq<u8>, before: seq<Dispatch>, at: nat)
    requires FalseHeader(h, all) && all != [] && Expected(all[0]) > 0
    requires var k := Expected(h) - 1;
             Processed(Parse(all[..k], before), at + 1 + k) == Feed(Parse([], before), all[..k], at + 1)
    ensures Feed(Parse([], before), [h] + all, at) == Feed(Parse([], before), all, at + 1)
  {
    var k := Expected(h) - 1;
    SeenThrough(h, all, before, at);
    hide Processed, Valid, Feed, FalseHeader;
    SplitsAt(h, all, k);
    FeedOn(Parse([], before), [h] + all[..k], all[k..], at);
    FeedOn(Parse([], before), all[..k], all[k..], at + 1);
  }

  lemma SplitsAt(h: u8, all: seq<u8>, k: nat)
    requires k <= |all|
    ensures [h] + all == [h] + all[..k] + all[k..] && all == all[..k] + all[k..]
  {
  }

  // ---------------------------------------------------------------- the limit of that: noise behind a false header

  /** All of p's frames and, after them, only frames that start at or after `from`. */
  predicate Extends(frames: seq<Dispatch>, more: seq<Dispatch>, from: int)
  {
    frames <= more && forall i :: |frames| <= i < |more| ==> more[i].start >= from
  }

  lemma {:induction false} ProcessedExtends(p: Parse, end: int)
    ensures Extends(p.frames, Processed(p, end).frames, end - |p.buf|) && |Processed(p, end).buf| <= |p.buf|
    decreases |p.buf|
  {
    if Complete(p.buf) {
      ProcessedExtends(Once(p, end), end);
      OnceExtends(p, end);
      hide Once;
    }
  }

  lemma OnceExtends(p: Parse, end: int)
    requires Complete(p.buf)
    ensures Extends(p.frames, Once(p, end).frames, end - |p.buf|) && |Once(p, end).buf| < |p.buf|
  {
    hide Valid, Resynced, Shifted;
  }

  lemma {:induction false} FeedExtends(frames: seq<Dispatch>, bytes: seq<u8>, at: nat)
    ensures var q := Feed(Parse([], frames), bytes, at); Extends(frames, q.frames, at) && |q.buf| <= |bytes|
  {
    if bytes != [] {
      var n := |bytes| - 1;
      FeedExtends(frames, bytes[..n], at);
      OneMoreExtends(frames, Feed(Parse([], frames), bytes[..n], at), bytes[n], at, n);
      hide Fed, Extends;
    }
  }

  lemma OneMoreExtends(frames: seq<Dispatch>, p: Parse, b: u8, at: nat, n: nat)
    requires Extends(frames, p.frames, at) && |p.buf| <= n
    ensures Extends(frames, Fed(p, b, at + n).frames, at) && |Fed(p, b, at + n).buf| <= n + 1
  {
    ProcessedExtends(Parse(p.buf + [b], p.frames), at + n + 1);
    hide Processed;
  }

  /** A dispatched frame that something other than a header follows in the buffer takes the rest with it. */
  lemma FrontTakesTheRest(f: seq<u8>, more: seq<u8>, before: seq<Dispatch>, end: int)
    requires Whole(f) && more != [] && Expected(more[0]) == 0
    ensures Processed(Parse(f + more, before), end)
            == Parse([], before + [Dispatch(end - |f| - |more|, f)])
  {
    assert (f + more)[..|f|] == f && (f + more)[|f|] == more[0];
    ValidByPrefix(f + more);
    ProcessedOnce(Parse(f + more, before), end);
    hide Valid;
  }

  lemma TwoFramesFed(f: seq<u8>, z: seq<u8>, g: seq<u8>, before: seq<Dispatch>, at: nat)
    requires Whole(f) && Noise(z) && Whole(g)
    ensures Feed(Parse([], before), f + (z + g), at)
            == Parse([], before + [Dispatch(at, f)] + [Dispatch(at + |f| + |z|, g)])
  {
    hide Feed, Whole;
    var frames := before + [Dispatch(at, f)];
    FirstIsFed(f, z + g, before, at);
    FeedOn(Parse([], frames), z, g, at + |f|);
    NoiseIsSkipped(z, frames, at + |f|);
    WholeIsDispatched(g, frames, at + |f| + |z|);
  }

  lemma BatchOfNoise(f: seq<u8>, noise: seq<u8>, before: seq<Dispatch>, at: nat)
    requires Whole(f) && Noise(noise)
    ensures Processed(Parse(f + noise, before), at + |f| + |noise|) == Feed(Parse([], before), f + noise, at)
  {
    hide Feed, Processed, Whole;
    FirstIsFed(f, noise, before, at);
    NoiseIsSkipped(noise, before + [Dispatch(at, f)], at + |f|);
    if noise == [] {
      AppendNothing(f);
      WholeFrameProcessed(f, before, at + |f|);
    } else {
      FrontTakesTheRest(f, noise, before, at + |f| + |noise|);
    }
  }

  /** If the false frame ends by the noise, what lay in the buffer comes to the same as if fed one by one. */
  lemma BatchBeforeNoise(f: seq<u8>, z: seq<u8>, g: seq<u8>, all: seq<u8>, k: nat, before: seq<Dispatch>, at: nat)
    requires Whole(f) && Noise(z) && k <= |f| + |z| && all == f + (z + g)
    ensures Processed(Parse(all[..k], before), at + k) == Feed(Parse([], before), all[..k], at)
  {
    hide Feed, Processed, Whole;
    if k <= |f| {
      TakeWithin(f, z + g, k);
      FlatOfOne(f);
      BatchIsFeed([f], k, before, at);
    } else {
      TakeBoth(f, z, g, k);
      BatchOfNoise(f, z[..k - |f|], before, at);
    }
  }

  lemma FlatOfOne(f: seq<u8>)
    ensures Flat([f]) == f && (Whole(f) ==> AllWhole([f]))
  {
    assert [f][1..] == [];
    AppendNothing(f);
    hide Whole;
  }

  lemma TakeWithin(a: seq<u8>, b: seq<u8>, k: nat)
    requires k <= |a|
    ensures (a + b)[..k] == a[..k]
  {
  }

  lemma TakeBoth(f: seq<u8>, z: seq<u8>, g: seq<u8>, k: nat)
    requires |f| <= k <= |f| + |z|
    ensures (f + (z + g))[..k] == f + z[..k - |f|]
  {
  }

  lemma FedIfNoiseReachesOut(h: u8, f: seq<u8>, z: seq<u8>, g: seq<u8>, all: seq<u8>, before: seq<Dispatch>, at: nat)
    requires Whole(f) && Noise(z) && Whole(g) && all == f + (z + g) && FalseHeader(h, all)
    requires Expected(h) <= 1 + |f| + |z|
    ensures Feed(Parse([], before), [h] + all, at)
            == Parse([], before + [Dispatch(at + 1, f)] + [Dispatch(at + 1 + |f| + |z|, g)])
  {
    hide Processed, Valid, Whole, Feed, Noise, FalseHeader, Expected;
    HeaderFits(h, all);
    StartsWith(f, z + g);
    BatchBeforeNoise(f, z, g, all, Expected(h) - 1, before, at + 1);
    TwoFramesFed(f, z, g, before, at + 1);
    WindowIsFed(h, all, before, at);
  }

  lemma HeaderFits(h: u8, all: seq<u8>)
    requires FalseHeader(h, all)
    ensures 0 < Expected(h) <= |all| + 1
  {
  }

  lemma StartsWith(f: seq<u8>, more: seq<u8>)
    requires Whole(f)
    ensures f + more != [] && Expected((f + more)[0]) > 0
  {
  }

  lemma LostIfNot(h: u8, f: seq<u8>, z: seq<u8>, g: seq<u8>, all: seq<u8>, before: seq<Dispatch>, at: nat)
    requires Whole(f) && Noise(z) && z != [] && Whole(g) && all == f + (z + g) && FalseHeader(h, all)
    requires Expected(h) > 1 + |f| + |z|
    ensures Extends(before + [Dispatch(at + 1, f)], Feed(Parse([], before), [h] + all, at).frames, at + Expected(h))
  {
    hide Processed, Valid, Whole, Feed, FalseHeader, Noise, Expected, Extends;
    HeaderFits(h, all);
    var n := Expected(h);
    StartsWith(f, z + g);
    WindowIsCut(h, f, z, g, all, before, at);
    SplitsAt(h, all, n - 1);
    FeedOn(Parse([], before), [h] + all[..n - 1], all[n - 1..], at);
    FeedExtends(before + [Dispatch(at + 1, f)], all[n - 1..], at + n);
  }

  lemma WindowIsCut(h: u8, f: seq<u8>, z: seq<u8>, g: seq<u8>, all: seq<u8>, before: seq<Dispatch>, at: nat)
    requires Whole(f) && Noise(z) && z != [] && all == f + (z + g) && FalseHeader(h, all)
    requires Expected(h) > 1 + |f| + |z|
    ensures 0 < Expected(h) <= |all| + 1
    ensures Feed(Parse([], before), [h] + all[..Expected(h) - 1], at)
            == Parse([], before + [Dispatch(at + 1, f)])
  {
    hide Processed, Valid, Whole, Feed, FalseHeader, Noise, Expected;
    HeaderFits(h, all);
    var n := Expected(h);
    StartsWith(f, z + g);
    SeenThrough(h, all, before, at);
    NoiseFirst(z, g, n - 1 - |f|);
    TakeBeyond(f, z + g, n - 1);
    FrontTakesTheRest(f, (z + g)[..n - 1 - |f|], before, at + n);
  }

  lemma NoiseFirst(z: seq<u8>, g: seq<u8>, k: nat)
    requires Noise(z) && z != [] && 0 < k <= |z| + |g|
    ensures (z + g)[..k] != [] && Expected((z + g)[..k][0]) == 0
  {
  }

  /** ... which is also its limit. A frame that stands behind noise, behind another frame, is dispatched if and only
      if its header lies beyond the false frame: inside it, the noise that follows the dispatched frame is not skipped
      but taken for the end of the buffer. */
  lemma NoiseBehindAFalseHeader(stream: seq<u8>, h: u8, f: seq<u8>, z: seq<u8>, g: seq<u8>)
    requires Received(stream).buf == [] && Whole(f) && Noise(z) && z != [] && Whole(g)
    requires FalseHeader(h, f + (z + g))
    ensures Dispatch(|stream| + 1 + |f| + |z|, g) in Received(stream + ([h] + (f + (z + g)))).frames
            <==> Expected(h) <= 1 + |f| + |z|
  {
    hide Received, Whole, Noise, FalseHeader, Feed, Genuine, Extends;
    var before, at, all := Received(stream).frames, |stream|, f + (z + g);
    var d := Dispatch(at + 1 + |f| + |z|, g);
    ReceivedFeeds(stream, [h] + all);
    if Expected(h) <= 1 + |f| + |z| {
      FedIfNoiseReachesOut(h, f, z, g, all, before, at);
      LastIsIn(before + [Dispatch(at + 1, f)], d);
    } else {
      LostIfNot(h, f, z, g, all, before, at);
      DispatchedFramesAreGenuine(stream);
      WholeIsLong(f);
      NotAmongThem(before, stream, Dispatch(at + 1, f), Received(stream + ([h] + all)).frames, at + Expected(h), d);
    }
  }

  lemma LastIsIn(frames: seq<Dispatch>, d: Dispatch)
    ensures d in frames + [d]
  {
    assert (frames + [d])[|frames|] == d;
  }

  /** Frames received before, one more, and then only later ones: none of them starts where d does. */
  lemma NotAmongThem(frames: seq<Dispatch>, stream: seq<u8>, one: Dispatch, more: seq<Dispatch>, from: int, d: Dispatch)
    requires Genuine(frames, stream, |stream|) && Extends(frames + [one], more, from)
    requires |stream| < d.start < from && one.start < d.start
    ensures d !in more
  {
    forall i | 0 <= i < |more| ensures more[i].start != d.start {
      if i < |frames| {
        assert more[i] == (frames + [one])[i] == frames[i];
      } else if i == |frames| {
        assert more[i] == (frames + [one])[i] == one;
      }
    }
    hide Whole;
  }
}
