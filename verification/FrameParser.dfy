/** The resynchronising frame parser (keyboard_uart.c). The functions say what one more byte does to the
    buffered bytes and which frames it completes; class `Parser` is the code, shifting its buffer in place. */
module FrameParser {
  import opened Words

  const MAX_FRAME: nat := 24

  /** A dispatched frame and the position in the received stream of its first byte. */
  datatype Dispatch = Dispatch(start: int, bytes: seq<u8>)

  /** Buffered bytes and dispatched frames after some bytes have been fed. */
  datatype Parse = Parse(buf: seq<u8>, frames: seq<Dispatch>)

  /** Length of the frame this byte starts, 0 if it starts none. */
  function Expected(b: u8): nat
  {
    if b == 0xA6 || b == 0x61 then 3
    else if b == 0xA1 then 10
    else if b == 0xA9 then 21
    else 0
  }

  function Sum(bytes: seq<u8>): u8
  {
    if bytes == [] then 0 else (Sum(bytes[..|bytes| - 1]) + bytes[|bytes| - 1]) % 0x100
  }

  predicate ChecksumAt(bytes: seq<u8>, at: nat)
    requires at < |bytes|
  {
    Sum(bytes[..at]) == bytes[at]
  }

  /** The buffer holds at least one whole frame, by its header. */
  predicate Complete(buf: seq<u8>)
  {
    buf != [] && 0 < Expected(buf[0]) <= |buf|
  }

  predicate Valid(buf: seq<u8>)
    requires Complete(buf)
  {
    match buf[0]
    case 0xA6 => ChecksumAt(buf, 2)
    case 0xA1 => ChecksumAt(buf, 9)
    case 0xA9 => buf[1] <= 18 && ChecksumAt(buf, 2 + buf[1])
    case _ => buf[1] == 0x0D && buf[2] == 0x0A
  }

  /** Drop n bytes; what is left survives only if it starts with a header. */
  function Shifted(buf: seq<u8>, n: nat): seq<u8>
  {
    if n >= |buf| || Expected(buf[n]) == 0 then [] else buf[n..]
  }

  /** Drop everything before the first header at or after position i. */
  function Resynced(buf: seq<u8>, i: nat): (r: seq<u8>)
    requires i <= |buf|
    ensures |r| <= |buf| - i
    ensures r != [] ==> Expected(r[0]) > 0 && r == buf[|buf| - |r|..]
    decreases |buf| - i
  {
    if i == |buf| then [] else if Expected(buf[i]) > 0 then buf[i..] else Resynced(buf, i + 1)
  }

  lemma ResyncedHere(buf: seq<u8>, i: nat)
    requires 0 < i < |buf|
    ensures Resynced(buf, i) == if Expected(buf[i]) > 0 then Shifted(buf, i) else Resynced(buf, i + 1)
  {
  }

  /** Dispatch or resynchronise until no whole frame is left; `end` is where the buffer ends in the stream. */
  function Processed(p: Parse, end: int): Parse
    decreases |p.buf|
  {
    if Complete(p.buf) then Processed(Once(p, end), end) else p
  }

  /** One turn: dispatch the frame at the front of the buffer, or look for the next header. */
  function Once(p: Parse, end: int): (p': Parse)
    requires Complete(p.buf)
    ensures |p'.buf| < |p.buf|
  {
    if Valid(p.buf) then
      var n := Expected(p.buf[0]);
      Parse(Shifted(p.buf, n), p.frames + [Dispatch(end - |p.buf|, p.buf[..n])])
    else Parse(Resynced(p.buf, 1), p.frames)
  }

  lemma OnceShrinks(p: Parse, end: int)
    requires Complete(p.buf)
    ensures |Once(p, end).buf| < |p.buf|
  {
  }

  lemma ProcessedOnce(p: Parse, end: int)
    requires Complete(p.buf)
    ensures Processed(p, end) == Processed(Once(p, end), end)
  {
  }

  /** One more byte; `fed` bytes came before it. */
  function Fed(p: Parse, b: u8, fed: int): Parse
  {
    if p.buf == [] && Expected(b) == 0 then p
    else if |p.buf| >= MAX_FRAME then Parse([], p.frames)
    else Processed(Parse(p.buf + [b], p.frames), fed + 1)
  }

  /** The parser after receiving a whole stream, from empty. */
  function Received(stream: seq<u8>): Parse
  {
    if stream == [] then Parse([], [])
    else Fed(Received(stream[..|stream| - 1]), stream[|stream| - 1], |stream| - 1)
  }

  /** What a buffer looks like between bytes: empty, or a header and less than a whole frame. */
  predicate Partial(buf: seq<u8>)
  {
    buf != [] ==> |buf| < Expected(buf[0])
  }

  function Bytes(frames: seq<Dispatch>): seq<seq<u8>>
  {
    seq(|frames|, i requires 0 <= i < |frames| => frames[i].bytes)
  }

  lemma BytesAppend(frames: seq<Dispatch>, d: Dispatch)
    ensures Bytes(frames + [d]) == Bytes(frames) + [d.bytes]
  {
  }

  // ---------------------------------------------------------------- the code's own form

  class Parser {
    const rxBuf: array<u8>
    var rxLen: nat
    var rxExpected: nat
    var dispatched: seq<seq<u8>>      // what the frame callback has been handed
    ghost var frames: seq<Dispatch>
    ghost var fed: int                // bytes received so far

    ghost predicate Shaped()
      reads this, rxBuf
    {
      && rxBuf.Length == MAX_FRAME && rxLen <= MAX_FRAME
      && (rxLen > 0 ==> rxExpected == Expected(rxBuf[0]) > 0)
      && dispatched == Bytes(frames)
    }

    ghost function Buffer(): seq<u8>
      requires Shaped()
      reads this, rxBuf
    {
      rxBuf[..rxLen]
    }

    ghost function View(): Parse
      requires Shaped()
      reads this, rxBuf
    {
      Parse(Buffer(), frames)
    }

    constructor ()
      ensures Shaped() && View() == Received([]) && fed == 0 && fresh(rxBuf)
    {
      rxBuf := new u8[MAX_FRAME](i => 0);
      rxLen, rxExpected, dispatched, frames, fed := 0, 0, [], [], 0;
    }

    method ResetParser()
      requires rxBuf.Length == MAX_FRAME && dispatched == Bytes(frames)
      modifies this`rxLen, this`rxExpected
      ensures Shaped() && Buffer() == []
    {
      rxLen := 0;
      rxExpected := 0;
    }

    method Checksum(len: nat) returns (sum: u8)
      requires Shaped() && len <= rxLen
      ensures sum == Sum(Buffer()[..len])
    {
      sum := 0;
      for i := 0 to len
        invariant sum == Sum(Buffer()[..i])
      {
        assert Buffer()[..i + 1][..i] == Buffer()[..i];
        sum := (sum + rxBuf[i]) % 0x100;
      }
    }

    method FrameIsValid() returns (ok: bool)
      requires Shaped() && Complete(Buffer())
      ensures ok <==> Valid(Buffer())
    {
      var cmd := rxBuf[0];
      if cmd == 0xA6 {
        var sum := Checksum(2);
        return sum == rxBuf[2];
      } else if cmd == 0xA1 {
        var sum := Checksum(9);
        return sum == rxBuf[9];
      } else if cmd == 0xA9 {
        var nameLen := rxBuf[1];
        var at := (2 + nameLen) % 0x100;
        if nameLen > 18 || at >= 21 {
          return false;
        }
        var sum := Checksum(at);
        return sum == rxBuf[at];
      } else if cmd == 0x61 {
        return rxBuf[1] == 0x0D && rxBuf[2] == 0x0A;
      }
      return false;
    }

    method ShiftRxBuf(n: nat)
      requires Shaped()
      modifies this`rxLen, this`rxExpected, rxBuf
      ensures Shaped() && Buffer() == Shifted(old(Buffer()), n)
    {
      if n >= rxLen {
        ResetParser();
        return;
      }
      ghost var before := Buffer();
      rxLen := rxLen - n;
      for i := 0 to rxLen
        invariant rxLen == |before| - n
        invariant forall j :: 0 <= j < i ==> rxBuf[j] == before[j + n]
        invariant forall j :: i <= j < |before| ==> rxBuf[j] == before[j]
      {
        rxBuf[i] := rxBuf[i + n];
      }
      assert rxBuf[..rxLen] == before[n..];
      rxExpected := Expected(rxBuf[0]);
      if rxExpected == 0 {
        ResetParser();
      }
    }

    method ResyncParser()
      requires Shaped() && 0 < rxLen
      modifies this`rxLen, this`rxExpected, rxBuf
      ensures Shaped() && Buffer() == Resynced(old(Buffer()), 1)
    {
      ghost var before := Buffer();
      for i := 1 to rxLen
        invariant Shaped() && Buffer() == before
        invariant Resynced(before, 1) == Resynced(before, i)
      {
        hide Shifted;
        ResyncedHere(before, i);
        if Expected(rxBuf[i]) > 0 {
          ShiftRxBuf(i);
          return;
        }
      }
      ResetParser();
    }

    method DispatchFrame()
      requires Shaped() && Complete(Buffer())
      modifies this`dispatched, this`frames
      ensures Shaped()
      ensures frames == old(frames) + [Dispatch(fed - rxLen, Buffer()[..rxExpected])]
    {
      ghost var d := Dispatch(fed - rxLen, Buffer()[..rxExpected]);
      assert rxBuf[..rxExpected] == d.bytes;
      BytesAppend(frames, d);
      dispatched := dispatched + [rxBuf[..rxExpected]];
      frames := frames + [d];
    }

    method ProcessRxBuf()
      requires Shaped()
      modifies this`rxLen, this`rxExpected, this`dispatched, this`frames, rxBuf
      ensures Shaped() && View() == Processed(old(View()), fed)
    {
      while rxLen > 0 && rxExpected > 0 && rxLen >= rxExpected
        invariant Shaped()
        invariant Processed(View(), fed) == Processed(old(View()), fed)
        decreases rxLen
      {
        hide Processed, Once;
        ProcessedOnce(View(), fed);
        ProcessFront();
      }
    }

    /** One turn of process_rx_buf's loop. */
    method ProcessFront()
      requires Shaped() && Complete(Buffer())
      modifies this`rxLen, this`rxExpected, this`dispatched, this`frames, rxBuf
      ensures Shaped() && View() == Once(old(View()), fed) && rxLen < old(rxLen)
    {
      hide Valid, Resynced, Shifted;
      ghost var before := View();
      OnceShrinks(before, fed);
      var ok := FrameIsValid();
      if ok {
        var consumed := rxExpected;
        DispatchFrame();
        ShiftRxBuf(consumed);
      } else {
        ResyncParser();
      }
      assert View() == Once(before, fed);
    }

    method FeedByte(b: u8)
      requires Shaped()
      modifies this, rxBuf
      ensures Shaped() && View() == Fed(old(View()), b, old(fed)) && fed == old(fed) + 1
    {
      fed := fed + 1;
      if rxLen == 0 {
        rxExpected := Expected(b);
        if rxExpected == 0 {
          return;
        }
      }
      if rxLen >= MAX_FRAME {
        ResetParser();
        return;
      }
      Append(b);
      ProcessRxBuf();
    }

    method Append(b: u8)
      requires rxBuf.Length == MAX_FRAME && rxLen < MAX_FRAME && dispatched == Bytes(frames)
      requires rxExpected == Expected(if rxLen == 0 then b else rxBuf[0]) > 0
      modifies this`rxLen, rxBuf
      ensures Shaped() && Buffer() == old(rxBuf[..rxLen]) + [b]
    {
      rxBuf[rxLen] := b;
      rxLen := rxLen + 1;
    }
  }
}
