/** The UART sleep protocol (sleep_protocol.c): a capability gate and two latches, folded over the frames the
    host sends. */
module SleepProtocol {
  import opened Words

  datatype Frame = Frame(cmd: u8, sub: u8)

  datatype Action = NoAction | SendReady | Arm | Cancel

  datatype Proto = Proto(unlocked: bool, sleepPending: bool, autosleep: bool)

  const BOOT := Proto(false, false, false)

  predicate A6(f: Frame, sub: u8) { f == Frame(0xA6, sub) }

  predicate IsUnlock(f: Frame) { A6(f, 0x56) }

  predicate IsSleepNow(f: Frame) { A6(f, 0x54) }

  predicate IsAuto(f: Frame) { A6(f, 0x57) }

  predicate IsUpdate(f: Frame) { A6(f, 0x81) }

  /** Fresh pairing and unpairing: 51, 52, 63. */
  predicate ClearsAuto(f: Frame) { A6(f, 0x51) || A6(f, 0x52) || A6(f, 0x63) }

  predicate IsStateChanging(f: Frame)
  {
    || f.cmd == 0xA1 || f.cmd == 0xA9
    || (f.cmd == 0xA6 && f.sub in {0x11, 0x30, 0x31, 0x32, 0x33, 0x51, 0x52, 0x63, 0x81})
  }

  /** SleepProtocol_OnFrame. */
  function Folded(p: Proto, f: Frame, updating: bool): Proto
  {
    if IsUnlock(f) then Proto(true, false, false)
    else if IsAuto(f) then p.(autosleep := p.autosleep || p.unlocked)
    else if IsSleepNow(f) then p.(sleepPending := p.sleepPending || (p.unlocked && !updating))
    else p.(autosleep := p.autosleep && !ClearsAuto(f), sleepPending := p.sleepPending && !IsStateChanging(f))
  }

  function Answer(p: Proto, f: Frame, updating: bool): Action
  {
    if IsUnlock(f) then SendReady
    else if IsSleepNow(f) && p.unlocked && !updating && !p.sleepPending then Arm
    else if p.sleepPending && IsStateChanging(f) then Cancel
    else NoAction
  }

  class SleepProto {
    var unlocked: bool
    var sleepPending: bool
    var autosleep: bool

    function View(): Proto
      reads this
    {
      Proto(unlocked, sleepPending, autosleep)
    }

    constructor ()
      ensures View() == BOOT
    {
      unlocked, sleepPending, autosleep := false, false, false;
    }

    method Reset()
      modifies this
      ensures View() == BOOT
    {
      unlocked, sleepPending, autosleep := false, false, false;
    }

    method OnFrame(cmd: u8, sub: u8, openbootPending: bool) returns (a: Action)
      modifies this
      ensures View() == Folded(old(View()), Frame(cmd, sub), openbootPending)
      ensures a == Answer(old(View()), Frame(cmd, sub), openbootPending)
    {
      if cmd == 0xA6 && sub == 0x56 {
        unlocked := true;
        sleepPending := false;
        autosleep := false;
        return SendReady;
      }
      if cmd == 0xA6 && sub == 0x57 {
        if unlocked {
          autosleep := true;
        }
        return NoAction;
      }
      if cmd == 0xA6 && (sub == 0x51 || sub == 0x52 || sub == 0x63) {
        autosleep := false;
      }
      if cmd == 0xA6 && sub == 0x54 {
        if unlocked && !openbootPending && !sleepPending {
          sleepPending := true;
          return Arm;
        }
        return NoAction;
      }
      if sleepPending && IsStateChanging(Frame(cmd, sub)) {
        sleepPending := false;
        return Cancel;
      }
      return NoAction;
    }
  }

  // ---------------------------------------------------------------- the latches, by the history of frames

  ghost predicate Seen(h: seq<Frame>, kind: Frame -> bool)
  {
    exists i :: 0 <= i < |h| && kind(h[i])
  }

  /** Some frame of the kind `starts` came after an unlock, and no frame of the kind `ends` after it. */
  ghost predicate Standing(h: seq<Frame>, starts: Frame -> bool, ends: Frame -> bool)
  {
    exists j :: 0 <= j < |h| && starts(h[j]) && Seen(h[..j], IsUnlock) && Undisturbed(h, j, ends)
  }

  ghost predicate Undisturbed(h: seq<Frame>, j: int, ends: Frame -> bool)
    requires -1 <= j
  {
    forall k :: j < k < |h| ==> !ends(h[k])
  }

  predicate EndsAuto(f: Frame) { IsUnlock(f) || ClearsAuto(f) }

  predicate EndsRequest(f: Frame) { IsUnlock(f) || IsStateChanging(f) }

  lemma SeenNext(h: seq<Frame>, f: Frame, kind: Frame -> bool)
    ensures Seen(h + [f], kind) <==> Seen(h, kind) || kind(f)
  {
    if Seen(h, kind) {
      var i :| 0 <= i < |h| && kind(h[i]);
      assert (h + [f])[i] == h[i];
    }
    assert (h + [f])[|h|] == f;
  }

  lemma StandingNext(h: seq<Frame>, f: Frame, starts: Frame -> bool, ends: Frame -> bool)
    requires !(starts(f) && ends(f))
    ensures Standing(h + [f], starts, ends) <==>
              (starts(f) && Seen(h, IsUnlock)) || (Standing(h, starts, ends) && !ends(f))
  {
    var h' := h + [f];
    assert h'[..|h|] == h && h'[|h|] == f;
    if starts(f) && Seen(h, IsUnlock) {
      assert Undisturbed(h', |h|, ends);
    }
    if Standing(h, starts, ends) && !ends(f) {
      var j :| 0 <= j < |h| && starts(h[j]) && Seen(h[..j], IsUnlock) && Undisturbed(h, j, ends);
      assert h'[..j] == h[..j] && h'[j] == h[j] && Undisturbed(h', j, ends);
    }
    if Standing(h', starts, ends) {
      var j :| 0 <= j < |h'| && starts(h'[j]) && Seen(h'[..j], IsUnlock) && Undisturbed(h', j, ends);
      if j < |h| {
        assert h'[..j] == h[..j] && h'[j] == h[j];
        assert forall k :: j < k < |h| ==> h'[k] == h[k];
        assert Undisturbed(h, j, ends) && !ends(h'[|h|]);
      }
    }
  }

  /** The reducer fed nothing but frames, an update being pending once A6 81 has been seen. */
  ghost function After(h: seq<Frame>): Proto
  {
    if h == [] then BOOT
    else
      var before := h[..|h| - 1];
      Folded(After(before), h[|h| - 1], Seen(before, IsUpdate))
  }

  /** What each latch says of the past: unlocked exactly when an A6 56 has come; auto-sleep armed exactly when
      an A6 57 came after an A6 56 with no A6 56, 51, 52 or 63 since; a sleep pending exactly when an A6 54 came
      after an A6 56, with neither an A6 56 nor a state-changing frame since, and no A6 81 ever. */
  lemma {:induction false} LatchesByHistory(h: seq<Frame>)
    ensures After(h).unlocked <==> Seen(h, IsUnlock)
    ensures After(h).autosleep <==> Standing(h, IsAuto, EndsAuto)
    ensures After(h).sleepPending <==> Standing(h, IsSleepNow, EndsRequest) && !Seen(h, IsUpdate)
  {
    if h != [] {
      var before, f := h[..|h| - 1], h[|h| - 1];
      assert h == before + [f];
      LatchesByHistory(before);
      SeenNext(before, f, IsUnlock);
      SeenNext(before, f, IsUpdate);
      StandingNext(before, f, IsAuto, EndsAuto);
      StandingNext(before, f, IsSleepNow, EndsRequest);
    }
  }

  /** What it answers tells what became of the pending sleep: armed when one begins, cancelled when one ends but by
      an unlock, ready to every unlock, and nothing else. */
  lemma AnswersTellTheLatch(p: Proto, f: Frame, updating: bool)
    ensures var pending := Folded(p, f, updating).sleepPending;
            && (Answer(p, f, updating) == Arm <==> !p.sleepPending && pending)
            && (Answer(p, f, updating) == Cancel <==> p.sleepPending && !pending && !IsUnlock(f))
            && (Answer(p, f, updating) == SendReady <==> IsUnlock(f))
  {
  }

  // ---------------------------------------------------------------- elapsed ticks

  /** SleepProtocol_ElapsedTicks. */
  function ElapsedTicks(now: u32, start: u32, modulus: u32, backstepTol: u32): int
  {
    if now >= start then now - start
    else if start - now <= backstepTol then 0
    else now + (modulus - start)
  }

  /** Never more than the time that has passed, and exactly that short of a wrap less the tolerance. */
  lemma ElapsedNeverOverstates(t: int, t0: int, modulus: u32, backstepTol: u32)
    requires t0 <= t && 0 < modulus && backstepTol < modulus
    ensures ElapsedTicks(t % modulus, t0 % modulus, modulus, backstepTol) <= t - t0
    ensures t - t0 < modulus - backstepTol ==>
              ElapsedTicks(t % modulus, t0 % modulus, modulus, backstepTol) == t - t0
  {
    Wraps(t % modulus, t0 % modulus, t / modulus - t0 / modulus, modulus, t - t0);
  }

  /** Time since is a difference of residues and a number of wraps, which is not negative. */
  lemma Wraps(now: int, start: int, wraps: int, modulus: int, passed: int)
    requires 0 <= now < modulus && 0 <= start < modulus
    requires passed == wraps * modulus + now - start && 0 <= passed
    ensures if wraps == 0 then passed == now - start
            else if wraps == 1 then passed == modulus + now - start
            else wraps > 1 && passed >= modulus + now - start + modulus
  {
    assert wraps < 0 ==> wraps * modulus <= 0 - modulus;
    if wraps > 1 {
      assert wraps * modulus == 2 * modulus + (wraps - 2) * modulus && (wraps - 2) * modulus >= 0;
    }
  }
}
