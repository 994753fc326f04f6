/** Host wake over the CHWAKE line (host_wake.c): an acknowledged link without sequence numbers.

    `State` is what the protocol knows, with the queue as a sequence; class `Wake` is the code's own form,
    a ring of eight slots updated in place, and is proved to follow the functions on `State`. */
module HostWake {
  import opened Words

  const QUEUE_SIZE: nat := 8

  datatype Frame = Frame(cmd: u8, val: u8)

  datatype Phase =
    | Idle        // line low, nothing pending
    | Guard       // line high, the host is waking up
    | WaitAck     // a frame is out
    | Quarantine  // after a resend: late ACKs are discarded

  datatype Config = Config(guard: u32, timeout: u32, attempts: u8)

  /** What one step asks of the caller: the line level from now on, and a frame to send now, if any. */
  datatype Output = Output(line: bool, send: Option<Frame>)

  datatype State = State(
    cfg: Config,
    phase: Phase,
    queue: seq<Frame>,
    attempts: u8,          // sends of the outstanding frame so far
    acked: bool,
    sendingLatest: bool,   // the outstanding frame is the latest slot's
    lastLatest: bool,      // so was the previous frame sent
    since: u32,            // tick at which the current wait began
    latest: Frame,
    latestPending: bool,
    latestLost: bool,
    out: Frame)            // the outstanding frame, for resends
  {
    predicate Pending() { queue != [] || latestPending }

    /** HostWake_Idle. */
    predicate Quiet() { phase == Idle && !Pending() }

    /** The outstanding frame is the head of the queue. */
    predicate HeadOut() { phase == WaitAck && !sendingLatest }

    predicate Valid()
    {
      && |queue| <= QUEUE_SIZE
      && attempts <= cfg.attempts
      && 1 <= cfg.attempts
      && (phase == Guard ==> Pending())
      && (phase == WaitAck <==> attempts != 0)
      && (HeadOut() ==> queue != [] && out == queue[0])
      && (phase != WaitAck ==> !acked && !sendingLatest)
    }
  }

  function Init(guard: u32, timeout: u32, attempts: u8): (s: State)
    ensures s.Valid() && s.Quiet()
  {
    State(Config(guard, timeout, if attempts == 0 then 1 else attempts), Idle, [], 0, false, false, false, 0,
          Frame(0, 0), false, false, Frame(0, 0))
  }

  function Enqueued(s: State, f: Frame): State
  {
    if |s.queue| >= QUEUE_SIZE then s else s.(queue := s.queue + [f])
  }

  function WithLatest(s: State, f: Frame): State
  {
    s.(latest := f, latestPending := true)
  }

  function Acked(s: State): State
  {
    if s.phase == WaitAck then s.(acked := true) else s
  }

  function LostTaken(s: State): State
  {
    s.(latestLost := false)
  }

  /** Which source the next frame comes from: the latest slot, but never twice running past a queue. */
  predicate PicksLatest(s: State)
  {
    s.latestPending && !(s.lastLatest && s.queue != [])
  }

  function Transmitted(s: State, now: u32): State
    requires s.attempts < 0xFF
  {
    s.(attempts := s.attempts + 1, since := now, acked := false, phase := WaitAck)
  }

  function NextSent(s: State, now: u32): State
    requires s.Pending()
  {
    var fromLatest := PicksLatest(s);
    Transmitted(s.(out := if fromLatest then s.latest else s.queue[0],
                latestPending := s.latestPending && !fromLatest,
                sendingLatest := fromLatest, lastLatest := fromLatest, attempts := 0), now)
  }

  /** The outstanding frame is done with; whether the module must now sit out a quarantine is `resent`. */
  function Released(s: State, abandoned: bool): State
    requires s.Valid() && s.phase == WaitAck
  {
    var resent := s.attempts > 1 || abandoned;
    s.(queue := if s.sendingLatest then s.queue else s.queue[1..],
       latestLost := s.latestLost || (s.sendingLatest && abandoned && !s.latestPending),
       sendingLatest := false, attempts := 0, acked := false,
       phase := if resent then Quarantine else Idle)
  }

  function Retired(s: State, now: u32, abandoned: bool): State
    requires s.Valid() && s.phase == WaitAck
  {
    var r := Released(s, abandoned);
    if r.phase == Idle && r.Pending() then NextSent(r, now) else r
  }

  function QuarantineTicks(cfg: Config): u32 { (2 * cfg.timeout) % U32 }

  function Stepped(s: State, now: u32): (s': State)
    requires s.Valid()
    ensures s'.Valid() && s'.cfg == s.cfg
  {
    var waited := Since(now, s.since);
    match s.phase
    case Guard => if waited < s.cfg.guard then s else NextSent(s, now)
    case WaitAck =>
      if s.acked then Retired(s, now, false)
      else if waited < s.cfg.timeout then s
      else if s.attempts >= s.cfg.attempts then Retired(s, now, true)
      else Transmitted(s, now)
    case Quarantine =>
      if waited < QuarantineTicks(s.cfg) then s
      else if s.Pending() then NextSent(s, now)
      else s.(phase := Idle)
    case Idle => if s.Pending() then s.(phase := Guard, since := now) else s
  }

  /** A step sends exactly when it leaves the state with an outstanding frame it has just put on the wire. */
  predicate Sends(s: State, now: u32)
    requires s.Valid()
  {
    Stepped(s, now).phase == WaitAck && (s.phase == WaitAck ==> Stepped(s, now) != s)
  }

  function Emits(s: State, now: u32): Output
    requires s.Valid()
  {
    Output(Stepped(s, now).phase != Idle, if Sends(s, now) then Some(Stepped(s, now).out) else None)
  }

  // ---------------------------------------------------------------- the code's own form

  /** The frames held by the two parallel rings, oldest first. */
  function Unrolled(cmd: seq<u8>, val: seq<u8>, head: nat, count: nat): (q: seq<Frame>)
    requires |cmd| == |val| == QUEUE_SIZE
    ensures |q| == count
  {
    seq(count, i => Frame(cmd[(head + i) % QUEUE_SIZE], val[(head + i) % QUEUE_SIZE]))
  }

  lemma UnrolledPush(cmd: seq<u8>, val: seq<u8>, head: nat, count: nat, f: Frame)
    requires |cmd| == |val| == QUEUE_SIZE && count < QUEUE_SIZE
    ensures var slot := (head + count) % QUEUE_SIZE;
            Unrolled(cmd[slot := f.cmd], val[slot := f.val], head, count + 1) == Unrolled(cmd, val, head, count) + [f]
  {
  }

  lemma UnrolledPop(cmd: seq<u8>, val: seq<u8>, head: nat, count: nat)
    requires |cmd| == |val| == QUEUE_SIZE && 0 < count
    ensures Unrolled(cmd, val, (head + 1) % QUEUE_SIZE, count - 1) == Unrolled(cmd, val, head, count)[1..]
  {
  }

  class Wake {
    const cfg: Config
    var phase: Phase
    var head: u8
    var count: u8
    var attempts: u8
    var acked: bool
    var sendingLatest: bool
    var lastLatest: bool
    var since: u32
    const cmd: array<u8>
    const val: array<u8>
    var latestPending: bool
    var latestLost: bool
    var latestCmd: u8
    var latestVal: u8
    var outCmd: u8
    var outVal: u8

    ghost predicate Shaped()
      reads this
    {
      cmd != val && cmd.Length == val.Length == QUEUE_SIZE && head < QUEUE_SIZE && count <= QUEUE_SIZE
    }

    ghost function Queue(): (q: seq<Frame>)
      requires Shaped()
      reads this, cmd, val
    {
      Unrolled(cmd[..], val[..], head, count)
    }

    ghost function View(): State
      requires Shaped()
      reads this, cmd, val
    {
      State(cfg, phase, Queue(), attempts, acked, sendingLatest, lastLatest, since,
            Frame(latestCmd, latestVal), latestPending, latestLost, Frame(outCmd, outVal))
    }

    ghost predicate Valid()
      reads this, cmd, val
    {
      Shaped() && View().Valid()
    }

    constructor (guard: u32, timeout: u32, maxAttempts: u8)
      ensures Valid() && fresh(cmd) && fresh(val)
      ensures View() == Init(guard, timeout, maxAttempts)
    {
      cfg := Config(guard, timeout, if maxAttempts == 0 then 1 else maxAttempts);
      phase := Idle;
      head, count, attempts := 0, 0, 0;
      acked, sendingLatest, lastLatest := false, false, false;
      since := 0;
      cmd := new u8[QUEUE_SIZE](i => 0);
      val := new u8[QUEUE_SIZE](i => 0);
      latestPending, latestLost := false, false;
      latestCmd, latestVal, outCmd, outVal := 0, 0, 0, 0;
    }

    method Enqueue(c: u8, v: u8) returns (ok: bool)
      requires Valid()
      modifies this, cmd, val
      ensures Valid() && View() == Enqueued(old(View()), Frame(c, v))
      ensures ok <==> |old(View()).queue| < QUEUE_SIZE
    {
      if count >= QUEUE_SIZE {
        return false;
      }
      var slot := (head + count) % QUEUE_SIZE;
      UnrolledPush(cmd[..], val[..], head, count, Frame(c, v));
      cmd[slot] := c;
      val[slot] := v;
      count := count + 1;
      return true;
    }

    method SetLatest(c: u8, v: u8)
      requires Valid()
      modifies this
      ensures Valid() && View() == WithLatest(old(View()), Frame(c, v))
    {
      latestCmd := c;
      latestVal := v;
      latestPending := true;
    }

    method OnAck()
      requires Valid()
      modifies this
      ensures Valid() && View() == Acked(old(View()))
    {
      if phase == WaitAck {
        acked := true;
      }
    }

    method TakeLatestLost() returns (lost: bool)
      requires Valid()
      modifies this
      ensures Valid() && View() == LostTaken(old(View()))
      ensures lost == old(latestLost)
    {
      lost := latestLost;
      latestLost := false;
    }

    method Transmit(now: u32) returns (o: Output)
      requires Shaped() && attempts < 0xFF
      modifies this
      ensures Shaped() && View() == Transmitted(old(View()), now)
      ensures o == Output(true, Some(View().out))
    {
      o := Output(true, Some(Frame(outCmd, outVal)));
      attempts := attempts + 1;
      since := now;
      acked := false;
      phase := WaitAck;
    }

    method SendNext(now: u32) returns (o: Output)
      requires Shaped() && View().Pending()
      modifies this
      ensures Shaped() && View() == NextSent(old(View()), now)
      ensures o == Output(true, Some(View().out))
    {
      ghost var before := View();
      if latestPending && !(lastLatest && count != 0) {
        outCmd := latestCmd;
        outVal := latestVal;
        latestPending := false;
        sendingLatest := true;
      } else {
        assert before.queue[0] == Frame(cmd[head], val[head]);
        outCmd := cmd[head];
        outVal := val[head];
        sendingLatest := false;
      }
      lastLatest := sendingLatest;
      attempts := 0;
      assert View() == before.(out := Frame(outCmd, outVal), latestPending := latestPending,
                               sendingLatest := sendingLatest, lastLatest := lastLatest, attempts := 0);
      o := Transmit(now);
    }

    /** The first half of retire(): let go of the outstanding frame. */
    method Release(abandoned: bool)
      requires Valid() && phase == WaitAck
      modifies this
      ensures Shaped() && View() == Released(old(View()), abandoned)
    {
      ghost var before := View();
      var resent := attempts > 1 || abandoned;
      if !sendingLatest {
        UnrolledPop(cmd[..], val[..], head, count);
        head := (head + 1) % QUEUE_SIZE;
        count := count - 1;
        assert Queue() == before.queue[1..];
      } else if abandoned && !latestPending {
        latestLost := true;
      }
      sendingLatest := false;
      attempts := 0;
      acked := false;
      phase := if resent then Quarantine else Idle;
    }

    method Retire(now: u32, abandoned: bool) returns (o: Output)
      requires Valid() && phase == WaitAck
      modifies this
      ensures Shaped() && View() == Retired(old(View()), now, abandoned)
      ensures o == Output(phase != Idle, if phase == WaitAck then Some(View().out) else None)
    {
      Release(abandoned);
      if phase == Quarantine {
        return Output(true, None);
      }
      if count != 0 || latestPending {
        o := SendNext(now);
        return;
      }
      return Output(false, None);
    }

    method Step(now: u32) returns (o: Output)
      requires Valid()
      modifies this
      ensures Valid() && View() == Stepped(old(View()), now)
      ensures o == Emits(old(View()), now)
    {
      var pending := count != 0 || latestPending;
      match phase
      case Guard =>
        if Since(now, since) < cfg.guard {
          return Output(true, None);
        }
        o := SendNext(now);
      case WaitAck =>
        if acked {
          o := Retire(now, false);
          return;
        }
        if Since(now, since) < cfg.timeout {
          return Output(true, None);
        }
        if attempts >= cfg.attempts {
          o := Retire(now, true);
          return;
        }
        o := Transmit(now);
      case Quarantine =>
        if Since(now, since) < (2 * cfg.timeout) % U32 {
          return Output(true, None);
        }
        if pending {
          o := SendNext(now);
          return;
        }
        phase := Idle;
        return Output(false, None);
      case Idle =>
        if !pending {
          return Output(false, None);
        }
        phase := Guard;
        since := now;
        return Output(true, None);
    }
  }
}
