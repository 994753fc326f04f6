/** Deep sleep: the frame prefix and Power_Service of main.c, and the idle callback of power_sleep.c, which
    alone enters a sleep.

    `Power` holds every latch that decides it; class `PowerUnit` is the code. */
module PowerSleep {
  import opened Words
  import opened SleepProtocol

  const BACKSTEP: u32 := 1024

  /** Build settings, in RTC ticks: the holdoff after host activity, Power_Service's bound on draining TX, and
      the SDK's limits on one sleep and its early-wake margin. */
  datatype Config = Config(holdoff: u32, drain: u32, minSleep: u32, maxSleep: u32, margin: u32)
  {
    predicate Valid() { margin < RTC_MODULUS && maxSleep < RTC_MODULUS && holdoff < RTC_MODULUS - BACKSTEP }
  }

  datatype Power = Power(
    cfg: Config,
    proto: Proto,
    updating: bool,           // openboot_entry_pending
    autosleep: bool,          // pwr_autosleep, the mirror of the reducer's
    explicit: bool,           // pwr_explicit_request
    holdoffStart: u32,
    holdoffActive: bool,
    draining: bool,           // Power_Service's state
    drainStart: u32)

  function Start(cfg: Config): Power
  {
    Power(cfg, BOOT, false, false, false, 0, false, false, 0)
  }

  function ActivityNoted(p: Power, now: u32): Power { p.(holdoffStart := now, holdoffActive := true) }

  /** handle_uart_frame, as far as sleep goes. */
  function FrameHandled(p: Power, f: Frame, now: u32): Power
  {
    var proto := Folded(p.proto, f, p.updating);
    ActivityNoted(p, now).(proto := proto, autosleep := proto.autosleep,
                           explicit := p.explicit && !IsStateChanging(f),
                           updating := p.updating || IsUpdate(f))
  }

  datatype Service = Wait | StandDown | Disconnect

  /** What a pass of Power_Service comes to. */
  function ServiceOutcome(p: Power, now: u32, txIdle: bool): Service
  {
    if !p.proto.sleepPending || p.updating then StandDown
    else if !p.draining then Wait
    else if txIdle then Disconnect
    else if Since(now, p.drainStart) < p.cfg.drain then Wait
    else StandDown
  }

  function Serviced(p: Power, now: u32, txIdle: bool): Power
  {
    match ServiceOutcome(p, now, txIdle)
    case Wait => if p.draining then p else p.(draining := true, drainStart := now)
    case StandDown => p.(proto := p.proto.(sleepPending := false), draining := false)
    case Disconnect => p.(proto := p.proto.(sleepPending := false), draining := false, explicit := true)
  }

  // ---------------------------------------------------------------- the idle callback

  /** What the callback finds. */
  datatype Idle = Idle(
    rfIdle: bool, rfCanSleep: bool, txIdle: bool, rxQuiet: bool,
    rxActivity: bool,       // raw bytes since last asked
    masked: bool,           // the caller runs with interrupts off
    wakeAsserted: bool,     // RX line low, a byte or an edge waiting at the boundary
    alreadyFired: bool)     // so has the RTC trigger

  /** How the sleep ended: the RTC trigger; the RX edge, seen by its handler or only at the disarm. */
  datatype Wake = Wake(rtc: bool, edge: bool, lateEdge: bool)

  /** Ticks from now to the early-wake margin before the deadline, as the code computes them. */
  function TimeToSleep(deadline: u32, margin: u32, now: u32): int
  {
    var time := if deadline >= margin then deadline - margin else deadline + (RTC_MODULUS - margin);
    if time < now then time + (RTC_MODULUS - now) else time - now
  }

  predicate WindowAccepted(cfg: Config, deadline: u32, now: u32)
  {
    cfg.minSleep <= TimeToSleep(deadline, cfg.margin, now) <= cfg.maxSleep
  }

  /** pwr_sleep_until's return: 0 entered, 2 window rejected, 3 vetoed. */
  function SleepCode(p: Power, deadline: u32, now: u32, i: Idle): nat
  {
    if i.masked then 3
    else if !WindowAccepted(p.cfg, deadline, now) then 2
    else if i.wakeAsserted || !i.rxQuiet || i.alreadyFired then 3
    else 0
  }

  predicate HoldoffOver(p: Power, now: u32, i: Idle)
  {
    !i.rxActivity &&
    (p.holdoffActive ==> ElapsedTicks(now, p.holdoffStart, RTC_MODULUS, BACKSTEP) >= p.cfg.holdoff)
  }

  /** CH59x_LowPower's return. */
  function IdleCode(p: Power, deadline: u32, now: u32, i: Idle): nat
  {
    if p.explicit then
      if !i.rfIdle || p.updating || !i.txIdle || !i.rxQuiet then 3 else SleepCode(p, deadline, now, i)
    else if !p.autosleep || p.updating || !HoldoffOver(p, now, i) || !i.txIdle || !i.rxQuiet then 3
    else if !i.rfIdle && !i.rfCanSleep then 3
    else SleepCode(p, deadline, now, i)
  }

  /** The holdoff latch after the callback has looked at it. */
  function HoldoffChecked(p: Power, now: u32, i: Idle): Power
  {
    if i.rxActivity then ActivityNoted(p, now)
    else p.(holdoffActive := p.holdoffActive && !HoldoffOver(p, now, i))
  }

  function Woken(p: Power, w: Wake, at: u32): Power
  {
    if !w.rtc && w.edge then ActivityNoted(p, at) else p
  }

  function Idled(p: Power, deadline: u32, now: u32, i: Idle, w: Wake, at: u32): Power
  {
    var entered := IdleCode(p, deadline, now, i) == 0;
    if p.explicit then
      if entered then Woken(p, w, at).(explicit := !(w.edge || w.lateEdge)) else p
    else if !p.autosleep || p.updating then p
    else if entered then Woken(HoldoffChecked(p, now, i), w, at) else HoldoffChecked(p, now, i)
  }

  /** The window arithmetic is right across the RTC wrap, and a deadline already past is never taken for one
      nearly a whole wrap away: the sleep asked for is what remains, or there is none. */
  lemma SleepsToTheDeadline(cfg: Config, deadline: int, now: int)
    requires cfg.Valid()
    requires cfg.maxSleep - RTC_MODULUS < deadline - cfg.margin - now < RTC_MODULUS
    ensures WindowAccepted(cfg, Counter(deadline), Counter(now)) <==>
              cfg.minSleep <= deadline - cfg.margin - now <= cfg.maxSleep
  {
    var d := deadline - cfg.margin;
    assert TimeToSleep(Counter(deadline), cfg.margin, Counter(now)) == (d - now) % RTC_MODULUS;
  }

  /** A deadline outside the window is refused as one, wherever another would be slept to. */
  lemma OutsideTheWindow(p: Power, deadline: u32, other: u32, now: u32, i: Idle)
    requires IdleCode(p, deadline, now, i) == 0
    ensures IdleCode(p, other, now, i) == if WindowAccepted(p.cfg, other, now) then 0 else 2
  {
    hide WindowAccepted, HoldoffOver;
  }

  // ---------------------------------------------------------------- the code's own form

  class PowerUnit {
    const cfg: Config
    const proto: SleepProto
    var openbootPending: bool
    var autosleep: bool
    var explicitRequest: bool
    var holdoffStart: u32
    var holdoffActive: bool
    var svcDraining: bool
    var svcStart: u32

    function View(): Power
      reads this, proto
    {
      Power(cfg, proto.View(), openbootPending, autosleep, explicitRequest, holdoffStart, holdoffActive,
            svcDraining, svcStart)
    }

    constructor (cfg: Config)
      ensures View() == Start(cfg) && fresh(proto)
    {
      this.cfg := cfg;
      proto := new SleepProto();
      openbootPending, autosleep, explicitRequest := false, false, false;
      holdoffStart, holdoffActive, svcDraining, svcStart := 0, false, false, 0;
    }

    method NoteActivity(now: u32)
      modifies this
      ensures View() == ActivityNoted(old(View()), now)
    {
      holdoffStart := now;
      holdoffActive := true;
    }

    /** PowerSleep_SetAutosleep: arming counts as activity. */
    method SetAutosleep(on: bool, now: u32)
      modifies this
      ensures var p := old(View());
              View() == (if on && !p.autosleep then ActivityNoted(p, now) else p).(autosleep := on)
    {
      if on && !autosleep {
        NoteActivity(now);
      }
      autosleep := on;
    }

    /** The sleep prefix of handle_uart_frame, and its A6 81 latch; whether to reply 5B 37. */
    method OnFrame(cmd: u8, sub: u8, now: u32) returns (sendReady: bool)
      modifies this, proto
      ensures View() == FrameHandled(old(View()), Frame(cmd, sub), now)
      ensures sendReady <==> IsUnlock(Frame(cmd, sub))
    {
      var action := proto.OnFrame(cmd, sub, openbootPending);
      sendReady := action == SendReady;
      SetAutosleep(proto.autosleep, now);
      NoteActivity(now);
      if IsStateChanging(Frame(cmd, sub)) {
        explicitRequest := false;
      }
      if cmd == 0xA6 && sub == 0x81 {
        openbootPending := true;
      }
    }

    /** Power_Service; whether this pass flushes the bond and disconnects. */
    method Service(now: u32, txIdle: bool) returns (disconnect: bool)
      modifies this, proto
      ensures View() == Serviced(old(View()), now, txIdle)
      ensures disconnect <==> ServiceOutcome(old(View()), now, txIdle) == Disconnect
    {
      if !svcDraining {
        if !proto.sleepPending {
          return false;
        }
        if openbootPending {
          proto.sleepPending := false;
          return false;
        }
        svcStart := now;
        svcDraining := true;
        return false;
      }
      if !proto.sleepPending || openbootPending {
        proto.sleepPending := false;
        svcDraining := false;
        return false;
      }
      if !txIdle {
        if Since(now, svcStart) < cfg.drain {
          return false;
        }
        proto.sleepPending := false;
        svcDraining := false;
        return false;
      }
      proto.sleepPending := false;
      svcDraining := false;
      explicitRequest := true;
      return true;
    }

    /** pwr_holdoff_expired. */
    method HoldoffExpired(now: u32, i: Idle) returns (over: bool)
      modifies this
      ensures View() == HoldoffChecked(old(View()), now, i)
      ensures over == HoldoffOver(old(View()), now, i)
    {
      if i.rxActivity {
        NoteActivity(now);
        return false;
      }
      if !holdoffActive {
        return true;
      }
      if ElapsedTicks(now, holdoffStart, RTC_MODULUS, BACKSTEP) >= cfg.holdoff {
        holdoffActive := false;
        return true;
      }
      return false;
    }

    /** pwr_sleep_until: the sleep itself is the vendor's, `w` and `at` how and when it ended. */
    method SleepUntil(time: u32, now: u32, i: Idle, w: Wake, at: u32) returns (code: nat, gpioWoke: bool)
      modifies this
      ensures code == SleepCode(old(View()), time, now, i)
      ensures View() == if code == 0 then Woken(old(View()), w, at) else old(View())
      ensures code == 0 ==> gpioWoke == (w.edge || w.lateEdge)
    {
      gpioWoke := false;
      var target := if time >= cfg.margin then time - cfg.margin else time + (RTC_MODULUS - cfg.margin);
      if i.masked {
        return 3, false;
      }
      var timeSleep := if target < now then target + (RTC_MODULUS - now) else target - now;
      if timeSleep < cfg.minSleep || timeSleep > cfg.maxSleep {
        return 2, false;
      }
      if i.wakeAsserted || !i.rxQuiet {
        return 3, false;
      }
      if i.alreadyFired {
        return 3, false;
      }
      gpioWoke := w.edge;
      if !w.rtc && gpioWoke {
        NoteActivity(at);
      }
      gpioWoke := gpioWoke || w.lateEdge;
      code := 0;
    }

    /** CH59x_LowPower. */
    method LowPower(time: u32, now: u32, i: Idle, w: Wake, at: u32) returns (code: nat)
      modifies this
      ensures code == IdleCode(old(View()), time, now, i)
      ensures View() == Idled(old(View()), time, now, i, w, at)
    {
      var gpioWoke: bool;
      if explicitRequest {
        if !i.rfIdle || openbootPending || !i.txIdle || !i.rxQuiet {
          return 3;
        }
        code, gpioWoke := SleepUntil(time, now, i, w, at);
        if code == 0 && gpioWoke {
          explicitRequest := false;
        }
        return;
      }
      if !autosleep {
        return 3;
      }
      if openbootPending {
        return 3;
      }
      var over := HoldoffExpired(now, i);
      if !over || !i.txIdle || !i.rxQuiet || (!i.rfIdle && !i.rfCanSleep) {
        return 3;
      }
      code, gpioWoke := SleepUntil(time, now, i, w, at);
    }
  }
}
