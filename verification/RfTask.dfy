/** The link of rf_task.c as the code keeps it: static variables changed in place by its interrupt callback, its
    TMOS event handlers and its entry points. Each is proved to do what its function on `Link` says, assignment by
    assignment and no more: that is what carries the properties of runs, proved of `Link`, over to these variables,
    as `DeepSleepAllowedMeansShut` does for the radio. */
module RfTask {
  import opened Words
  import opened ReportRing
  import opened LinkMachine
  import LinkRadio

  class Rf {
    const fifo: HidFifo
    var rfState: LinkState
    var search: Search            // pair_flavor, pair_rx_open, pair_rx_off_armed
    var bond: Bond                // has_bond, stored_dongle_mac, keyboard_mac_valid
    var pending: Catch            // pending_session_aa, pending_type_tag, pending_interval
    var session: Catch            // stored_session_aa, stored_type_tag, rf_conn_interval
    var radio: Radio
    var air: Air                  // response_pending, TMR0, supervision_kick, bond_save_pending
    var rest: Rest                // rest_stage, rest_probe and the rest
    var tasks: Tasks              // TMOS's own events and timers
    var now: int                  // TMOS time
    var past: Past

    ghost predicate Valid()
      reads this, fifo, fifo.slots
    {
      fifo.Shaped()
    }

    ghost function View(): Link
      requires Valid()
      reads this, fifo, fifo.slots
    {
      Link(rfState, search, bond, pending, session, radio, air, fifo.View(), rest, tasks, now, past)
    }

    /** RF_TaskInit. */
    constructor (hasBond: bool, mac: int, identity: bool, time: int)
      ensures Valid() && View() == Boot(hasBond, mac, identity, time) && fresh(fifo) && fresh(fifo.slots)
    {
      fifo := new HidFifo();
      bond := Bond(hasBond, mac, identity);
      pending, session, radio, air, rest := NO_CATCH, NO_CATCH, Shut, SILENCE, AWAKE;
      now := time;
      if hasBond && identity {
        rfState, search := Pairing, Search(true, true, false);
        tasks := NO_TASKS.(bcast := Posted(OFF, time));
        past := Past(1, time, time, [], None, false);
      } else {
        rfState, search, tasks := Idle, Search(false, false, false), NO_TASKS.(start := Posted(OFF, time));
        past := Past(0, time, time, [], None, false);
      }
    }

    // -------------------------------------------------------------- resting helpers

    method RestCancel()
      requires Valid()
      modifies this
      ensures Valid() && View() == RestCancelled(old(View()))
    {
      tasks := tasks.(restIdle := OFF, restProbe := OFF);
      tasks := tasks.(restProbeTimeout := OFF, restStage2 := OFF);
      rest := AWAKE;
    }

    method RestArmIdle()
      requires Valid()
      modifies this
      ensures Valid() && View() == IdleArmed(old(View()))
    {
      if rfState == Connected && !rest.probe {
        tasks := tasks.(restIdle := OFF);
        tasks := tasks.(restIdle := Armed(tasks.restIdle, now + REST_IDLE_TICKS));
      }
    }

    method StopLinkTasks()
      requires Valid()
      modifies this`tasks
      ensures Valid() && tasks == LinkTasksStopped(old(tasks))
    {
      tasks := tasks.(disconnect := OFF, bcast := OFF, rxOff := OFF, pairTimeout := OFF);
      tasks := tasks.(enter := OFF, restProbeTimeout := OFF);
    }

    method RestGoQuiet()
      requires Valid()
      modifies this
      ensures Valid() && View() == GoneQuiet(old(View()))
    {
      hide LinkTasksStopped;
      air := air.(turnaround := false);
      StopLinkTasks();
      air := air.(responsePending := false, kick := false);
      search := search.(rxOpen := false, rxOffArmed := false);
      rest := AWAKE.(stage := rest.stage);
      rfState := Resting;
      radio := Shut;
    }

    method RestEnter()
      requires Valid()
      modifies this
      ensures Valid() && View() == RestEntered(old(View()))
    {
      RestGoQuiet();
      rest := rest.(stage := 1);
      tasks := tasks.(restProbe := Armed(tasks.restProbe, now + REST_PROBE_TICKS));
      tasks := tasks.(restStage2 := Armed(tasks.restStage2, now + REST_STAGE2_TICKS));
    }

    /** The bonded branch of RF_Select2G4, which rest_probe_start repeats. */
    method SearchBonded()
      requires Valid()
      modifies this
      ensures Valid() && View() == BondedSearch(old(View())) && bond == old(bond)
    {
      air := air.(turnaround := false);
      radio := Shut;
      tasks := tasks.(enter := OFF);
      rfState := Pairing;
      search := search.(bonded := true, rxOpen := true, rxOffArmed := false);
      tasks := tasks.(pairTimeout := OFF, rxOff := OFF);
      tasks := tasks.(bcast := Posted(tasks.bcast, now));
      past := past.(epoch := past.epoch + 1);
    }

    method RestProbeStart()
      requires Valid()
      modifies this
      ensures Valid() && View() == ProbeStarted(old(View()))
    {
      hide RestCancelled, BondedSearch, ProbeTimerSet;
      if !bond.hasBond || !bond.identity {
        RestCancel();
        rfState := Idle;
        radio := Shut;
        return;
      }
      rest := rest.(probe := true, answers := 0, quietPending := false);
      SearchBonded();
      SetProbeTimer();
    }

    method SetProbeTimer()
      requires Valid()
      modifies this
      ensures Valid() && View() == ProbeTimerSet(old(View()))
    {
      tasks := tasks.(restProbeTimeout := OFF);
      tasks := tasks.(restProbeTimeout := Armed(tasks.restProbeTimeout, now + REST_PROBE_TIMEOUT_TICKS));
      past := past.(probeStart := now);
    }

    method RestPromoteToNormal()
      requires Valid()
      modifies this
      ensures Valid() && View() == Promoted(old(View()))
    {
      hide IdleArmed;
      tasks := tasks.(restProbe := OFF, restProbeTimeout := OFF, restStage2 := OFF);
      rest := AWAKE;
      tasks := tasks.(disconnect := OFF);
      tasks := tasks.(disconnect := Armed(tasks.disconnect, now + CONNECTED_TIMEOUT_TICKS));
      RestArmIdle();
    }

    // -------------------------------------------------------------- RF_2G4StatusCallBack

    method PostRestart()
      requires Valid()
      modifies this`tasks
      ensures Valid() && View() == RestartPosted(old(View()))
    {
      tasks := tasks.(rxRestart := Posted(tasks.rxRestart, now));
    }

    method OnPairFrame(mac: int, accessAddr: u32, tag: u8, offered: nat)
      requires Valid()
      modifies this
      ensures Valid() && View() == Caught15(old(View()), mac, accessAddr, tag, offered)
    {
      hide CatchTaken, RestartPosted;
      if rfState == Pairing && tag < 5 {
        if !bond.hasBond {
          bond := bond.(mac := mac, hasBond := true);
          PostRestart();
          return;
        }
        if bond.mac == mac {
          var effInterval := if offered != 0 then offered else PAIR_INTERVAL;
          if effInterval < 20 || effInterval > 40 {
            PostRestart();
            return;
          }
          KeepCatch(mac, accessAddr, tag, effInterval);
          return;
        }
      }
      PostRestart();
    }

    method KeepCatch(mac: int, accessAddr: u32, tag: u8, interval: nat)
      requires Valid()
      modifies this
      ensures Valid() && View() == CatchTaken(old(View()), Catch(mac, accessAddr, tag, interval, old(past.epoch)))
    {
      pending := Catch(mac, accessAddr, tag, interval, past.epoch);
      tasks := tasks.(enter := Posted(tasks.enter, now));
    }

    method OnPoll(acks: bool)
      requires Valid()
      modifies this, fifo
      ensures Valid() && View() == Polled(old(View()), acks)
    {
      hide RestartPosted, Retired;
      if rfState != Connected {
        PostRestart();
        return;
      }
      if air.bondSavePending {
        air := air.(bondSavePending := false);
        tasks := tasks.(saveBond := Posted(tasks.saveBond, now));
      }
      if acks {
        fifo.RetireOnAck();
      }
      air := air.(kick := true, responsePending := true, turnaround := true);
    }

    method OnTxFinish()
      requires Valid()
      modifies this
      ensures Valid() && View() == TxFinished(old(View()))
    {
      hide RestartPosted;
      if air.responsePending && rest.probe && !rest.wake {
        rest := rest.(answers := (rest.answers + 1) % 0x100);
        if rest.answers >= PROBE_ANSWERS {
          rest := rest.(quietPending := true);
        }
      }
      air := air.(responsePending := false);
      PostRestart();
    }

    method OnTxFail()
      requires Valid()
      modifies this
      ensures Valid() && View() == TxFailed(old(View()))
    {
      hide RestartPosted;
      air := air.(responsePending := false);
      PostRestart();
    }

    method Tmr0Irq()
      requires Valid()
      modifies this
      ensures Valid() && View() == TurnedAround(old(View()))
    {
      air := air.(turnaround := false);
      if rfState == Connected {
        tasks := tasks.(respond := Posted(tasks.respond, now));
      }
    }

    // -------------------------------------------------------------- RF_ProcessEvent

    method OnRxRestart()
      requires Valid()
      modifies this
      ensures Valid() && View() == Restarted(old(View()))
    {
      if rfState == Connected || (rfState == Pairing && search.rxOpen) {
        radio := Listening;
        if rfState == Pairing && search.bonded && !search.rxOffArmed {
          search := search.(rxOffArmed := true);
          past := past.(openedAt := now);
          tasks := tasks.(rxOff := Armed(tasks.rxOff, now + RX_WINDOW_TICKS));
        }
      }
    }

    method PairBroadcast()
      requires Valid()
      modifies this
      ensures Valid() && View() == Broadcast(old(View()))
    {
      if rfState == Pairing {
        if !bond.identity {
          rfState := Idle;
          radio := Shut;
          return;
        }
        radio := Sending;
        tasks := tasks.(bcast := Armed(tasks.bcast, now + BCAST_TICKS));
        tasks := tasks.(rxOff := OFF);
        search := search.(rxOpen := true, rxOffArmed := false);
      }
    }

    method OnPairRxOff()
      requires Valid()
      modifies this
      ensures Valid() && View() == WindowClosed(old(View()))
    {
      if rfState == Pairing && search.bonded {
        search := search.(rxOpen := false, rxOffArmed := false);
        radio := Shut;
      }
    }

    method OnPairTimeout()
      requires Valid()
      modifies this
      ensures Valid() && View() == PairingOver(old(View()))
    {
      if rfState == Pairing {
        rfState := Idle;
        tasks := tasks.(rxOff := OFF);
        radio := Shut;
      }
    }

    /** The pending parameters become the session's, and nothing is in flight in it yet. */
    method AdoptPending()
      requires Valid()
      modifies this, fifo
      ensures Valid()
      ensures View() == old(View()).(session := old(pending), q := old(View()).q.(headSent := false),
                                     air := old(View()).air.(responsePending := false))
    {
      session := pending;
      fifo.ForgetSent();
      air := air.(responsePending := false);
    }

    method EndSearch()
      requires Valid()
      modifies this`tasks
      ensures Valid() && View() == SearchOver(old(View()))
    {
      tasks := tasks.(bcast := OFF, pairTimeout := OFF, rxOff := OFF);
      tasks := tasks.(disconnect := OFF);
      tasks := tasks.(disconnect := Armed(tasks.disconnect, now + CONNECTED_TIMEOUT_TICKS));
    }

    /** rf_enter_connected, up to the point where a silent probe returns. */
    method Join()
      requires Valid() && rfState == Pairing
      modifies this, fifo
      ensures Valid() && View() == Joined(old(View()))
    {
      var silentProbe := rest.probe && !rest.wake;
      EndSearch();
      AdoptPending();
      air := air.(bondSavePending := !silentProbe);
      rfState := Connected;
      air := air.(turnaround := false);
      radio := Listening;
    }

    method OnEnterConnected()
      requires Valid()
      modifies this, fifo
      ensures Valid() && View() == ConnectedEntered(old(View()))
    {
      hide Promoted, IdleArmed;
      if rfState != Pairing {
        return;
      }
      var silentProbe := rest.probe && !rest.wake;
      Join();
      if silentProbe {
        return;
      }
      if rest.probe {
        RestPromoteToNormal();
        return;
      }
      past := past.(status := past.status + [0x32, 0x23]);
      RestArmIdle();
    }

    /** rf_do_response_tx, called while connected; `started` is RF_Tx's answer. */
    method DoResponseTx(started: bool)
      requires Valid()
      modifies this, fifo
      ensures Valid() && View() == Responded(old(View()), started)
    {
      hide TxFailed, HeadOnAir;
      if rfState == Connected && air.responsePending {
        if started {
          SendHead();
        } else {
          radio := Shut;
          OnTxFail();
        }
      }
    }

    method SendHead()
      requires Valid()
      modifies this, fifo
      ensures Valid() && View() == HeadOnAir(old(View()))
    {
      var head := fifo.SelectHead();
      radio := Sending;
      if head.Some? {
        fifo.MarkSent();
      }
    }

    method OnDiscardHid()
      requires Valid()
      modifies fifo
      ensures Valid() && View() == QueueDropped(old(View()))
    {
      if rfState == Idle {
        fifo.Discard();
      }
    }

    method OnRestIdle()
      requires Valid()
      modifies this
      ensures Valid() && View() == IdleElapsed(old(View()))
    {
      hide RestEntered;
      if rfState == Connected && !rest.probe {
        if fifo.Count() == 0 && !air.responsePending && !fifo.KeyHeld() {
          RestEnter();
        } else {
          tasks := tasks.(restIdle := Armed(tasks.restIdle, now + REST_IDLE_RETRY_TICKS));
        }
      }
    }

    method OnRestProbe()
      requires Valid()
      modifies this
      ensures Valid() && View() == ProbeDue(old(View()))
    {
      hide ProbeStarted;
      if rfState == Resting && rest.stage == 1 {
        tasks := tasks.(restProbe := Armed(tasks.restProbe, now + REST_PROBE_TICKS));
        RestProbeStart();
      }
    }

    method OnRestProbeTimeout()
      requires Valid()
      modifies this
      ensures Valid() && View() == ProbeTimedOut(old(View()))
    {
      hide GoneQuiet;
      if rest.probe {
        if rest.wake {
          tasks := tasks.(restProbeTimeout := Armed(tasks.restProbeTimeout, now + REST_PROBE_TIMEOUT_TICKS));
        } else {
          RestGoQuiet();
        }
      }
    }

    method OnRestStage2()
      requires Valid()
      modifies this
      ensures Valid() && View() == StageTwo(old(View()))
    {
      if rest.stage == 1 {
        rest := rest.(stage := 2);
        tasks := tasks.(restProbe := OFF);
      }
    }

    method OnDisconnect()
      requires Valid()
      modifies this, fifo
      ensures Valid() && View() == Dropped(old(View()))
    {
      hide RestCancelled, TornDown;
      if rfState == Connected {
        RestCancel();
        TearDown();
      }
    }

    method TearDown()
      requires Valid()
      modifies this, fifo
      ensures Valid() && View() == TornDown(old(View()))
    {
      air := air.(turnaround := false, responsePending := false);
      fifo.LoseLink();
      air := air.(bondSavePending := false);
      rfState := Idle;
      radio := Shut;
      past := past.(status := past.status + [0x33], tornDown := true);
    }

    method TakeEvent(id: TaskId)
      requires Valid()
      modifies this`tasks
      ensures Valid() && View() == Taken(old(View()), id)
    {
      tasks := tasks.Put(id, tasks.Get(id).(posted := None));
    }

    method OnStart()
      requires Valid()
      modifies this`rfState, this`radio
      ensures Valid() && View() == StartedUp(old(View()))
    {
      rfState := Idle;
      radio := Shut;
    }

    /** RF_ProcessEvent on one set event bit. */
    method ProcessEvent(id: TaskId, started: bool)
      requires Valid()
      modifies this, fifo
      ensures Valid() && View() == Handled(Taken(old(View()), id), id, started)
    {
      TakeEvent(id);
      hide Restarted, Broadcast, ConnectedEntered, Responded, QueueDropped, IdleElapsed;
      hide ProbeDue, ProbeTimedOut, StageTwo, Dropped, WindowClosed, PairingOver, Taken;
      match id
      case Start => OnStart();
      case RxRestart => OnRxRestart();
      case PairBcast => PairBroadcast();
      case PairRxOff => OnPairRxOff();
      case PairTimeout => OnPairTimeout();
      case EnterConnected => OnEnterConnected();
      case Respond => DoResponseTx(started);
      case DiscardHid => OnDiscardHid();
      case SaveBond =>
      case RestIdle => OnRestIdle();
      case RestProbe => OnRestProbe();
      case RestProbeTimeout => OnRestProbeTimeout();
      case RestStage2 => OnRestStage2();
      case Disconnect => OnDisconnect();
    }

    method KickSupervision()
      requires Valid()
      modifies this
      ensures Valid() && View() == Kicked(old(View()))
    {
      if air.kick {
        air := air.(kick := false);
        tasks := tasks.(disconnect := OFF);
        tasks := tasks.(disconnect := Armed(tasks.disconnect, now + CONNECTED_TIMEOUT_TICKS));
      }
    }

    /** RF_ConnectedTick, the hop's arithmetic apart. */
    method ConnectedTick(overdue: bool, hops: bool)
      requires Valid()
      modifies this
      ensures Valid() && View() == LinkTicked(old(View()), overdue, hops)
    {
      hide GoneQuiet, Kicked;
      if rfState != Connected {
        return;
      }
      if rest.quietPending && !air.responsePending {
        RestGoQuiet();
        return;
      }
      KickSupervision();
      if air.responsePending {
        if !overdue {
          return;
        }
        air := air.(responsePending := false);
      }
      if hops {
        radio := Listening;
      }
    }

    // -------------------------------------------------------------- entry points

    /** The host re-selects 2.4 GHz while a probe is connected: the probe is kept. */
    method KeepProbe()
      requires Valid()
      modifies this
      ensures Valid() && View() == Promoted(old(View())) && bond == old(bond)
    {
      PromotedKeepsBond(View());
      hide Promoted;
      PromotedAnyway(View(), rest.(wake := true, quietPending := false));
      rest := rest.(wake := true, quietPending := false);
      RestPromoteToNormal();
    }

    method Select2G4() returns (bonded: bool)
      requires Valid()
      modifies this
      ensures Valid() && View() == Selected2G4(old(View()))
      ensures bonded == old(bond.identity && bond.hasBond)
    {
      hide BondedSearch, Promoted;
      tasks := tasks.(discard := OFF);
      if !bond.identity {
        return false;
      }
      if rfState == Connected {
        if rest.probe {
          KeepProbe();
        }
        return bond.hasBond;
      }
      RestCancel();
      if bond.hasBond {
        SearchBonded();
      }
      return bond.hasBond;
    }

    method EnterPairing() returns (entered: bool)
      requires Valid()
      modifies this
      ensures Valid() && View() == PairingEntered(old(View()))
      ensures entered <==> old(bond.identity && rfState != Connected)
    {
      hide RestCancelled;
      if !bond.identity || rfState == Connected {
        return false;
      }
      RestCancel();
      air := air.(turnaround := false);
      radio := Shut;
      tasks := tasks.(enter := OFF);
      rfState := Pairing;
      search := search.(bonded := false, rxOpen := true, rxOffArmed := false);
      tasks := tasks.(rxOff := OFF);
      tasks := tasks.(bcast := Posted(tasks.bcast, now));
      tasks := tasks.(pairTimeout := Armed(tasks.pairTimeout, now + PAIR_WINDOW_TICKS));
      past := past.(epoch := past.epoch + 1);
      return true;
    }

    method DisconnectNow()
      requires Valid()
      modifies this, fifo
      ensures Valid() && View() == Disconnected(old(View()))
    {
      hide RestCancelled;
      RestCancel();
      fifo.ForgetLast();
      past := past.(tornDown := true);
      air := air.(turnaround := false);
      tasks := tasks.(bcast := OFF, pairTimeout := OFF);
      tasks := tasks.(rxOff := OFF, enter := OFF, disconnect := OFF);
      air := air.(bondSavePending := false);
      rfState := Idle;
      radio := Shut;
    }

    /** main.c's select of another transport. */
    method Leave()
      requires Valid()
      modifies this, fifo
      ensures Valid() && View() == Left(old(View()))
    {
      hide Disconnected;
      DisconnectNow();
      tasks := tasks.(discard := OFF);
      tasks := tasks.(discard := Armed(tasks.discard, now + RESELECT_KEEP_TICKS));
    }

    method ClearBond()
      requires Valid()
      modifies this, fifo
      ensures Valid() && View() == BondCleared(old(View()))
    {
      hide RestCancelled;
      RestCancel();
      bond := bond.(hasBond := false, mac := 0);
      air := air.(bondSavePending := false);
      tasks := tasks.(discard := OFF);
      if rfState == Idle {
        fifo.Discard();
      }
    }

    /** RF_QueueHIDReport, no interrupt striking; HidFifo.QueueHIDReport has those. */
    method QueueHIDReport(report: Report)
      requires Valid()
      modifies this, fifo, fifo.slots
      ensures Valid() && View() == Reported(old(View()), report)
    {
      hide Queued, Roused;
      fifo.QueueHIDReport(report, false, false, false, false);
      past := past.(newest := Some(report), tornDown := false);
      Rouse();
    }

    method Rouse()
      requires Valid()
      modifies this
      ensures Valid() && View() == Roused(old(View()))
    {
      hide ProbeStarted, Promoted;
      if rfState == Resting {
        rest := rest.(wake := true);
        tasks := tasks.(restProbe := OFF, restStage2 := OFF);
        RestProbeStart();
      } else if rest.probe {
        rest := rest.(wake := true, quietPending := false);
        if rfState == Connected {
          RestPromoteToNormal();
        }
      } else if rfState == Connected {
        RestArmIdle();
      }
    }

    predicate DeepSleepAllowed()
      reads this
    {
      rfState == Idle || rfState == Resting || (rfState == Pairing && search.bonded && !search.rxOpen)
    }

    /** However the link got here, where the code's test lets the module sleep its radio is off. */
    lemma DeepSleepAllowedMeansShut(hasBond: bool, mac: int, identity: bool, booted: int, events: seq<Event>)
      requires Valid() && View() == Run(Boot(hasBond, mac, identity, booted), events)
      ensures DeepSleepAllowed() ==> radio == Shut
    {
      hide Run, Boot;
      if DeepSleepAllowed() {
        LinkRadio.SleepableMeansShut(hasBond, mac, identity, booted, events);
      }
    }
  }
}
