/** Delivery of reports against a lossy channel and a dongle that flips its control bit once per response it
    hears: the ring's head is retired exactly when the dongle has it, and nothing is lost or reordered. */
module ReportDelivery {
  import opened Words
  import opened ReportRing
  import R = ReportRingRuns
  import opened ReportLink

  datatype Radio = Off | Listening | Sending(frame: Payload) | Aired

  datatype World = World(
    k: Keyboard,
    up: bool,                  // a session is up
    radio: Radio,
    turnaround: bool,          // TMR0 is armed
    respond: bool,             // RF_EVT_RESPOND is posted
    dongle: bool,              // the dongle's control bit
    synced: bool,              // a poll has been caught in this session
    sends: nat,                // responses started since the last poll caught
    hears: nat,                // ... and how many of them the dongle has heard
    heardHead: bool,           // the last of those carried the head
    headKnown: bool,           // the dongle has heard the present head, in this session or an earlier one
    log: R.Log,                // the host's reports since the last discard, and how many have been retired
    retired: seq<Report>,      // entries retired since the last discard
    received: seq<Report>)     // reports the dongle has received since the last discard

  const START := World(POWER_UP, false, Off, false, false, false, false, 0, 0, false, false, R.NOTHING, [], [])

  datatype Event =
    | Host(r: Report)          // RF_QueueHIDReport
    | Poll(rx: bv8)            // a poll is caught; those that are missed leave no trace
    | Turnaround               // TMR0 fires and posts RF_EVT_RESPOND
    | Serve(started: bool)     // RF_EVT_RESPOND is served
    | Hear                     // the transmission in the air reaches the dongle
    | TxEnd                    // TX_FINISH or TX_FAIL
    | Rearm                    // rf_start_rx: shut, then listen
    | ForceRelease             // RF_ConnectedTick gives up on a late TX_FINISH
    | Lapse                    // supervision ends the session
    | Leave                    // RF_Disconnect
    | Rest                     // rest_go_quiet
    | Connect(dongle: bool)    // a new session, the dongle's bit being whatever it is
    | Discard                  // rf_discard_hid_queue

  predicate Enabled(w: World, e: Event)
  {
    match e
    case Poll(rx) => w.up && w.radio == Listening && Bit0(rx) == w.dongle
    case Turnaround => w.turnaround
    case Serve(_) => w.respond
    case Hear => w.radio.Sending?
    case TxEnd => w.radio.Sending? || w.radio == Aired
    case Rearm => w.up
    case ForceRelease => w.up
    case Connect(_) => !w.up
    case Discard => !w.up
    case _ => true
  }

  function Next(w: World, e: Event): World
  {
    match e
    case Host(r) => w.(k := w.k.(queue := Queued(w.k.queue, r)), log := R.Logged(w.log, r))
    case Poll(rx) =>
      var k' := PollCaught(w.k, rx);
      var gone := |k'.queue.entries| < |w.k.queue.entries|;
      w.(k := k', turnaround := true, synced := true, sends := 0, hears := 0, heardHead := false,
         headKnown := w.headKnown && !gone, log := if gone then R.OneGone(w.log) else w.log,
         retired := w.retired + if gone then [w.k.queue.entries[0]] else [])
    case Turnaround => w.(turnaround := false, respond := w.respond || w.up)
    case Serve(started) =>
      if w.up && w.k.responsePending then
        w.(k := Responded(w.k, started), respond := false, sends := w.sends + if started then 1 else 0,
           radio := if started then Sending(Selected(w.k)) else Off)
      else w.(respond := false)
    case Hear =>
      var isHead := w.radio.Sending? && w.radio.frame.Hid?;
      w.(radio := Aired, dongle := !w.dongle, hears := w.hears + 1, heardHead := isHead,
         headKnown := w.headKnown || isHead,
         received := w.received + if isHead then [w.radio.frame.report] else [])
    case TxEnd => w.(k := Released(w.k), radio := Aired)
    case Rearm => w.(radio := Listening)
    case ForceRelease => w.(k := Released(w.k))
    case Lapse => w.(k := Lapsed(w.k), log := R.Lost(w.log), up := false, radio := Off, turnaround := false)
    case Leave =>
      w.(k := w.k.(queue := Forgotten(w.k.queue)), log := R.Lost(w.log), up := false, radio := Off,
         turnaround := false)
    case Rest => w.(k := Released(w.k), up := false, radio := Off, turnaround := false)
    case Connect(d) =>
      w.(k := Connected(w.k), up := true, radio := Listening, turnaround := false, dongle := d,
         synced := false, sends := 0, hears := 0, heardHead := false)
    case Discard =>
      w.(k := w.k.(queue := Discarded(w.k.queue)), log := R.Emptied(w.log), headKnown := false, retired := [],
         received := [])
  }

  /** The poll caught moves on to the next entry. */
  predicate Retires(w: World) { w.k.queue.headSent && w.hears % 2 == 1 }

  /** `received` is `sent` with every entry heard one or more times in a row. */
  predicate Stutters(received: seq<Report>, sent: seq<Report>)
  {
    if received == [] then sent == []
    else
      var n, m := |received| - 1, |sent| - 1;
      sent != [] && received[n] == sent[m]
      && (Stutters(received[..n], sent) || Stutters(received[..n], sent[..m]))
  }

  function HeardEntries(w: World): seq<Report>
    requires w.headKnown ==> w.k.queue.entries != []
  {
    w.retired + if w.headKnown then [w.k.queue.entries[0]] else []
  }

  /** Retired and waiting are together the host's log. */
  predicate Accounted(w: World)
  {
    R.Holds(w.k.queue, w.log) && w.retired == w.log.reports[..w.log.gone]
  }

  /** What ties the two ends of the link together, in every run. */
  ghost predicate AirInv(w: World)
  {
    && w.k.queue.Valid()
    && (w.headKnown ==> w.k.queue.entries != [])
    && (w.radio.Sending? ==> w.up && w.synced)
    && (w.radio.Sending? && w.radio.frame.Hid? ==>
          w.k.queue.headSent && w.radio.frame.report == w.k.queue.entries[0])
    && (w.radio == Sending(Keepalive) ==> !w.k.queue.headSent)
    && (w.up && !w.synced ==> !w.k.queue.headSent && !w.k.responsePending && w.hears == 0)
    && (w.up && w.synced ==> (w.dongle != Bit0(w.k.txCtrl) <==> w.hears % 2 == 1))
    && w.hears + (if w.radio.Sending? then 1 else 0) <= w.sends
    && (w.up && w.heardHead ==> w.k.queue.headSent && w.headKnown && w.hears > 0)
    && (w.up && w.k.queue.headSent && !w.heardHead && w.hears > 0 ==> w.sends >= 2)
  }

  ghost predicate LogInv(w: World)
  {
    AirInv(w) && Stutters(w.received, HeardEntries(w))
  }

  lemma StuttersGrow(received: seq<Report>, sent: seq<Report>, r: Report)
    requires Stutters(received, sent)
    ensures Stutters(received + [r], sent + [r])
    ensures sent != [] && sent[|sent| - 1] == r ==> Stutters(received + [r], sent)
  {
    assert (received + [r])[..|received|] == received && (sent + [r])[..|sent|] == sent;
  }

  lemma QueueingKeepsHead(q: Queue, r: Report)
    requires q.Valid()
    ensures Queued(q, r).Valid() && Queued(q, r).headSent == q.headSent
    ensures q.entries != [] ==> Queued(q, r).entries != [] && Queued(q, r).entries[0] == q.entries[0]
  {
  }

  // ---------------------------------------------------------------- the two ends

  lemma HearKeepsAir(w: World)
    requires AirInv(w) && Enabled(w, Hear)
    ensures AirInv(Next(w, Hear))
  {
    hide Stutters, Queued, Bit0;
  }

  lemma PollKeepsAir(w: World, rx: bv8)
    requires AirInv(w) && Enabled(w, Poll(rx))
    ensures AirInv(Next(w, Poll(rx)))
    ensures var q, q' := w.k.queue, Next(w, Poll(rx)).k.queue;
            if Retires(w) then q.entries != [] && q'.entries == q.entries[1..] else q'.entries == q.entries
  {
    AdvancedCopiesBit0(w.k.txCtrl, rx);
    hide Stutters, Queued, Bit0, Advanced;
  }

  lemma HostKeepsAir(w: World, r: Report)
    requires AirInv(w)
    ensures AirInv(Next(w, Host(r)))
  {
    QueueingKeepsHead(w.k.queue, r);
    hide Queued, Stutters, Bit0;
  }

  lemma ResponseKeepsAir(w: World, e: Event)
    requires AirInv(w) && Enabled(w, e) && (e.Serve? || e.Turnaround?)
    ensures AirInv(Next(w, e))
  {
    hide Stutters, Queued, Bit0;
  }

  lemma RadioKeepsAir(w: World, e: Event)
    requires AirInv(w) && Enabled(w, e) && (e.TxEnd? || e.Rearm? || e.ForceRelease?)
    ensures AirInv(Next(w, e))
  {
    hide Stutters, Queued, Bit0;
  }

  lemma SessionKeepsAir(w: World, e: Event)
    requires AirInv(w) && Enabled(w, e) && (e.Lapse? || e.Leave? || e.Rest? || e.Connect? || e.Discard?)
    ensures AirInv(Next(w, e))
  {
    hide Stutters, Queued, Bit0;
  }

  lemma NextKeepsAir(w: World, e: Event)
    requires AirInv(w) && Enabled(w, e)
    ensures AirInv(Next(w, e))
  {
    hide AirInv, Next;
    match e
    case Host(r) => HostKeepsAir(w, r);
    case Poll(rx) => PollKeepsAir(w, rx);
    case Hear => HearKeepsAir(w);
    case _ =>
      if e.Serve? || e.Turnaround? {
        ResponseKeepsAir(w, e);
      } else if e.TxEnd? || e.Rearm? || e.ForceRelease? {
        RadioKeepsAir(w, e);
      } else {
        SessionKeepsAir(w, e);
      }
  }

  lemma PollKeepsAccounts(w: World, rx: bv8)
    requires Accounted(w)
    ensures Accounted(Next(w, Poll(rx)))
  {
    if w.k.queue.headSent {
      R.RetiringHolds(w.k.queue, w.log);
    }
    assert w.log.gone < |w.log.reports| ==>
        w.log.reports[..w.log.gone + 1] == w.log.reports[..w.log.gone] + [w.log.reports[w.log.gone]];
    hide R.Logged, Queued;
  }

  lemma LoggedKeepsGone(log: R.Log, queue: Queue, r: Report)
    requires R.Holds(queue, log)
    ensures R.Logged(log, r).gone == log.gone && R.Logged(log, r).reports[..log.gone] == log.reports[..log.gone]
  {
  }

  lemma HostKeepsAccounts(w: World, r: Report)
    requires Accounted(w)
    ensures Accounted(Next(w, Host(r)))
  {
    R.QueueingHolds(w.k.queue, w.log, r);
    LoggedKeepsGone(w.log, w.k.queue, r);
    hide R.Holds, R.Logged, Queued;
  }

  lemma ResponseKeepsAccounts(w: World, started: bool)
    requires Accounted(w)
    ensures Accounted(Next(w, Serve(started)))
  {
    R.OthersHold(w.k.queue, w.log);
    hide R.Holds;
  }

  lemma RadioKeepsAccounts(w: World, e: Event)
    requires Accounted(w) && (e.Turnaround? || e.Hear? || e.TxEnd? || e.Rearm? || e.ForceRelease?)
    ensures Accounted(Next(w, e))
  {
    hide R.Holds;
  }

  lemma SessionKeepsAccounts(w: World, e: Event)
    requires Accounted(w) && (e.Lapse? || e.Leave? || e.Rest? || e.Connect? || e.Discard?)
    ensures Accounted(Next(w, e))
  {
    R.OthersHold(w.k.queue, w.log);
    R.OthersHold(Forgotten(w.k.queue), R.Lost(w.log));
    hide R.Holds;
  }

  lemma NextKeepsAccounts(w: World, e: Event)
    requires Accounted(w)
    ensures Accounted(Next(w, e))
  {
    hide Next, Accounted;
    match e
    case Host(r) => HostKeepsAccounts(w, r);
    case Poll(rx) => PollKeepsAccounts(w, rx);
    case Serve(started) => ResponseKeepsAccounts(w, started);
    case _ =>
      if e.Lapse? || e.Leave? || e.Rest? || e.Connect? || e.Discard? {
        SessionKeepsAccounts(w, e);
      } else {
        RadioKeepsAccounts(w, e);
      }
  }

  // ---------------------------------------------------------------- the logs

  /** The poll retires an entry the dongle has never heard. */
  predicate RetiresUnheard(w: World, e: Event) { e.Poll? && Retires(w) && !w.headKnown }

  lemma HearKeepsLog(w: World)
    requires LogInv(w) && Enabled(w, Hear)
    ensures Stutters(Next(w, Hear).received, HeardEntries(Next(w, Hear)))
  {
    if w.radio.frame.Hid? {
      var head := w.k.queue.entries[0];
      var w' := Next(w, Hear);
      StuttersGrow(w.received, HeardEntries(w), head);
      if w.headKnown {
        assert HeardEntries(w') == HeardEntries(w) && HeardEntries(w)[|w.retired|] == head;
      } else {
        assert HeardEntries(w') == HeardEntries(w) + [head];
      }
    } else {
      assert w.received + [] == w.received;
    }
  }

  lemma PollKeepsLog(w: World, rx: bv8)
    requires LogInv(w) && Enabled(w, Poll(rx)) && !RetiresUnheard(w, Poll(rx))
    ensures Stutters(Next(w, Poll(rx)).received, HeardEntries(Next(w, Poll(rx))))
  {
    PollKeepsAir(w, rx);
    PollLogs(w, rx);
    hide Stutters, PollCaught, Bit0;
    assert HeardEntries(Next(w, Poll(rx))) == HeardEntries(w);
  }

  lemma PollLogs(w: World, rx: bv8)
    requires AirInv(w) && Enabled(w, Poll(rx))
    ensures var w' := Next(w, Poll(rx));
            && w'.received == w.received
            && (if Retires(w) then w'.retired == w.retired + [w.k.queue.entries[0]] && !w'.headKnown
                else w'.retired == w.retired && w'.headKnown == w.headKnown)
  {
    PollKeepsAir(w, rx);
    assert w.retired + [] == w.retired;
    hide PollCaught, Stutters, Bit0;
  }

  lemma OthersKeepLog(w: World, e: Event)
    requires LogInv(w) && Enabled(w, e) && !e.Poll? && !e.Hear?
    ensures Stutters(Next(w, e).received, HeardEntries(Next(w, e)))
  {
    assert Stutters([], []);
    if e.Host? {
      QueueingKeepsHead(w.k.queue, e.r);
    }
    hide Stutters, Queued, Bit0;
    if !e.Discard? {
      assert HeardEntries(Next(w, e)) == HeardEntries(w);
    }
  }

  lemma NextKeepsLog(w: World, e: Event)
    requires LogInv(w) && Enabled(w, e) && !RetiresUnheard(w, e)
    ensures LogInv(Next(w, e))
  {
    NextKeepsAir(w, e);
    hide Next, AirInv, HeardEntries, Stutters, RetiresUnheard;
    match e
    case Poll(rx) => PollKeepsLog(w, rx);
    case Hear => HearKeepsLog(w);
    case _ => OthersKeepLog(w, e);
  }

  // ---------------------------------------------------------------- whole runs

  function After(events: seq<Event>): World
  {
    if events == [] then START
    else
      var w := After(events[..|events| - 1]);
      var e := events[|events| - 1];
      if Enabled(w, e) then Next(w, e) else w
  }

  lemma {:induction false} AfterIsAccounted(events: seq<Event>)
    ensures Accounted(After(events))
  {
    if events != [] {
      hide Accounted, Next, Enabled;
      AfterIsAccounted(events[..|events| - 1]);
      NextKeepsAccounts(After(events[..|events| - 1]), events[|events| - 1]);
    } else {
      hide After;
    }
  }

  lemma {:induction false} AfterKeepsAir(events: seq<Event>)
    ensures AirInv(After(events))
  {
    if events != [] {
      hide AirInv, Next, Enabled;
      var n := |events| - 1;
      AfterKeepsAir(events[..n]);
      if Enabled(After(events[..n]), events[n]) {
        NextKeepsAir(After(events[..n]), events[n]);
      }
    }
  }

  /** The law of the control bit, over every run: whatever polls and responses are lost, late or doubled, a caught
      poll retires the head if and only if the head is in flight and the dongle has heard an odd number of
      responses since the poll before. */
  lemma RetiresByParity(events: seq<Event>, rx: bv8)
    requires Enabled(After(events), Poll(rx))
    ensures var w := After(events);
            var q, q' := w.k.queue, Next(w, Poll(rx)).k.queue;
            if q.headSent && w.hears % 2 == 1 then q.entries != [] && q'.entries == q.entries[1..]
            else q'.entries == q.entries
  {
    AfterKeepsAir(events);
    PollKeepsAir(After(events), rx);
  }

  /** When an entry is retired unheard, over every run: only when two or more responses were started for one poll,
      the last one heard being a keepalive. */
  lemma UnheardTakesTwoResponses(events: seq<Event>, e: Event)
    requires Enabled(After(events), e) && RetiresUnheard(After(events), e)
    ensures After(events).sends >= 2 && !After(events).heardHead
  {
    hide After, AirInv, Enabled, RetiresUnheard;
    AfterKeepsAir(events);
    UnheardAfterTwo(After(events), e);
  }

  lemma UnheardAfterTwo(w: World, e: Event)
    requires AirInv(w) && Enabled(w, e) && RetiresUnheard(w, e)
    ensures w.sends >= 2 && !w.heardHead
  {
  }

  /** No poll of the run has more than n responses started for it, which the module can see to. */
  predicate ResponsesWithin(events: seq<Event>, n: nat)
  {
    After(events).sends <= n && (events == [] || ResponsesWithin(events[..|events| - 1], n))
  }

  /** With one response per poll the acknowledgement is exact: a caught poll retires the head if and only if the
      dongle has heard the head in answer to the poll before. */
  lemma RetiresExactlyWhatWasHeard(events: seq<Event>, rx: bv8)
    requires ResponsesWithin(events, 1) && Enabled(After(events), Poll(rx))
    ensures var w := After(events);
            var q, q' := w.k.queue, Next(w, Poll(rx)).k.queue;
            if w.heardHead then q.entries != [] && q'.entries == q.entries[1..] else q'.entries == q.entries
  {
    hide After, AirInv, Enabled, Next;
    AfterKeepsAir(events);
    assert After(events).sends <= 1;
    ExactWithOne(After(events), rx);
  }

  lemma ExactWithOne(w: World, rx: bv8)
    requires AirInv(w) && w.sends <= 1 && Enabled(w, Poll(rx))
    ensures var q, q' := w.k.queue, Next(w, Poll(rx)).k.queue;
            if w.heardHead then q.entries != [] && q'.entries == q.entries[1..] else q'.entries == q.entries
  {
    PollKeepsAir(w, rx);
  }

  /** No poll of the run retired an entry the dongle had not heard. */
  predicate NoneUnheard(events: seq<Event>)
  {
    if events == [] then true
    else
      var n := |events| - 1;
      && NoneUnheard(events[..n])
      && (Enabled(After(events[..n]), events[n]) ==> !RetiresUnheard(After(events[..n]), events[n]))
  }

  lemma {:induction false} OneResponseIsHeard(events: seq<Event>)
    requires ResponsesWithin(events, 1)
    ensures NoneUnheard(events)
  {
    if events != [] {
      hide Next, RetiresUnheard, AirInv;
      var n := |events| - 1;
      OneResponseIsHeard(events[..n]);
      assert ResponsesWithin(events[..n], 1);
      if Enabled(After(events[..n]), events[n]) && RetiresUnheard(After(events[..n]), events[n]) {
        UnheardTakesTwoResponses(events[..n], events[n]);
      }
    }
  }

  lemma {:induction false} AfterKeepsLog(events: seq<Event>)
    requires NoneUnheard(events)
    ensures LogInv(After(events))
  {
    assert LogInv(START);
    if events != [] {
      hide LogInv, Next, Enabled, RetiresUnheard;
      var n := |events| - 1;
      AfterKeepsLog(events[..n]);
      if Enabled(After(events[..n]), events[n]) {
        NextKeepsLog(After(events[..n]), events[n]);
      }
    }
  }

  /** Adjacent repeats merged. */
  function Collapsed(s: seq<Report>): seq<Report>
  {
    if |s| <= 1 then s
    else
      var n := |s| - 1;
      if s[n] == s[n - 1] then Collapsed(s[..n]) else Collapsed(s[..n]) + [s[n]]
  }

  lemma {:induction false} StutterCollapses(received: seq<Report>, sent: seq<Report>)
    requires Stutters(received, sent)
    ensures Collapsed(received) == Collapsed(sent)
    decreases |received|
  {
    if received != [] {
      var n, m := |received| - 1, |sent| - 1;
      if Stutters(received[..n], sent) {
        StutterCollapses(received[..n], sent);
      } else {
        StutterCollapses(received[..n], sent[..m]);
      }
    }
  }

  lemma {:induction false} CollapsedPrefix(s: seq<Report>, t: seq<Report>)
    ensures Collapsed(s) <= Collapsed(s + t)
  {
    if t == [] {
      assert s + t == s;
    } else {
      var n := |t| - 1;
      CollapsedPrefix(s, t[..n]);
      assert (s + t)[..|s + t| - 1] == s + t[..n];
    }
  }

  lemma DeliveredInOrder(w: World)
    requires Accounted(w) && (w.headKnown ==> w.k.queue.entries != [])
    requires Stutters(w.received, HeardEntries(w))
    ensures Collapsed(w.received) <= Collapsed(w.log.reports)
    ensures Collapsed(w.retired) <= Collapsed(w.received)
    ensures w.retired + w.k.queue.entries == w.log.reports
  {
    StutterCollapses(w.received, HeardEntries(w));
    var known := if w.headKnown then [w.k.queue.entries[0]] else [];
    var rest := if w.headKnown then w.k.queue.entries[1..] else w.k.queue.entries;
    assert w.retired + w.k.queue.entries == w.log.reports;
    assert w.retired + known + rest == w.retired + w.k.queue.entries;
    CollapsedPrefix(w.retired + known, rest);
    CollapsedPrefix(w.retired, known);
  }

  /** Over every run in which no poll retires an unheard entry, through losses of polls and responses, session drops
      and reconnects: what the dongle has received since the last discard is what the host has reported, in order
      and with nothing missing, once adjacent repeats are merged. What is reported and not yet retired is waiting in
      the ring, and what is retired has been received. */
  lemma ReceivedIsPrefixUnlessUnheard(events: seq<Event>)
    requires NoneUnheard(events)
    ensures var w := After(events);
            && Collapsed(w.received) <= Collapsed(w.log.reports)
            && Collapsed(w.retired) <= Collapsed(w.received)
            && w.retired + w.k.queue.entries == w.log.reports
  {
    AfterKeepsLog(events);
    AfterIsAccounted(events);
    DeliveredInOrder(After(events));
  }

  /** ... and so it is whenever the module starts no second response for a poll. */
  lemma ReceivedIsPrefixOfQueued(events: seq<Event>)
    requires ResponsesWithin(events, 1)
    ensures var w := After(events);
            && Collapsed(w.received) <= Collapsed(w.log.reports)
            && Collapsed(w.retired) <= Collapsed(w.received)
            && w.retired + w.k.queue.entries == w.log.reports
  {
    OneResponseIsHeard(events);
    ReceivedIsPrefixUnlessUnheard(events);
  }

  // ---------------------------------------------------------------- why one response is the limit

  const KEY: Report := [0, 0, 4, 0, 0, 0, 0, 0]

  lemma AfterOneMore(events: seq<Event>, e: Event)
    ensures After(events + [e]) == if Enabled(After(events), e) then Next(After(events), e) else After(events)
  {
    assert (events + [e])[..|events|] == events;
  }

  /** The main loop gave up on the first poll, whose response event is still posted, and caught another. */
  const STALE_RESPONSE := START.(
    k := POWER_UP.(responsePending := true, responseCtrl := 0x02), up := true, radio := Listening,
    turnaround := true, respond := true, synced := true)

  const GIVES_UP := [Connect(false)] + [Poll(0)] + [Turnaround] + [ForceRelease] + [Rearm] + [Poll(0)]

  lemma {:induction false} OneMoreWithin(events: seq<Event>, e: Event, n: nat)
    requires ResponsesWithin(events, n) && Enabled(After(events), e) && Next(After(events), e).sends <= n
    ensures ResponsesWithin(events + [e], n) && After(events + [e]) == Next(After(events), e)
  {
    AfterOneMore(events, e);
    assert (events + [e])[..|events|] == events;
  }

  lemma StaleResponseReached()
    ensures ResponsesWithin(GIVES_UP, 2) && After(GIVES_UP) == STALE_RESPONSE
  {
    var e1 := [Connect(false)];
    OneMoreWithin([], Connect(false), 2);
    assert [] + [Connect(false)] == e1;
    OneMoreWithin(e1, Poll(0), 2);
    var e3 := e1 + [Poll(0)] + [Turnaround];
    OneMoreWithin(e1 + [Poll(0)], Turnaround, 2);
    OneMoreWithin(e3, ForceRelease, 2);
    OneMoreWithin(e3 + [ForceRelease], Rearm, 2);
    OneMoreWithin(e3 + [ForceRelease] + [Rearm], Poll(0), 2);
  }

  /** From there the keepalive sent for the stale event is heard, and the poll's own event sends a key, which is
      not. */
  const LATE_FINISH :=
    GIVES_UP + [Serve(true)] + [Hear] + [Turnaround] + [Host(KEY)] + [Serve(true)] + [Rearm]

  const KEY_SENT := START.(
    k := Keyboard(Queue([KEY], true, KEY, true), 0x02, true, 0x02), up := true, radio := Listening, dongle := true,
    synced := true, sends := 2, hears := 1, log := R.Log([KEY], 0, Some(KEY), false))

  lemma KeySentUnheard()
    ensures ResponsesWithin(LATE_FINISH, 2) && After(LATE_FINISH) == KEY_SENT
  {
    StaleResponseReached();
    hide GIVES_UP;
    var e := GIVES_UP;
    OneMoreWithin(e, Serve(true), 2);
    OneMoreWithin(e + [Serve(true)], Hear, 2);
    var e2 := e + [Serve(true)] + [Hear];
    OneMoreWithin(e2, Turnaround, 2);
    OneMoreWithin(e2 + [Turnaround], Host(KEY), 2);
    assert Queued(EMPTY, KEY) == Queue([KEY], false, KEY, true);
    OneMoreWithin(e2 + [Turnaround] + [Host(KEY)], Serve(true), 2);
    OneMoreWithin(e2 + [Turnaround] + [Host(KEY)] + [Serve(true)], Rearm, 2);
  }

  /** A run from power-up, with two responses to one poll and no more, in which the next poll retires a key the
      dongle has never heard. */
  lemma LateFinishLosesAReport()
    ensures ResponsesWithin(LATE_FINISH, 2)
    ensures Enabled(After(LATE_FINISH), Poll(1)) && RetiresUnheard(After(LATE_FINISH), Poll(1))
    ensures var w := After(LATE_FINISH + [Poll(1)]);
            w.retired == [KEY] && w.k.queue.entries == [] && w.received == []
  {
    KeySentUnheard();
    AfterOneMore(LATE_FINISH, Poll(1));
  }

  lemma {:induction false} WithinMore(events: seq<Event>, n: nat, m: nat)
    requires ResponsesWithin(events, n) && n <= m
    ensures ResponsesWithin(events, m)
  {
    if events != [] {
      WithinMore(events[..|events| - 1], n, m);
    }
  }

  predicate HeardWithin(events: seq<Event>, n: nat) { ResponsesWithin(events, n) ==> NoneUnheard(events) }

  /** The limit, exactly: runs with up to n responses to a poll retire nothing unheard if and only if n is at
      most one. */
  lemma OneResponseExact(n: nat)
    ensures (forall events :: HeardWithin(events, n)) <==> n <= 1
  {
    if n <= 1 {
      forall events ensures HeardWithin(events, n) {
        if ResponsesWithin(events, n) {
          WithinMore(events, n, 1);
          OneResponseIsHeard(events);
        }
      }
    } else {
      var run := LATE_FINISH + [Poll(1)];
      LateFinishLosesAReport();
      WithinMore(LATE_FINISH, 2, n);
      AfterOneMore(LATE_FINISH, Poll(1));
      assert run[..|run| - 1] == LATE_FINISH;
      assert !HeardWithin(run, n);
    }
  }
}
