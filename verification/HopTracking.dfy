/** Channel tracking over whole connections, from the pair reply on: the hop keeps step with elapsed time
    through any pattern of missed polls, a response in flight cannot starve it, and the servo keeps the phase
    against a dongle that polls on an exact grid. */
module HopTracking {
  import opened Words
  import opened HopClock

  datatype Event =
    | Poll(t: int, len: nat)          // a poll is caught
    | Done(t: int)                    // the response is over
    | Tick(checked: int, t: int)      // RF_ConnectedTick, with its two clock reads; only the first if held

  datatype Track = Track(
    h: Hop,
    now: int,                 // the latest read of the clock
    lastTick: int,            // the latest tick
    ticked: int,              // the latest tick that was not held
    startIdx: nat,
    startAnchor: int,
    parked: nat,              // intervals the anchor was moved on while parked
    slots: nat,               // places the channel index has moved on
    polls: nat,               // polls caught
    pulls: int,               // what the servo has added to the anchor
    rollbacks: nat)           // ticks taken back on the slot after a poll

  predicate Unheld(k: Track, e: Event) { e.Tick? && !Held(k.h, e.checked) }

  function NextTick(k: Track, t: int): Track
    requires k.h.Valid()
  {
    var elapsed := t - k.h.anchor;
    var moved := k.(h := Hopped(Answered(k.h), t), now := t, lastTick := t, ticked := t);
    if k.h.provisional then
      moved.(parked := k.parked + if elapsed > k.h.interval then 1 else 0)
    else
      var step := Step(elapsed, k.h.interval);
      moved.(slots := k.slots + step,
             rollbacks := k.rollbacks + if step == 1 && k.h.sinceRx == 1 then 1 else 0)
  }

  function Next(k: Track, e: Event): Track
    requires k.h.Valid()
  {
    match e
    case Poll(t, len) =>
      k.(h := Caught(k.h, t, len), now := t, polls := k.polls + 1,
         pulls := k.pulls + Pull(k.h.anchor, t - Latency(len)))
    case Done(t) => k.(h := Answered(k.h), now := t)
    case Tick(checked, t) =>
      if Held(k.h, checked) then k.(now := checked, lastTick := checked) else NextTick(k, t)
  }

  /** Reads do not step back, polls have the lengths the callback accepts, and some tick that is not held
      comes at least every five intervals, or every interval while parked. */
  predicate Timely(k: Track, e: Event)
  {
    match e
    case Poll(t, len) => k.now <= t && len <= 10 && t - k.ticked <= 5 * k.h.interval
    case Done(t) => k.now <= t && t - k.ticked <= 5 * k.h.interval
    case Tick(checked, t) =>
      k.now <= checked <= t && t - k.ticked <= (if k.h.provisional then 1 else 5) * k.h.interval
  }

  predicate InStep(k: Track)
  {
    && k.h.Valid() && k.ticked <= k.now
    && (k.h.provisional ==> !k.h.responsePending)
    && 0 <= k.now - k.h.anchor <= k.h.interval + (k.now - k.ticked)
    && k.h.idx == (k.startIdx + k.slots) % CHANNELS
  }

  /** The anchor has moved by whole intervals, one for each place the index has moved and each parked slot, and
      by at most one tick a poll either way from the servo and one a poll back from the rollback. */
  predicate Accounted(k: Track)
  {
    && k.h.anchor == k.startAnchor + (k.parked + k.slots) * k.h.interval + k.pulls - k.rollbacks
    && 0 - k.polls <= k.pulls <= k.polls
    && k.rollbacks + (if k.h.sinceRx <= 1 && !k.h.provisional then 1 else 0) <= k.polls
  }

  lemma TickKeepsInStep(k: Track, t: int)
    requires InStep(k) && k.now <= t && t - k.ticked <= (if k.h.provisional then 1 else 5) * k.h.interval
    ensures InStep(NextTick(k, t))
    ensures 0 <= t - NextTick(k, t).h.anchor <= k.h.interval && !NextTick(k, t).h.responsePending
  {
    if k.h.provisional {
    } else {
      TrackingTickKeepsInStep(k, t);
      hide NextTick;
    }
  }

  lemma TrackingTickKeepsInStep(k: Track, t: int)
    requires InStep(k) && !k.h.provisional && k.now <= t && t - k.ticked <= 5 * k.h.interval
    ensures InStep(NextTick(k, t))
    ensures 0 <= t - NextTick(k, t).h.anchor <= k.h.interval && !NextTick(k, t).h.responsePending
  {
    var elapsed := t - k.h.anchor;
    if elapsed > k.h.interval {
      StepRange(elapsed, k.h.interval);
      hide Step;
    }
  }

  lemma NextKeepsInStep(k: Track, e: Event)
    requires InStep(k) && Timely(k, e)
    ensures InStep(Next(k, e))
    ensures Unheld(k, e) ==> 0 <= e.t - Next(k, e).h.anchor <= k.h.interval && !Next(k, e).h.responsePending
  {
    hide NextTick;
    if Unheld(k, e) {
      TickKeepsInStep(k, e.t);
    }
  }

  /** The desync branch is never taken on a connection ticked in time. */
  lemma NeverDesyncs(k: Track, e: Event)
    requires InStep(k) && Timely(k, e)
    ensures e.t - k.h.anchor <= 6 * k.h.interval
  {
  }

  /** What a hop adds to the anchor. */
  lemma HopMoves(k: Track, t: int)
    requires k.h.Valid() && t - k.h.anchor <= 6 * k.h.interval
    ensures var k' := NextTick(k, t);
            && k'.h.anchor - k.h.anchor ==
                 (k'.parked + k'.slots - k.parked - k.slots) * k.h.interval - (k'.rollbacks - k.rollbacks)
            && k.rollbacks <= k'.rollbacks && k'.h.provisional == k.h.provisional
            && (k'.h.sinceRx == k.h.sinceRx || k'.h.sinceRx > k.h.sinceRx)
            && (k'.rollbacks > k.rollbacks ==>
                  !k.h.provisional && k.h.sinceRx == 1 && k'.h.sinceRx == 2 && k'.rollbacks == k.rollbacks + 1)
  {
  }

  lemma TickKeepsAccounts(k: Track, t: int)
    requires k.h.Valid() && t - k.h.anchor <= 6 * k.h.interval && Accounted(k)
    ensures Accounted(NextTick(k, t))
  {
    HopMoves(k, t);
    hide Hopped, Step;
    var k' := NextTick(k, t);
    var more := k'.parked + k'.slots - k.parked - k.slots;
    assert (k.parked + k.slots + more) * k.h.interval == (k.parked + k.slots) * k.h.interval + more * k.h.interval;
  }

  lemma NextKeepsAccounts(k: Track, e: Event)
    requires InStep(k) && Timely(k, e) && Accounted(k)
    ensures Accounted(Next(k, e))
  {
    if Unheld(k, e) {
      TickKeepsAccounts(k, e.t);
    }
  }

  function Run(k: Track, events: seq<Event>): (k': Track)
    requires k.h.Valid()
    ensures k'.h.Valid() && k'.h.interval == k.h.interval && k'.startIdx == k.startIdx
    ensures k'.startAnchor == k.startAnchor
  {
    if events == [] then k
    else Next(Run(k, events[..|events| - 1]), events[|events| - 1])
  }

  predicate AllTimely(k: Track, events: seq<Event>)
    requires k.h.Valid()
  {
    if events == [] then true
    else
      var n := |events| - 1;
      AllTimely(k, events[..n]) && Timely(Run(k, events[..n]), events[n])
  }

  /** A connection just made at time t, parked; its first tick is due an interval from now, or from the end of
      the pair reply's slot if that is past. */
  function Seeded(h: Hop, t: int): Track
  {
    var ticked := if t - h.anchor > h.interval then h.anchor + h.interval else t;
    Track(h, t, ticked, ticked, h.idx, h.anchor, 0, 0, 0, 0, 0)
  }

  predicate Fresh(h: Hop, t: int)
  {
    h.Valid() && h.provisional && !h.responsePending && h.sinceRx == 0 && h.anchor <= t
  }

  lemma {:induction false} RunKeepsInStep(k: Track, events: seq<Event>)
    requires InStep(k) && Accounted(k) && AllTimely(k, events)
    ensures InStep(Run(k, events)) && Accounted(Run(k, events))
  {
    if events != [] {
      var n := |events| - 1;
      RunKeepsInStep(k, events[..n]);
      NextKeepsInStep(Run(k, events[..n]), events[n]);
      NextKeepsAccounts(Run(k, events[..n]), events[n]);
    }
  }

  /** What tracking means after an event: the anchor is not ahead of the present, a tick that is not held
      leaves it at most an interval behind, and the channel index has moved by as many places as the anchor,
      the parked slots and a bounded drift apart, has moved intervals. */
  predicate Tracks(k: Track, e: Event)
    requires k.h.Valid()
  {
    var k' := Next(k, e);
    var drift := k'.h.anchor - k'.startAnchor - (k'.parked + k'.slots) * k'.h.interval;
    && k'.h.anchor <= k'.now
    && (Unheld(k, e) ==> e.t - k'.h.anchor <= k'.h.interval)
    && k'.h.idx == (k'.startIdx + k'.slots) % CHANNELS
    && -2 * k'.polls <= drift <= k'.polls
  }

  lemma NextTracks(k: Track, e: Event)
    requires InStep(k) && Accounted(k) && Timely(k, e)
    ensures Tracks(k, e)
  {
    NextKeepsInStep(k, e);
    NextKeepsAccounts(k, e);
    hide NextTick;
  }

  lemma SeededInStep(h: Hop, t: int)
    requires Fresh(h, t)
    ensures InStep(Seeded(h, t)) && Accounted(Seeded(h, t))
  {
  }

  /** From the making of the connection on, parked or not, through any polls caught or missed and at any
      polling times. */
  lemma HopKeepsStep(h: Hop, t: int, events: seq<Event>, e: Event)
    requires Fresh(h, t)
    requires AllTimely(Seeded(h, t), events) && Timely(Run(Seeded(h, t), events), e)
    ensures Tracks(Run(Seeded(h, t), events), e)
  {
    SeededInStep(h, t);
    hide InStep, Accounted, Tracks, Fresh, Seeded, Timely;
    RunKeepsInStep(Seeded(h, t), events);
    NextTracks(Run(Seeded(h, t), events), e);
  }

  /** The limit on a parked tick is needed: ticks an interval and `late` apart lose `late` each, for good. */
  function LateTicks(t: int, d: nat, n: nat): (events: seq<Event>)
    ensures |events| == n
  {
    if n == 0 then [] else LateTicks(t, d, n - 1) + [Tick(t + n * d, t + n * d)]
  }

  /** A tick of a parked connection more than an interval behind. */
  lemma ParkedTick(k: Track, t: int)
    requires k.h.Valid() && k.h.provisional && !k.h.responsePending && t - k.h.anchor > k.h.interval
    ensures Next(k, Tick(t, t)) == k.(h := k.h.(anchor := k.h.anchor + k.h.interval), now := t, lastTick := t,
                                      ticked := t, parked := k.parked + 1)
  {
  }

  lemma LateTimes(interval: nat, late: nat, n: nat)
    requires 0 < n && 0 < late
    ensures n * (interval + late) == n * interval + n * late && (n - 1) * interval + interval == n * interval
    ensures late <= n * late
  {
    assert (n - 1) * late >= 0;
  }

  lemma {:induction false} LateTicksLoseThePark(h: Hop, late: nat, n: nat)
    requires Fresh(h, h.anchor) && 0 < late
    ensures var k := Run(Seeded(h, h.anchor), LateTicks(h.anchor, h.interval + late, n));
            && k.h.provisional && !k.h.responsePending
            && k.h.anchor == h.anchor + n * h.interval && k.now == k.h.anchor + n * late
  {
    if n > 0 {
      LateTicksLoseThePark(h, late, n - 1);
      LateTickLosesMore(h, late, n);
    }
  }

  lemma LateTickLosesMore(h: Hop, late: nat, n: nat)
    requires Fresh(h, h.anchor) && 0 < late && 0 < n
    requires var k := Run(Seeded(h, h.anchor), LateTicks(h.anchor, h.interval + late, n - 1));
             k.h.provisional && !k.h.responsePending && k.h.anchor == h.anchor + (n - 1) * h.interval
    ensures var k := Run(Seeded(h, h.anchor), LateTicks(h.anchor, h.interval + late, n));
            && k.h.provisional && !k.h.responsePending
            && k.h.anchor == h.anchor + n * h.interval && k.now == k.h.anchor + n * late
  {
    hide Next;
    var events := LateTicks(h.anchor, h.interval + late, n);
    var t := h.anchor + n * (h.interval + late);
    assert events[..n - 1] == LateTicks(h.anchor, h.interval + late, n - 1) && events[n - 1] == Tick(t, t);
    LateTimes(h.interval, late, n);
    ParkedTick(Run(Seeded(h, h.anchor), events[..n - 1]), t);
  }

  // ---------------------------------------------------------------- the hold

  /** RF_ConnectedTick is called at least every d ticks, and no poll is caught within two intervals and d of
      the one before unless the latest tick was not held. (While held, the module stays on one channel, to which
      the dongle returns every five intervals.) */
  predicate Spaced(k: Track, e: Event, d: nat)
  {
    match e
    case Poll(t, len) =>
      && k.now <= t <= k.lastTick + d && len <= 10
      && (k.ticked == k.lastTick || t - k.h.armedAt > 2 * k.h.interval + d)
    case Done(t) => k.now <= t <= k.lastTick + d
    case Tick(checked, t) => k.now <= checked <= t <= k.lastTick + d
  }

  predicate AllSpaced(k: Track, events: seq<Event>, d: nat)
    requires k.h.Valid()
  {
    if events == [] then true
    else
      var n := |events| - 1;
      AllSpaced(k, events[..n], d) && Spaced(Run(k, events[..n]), events[n], d)
  }

  /** Ticks have been held only for a response armed within d of the last that was not. */
  predicate HoldInv(k: Track, d: nat)
  {
    && k.h.Valid()
    && (k.h.provisional ==> !k.h.responsePending && k.ticked == k.lastTick)
    && (k.h.responsePending || k.ticked != k.lastTick ==> k.h.armedAt <= k.ticked + d)
    && (k.ticked != k.lastTick ==> k.lastTick <= k.h.armedAt + 2 * k.h.interval)
  }

  lemma NextKeepsHoldInv(k: Track, e: Event, d: nat)
    requires HoldInv(k, d) && Spaced(k, e, d)
    ensures HoldInv(Next(k, e), d)
    ensures e.t - k.ticked <= 2 * k.h.interval + 2 * d
    ensures d <= k.h.interval ==> Timely(k, e)
  {
  }

  lemma {:induction false} RunKeepsHoldInv(k: Track, events: seq<Event>, d: nat)
    requires HoldInv(k, d) && AllSpaced(k, events, d)
    ensures HoldInv(Run(k, events), d)
    ensures d <= k.h.interval ==> AllTimely(k, events)
  {
    if events != [] {
      var n := |events| - 1;
      RunKeepsHoldInv(k, events[..n], d);
      NextKeepsHoldInv(Run(k, events[..n]), events[n], d);
    }
  }

  /** A response in flight cannot starve the hop: with ticks d apart, one that is not held comes at least every
      two intervals and two d. So for d up to an interval every such run is timely, and the hop keeps step. */
  lemma HoldCannotStarveTheHop(h: Hop, t: int, events: seq<Event>, e: Event, d: nat)
    requires Fresh(h, t)
    requires AllSpaced(Seeded(h, t), events, d) && Spaced(Run(Seeded(h, t), events), e, d)
    ensures e.t - Run(Seeded(h, t), events).ticked <= 2 * h.interval + 2 * d
    ensures d <= h.interval ==> Tracks(Run(Seeded(h, t), events), e)
  {
    RunKeepsHoldInv(Seeded(h, t), events, d);
    NextKeepsHoldInv(Run(Seeded(h, t), events), e, d);
    if d <= h.interval {
      HopKeepsStep(h, t, events, e);
    }
  }

  // ---------------------------------------------------------------- what a pending response is owed

  /** Ticks only, each with its check read by `until`. */
  predicate TicksBy(events: seq<Event>, until: int)
  {
    forall i :: 0 <= i < |events| ==> events[i].Tick? && events[i].checked <= until
  }

  lemma {:induction false} HoldLasts(k: Track, t0: int, len: nat, events: seq<Event>)
    requires k.h.Valid() && TicksBy(events, t0 + 2 * k.h.interval)
    ensures Run(Next(k, Poll(t0, len)), events).h == Next(k, Poll(t0, len)).h
  {
    if events != [] {
      HoldLasts(k, t0, len, events[..|events| - 1]);
    }
  }

  /** The radio is the response's for two intervals, and for no longer: after a poll caught at t0 and any ticks that
      read the clock by t0 + 2 * interval, one more such tick changes nothing of the hop, the pending response
      included, and one that reads it later takes the response for lost. A response that is done is not waited
      for. */
  lemma HoldExactly(k: Track, t0: int, len: nat, events: seq<Event>, checked: int, t: int)
    requires k.h.Valid() && TicksBy(events, t0 + 2 * k.h.interval)
    ensures var held := Run(Next(k, Poll(t0, len)), events);
            var after := Next(held, Tick(checked, t)).h;
            && held.h.responsePending
            && (if checked <= t0 + 2 * k.h.interval then after == held.h else !after.responsePending)
            && Next(Next(held, Done(t0)), Tick(checked, t)).ticked == t
  {
    HoldLasts(k, t0, len, events);
  }

  /** The servo closes in on the poll, one tick at a time, until it is one away: a poll began 12 ticks before its
      callback, one of LEN 10 a tick earlier still. */
  lemma ServoClosesIn(h: Hop, t: int, len: nat)
    requires len == 1 || len == 3 || len == 10
    ensures var began := t - if len == 10 then 13 else 12;
            var anchor := Caught(h, t, len).anchor;
            && Abs(anchor - h.anchor) <= 1
            && Abs(began - anchor) == Abs(began - h.anchor) - if Abs(began - h.anchor) > 1 then 1 else 0
  {
  }

  /** A late tick on a tracked connection: up to 64 intervals behind, index and anchor move on together by whole
      intervals, as many as fit short of the present but at most five; past that the phase alone starts afresh, 13
      ticks back, and the channel stays. */
  lemma LateTickCatchesUp(h: Hop, t: int, places: nat)
    requires h.Valid() && !h.provisional && !h.responsePending && t - h.anchor > h.interval
    requires places <= CHANNELS && h.interval * places <= t - h.anchor
    requires places == CHANNELS || t - h.anchor < h.interval * places + h.interval
    ensures var h' := Ticked(h, t, t);
            if t - h.anchor <= 64 * h.interval then
              && h'.idx == (h.idx + places) % CHANNELS && 1 <= places
              && h'.anchor == h.anchor + h.interval * places - if places == 1 && h.sinceRx == 1 then 1 else 0
            else h'.idx == h.idx && h'.anchor == t - 13
  {
    PlacesAreSteps(t - h.anchor, h.interval, places);
    hide Step;
  }

  lemma Quotient(elapsed: int, interval: nat, q: int)
    requires 0 < interval && q * interval <= elapsed < q * interval + interval
    ensures elapsed / interval == q
  {
    var d := elapsed / interval - q;
    assert d * interval == elapsed / interval * interval - q * interval;
    assert d >= 1 ==> d * interval >= interval;
    assert d <= -1 ==> d * interval <= 0 - interval;
  }

  lemma FiveOrMore(elapsed: int, interval: nat)
    requires 0 < interval && 5 * interval <= elapsed
    ensures elapsed / interval >= 5
  {
    var q := elapsed / interval;
    assert elapsed == q * interval + elapsed % interval;
    assert q <= 4 ==> q * interval <= 4 * interval;
  }

  lemma PlacesAreSteps(elapsed: int, interval: nat, places: nat)
    requires 0 < interval < elapsed && places <= CHANNELS && interval * places <= elapsed
    requires places == CHANNELS || elapsed < interval * places + interval
    ensures Step(elapsed, interval) == places && 1 <= places
  {
    if places == CHANNELS {
      FiveOrMore(elapsed, interval);
    } else {
      Quotient(elapsed, interval, places);
    }
  }

  function TicksAt(h: Hop, t: int, n: nat): (h': Hop)
    requires h.Valid()
    ensures h'.Valid() && h'.interval == h.interval
  {
    if n == 0 then h else Ticked(TicksAt(h, t, n - 1), t, t)
  }

  /** At time t the anchor is no more than an interval behind, or `gained` nearer than it was. */
  predicate MadeUp(h: Hop, h': Hop, t: int, gained: int)
  {
    && h'.Valid() && h'.interval == h.interval && !h'.provisional && !h'.responsePending && 0 <= t - h'.anchor
    && (t - h'.anchor <= h.interval || t - h'.anchor <= t - h.anchor - gained)
  }

  lemma {:induction false} StallsAreMadeUp(h: Hop, t: int, n: nat)
    requires h.Valid() && !h.provisional && !h.responsePending && 0 <= t - h.anchor <= 64 * h.interval
    ensures MadeUp(h, TicksAt(h, t, n), t, 5 * h.interval * n)
  {
    if n > 0 {
      StallsAreMadeUp(h, t, n - 1);
      var before := TicksAt(h, t, n - 1);
      assert 5 * h.interval * (n - 1) + 5 * h.interval == 5 * h.interval * n;
      OnceMoreMadeUp(h, before, t, 5 * h.interval * (n - 1));
    }
  }

  lemma OnceMoreMadeUp(h: Hop, mid: Hop, t: int, gained: int)
    requires h.Valid() && t - h.anchor <= 64 * h.interval && MadeUp(h, mid, t, gained) && 0 <= gained
    ensures MadeUp(h, Ticked(mid, t, t), t, gained + 5 * h.interval)
  {
    OneTickMakesUp(mid, t);
    hide Ticked;
  }

  lemma OneTickMakesUp(h: Hop, t: int)
    requires h.Valid() && !h.provisional && !h.responsePending && 0 <= t - h.anchor <= 64 * h.interval
    ensures MadeUp(h, Ticked(h, t, t), t, 5 * h.interval)
    ensures t - h.anchor <= h.interval ==> Ticked(h, t, t) == h
  {
    if t - h.anchor > h.interval {
      StepRange(t - h.anchor, h.interval);
      if t - h.anchor > 6 * h.interval {
        FiveOrMore(t - h.anchor, h.interval);
        assert Step(t - h.anchor, h.interval) == CHANNELS;
      }
      hide Step;
    }
  }

  /** So a stall of up to 64 intervals, however many channels were missed, is made up in thirteen ticks. */
  lemma ThirteenTicksSuffice(h: Hop, t: int)
    requires h.Valid() && !h.provisional && !h.responsePending && 0 <= t - h.anchor <= 64 * h.interval
    ensures 0 <= t - TicksAt(h, t, 13).anchor <= h.interval
  {
    StallsAreMadeUp(h, t, 13);
  }

  function Abs(a: int): nat { if a < 0 then -a else a }

  // ---------------------------------------------------------------- phase against an exact-grid dongle

  /** A tracked connection beside the dongle's grid: `slot` is when the dongle begins the slot whose channel
      the keyboard's present slot is meant to be. */
  datatype Locked = Locked(k: Track, slot: int)

  predicate Near(d: int, bound: nat) { 0 - bound <= d <= bound }

  function PhaseError(l: Locked): int { l.slot - l.k.h.anchor }

  /** The dongle polls once per interval, moving one channel on each time: the poll `ahead` places on is heard
      only if it falls on the channel listened on. Its callback comes with up to `jitter` ticks of error. */
  predicate FromGrid(l: Locked, e: Event, ahead: int, jitter: nat)
  {
    e.Poll? ==>
      && ahead % CHANNELS == 0
      && Near(e.t - Latency(e.len) - (l.slot + ahead * l.k.h.interval), jitter)
  }

  function NextLocked(l: Locked, e: Event): Locked
    requires l.k.h.Valid()
  {
    var k' := Next(l.k, e);
    Locked(k', l.slot + l.k.h.interval * (k'.slots - l.k.slots))
  }

  /** Once a poll has been caught the anchor is less than `bound` late, and on the near side one tick is held
      back for the rollback that may follow the catch. */
  predicate Within(l: Locked, bound: nat)
  {
    && l.k.h.Valid() && !l.k.h.provisional
    && 1 - bound <= PhaseError(l) <= bound - if l.k.h.sinceRx <= 1 then 1 else 0
  }

  /** A multiple of five slots that is less than five slots away is none. */
  lemma NearestPlace(ahead: int, interval: nat, place: int)
    requires place == ahead * interval && ahead % CHANNELS == 0
    requires 0 - 5 * interval < place < 5 * interval
    ensures ahead == 0
  {
  }

  lemma OnlyThePresentSlot(l: Locked, e: Event, ahead: int, jitter: nat, bound: nat, gap: nat)
    requires InStep(l.k) && e.Poll? && l.k.now <= e.t && e.len <= 10
    requires FromGrid(l, e, ahead, jitter) && Within(l, bound)
    requires e.t - l.k.ticked <= gap
    requires bound + jitter + gap < 4 * l.k.h.interval + 13 && bound + jitter + 13 < 5 * l.k.h.interval
    ensures ahead == 0
  {
    NearestPlace(ahead, l.k.h.interval, ahead * l.k.h.interval);
  }

  lemma CatchKeepsPhase(l: Locked, e: Event, jitter: nat, bound: nat)
    requires l.k.h.Valid() && e.Poll? && FromGrid(l, e, 0, jitter)
    requires jitter + 2 <= bound && Near(PhaseError(l), bound)
    ensures Within(NextLocked(l, e), bound)
  {
  }

  lemma TickKeepsPhase(l: Locked, e: Event, bound: nat)
    requires InStep(l.k) && Timely(l.k, e) && !e.Poll? && Within(l, bound)
    ensures Within(NextLocked(l, e), bound)
  {
    if Unheld(l.k, e) {
      NeverDesyncs(l.k, e);
      HopMoves(l.k, e.t);
    }
  }

  datatype Heard = Heard(e: Event, ahead: int)

  function RunLocked(l: Locked, events: seq<Heard>): (l': Locked)
    requires l.k.h.Valid()
    ensures l'.k.h.Valid() && l'.k.h.interval == l.k.h.interval
  {
    if events == [] then l
    else NextLocked(RunLocked(l, events[..|events| - 1]), events[|events| - 1].e)
  }

  /** Timely events, polls off the grid only by the jitter, and a tick that is not held every `gap`. */
  predicate OnGrid(l: Locked, events: seq<Heard>, jitter: nat, gap: nat)
    requires l.k.h.Valid()
  {
    if events == [] then true
    else
      var n := |events| - 1;
      var before := RunLocked(l, events[..n]);
      && OnGrid(l, events[..n], jitter, gap)
      && Timely(before.k, events[n].e) && FromGrid(before, events[n].e, events[n].ahead, jitter)
      && events[n].e.t - before.k.ticked <= gap
  }

  lemma {:induction false} RunKeepsPhase(l: Locked, events: seq<Heard>, jitter: nat, bound: nat, gap: nat)
    requires InStep(l.k) && Within(l, bound) && jitter + 2 <= bound
    requires OnGrid(l, events, jitter, gap)
    requires bound + jitter + gap < 4 * l.k.h.interval + 13 && bound + jitter + 13 < 5 * l.k.h.interval
    ensures InStep(RunLocked(l, events).k) && Within(RunLocked(l, events), bound)
  {
    if events != [] {
      var n := |events| - 1;
      RunKeepsPhase(l, events[..n], jitter, bound, gap);
      var before := RunLocked(l, events[..n]);
      NextKeepsInStep(before.k, events[n].e);
      if events[n].e.Poll? {
        OnlyThePresentSlot(before, events[n].e, events[n].ahead, jitter, bound, gap);
        CatchKeepsPhase(before, events[n].e, jitter, bound);
      } else {
        TickKeepsPhase(before, events[n].e, bound);
      }
    }
  }

  function Max(a: nat, b: nat): nat { if a > b then a else b }

  /** The connection as it stands when the poll that unparks it has been caught, `error` from the anchor. */
  function Acquired(h: Hop, t: int, parked: seq<Event>, poll: Event, error: int): Locked
    requires h.Valid()
  {
    var k := Run(Seeded(h, t), parked);
    Locked(Next(k, poll), k.h.anchor + error)
  }

  /** A run from the making of a connection up to the poll that unparks it, which is `error` and the jitter
      from the anchor. */
  predicate Acquires(h: Hop, t: int, parked: seq<Event>, poll: Event, error: int, jitter: nat)
  {
    && Fresh(h, t) && AllTimely(Seeded(h, t), parked)
    && var k := Run(Seeded(h, t), parked);
       && k.h.provisional && poll.Poll? && Timely(k, poll)
       && Near(poll.t - Latency(poll.len) - (k.h.anchor + error), jitter)
  }

  /** Phase lock, through any pattern of missed polls: from the poll that unparks the connection, `error` away
      from the anchor, the phase error stays within the larger of that error and two ticks (plus the callback
      jitter, for a dongle whose polls are exact), so long as ticks are not held for too long. */
  lemma PhaseErrorStaysBounded(h: Hop, t: int, parked: seq<Event>, poll: Event, error: int,
                               events: seq<Heard>, jitter: nat, gap: nat)
    requires Acquires(h, t, parked, poll, error, jitter)
    requires var bound := Max(Abs(error), jitter + 2);
             bound + jitter + gap < 4 * h.interval + 13 && bound + jitter + 13 < 5 * h.interval
    requires OnGrid(Acquired(h, t, parked, poll, error), events, jitter, gap)
    ensures Abs(PhaseError(RunLocked(Acquired(h, t, parked, poll, error), events))) <= Max(Abs(error), jitter + 2)
  {
    var bound := Max(Abs(error), jitter + 2);
    var k := Run(Seeded(h, t), parked);
    SeededInStep(h, t);
    RunKeepsInStep(Seeded(h, t), parked);
    NextKeepsInStep(k, poll);
    CatchKeepsPhase(Locked(k, k.h.anchor + error), poll, jitter, bound);
    RunKeepsPhase(Acquired(h, t, parked, poll, error), events, jitter, bound, gap);
  }

  // ---------------------------------------------------------------- the gap is exact

  /** The run in which the phase slips: unparked two ticks late, then twice ticked just before a slot ends and
      not again for four intervals and eleven ticks. */
  function SlipEvents(i: nat): seq<Heard>
  {
    [Heard(Done(11), 0), Heard(Tick(3 * i - 2, 3 * i - 2), 0), Heard(Tick(3 * i - 1, 3 * i - 1), 0),
     Heard(Poll(7 * i + 10, 1), 5), Heard(Done(7 * i + 10), 0), Heard(Tick(7 * i + 10, 7 * i + 10), 0),
     Heard(Tick(8 * i, 8 * i), 0), Heard(Poll(12 * i + 10, 1), 5)]
  }

  function SlipStart(i: nat): Hop { Hop(0 - i, 0, 0, true, i, false, 0) }

  /** The connection after n of these events. */
  function SlipState(i: nat, n: nat): Locked
  {
    if n == 0 then
      Locked(Track(Hop(-1, 0, 0, false, i, true, 10), 10, 1, 1, 0, 0 - i, 1, 0, 1, -1, 0), -2)
    else if n == 1 then
      Locked(Track(Hop(-1, 0, 0, false, i, false, 10), 11, 1, 1, 0, 0 - i, 1, 0, 1, -1, 0), -2)
    else if n == 2 then
      Locked(Track(Hop(2 * i - 1, 2, 1, false, i, false, 10), 3 * i - 2, 3 * i - 2, 3 * i - 2,
                   0, 0 - i, 1, 2, 1, -1, 0), 2 * i - 2)
    else if n == 3 then
      Locked(Track(Hop(2 * i - 1, 2, 1, false, i, false, 10), 3 * i - 1, 3 * i - 1, 3 * i - 1,
                   0, 0 - i, 1, 2, 1, -1, 0), 2 * i - 2)
    else if n == 4 then
      Locked(Track(Hop(2 * i, 2, 0, false, i, true, 7 * i + 10), 7 * i + 10, 3 * i - 1, 3 * i - 1,
                   0, 0 - i, 1, 2, 2, 0, 0), 2 * i - 2)
    else if n == 5 then
      Locked(Track(Hop(2 * i, 2, 0, false, i, false, 7 * i + 10), 7 * i + 10, 3 * i - 1, 3 * i - 1,
                   0, 0 - i, 1, 2, 2, 0, 0), 2 * i - 2)
    else if n == 6 then
      Locked(Track(Hop(7 * i, 2, 1, false, i, false, 7 * i + 10), 7 * i + 10, 7 * i + 10, 7 * i + 10,
                   0, 0 - i, 1, 7, 2, 0, 0), 7 * i - 2)
    else if n == 7 then
      Locked(Track(Hop(7 * i, 2, 1, false, i, false, 7 * i + 10), 8 * i, 8 * i, 8 * i,
                   0, 0 - i, 1, 7, 2, 0, 0), 7 * i - 2)
    else
      Locked(Track(Hop(7 * i + 1, 2, 0, false, i, true, 12 * i + 10), 12 * i + 10, 8 * i, 8 * i,
                   0, 0 - i, 1, 7, 3, 1, 0), 7 * i - 2)
  }

  lemma TimesFive(i: nat)
    requires 20 <= i <= 40
    ensures (3 * i - 1) / i == 2 && (5 * i + 10) / i == 5
  {
    assert 3 * i - 1 == 2 * i + (i - 1) && 5 * i + 10 == 5 * i + 10;
  }

  /** The n-th event is allowed and takes each state to the next. */
  predicate SlipGoes(i: nat, n: nat, gap: nat)
    requires n < 8
  {
    var l, x := SlipState(i, n), SlipEvents(i)[n];
    && l.k.h.Valid()
    && Timely(l.k, x.e) && FromGrid(l, x.e, x.ahead, 0) && x.e.t - l.k.ticked <= gap
    && NextLocked(l, x.e) == SlipState(i, n + 1)
  }

  /** A tick at the very end of a slot does not hop. */
  lemma IdleTick(l: Locked, t: int)
    requires l.k.h.Valid() && !l.k.h.provisional && !l.k.h.responsePending && t - l.k.h.anchor == l.k.h.interval
    ensures NextLocked(l, Tick(t, t)) == l.(k := l.k.(now := t, lastTick := t, ticked := t))
  {
  }

  lemma SlipPolls(i: nat, gap: nat)
    requires 20 <= i <= 40 && 4 * i + 11 <= gap <= 5 * i
    ensures SlipGoes(i, 3, gap) && SlipGoes(i, 7, gap)
  {
  }

  lemma SlipDones(i: nat, gap: nat)
    requires 20 <= i <= 40 && 4 * i + 11 <= gap <= 5 * i
    ensures SlipGoes(i, 0, gap) && SlipGoes(i, 4, gap)
  {
  }

  lemma SlipHops(i: nat, gap: nat)
    requires 20 <= i <= 40 && 4 * i + 11 <= gap <= 5 * i
    ensures SlipGoes(i, 1, gap) && SlipGoes(i, 5, gap)
  {
    TimesFive(i);
  }

  lemma SlipTicks(i: nat, gap: nat)
    requires 20 <= i <= 40 && 4 * i + 11 <= gap <= 5 * i
    ensures SlipGoes(i, 2, gap) && SlipGoes(i, 6, gap)
  {
    IdleTick(SlipState(i, 2), 3 * i - 1);
    IdleTick(SlipState(i, 6), 8 * i);
    hide NextTick, Held, Step;
  }

  lemma SlipAcquires(i: nat)
    requires 20 <= i <= 40
    ensures Acquires(SlipStart(i), 13 - i, [Tick(1, 1)], Poll(10, 1), -2, 0)
    ensures Acquired(SlipStart(i), 13 - i, [Tick(1, 1)], Poll(10, 1), -2) == SlipState(i, 0)
  {
    var k := Seeded(SlipStart(i), 13 - i);
    assert [Tick(1, 1)][..0] == [] && AllTimely(k, []) && Run(k, []) == k;
    assert Run(k, [Tick(1, 1)]) == Next(k, Tick(1, 1));
  }

  lemma {:induction false} SlipRun(i: nat, n: nat, gap: nat)
    requires 20 <= i <= 40 && 4 * i + 11 <= gap <= 5 * i && n <= 8
    ensures SlipState(i, 0).k.h.Valid()
    ensures n <= |SlipEvents(i)| && OnGrid(SlipState(i, 0), SlipEvents(i)[..n], 0, gap)
    ensures RunLocked(SlipState(i, 0), SlipEvents(i)[..n]) == SlipState(i, n)
  {
    if n > 0 {
      SlipRun(i, n - 1, gap);
      SlipPolls(i, gap);
      SlipDones(i, gap);
      SlipHops(i, gap);
      SlipTicks(i, gap);
      hide SlipState, NextLocked, Timely, FromGrid;
      assert SlipEvents(i)[..n][..n - 1] == SlipEvents(i)[..n - 1];
    }
  }

  /** For every interval and every gap from four intervals and eleven ticks to the five that keep the channel:
      the dongle exact, the first poll two ticks off, and the error grows to three. The servo takes the poll
      five slots on for the present one and follows it the wrong way. */
  lemma LateTicksLetThePhaseSlip(i: nat, gap: nat)
    requires 20 <= i <= 40 && 4 * i + 11 <= gap <= 5 * i
    ensures Acquires(SlipStart(i), 13 - i, [Tick(1, 1)], Poll(10, 1), -2, 0)
    ensures var l := Acquired(SlipStart(i), 13 - i, [Tick(1, 1)], Poll(10, 1), -2);
            l.k.h.Valid() && OnGrid(l, SlipEvents(i), 0, gap) && PhaseError(RunLocked(l, SlipEvents(i))) == -3
  {
    SlipAcquires(i);
    SlipRun(i, 8, gap);
    assert SlipEvents(i)[..8] == SlipEvents(i);
  }

  /** If the dongle is exact, first caught within two ticks, and the gap respected, the error is within two. */
  predicate StaysInTwo(h: Hop, t: int, parked: seq<Event>, poll: Event, error: int, events: seq<Heard>, gap: nat)
  {
    Acquires(h, t, parked, poll, error, 0) && Abs(error) <= 2 ==>
      var l := Acquired(h, t, parked, poll, error);
      OnGrid(l, events, 0, gap) ==> Abs(PhaseError(RunLocked(l, events))) <= 2
  }

  lemma PhaseGapExact(i: nat, gap: nat)
    requires 20 <= i <= 40 && gap <= 5 * i
    ensures (forall h: Hop, t: int, parked: seq<Event>, poll: Event, error: int, events: seq<Heard> ::
               h.interval == i ==> StaysInTwo(h, t, parked, poll, error, events, gap))
            <==> gap < 4 * i + 11
  {
    forall h: Hop, t: int, parked: seq<Event>, poll: Event, error: int, events: seq<Heard>
      | h.interval == i && gap < 4 * i + 11
      ensures StaysInTwo(h, t, parked, poll, error, events, gap)
    {
      if && Acquires(h, t, parked, poll, error, 0) && Abs(error) <= 2
         && OnGrid(Acquired(h, t, parked, poll, error), events, 0, gap) {
        PhaseErrorStaysBounded(h, t, parked, poll, error, events, 0, gap);
      }
    }
    if 4 * i + 11 <= gap {
      LateTicksLetThePhaseSlip(i, gap);
      assert !StaysInTwo(SlipStart(i), 13 - i, [Tick(1, 1)], Poll(10, 1), -2, SlipEvents(i), gap);
    }
  }
}
