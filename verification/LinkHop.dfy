/** RF_ConnectedTick whole: the link's part of it, which ends an answered probe and restarts supervision, and the
    hop's, which releases an overdue response and moves the listen channel. */
module LinkHop {
  import opened Words
  import opened LinkMachine
  import opened HopClock
  import opened RfTask

  /** The tick gets as far as the hop. */
  predicate Hops(l: Link) { l.st == Connected && !(l.rest.quietPending && !l.air.responsePending) }

  /** The two parts share response_pending. */
  ghost predicate InTouch(rf: Rf, hop: HopScheduler)
    reads rf, rf.fifo, rf.fifo.slots, hop
  {
    rf.Valid() && hop.Shaped() && hop.responsePending == rf.air.responsePending
  }

  /** With the clock read at `checked` and, for the hop, at t. What the link's tick takes as given, whether the
      response is overdue and whether the channel moves, is what the hop finds. */
  method ConnectedTick(rf: Rf, hop: HopScheduler, check: u32, now: u32, ghost checked: int, ghost t: int)
    requires InTouch(rf, hop) && check == Counter(checked) && now == Counter(t)
    requires 0 <= t - hop.anchor < RTC_MODULUS - BACKSTEP
    requires hop.responsePending ==> 0 <= checked - hop.armedAt < RTC_MODULUS - BACKSTEP
    modifies rf, hop
    ensures InTouch(rf, hop)
    ensures rf.View() == LinkTicked(old(rf.View()), !Held(old(hop.View()), checked), hop.anchor != old(hop.anchor))
    ensures hop.View() == if Hops(old(rf.View())) then Ticked(old(hop.View()), checked, t) else old(hop.View())
    ensures old(hop.responsePending) && checked <= old(hop.armedAt) + 2 * hop.interval && Hops(old(rf.View())) ==>
              hop.View() == old(hop.View()) && rf.View() == Kicked(old(rf.View()))
  {
    if rf.rfState != Connected || (rf.rest.quietPending && !rf.air.responsePending) {
      rf.ConnectedTick(false, false);
      return;
    }
    var retune := hop.ConnectedTick(check, now, checked, t);
    rf.ConnectedTick(!hop.responsePending, retune);
  }

  // ---------------------------------------------------------------- a response in time

  /** Ticks of the link whose clock reads are `checks`, on a hop that stands still. */
  function TickedAt(l: Link, h: Hop, checks: seq<int>): Link
  {
    if checks == [] then l
    else LinkTicked(TickedAt(l, h, checks[..|checks| - 1]), !Held(h, checks[|checks| - 1]), false)
  }

  /** The turnaround and the event it posts are left alone. */
  predicate StillDue(l: Link, m: Link)
  {
    && m.st == Connected && m.air.responsePending && m.air.turnaround == l.air.turnaround
    && m.tasks.respond == l.tasks.respond && m.tasks.start == l.tasks.start
  }

  lemma {:induction false} HeldTicksKeepTheResponse(l: Link, h: Hop, checks: seq<int>)
    requires l.st == Connected && l.air.responsePending && h.responsePending
    requires forall i :: 0 <= i < |checks| ==> checks[i] <= h.armedAt + 2 * h.interval
    ensures StillDue(l, TickedAt(l, h, checks))
  {
    if checks != [] {
      HeldTicksKeepTheResponse(l, h, checks[..|checks| - 1]);
    }
  }

  /** A poll is answered: caught at t0 on a live link, its turnaround over and its event served by two intervals
      later, with ticks of the main loop in between however they fall, the response goes on air. */
  lemma RespondsInTime(l: Link, h: Hop, acks: bool, t0: int, len: nat, before: seq<int>, after: seq<int>)
    requires l.st == Connected && l.radio == Listening && l.tasks.start == OFF
    requires forall i :: 0 <= i < |before| ==> before[i] <= t0 + 2 * h.interval
    requires forall i :: 0 <= i < |after| ==> after[i] <= t0 + 2 * h.interval
    ensures var polled := Polled(l, acks);
            var waiting := TickedAt(polled, Caught(h, t0, len), before);
            var due := TickedAt(TurnedAround(waiting), Caught(h, t0, len), after);
            && Enabled(waiting, Turnaround) && Enabled(due, Serve(Respond, true))
            && Responded(Taken(due, Respond), true).radio == Sending
  {
    var polled, held := Polled(l, acks), Caught(h, t0, len);
    PollIsDue(l, acks);
    HeldTicksKeepTheResponse(polled, held, before);
    var waiting := TickedAt(polled, held, before);
    HeldTicksKeepTheResponse(TurnedAround(waiting), held, after);
    hide TickedAt, Polled, Caught;
    DueIsServed(TickedAt(TurnedAround(waiting), held, after));
  }

  lemma PollIsDue(l: Link, acks: bool)
    requires l.st == Connected
    ensures var m := Polled(l, acks);
            m.st == Connected && m.air.responsePending && m.air.turnaround && m.tasks.start == l.tasks.start
  {
  }

  lemma DueIsServed(l: Link)
    requires l.st == Connected && l.air.responsePending && l.tasks.respond.posted.Some? && l.tasks.start == OFF
    ensures Enabled(l, Serve(Respond, true)) && Responded(Taken(l, Respond), true).radio == Sending
  {
  }
}
