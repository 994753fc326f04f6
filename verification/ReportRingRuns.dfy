/** Whole runs of the report ring: what it holds, by the history of reports, transmissions and acknowledgements;
    and the newest state is never lost. */
module ReportRingRuns {
  import opened Words
  import opened ReportRing

  datatype Event = Host(r: Report) | Ack | HeadOut | LinkGone | Discard

  /** The host's reports since the last discard, by the reports alone. `gone` of them are done with. A repeat of
      the last report is none, unless the link was lost in between; a report that finds every slot waiting takes
      the place of the one before it. */
  datatype Log = Log(
    reports: seq<Report>,
    gone: nat,
    newest: Option<Report>,    // the last report the host sent, discards or not
    linkLost: bool)            // the link has been lost since

  const NOTHING := Log([], 0, None, false)

  function Logged(log: Log, r: Report): Log
  {
    if log.newest == Some(r) && !log.linkLost then log
    else
      var before := if |log.reports| - log.gone == 16 then log.reports[..|log.reports| - 1] else log.reports;
      Log(before + [r], log.gone, Some(r), false)
  }

  function Emptied(log: Log): Log { log.(reports := [], gone := 0) }

  function Lost(log: Log): Log { log.(linkLost := true) }

  function OneGone(log: Log): Log { log.(gone := log.gone + 1) }

  /** The ring holds exactly the reports of the log that are not done with, in order. */
  predicate Holds(q: Queue, log: Log)
  {
    && q.Valid() && log.gone <= |log.reports| && q.entries == log.reports[log.gone..]
    && (q.lastValid <==> log.newest.Some? && !log.linkLost)
    && (log.newest.Some? ==> log.newest == Some(q.last))
    && (log.reports != [] ==> log.newest == Some(log.reports[|log.reports| - 1]))
  }

  lemma QueueingHolds(q: Queue, log: Log, r: Report)
    requires Holds(q, log)
    ensures Holds(Queued(q, r), Logged(log, r))
  {
    assert |q.entries| == SLOTS ==> log.reports[..|log.reports| - 1][log.gone..] == q.entries[..SLOTS - 1];
  }

  lemma RetiringHolds(q: Queue, log: Log)
    requires Holds(q, log) && q.headSent
    ensures Holds(Retired(q), OneGone(log)) && q.entries != []
  {
  }

  lemma OthersHold(q: Queue, log: Log)
    requires Holds(q, log)
    ensures Holds(Discarded(q), Emptied(log)) && Holds(Forgotten(q), Lost(log)) && Holds(q.(headSent := false), log)
    ensures q.entries != [] ==> Holds(Sent(q), log)
  {
  }

  datatype Trace = Trace(
    q: Queue,
    log: Log,
    inFlight: bool,            // the oldest report waiting has gone on air, and no acknowledgement has come
    out: Option<Report>,       // the last entry retired since the last discard
    queued: bool)              // something has been queued since the last discard

  const START := Trace(EMPTY, NOTHING, false, None, false)

  function Next(t: Trace, e: Event): Trace
  {
    match e
    case Host(r) => t.(q := Queued(t.q, r), log := Logged(t.log, r), queued := t.queued || Logged(t.log, r) != t.log)
    case Ack =>
      t.(q := Retired(t.q), log := if t.inFlight then OneGone(t.log) else t.log, inFlight := false,
         out := if t.inFlight && t.log.gone < |t.log.reports| then Some(t.log.reports[t.log.gone]) else t.out)
    case HeadOut => if t.q.entries == [] then t else t.(q := Sent(t.q), inFlight := true)
    case LinkGone => t.(q := Forgotten(t.q), log := Lost(t.log))
    case Discard => t.(q := Discarded(t.q), log := Emptied(t.log), inFlight := false, out := None, queued := false)
  }

  function After(events: seq<Event>): Trace
  {
    if events == [] then START else Next(After(events[..|events| - 1]), events[|events| - 1])
  }

  /** The newest entry, or, when none is left, the last one retired. */
  function Newest(t: Trace): Option<Report>
  {
    if t.q.entries == [] then t.out else Some(t.q.entries[|t.q.entries| - 1])
  }

  ghost predicate Inv(t: Trace)
  {
    && Holds(t.q, t.log) && t.inFlight == t.q.headSent
    && (t.log.gone > 0 ==> t.out == Some(t.log.reports[t.log.gone - 1]))
    && (t.queued <==> t.log.reports != [])
  }

  lemma NextKeepsInv(t: Trace, e: Event)
    requires Inv(t)
    ensures Inv(Next(t, e))
  {
    OthersHold(t.q, t.log);
    match e
    case Host(r) => QueueingHolds(t.q, t.log, r);
    case Ack => if t.q.headSent { RetiringHolds(t.q, t.log); }
    case _ =>
    hide Holds;
  }

  lemma {:induction false} AfterKeepsInv(events: seq<Event>)
    ensures Inv(After(events))
  {
    if events != [] {
      var n := |events| - 1;
      AfterKeepsInv(events[..n]);
      NextKeepsInv(After(events[..n]), events[n]);
    }
  }

  /** Every transition is kept while there is room: over every interleaving of reports, transmissions,
      acknowledgements, link losses and discards, the ring holds exactly the host's reports since the last discard
      that have not been acknowledged, in order, repeats apart and, past sixteen waiting, the newest for the one
      before it. */
  lemma RingHoldsTheLog(events: seq<Event>)
    ensures var t := After(events);
            && t.log.gone <= |t.log.reports| <= t.log.gone + SLOTS
            && t.q.entries == t.log.reports[t.log.gone..]
            && t.q.headSent == t.inFlight
  {
    AfterKeepsInv(events);
  }

  /** Over the same, the ring holds at most 16 entries, and once anything was queued since the last discard the
      newest entry (or the last one retired, when none is left) is the newest report: coalescing never strands an
      older state. */
  lemma NewestStateIsNeverLost(events: seq<Event>)
    ensures |After(events).q.entries| <= SLOTS
    ensures After(events).queued ==> Newest(After(events)) == After(events).log.newest
  {
    AfterKeepsInv(events);
  }

  /** What the proviso shuts out: straight after a discard, a report leaves the ring empty exactly when it
      repeats the newest queued state and no link loss has intervened. */
  lemma SwallowedAfterDiscard(t: Trace, r: Report)
    requires Inv(t)
    ensures Next(Next(t, Discard), Host(r)).q.entries == [] <==> t.log.newest == Some(r) && !t.log.linkLost
  {
  }
}
