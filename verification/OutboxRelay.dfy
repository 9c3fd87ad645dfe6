/** One relay process: claim a batch of outbox rows, add each to the queue, mark it published or put it
    back, then add again the oldest published events that have no terminal record. One call of `Poll` runs
    without another relay in between; `Pipeline` has the interleavings. */
module OutboxRelay {
  import opened Options
  import opened Pipeline

  const CLAIM_LIMIT: nat := 25
  const RECHECK_LIMIT: nat := 100

  /** The outbox table in creation order, and the queue. */
  datatype Outbox = Outbox(order: seq<EventId>, rows: map<EventId, Row>, queue: map<EventId, Job>)

  predicate Valid(o: Outbox) {
    && (forall e | e in o.order :: e in o.rows)
    && forall i, j | 0 <= i < j < |o.order| :: o.order[i] != o.order[j]
  }

  /** The clock as one poll reads it: for the query, for the lease, for each event and for the recheck. */
  datatype Clock = Clock(claim: nat, lease: nat, handled: EventId -> nat, recheck: nat)

  /** How the calls for one event end: the add, marking the row published, and, on the failure path, putting
      it back. */
  datatype Outcome = Outcome(add: Reply, mark: Reply, reset: Reply)

  /** Added and seen to be marked: the failure path is not taken. */
  predicate Succeeds(outcome: Outcome) { outcome.add.Acknowledged? && outcome.mark.Acknowledged? }

  /** The row is marked, seen or not. */
  predicate Marks(outcome: Outcome) { outcome.add.Acknowledged? && !outcome.mark.Refused? }

  /** The failure path fails as well, and the poll with it. */
  predicate Ends(outcome: Outcome) { !Succeeds(outcome) && !outcome.reset.Acknowledged? }

  // ---- Claiming ----

  /** The first `limit` claimable rows. */
  function First(order: seq<EventId>, rows: map<EventId, Row>, now: nat, limit: nat): seq<EventId>
    requires forall e | e in order :: e in rows
  {
    if order == [] || limit == 0 then []
    else if Claimable(rows[order[0]], now) then [order[0]] + First(order[1..], rows, now, limit - 1)
    else First(order[1..], rows, now, limit)
  }

  function Marked(o: Outbox, events: seq<EventId>, lease: nat): Outbox {
    o.(rows := map e | e in o.rows :: if e in events then ClaimedRow(o.rows[e], lease) else o.rows[e])
  }

  // ---- Which rows are claimed ----

  predicate Distinct(s: seq<EventId>) { forall i, j | 0 <= i < j < |s| :: s[i] != s[j] }

  predicate Listed(order: seq<EventId>, rows: map<EventId, Row>) { forall e | e in order :: e in rows }

  /** Available, and pending or under a lease that is over. */
  predicate InLine(row: Row, now: nat) {
    row.availableAt <= now && (row.status == Pending || (row.status == Processing && row.lockUntil.Some? && row.lockUntil.value < now))
  }

  /** The number of rows in line at t. */
  function Due(order: seq<EventId>, rows: map<EventId, Row>, t: nat): nat
    requires Listed(order, rows)
  {
    if order == [] then 0
    else Due(order[1..], rows, t) + if InLine(rows[order[0]], t) then 1 else 0
  }

  lemma {:induction false} FirstFromOrder(order: seq<EventId>, rows: map<EventId, Row>, now: nat, limit: nat)
    requires Listed(order, rows)
    ensures forall e | e in First(order, rows, now, limit) :: e in order && Claimable(rows[e], now)
    ensures Distinct(order) ==> Distinct(First(order, rows, now, limit))
  {
    if order != [] && limit > 0 {
      FirstFromOrder(order[1..], rows, now, if Claimable(rows[order[0]], now) then limit - 1 else limit);
    }
  }

  /** A claim takes as many rows as are claimable, up to the limit. */
  lemma {:induction false} FirstCounts(order: seq<EventId>, rows: map<EventId, Row>, now: nat, limit: nat)
    requires Listed(order, rows)
    ensures |First(order, rows, now, limit)| == if Due(order, rows, now) < limit then Due(order, rows, now) else limit
  {
    if order != [] && limit > 0 {
      FirstCounts(order[1..], rows, now, if Claimable(rows[order[0]], now) then limit - 1 else limit);
    }
  }

  /** A row is claimed exactly when it is in line and fewer than `limit` older rows are. */
  lemma {:induction false} ClaimedExactly(order: seq<EventId>, rows: map<EventId, Row>, now: nat, limit: nat, p: nat)
    requires Listed(order, rows) && Distinct(order) && p < |order|
    ensures order[p] in First(order, rows, now, limit) <==> InLine(rows[order[p]], now) && Due(order[..p], rows, now) < limit
  {
    if limit > 0 {
      var rest := if Claimable(rows[order[0]], now) then limit - 1 else limit;
      if p == 0 {
        if !Claimable(rows[order[0]], now) { FirstFromOrder(order[1..], rows, now, rest); }
      } else {
        ClaimedExactly(order[1..], rows, now, rest, p - 1);
        assert order[..p][0] == order[0] && order[..p][1..] == order[1..][..p - 1];
        assert order[p] == order[1..][p - 1] && order[p] != order[0];
      }
    }
  }

  lemma FirstExactly(order: seq<EventId>, rows: map<EventId, Row>, now: nat, limit: nat)
    requires Listed(order, rows) && Distinct(order)
    ensures forall p | 0 <= p < |order| ::
              order[p] in First(order, rows, now, limit) <==> InLine(rows[order[p]], now) && Due(order[..p], rows, now) < limit
  {
    forall p | 0 <= p < |order|
      ensures order[p] in First(order, rows, now, limit) <==> InLine(rows[order[p]], now) && Due(order[..p], rows, now) < limit
    {
      ClaimedExactly(order, rows, now, limit, p);
    }
  }

  /** Enough claimable rows in a prefix: nothing after it is claimed. */
  lemma {:induction false} FirstOfPrefix(order: seq<EventId>, rows: map<EventId, Row>, now: nat, limit: nat, q: nat)
    requires Listed(order, rows) && q <= |order| && Due(order[..q], rows, now) >= limit
    ensures First(order[..q], rows, now, limit) == First(order, rows, now, limit)
  {
    if q > 0 && limit > 0 {
      assert order[..q][0] == order[0] && order[..q][1..] == order[1..][..q - 1];
      FirstOfPrefix(order[1..], rows, now, if Claimable(rows[order[0]], now) then limit - 1 else limit, q - 1);
    }
  }

  // ---- Publishing ----

  /** The row as the publishing update, or the one of the failure path, leaves it. */
  function Rewritten(row: Row, outcome: Outcome, now: nat, baseDelay: nat): Row {
    if row.status != Processing then row
    else if Marks(outcome) then PublishedRow(row, now)
    else if outcome.reset.Refused? then row
    else ResetRow(row, now, baseDelay)
  }

  predicate Reaches(outcome: Outcome) { !outcome.add.Refused? }

  function Handled(o: Outbox, e: EventId, outcome: Outcome, now: nat, baseDelay: nat): Outbox {
    o.(rows := if e in o.rows then o.rows[e := Rewritten(o.rows[e], outcome, now, baseDelay)] else o.rows,
       queue := if Reaches(outcome) then Enqueued(o.queue, e) else o.queue)
  }

  /** All claimed events in turn, up to the first one that ends the poll. */
  function HandledAll(o: Outbox, events: seq<EventId>, outcome: EventId -> Outcome, at: EventId -> nat, baseDelay: nat): Outbox
    decreases |events|
  {
    if events == [] then o
    else
      var next := Handled(o, events[0], outcome(events[0]), at(events[0]), baseDelay);
      if Ends(outcome(events[0])) then next else HandledAll(next, events[1..], outcome, at, baseDelay)
  }

  predicate Throws(events: seq<EventId>, outcome: EventId -> Outcome) {
    exists e :: e in events && Ends(outcome(e))
  }

  // ---- Rechecking ----

  function PublishedAt(rows: map<EventId, Row>, e: EventId): nat {
    if e in rows && rows[e].publishedAt.Some? then rows[e].publishedAt.value else 0
  }

  predicate Overdue(o: Outbox, attempts: Attempts, e: EventId, now: nat) {
    && e in o.rows && o.rows[e].status == Published && !Terminal(attempts, e)
    && o.rows[e].publishedAt.Some? && o.rows[e].publishedAt.value + LEASE < now
  }

  function OverdueIn(o: Outbox, ids: seq<EventId>, attempts: Attempts, now: nat): seq<EventId> {
    if ids == [] then []
    else
      var rest := OverdueIn(o, ids[1..], attempts, now);
      if Overdue(o, attempts, ids[0], now) then Inserted(o.rows, ids[0], rest) else rest
  }

  /** `ORDER BY published_at`. */
  function Inserted(rows: map<EventId, Row>, e: EventId, ids: seq<EventId>): seq<EventId> {
    if ids == [] || PublishedAt(rows, e) <= PublishedAt(rows, ids[0]) then [e] + ids
    else [ids[0]] + Inserted(rows, e, ids[1..])
  }

  function Limited(ids: seq<EventId>, limit: nat): seq<EventId> { if |ids| <= limit then ids else ids[..limit] }

  function Rechecked(o: Outbox, attempts: Attempts, now: nat): seq<EventId> {
    Limited(OverdueIn(o, o.order, attempts, now), RECHECK_LIMIT)
  }

  /** Adds events until one add throws, having reached the queue or not. */
  function AddedAll(queue: map<EventId, Job>, events: seq<EventId>, readd: EventId -> Reply): map<EventId, Job>
    decreases |events|
  {
    if events == [] || readd(events[0]).Refused? then queue
    else if readd(events[0]).Unheard? then Enqueued(queue, events[0])
    else AddedAll(Enqueued(queue, events[0]), events[1..], readd)
  }

  // ---- A whole poll ----

  /** How the claim transaction, the calls for each event, the query for overdue events and their adds end. */
  datatype Answers = Answers(claim: Reply, outcome: EventId -> Outcome, query: bool, readd: EventId -> Reply)

  function Relayed(o: Outbox, clock: Clock, baseDelay: nat, answers: Answers): Outbox
    requires Valid(o)
  {
    var events := First(o.order, o.rows, clock.claim, CLAIM_LIMIT);
    HandledAll(Marked(o, events, clock.lease), events, answers.outcome, clock.handled, baseDelay)
  }

  /** Nothing ends the poll before the overdue events are known. */
  predicate Reconciles(o: Outbox, clock: Clock, answers: Answers)
    requires Valid(o)
  {
    answers.query && !Throws(First(o.order, o.rows, clock.claim, CLAIM_LIMIT), answers.outcome)
  }

  function Polled(o: Outbox, attempts: Attempts, clock: Clock, baseDelay: nat, answers: Answers): Outbox
    requires Valid(o)
  {
    if answers.claim.Refused? then o
    else if answers.claim.Unheard? then Marked(o, First(o.order, o.rows, clock.claim, CLAIM_LIMIT), clock.lease)
    else
      var after := Relayed(o, clock, baseDelay, answers);
      if !Reconciles(o, clock, answers) then after
      else after.(queue := AddedAll(after.queue, Rechecked(after, attempts, clock.recheck), answers.readd))
  }

  class Relay {
    const baseDelay: nat
    var polling: bool
    var order: seq<EventId>
    var rows: map<EventId, Row>
    var queue: map<EventId, Job>

    constructor (baseDelay: nat)
      ensures Contents() == Outbox([], map[], map[]) && !polling && this.baseDelay == baseDelay
    {
      this.baseDelay := baseDelay;
      polling, order, rows, queue := false, [], map[], map[];
    }

    function Contents(): Outbox
      reads this
    {
      Outbox(order, rows, queue)
    }

    /** Exactly the rows that are available, pending or under a lease that is over, and have fewer than
        `limit` older ones of that kind. */
    method Query(now: nat, limit: nat) returns (events: seq<EventId>)
      requires Valid(Contents())
      ensures forall p | 0 <= p < |order| ::
                order[p] in events <==> InLine(rows[order[p]], now) && Due(order[..p], rows, now) < limit
      ensures events == First(order, rows, now, limit) && Distinct(events) && |events| <= limit
    {
      events := [];
      var i := 0;
      while i < |order| && |events| < limit
        invariant i <= |order| && |events| <= limit
        invariant events + First(order[i..], rows, now, limit - |events|) == First(order, rows, now, limit)
      {
        assert order[i..][0] == order[i] && order[i..][1..] == order[i + 1..];
        if Claimable(rows[order[i]], now) {
          events := events + [order[i]];
        }
        i := i + 1;
      }
      assert First(order[i..], rows, now, limit - |events|) == [];
      FirstFromOrder(order, rows, now, limit);
      FirstExactly(order, rows, now, limit);
    }

    /** Leases each row of the query for 30 seconds, and changes no other row. */
    method Claim(clock: Clock, limit: nat) returns (events: seq<EventId>)
      requires Valid(Contents())
      modifies this`rows
      ensures forall p | 0 <= p < |order| ::
                order[p] in events <==> InLine(old(rows)[order[p]], clock.claim) && Due(order[..p], old(rows), clock.claim) < limit
      ensures events == First(order, old(rows), clock.claim, limit) && Distinct(events) && |events| <= limit
      ensures rows.Keys == old(rows).Keys
      ensures forall e | e in rows ::
                var row := old(rows)[e];
                rows[e] == if e in events then Row(Processing, row.availableAt, Some(clock.lease + 30_000), row.publishedAt, row.attempts + 1) else row
    {
      events := Query(clock.claim, limit);
      if |events| > 0 {
        rows := map e | e in rows :: if e in events then ClaimedRow(rows[e], clock.lease) else rows[e];
      }
    }

    /** One event: add, then mark; the failure path puts it back, unless it was marked after all. */
    method Deliver(e: EventId, outcome: Outcome, now: nat) returns (threw: bool)
      modifies this`rows, this`queue
      ensures threw == Ends(outcome)
      ensures Contents() == Handled(old(Contents()), e, outcome, now, baseDelay)
    {
      threw := false;
      var caught := true;
      assert e in rows ==> rows == rows[e := rows[e]];
      if !outcome.add.Refused? {
        queue := Enqueued(queue, e);
      }
      if outcome.add.Acknowledged? {
        if !outcome.mark.Refused? && e in rows && rows[e].status == Processing {
          rows := rows[e := PublishedRow(rows[e], now)];
        }
        caught := !outcome.mark.Acknowledged?;
      }
      if caught {
        if !outcome.reset.Refused? && e in rows && rows[e].status == Processing {
          rows := rows[e := ResetRow(rows[e], now, baseDelay)];
        }
        threw := !outcome.reset.Acknowledged?;
      }
    }

    method Reconcile(attempts: Attempts, now: nat, readd: EventId -> Reply)
      modifies this`queue
      ensures queue == AddedAll(old(queue), Rechecked(old(Contents()), attempts, now), readd)
    {
      var events := Rechecked(Contents(), attempts, now);
      var i, threw := 0, false;
      while i < |events| && !threw
        invariant i <= |events|
        invariant !threw ==> AddedAll(queue, events[i..], readd) == AddedAll(old(queue), events, readd)
        invariant threw ==> queue == AddedAll(old(queue), events, readd)
      {
        assert events[i..][0] == events[i] && events[i..][1..] == events[i + 1..];
        if !readd(events[i]).Refused? {
          queue := Enqueued(queue, events[i]);
        }
        threw := !readd(events[i]).Acknowledged?;
        i := i + 1;
      }
    }

    /** A poll that finds another one under way does nothing. */
    method Poll(attempts: Attempts, clock: Clock, answers: Answers)
      requires Valid(Contents())
      modifies this
      ensures polling == old(polling)
      ensures Contents() == if old(polling) then old(Contents()) else Polled(old(Contents()), attempts, clock, baseDelay, answers)
    {
      if polling { return; }
      polling := true;
      if !answers.claim.Refused? {
        var events := Claim(clock, CLAIM_LIMIT);
        assert Contents().rows == Marked(old(Contents()), events, clock.lease).rows;
        if answers.claim.Acknowledged? {
          var threw := DeliverAll(events, clock, answers);
          if !threw && answers.query {
            Reconcile(attempts, clock.recheck, answers.readd);
          }
        }
      }
      polling := false;
    }

    /** The loop over the claimed events. */
    method DeliverAll(events: seq<EventId>, clock: Clock, answers: Answers) returns (threw: bool)
      modifies this`rows, this`queue
      ensures threw == Throws(events, answers.outcome)
      ensures Contents() == HandledAll(old(Contents()), events, answers.outcome, clock.handled, baseDelay)
    {
      var i := 0;
      threw := false;
      while i < |events| && !threw
        invariant i <= |events|
        invariant !threw ==> HandledAll(Contents(), events[i..], answers.outcome, clock.handled, baseDelay)
                             == HandledAll(old(Contents()), events, answers.outcome, clock.handled, baseDelay)
        invariant !threw ==> forall k | 0 <= k < i :: !Ends(answers.outcome(events[k]))
        invariant threw ==> Contents() == HandledAll(old(Contents()), events, answers.outcome, clock.handled, baseDelay)
        invariant threw ==> Throws(events, answers.outcome)
      {
        assert events[i..][0] == events[i] && events[i..][1..] == events[i + 1..];
        threw := Deliver(events[i], answers.outcome(events[i]), clock.handled(events[i]));
        assert threw ==> events[i] in events && Ends(answers.outcome(events[i]));
        i := i + 1;
      }
    }
  }
}
