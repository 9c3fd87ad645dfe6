/** What one poll does to the outbox, and how many polls an event waits. */
module OutboxDrain {
  import opened Options
  import opened Pipeline
  import opened OutboxRelay

  // ---- What one poll does ----

  /** No outcome ends the poll: every claimed row is rewritten, each according to its own outcome, no
      other row changes, and the queue gains exactly the events whose add reached it. */
  lemma {:induction false} HandledExactly(o: Outbox, events: seq<EventId>, outcome: EventId -> Outcome, at: EventId -> nat, baseDelay: nat)
    requires Distinct(events) && !Throws(events, outcome)
    ensures var o' := HandledAll(o, events, outcome, at, baseDelay);
            && o'.order == o.order && o'.rows.Keys == o.rows.Keys
            && (forall e | e in o.rows :: o'.rows[e] == if e in events then Rewritten(o.rows[e], outcome(e), at(e), baseDelay) else o.rows[e])
            && (forall e :: e in o'.queue <==> e in o.queue || (e in events && Reaches(outcome(e))))
            && (forall e | e in o.queue :: o'.queue[e] == o.queue[e])
    decreases |events|
  {
    if events != [] {
      assert events[0] in events;
      HandledExactly(Handled(o, events[0], outcome(events[0]), at(events[0]), baseDelay), events[1..], outcome, at, baseDelay);
    }
  }

  /** An event that can be neither published nor put back ends the poll: the claimed events before it
      are handled, those after it keep their claim until the lease is over. */
  lemma {:induction false} StopsAtThrow(o: Outbox, before: seq<EventId>, e: EventId, after: seq<EventId>, outcome: EventId -> Outcome, at: EventId -> nat, baseDelay: nat)
    requires !Throws(before, outcome) && Ends(outcome(e))
    ensures HandledAll(o, before + [e] + after, outcome, at, baseDelay)
            == Handled(HandledAll(o, before, outcome, at, baseDelay), e, outcome(e), at(e), baseDelay)
    decreases |before|
  {
    var events := before + [e] + after;
    if before == [] {
      assert events[0] == e;
    } else {
      assert events[0] == before[0] && events[0] in before && events[1..] == before[1..] + [e] + after;
      StopsAtThrow(Handled(o, events[0], outcome(events[0]), at(events[0]), baseDelay), before[1..], e, after, outcome, at, baseDelay);
    }
  }

  lemma {:induction false} AddedExactly(queue: map<EventId, Job>, events: seq<EventId>, readd: EventId -> Reply)
    ensures var q := AddedAll(queue, events, readd);
            && (forall e | e in queue :: e in q && q[e] == queue[e])
            && (forall e | e in q && e !in queue :: e in events && q[e] == Job(Waiting, 0))
            && ((forall e | e in events :: readd(e).Acknowledged?) ==> forall e | e in events :: e in q)
    decreases |events|
  {
    if events != [] && readd(events[0]).Acknowledged? {
      AddedExactly(Enqueued(queue, events[0]), events[1..], readd);
    }
  }

  /** A poll whose claim and failure path work: each of the oldest 25 rows in line ends published, and
      queued, if it was added and marked, and pending with a back-off otherwise, one more attempt counted
      either way; every other row stays as it is. */
  lemma PollExactly(o: Outbox, attempts: Attempts, clock: Clock, baseDelay: nat, answers: Answers)
    requires Valid(o) && answers.claim.Acknowledged? && !Throws(First(o.order, o.rows, clock.claim, 25), answers.outcome)
    ensures var events, o' := First(o.order, o.rows, clock.claim, 25), Polled(o, attempts, clock, baseDelay, answers);
            && o'.order == o.order && o'.rows.Keys == o.rows.Keys
            && (forall e | e in o.rows && e !in events :: o'.rows[e] == o.rows[e])
            && (forall e | e in events && answers.outcome(e).add.Acknowledged? && !answers.outcome(e).mark.Refused? ::
                  && e in o'.rows && e in o'.queue
                  && o'.rows[e] == Row(OutboxStatus.Published, o.rows[e].availableAt, None, Some(clock.handled(e)), o.rows[e].attempts + 1))
            && (forall e | e in events && !(answers.outcome(e).add.Acknowledged? && !answers.outcome(e).mark.Refused?) ::
                  && e in o'.rows
                  && o'.rows[e] == Row(Pending, clock.handled(e) + baseDelay, None, o.rows[e].publishedAt, o.rows[e].attempts + 1))
            && (forall e | e in events && !answers.outcome(e).add.Refused? :: e in o'.queue)
            && (forall e | e in o.queue :: e in o'.queue && o'.queue[e] == o.queue[e])
  {
    var events := First(o.order, o.rows, clock.claim, CLAIM_LIMIT);
    RelayedExactly(o, clock, baseDelay, answers);
    var after := Relayed(o, clock, baseDelay, answers);
    AddedExactly(after.queue, Rechecked(after, attempts, clock.recheck), answers.readd);
  }

  /** The same before reconciliation, event by event. */
  lemma RelayedExactly(o: Outbox, clock: Clock, baseDelay: nat, answers: Answers)
    requires Valid(o) && !Throws(First(o.order, o.rows, clock.claim, CLAIM_LIMIT), answers.outcome)
    ensures var events, o' := First(o.order, o.rows, clock.claim, CLAIM_LIMIT), Relayed(o, clock, baseDelay, answers);
            && o'.order == o.order && o'.rows.Keys == o.rows.Keys
            && (forall e | e in o.rows :: o'.rows[e] == if e in events then FinalRow(o.rows[e], answers.outcome(e), clock, e, baseDelay) else o.rows[e])
            && (forall e | e in events :: e in o.rows)
            && (forall e | e in events && !answers.outcome(e).add.Refused? :: e in o'.queue)
            && (forall e | e in o.queue :: e in o'.queue && o'.queue[e] == o.queue[e])
  {
    var events := First(o.order, o.rows, clock.claim, CLAIM_LIMIT);
    FirstFromOrder(o.order, o.rows, clock.claim, CLAIM_LIMIT);
    HandledExactly(Marked(o, events, clock.lease), events, answers.outcome, clock.handled, baseDelay);
    forall e | e in events
      ensures !Ends(answers.outcome(e))
    {
    }
  }

  /** A claimed row after calls that do not end the poll. */
  function FinalRow(row: Row, outcome: Outcome, clock: Clock, e: EventId, baseDelay: nat): Row {
    if outcome.add.Acknowledged? && !outcome.mark.Refused?
    then Row(OutboxStatus.Published, row.availableAt, None, Some(clock.handled(e)), row.attempts + 1)
    else Row(Pending, clock.handled(e) + baseDelay, None, row.publishedAt, row.attempts + 1)
  }

  // ---- Rechecking takes the longest published ----

  lemma {:induction false} InsertedIs(rows: map<EventId, Row>, e: EventId, ids: seq<EventId>)
    requires ByPublication(rows, ids)
    ensures ByPublication(rows, Inserted(rows, e, ids)) && |Inserted(rows, e, ids)| == |ids| + 1
    ensures forall x :: x in Inserted(rows, e, ids) <==> x == e || x in ids
  {
    if ids != [] && PublishedAt(rows, e) > PublishedAt(rows, ids[0]) {
      InsertedIs(rows, e, ids[1..]);
      var rest := Inserted(rows, e, ids[1..]);
      assert rest[0] in rest;
      forall x | x in rest
        ensures PublishedAt(rows, ids[0]) <= PublishedAt(rows, x)
      {
      }
    }
  }

  predicate ByPublication(rows: map<EventId, Row>, ids: seq<EventId>) {
    forall i, j | 0 <= i < j < |ids| :: PublishedAt(rows, ids[i]) <= PublishedAt(rows, ids[j])
  }

  lemma {:induction false} OverdueIs(o: Outbox, ids: seq<EventId>, attempts: Attempts, now: nat)
    ensures ByPublication(o.rows, OverdueIn(o, ids, attempts, now))
    ensures forall e :: e in OverdueIn(o, ids, attempts, now) <==> e in ids && Overdue(o, attempts, e, now)
  {
    if ids != [] {
      OverdueIs(o, ids[1..], attempts, now);
      if Overdue(o, attempts, ids[0], now) { InsertedIs(o.rows, ids[0], OverdueIn(o, ids[1..], attempts, now)); }
    }
  }

  lemma RechecksOnly(o: Outbox, attempts: Attempts, now: nat)
    ensures forall x | x in Rechecked(o, attempts, now) ::
              && x in o.order && x in o.rows && o.rows[x].status == OutboxStatus.Published
              && o.rows[x].publishedAt.Some? && o.rows[x].publishedAt.value + 30_000 < now
              && forall k | k in attempts && k.event == x :: attempts[k] == Retrying
    ensures |Rechecked(o, attempts, now)| <= 100
  {
    OverdueIs(o, o.order, attempts, now);
    var all := OverdueIn(o, o.order, attempts, now);
    assert forall x | x in Limited(all, RECHECK_LIMIT) :: x in all;
  }

  /** An event published for more than 30 seconds without a SUCCEEDED or DEAD_LETTERED attempt is rechecked,
      or passed over for 100 that have been published for at least as long. */
  lemma RechecksTheOldest(o: Outbox, attempts: Attempts, now: nat, e: EventId)
    requires e in o.order && e in o.rows && o.rows[e].status == OutboxStatus.Published
    requires o.rows[e].publishedAt.Some? && o.rows[e].publishedAt.value + 30_000 < now
    requires forall k | k in attempts && k.event == e :: attempts[k] == Retrying
    ensures var events := Rechecked(o, attempts, now);
            && (e in events || (|events| == 100 && forall x | x in events ::
                 x in o.rows && o.rows[x].publishedAt.Some? && o.rows[x].publishedAt.value <= o.rows[e].publishedAt.value))
  {
    RechecksOnly(o, attempts, now);
    OverdueIs(o, o.order, attempts, now);
    var all := OverdueIn(o, o.order, attempts, now);
    assert e in all;
    var i :| 0 <= i < |all| && all[i] == e;
    assert forall x | x in Limited(all, RECHECK_LIMIT) :: x in all;
  }

  // ---- The drain bound ----

  lemma {:induction false} DueShrinks(order: seq<EventId>, rows: map<EventId, Row>, after: map<EventId, Row>, now: nat, t: nat, limit: nat)
    requires Listed(order, rows) && Listed(order, after) && Distinct(order) && now <= t
    requires forall e | e in order ::
               if e in First(order, rows, now, limit) then !Claimable(after[e], t) else after[e] == rows[e]
    ensures Due(order, after, t) + |First(order, rows, now, limit)| == Due(order, rows, t)
  {
    if order != [] {
      var rest := if Claimable(rows[order[0]], now) && limit > 0 then limit - 1 else limit;
      FirstFromOrder(order[1..], rows, now, rest);
      if limit == 0 {
        assert First(order[1..], rows, now, 0) == [];
      }
      DueShrinks(order[1..], rows, after, now, t, rest);
    }
  }

  ghost predicate AllDone(answers: Answers) { answers.claim.Acknowledged? && forall e :: Succeeds(answers.outcome(e)) }

  /** One poll with working calls publishes a claimable event exactly when fewer than 25 older rows are
      claimable; otherwise it takes 25 of those. */
  lemma PollDrains(o: Outbox, attempts: Attempts, clock: Clock, baseDelay: nat, answers: Answers, p: nat, t: nat)
    requires Valid(o) && AllDone(answers) && p < |o.order| && clock.claim <= t
    requires Claimable(o.rows[o.order[p]], clock.claim)
    ensures var e, o' := o.order[p], Polled(o, attempts, clock, baseDelay, answers);
            && o'.order == o.order && o'.rows.Keys == o.rows.Keys
            && if Due(o.order[..p], o.rows, clock.claim) < CLAIM_LIMIT then o'.rows[e].status == Published
               else o'.rows[e] == o.rows[e] && Due(o.order[..p], o'.rows, t) + CLAIM_LIMIT == Due(o.order[..p], o.rows, t)
  {
    var o' := Polled(o, attempts, clock, baseDelay, answers);
    FirstFromOrder(o.order, o.rows, clock.claim, CLAIM_LIMIT);
    PollExactly(o, attempts, clock, baseDelay, answers);
    ClaimedExactly(o.order, o.rows, clock.claim, CLAIM_LIMIT, p);
    if Due(o.order[..p], o.rows, clock.claim) >= CLAIM_LIMIT {
      OlderDrain(o, o'.rows, clock.claim, p, t);
    }
  }

  lemma OlderDrain(o: Outbox, after: map<EventId, Row>, now: nat, p: nat, t: nat)
    requires Valid(o) && p < |o.order| && now <= t && Listed(o.order, after)
    requires Due(o.order[..p], o.rows, now) >= CLAIM_LIMIT
    requires forall e | e in o.order ::
               if e in First(o.order, o.rows, now, CLAIM_LIMIT) then !Claimable(after[e], t) else after[e] == o.rows[e]
    ensures Due(o.order[..p], after, t) + CLAIM_LIMIT == Due(o.order[..p], o.rows, t)
  {
    var older := o.order[..p];
    FirstOfPrefix(o.order, o.rows, now, CLAIM_LIMIT, p);
    FirstCounts(older, o.rows, now, CLAIM_LIMIT);
    DueShrinks(older, o.rows, after, now, t, CLAIM_LIMIT);
  }

  /** Between two polls rows may be appended, and anything may happen to the queue. Purges are left out:
      they concern published rows only, which no claim takes. */
  predicate Grows(o: Outbox, next: Outbox) {
    && Valid(next) && o.order <= next.order
    && forall e | e in o.order && e in o.rows :: next.rows[e] == o.rows[e]
  }

  datatype Round = Round(attempts: Attempts, clock: Clock, answers: Answers)

  /** worlds[i] is the outbox before poll i; every add and update of these polls works. */
  ghost predicate Polls(worlds: seq<Outbox>, rounds: seq<Round>, baseDelay: nat) {
    && |worlds| == |rounds| + 1
    && (forall i | 0 <= i < |worlds| :: Valid(worlds[i]))
    && forall i | 0 <= i < |rounds| ::
         && AllDone(rounds[i].answers)
         && Grows(Polled(worlds[i], rounds[i].attempts, rounds[i].clock, baseDelay, rounds[i].answers), worlds[i + 1])
  }

  lemma {:induction false} DueUnchanged(order: seq<EventId>, rows: map<EventId, Row>, after: map<EventId, Row>, t: nat)
    requires Listed(order, rows) && Listed(order, after) && forall e | e in order :: after[e] == rows[e]
    ensures Due(order, after, t) == Due(order, rows, t)
  {
    if order != [] { DueUnchanged(order[1..], rows, after, t); }
  }

  /** A published event stays published through any number of polls. */
  lemma {:induction false} StaysPublished(worlds: seq<Outbox>, rounds: seq<Round>, baseDelay: nat, e: EventId)
    requires Polls(worlds, rounds, baseDelay) && e in worlds[0].order && worlds[0].rows[e].status == Published
    ensures var last := worlds[|rounds|]; e in last.rows && last.rows[e].status == Published
    decreases |rounds|
  {
    if rounds != [] {
      var o, r := worlds[0], rounds[0];
      FirstFromOrder(o.order, o.rows, r.clock.claim, CLAIM_LIMIT);
      PollExactly(o, r.attempts, r.clock, baseDelay, r.answers);
      Later(worlds, rounds, baseDelay);
      StaysPublished(worlds[1..], rounds[1..], baseDelay, e);
    }
  }

  lemma Later(worlds: seq<Outbox>, rounds: seq<Round>, baseDelay: nat)
    requires Polls(worlds, rounds, baseDelay) && rounds != []
    ensures Polls(worlds[1..], rounds[1..], baseDelay)
    ensures Grows(Polled(worlds[0], rounds[0].attempts, rounds[0].clock, baseDelay, rounds[0].answers), worlds[1])
  {
    forall i | 0 <= i < |rounds[1..]|
      ensures && AllDone(rounds[1..][i].answers)
              && Grows(Polled(worlds[1..][i], rounds[1..][i].attempts, rounds[1..][i].clock, baseDelay, rounds[1..][i].answers), worlds[1..][i + 1])
    {
      assert rounds[1..][i] == rounds[i + 1] && worlds[1..][i] == worlds[i + 1] && worlds[1..][i + 1] == worlds[i + 2];
    }
  }

  predicate InOrder(rounds: seq<Round>) {
    forall i, j | 0 <= i < j < |rounds| :: rounds[i].clock.claim <= rounds[j].clock.claim
  }

  /** The event at p is claimable at every poll. */
  predicate Waits(o: Outbox, rounds: seq<Round>, p: nat)
    requires Valid(o) && p < |o.order|
  {
    o.rows[o.order[p]].status != Published && forall i | 0 <= i < |rounds| :: Claimable(o.rows[o.order[p]], rounds[i].clock.claim)
  }

  /** Read off the first state and the times of the polls: one of them finds fewer claimable rows before
      the event than the polls so far can take. */
  predicate Reached(o: Outbox, rounds: seq<Round>, p: nat)
    requires Valid(o) && p < |o.order|
  {
    exists m :: 0 <= m < |rounds| && Due(o.order[..p], o.rows, rounds[m].clock.claim) < 25 * (m + 1)
  }

  /** The first of several polls, for an event that it does not publish. */
  lemma FirstPollSkips(worlds: seq<Outbox>, rounds: seq<Round>, baseDelay: nat, p: nat, t: nat)
    requires Polls(worlds, rounds, baseDelay) && rounds != [] && p < |worlds[0].order|
    requires Waits(worlds[0], rounds, p) && rounds[0].clock.claim <= t
    requires Due(worlds[0].order[..p], worlds[0].rows, rounds[0].clock.claim) >= CLAIM_LIMIT
    ensures p < |worlds[1].order| && worlds[1].order[p] == worlds[0].order[p] && worlds[1].order[..p] == worlds[0].order[..p]
    ensures Waits(worlds[1], rounds[1..], p)
    ensures Due(worlds[1].order[..p], worlds[1].rows, t) + CLAIM_LIMIT == Due(worlds[0].order[..p], worlds[0].rows, t)
  {
    var o, r := worlds[0], rounds[0];
    var o' := Polled(o, r.attempts, r.clock, baseDelay, r.answers);
    PollDrains(o, r.attempts, r.clock, baseDelay, r.answers, p, t);
    Later(worlds, rounds, baseDelay);
    DueUnchanged(o.order[..p], o'.rows, worlds[1].rows, t);
    assert forall i | 0 <= i < |rounds[1..]| :: rounds[1..][i] == rounds[i + 1];
  }

  lemma FirstPollPublishes(worlds: seq<Outbox>, rounds: seq<Round>, baseDelay: nat, p: nat)
    requires Polls(worlds, rounds, baseDelay) && rounds != [] && p < |worlds[0].order| && Waits(worlds[0], rounds, p)
    requires Due(worlds[0].order[..p], worlds[0].rows, rounds[0].clock.claim) < CLAIM_LIMIT
    ensures var e, last := worlds[0].order[p], worlds[|rounds|]; e in last.rows && last.rows[e].status == Published
  {
    var o, r, e := worlds[0], rounds[0], worlds[0].order[p];
    PollDrains(o, r.attempts, r.clock, baseDelay, r.answers, p, r.clock.claim);
    Later(worlds, rounds, baseDelay);
    assert worlds[1].order[p] == e;
    StaysPublished(worlds[1..], rounds[1..], baseDelay, e);
  }

  lemma ReachedLater(o: Outbox, next: Outbox, rounds: seq<Round>, p: nat)
    requires Valid(o) && Valid(next) && p < |o.order| && p < |next.order| && rounds != []
    requires Due(o.order[..p], o.rows, rounds[0].clock.claim) >= CLAIM_LIMIT
    requires forall i | 0 <= i < |rounds| ::
               Due(next.order[..p], next.rows, rounds[i].clock.claim) + CLAIM_LIMIT == Due(o.order[..p], o.rows, rounds[i].clock.claim)
    ensures Reached(o, rounds, p) <==> Reached(next, rounds[1..], p)
  {
    if Reached(o, rounds, p) {
      var m :| 0 <= m < |rounds| && Due(o.order[..p], o.rows, rounds[m].clock.claim) < 25 * (m + 1);
      assert rounds[1..][m - 1] == rounds[m];
    }
    if Reached(next, rounds[1..], p) {
      var m :| 0 <= m < |rounds[1..]| && Due(next.order[..p], next.rows, rounds[1..][m].clock.claim) < 25 * (m + 1);
      assert rounds[1..][m] == rounds[m + 1];
    }
  }

  /** With working calls, no other relay and a clock that does not run backwards, an event that waits is
      published after n polls exactly when some poll m of them found fewer than 25 (m + 1) rows claimable,
      of those that were before it at the start. Events that arrive later do not matter. */
  lemma {:induction false} DrainExactly(worlds: seq<Outbox>, rounds: seq<Round>, baseDelay: nat, p: nat)
    requires Polls(worlds, rounds, baseDelay) && InOrder(rounds) && p < |worlds[0].order| && Waits(worlds[0], rounds, p)
    ensures var e, last := worlds[0].order[p], worlds[|rounds|];
            e in last.rows && (last.rows[e].status == Published <==> Reached(worlds[0], rounds, p))
    decreases |rounds|
  {
    if rounds != [] {
      var o, next := worlds[0], worlds[1];
      if Due(o.order[..p], o.rows, rounds[0].clock.claim) < CLAIM_LIMIT {
        FirstPollPublishes(worlds, rounds, baseDelay, p);
      } else {
        Later(worlds, rounds, baseDelay);
        forall i | 0 <= i < |rounds|
          ensures p < |next.order| && next.order[p] == o.order[p] && Waits(next, rounds[1..], p)
          ensures Due(next.order[..p], next.rows, rounds[i].clock.claim) + CLAIM_LIMIT == Due(o.order[..p], o.rows, rounds[i].clock.claim)
        {
          FirstPollSkips(worlds, rounds, baseDelay, p, rounds[i].clock.claim);
        }
        ReachedLater(o, next, rounds, p);
        DrainExactly(worlds[1..], rounds[1..], baseDelay, p);
      }
    }
  }

  lemma {:induction false} DueNext(order: seq<EventId>, rows: map<EventId, Row>, t: nat, p: nat)
    requires Listed(order, rows) && p < |order|
    ensures Due(order[..p + 1], rows, t) == Due(order[..p], rows, t) + if Claimable(rows[order[p]], t) then 1 else 0
  {
    if p > 0 {
      assert order[..p + 1][0] == order[0] && order[..p + 1][1..] == order[1..][..p];
      assert order[..p][0] == order[0] && order[..p][1..] == order[1..][..p - 1];
      DueNext(order[1..], rows, t, p - 1);
    }
  }

  /** So it is published within ceil(k / 25) polls, where k counts the rows at or before it that are
      claimable at some time t that no poll comes after, even if the clock runs backwards in between. */
  lemma {:induction false} DrainBound(worlds: seq<Outbox>, rounds: seq<Round>, baseDelay: nat, p: nat, t: nat)
    requires Polls(worlds, rounds, baseDelay) && p < |worlds[0].order|
    requires forall i | 0 <= i < |rounds| :: rounds[i].clock.claim <= t && Claimable(worlds[0].rows[worlds[0].order[p]], rounds[i].clock.claim)
    requires Claimable(worlds[0].rows[worlds[0].order[p]], t)
    requires 25 * |rounds| >= Due(worlds[0].order[..p + 1], worlds[0].rows, t)
    ensures var e, last := worlds[0].order[p], worlds[|rounds|];
            e in last.rows && last.rows[e].status == Published
    decreases |rounds|
  {
    var o := worlds[0];
    DueNext(o.order, o.rows, t, p);
    if rounds != [] {
      if Due(o.order[..p], o.rows, rounds[0].clock.claim) < CLAIM_LIMIT {
        FirstPollPublishes(worlds, rounds, baseDelay, p);
      } else {
        FirstPollSkips(worlds, rounds, baseDelay, p, t);
        DueNext(worlds[1].order, worlds[1].rows, t, p);
        Later(worlds, rounds, baseDelay);
        StillWaits(worlds, rounds, baseDelay, p);
        DrainBound(worlds[1..], rounds[1..], baseDelay, p, t);
      }
    }
  }

  lemma StillWaits(worlds: seq<Outbox>, rounds: seq<Round>, baseDelay: nat, p: nat)
    requires Polls(worlds, rounds, baseDelay) && rounds != [] && p < |worlds[0].order| && Waits(worlds[0], rounds, p)
    requires Due(worlds[0].order[..p], worlds[0].rows, rounds[0].clock.claim) >= CLAIM_LIMIT
    ensures var e := worlds[0].order[p]; e in worlds[1].rows && worlds[1].rows[e] == worlds[0].rows[e]
  {
    var o, r := worlds[0], rounds[0];
    PollDrains(o, r.attempts, r.clock, baseDelay, r.answers, p, r.clock.claim);
    Later(worlds, rounds, baseDelay);
  }

  // ---- Counting only the rows claimable at the first poll is not enough ----

  function Ids(): (ids: seq<EventId>)
    ensures |ids| == 51 && forall i | 0 <= i < 51 :: ids[i] == i
  {
    seq(51, i => i)
  }

  /** 25 backed-off rows, claimable from time 1, then 26 rows claimable from time 0. */
  function Backlog(): Outbox {
    Outbox(Ids(), map e | e in Ids() :: Row(Pending, if e < 25 then 1 else 0, None, None, 0), map[])
  }

  lemma {:induction false} DueSkips(order: seq<EventId>, rows: map<EventId, Row>, t: nat, q: nat)
    requires Listed(order, rows) && q <= |order| && forall i | 0 <= i < q :: !Claimable(rows[order[i]], t)
    ensures Due(order, rows, t) == Due(order[q..], rows, t)
  {
    if q > 0 {
      DueSkips(order[1..], rows, t, q - 1);
      assert order[q..] == order[1..][q - 1..];
    }
  }

  lemma {:induction false} DueAll(order: seq<EventId>, rows: map<EventId, Row>, t: nat)
    requires Listed(order, rows) && forall i | 0 <= i < |order| :: Claimable(rows[order[i]], t)
    ensures Due(order, rows, t) == |order|
  {
    if order != [] { DueAll(order[1..], rows, t); }
  }

  lemma BacklogRows()
    ensures var o := Backlog();
            Valid(o) && o.order == Ids() && forall e | e in o.order ::
              e < 51 && o.rows[e] == Row(Pending, if e < 25 then 1 else 0, None, None, 0)
  {
    assert forall e | e in Ids() :: e in Backlog().rows;
  }

  /** How many of the first q rows are claimable at time 0, and at time 1. */
  lemma BacklogDue(o: Outbox, q: nat)
    requires o == Backlog() && Valid(o) && 25 <= q <= 51
    ensures Due(o.order[..q], o.rows, 0) == q - 25 && Due(o.order[..q], o.rows, 1) == q
  {
    BacklogRows();
    var ids := Ids()[..q];
    assert forall i | 0 <= i < q :: ids[i] == i && ids[i] in Ids();
    DueSkips(ids, o.rows, 0, 25);
    DueAll(ids[25..], o.rows, 0);
    DueAll(ids, o.rows, 1);
  }

  function After(o: Outbox, round: Round, baseDelay: nat): Outbox
    requires Valid(o)
  {
    Polled(o, round.attempts, round.clock, baseDelay, round.answers)
  }

  /** Two polls that find 25 and then 50 claimable rows before the event do not publish it. */
  lemma TwoPollsMiss(o: Outbox, first: Round, second: Round, baseDelay: nat, p: nat)
    requires AllDone(first.answers) && AllDone(second.answers) && first.clock.claim <= second.clock.claim
    requires Valid(o) && p < |o.order| && Waits(o, [first, second], p)
    requires Due(o.order[..p], o.rows, first.clock.claim) >= CLAIM_LIMIT && Due(o.order[..p], o.rows, second.clock.claim) >= 2 * CLAIM_LIMIT
    ensures Valid(After(o, first, baseDelay))
    ensures var e, two := o.order[p], After(After(o, first, baseDelay), second, baseDelay);
            e in two.rows && two.rows[e].status != Published
  {
    assert [first, second][0] == first && [first, second][1] == second;
    StaysValid(o, first, baseDelay);
    PollDrains(o, first.attempts, first.clock, baseDelay, first.answers, p, second.clock.claim);
    PollDrains(After(o, first, baseDelay), second.attempts, second.clock, baseDelay, second.answers, p, second.clock.claim);
  }

  /** 26 rows at or before the last one are claimable, yet ceil(26 / 25) polls do not publish it: older
      rows whose back-off ends in between go first. */
  lemma BackedOffRowsCount(first: Round, second: Round, baseDelay: nat)
    requires AllDone(first.answers) && AllDone(second.answers) && first.clock.claim == 0 && second.clock.claim == 1
    ensures var o := Backlog();
            && Valid(o) && |o.order| == 51 && Claimable(o.rows[o.order[50]], 0) && Due(o.order[..51], o.rows, 0) == 26
            && Valid(After(o, first, baseDelay))
            && var e, two := o.order[50], After(After(o, first, baseDelay), second, baseDelay);
               e in two.rows && two.rows[e].status != Published
  {
    var o := Backlog();
    BacklogRows();
    BacklogDue(o, 50);
    BacklogDue(o, 51);
    assert o.order[50] in o.order;
    TwoPollsMiss(o, first, second, baseDelay, 50);
  }

  lemma StaysValid(o: Outbox, round: Round, baseDelay: nat)
    requires Valid(o) && AllDone(round.answers)
    ensures Valid(After(o, round, baseDelay))
  {
    PollExactly(o, round.attempts, round.clock, baseDelay, round.answers);
  }
}
