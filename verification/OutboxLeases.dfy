/** The writes of relays and of retention, in the columns of a row. While a lease lasts no claim takes the row,
    and afterwards one does. */
module OutboxLeases {
  import opened Options
  import opened Pipeline
  import opened OutboxRelay

  /** A row that a claim has leased at t, as long as nothing else has written it. */
  predicate LeasedAt(row: Row, t: nat) { row.status == Processing && row.lockUntil == Some(t + 30_000) }

  /** Whatever a claim takes is leased from its own reading for the lease, with one more attempt. */
  lemma ClaimLeases(o: Outbox, clock: Clock, e: EventId)
    requires Valid(o) && e in o.rows && e in First(o.order, o.rows, clock.claim, 25)
    ensures var row, row' := o.rows[e], Marked(o, First(o.order, o.rows, clock.claim, 25), clock.lease).rows[e];
            LeasedAt(row', clock.lease) && row' == Row(Processing, row.availableAt, Some(clock.lease + 30_000), row.publishedAt, row.attempts + 1)
  {
  }

  /** A lease of time t keeps its row out of every claim that reads the clock at t + 30 seconds or before,
      whatever its limit; such a claim leaves the row as it is. */
  lemma LeaseHolds(o: Outbox, clock: Clock, limit: nat, e: EventId, t: nat)
    requires Valid(o) && e in o.rows && LeasedAt(o.rows[e], t) && clock.claim <= t + 30_000
    ensures var events := First(o.order, o.rows, clock.claim, limit);
            e !in events && Marked(o, events, clock.lease).rows[e] == o.rows[e]
  {
    FirstFromOrder(o.order, o.rows, clock.claim, limit);
  }

  /** Once it is over, the row is claimed if it is available and fewer than 25 older rows are in line; so is
      a pending row. A published row never is. */
  lemma LeaseEnds(o: Outbox, now: nat, p: nat)
    requires Valid(o) && p < |o.order|
    ensures var row := o.rows[o.order[p]];
            FewInLine(o, now, p) ==>
              (forall t: nat | LeasedAt(row, t) && t + 30_000 < now && row.availableAt <= now :: o.order[p] in First(o.order, o.rows, now, 25))
              && (row.status == Pending && row.availableAt <= now ==> o.order[p] in First(o.order, o.rows, now, 25))
    ensures var row := o.rows[o.order[p]];
            row.status == OutboxStatus.Published || now < row.availableAt ==> o.order[p] !in First(o.order, o.rows, now, 25)
  {
    ClaimedExactly(o.order, o.rows, now, 25, p);
  }

  /** Fewer than 25 of the rows before p are available, and pending or under a lease that is over. */
  predicate FewInLine(o: Outbox, now: nat, p: nat)
    requires Valid(o) && p < |o.order|
  {
    Due(o.order[..p], o.rows, now) < 25
  }

  // ---- The same for a claim of the interleaved machine ----

  /** In the machine too a claim leases a row for 30 seconds, and not again while the lease lasts: it takes the
      row exactly when the clock it goes by has been read, the row is available, and it is pending or its
      lease is over. */
  lemma MachineClaims(cfg: Config, s: State, r: nat, e: EventId, seen: nat)
    ensures var s' := Exec(cfg, s, Claim(r, e, seen));
            if && e in s.rows && seen <= s.now && s.rows[e].availableAt <= seen
               && (s.rows[e].status == Pending
                   || (s.rows[e].status == Processing && s.rows[e].lockUntil.Some? && s.rows[e].lockUntil.value < seen))
            then
              var row := s.rows[e];
              s' == s.(rows := s.rows[e := Row(Processing, row.availableAt, Some(s.now + 30_000), row.publishedAt, row.attempts + 1)],
                       tokens := s.tokens + {Token(r, e, Claimed)})
            else s' == s
  {
  }

  lemma MachineLeaseHolds(cfg: Config, s: State, r: nat, e: EventId, seen: nat, t: nat)
    requires e in s.rows && LeasedAt(s.rows[e], t) && seen <= t + 30_000
    ensures Exec(cfg, s, Claim(r, e, seen)) == s
  {
    MachineClaims(cfg, s, r, e, seen);
  }

  lemma MachineLeaseEnds(cfg: Config, s: State, r: nat, e: EventId, seen: nat, t: nat)
    requires e in s.rows && LeasedAt(s.rows[e], t) && t + 30_000 < seen <= s.now && s.rows[e].availableAt <= seen
    ensures var s' := Exec(cfg, s, Claim(r, e, seen));
            e in s'.rows && LeasedAt(s'.rows[e], s.now) && Holds(s', r, e, Claimed)
  {
    MachineClaims(cfg, s, r, e, seen);
  }

  // ---- The other writes of the machine ----

  /** A relay that has added an event marks its row published, whoever holds the lease by then, if the row
      is still under one; so does an update that is carried out and seen to fail. */
  lemma MachinePublishes(cfg: Config, s: State, r: nat, e: EventId)
    requires Holds(s, r, e, Added)
    ensures var processing := e in s.rows && s.rows[e].status == Processing;
            var rows := if processing then s.rows[e := Row(OutboxStatus.Published, s.rows[e].availableAt, None, Some(s.now), s.rows[e].attempts)] else s.rows;
            && Exec(cfg, s, Publish(r, e)) == s.(rows := rows, tokens := s.tokens - {Token(r, e, Added)})
            && Exec(cfg, s, PublishFails(r, e, true)).rows == rows && Exec(cfg, s, PublishFails(r, e, false)).rows == s.rows
  {
  }

  /** The failure path puts a row back that is still under a lease, to be tried again after the back-off. */
  lemma MachineResets(cfg: Config, s: State, r: nat, e: EventId)
    requires Holds(s, r, e, Erring)
    ensures var processing := e in s.rows && s.rows[e].status == Processing;
            Exec(cfg, s, Reset(r, e))
            == s.(rows := if processing then s.rows[e := Row(Pending, s.now + cfg.baseDelay, None, s.rows[e].publishedAt, s.rows[e].attempts)] else s.rows,
                  tokens := s.tokens - {Token(r, e, Erring)})
  {
  }

  /** Reconciliation takes up an event exactly when it is published for more than 30 seconds and has no
      SUCCEEDED or DEAD_LETTERED attempt. */
  lemma MachineRechecks(cfg: Config, s: State, r: nat, e: EventId)
    requires !Holds(s, r, e, Rechecking)
    ensures Exec(cfg, s, Recheck(r, e))
            == if && e in s.rows && s.rows[e].status == OutboxStatus.Published
                  && s.rows[e].publishedAt.Some? && s.rows[e].publishedAt.value + 30_000 < s.now
                  && forall k | k in s.attempts && k.event == e :: s.attempts[k] == Retrying
               then s.(tokens := s.tokens + {Token(r, e, Rechecking)}) else s
  {
  }

  /** Retention removes an outbox row exactly when it is published, its time is over, it has a SUCCEEDED or
      DEAD_LETTERED attempt and no relay still remembers the event; and an attempt exactly when its
      event has no row. */
  lemma MachinePurges(cfg: Config, s: State, e: EventId, k: AttemptKey)
    ensures Exec(cfg, s, PurgeRow(e))
            == if && e in s.rows && s.rows[e].status == OutboxStatus.Published
                  && s.rows[e].publishedAt.Some? && s.rows[e].publishedAt.value + cfg.retention < s.now
                  && (exists k :: k in s.attempts && k.event == e && s.attempts[k] in {Succeeded, DeadLettered})
                  && forall t | t in s.tokens :: t.event != e
               then s.(rows := s.rows - {e}) else s
    ensures Exec(cfg, s, PurgeAttempt(k)) == if k.event in s.rows then s else s.(attempts := s.attempts - {k})
  {
  }
}
