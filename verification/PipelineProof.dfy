/** What holds in every run of the delivery pipeline, whatever crashes, fails, is wiped or purged. */
module PipelineProof {
  import opened Options
  import opened Pipeline

  // ---- The invariant of every run ----

  predicate RowOk(cfg: Config, s: State, e: EventId)
    requires e in s.rows
  {
    var row := s.rows[e];
    && e in s.emitted
    && (row.status == Processing <==> row.lockUntil.Some?)
    && (row.status == Published <==> row.publishedAt.Some?)
    && (row.status == Pending ==> row.availableAt <= s.now + cfg.baseDelay)
    && (row.status == Processing ==> row.availableAt <= s.now && row.lockUntil.value <= s.now + LEASE)
    && (row.status == Published ==> row.publishedAt.value <= s.now && e in s.queued)
  }

  predicate RowsOk(cfg: Config, s: State) { forall e | e in s.rows :: RowOk(cfg, s, e) }

  predicate TokensOk(s: State) {
    forall t | t in s.tokens :: t.holding in {Added, Rechecking} ==> t.event in s.queued
  }

  predicate NothingLost(s: State) { forall e | e in s.emitted :: e in s.rows || e in s.ended }

  predicate EndedOk(s: State) { forall k | k in s.attempts :: s.attempts[k] != Retrying ==> k.event in s.ended }

  /** RETRYING below the maximum, DEAD_LETTERED at the maximum only. */
  predicate AttemptOk(cfg: Config, number: nat, status: DeliveryStatus) {
    && 1 <= number <= cfg.maxAttempts
    && (status == Retrying ==> number < cfg.maxAttempts)
    && (status == DeadLettered ==> number == cfg.maxAttempts)
  }

  predicate JobOk(cfg: Config, job: Job) {
    if job.state == Failed then job.made == cfg.maxAttempts else job.made < cfg.maxAttempts
  }

  predicate RetriesOk(cfg: Config, s: State) {
    && (forall k | k in s.attempts :: AttemptOk(cfg, k.number, s.attempts[k]))
    && (forall e | e in s.queue :: JobOk(cfg, s.queue[e]))
    && (forall w | w in s.workers :: 1 <= s.workers[w].attempt <= cfg.maxAttempts && s.workers[w].epoch <= s.epoch)
  }

  predicate Base(cfg: Config, s: State) {
    RowsOk(cfg, s) && TokensOk(s) && NothingLost(s) && EndedOk(s) && RetriesOk(cfg, s)
  }

  // -- relays --

  predicate TokenOk(s: State, t: Token) { t.holding in {Added, Rechecking} ==> t.event in s.queued }

  lemma CallKeepsBase(cfg: Config, s: State, c: Call)
    requires Base(cfg, s) && 1 <= cfg.maxAttempts
    requires c.row.Some? ==> c.event in s.rows && RowOk(cfg, Called(s, c), c.event)
    requires forall t | t in c.tokens :: t in s.tokens || TokenOk(Called(s, c), t)
    ensures Base(cfg, Called(s, c))
  {
    var s' := Called(s, c);
    forall e | e in s'.rows
      ensures RowOk(cfg, s', e)
    {
      assert RowOk(cfg, s, e);
    }
  }

  /** A row a relay writes is well formed, and a relay that has added, or rechecks, an event knows that it
      was queued. */
  lemma CallsOk(cfg: Config, s: State, step: Step, c: Call)
    requires Base(cfg, s) && CallOf(cfg, s, step) == Some(c)
    ensures c.row.Some? ==> RowOk(cfg, Called(s, c), c.event)
    ensures forall t | t in c.tokens :: t in s.tokens || TokenOk(Called(s, c), t)
  {
    WrittenRowOk(cfg, s, step, c);
    NewTokenOk(cfg, s, step, c);
  }

  lemma WrittenRowOk(cfg: Config, s: State, step: Step, c: Call)
    requires RowsOk(cfg, s) && TokensOk(s) && CallOf(cfg, s, step) == Some(c)
    ensures c.row.Some? ==> RowOk(cfg, Called(s, c), c.event)
  {
    if c.event in s.rows { assert RowOk(cfg, s, c.event); }
  }

  lemma NewTokenOk(cfg: Config, s: State, step: Step, c: Call)
    requires RowsOk(cfg, s) && TokensOk(s) && CallOf(cfg, s, step) == Some(c)
    ensures forall t | t in c.tokens :: t in s.tokens || TokenOk(Called(s, c), t)
  {
    if c.event in s.rows { assert RowOk(cfg, s, c.event); }
  }

  lemma RelayKeepsBase(cfg: Config, s: State, step: Step)
    requires Base(cfg, s) && 1 <= cfg.maxAttempts
    ensures Base(cfg, ExecRelay(cfg, s, step))
  {
    if CallOf(cfg, s, step).Some? {
      CallsOk(cfg, s, step, CallOf(cfg, s, step).value);
      CallKeepsBase(cfg, s, CallOf(cfg, s, step).value);
    }
  }

  // -- workers --

  /** Steps that leave outbox rows, relay memory and time alone keep the row half of the invariant. */
  lemma RowsFramed(cfg: Config, s: State, s': State)
    requires Base(cfg, s)
    requires s'.rows == s.rows && s'.tokens == s.tokens && s'.emitted == s.emitted && s'.queued == s.queued
    requires s'.now == s.now && s.ended <= s'.ended
    requires EndedOk(s') && RetriesOk(cfg, s')
    ensures Base(cfg, s')
  {
    forall e | e in s'.rows
      ensures RowOk(cfg, s', e)
    {
      assert RowOk(cfg, s, e);
    }
  }

  lemma ProceedKeepsBase(cfg: Config, s: State, w: nat, stage: Stage)
    requires Base(cfg, s) && w in s.workers
    ensures Base(cfg, Proceed(s, w, stage))
  {
    RowsFramed(cfg, s, Proceed(s, w, stage));
  }

  lemma AnsweredKeepsBase(cfg: Config, s: State, w: nat, reply: Reply)
    requires Base(cfg, s) && w in s.workers
    ensures Base(cfg, Answered(s, w, reply))
  {
    RowsFramed(cfg, s, Answered(s, w, reply));
  }

  lemma RecordedKeepsBase(cfg: Config, s: State, w: nat, status: DeliveryStatus, stage: Stage)
    requires Base(cfg, s) && w in s.workers && (status == Succeeded || status == FailureStatus(cfg, s.workers[w]))
    ensures Base(cfg, Recorded(s, w, status, stage))
  {
    RowsFramed(cfg, s, Recorded(s, w, status, stage));
  }

  lemma SettledKeepsBase(cfg: Config, s: State, w: nat)
    requires Base(cfg, s) && w in s.workers
    ensures Base(cfg, Settled(cfg, s, w))
  {
    RowsFramed(cfg, s, Settled(cfg, s, w));
  }

  lemma TakenKeepsBase(cfg: Config, s: State, w: nat, e: EventId)
    requires Base(cfg, s) && e in s.queue && s.queue[e].state == Waiting
    ensures Base(cfg, Taken(s, w, e))
  {
    RowsFramed(cfg, s, Taken(s, w, e));
  }

  lemma LeftKeepsBase(cfg: Config, s: State, w: nat)
    requires Base(cfg, s)
    ensures Base(cfg, Left(s, w))
  {
    RowsFramed(cfg, s, Left(s, w));
  }

  lemma WorkerKeepsBase(cfg: Config, s: State, step: Step)
    requires Base(cfg, s) && WorkerStep(step)
    ensures Base(cfg, ExecWorker(cfg, s, step))
  {
    if step.Take? {
      if step.event in s.queue && s.queue[step.event].state == Waiting { TakenKeepsBase(cfg, s, step.worker, step.event); }
    } else if step.WorkerCrash? {
      LeftKeepsBase(cfg, s, step.worker);
    } else if step.worker in s.workers {
      var w, s' := step.worker, ExecWorker(cfg, s, step);
      if step.Settle? {
        SettledKeepsBase(cfg, s, w);
      } else if step.Send? {
        AnsweredKeepsBase(cfg, s, w, step.reply);
      } else if s' != s {
        ProceedKeepsBase(cfg, s, w, s'.workers[w].stage);
        RecordedKeepsBase(cfg, s, w, if step.Report? then FailureStatus(cfg, s.workers[w]) else Succeeded, s'.workers[w].stage);
      }
    }
  }

  // -- housekeeping --

  lemma JobKeepsBase(cfg: Config, s: State, e: EventId)
    requires Base(cfg, s) && e in s.queue && s.queue[e].state != Failed
    ensures Base(cfg, WithJob(s, e, Waiting)) && Base(cfg, WithoutJob(s, e))
  {
    RowsFramed(cfg, s, WithJob(s, e, Waiting));
    RowsFramed(cfg, s, WithoutJob(s, e));
  }

  lemma WipeKeepsBase(cfg: Config, s: State, survivors: bool)
    requires Base(cfg, s)
    ensures Base(cfg, Wiped(s, survivors))
  {
    RowsFramed(cfg, s, Wiped(s, survivors));
  }

  lemma PurgedAttemptKeepsBase(cfg: Config, s: State, k: AttemptKey)
    requires Base(cfg, s)
    ensures Base(cfg, WithoutAttempt(s, k))
  {
    RowsFramed(cfg, s, WithoutAttempt(s, k));
  }

  /** Adding or removing rows, or letting time pass. */
  lemma OutboxFramed(cfg: Config, s: State, s': State)
    requires Base(cfg, s) && NothingLost(s')
    requires s'.attempts == s.attempts && s'.queue == s.queue && s'.workers == s.workers && s'.epoch == s.epoch
    requires s'.tokens == s.tokens && s'.queued == s.queued && s'.ended == s.ended
    requires forall e | e in s'.rows :: RowOk(cfg, s', e)
    ensures Base(cfg, s')
  {
  }

  lemma EmitKeepsBase(cfg: Config, s: State, e: EventId, availableAt: nat)
    requires Base(cfg, s) && availableAt <= s.now
    ensures Base(cfg, Emitted(s, e, availableAt))
  {
    var s' := Emitted(s, e, availableAt);
    forall x | x in s'.rows
      ensures RowOk(cfg, s', x)
    {
      if x in s.rows { assert RowOk(cfg, s, x); }
    }
    OutboxFramed(cfg, s, s');
  }

  lemma PurgedRowKeepsBase(cfg: Config, s: State, e: EventId)
    requires Base(cfg, s) && Terminal(s.attempts, e)
    ensures Base(cfg, WithoutRow(s, e))
  {
    var s' := WithoutRow(s, e);
    forall x | x in s'.rows
      ensures RowOk(cfg, s', x)
    {
      assert RowOk(cfg, s, x);
    }
    OutboxFramed(cfg, s, s');
  }

  lemma TickKeepsBase(cfg: Config, s: State, elapsed: nat)
    requires Base(cfg, s)
    ensures Base(cfg, s.(now := s.now + elapsed))
  {
    var s' := s.(now := s.now + elapsed);
    forall x | x in s'.rows
      ensures RowOk(cfg, s', x)
    {
      assert RowOk(cfg, s, x);
    }
    OutboxFramed(cfg, s, s');
  }

  lemma HousekeepingKeepsBase(cfg: Config, s: State, step: Step)
    requires Base(cfg, s)
    ensures Base(cfg, Housekeep(cfg, s, step))
  {
    if step.Emit? {
      if step.availableAt <= s.now { EmitKeepsBase(cfg, s, step.event, step.availableAt); }
    } else if step.PurgeRow? {
      if Purgeable(cfg, s, step.event) { PurgedRowKeepsBase(cfg, s, step.event); }
    } else if step.Tick? {
      TickKeepsBase(cfg, s, step.elapsed);
    } else if step.PurgeAttempt? {
      PurgedAttemptKeepsBase(cfg, s, step.key);
    } else if step.Wipe? {
      WipeKeepsBase(cfg, s, step.survivors);
    } else if step.Recover? || step.RemoveCompleted? {
      if step.event in s.queue && s.queue[step.event].state != Failed { JobKeepsBase(cfg, s, step.event); }
    }
  }

  lemma StepKeepsBase(cfg: Config, s: State, step: Step)
    requires Base(cfg, s) && 1 <= cfg.maxAttempts
    ensures Base(cfg, Exec(cfg, s, step))
  {
    if RelayStep(step) {
      RelayKeepsBase(cfg, s, step);
    } else if WorkerStep(step) {
      WorkerKeepsBase(cfg, s, step);
    } else {
      HousekeepingKeepsBase(cfg, s, step);
    }
  }

  lemma {:induction false} EveryRun(cfg: Config, steps: seq<Step>)
    requires 1 <= cfg.maxAttempts
    ensures Base(cfg, Run(cfg, steps))
  {
    if steps != [] {
      EveryRun(cfg, steps[..|steps| - 1]);
      StepKeepsBase(cfg, Run(cfg, steps[..|steps| - 1]), steps[|steps| - 1]);
    }
  }

  // ---- What follows in every run ----

  /** No run strands a committed event: it was purged after a terminal record, or it is terminal, or its
      row is unpublished and will be claimable once the lease or the back-off is over, or it is published
      and will be rechecked. */
  lemma NothingStranded(cfg: Config, steps: seq<Step>, e: EventId, at: nat)
    requires 1 <= cfg.maxAttempts && e in Run(cfg, steps).emitted
    requires at > Run(cfg, steps).now + 30_000 && at > Run(cfg, steps).now + cfg.baseDelay
    ensures var s := Run(cfg, steps);
            if e !in s.rows then e in s.ended
            else
              var row := s.rows[e];
              || (exists k :: k in s.attempts && k.event == e && s.attempts[k] in {Succeeded, DeadLettered})
              || (row.status == Pending && row.availableAt <= at)
              || (row.status == Processing && row.availableAt <= at && row.lockUntil.Some? && row.lockUntil.value < at)
              || (row.status == Published && row.publishedAt.Some? && row.publishedAt.value + 30_000 < at)
  {
    EveryRun(cfg, steps);
    if e in Run(cfg, steps).rows { assert RowOk(cfg, Run(cfg, steps), e); }
  }

  /** PROCESSING exactly with a lease, PUBLISHED exactly with a publication time, and whatever relay
      marked a row published, the event really was added to the queue. */
  lemma RowsWellFormed(cfg: Config, steps: seq<Step>, e: EventId)
    requires 1 <= cfg.maxAttempts && e in Run(cfg, steps).rows
    ensures var s := Run(cfg, steps);
            && (s.rows[e].status == Processing <==> s.rows[e].lockUntil.Some?)
            && (s.rows[e].status == Published <==> s.rows[e].publishedAt.Some?)
            && (s.rows[e].status == Published ==> e in s.queued)
  {
    EveryRun(cfg, steps);
    assert RowOk(cfg, Run(cfg, steps), e);
  }

  /** PUBLISHED is absorbing: no step changes a published row; only retention removes it, and only
      with a terminal record. */
  lemma PublishedAbsorbs(cfg: Config, s: State, step: Step, e: EventId)
    requires Base(cfg, s) && e in s.rows && s.rows[e].status == Published
    ensures var s' := Exec(cfg, s, step);
            if e in s'.rows then s'.rows[e] == s.rows[e] else step == PurgeRow(e) && Terminal(s.attempts, e)
  {
    assert RowOk(cfg, s, e);
    if RelayStep(step) {
      PublishedUntouched(cfg, s, step, e);
    } else if WorkerStep(step) {
      RowsUntouched(cfg, s, step);
    }
  }

  lemma PublishedUntouched(cfg: Config, s: State, step: Step, e: EventId)
    requires e in s.rows && s.rows[e].status == Published
    ensures ExecRelay(cfg, s, step).rows.Keys == s.rows.Keys && ExecRelay(cfg, s, step).rows[e] == s.rows[e]
  {
  }

  lemma RowsUntouched(cfg: Config, s: State, step: Step)
    ensures ExecWorker(cfg, s, step).rows == s.rows && ExecWorker(cfg, s, step).tokens == s.tokens
    ensures ExecWorker(cfg, s, step).emitted == s.emitted
  {
  }

  // ---- Only committed events travel ----

  predicate Known(s: State) {
    && (forall t | t in s.tokens :: t.event in s.emitted)
    && (forall e | e in s.queue :: e in s.emitted)
    && (forall k | k in s.attempts :: k.event in s.emitted)
    && (forall w | w in s.workers :: s.workers[w].event in s.emitted)
    && s.finished.Keys <= s.emitted && s.accepted.Keys <= s.emitted && s.ended <= s.emitted
  }

  lemma CallKnown(cfg: Config, s: State, step: Step, c: Call)
    requires Base(cfg, s) && Known(s) && CallOf(cfg, s, step) == Some(c)
    ensures c.add ==> c.event in s.emitted
    ensures forall t | t in c.tokens :: t in s.tokens || t.event in s.emitted
  {
    if c.event in s.rows { assert RowOk(cfg, s, c.event); }
  }

  lemma RelayKeepsKnown(cfg: Config, s: State, step: Step)
    requires Base(cfg, s) && Known(s)
    ensures Known(ExecRelay(cfg, s, step))
  {
    if CallOf(cfg, s, step).Some? {
      CallKnown(cfg, s, step, CallOf(cfg, s, step).value);
    }
  }

  lemma ProceedKeepsKnown(s: State, w: nat, stage: Stage, reply: Reply)
    requires Known(s) && w in s.workers
    ensures Known(Proceed(s, w, stage)) && Known(Answered(s, w, reply))
  {
  }

  lemma RecordedKeepsKnown(s: State, w: nat, status: DeliveryStatus, stage: Stage)
    requires Known(s) && w in s.workers
    ensures Known(Recorded(s, w, status, stage))
  {
  }

  lemma JobKeepsKnown(cfg: Config, s: State, w: nat)
    requires Known(s)
    ensures w in s.workers ==> Known(Settled(cfg, s, w))
    ensures Known(Left(s, w))
  {
  }

  lemma TakenKeepsKnown(s: State, w: nat, e: EventId)
    requires Known(s) && e in s.queue
    ensures Known(Taken(s, w, e))
  {
  }

  lemma WorkerKeepsKnown(cfg: Config, s: State, step: Step)
    requires Known(s) && WorkerStep(step)
    ensures Known(ExecWorker(cfg, s, step))
  {
    if step.Take? {
      if step.event in s.queue { TakenKeepsKnown(s, step.worker, step.event); }
    } else if step.Settle? || step.WorkerCrash? {
      JobKeepsKnown(cfg, s, step.worker);
    } else if step.worker in s.workers {
      var w, s' := step.worker, ExecWorker(cfg, s, step);
      if s' != s {
        RecordedKeepsKnown(s, w, if step.Report? then FailureStatus(cfg, s.workers[w]) else Succeeded, s'.workers[w].stage);
        ProceedKeepsKnown(s, w, s'.workers[w].stage, if step.Send? then step.reply else Refused);
      }
    }
  }

  lemma HousekeepingKeepsKnown(cfg: Config, s: State, step: Step)
    requires Known(s)
    ensures Known(Housekeep(cfg, s, step))
  {
  }

  lemma StepKeepsKnown(cfg: Config, s: State, step: Step)
    requires Base(cfg, s) && Known(s)
    ensures Known(Exec(cfg, s, step))
  {
    if RelayStep(step) {
      RelayKeepsKnown(cfg, s, step);
    } else if WorkerStep(step) {
      WorkerKeepsKnown(cfg, s, step);
    } else {
      HousekeepingKeepsKnown(cfg, s, step);
    }
  }

  /** No job, attempt, send or relay memory is ever about an event that was not committed. */
  lemma {:induction false} OnlyCommittedEventsTravel(cfg: Config, steps: seq<Step>)
    requires 1 <= cfg.maxAttempts
    ensures Known(Run(cfg, steps))
  {
    if steps != [] {
      OnlyCommittedEventsTravel(cfg, steps[..|steps| - 1]);
      EveryRun(cfg, steps[..|steps| - 1]);
      StepKeepsKnown(cfg, Run(cfg, steps[..|steps| - 1]), steps[|steps| - 1]);
    }
  }
}
