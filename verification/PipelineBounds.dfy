/** How many attempts an event can use up between two wipes of the queue. */
module PipelineBounds {
  import opened Pipeline
  import opened PipelineProof
  import opened PipelineDelivery

  /** Every settled attempt is one of the event's job. */
  predicate Open(s: State, e: EventId) {
    Tally(s.finished, e) == if e in s.queue then s.queue[e].made else 0
  }

  /** A success is recorded, and whoever works for the event has not sent, and will not send. */
  predicate Closed(cfg: Config, s: State, e: EventId) {
    && HasSucceeded(s.attempts, e)
    && Tally(s.finished, e) <= cfg.maxAttempts
    && forall w | w in s.workers && s.workers[w].event == e :: !s.workers[w].sent && s.workers[w].stage in {Checking, Returning}
  }

  predicate Bounded(cfg: Config, s: State, e: EventId) { e in s.rows ==> Open(s, e) || Closed(cfg, s, e) }

  lemma RelayKeepsBounded(cfg: Config, s: State, step: Step, e: EventId)
    requires Bounded(cfg, s, e)
    ensures Bounded(cfg, ExecRelay(cfg, s, step), e)
  {
    if CallOf(cfg, s, step).Some? { CallKeepsBounded(cfg, s, CallOf(cfg, s, step).value, e); }
  }

  lemma CallKeepsBounded(cfg: Config, s: State, c: Call, e: EventId)
    requires Bounded(cfg, s, e) && (c.row.Some? ==> c.event in s.rows)
    ensures Bounded(cfg, Called(s, c), e)
  {
  }

  lemma ProceedKeepsBounded(cfg: Config, s: State, w: nat, stage: Stage, e: EventId)
    requires Bounded(cfg, s, e) && w in s.workers
    requires s.workers[w].event == e && HasSucceeded(s.attempts, e) ==>
               stage in {Checking, Returning} || s.workers[w].stage !in {Checking, Returning}
    ensures Bounded(cfg, Proceed(s, w, stage), e)
  {
  }

  lemma AnsweredKeepsBounded(cfg: Config, s: State, w: nat, reply: Reply, e: EventId)
    requires Bounded(cfg, s, e) && InStage(s, w, Sending)
    ensures Bounded(cfg, Answered(s, w, reply), e)
  {
  }

  lemma RecordedKeepsBounded(cfg: Config, s: State, w: nat, status: DeliveryStatus, stage: Stage, e: EventId)
    requires Bounded(cfg, s, e) && (InStage(s, w, Accepted) || InStage(s, w, Catching))
    ensures Bounded(cfg, Recorded(s, w, status, stage), e)
  {
    Upserted(s.attempts, AttemptKey(s.workers[w].event, s.workers[w].attempt), status, e);
  }

  lemma SettledKeepsBounded(cfg: Config, s: State, w: nat, e: EventId)
    requires Bounded(cfg, s, e) && Alone(s, e) && RetriesOk(cfg, s) && (InStage(s, w, Returning) || InStage(s, w, Throwing))
    ensures Bounded(cfg, Settled(cfg, s, w), e)
  {
    var s' := Settled(cfg, s, w);
    if s.workers[w].event == e {
      assert Proper(s, w);
      assert forall v | v in s'.workers :: s'.workers[v].event != e;
    }
  }

  lemma TakenKeepsBounded(cfg: Config, s: State, w: nat, x: EventId, e: EventId)
    requires Bounded(cfg, s, e) && x in s.queue && w !in s.workers
    ensures Bounded(cfg, Taken(s, w, x), e)
  {
  }

  lemma WorkerKeepsBounded(cfg: Config, s: State, step: Step, e: EventId)
    requires Bounded(cfg, s, e) && Alone(s, e) && RetriesOk(cfg, s) && Careful(cfg, LookUpsWork, s, step, e) && WorkerStep(step)
    ensures Bounded(cfg, ExecWorker(cfg, s, step), e)
  {
    if step.Take? {
      if step.event in s.queue && step.worker !in s.workers { TakenKeepsBounded(cfg, s, step.worker, step.event, e); }
    } else if step.worker in s.workers {
      var w, inv := step.worker, s.workers[step.worker];
      if step.Check? && inv.stage == Checking {
        ProceedKeepsBounded(cfg, s, w, if HasSucceeded(s.attempts, inv.event) then Returning else Sending, e);
      } else if step.CheckFails? && inv.stage == Checking {
        ProceedKeepsBounded(cfg, s, w, Catching, e);
      } else if step.Send? && inv.stage == Sending {
        AnsweredKeepsBounded(cfg, s, w, step.reply, e);
      } else if step.Record? && inv.stage == Accepted {
        RecordedKeepsBounded(cfg, s, w, Succeeded, Returning, e);
      } else if step.RecordFails? && inv.stage == Accepted {
        if step.reached { RecordedKeepsBounded(cfg, s, w, Succeeded, Catching, e); } else { ProceedKeepsBounded(cfg, s, w, Catching, e); }
      } else if step.Report? && inv.stage == Catching {
        RecordedKeepsBounded(cfg, s, w, FailureStatus(cfg, inv), Throwing, e);
      } else if step.ReportFails? && inv.stage == Catching {
        ProceedKeepsBounded(cfg, s, w, Throwing, e);
      } else if step.Settle? && inv.stage in {Returning, Throwing} {
        SettledKeepsBounded(cfg, s, w, e);
      }
    }
  }

  lemma EmittedKeepsBounded(cfg: Config, s: State, x: EventId, availableAt: nat, e: EventId)
    requires Bounded(cfg, s, e) && Known(s) && x !in s.emitted
    ensures Bounded(cfg, Emitted(s, x, availableAt), e)
  {
  }

  lemma JobKeepsBounded(cfg: Config, s: State, x: EventId, e: EventId)
    requires Bounded(cfg, s, e) && Alone(s, e) && RetriesOk(cfg, s) && x in s.queue
    ensures Bounded(cfg, WithJob(s, x, Waiting), e)
    ensures s.queue[x].state == Completed ==> Bounded(cfg, WithoutJob(s, x), e)
  {
    if x == e && s.queue[x].state == Completed {
      forall w | w in s.workers
        ensures s.workers[w].event != e
      {
        assert s.workers[w].event == e ==> Proper(s, w);
      }
    }
  }

  lemma AttemptKeepsBounded(cfg: Config, s: State, k: AttemptKey, e: EventId)
    requires Bounded(cfg, s, e) && k.event !in s.rows
    ensures Bounded(cfg, WithoutAttempt(s, k), e)
  {
    AttemptPurged(s.attempts, k, e);
  }

  lemma HousekeepingKeepsBounded(cfg: Config, s: State, step: Step, e: EventId)
    requires Bounded(cfg, s, e) && Alone(s, e) && Known(s) && RetriesOk(cfg, s) && !RelayStep(step) && !WorkerStep(step)
    ensures Bounded(cfg, Housekeep(cfg, s, step), e)
  {
    if step.Emit? {
      if step.event !in s.emitted { EmittedKeepsBounded(cfg, s, step.event, step.availableAt, e); }
    } else if step.Recover? || step.RemoveCompleted? {
      if step.event in s.queue { JobKeepsBounded(cfg, s, step.event, e); }
    } else if step.PurgeAttempt? {
      if step.key.event !in s.rows { AttemptKeepsBounded(cfg, s, step.key, e); }
    }
  }

  lemma StepKeepsBounded(cfg: Config, s: State, step: Step, e: EventId)
    requires Bounded(cfg, s, e) && Alone(s, e) && Known(s) && RetriesOk(cfg, s) && Careful(cfg, LookUpsWork, s, step, e)
    ensures Bounded(cfg, Exec(cfg, s, step), e)
  {
    if RelayStep(step) {
      RelayKeepsBounded(cfg, s, step, e);
    } else if WorkerStep(step) {
      WorkerKeepsBounded(cfg, s, step, e);
    } else {
      HousekeepingKeepsBounded(cfg, s, step, e);
    }
  }

  lemma {:induction false} BoundedInRun(cfg: Config, steps: seq<Step>, e: EventId)
    requires 1 <= cfg.maxAttempts && Always(cfg, WipesStop, steps, e) && Always(cfg, LookUpsWork, steps, e)
    ensures Bounded(cfg, Run(cfg, steps), e)
  {
    if steps != [] {
      var before := steps[..|steps| - 1];
      BoundedInRun(cfg, before, e);
      AloneInRun(cfg, before, e);
      EveryRun(cfg, before);
      OnlyCommittedEventsTravel(cfg, before);
      StepKeepsBounded(cfg, Run(cfg, before), steps[|steps| - 1], e);
    }
  }

  /** However often relays, retries and reconciliation add an event again, between two wipes it has at
      most `maxAttempts` settled attempts. */
  lemma AttemptsAreBounded(cfg: Config, steps: seq<Step>, e: EventId)
    requires 1 <= cfg.maxAttempts && Always(cfg, WipesStop, steps, e) && Always(cfg, LookUpsWork, steps, e)
    requires e in Run(cfg, steps).rows
    ensures Tally(Run(cfg, steps).finished, e) <= cfg.maxAttempts
  {
    BoundedInRun(cfg, steps, e);
    EveryRun(cfg, steps);
    var s := Run(cfg, steps);
    assert e in s.queue ==> JobOk(cfg, s.queue[e]);
  }
}
