/** What one event can count on, and what it takes. Every condition is about steps that concern the event
    itself, and most matter only once a success of it is recorded. */
module PipelineDelivery {
  import opened Pipeline
  import opened PipelineProof

  /** Something the surroundings take care of, for one event.
      WipesStop: a wipe stops the processor of the event, if one is running.
      LookUpsWork: a look-up of earlier deliveries does not fail once a success is recorded.
      SuccessesAcknowledged: no record of a success is committed and then reported as failed.
      FailuresReported: the report of a last failed attempt is written.
      RecordsFollow: nothing comes between an accepted send and its record.
      SendsAcknowledged: no send is accepted by the provider and then seen to fail. */
  datatype Care = WipesStop | LookUpsWork | SuccessesAcknowledged | FailuresReported | RecordsFollow | SendsAcknowledged

  predicate Serving(s: State, w: nat, e: EventId, stage: Stage) { InStage(s, w, stage) && s.workers[w].event == e }

  predicate Careful(cfg: Config, care: Care, s: State, step: Step, e: EventId) {
    match care
    case WipesStop => step == Wipe(true) ==> forall w | w in s.workers :: s.workers[w].event != e
    case LookUpsWork => step.CheckFails? && Serving(s, step.worker, e, Checking) ==> !HasSucceeded(s.attempts, e)
    case SuccessesAcknowledged => step.RecordFails? && Serving(s, step.worker, e, Accepted) ==> !step.reached
    case FailuresReported =>
      step.ReportFails? && Serving(s, step.worker, e, Catching) ==> s.workers[step.worker].attempt < cfg.maxAttempts
    case RecordsFollow =>
      if step.Wipe? then forall w | w in s.workers :: !Serving(s, w, e, Accepted)
      else step.RecordFails? || step.WorkerCrash? ==> !Serving(s, step.worker, e, Accepted)
    case SendsAcknowledged => step.Send? && Serving(s, step.worker, e, Sending) ==> !step.reply.Unheard?
  }

  predicate Always(cfg: Config, care: Care, steps: seq<Step>, e: EventId) {
    steps == [] || (&& Always(cfg, care, steps[..|steps| - 1], e)
                    && Careful(cfg, care, Run(cfg, steps[..|steps| - 1]), steps[|steps| - 1], e))
  }

  // ---- One processor at a time ----

  /** A processor holds its job, and sends only if no delivery is recorded. */
  predicate Proper(s: State, w: nat)
    requires w in s.workers
  {
    var inv := s.workers[w];
    && inv.epoch == s.epoch
    && inv.event in s.queue && s.queue[inv.event].state == Active && inv.attempt == s.queue[inv.event].made + 1
    && (inv.stage in {Checking, Sending} ==> !inv.sent)
    && (inv.stage == Accepted ==> inv.sent)
    && (inv.stage in {Sending, Accepted} ==> !HasSucceeded(s.attempts, inv.event))
    && (inv.stage == Returning && inv.event in s.rows ==> HasSucceeded(s.attempts, inv.event))
  }

  predicate Single(s: State, e: EventId) {
    forall v, w | v in s.workers && w in s.workers && s.workers[v].event == e && s.workers[w].event == e :: v == w
  }

  predicate Alone(s: State, e: EventId) {
    && (forall w | w in s.workers && s.workers[w].event == e :: Proper(s, w))
    && Single(s, e)
    && (e in s.rows && e in s.queue && s.queue[e].state == Completed ==> HasSucceeded(s.attempts, e))
  }

  lemma Upserted(attempts: Attempts, k: AttemptKey, status: DeliveryStatus, e: EventId)
    ensures k.event != e ==> (HasSucceeded(attempts[k := status], e) <==> HasSucceeded(attempts, e))
    ensures k.event == e && status == Succeeded ==> HasSucceeded(attempts[k := status], e)
    ensures status != Succeeded && !HasSucceeded(attempts, e) ==> !HasSucceeded(attempts[k := status], e)
  {
    var after := attempts[k := status];
    if HasSucceeded(attempts, e) && k.event != e {
      var x :| x in attempts && x.event == e && attempts[x] == Succeeded;
      assert x in after && after[x] == Succeeded;
    }
    if k.event == e && status == Succeeded {
      assert k in after && after[k] == Succeeded;
    }
  }

  lemma AttemptPurged(attempts: Attempts, k: AttemptKey, e: EventId)
    ensures HasSucceeded(attempts - {k}, e) ==> HasSucceeded(attempts, e)
    ensures k.event != e ==> (HasSucceeded(attempts - {k}, e) <==> HasSucceeded(attempts, e))
  {
    var after := attempts - {k};
    if HasSucceeded(after, e) {
      var x :| x in after && x.event == e && after[x] == Succeeded;
      assert x in attempts && attempts[x] == Succeeded;
    }
    if HasSucceeded(attempts, e) && k.event != e {
      var x :| x in attempts && x.event == e && attempts[x] == Succeeded;
      assert x in after && after[x] == Succeeded;
    }
  }

  lemma RelayKeepsAlone(cfg: Config, s: State, step: Step, e: EventId)
    requires Alone(s, e)
    ensures Alone(ExecRelay(cfg, s, step), e)
  {
    if CallOf(cfg, s, step).Some? { CallKeepsAlone(s, CallOf(cfg, s, step).value, e); }
  }

  lemma CallKeepsAlone(s: State, c: Call, e: EventId)
    requires Alone(s, e) && (c.row.Some? ==> c.event in s.rows)
    ensures Alone(Called(s, c), e)
  {
    forall w | w in s.workers && s.workers[w].event == e
      ensures Proper(Called(s, c), w)
    {
      assert Proper(s, w);
    }
  }

  lemma ProceedKeepsAlone(s: State, w: nat, stage: Stage, e: EventId)
    requires Alone(s, e) && w in s.workers && (s.workers[w].event == e ==> Proper(Proceed(s, w, stage), w))
    ensures Alone(Proceed(s, w, stage), e)
  {
    var s' := Proceed(s, w, stage);
    forall v | v in s'.workers && s'.workers[v].event == e
      ensures Proper(s', v)
    {
      assert v != w ==> Proper(s, v);
    }
  }

  lemma AnsweredKeepsAlone(s: State, w: nat, reply: Reply, e: EventId)
    requires Alone(s, e) && InStage(s, w, Sending)
    ensures Alone(Answered(s, w, reply), e)
  {
    var s' := Answered(s, w, reply);
    forall v | v in s'.workers && s'.workers[v].event == e
      ensures Proper(s', v)
    {
      assert Proper(s, v);
    }
  }

  lemma RecordedKeepsAlone(s: State, w: nat, status: DeliveryStatus, stage: Stage, e: EventId)
    requires Alone(s, e) && w in s.workers && stage in {Returning, Catching, Throwing}
    requires status == Succeeded || stage == Throwing
    requires status != Succeeded ==> s.workers[w].stage == Catching
    ensures Alone(Recorded(s, w, status, stage), e)
  {
    var s', k := Recorded(s, w, status, stage), AttemptKey(s.workers[w].event, s.workers[w].attempt);
    Upserted(s.attempts, k, status, e);
    forall v | v in s'.workers && s'.workers[v].event == e
      ensures Proper(s', v)
    {
      assert Proper(s, v);
    }
  }

  lemma SettledKeepsAlone(cfg: Config, s: State, w: nat, e: EventId)
    requires Alone(s, e) && (InStage(s, w, Returning) || InStage(s, w, Throwing))
    ensures Alone(Settled(cfg, s, w), e)
  {
    var s' := Settled(cfg, s, w);
    assert s.workers[w].event == e ==> Proper(s, w);
    forall v | v in s'.workers && s'.workers[v].event == e
      ensures Proper(s', v)
    {
      assert Proper(s, v);
    }
  }

  lemma TakenKeepsAlone(s: State, w: nat, x: EventId, e: EventId)
    requires Alone(s, e) && x in s.queue && s.queue[x].state == Waiting && w !in s.workers
    ensures Alone(Taken(s, w, x), e)
  {
    var s' := Taken(s, w, x);
    forall v | v in s.workers && s.workers[v].event == e
      ensures Proper(s', v) && x != e
    {
      assert Proper(s, v);
    }
  }

  lemma LeftKeepsAlone(s: State, w: nat, e: EventId)
    requires Alone(s, e)
    ensures Alone(Left(s, w), e)
  {
    forall v | v in Left(s, w).workers && s.workers[v].event == e
      ensures Proper(Left(s, w), v)
    {
      assert Proper(s, v);
    }
  }

  lemma WorkerKeepsAlone(cfg: Config, s: State, step: Step, e: EventId)
    requires Alone(s, e) && WorkerStep(step)
    ensures Alone(ExecWorker(cfg, s, step), e)
  {
    if step.Take? {
      if step.event in s.queue && s.queue[step.event].state == Waiting && step.worker !in s.workers {
        TakenKeepsAlone(s, step.worker, step.event, e);
      }
    } else if step.WorkerCrash? {
      LeftKeepsAlone(s, step.worker, e);
    } else if step.worker in s.workers {
      ServingKeepsAlone(cfg, s, step, e);
    }
  }

  lemma ServingKeepsAlone(cfg: Config, s: State, step: Step, e: EventId)
    requires Alone(s, e) && WorkerStep(step) && !step.Take? && !step.WorkerCrash? && step.worker in s.workers
    ensures Alone(ExecWorker(cfg, s, step), e)
  {
    var w := step.worker;
    var inv := s.workers[w];
    assert inv.event == e ==> Proper(s, w);
    if step.Check? && inv.stage == Checking {
      ProceedKeepsAlone(s, w, if HasSucceeded(s.attempts, inv.event) then Returning else Sending, e);
    } else if step.CheckFails? && inv.stage == Checking {
      ProceedKeepsAlone(s, w, Catching, e);
    } else if step.Send? && inv.stage == Sending {
      AnsweredKeepsAlone(s, w, step.reply, e);
    } else if step.Record? && inv.stage == Accepted {
      RecordedKeepsAlone(s, w, Succeeded, Returning, e);
    } else if step.RecordFails? && inv.stage == Accepted {
      if step.reached { RecordedKeepsAlone(s, w, Succeeded, Catching, e); } else { ProceedKeepsAlone(s, w, Catching, e); }
    } else if step.Report? && inv.stage == Catching {
      RecordedKeepsAlone(s, w, FailureStatus(cfg, inv), Throwing, e);
    } else if step.ReportFails? && inv.stage == Catching {
      ProceedKeepsAlone(s, w, Throwing, e);
    } else if step.Settle? && inv.stage in {Returning, Throwing} {
      SettledKeepsAlone(cfg, s, w, e);
    }
  }

  // -- housekeeping --

  lemma EmittedKeepsAlone(s: State, x: EventId, availableAt: nat, e: EventId)
    requires Alone(s, e) && Known(s) && x !in s.emitted
    ensures Alone(Emitted(s, x, availableAt), e)
  {
    forall w | w in s.workers && s.workers[w].event == e
      ensures Proper(Emitted(s, x, availableAt), w)
    {
      assert Proper(s, w);
    }
  }

  lemma JobKeepsAlone(s: State, x: EventId, e: EventId)
    requires Alone(s, e) && x in s.queue
    ensures s.queue[x].state == Active && !Running(s, x) ==> Alone(WithJob(s, x, Waiting), e)
    ensures s.queue[x].state == Completed ==> Alone(WithoutJob(s, x), e)
  {
    forall w | w in s.workers && s.workers[w].event == e
      ensures Proper(s, w)
    {
    }
  }

  lemma RowKeepsAlone(s: State, x: EventId, e: EventId)
    requires Alone(s, e)
    ensures Alone(WithoutRow(s, x), e)
  {
    forall w | w in s.workers && s.workers[w].event == e
      ensures Proper(WithoutRow(s, x), w)
    {
      assert Proper(s, w);
    }
  }

  lemma AttemptKeepsAlone(s: State, k: AttemptKey, e: EventId)
    requires Alone(s, e) && k.event !in s.rows
    ensures Alone(WithoutAttempt(s, k), e)
  {
    AttemptPurged(s.attempts, k, e);
    forall w | w in s.workers && s.workers[w].event == e
      ensures Proper(WithoutAttempt(s, k), w)
    {
      assert Proper(s, w);
    }
  }

  lemma WipedKeepsAlone(s: State, survivors: bool, e: EventId)
    requires Alone(s, e) && (survivors ==> forall w | w in s.workers :: s.workers[w].event != e)
    ensures Alone(Wiped(s, survivors), e)
  {
  }

  lemma TickKeepsAlone(s: State, elapsed: nat, e: EventId)
    requires Alone(s, e)
    ensures Alone(s.(now := s.now + elapsed), e)
  {
    forall w | w in s.workers && s.workers[w].event == e
      ensures Proper(s.(now := s.now + elapsed), w)
    {
      assert Proper(s, w);
    }
  }

  lemma HousekeepingKeepsAlone(cfg: Config, s: State, step: Step, e: EventId)
    requires Alone(s, e) && Known(s) && Careful(cfg, WipesStop, s, step, e) && !RelayStep(step) && !WorkerStep(step)
    ensures Alone(Housekeep(cfg, s, step), e)
  {
    if step.Emit? {
      if step.event !in s.emitted { EmittedKeepsAlone(s, step.event, step.availableAt, e); }
    } else if step.Recover? || step.RemoveCompleted? {
      if step.event in s.queue { JobKeepsAlone(s, step.event, e); }
    } else if step.Wipe? {
      WipedKeepsAlone(s, step.survivors, e);
    } else if step.PurgeRow? {
      RowKeepsAlone(s, step.event, e);
    } else if step.PurgeAttempt? {
      if step.key.event !in s.rows { AttemptKeepsAlone(s, step.key, e); }
    } else {
      TickKeepsAlone(s, step.elapsed, e);
    }
  }

  lemma StepKeepsAlone(cfg: Config, s: State, step: Step, e: EventId)
    requires Alone(s, e) && Known(s) && Careful(cfg, WipesStop, s, step, e)
    ensures Alone(Exec(cfg, s, step), e)
  {
    if RelayStep(step) {
      RelayKeepsAlone(cfg, s, step, e);
    } else if WorkerStep(step) {
      WorkerKeepsAlone(cfg, s, step, e);
    } else {
      HousekeepingKeepsAlone(cfg, s, step, e);
    }
  }

  lemma {:induction false} AloneInRun(cfg: Config, steps: seq<Step>, e: EventId)
    requires 1 <= cfg.maxAttempts && Always(cfg, WipesStop, steps, e)
    ensures Alone(Run(cfg, steps), e)
  {
    if steps != [] {
      AloneInRun(cfg, steps[..|steps| - 1], e);
      OnlyCommittedEventsTravel(cfg, steps[..|steps| - 1]);
      StepKeepsAlone(cfg, Run(cfg, steps[..|steps| - 1]), steps[|steps| - 1], e);
    }
  }

  /** Whatever else fails, a send of an event is never started, or under way, once a delivery of it has
      been recorded, and no two processors work for it, provided that wipes stop its processor. */
  lemma NoSendAfterSuccess(cfg: Config, steps: seq<Step>, w: nat, e: EventId)
    requires 1 <= cfg.maxAttempts && Always(cfg, WipesStop, steps, e)
    requires Serving(Run(cfg, steps), w, e, Sending) || Serving(Run(cfg, steps), w, e, Accepted)
    ensures var s := Run(cfg, steps);
            && !HasSucceeded(s.attempts, e)
            && forall v | v in s.workers && v != w :: s.workers[v].event != e
  {
    AloneInRun(cfg, steps, e);
    assert Proper(Run(cfg, steps), w);
  }
}
