/** When an event is accepted by the provider at most once. */
module PipelineOnce {
  import opened Pipeline
  import opened PipelineProof
  import opened PipelineDelivery
  import opened PipelineTheorems

  predicate Accepting(s: State, e: EventId) {
    exists w :: w in s.workers && s.workers[w].event == e && s.workers[w].stage == Accepted
  }

  /** The sends the provider accepted are those recorded or about to be recorded. */
  predicate Once(s: State, e: EventId) {
    Tally(s.accepted, e) == if HasSucceeded(s.attempts, e) || Accepting(s, e) then 1 else 0
  }

  lemma AcceptingIs(s: State, w: nat)
    requires w in s.workers && Single(s, s.workers[w].event)
    ensures Accepting(s, s.workers[w].event) <==> s.workers[w].stage == Accepted
  {
  }

  /** Only w changes, and w has nothing to do with e. */
  lemma AcceptingElsewhere(s: State, s': State, w: nat, e: EventId)
    requires forall v | v != w :: v in s.workers <==> v in s'.workers
    requires forall v | v in s.workers && v != w :: s'.workers[v] == s.workers[v]
    requires w in s.workers ==> s.workers[w].event != e
    requires w in s'.workers ==> s'.workers[w].event != e
    ensures Accepting(s, e) <==> Accepting(s', e)
  {
    if Accepting(s, e) {
      var v :| v in s.workers && s.workers[v].event == e && s.workers[v].stage == Accepted;
      assert v in s'.workers && s'.workers[v].event == e && s'.workers[v].stage == Accepted;
    }
    if Accepting(s', e) {
      var v :| v in s'.workers && s'.workers[v].event == e && s'.workers[v].stage == Accepted;
      assert v in s.workers && s.workers[v].event == e && s.workers[v].stage == Accepted;
    }
  }

  lemma AcceptingLeft(s: State, w: nat, e: EventId)
    requires w in s.workers ==> s.workers[w].stage != Accepted
    ensures Accepting(s, e) <==> Accepting(Left(s, w), e)
  {
    var s' := Left(s, w);
    if Accepting(s, e) {
      var v :| v in s.workers && s.workers[v].event == e && s.workers[v].stage == Accepted;
      assert v in s'.workers && s'.workers[v].event == e && s'.workers[v].stage == Accepted;
    }
  }

  lemma TakenAccepting(s: State, w: nat, e: EventId, x: EventId)
    requires e in s.queue && w !in s.workers
    ensures Accepting(s, x) <==> Accepting(Taken(s, w, e), x)
  {
    var s' := Taken(s, w, e);
    if Accepting(s, x) {
      var v :| v in s.workers && s.workers[v].event == x && s.workers[v].stage == Accepted;
      assert v in s'.workers && s'.workers[v].event == x && s'.workers[v].stage == Accepted;
    }
  }

  /** A processor moves between two stages, neither of which is Accepted. */
  lemma ProceedAccepting(s: State, w: nat, stage: Stage, e: EventId)
    requires w in s.workers && s.workers[w].stage != Accepted && stage != Accepted
    ensures Accepting(s, e) <==> Accepting(Proceed(s, w, stage), e)
  {
    var s' := Proceed(s, w, stage);
    if Accepting(s, e) {
      var v :| v in s.workers && s.workers[v].event == e && s.workers[v].stage == Accepted;
      assert v in s'.workers && s'.workers[v].event == e && s'.workers[v].stage == Accepted;
    }
  }

  lemma SendOnce(s: State, w: nat, reply: Reply, e: EventId)
    requires Alone(s, e) && InStage(s, w, Sending) && Once(s, e) && (s.workers[w].event == e ==> !reply.Unheard?)
    ensures Once(Answered(s, w, reply), e)
  {
    var s' := Answered(s, w, reply);
    if s.workers[w].event == e {
      assert Proper(s, w);
      AcceptingIs(s, w);
      AcceptingIs(s', w);
    } else {
      AcceptingElsewhere(s, s', w, e);
    }
  }

  /** The record of an accepted send, or one committed but not acknowledged for another event. */
  lemma RecordOnce(s: State, w: nat, stage: Stage, e: EventId)
    requires Alone(s, e) && InStage(s, w, Accepted) && Once(s, e)
    requires stage == Returning || s.workers[w].event != e
    ensures Once(Recorded(s, w, Succeeded, stage), e)
  {
    var s', inv := Recorded(s, w, Succeeded, stage), s.workers[w];
    Upserted(s.attempts, AttemptKey(inv.event, inv.attempt), Succeeded, e);
    if inv.event == e {
      AcceptingIs(s, w);
    } else {
      AcceptingElsewhere(s, s', w, e);
    }
  }

  lemma ReportOnce(cfg: Config, s: State, w: nat, e: EventId)
    requires Alone(s, e) && Honest(s, e) && InStage(s, w, Catching) && Once(s, e)
    ensures Once(Recorded(s, w, FailureStatus(cfg, s.workers[w]), Throwing), e)
  {
    var s', inv := Recorded(s, w, FailureStatus(cfg, s.workers[w]), Throwing), s.workers[w];
    Upserted(s.attempts, AttemptKey(inv.event, inv.attempt), FailureStatus(cfg, inv), e);
    if inv.event == e {
      AcceptingIs(s, w);
      AcceptingIs(s', w);
    } else {
      AcceptingElsewhere(s, s', w, e);
    }
  }

  lemma ProceedElsewhere(s: State, w: nat, stage: Stage, e: EventId)
    requires w in s.workers && s.workers[w].event != e
    ensures Accepting(s, e) <==> Accepting(Proceed(s, w, stage), e)
  {
    AcceptingElsewhere(s, Proceed(s, w, stage), w, e);
  }

  lemma LeftOnce(s: State, w: nat, e: EventId)
    requires Once(s, e) && !Serving(s, w, e, Accepted)
    ensures Once(Left(s, w), e)
  {
    if w in s.workers && s.workers[w].event != e {
      AcceptingElsewhere(s, Left(s, w), w, e);
    } else {
      AcceptingLeft(s, w, e);
    }
  }

  lemma SettledOnce(cfg: Config, s: State, w: nat, e: EventId)
    requires Once(s, e) && (InStage(s, w, Returning) || InStage(s, w, Throwing))
    ensures Once(Settled(cfg, s, w), e)
  {
    LeftOnce(s, w, e);
    assert Settled(cfg, s, w).workers == Left(s, w).workers;
  }

  lemma WorkerOnce(cfg: Config, s: State, step: Step, e: EventId)
    requires Alone(s, e) && Honest(s, e) && WorkerStep(step) && Once(s, e)
    requires Careful(cfg, RecordsFollow, s, step, e) && Careful(cfg, SendsAcknowledged, s, step, e)
    ensures Once(ExecWorker(cfg, s, step), e)
  {
    if step.Take? {
      if step.event in s.queue && step.worker !in s.workers { TakenAccepting(s, step.worker, step.event, e); }
    } else if step.WorkerCrash? {
      LeftOnce(s, step.worker, e);
    } else if step.worker in s.workers {
      ServingOnce(cfg, s, step, e);
    }
  }

  lemma ServingOnce(cfg: Config, s: State, step: Step, e: EventId)
    requires Alone(s, e) && Honest(s, e) && Once(s, e)
    requires Careful(cfg, RecordsFollow, s, step, e) && Careful(cfg, SendsAcknowledged, s, step, e)
    requires WorkerStep(step) && !step.Take? && !step.WorkerCrash? && step.worker in s.workers
    ensures Once(ExecWorker(cfg, s, step), e)
  {
    var w, inv := step.worker, s.workers[step.worker];
    if step.Check? && inv.stage == Checking {
      ProceedAccepting(s, w, if HasSucceeded(s.attempts, inv.event) then Returning else Sending, e);
    } else if step.CheckFails? && inv.stage == Checking {
      ProceedAccepting(s, w, Catching, e);
    } else if step.Send? && inv.stage == Sending {
      SendOnce(s, w, step.reply, e);
    } else if step.Record? && inv.stage == Accepted {
      RecordOnce(s, w, Returning, e);
    } else if step.RecordFails? && inv.stage == Accepted {
      if step.reached { RecordOnce(s, w, Catching, e); } else { ProceedElsewhere(s, w, Catching, e); }
    } else if step.Report? && inv.stage == Catching {
      ReportOnce(cfg, s, w, e);
    } else if step.ReportFails? && inv.stage == Catching {
      ProceedAccepting(s, w, Throwing, e);
    } else if step.Settle? && inv.stage in {Returning, Throwing} {
      SettledOnce(cfg, s, w, e);
    }
  }

  lemma RelayOnce(cfg: Config, s: State, step: Step, e: EventId)
    requires Once(s, e)
    ensures Once(ExecRelay(cfg, s, step), e)
  {
  }

  lemma WipedOnce(s: State, survivors: bool, e: EventId)
    requires Once(s, e) && forall w | w in s.workers :: !Serving(s, w, e, Accepted)
    ensures Once(Wiped(s, survivors), e)
  {
    assert !Accepting(s, e);
  }

  lemma HousekeepingOnce(cfg: Config, s: State, step: Step, e: EventId)
    requires Careful(cfg, RecordsFollow, s, step, e) && Once(s, e) && e in s.rows && !RelayStep(step) && !WorkerStep(step)
    ensures Once(Housekeep(cfg, s, step), e)
  {
    if step.PurgeAttempt? {
      AttemptPurged(s.attempts, step.key, e);
    } else if step.Wipe? {
      WipedOnce(s, step.survivors, e);
    }
  }

  lemma StepOnce(cfg: Config, s: State, step: Step, e: EventId)
    requires Alone(s, e) && Honest(s, e) && Known(s)
    requires Careful(cfg, RecordsFollow, s, step, e) && Careful(cfg, SendsAcknowledged, s, step, e)
    requires e in s.rows ==> Once(s, e)
    ensures e in Exec(cfg, s, step).rows ==> Once(Exec(cfg, s, step), e)
  {
    if e in Exec(cfg, s, step).rows {
      if e !in s.rows {
        RowsOnlyEmitted(cfg, s, step, e);
        assert Tally(s.accepted, e) == 0;
      } else if RelayStep(step) {
        RelayOnce(cfg, s, step, e);
      } else if WorkerStep(step) {
        WorkerOnce(cfg, s, step, e);
      } else {
        HousekeepingOnce(cfg, s, step, e);
      }
    }
  }

  /** A record that follows its send is acknowledged. */
  lemma {:induction false} FollowsImpliesAcknowledged(cfg: Config, steps: seq<Step>, e: EventId)
    requires Always(cfg, RecordsFollow, steps, e)
    ensures Always(cfg, SuccessesAcknowledged, steps, e)
  {
    if steps != [] { FollowsImpliesAcknowledged(cfg, steps[..|steps| - 1], e); }
  }

  lemma {:induction false} OnceInRun(cfg: Config, steps: seq<Step>, e: EventId)
    requires 1 <= cfg.maxAttempts
    requires Always(cfg, WipesStop, steps, e) && Always(cfg, LookUpsWork, steps, e)
    requires Always(cfg, RecordsFollow, steps, e) && Always(cfg, SendsAcknowledged, steps, e)
    ensures e in Run(cfg, steps).rows ==> Once(Run(cfg, steps), e)
  {
    if steps != [] {
      var before := steps[..|steps| - 1];
      OnceInRun(cfg, before, e);
      AloneInRun(cfg, before, e);
      FollowsImpliesAcknowledged(cfg, before, e);
      HonestInRun(cfg, before, e);
      OnlyCommittedEventsTravel(cfg, before);
      StepOnce(cfg, Run(cfg, before), steps[|steps| - 1], e);
    }
  }

  /** The provider accepts an event at most once while its outbox row exists, and exactly once as soon as
      a success is recorded: across relays, retries, rejected sends, wipes and re-adds. */
  lemma AcceptedOnce(cfg: Config, steps: seq<Step>, e: EventId)
    requires 1 <= cfg.maxAttempts && e in Run(cfg, steps).rows
    requires Always(cfg, WipesStop, steps, e) && Always(cfg, LookUpsWork, steps, e)
    requires Always(cfg, RecordsFollow, steps, e) && Always(cfg, SendsAcknowledged, steps, e)
    ensures Tally(Run(cfg, steps).accepted, e) <= 1
    ensures HasSucceeded(Run(cfg, steps).attempts, e) ==> Tally(Run(cfg, steps).accepted, e) == 1
  {
    OnceInRun(cfg, steps, e);
  }
}
