/** Recorded successes and terminal records: exactly when one is lost, and when they stay. */
module PipelineTheorems {
  import opened Pipeline
  import opened PipelineProof
  import opened PipelineDelivery

  // ---- What a step does to the recorded attempts ----

  /** A failure report writes over the only terminal record of its event. */
  predicate Overwrites(cfg: Config, s: State, step: Step, e: EventId) {
    && step.Report? && InStage(s, step.worker, Catching)
    && var inv := s.workers[step.worker];
       var k := AttemptKey(inv.event, inv.attempt);
       && inv.event == e && inv.attempt < cfg.maxAttempts
       && k in s.attempts && s.attempts[k] == Succeeded
       && forall j | j in s.attempts && j.event == e && j != k :: s.attempts[j] == Retrying
  }

  lemma UpsertKeepsTerminal(attempts: Attempts, k: AttemptKey, status: DeliveryStatus, e: EventId)
    requires Terminal(attempts, e)
    ensures Terminal(attempts[k := status], e) <==>
            || k.event != e || status != Retrying || (k in attempts && attempts[k] == Retrying) || k !in attempts
            || exists j :: j in attempts && j.event == e && j != k && attempts[j] != Retrying
  {
    var after := attempts[k := status];
    var x :| x in attempts && x.event == e && attempts[x] != Retrying;
    if x != k {
      assert x in after && after[x] != Retrying;
    } else if status != Retrying {
      assert k in after && after[k] != Retrying;
    }
    if Terminal(after, e) {
      var y :| y in after && y.event == e && after[y] != Retrying;
      assert y != k ==> y in attempts && attempts[y] != Retrying;
    }
    if j :| j in attempts && j.event == e && j != k && attempts[j] != Retrying {
      assert j in after && after[j] != Retrying;
    }
  }

  lemma ReportKeepsTerminal(cfg: Config, s: State, w: nat, e: EventId)
    requires RetriesOk(cfg, s) && Terminal(s.attempts, e) && InStage(s, w, Catching)
    ensures Terminal(Recorded(s, w, FailureStatus(cfg, s.workers[w]), Throwing).attempts, e) <==> !Overwrites(cfg, s, Report(w), e)
  {
    var inv := s.workers[w];
    var k := AttemptKey(inv.event, inv.attempt);
    UpsertKeepsTerminal(s.attempts, k, FailureStatus(cfg, inv), e);
    assert k in s.attempts ==> AttemptOk(cfg, k.number, s.attempts[k]);
  }

  /** Steps other than a worker's records and the purge of attempts leave the recorded attempts alone. */
  lemma AttemptsUntouched(cfg: Config, s: State, step: Step)
    requires !step.Record? && !step.RecordFails? && !step.Report? && !step.PurgeAttempt?
    ensures Exec(cfg, s, step).attempts == s.attempts && Exec(cfg, s, step).ended == s.ended
  {
    if RelayStep(step) {
      RelayWritesNone(cfg, s, step);
    } else if WorkerStep(step) {
      WorkerWritesNone(cfg, s, step);
    }
  }

  lemma RelayWritesNone(cfg: Config, s: State, step: Step)
    ensures ExecRelay(cfg, s, step).attempts == s.attempts && ExecRelay(cfg, s, step).ended == s.ended
    ensures ExecRelay(cfg, s, step).emitted == s.emitted
  {
  }

  lemma WorkerWritesNone(cfg: Config, s: State, step: Step)
    requires !step.Record? && !step.RecordFails? && !step.Report?
    ensures ExecWorker(cfg, s, step).attempts == s.attempts && ExecWorker(cfg, s, step).ended == s.ended
  {
  }

  lemma PurgeKeepsTerminal(attempts: Attempts, k: AttemptKey, e: EventId)
    requires Terminal(attempts, e) && k.event != e
    ensures Terminal(attempts - {k}, e)
  {
    var x :| x in attempts && x.event == e && attempts[x] != Retrying;
    assert x in attempts - {k};
  }

  /** While the outbox row of an event exists, the event stays terminal, except in exactly one case: a
      failed attempt below the maximum is recorded under a number that carries the success, and nothing
      else about the event is terminal. */
  lemma TerminalityIsLostExactly(cfg: Config, s: State, step: Step, e: EventId)
    requires RetriesOk(cfg, s) && e in s.rows && Terminal(s.attempts, e)
    ensures !Terminal(Exec(cfg, s, step).attempts, e) <==> Overwrites(cfg, s, step, e)
  {
    if step.Record? || step.RecordFails? {
      if InStage(s, step.worker, Accepted) {
        var inv := s.workers[step.worker];
        UpsertKeepsTerminal(s.attempts, AttemptKey(inv.event, inv.attempt), Succeeded, e);
      }
    } else if step.Report? {
      if InStage(s, step.worker, Catching) { ReportKeepsTerminal(cfg, s, step.worker, e); }
    } else if step.PurgeAttempt? {
      if step.key.event !in s.rows { PurgeKeepsTerminal(s.attempts, step.key, e); }
    } else {
      AttemptsUntouched(cfg, s, step);
    }
  }

  predicate Reported(s: State, step: Step, k: AttemptKey) {
    step.Report? && InStage(s, step.worker, Catching) && AttemptKey(s.workers[step.worker].event, s.workers[step.worker].attempt) == k
  }

  /** A SUCCEEDED row changes exactly when a processor of that event and attempt reports a failure, or
      retention removes the row. Below the maximum it becomes RETRYING, at the maximum DEAD_LETTERED. */
  lemma SuccessChangesExactly(cfg: Config, s: State, step: Step, k: AttemptKey)
    requires k in s.attempts && s.attempts[k] == Succeeded
    ensures var after := Exec(cfg, s, step).attempts;
            && (k in after && after[k] == Succeeded <==> !Reported(s, step, k) && !(step == PurgeAttempt(k) && k.event !in s.rows))
            && (k !in after <==> step == PurgeAttempt(k) && k.event !in s.rows)
            && (Reported(s, step, k) ==> after[k] == if k.number < cfg.maxAttempts then Retrying else DeadLettered)
  {
    if !step.Record? && !step.Report? && !step.RecordFails? && !step.PurgeAttempt? {
      AttemptsUntouched(cfg, s, step);
    } else if !step.PurgeAttempt? {
      RecordsChange(cfg, s, step, k);
    }
  }

  lemma RecordsChange(cfg: Config, s: State, step: Step, k: AttemptKey)
    requires k in s.attempts && s.attempts[k] == Succeeded && (step.Record? || step.Report? || step.RecordFails?)
    ensures var after := Exec(cfg, s, step).attempts;
            k in after && after[k] == if !Reported(s, step, k) then Succeeded else if k.number < cfg.maxAttempts then Retrying else DeadLettered
  {
  }

  // ---- A processor that is about to report a failure knows of no success ----

  predicate Honest(s: State, e: EventId) {
    forall w | w in s.workers && s.workers[w].event == e && s.workers[w].stage == Catching :: !HasSucceeded(s.attempts, e)
  }

  lemma RelayKeepsHonest(cfg: Config, s: State, step: Step, e: EventId)
    requires Honest(s, e)
    ensures Honest(ExecRelay(cfg, s, step), e)
  {
  }

  lemma RecordedKeepsHonest(s: State, w: nat, status: DeliveryStatus, stage: Stage, e: EventId)
    requires Honest(s, e) && Single(s, e) && w in s.workers && stage != Catching
    ensures Honest(Recorded(s, w, status, stage), e)
  {
    Upserted(s.attempts, AttemptKey(s.workers[w].event, s.workers[w].attempt), status, e);
  }

  lemma ProceedKeepsHonest(s: State, w: nat, stage: Stage, e: EventId)
    requires Honest(s, e) && w in s.workers
    requires stage == Catching && s.workers[w].event == e ==> !HasSucceeded(s.attempts, e)
    ensures Honest(Proceed(s, w, stage), e)
  {
  }

  lemma AnsweredKeepsHonest(s: State, w: nat, reply: Reply, e: EventId)
    requires Honest(s, e) && w in s.workers && (s.workers[w].event == e ==> !HasSucceeded(s.attempts, e))
    ensures Honest(Answered(s, w, reply), e)
  {
  }

  /** A success that was committed but not acknowledged concerns another event. */
  lemma UnrecordedKeepsHonest(s: State, w: nat, reached: bool, e: EventId)
    requires Honest(s, e) && w in s.workers
    requires s.workers[w].event == e ==> !reached && !HasSucceeded(s.attempts, e)
    ensures Honest(Unrecorded(s, w, reached), e)
  {
    Upserted(s.attempts, AttemptKey(s.workers[w].event, s.workers[w].attempt), Succeeded, e);
  }

  lemma WorkerKeepsHonest(cfg: Config, s: State, step: Step, e: EventId)
    requires Honest(s, e) && Alone(s, e) && WorkerStep(step)
    requires Careful(cfg, LookUpsWork, s, step, e) && Careful(cfg, SuccessesAcknowledged, s, step, e)
    ensures Honest(ExecWorker(cfg, s, step), e)
  {
    if !step.Take? && step.worker in s.workers {
      var w, inv := step.worker, s.workers[step.worker];
      assert inv.event == e ==> Proper(s, w);
      if step.Check? && inv.stage == Checking {
        ProceedKeepsHonest(s, w, if HasSucceeded(s.attempts, inv.event) then Returning else Sending, e);
      } else if step.CheckFails? && inv.stage == Checking {
        ProceedKeepsHonest(s, w, Catching, e);
      } else if step.Send? && inv.stage == Sending {
        AnsweredKeepsHonest(s, w, step.reply, e);
      } else if step.Record? && inv.stage == Accepted {
        RecordedKeepsHonest(s, w, Succeeded, Returning, e);
      } else if step.RecordFails? && inv.stage == Accepted {
        UnrecordedKeepsHonest(s, w, step.reached, e);
      } else if step.Report? && inv.stage == Catching {
        RecordedKeepsHonest(s, w, FailureStatus(cfg, inv), Throwing, e);
      } else if step.ReportFails? && inv.stage == Catching {
        ProceedKeepsHonest(s, w, Throwing, e);
      }
    }
  }

  lemma HousekeepingKeepsHonest(cfg: Config, s: State, step: Step, e: EventId)
    requires Honest(s, e) && !RelayStep(step) && !WorkerStep(step)
    ensures Honest(Housekeep(cfg, s, step), e)
  {
    if step.PurgeAttempt? { AttemptPurged(s.attempts, step.key, e); }
  }

  /** The conditions under which a recorded success is final. */
  predicate SuccessIsFinal(cfg: Config, steps: seq<Step>, e: EventId) {
    Always(cfg, WipesStop, steps, e) && Always(cfg, LookUpsWork, steps, e) && Always(cfg, SuccessesAcknowledged, steps, e)
  }

  lemma {:induction false} HonestInRun(cfg: Config, steps: seq<Step>, e: EventId)
    requires 1 <= cfg.maxAttempts && SuccessIsFinal(cfg, steps, e)
    ensures Honest(Run(cfg, steps), e)
  {
    if steps != [] {
      var before, step := steps[..|steps| - 1], steps[|steps| - 1];
      var s := Run(cfg, before);
      HonestInRun(cfg, before, e);
      AloneInRun(cfg, before, e);
      if RelayStep(step) {
        RelayKeepsHonest(cfg, s, step, e);
      } else if WorkerStep(step) {
        WorkerKeepsHonest(cfg, s, step, e);
      } else {
        HousekeepingKeepsHonest(cfg, s, step, e);
      }
    }
  }

  /** With wipes that stop the event's processor, no failed look-up after a success and no success that
      is committed but not acknowledged, a SUCCEEDED row changes exactly when retention removes it, and
      that is after the event's outbox row. */
  lemma SuccessIsKept(cfg: Config, steps: seq<Step>, step: Step, k: AttemptKey)
    requires 1 <= cfg.maxAttempts && SuccessIsFinal(cfg, steps, k.event)
    requires k in Run(cfg, steps).attempts && Run(cfg, steps).attempts[k] == Succeeded
    ensures var s, after := Run(cfg, steps), Run(cfg, steps + [step]).attempts;
            k in after && after[k] == Succeeded <==> !(step == PurgeAttempt(k) && k.event !in s.rows)
  {
    HonestInRun(cfg, steps, k.event);
    RunSnoc(cfg, steps, step);
    SuccessChangesExactly(cfg, Run(cfg, steps), step, k);
  }

  lemma RunSnoc(cfg: Config, steps: seq<Step>, step: Step)
    ensures Run(cfg, steps + [step]) == Exec(cfg, Run(cfg, steps), step)
  {
    assert (steps + [step])[..|steps|] == steps;
  }

  // ---- Terminal until purged ----

  lemma RecordedIsTerminal(s: State, w: nat, status: DeliveryStatus, stage: Stage)
    requires w in s.workers && status != Retrying
    ensures Terminal(Recorded(s, w, status, stage).attempts, s.workers[w].event)
  {
    var k := AttemptKey(s.workers[w].event, s.workers[w].attempt);
    assert k in Recorded(s, w, status, stage).attempts;
  }

  lemma NewlyEnded(cfg: Config, s: State, step: Step, e: EventId)
    requires e in Exec(cfg, s, step).ended && e !in s.ended
    ensures Terminal(Exec(cfg, s, step).attempts, e)
  {
    if step.Record? || step.RecordFails? {
      RecordedIsTerminal(s, step.worker, Succeeded, if step.Record? then Returning else Catching);
    } else if step.Report? {
      RecordedIsTerminal(s, step.worker, FailureStatus(cfg, s.workers[step.worker]), Throwing);
    } else if !step.PurgeAttempt? {
      AttemptsUntouched(cfg, s, step);
    }
  }

  lemma RowsOnlyEmitted(cfg: Config, s: State, step: Step, e: EventId)
    requires e in Exec(cfg, s, step).rows && e !in s.rows
    ensures e !in s.emitted && step.Emit?
  {
    if RelayStep(step) {
    } else if WorkerStep(step) {
      RowsUntouched(cfg, s, step);
    }
  }

  /** A published row never changes again: later in the run it is still the same row, or it was purged
      after a terminal record, and then it does not come back. */
  lemma {:induction false} PublishedForGood(cfg: Config, steps: seq<Step>, more: seq<Step>, e: EventId)
    requires 1 <= cfg.maxAttempts
    requires e in Run(cfg, steps).rows && Run(cfg, steps).rows[e].status == Published
    ensures var s, s' := Run(cfg, steps), Run(cfg, steps + more);
            && e in s'.emitted
            && if e in s'.rows then s'.rows[e] == s.rows[e] else e in s'.ended
  {
    if more == [] {
      assert steps + more == steps;
      EveryRun(cfg, steps);
      assert RowOk(cfg, Run(cfg, steps), e);
    } else {
      var before, step := steps + more[..|more| - 1], more[|more| - 1];
      PublishedForGood(cfg, steps, more[..|more| - 1], e);
      assert steps + more == before + [step];
      RunSnoc(cfg, before, step);
      EveryRun(cfg, before);
      PublishedStep(cfg, Run(cfg, before), step, e);
    }
  }

  lemma PublishedStep(cfg: Config, s: State, step: Step, e: EventId)
    requires Base(cfg, s) && e in s.emitted && (e in s.rows ==> s.rows[e].status == Published)
    requires e !in s.rows ==> e in s.ended
    ensures var s' := Exec(cfg, s, step);
            && e in s'.emitted
            && if e in s'.rows then e in s.rows && s'.rows[e] == s.rows[e] else e in s'.ended
  {
    HistoryGrows(cfg, s, step);
    if e in s.rows {
      PublishedAbsorbs(cfg, s, step, e);
    } else if e in Exec(cfg, s, step).rows {
      RowsOnlyEmitted(cfg, s, step, e);
    }
  }

  lemma HistoryGrows(cfg: Config, s: State, step: Step)
    ensures s.emitted <= Exec(cfg, s, step).emitted && s.ended <= Exec(cfg, s, step).ended
  {
    if RelayStep(step) {
      RelayWritesNone(cfg, s, step);
    } else if WorkerStep(step) {
      RowsUntouched(cfg, s, step);
    }
  }

  lemma NotOverwritten(cfg: Config, s: State, step: Step, e: EventId)
    requires Honest(s, e)
    ensures !Overwrites(cfg, s, step, e)
  {
  }

  predicate StaysTerminal(s: State, e: EventId) { e in s.ended && e in s.rows ==> Terminal(s.attempts, e) }

  lemma StepStaysTerminal(cfg: Config, s: State, step: Step, e: EventId)
    requires RetriesOk(cfg, s) && Known(s) && Honest(s, e) && StaysTerminal(s, e)
    ensures StaysTerminal(Exec(cfg, s, step), e)
  {
    var s' := Exec(cfg, s, step);
    if e in s'.ended && e in s'.rows {
      if e !in s.ended {
        NewlyEnded(cfg, s, step, e);
      } else if e !in s.rows {
        RowsOnlyEmitted(cfg, s, step, e);
      } else {
        NotOverwritten(cfg, s, step, e);
        TerminalityIsLostExactly(cfg, s, step, e);
      }
    }
  }

  /** Under the same conditions an event that has had a terminal record is terminal as long as its outbox
      row exists. */
  lemma {:induction false} TerminalUntilPurged(cfg: Config, steps: seq<Step>, e: EventId)
    requires 1 <= cfg.maxAttempts && SuccessIsFinal(cfg, steps, e)
    ensures StaysTerminal(Run(cfg, steps), e)
  {
    if steps != [] {
      var before := steps[..|steps| - 1];
      TerminalUntilPurged(cfg, before, e);
      HonestInRun(cfg, before, e);
      EveryRun(cfg, before);
      OnlyCommittedEventsTravel(cfg, before);
      StepStaysTerminal(cfg, Run(cfg, before), steps[|steps| - 1], e);
    }
  }
}
