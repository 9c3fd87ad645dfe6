/** What a finished job proves. The queue ignores an event whose job it still keeps, so a finished job must
    not hide an undelivered event. */
module PipelineFinished {
  import opened Pipeline
  import opened PipelineProof
  import opened PipelineDelivery
  import opened PipelineTheorems

  // ---- Every kind of wipe: a finished job has had a terminal record ----

  predicate Current(s: State, w: nat, e: EventId) {
    w in s.workers && s.workers[w].event == e && s.workers[w].epoch == s.epoch
  }

  predicate OwnsJob(s: State, w: nat)
    requires w in s.workers
  {
    var inv := s.workers[w];
    inv.event in s.queue && s.queue[inv.event].state == Active && inv.attempt == s.queue[inv.event].made + 1
  }

  /** A processor about to leave for good has a terminal record behind it. */
  predicate LeavesTrace(cfg: Config, s: State, w: nat)
    requires w in s.workers
  {
    var inv := s.workers[w];
    inv.stage == Returning || (inv.stage == Throwing && inv.attempt >= cfg.maxAttempts) ==> inv.event in s.ended
  }

  predicate Finished(s: State, e: EventId) { e in s.queue && s.queue[e].state in {Completed, Failed} }

  predicate Traced(cfg: Config, s: State, e: EventId) {
    && (forall w | w in s.workers && Current(s, w, e) :: OwnsJob(s, w))
    && (forall v, w | v in s.workers && w in s.workers && Current(s, v, e) && Current(s, w, e) :: v == w)
    && (forall w | w in s.workers && s.workers[w].event == e :: LeavesTrace(cfg, s, w))
    && (Finished(s, e) ==> e in s.ended)
  }

  lemma CallTraced(cfg: Config, s: State, c: Call, e: EventId)
    requires Traced(cfg, s, e)
    ensures Traced(cfg, Called(s, c), e)
  {
    forall w | w in s.workers && s.workers[w].event == e
      ensures LeavesTrace(cfg, Called(s, c), w) && (Current(s, w, e) ==> OwnsJob(Called(s, c), w))
    {
      assert LeavesTrace(cfg, s, w) && (Current(s, w, e) ==> OwnsJob(s, w));
    }
  }

  /** A processor moves on, keeping its job. */
  lemma MovedTraced(cfg: Config, s: State, s': State, w: nat, e: EventId)
    requires Traced(cfg, s, e) && w in s.workers && w in s'.workers && s'.workers == s.workers[w := s'.workers[w]]
    requires var a, b := s.workers[w], s'.workers[w]; a.event == b.event && a.attempt == b.attempt && a.epoch == b.epoch
    requires s'.queue == s.queue && s'.epoch == s.epoch && s.ended <= s'.ended
    requires s.workers[w].event == e ==> LeavesTrace(cfg, s', w)
    ensures Traced(cfg, s', e)
  {
    forall v | v in s'.workers && s'.workers[v].event == e
      ensures LeavesTrace(cfg, s', v) && (Current(s', v, e) ==> OwnsJob(s', v) && Current(s, v, e))
    {
      assert LeavesTrace(cfg, s, v) && (Current(s, v, e) ==> OwnsJob(s, v));
    }
  }

  lemma LeftTraced(cfg: Config, s: State, w: nat, e: EventId)
    requires Traced(cfg, s, e)
    ensures Traced(cfg, Left(s, w), e)
  {
    var s' := Left(s, w);
    forall v | v in s'.workers && s'.workers[v].event == e
      ensures LeavesTrace(cfg, s', v) && (Current(s', v, e) ==> OwnsJob(s', v) && Current(s, v, e))
    {
      assert LeavesTrace(cfg, s, v) && (Current(s, v, e) ==> OwnsJob(s, v));
    }
  }

  lemma SettledTraced(cfg: Config, s: State, w: nat, e: EventId)
    requires Traced(cfg, s, e) && (InStage(s, w, Returning) || InStage(s, w, Throwing))
    ensures Traced(cfg, Settled(cfg, s, w), e)
  {
    var s' := Settled(cfg, s, w);
    assert s.workers[w].event == e ==> LeavesTrace(cfg, s, w) && (Current(s, w, e) ==> OwnsJob(s, w));
    forall v | v in s'.workers && s'.workers[v].event == e
      ensures LeavesTrace(cfg, s', v) && (Current(s', v, e) ==> OwnsJob(s', v) && Current(s, v, e))
    {
      assert LeavesTrace(cfg, s, v) && (Current(s, v, e) ==> OwnsJob(s, v));
      assert Current(s, v, e) && Current(s, w, e) ==> v == w;
    }
  }

  lemma TakenTraced(cfg: Config, s: State, w: nat, x: EventId, e: EventId)
    requires Traced(cfg, s, e) && x in s.queue && s.queue[x].state == Waiting && w !in s.workers
    ensures Traced(cfg, Taken(s, w, x), e)
  {
    var s' := Taken(s, w, x);
    forall v | v in s.workers && s.workers[v].event == e
      ensures LeavesTrace(cfg, s', v) && (Current(s, v, e) ==> OwnsJob(s', v) && x != e)
    {
      assert LeavesTrace(cfg, s, v) && (Current(s, v, e) ==> OwnsJob(s, v));
    }
    forall u, v | u in s'.workers && v in s'.workers && Current(s', u, e) && Current(s', v, e)
      ensures u == v
    {
      assert u != w ==> Current(s, u, e);
      assert v != w ==> Current(s, v, e);
    }
  }

  lemma SucceededHasEnded(s: State, e: EventId)
    requires EndedOk(s) && HasSucceeded(s.attempts, e)
    ensures e in s.ended
  {
  }

  lemma WorkerTraced(cfg: Config, s: State, step: Step, e: EventId)
    requires Traced(cfg, s, e) && EndedOk(s) && Careful(cfg, FailuresReported, s, step, e) && WorkerStep(step)
    ensures Traced(cfg, ExecWorker(cfg, s, step), e)
  {
    if step.Take? {
      if step.event in s.queue && s.queue[step.event].state == Waiting && step.worker !in s.workers {
        TakenTraced(cfg, s, step.worker, step.event, e);
      }
    } else if step.WorkerCrash? {
      LeftTraced(cfg, s, step.worker, e);
    } else if step.worker in s.workers {
      ServingTraced(cfg, s, step, e);
    }
  }

  lemma ServingTraced(cfg: Config, s: State, step: Step, e: EventId)
    requires Traced(cfg, s, e) && EndedOk(s) && Careful(cfg, FailuresReported, s, step, e)
    requires WorkerStep(step) && !step.Take? && !step.WorkerCrash? && step.worker in s.workers
    ensures Traced(cfg, ExecWorker(cfg, s, step), e)
  {
    var w, inv := step.worker, s.workers[step.worker];
    if step.Check? && inv.stage == Checking {
      if HasSucceeded(s.attempts, inv.event) { SucceededHasEnded(s, inv.event); }
      MovedTraced(cfg, s, Proceed(s, w, if HasSucceeded(s.attempts, inv.event) then Returning else Sending), w, e);
    } else if step.CheckFails? && inv.stage == Checking {
      MovedTraced(cfg, s, Proceed(s, w, Catching), w, e);
    } else if step.Send? && inv.stage == Sending {
      MovedTraced(cfg, s, Answered(s, w, step.reply), w, e);
    } else if step.Record? && inv.stage == Accepted {
      MovedTraced(cfg, s, Recorded(s, w, Succeeded, Returning), w, e);
    } else if step.RecordFails? && inv.stage == Accepted {
      MovedTraced(cfg, s, Unrecorded(s, w, step.reached), w, e);
    } else if step.Report? && inv.stage == Catching {
      MovedTraced(cfg, s, Recorded(s, w, FailureStatus(cfg, inv), Throwing), w, e);
    } else if step.ReportFails? && inv.stage == Catching {
      MovedTraced(cfg, s, Proceed(s, w, Throwing), w, e);
    } else if step.Settle? && inv.stage in {Returning, Throwing} {
      SettledTraced(cfg, s, w, e);
    }
  }

  lemma WaitingTraced(cfg: Config, s: State, x: EventId, e: EventId)
    requires Traced(cfg, s, e) && x in s.queue && s.queue[x].state == Active && !Running(s, x)
    ensures Traced(cfg, WithJob(s, x, Waiting), e)
  {
    var s' := WithJob(s, x, Waiting);
    forall w | w in s.workers && s.workers[w].event == e
      ensures LeavesTrace(cfg, s', w) && (Current(s, w, e) ==> OwnsJob(s', w))
    {
      assert LeavesTrace(cfg, s, w) && (Current(s, w, e) ==> OwnsJob(s, w));
    }
  }

  lemma RemovedTraced(cfg: Config, s: State, x: EventId, e: EventId)
    requires Traced(cfg, s, e) && x in s.queue && s.queue[x].state == Completed
    ensures Traced(cfg, WithoutJob(s, x), e)
  {
    var s' := WithoutJob(s, x);
    forall w | w in s.workers && s.workers[w].event == e
      ensures LeavesTrace(cfg, s', w) && (Current(s, w, e) ==> OwnsJob(s', w))
    {
      assert LeavesTrace(cfg, s, w) && (Current(s, w, e) ==> OwnsJob(s, w));
    }
  }

  lemma WipedTraced(cfg: Config, s: State, survivors: bool, e: EventId)
    requires Traced(cfg, s, e) && RetriesOk(cfg, s)
    ensures Traced(cfg, Wiped(s, survivors), e)
  {
    forall w | w in Wiped(s, survivors).workers && s.workers[w].event == e
      ensures LeavesTrace(cfg, Wiped(s, survivors), w) && !Current(Wiped(s, survivors), w, e)
    {
      assert LeavesTrace(cfg, s, w);
    }
  }

  /** Steps that leave jobs, processors and endings alone. */
  lemma FrameTraced(cfg: Config, s: State, s': State, e: EventId)
    requires Traced(cfg, s, e)
    requires s'.queue == s.queue && s'.workers == s.workers && s'.epoch == s.epoch && s'.ended == s.ended
    ensures Traced(cfg, s', e)
  {
    forall w | w in s.workers && s.workers[w].event == e
      ensures LeavesTrace(cfg, s', w) && (Current(s', w, e) ==> OwnsJob(s', w))
    {
      assert LeavesTrace(cfg, s, w) && (Current(s, w, e) ==> OwnsJob(s, w));
    }
  }

  lemma QueueUntouched(cfg: Config, s: State, step: Step)
    requires !step.Wipe? && !step.Recover? && !step.RemoveCompleted?
    ensures var s' := Housekeep(cfg, s, step);
            s'.queue == s.queue && s'.workers == s.workers && s'.epoch == s.epoch && s'.ended == s.ended
  {
  }

  lemma HousekeepingTraced(cfg: Config, s: State, step: Step, e: EventId)
    requires Traced(cfg, s, e) && RetriesOk(cfg, s)
    ensures Traced(cfg, Housekeep(cfg, s, step), e)
  {
    if step.Wipe? {
      WipedTraced(cfg, s, step.survivors, e);
    } else if step.Recover? || step.RemoveCompleted? {
      var x := step.event;
      if step.Recover? && x in s.queue && s.queue[x].state == Active && !Running(s, x) {
        WaitingTraced(cfg, s, x, e);
      } else if step.RemoveCompleted? && x in s.queue && s.queue[x].state == Completed {
        RemovedTraced(cfg, s, x, e);
      }
    } else {
      QueueUntouched(cfg, s, step);
      FrameTraced(cfg, s, Housekeep(cfg, s, step), e);
    }
  }

  lemma {:induction false} TracedInRun(cfg: Config, steps: seq<Step>, e: EventId)
    requires 1 <= cfg.maxAttempts && Always(cfg, FailuresReported, steps, e)
    ensures Traced(cfg, Run(cfg, steps), e)
  {
    if steps != [] {
      var before, step := steps[..|steps| - 1], steps[|steps| - 1];
      var s := Run(cfg, before);
      TracedInRun(cfg, before, e);
      EveryRun(cfg, before);
      if RelayStep(step) {
        if CallOf(cfg, s, step).Some? { CallTraced(cfg, s, CallOf(cfg, s, step).value, e); }
      } else if WorkerStep(step) {
        WorkerTraced(cfg, s, step, e);
      } else {
        HousekeepingTraced(cfg, s, step, e);
      }
    }
  }

  /** With surviving processors, failing look-ups, lost records and any number of wipes: the event of a
      finished job has had a terminal record, if its own last failures were reported. */
  lemma FinishedMeansRecorded(cfg: Config, steps: seq<Step>, e: EventId)
    requires 1 <= cfg.maxAttempts && Always(cfg, FailuresReported, steps, e)
    requires Finished(Run(cfg, steps), e)
    ensures e in Run(cfg, steps).ended
  {
    TracedInRun(cfg, steps, e);
  }

  /** A last attempt that has failed, of an event without a terminal record, leaves a failed job that every
      further add runs into; whether it leaves a terminal record is whether it was reported. */
  lemma LastFailureHides(cfg: Config, s: State, w: nat, e: EventId, reported: bool)
    requires Serving(s, w, e, Catching) && Current(s, w, e) && OwnsJob(s, w)
    requires s.workers[w].attempt == cfg.maxAttempts && e !in s.ended
    ensures var s' := Exec(cfg, Exec(cfg, s, if reported then Report(w) else ReportFails(w)), Settle(w));
            && e in s'.queue && s'.queue[e].state == Failed && Enqueued(s'.queue, e) == s'.queue
            && (e in s'.ended <==> reported)
  {
    var mid := if reported then Recorded(s, w, DeadLettered, Throwing) else Proceed(s, w, Throwing);
    assert Exec(cfg, s, if reported then Report(w) else ReportFails(w)) == mid;
    assert Exec(cfg, mid, Settle(w)) == Settled(cfg, mid, w);
  }

  // ---- Wipes that stop the event's processor: the record is still there ----

  /** A processor that has thrown for the last time, and a failed job, leave the event terminal. */
  predicate Closing(cfg: Config, s: State, e: EventId) {
    e in s.rows ==>
      && (forall w | w in s.workers && s.workers[w].event == e && s.workers[w].stage == Throwing && s.workers[w].attempt >= cfg.maxAttempts ::
            Terminal(s.attempts, e))
      && (e in s.queue && s.queue[e].state == Failed ==> Terminal(s.attempts, e))
  }

  lemma RelayKeepsClosing(cfg: Config, s: State, step: Step, e: EventId)
    requires Closing(cfg, s, e)
    ensures Closing(cfg, ExecRelay(cfg, s, step), e)
  {
    if CallOf(cfg, s, step).Some? { CallKeepsClosing(cfg, s, CallOf(cfg, s, step).value, e); }
  }

  lemma CallKeepsClosing(cfg: Config, s: State, c: Call, e: EventId)
    requires Closing(cfg, s, e) && (c.row.Some? ==> c.event in s.rows)
    ensures Closing(cfg, Called(s, c), e)
  {
  }

  lemma ProceedKeepsClosing(cfg: Config, s: State, w: nat, stage: Stage, e: EventId)
    requires Closing(cfg, s, e) && w in s.workers
    requires stage == Throwing && s.workers[w].event == e ==> s.workers[w].attempt < cfg.maxAttempts
    ensures Closing(cfg, Proceed(s, w, stage), e)
  {
  }

  lemma AnsweredKeepsClosing(cfg: Config, s: State, w: nat, reply: Reply, e: EventId)
    requires Closing(cfg, s, e) && w in s.workers
    ensures Closing(cfg, Answered(s, w, reply), e)
  {
  }

  lemma ElsewhereTerminal(attempts: Attempts, k: AttemptKey, status: DeliveryStatus, e: EventId)
    requires k.event != e || status != Retrying
    ensures Terminal(attempts, e) ==> Terminal(attempts[k := status], e)
  {
    if Terminal(attempts, e) { UpsertKeepsTerminal(attempts, k, status, e); }
  }

  lemma RecordedKeepsClosing(cfg: Config, s: State, w: nat, status: DeliveryStatus, stage: Stage, e: EventId)
    requires Closing(cfg, s, e) && Alone(s, e) && w in s.workers
    requires stage == Throwing ==> status == FailureStatus(cfg, s.workers[w])
    requires status == Retrying ==> stage == Throwing
    ensures Closing(cfg, Recorded(s, w, status, stage), e)
  {
    var inv := s.workers[w];
    if status != Retrying { RecordedIsTerminal(s, w, status, stage); }
    if inv.event == e { assert Proper(s, w); }
    if inv.event != e || status != Retrying { ElsewhereTerminal(s.attempts, AttemptKey(inv.event, inv.attempt), status, e); }
  }

  lemma SettledKeepsClosing(cfg: Config, s: State, w: nat, e: EventId)
    requires Closing(cfg, s, e) && Alone(s, e) && (InStage(s, w, Returning) || InStage(s, w, Throwing))
    ensures Closing(cfg, Settled(cfg, s, w), e)
  {
    if s.workers[w].event == e { assert Proper(s, w); }
  }

  lemma TakenKeepsClosing(cfg: Config, s: State, w: nat, x: EventId, e: EventId)
    requires Closing(cfg, s, e) && x in s.queue && w !in s.workers
    ensures Closing(cfg, Taken(s, w, x), e)
  {
  }

  lemma WorkerKeepsClosing(cfg: Config, s: State, step: Step, e: EventId)
    requires Closing(cfg, s, e) && Alone(s, e) && Careful(cfg, FailuresReported, s, step, e) && WorkerStep(step)
    ensures Closing(cfg, ExecWorker(cfg, s, step), e)
  {
    if step.Take? {
      if step.event in s.queue && step.worker !in s.workers { TakenKeepsClosing(cfg, s, step.worker, step.event, e); }
    } else if step.worker in s.workers {
      var w, inv := step.worker, s.workers[step.worker];
      if step.Check? && inv.stage == Checking {
        ProceedKeepsClosing(cfg, s, w, if HasSucceeded(s.attempts, inv.event) then Returning else Sending, e);
      } else if step.CheckFails? && inv.stage == Checking {
        ProceedKeepsClosing(cfg, s, w, Catching, e);
      } else if step.Send? && inv.stage == Sending {
        AnsweredKeepsClosing(cfg, s, w, step.reply, e);
      } else if step.Record? && inv.stage == Accepted {
        RecordedKeepsClosing(cfg, s, w, Succeeded, Returning, e);
      } else if step.RecordFails? && inv.stage == Accepted {
        if step.reached { RecordedKeepsClosing(cfg, s, w, Succeeded, Catching, e); } else { ProceedKeepsClosing(cfg, s, w, Catching, e); }
      } else if step.Report? && inv.stage == Catching {
        RecordedKeepsClosing(cfg, s, w, FailureStatus(cfg, inv), Throwing, e);
      } else if step.ReportFails? && inv.stage == Catching {
        ProceedKeepsClosing(cfg, s, w, Throwing, e);
      } else if step.Settle? && inv.stage in {Returning, Throwing} {
        SettledKeepsClosing(cfg, s, w, e);
      }
    }
  }

  lemma HousekeepingKeepsClosing(cfg: Config, s: State, step: Step, e: EventId)
    requires Closing(cfg, s, e) && Known(s) && !RelayStep(step) && !WorkerStep(step)
    ensures Closing(cfg, Housekeep(cfg, s, step), e)
  {
    if step.PurgeAttempt? && step.key.event != e && Terminal(s.attempts, e) {
      PurgeKeepsTerminal(s.attempts, step.key, e);
    }
  }

  lemma {:induction false} ClosingInRun(cfg: Config, steps: seq<Step>, e: EventId)
    requires 1 <= cfg.maxAttempts && Always(cfg, WipesStop, steps, e) && Always(cfg, FailuresReported, steps, e)
    ensures Closing(cfg, Run(cfg, steps), e)
  {
    if steps != [] {
      var before, step := steps[..|steps| - 1], steps[|steps| - 1];
      var s := Run(cfg, before);
      ClosingInRun(cfg, before, e);
      AloneInRun(cfg, before, e);
      OnlyCommittedEventsTravel(cfg, before);
      if RelayStep(step) {
        RelayKeepsClosing(cfg, s, step, e);
      } else if WorkerStep(step) {
        WorkerKeepsClosing(cfg, s, step, e);
      } else {
        HousekeepingKeepsClosing(cfg, s, step, e);
      }
    }
  }

  lemma SucceededIsTerminal(attempts: Attempts, e: EventId)
    requires HasSucceeded(attempts, e)
    ensures Terminal(attempts, e)
  {
  }

  /** An event that reconciliation adds again never has a finished job, so the add takes effect or the job
      is waiting or active; failing look-ups and lost records included. */
  lemma FinishedNeverHides(cfg: Config, steps: seq<Step>, e: EventId, at: nat)
    requires 1 <= cfg.maxAttempts && Always(cfg, WipesStop, steps, e) && Always(cfg, FailuresReported, steps, e)
    requires Candidate(Run(cfg, steps), e, at)
    ensures !Finished(Run(cfg, steps), e)
  {
    ClosingInRun(cfg, steps, e);
    AloneInRun(cfg, steps, e);
    if HasSucceeded(Run(cfg, steps).attempts, e) { SucceededIsTerminal(Run(cfg, steps).attempts, e); }
  }
}
