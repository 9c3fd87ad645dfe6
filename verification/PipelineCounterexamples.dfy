/** For each thing `PipelineDelivery` asks the surroundings to take care of, runs in which only that is
    missing, for one event, and the guarantees are lost. */
module PipelineCounterexamples {
  import opened Options
  import opened Pipeline
  import opened PipelineDelivery
  import opened PipelineTheorems
  import opened PipelineFinished

  // ---- Runs about event 0 ----

  /** All that is followed of a state: the row of event 0 is published throughout. `stale` are relays that
      have claimed the event and lost their lease, but not their memory of it. */
  datatype Scene = Scene(epoch: nat, workers: map<nat, Invocation>, job: Option<Job>, attempts: Attempts,
                         finished: nat, accepted: nat, ended: bool, stale: set<nat>)

  predicate Depicts(s: State, scene: Scene) {
    && s.epoch == scene.epoch && s.workers == scene.workers && s.attempts == scene.attempts
    && (0 in s.queue <==> scene.job.Some?) && (scene.job.Some? ==> s.queue[0] == scene.job.value)
    && Tally(s.finished, 0) == scene.finished && Tally(s.accepted, 0) == scene.accepted
    && (0 in s.ended <==> scene.ended)
    && (forall r | r in scene.stale :: Holds(s, r, 0, Claimed))
    && 0 in s.rows && s.rows[0].status == Published && s.rows[0].publishedAt.Some?
  }

  /** A run, what it has led to, and what was not taken care of. */
  datatype Play = Play(steps: seq<Step>, scene: Scene, broken: set<Care>)

  predicate AllBut(cfg: Config, steps: seq<Step>, broken: set<Care>) {
    forall care: Care | care !in broken :: Always(cfg, care, steps, 0)
  }

  predicate Plays(cfg: Config, p: Play) { Depicts(Run(cfg, p.steps), p.scene) && AllBut(cfg, p.steps, p.broken) }

  lemma Goes(cfg: Config, p: Play, step: Step, scene: Scene)
    requires Plays(cfg, p)
    requires forall care: Care | care !in p.broken :: Careful(cfg, care, Run(cfg, p.steps), step, 0)
    requires Depicts(Exec(cfg, Run(cfg, p.steps), step), scene)
    ensures Plays(cfg, Play(p.steps + [step], scene, p.broken))
  {
    RunSnoc(cfg, p.steps, step);
    var steps := p.steps + [step];
    assert steps[..|steps| - 1] == p.steps;
    forall care: Care | care !in p.broken
      ensures Always(cfg, care, steps, 0)
    {
      assert Always(cfg, care, p.steps, 0);
    }
  }

  // ---- Two relays lose their lease, a third one publishes ----

  predicate Claims(cfg: Config, steps: seq<Step>, relays: set<nat>) {
    var s := Run(cfg, steps);
    && AllBut(cfg, steps, {})
    && s.epoch == 0 && s.workers == map[] && s.attempts == map[] && s.queue == map[]
    && s.finished == map[] && s.accepted == map[] && s.ended == {}
    && (forall r | r in relays :: Holds(s, r, 0, Claimed))
    && 0 in s.rows && s.rows[0].availableAt <= s.now
    && (if relays == {} then s.rows[0].status == Pending
        else s.rows[0].status == Processing && s.rows[0].lockUntil == Some(s.now + LEASE))
  }

  lemma Quiet(cfg: Config, steps: seq<Step>, step: Step)
    requires AllBut(cfg, steps, {}) && Run(cfg, steps).workers == map[]
    ensures AllBut(cfg, steps + [step], {}) && Run(cfg, steps + [step]) == Exec(cfg, Run(cfg, steps), step)
  {
    RunSnoc(cfg, steps, step);
    assert (steps + [step])[..|steps|] == steps;
    forall care: Care | care !in {}
      ensures Always(cfg, care, steps + [step], 0)
    {
      assert Always(cfg, care, steps, 0);
    }
  }

  lemma EmittedFirst(cfg: Config)
    ensures Claims(cfg, [Emit(0, 0)], {})
  {
    assert Run(cfg, []) == INITIAL;
    assert AllBut(cfg, [], {});
    Quiet(cfg, [], Emit(0, 0));
    assert [] + [Emit(0, 0)] == [Emit(0, 0)];
  }

  lemma ClaimedAgain(cfg: Config, steps: seq<Step>, relays: set<nat>, r: nat) returns (longer: seq<Step>)
    requires Claims(cfg, steps, relays)
    ensures Claims(cfg, longer, relays + {r})
  {
    var s := Run(cfg, steps);
    Quiet(cfg, steps, Tick(LEASE + 1));
    var s1 := Exec(cfg, s, Tick(LEASE + 1));
    assert s1 == s.(now := s.now + LEASE + 1);
    Quiet(cfg, steps + [Tick(LEASE + 1)], Claim(r, 0, s1.now));
    longer := steps + [Tick(LEASE + 1)] + [Claim(r, 0, s1.now)];
    assert Token(r, 0, Claimed) in Run(cfg, longer).tokens;
  }

  lemma AddedByThird(cfg: Config, steps: seq<Step>)
    requires Claims(cfg, steps, {0, 1, 2})
    ensures var s := Run(cfg, steps + [AddOk(2, 0)]);
            && AllBut(cfg, steps + [AddOk(2, 0)], {}) && Holds(s, 2, 0, Added)
            && s == Run(cfg, steps).(tokens := s.tokens, queue := map[0 := Job(Waiting, 0)], queued := s.queued)
            && Holds(s, 0, 0, Claimed) && Holds(s, 1, 0, Claimed)
  {
    Quiet(cfg, steps, AddOk(2, 0));
  }

  lemma StaleRelays(cfg: Config, broken: set<Care>) returns (p: Play)
    ensures Plays(cfg, p) && p.broken == broken
    ensures p.scene == Scene(0, map[], Some(Job(Waiting, 0)), map[], 0, 0, false, {0, 1})
  {
    EmittedFirst(cfg);
    var first := ClaimedAgain(cfg, [Emit(0, 0)], {}, 0);
    var second := ClaimedAgain(cfg, first, {0}, 1);
    var third := ClaimedAgain(cfg, second, {0} + {1}, 2);
    assert {0} + {1} + {2} == {0, 1, 2} && {} + {0} == {0};
    AddedByThird(cfg, third);
    p := PublishedByThird(cfg, third + [AddOk(2, 0)], broken);
  }

  lemma PublishedByThird(cfg: Config, steps: seq<Step>, broken: set<Care>) returns (p: Play)
    requires var s := Run(cfg, steps);
             && AllBut(cfg, steps, {}) && Holds(s, 0, 0, Claimed) && Holds(s, 1, 0, Claimed) && Holds(s, 2, 0, Added)
             && s.epoch == 0 && s.workers == map[] && s.attempts == map[] && s.queue == map[0 := Job(Waiting, 0)]
             && s.finished == map[] && s.accepted == map[] && s.ended == {}
             && 0 in s.rows && s.rows[0].status == Processing
    ensures Plays(cfg, p) && p.broken == broken
    ensures p.scene == Scene(0, map[], Some(Job(Waiting, 0)), map[], 0, 0, false, {0, 1})
  {
    Quiet(cfg, steps, Publish(2, 0));
    p := Play(steps + [Publish(2, 0)], Scene(0, map[], Some(Job(Waiting, 0)), map[], 0, 0, false, {0, 1}), broken);
  }

  // ---- Steps, one at a time ----

  /** What a step leads to on the scene: the conditions of the lemmas below say when. */
  function On(p: Play, step: Step, scene: Scene): Play { Play(p.steps + [step], scene, p.broken) }

  function MovedOn(scene: Scene, w: nat, stage: Stage): Scene
    requires w in scene.workers
  {
    scene.(workers := scene.workers[w := scene.workers[w].(stage := stage)])
  }

  predicate Working(scene: Scene, w: nat, stage: Stage) {
    w in scene.workers && scene.workers[w].event == 0 && scene.workers[w].stage == stage
  }

  lemma Taking(cfg: Config, p: Play, w: nat) returns (q: Play)
    requires Plays(cfg, p) && p.scene.job.Some? && p.scene.job.value.state == Waiting && w !in p.scene.workers
    ensures Plays(cfg, q)
    ensures var made := p.scene.job.value.made;
            q == On(p, Take(w, 0), p.scene.(job := Some(Job(Active, made)),
                                            workers := p.scene.workers[w := Invocation(0, made + 1, p.scene.epoch, Checking, false)]))
  {
    var made := p.scene.job.value.made;
    q := On(p, Take(w, 0), p.scene.(job := Some(Job(Active, made)),
                                    workers := p.scene.workers[w := Invocation(0, made + 1, p.scene.epoch, Checking, false)]));
    Goes(cfg, p, Take(w, 0), q.scene);
  }

  lemma Looking(cfg: Config, p: Play, w: nat) returns (q: Play)
    requires Plays(cfg, p) && Working(p.scene, w, Checking) && !HasSucceeded(p.scene.attempts, 0)
    ensures Plays(cfg, q) && q == On(p, Check(w), MovedOn(p.scene, w, Sending))
  {
    q := On(p, Check(w), MovedOn(p.scene, w, Sending));
    Goes(cfg, p, Check(w), q.scene);
  }

  lemma LookingInVain(cfg: Config, p: Play, w: nat) returns (q: Play)
    requires Plays(cfg, p) && Working(p.scene, w, Checking) && LookUpsWork in p.broken
    ensures Plays(cfg, q) && q == On(p, CheckFails(w), MovedOn(p.scene, w, Catching))
  {
    q := On(p, CheckFails(w), MovedOn(p.scene, w, Catching));
    Goes(cfg, p, CheckFails(w), q.scene);
  }

  function Answer(scene: Scene, w: nat, reply: Reply): Scene
    requires w in scene.workers
  {
    scene.(workers := scene.workers[w := scene.workers[w].(sent := true, stage := if reply.Acknowledged? then Accepted else Catching)],
           accepted := scene.accepted + if reply.Refused? then 0 else 1)
  }

  lemma Delivering(cfg: Config, p: Play, w: nat, reply: Reply) returns (q: Play)
    requires Plays(cfg, p) && Working(p.scene, w, Sending) && (reply.Unheard? ==> SendsAcknowledged in p.broken)
    ensures Plays(cfg, q) && q == On(p, Send(w, reply), Answer(p.scene, w, reply))
  {
    q := On(p, Send(w, reply), Answer(p.scene, w, reply));
    Goes(cfg, p, Send(w, reply), q.scene);
  }

  function Written(scene: Scene, w: nat, status: DeliveryStatus, stage: Stage): Scene
    requires w in scene.workers
  {
    MovedOn(scene, w, stage).(attempts := scene.attempts[AttemptKey(0, scene.workers[w].attempt) := status],
                            ended := scene.ended || status != Retrying)
  }

  lemma Recording(cfg: Config, p: Play, w: nat) returns (q: Play)
    requires Plays(cfg, p) && Working(p.scene, w, Accepted)
    ensures Plays(cfg, q) && q == On(p, Record(w), Written(p.scene, w, Succeeded, Returning))
  {
    q := On(p, Record(w), Written(p.scene, w, Succeeded, Returning));
    Goes(cfg, p, Record(w), q.scene);
  }

  lemma RecordingInVain(cfg: Config, p: Play, w: nat) returns (q: Play)
    requires Plays(cfg, p) && Working(p.scene, w, Accepted) && RecordsFollow in p.broken
    ensures Plays(cfg, q) && q == On(p, RecordFails(w, false), MovedOn(p.scene, w, Catching))
  {
    q := On(p, RecordFails(w, false), MovedOn(p.scene, w, Catching));
    Goes(cfg, p, RecordFails(w, false), q.scene);
  }

  lemma RecordingUnheard(cfg: Config, p: Play, w: nat) returns (q: Play)
    requires Plays(cfg, p) && Working(p.scene, w, Accepted) && {SuccessesAcknowledged, RecordsFollow} <= p.broken
    ensures Plays(cfg, q) && q == On(p, RecordFails(w, true), Written(p.scene, w, Succeeded, Catching))
  {
    q := On(p, RecordFails(w, true), Written(p.scene, w, Succeeded, Catching));
    Goes(cfg, p, RecordFails(w, true), q.scene);
  }

  lemma Reporting(cfg: Config, p: Play, w: nat) returns (q: Play)
    requires Plays(cfg, p) && Working(p.scene, w, Catching)
    ensures Plays(cfg, q)
    ensures q == On(p, Report(w), Written(p.scene, w, FailureStatus(cfg, p.scene.workers[w]), Throwing))
  {
    q := On(p, Report(w), Written(p.scene, w, FailureStatus(cfg, p.scene.workers[w]), Throwing));
    Goes(cfg, p, Report(w), q.scene);
  }

  lemma ReportingInVain(cfg: Config, p: Play, w: nat) returns (q: Play)
    requires Plays(cfg, p) && Working(p.scene, w, Catching) && FailuresReported in p.broken
    ensures Plays(cfg, q) && q == On(p, ReportFails(w), MovedOn(p.scene, w, Throwing))
  {
    q := On(p, ReportFails(w), MovedOn(p.scene, w, Throwing));
    Goes(cfg, p, ReportFails(w), q.scene);
  }

  lemma Settling(cfg: Config, p: Play, w: nat) returns (q: Play)
    requires Plays(cfg, p) && (Working(p.scene, w, Returning) || Working(p.scene, w, Throwing))
    requires p.scene.workers[w].epoch == p.scene.epoch && (p.scene.workers[w].sent || p.scene.workers[w].stage == Throwing)
    requires p.scene.job.Some? && p.scene.job.value.state == Active
    ensures Plays(cfg, q)
    ensures q == On(p, Settle(w), p.scene.(workers := p.scene.workers - {w}, finished := p.scene.finished + 1,
                                           job := Some(SettledJob(cfg, p.scene.job.value, p.scene.workers[w]))))
  {
    q := On(p, Settle(w), p.scene.(workers := p.scene.workers - {w}, finished := p.scene.finished + 1,
                                   job := Some(SettledJob(cfg, p.scene.job.value, p.scene.workers[w]))));
    Goes(cfg, p, Settle(w), q.scene);
  }

  lemma Crashing(cfg: Config, p: Play, w: nat) returns (q: Play)
    requires Plays(cfg, p) && w in p.scene.workers && (p.scene.workers[w].stage == Accepted ==> RecordsFollow in p.broken)
    ensures Plays(cfg, q) && q == On(p, WorkerCrash(w), p.scene.(workers := p.scene.workers - {w}))
  {
    q := On(p, WorkerCrash(w), p.scene.(workers := p.scene.workers - {w}));
    Goes(cfg, p, WorkerCrash(w), q.scene);
  }

  lemma Recovering(cfg: Config, p: Play) returns (q: Play)
    requires Plays(cfg, p) && p.scene.workers == map[] && p.scene.job.Some? && p.scene.job.value.state == Active
    ensures Plays(cfg, q) && q == On(p, Recover(0), p.scene.(job := Some(Job(Waiting, p.scene.job.value.made))))
  {
    q := On(p, Recover(0), p.scene.(job := Some(Job(Waiting, p.scene.job.value.made))));
    Goes(cfg, p, Recover(0), q.scene);
  }

  lemma Removing(cfg: Config, p: Play) returns (q: Play)
    requires Plays(cfg, p) && p.scene.job.Some? && p.scene.job.value.state == Completed
    ensures Plays(cfg, q) && q == On(p, RemoveCompleted(0), p.scene.(job := None))
  {
    q := On(p, RemoveCompleted(0), p.scene.(job := None));
    Goes(cfg, p, RemoveCompleted(0), q.scene);
  }

  lemma Wiping(cfg: Config, p: Play, survivors: bool) returns (q: Play)
    requires Plays(cfg, p) && (survivors ==> WipesStop in p.broken)
    requires forall w | w in p.scene.workers :: p.scene.workers[w].stage == Accepted ==> RecordsFollow in p.broken
    ensures Plays(cfg, q)
    ensures q == On(p, Wipe(survivors), p.scene.(job := None, epoch := p.scene.epoch + 1, finished := 0,
                                                 workers := if survivors then p.scene.workers else map[]))
  {
    q := On(p, Wipe(survivors), p.scene.(job := None, epoch := p.scene.epoch + 1, finished := 0,
                                         workers := if survivors then p.scene.workers else map[]));
    Goes(cfg, p, Wipe(survivors), q.scene);
  }

  /** A stale relay gets round to its add. */
  lemma Adding(cfg: Config, p: Play, r: nat) returns (q: Play)
    requires Plays(cfg, p) && p.scene.job.None? && r in p.scene.stale
    ensures Plays(cfg, q) && q == On(p, AddOk(r, 0), p.scene.(job := Some(Job(Waiting, 0)), stale := p.scene.stale - {r}))
  {
    q := On(p, AddOk(r, 0), p.scene.(job := Some(Job(Waiting, 0)), stale := p.scene.stale - {r}));
    Goes(cfg, p, AddOk(r, 0), q.scene);
  }

  // ---- Sequences of steps ----

  predicate Idle(scene: Scene, made: nat) { scene.workers == map[] && scene.job == Some(Job(Waiting, made)) }

  lemma TakeAndLook(cfg: Config, p: Play, w: nat) returns (q: Play)
    requires Plays(cfg, p) && p.scene.job.Some? && p.scene.job.value.state == Waiting && w !in p.scene.workers
    requires !HasSucceeded(p.scene.attempts, 0)
    ensures Plays(cfg, q) && q.broken == p.broken
    ensures var made := p.scene.job.value.made;
            q.scene == p.scene.(job := Some(Job(Active, made)),
                                workers := p.scene.workers[w := Invocation(0, made + 1, p.scene.epoch, Sending, false)])
  {
    q := Taking(cfg, p, w);
    q := Looking(cfg, q, w);
  }

  lemma Delivers(cfg: Config, p: Play, w: nat) returns (q: Play)
    requires Plays(cfg, p) && p.scene.job.Some? && p.scene.job.value.state == Waiting && w !in p.scene.workers
    requires !HasSucceeded(p.scene.attempts, 0)
    ensures Plays(cfg, q) && q.broken == p.broken
    ensures var made := p.scene.job.value.made;
            q.scene == p.scene.(job := Some(Job(Active, made)), accepted := p.scene.accepted + 1,
                                workers := p.scene.workers[w := Invocation(0, made + 1, p.scene.epoch, Accepted, true)])
  {
    q := TakeAndLook(cfg, p, w);
    q := Delivering(cfg, q, w, Acknowledged);
  }

  /** The report of a failed attempt, and the job put back or given up. */
  lemma GiveUp(cfg: Config, p: Play, w: nat, made: nat) returns (q: Play)
    requires Plays(cfg, p) && Working(p.scene, w, Catching) && p.scene.workers.Keys == {w}
    requires p.scene.workers[w].epoch == p.scene.epoch && p.scene.workers[w].attempt == made + 1
    requires p.scene.job == Some(Job(Active, made)) && made < cfg.maxAttempts
    ensures Plays(cfg, q) && q.broken == p.broken
    ensures var last := made + 1 == cfg.maxAttempts;
            q.scene == p.scene.(workers := map[], job := Some(Job(if last then Failed else Waiting, made + 1)),
                                finished := p.scene.finished + 1, ended := p.scene.ended || last,
                                attempts := p.scene.attempts[AttemptKey(0, made + 1) := if last then DeadLettered else Retrying])
  {
    q := Reporting(cfg, p, w);
    q := Settling(cfg, q, w);
    assert q.scene.workers == map[];
  }

  lemma Reject(cfg: Config, p: Play) returns (q: Play)
    requires Plays(cfg, p) && p.scene.workers == map[] && p.scene.job.Some? && p.scene.job.value.state == Waiting
    requires !HasSucceeded(p.scene.attempts, 0)
    ensures Plays(cfg, q) && q.broken == p.broken
    ensures var made := p.scene.job.value.made;
            q.scene == p.scene.(job := Some(Job(Active, made)), workers := map[0 := Invocation(0, made + 1, p.scene.epoch, Catching, true)])
  {
    q := TakeAndLook(cfg, p, 0);
    q := Delivering(cfg, q, 0, Refused);
  }

  lemma Fail(cfg: Config, p: Play, made: nat) returns (q: Play)
    requires Plays(cfg, p) && Idle(p.scene, made) && made < cfg.maxAttempts && !HasSucceeded(p.scene.attempts, 0)
    ensures Plays(cfg, q) && q.broken == p.broken
    ensures var last := made + 1 == cfg.maxAttempts;
            q.scene == p.scene.(job := Some(Job(if last then Failed else Waiting, made + 1)),
                                finished := p.scene.finished + 1, ended := p.scene.ended || last,
                                attempts := p.scene.attempts[AttemptKey(0, made + 1) := if last then DeadLettered else Retrying])
  {
    q := Reject(cfg, p);
    q := GiveUp(cfg, q, 0, made);
  }

  predicate OnlyRetrying(attempts: Attempts) { forall k | k in attempts :: attempts[k] == Retrying }

  /** Failed attempts up to, and not including, the last one. */
  lemma {:induction false} FailUpTo(cfg: Config, p: Play, n: nat) returns (q: Play)
    requires Plays(cfg, p) && Idle(p.scene, 0) && n < cfg.maxAttempts && OnlyRetrying(p.scene.attempts)
    ensures Plays(cfg, q) && q.broken == p.broken && Idle(q.scene, n) && OnlyRetrying(q.scene.attempts)
    ensures q.scene == p.scene.(job := q.scene.job, attempts := q.scene.attempts, finished := p.scene.finished + n)
  {
    if n == 0 {
      q := p;
    } else {
      q := FailUpTo(cfg, p, n - 1);
      q := Fail(cfg, q, n - 1);
    }
  }

  /** All attempts that are left fail. */
  lemma FailAll(cfg: Config, p: Play, made: nat) returns (q: Play)
    requires Plays(cfg, p) && made <= cfg.maxAttempts && !HasSucceeded(p.scene.attempts, 0)
    requires p.scene.workers == map[] && (made < cfg.maxAttempts ==> Idle(p.scene, made))
    ensures Plays(cfg, q) && q.broken == p.broken && q.scene.finished == p.scene.finished + cfg.maxAttempts - made
    decreases cfg.maxAttempts - made
  {
    if made == cfg.maxAttempts {
      q := p;
    } else {
      q := Fail(cfg, p, made);
      Upserted(p.scene.attempts, AttemptKey(0, made + 1), q.scene.attempts[AttemptKey(0, made + 1)], 0);
      q := FailAll(cfg, q, made + 1);
    }
  }

  /** The first delivery, recorded, its processor about to return. */
  lemma FirstSuccess(cfg: Config, broken: set<Care>) returns (p: Play)
    ensures Plays(cfg, p) && p.broken == broken
    ensures p.scene == Scene(0, map[0 := Invocation(0, 1, 0, Returning, true)], Some(Job(Active, 0)),
                             map[AttemptKey(0, 1) := Succeeded], 0, 1, true, {0, 1})
  {
    p := StaleRelays(cfg, broken);
    p := Delivers(cfg, p, 0);
    p := Recording(cfg, p, 0);
  }

  // ---- A failed look-up after a success ----

  lemma LookUpFailed(cfg: Config, p: Play, w: nat) returns (q: Play)
    requires 1 <= cfg.maxAttempts && Plays(cfg, p) && Idle(p.scene, 0) && LookUpsWork in p.broken
    requires p.scene.attempts.Keys == {AttemptKey(0, 1)}
    ensures Plays(cfg, q) && q.broken == p.broken
    ensures q.scene == p.scene.(workers := map[w := Invocation(0, 1, p.scene.epoch, Catching, false)], job := Some(Job(Active, 0)))
  {
    q := Taking(cfg, p, w);
    q := LookingInVain(cfg, q, w);
  }

  lemma Redelivered(cfg: Config) returns (p: Play)
    ensures Plays(cfg, p) && p.broken == {LookUpsWork}
    ensures p.scene == Scene(0, map[], Some(Job(Waiting, 0)), map[AttemptKey(0, 1) := Succeeded], 0, 1, true, {0, 1})
  {
    p := FirstSuccess(cfg, {LookUpsWork});
    p := Crashing(cfg, p, 0);
    assert p.scene.workers == map[];
    p := Recovering(cfg, p);
  }

  lemma FirstCompleted(cfg: Config) returns (p: Play)
    ensures Plays(cfg, p) && p.broken == {LookUpsWork}
    ensures p.scene == Scene(0, map[], Some(Job(Completed, 0)), map[AttemptKey(0, 1) := Succeeded], 1, 1, true, {0, 1})
  {
    p := FirstSuccess(cfg, {LookUpsWork});
    p := Settling(cfg, p, 0);
    assert p.scene.workers == map[];
  }

  lemma AddedAfterRemoval(cfg: Config) returns (p: Play)
    ensures Plays(cfg, p) && p.broken == {LookUpsWork}
    ensures p.scene == Scene(0, map[], Some(Job(Waiting, 0)), map[AttemptKey(0, 1) := Succeeded], 1, 1, true, {1})
  {
    p := FirstCompleted(cfg);
    p := Removing(cfg, p);
    p := Adding(cfg, p, 0);
    assert p.scene.stale == {1};
  }

  /** A redelivered job whose look-up fails: the success is replaced, the event is not terminal any more,
      and it is sent and accepted a second time. No wipe, no lost write. */
  lemma FailedLookUpLosesSuccess(cfg: Config) returns (steps: seq<Step>, more: seq<Step>)
    requires 2 <= cfg.maxAttempts
    ensures AllBut(cfg, steps, {LookUpsWork}) && AllBut(cfg, more, {LookUpsWork})
    ensures var s := Run(cfg, steps); 0 in s.rows && 0 in s.ended && !Terminal(s.attempts, 0)
    ensures var s := Run(cfg, more); 0 in s.rows && Tally(s.accepted, 0) == 2
  {
    var p := Redelivered(cfg);
    p := LookUpFailed(cfg, p, 1);
    p := GiveUp(cfg, p, 1, 0);
    assert p.scene.attempts == map[AttemptKey(0, 1) := Retrying];
    steps := p.steps;
    p := Delivers(cfg, p, 1);
    more := p.steps;
  }

  /** A stale relay adds an event that was delivered before; its look-up fails, and then every attempt. */
  lemma FailedLookUpExceedsAttempts(cfg: Config) returns (steps: seq<Step>)
    requires 1 <= cfg.maxAttempts
    ensures AllBut(cfg, steps, {LookUpsWork})
    ensures var s := Run(cfg, steps); 0 in s.rows && Tally(s.finished, 0) == cfg.maxAttempts + 1
  {
    var p := AddedAfterRemoval(cfg);
    p := LookUpFailed(cfg, p, 0);
    p := GiveUp(cfg, p, 0, 0);
    assert p.scene.attempts.Keys == {AttemptKey(0, 1)} && p.scene.attempts[AttemptKey(0, 1)] != Succeeded;
    p := FailAll(cfg, p, 1);
    steps := p.steps;
  }

  // ---- A processor that outlives a wiped queue ----

  lemma Survived(cfg: Config) returns (p: Play)
    ensures Plays(cfg, p) && p.broken == {WipesStop}
    ensures p.scene == Scene(1, map[0 := Invocation(0, 1, 0, Sending, false), 1 := Invocation(0, 1, 1, Returning, true)],
                             Some(Job(Active, 0)), map[AttemptKey(0, 1) := Succeeded], 0, 1, true, {1})
  {
    p := StaleRelays(cfg, {WipesStop});
    p := TakeAndLook(cfg, p, 0);
    p := WipedAndAdded(cfg, p);
    p := Delivers(cfg, p, 1);
    p := Recording(cfg, p, 1);
  }

  lemma WipedAndAdded(cfg: Config, p: Play) returns (q: Play)
    requires Plays(cfg, p) && WipesStop in p.broken && p.scene.stale == {0, 1}
    requires forall w | w in p.scene.workers :: p.scene.workers[w].stage != Accepted
    ensures Plays(cfg, q) && q.broken == p.broken
    ensures q.scene == p.scene.(epoch := p.scene.epoch + 1, job := Some(Job(Waiting, 0)), finished := 0, stale := {1})
  {
    q := Wiping(cfg, p, true);
    q := Adding(cfg, q, 0);
    assert q.scene.stale == {1};
  }

  /** The survivor is still sending when the other processor has recorded its success; its send is accepted
      as well. */
  lemma SurvivorSendsTwice(cfg: Config) returns (steps: seq<Step>, more: seq<Step>)
    requires 1 <= cfg.maxAttempts
    ensures AllBut(cfg, steps, {WipesStop}) && AllBut(cfg, more, {WipesStop})
    ensures Serving(Run(cfg, steps), 0, 0, Sending) && HasSucceeded(Run(cfg, steps).attempts, 0)
    ensures var s := Run(cfg, more); 0 in s.rows && Tally(s.accepted, 0) == 2
  {
    var p := Survived(cfg);
    steps := p.steps;
    assert p.scene.attempts[AttemptKey(0, 1)] == Succeeded;
    p := Delivering(cfg, p, 0, Acknowledged);
    more := p.steps;
  }

  lemma SurvivorFailed(cfg: Config) returns (p: Play)
    requires 1 <= cfg.maxAttempts
    ensures Plays(cfg, p) && p.broken == {WipesStop}
    ensures p.scene.job == Some(Job(Completed, 0)) && p.scene.finished == 1 && p.scene.ended && 1 in p.scene.stale
    ensures p.scene.workers.Keys == {0} && p.scene.workers[0] == Invocation(0, 1, 0, Throwing, true)
    ensures p.scene.attempts == map[AttemptKey(0, 1) := if 1 < cfg.maxAttempts then Retrying else DeadLettered]
  {
    p := Survived(cfg);
    p := Settling(cfg, p, 1);
    p := RejectedSurvivor(cfg, p);
  }

  lemma RejectedSurvivor(cfg: Config, p: Play) returns (q: Play)
    requires Plays(cfg, p) && p.scene.workers.Keys == {0} && p.scene.workers[0] == Invocation(0, 1, 0, Sending, false)
    requires p.scene.attempts.Keys == {AttemptKey(0, 1)} && p.scene.ended
    ensures Plays(cfg, q) && q.broken == p.broken
    ensures q.scene == p.scene.(workers := map[0 := Invocation(0, 1, 0, Throwing, true)],
                                attempts := map[AttemptKey(0, 1) := if 1 < cfg.maxAttempts then Retrying else DeadLettered])
  {
    q := Delivering(cfg, p, 0, Refused);
    q := Reporting(cfg, q, 0);
  }

  /** The survivor's failure replaces the success of the other processor, whose completed job then hides an
      event that reconciliation would add again. */
  lemma SurvivorLosesSuccess(cfg: Config, at: nat) returns (steps: seq<Step>)
    requires 2 <= cfg.maxAttempts
    ensures AllBut(cfg, steps, {WipesStop})
    ensures var s := Run(cfg, steps);
            && 0 in s.rows && 0 in s.ended && !Terminal(s.attempts, 0) && Finished(s, 0)
            && s.rows[0].publishedAt.Some? && (at > s.rows[0].publishedAt.value + LEASE ==> Candidate(s, 0, at))
  {
    var p := SurvivorFailed(cfg);
    steps := p.steps;
  }

  lemma SurvivorExceedsAttempts(cfg: Config) returns (steps: seq<Step>)
    requires 1 <= cfg.maxAttempts
    ensures AllBut(cfg, steps, {WipesStop})
    ensures var s := Run(cfg, steps); 0 in s.rows && Tally(s.finished, 0) == cfg.maxAttempts + 1
  {
    var p := SurvivorFailed(cfg);
    p := Crashing(cfg, p, 0);
    assert p.scene.workers == map[];
    p := Removing(cfg, p);
    p := Adding(cfg, p, 1);
    p := FailAll(cfg, p, 0);
    steps := p.steps;
  }

  // ---- A success that is committed and reported as failed ----

  /** The failure report takes the place of the success, and the event is sent again. */
  lemma UnheardSuccessIsLost(cfg: Config) returns (steps: seq<Step>, more: seq<Step>)
    requires 2 <= cfg.maxAttempts
    ensures AllBut(cfg, steps, {SuccessesAcknowledged, RecordsFollow}) && AllBut(cfg, more, {SuccessesAcknowledged, RecordsFollow})
    ensures var s := Run(cfg, steps); 0 in s.rows && 0 in s.ended && !Terminal(s.attempts, 0)
    ensures var s := Run(cfg, more); 0 in s.rows && Tally(s.accepted, 0) == 2
  {
    var p := StaleRelays(cfg, {SuccessesAcknowledged, RecordsFollow});
    p := Delivers(cfg, p, 0);
    p := RecordingUnheard(cfg, p, 0);
    assert p.scene.workers.Keys == {0};
    p := GiveUp(cfg, p, 0, 0);
    assert p.scene.attempts == map[AttemptKey(0, 1) := Retrying];
    steps := p.steps;
    p := Delivers(cfg, p, 0);
    more := p.steps;
  }

  /** At the last attempt the success becomes DEAD_LETTERED, for every maximum. */
  lemma UnheardSuccessIsDeadLettered(cfg: Config) returns (steps: seq<Step>)
    requires 1 <= cfg.maxAttempts
    ensures AllBut(cfg, steps, {SuccessesAcknowledged, RecordsFollow})
    ensures var s, k := Run(cfg, steps), AttemptKey(0, cfg.maxAttempts);
            && InStage(s, 0, Catching) && k in s.attempts && s.attempts[k] == Succeeded
            && var after := Exec(cfg, s, Report(0)).attempts; k in after && after[k] == DeadLettered
  {
    var p := UnheardLast(cfg);
    steps := p.steps;
    SuccessChangesExactly(cfg, Run(cfg, steps), Report(0), AttemptKey(0, cfg.maxAttempts));
  }

  lemma UnheardLast(cfg: Config) returns (p: Play)
    requires 1 <= cfg.maxAttempts
    ensures Plays(cfg, p) && p.broken == {SuccessesAcknowledged, RecordsFollow}
    ensures Working(p.scene, 0, Catching) && p.scene.workers[0].attempt == cfg.maxAttempts
    ensures var k := AttemptKey(0, cfg.maxAttempts); k in p.scene.attempts && p.scene.attempts[k] == Succeeded
  {
    p := StaleRelays(cfg, {SuccessesAcknowledged, RecordsFollow});
    p := FailUpTo(cfg, p, cfg.maxAttempts - 1);
    p := Delivers(cfg, p, 0);
    p := RecordingUnheard(cfg, p, 0);
  }

  // ---- Something comes between a send and its record ----

  /** The database refuses the record. */
  lemma RefusedRecordSendsTwice(cfg: Config) returns (steps: seq<Step>)
    requires 2 <= cfg.maxAttempts
    ensures AllBut(cfg, steps, {RecordsFollow})
    ensures var s := Run(cfg, steps); 0 in s.rows && Tally(s.accepted, 0) == 2
  {
    var p := StaleRelays(cfg, {RecordsFollow});
    p := Delivers(cfg, p, 0);
    p := RecordingInVain(cfg, p, 0);
    assert p.scene.workers.Keys == {0};
    p := GiveUp(cfg, p, 0, 0);
    assert p.scene.attempts == map[AttemptKey(0, 1) := Retrying];
    p := Delivers(cfg, p, 0);
    steps := p.steps;
  }

  lemma CrashSendsTwice(cfg: Config) returns (steps: seq<Step>)
    ensures AllBut(cfg, steps, {RecordsFollow})
    ensures var s := Run(cfg, steps); 0 in s.rows && Tally(s.accepted, 0) == 2
  {
    var p := StaleRelays(cfg, {RecordsFollow});
    p := Delivers(cfg, p, 0);
    p := Crashing(cfg, p, 0);
    assert p.scene.workers == map[];
    p := Recovering(cfg, p);
    p := Delivers(cfg, p, 0);
    steps := p.steps;
  }

  lemma WipeSendsTwice(cfg: Config) returns (steps: seq<Step>)
    ensures AllBut(cfg, steps, {RecordsFollow})
    ensures var s := Run(cfg, steps); 0 in s.rows && Tally(s.accepted, 0) == 2
  {
    var p := StaleRelays(cfg, {RecordsFollow});
    p := Delivers(cfg, p, 0);
    p := Wiping(cfg, p, false);
    p := Adding(cfg, p, 0);
    p := Delivers(cfg, p, 0);
    steps := p.steps;
  }

  // ---- A send that is accepted and seen to fail ----

  /** The provider accepts, but answers too late: the attempt is reported as failed, and the next one is
      accepted and recorded as well. Nothing else goes wrong. */
  lemma UnheardSendSendsTwice(cfg: Config) returns (steps: seq<Step>)
    requires 2 <= cfg.maxAttempts
    ensures AllBut(cfg, steps, {SendsAcknowledged})
    ensures var s := Run(cfg, steps); 0 in s.rows && Tally(s.accepted, 0) == 2 && HasSucceeded(s.attempts, 0)
  {
    var p := StaleRelays(cfg, {SendsAcknowledged});
    p := TakeAndLook(cfg, p, 0);
    p := Delivering(cfg, p, 0, Unheard);
    assert p.scene.workers.Keys == {0};
    p := GiveUp(cfg, p, 0, 0);
    assert p.scene.attempts == map[AttemptKey(0, 1) := Retrying];
    p := Delivers(cfg, p, 0);
    p := Recording(cfg, p, 0);
    assert p.scene.attempts[AttemptKey(0, 2)] == Succeeded;
    steps := p.steps;
  }

  // ---- A last failure that cannot be reported ----

  /** For every maximum: the queue keeps a failed job under the event's ID, nothing terminal is ever
      written, and reconciliation rechecks an event that it can no longer add. */
  lemma UnreportedFailureHides(cfg: Config, at: nat) returns (steps: seq<Step>)
    requires 1 <= cfg.maxAttempts
    ensures AllBut(cfg, steps, {FailuresReported})
    ensures var s := Run(cfg, steps);
            && 0 in s.rows && 0 !in s.ended && Finished(s, 0) && Enqueued(s.queue, 0) == s.queue
            && s.rows[0].publishedAt.Some? && (at > s.rows[0].publishedAt.value + LEASE ==> Candidate(s, 0, at))
  {
    var p := RejectedLast(cfg);
    p := GiveUpUnreported(cfg, p);
    steps := p.steps;
  }

  lemma RejectedLast(cfg: Config) returns (p: Play)
    requires 1 <= cfg.maxAttempts
    ensures Plays(cfg, p) && p.broken == {FailuresReported} && !p.scene.ended && OnlyRetrying(p.scene.attempts)
    ensures p.scene.workers == map[0 := Invocation(0, cfg.maxAttempts, p.scene.epoch, Catching, true)]
    ensures p.scene.job == Some(Job(Active, cfg.maxAttempts - 1))
  {
    p := StaleRelays(cfg, {FailuresReported});
    p := FailUpTo(cfg, p, cfg.maxAttempts - 1);
    p := Reject(cfg, p);
  }

  lemma GiveUpUnreported(cfg: Config, p: Play) returns (q: Play)
    requires 1 <= cfg.maxAttempts && Plays(cfg, p) && FailuresReported in p.broken
    requires p.scene.workers == map[0 := Invocation(0, cfg.maxAttempts, p.scene.epoch, Catching, true)]
    requires p.scene.job == Some(Job(Active, cfg.maxAttempts - 1))
    ensures Plays(cfg, q) && q.broken == p.broken
    ensures q.scene.attempts == p.scene.attempts && q.scene.ended == p.scene.ended && q.scene.job == Some(Job(Failed, cfg.maxAttempts))
  {
    q := ReportingInVain(cfg, p, 0);
    q := Settling(cfg, q, 0);
  }
}
