/** From a committed event to its delivery: relays with expiring leases, a disposable queue, workers
    that retry, and a purger, all interleaved one database or queue call at a time. Relays and workers
    may crash anywhere, queue calls may fail with or without effect, and Redis may be wiped. */
module Pipeline {
  import opened Options

  type EventId = nat

  datatype OutboxStatus = Pending | Processing | Published
  datatype Row = Row(status: OutboxStatus, availableAt: nat, lockUntil: Option<nat>, publishedAt: Option<nat>, attempts: nat)

  datatype DeliveryStatus = Succeeded | Retrying | DeadLettered
  datatype AttemptKey = AttemptKey(event: EventId, number: nat)
  type Attempts = map<AttemptKey, DeliveryStatus>

  /** A job is keyed by its event. `made` is the number of attempts that have failed. */
  datatype JobState = Waiting | Active | Completed | Failed
  datatype Job = Job(state: JobState, made: nat)

  /** What a relay holds in memory for one event. */
  datatype Holding = Claimed | Added | Erring | Rechecking
  datatype Token = Token(relay: nat, event: EventId, holding: Holding)

  /** One invocation of the job processor. */
  datatype Stage = Checking | Sending | Accepted | Catching | Returning | Throwing
  datatype Invocation = Invocation(event: EventId, attempt: nat, epoch: nat, stage: Stage, sent: bool)

  /** How a call that has an effect ends. An unheard one has taken effect, but its caller sees it fail. */
  datatype Reply = Acknowledged | Refused | Unheard

  datatype Config = Config(maxAttempts: nat, baseDelay: nat, retention: nat)

  /** The last four fields record history only; no step looks at them. */
  datatype State = State(
    now: nat,
    rows: map<EventId, Row>,
    attempts: Attempts,
    queue: map<EventId, Job>,
    epoch: nat,                        // number of wipes so far
    tokens: set<Token>,
    workers: map<nat, Invocation>,
    emitted: set<EventId>,
    queued: set<EventId>,              // really added to the queue at some time
    ended: set<EventId>,               // had a terminal record at some time
    finished: map<EventId, nat>,       // delivery attempts settled since the last wipe
    accepted: map<EventId, nat>)       // sends the provider has accepted

  const INITIAL := State(0, map[], map[], map[], 0, {}, map[], {}, {}, {}, map[], map[])

  const LEASE: nat := 30_000

  function Tally(m: map<EventId, nat>, e: EventId): nat { if e in m then m[e] else 0 }

  function Bump(m: map<EventId, nat>, e: EventId): map<EventId, nat> { m[e := Tally(m, e) + 1] }

  predicate HasSucceeded(attempts: Attempts, e: EventId) {
    exists k :: k in attempts && k.event == e && attempts[k] == Succeeded
  }

  /** What `reconcilePublished` and retention look for: SUCCEEDED or DEAD_LETTERED. */
  predicate Terminal(attempts: Attempts, e: EventId) {
    exists k :: k in attempts && k.event == e && attempts[k] != Retrying
  }

  predicate Claimable(row: Row, now: nat) {
    && row.availableAt <= now
    && (row.status == Pending || (row.status == Processing && row.lockUntil.Some? && row.lockUntil.value < now))
  }

  predicate Candidate(s: State, e: EventId, at: nat) {
    && e in s.rows && s.rows[e].status == Published && !Terminal(s.attempts, e)
    && s.rows[e].publishedAt.Some? && s.rows[e].publishedAt.value + LEASE < at
  }

  datatype Step =
    // the API
    | Emit(event: EventId, availableAt: nat)
    // relays
    | Claim(relay: nat, event: EventId, seen: nat)           // chosen by a clock reading taken before the lease's
    | AddOk(relay: nat, event: EventId)
    | AddFails(relay: nat, event: EventId, reached: bool)    // the call threw; it may have reached Redis
    | Publish(relay: nat, event: EventId)
    | PublishFails(relay: nat, event: EventId, reached: bool)
    | Reset(relay: nat, event: EventId)
    | Recheck(relay: nat, event: EventId)
    | ReAdd(relay: nat, event: EventId)
    | RelayCrash(relay: nat)
    // workers
    | Take(worker: nat, event: EventId)
    | Check(worker: nat)
    | CheckFails(worker: nat)
    | Send(worker: nat, reply: Reply)
    | Record(worker: nat)
    | RecordFails(worker: nat, reached: bool)                // the upsert threw; it may have been committed
    | Report(worker: nat)                                    // acknowledged or not, the processor throws
    | ReportFails(worker: nat)
    | Settle(worker: nat)
    | WorkerCrash(worker: nat)
    // queue housekeeping
    | Recover(event: EventId)                                // an active job whose worker is gone waits again; no live one is taken for stalled
    | RemoveCompleted(event: EventId)
    | Wipe(survivors: bool)                                  // do running processors outlive the wiped queue?
    // retention and time
    | PurgeRow(event: EventId)
    | PurgeAttempt(key: AttemptKey)
    | Tick(elapsed: nat)

  // ---- Relays ----

  /** Adding a job whose ID the queue still knows is a no-op. */
  function Enqueued(queue: map<EventId, Job>, e: EventId): map<EventId, Job> {
    if e in queue then queue else queue[e := Job(Waiting, 0)]
  }

  /** The effect of one relay call: the row it writes, the memory it leaves, and whether an add reached
      the queue. */
  datatype Call = Call(event: EventId, row: Option<Row>, tokens: set<Token>, add: bool)

  function Called(s: State, c: Call): State {
    s.(rows := if c.row.Some? then s.rows[c.event := c.row.value] else s.rows,
       tokens := c.tokens,
       queue := if c.add then Enqueued(s.queue, c.event) else s.queue,
       queued := if c.add then s.queued + {c.event} else s.queued)
  }

  /** `UPDATE ... WHERE id = e AND status = 'PROCESSING'`. */
  function WhereProcessing(s: State, e: EventId, row: Row -> Row): Option<Row> {
    if e in s.rows && s.rows[e].status == Processing then Some(row(s.rows[e])) else None
  }

  function Turn(tokens: set<Token>, r: nat, e: EventId, from: Holding, to: Holding): set<Token> {
    tokens - {Token(r, e, from)} + {Token(r, e, to)}
  }

  predicate Holds(s: State, r: nat, e: EventId, holding: Holding) { Token(r, e, holding) in s.tokens }

  function ClaimedRow(row: Row, now: nat): Row {
    row.(status := Processing, lockUntil := Some(now + LEASE), attempts := row.attempts + 1)
  }

  function PublishedRow(row: Row, now: nat): Row {
    row.(status := Published, publishedAt := Some(now), lockUntil := None)
  }

  function ResetRow(row: Row, now: nat, baseDelay: nat): Row {
    row.(status := Pending, availableAt := now + baseDelay, lockUntil := None)
  }

  /** What a relay step does, if it is enabled. */
  function CallOf(cfg: Config, s: State, step: Step): (c: Option<Call>)
    ensures c.Some? && c.value.row.Some? ==> c.value.event in s.rows
  {
    match step
    case Claim(r, e, seen) =>
      if e in s.rows && seen <= s.now && Claimable(s.rows[e], seen)
      then Some(Call(e, Some(ClaimedRow(s.rows[e], s.now)), s.tokens + {Token(r, e, Claimed)}, false)) else None
    case AddOk(r, e) =>
      if Holds(s, r, e, Claimed) then Some(Call(e, None, Turn(s.tokens, r, e, Claimed, Added), true)) else None
    case AddFails(r, e, reached) =>
      if Holds(s, r, e, Claimed) then Some(Call(e, None, Turn(s.tokens, r, e, Claimed, Erring), reached)) else None
    case Publish(r, e) =>
      if Holds(s, r, e, Added)
      then Some(Call(e, WhereProcessing(s, e, row => PublishedRow(row, s.now)), s.tokens - {Token(r, e, Added)}, false)) else None
    case PublishFails(r, e, reached) =>
      if Holds(s, r, e, Added)
      then Some(Call(e, if reached then WhereProcessing(s, e, row => PublishedRow(row, s.now)) else None,
                     Turn(s.tokens, r, e, Added, Erring), false))
      else None
    case Reset(r, e) =>
      if Holds(s, r, e, Erring)
      then Some(Call(e, WhereProcessing(s, e, row => ResetRow(row, s.now, cfg.baseDelay)), s.tokens - {Token(r, e, Erring)}, false))
      else None
    case Recheck(r, e) =>
      if Candidate(s, e, s.now) then Some(Call(e, None, s.tokens + {Token(r, e, Rechecking)}, false)) else None
    case ReAdd(r, e) =>
      if Holds(s, r, e, Rechecking) then Some(Call(e, None, s.tokens - {Token(r, e, Rechecking)}, true)) else None
    case RelayCrash(r) => Some(Call(0, None, set t | t in s.tokens && t.relay != r, false))
    case _ => None
  }

  function ExecRelay(cfg: Config, s: State, step: Step): State {
    var c := CallOf(cfg, s, step);
    if c.Some? then Called(s, c.value) else s
  }

  // ---- Workers ----

  predicate InStage(s: State, w: nat, stage: Stage) { w in s.workers && s.workers[w].stage == stage }

  function FailureStatus(cfg: Config, inv: Invocation): DeliveryStatus {
    if inv.attempt >= cfg.maxAttempts then DeadLettered else Retrying
  }

  /** The processor of w moves on to another stage. */
  function Proceed(s: State, w: nat, stage: Stage): State
    requires w in s.workers
  {
    s.(workers := s.workers[w := s.workers[w].(stage := stage)])
  }

  /** The provider answers. A rejection lands in the catch block, and so does a time-out or a lost answer
      of a provider that has accepted. */
  function Answered(s: State, w: nat, reply: Reply): State
    requires w in s.workers
  {
    var inv := s.workers[w];
    s.(workers := s.workers[w := inv.(sent := true, stage := if reply.Acknowledged? then Accepted else Catching)],
       accepted := if reply.Refused? then s.accepted else Bump(s.accepted, inv.event))
  }

  /** Upsert by (event, attempt number), then move on. */
  function Recorded(s: State, w: nat, status: DeliveryStatus, stage: Stage): State
    requires w in s.workers
  {
    var inv := s.workers[w];
    s.(attempts := s.attempts[AttemptKey(inv.event, inv.attempt) := status],
       ended := if status == Retrying then s.ended else s.ended + {inv.event},
       workers := s.workers[w := inv.(stage := stage)])
  }

  /** The record of an accepted send throws, whether or not it was committed. */
  function Unrecorded(s: State, w: nat, reached: bool): State
    requires w in s.workers
  {
    if reached then Recorded(s, w, Succeeded, Catching) else Proceed(s, w, Catching)
  }

  /** The queue settles a job only for the worker that holds it in this life of the queue. */
  function Settled(cfg: Config, s: State, w: nat): State
    requires w in s.workers
  {
    var inv := s.workers[w];
    var e, ours := inv.event, inv.epoch == s.epoch && inv.event in s.queue && s.queue[inv.event].state == Active;
    s.(workers := s.workers - {w},
       queue := if ours then s.queue[e := SettledJob(cfg, s.queue[e], inv)] else s.queue,
       finished := if ours && (inv.sent || inv.stage == Throwing) then Bump(s.finished, e) else s.finished)
  }

  function SettledJob(cfg: Config, job: Job, inv: Invocation): Job {
    if inv.stage == Returning then job.(state := Completed)
    else Job(if job.made + 1 < cfg.maxAttempts then Waiting else Failed, job.made + 1)
  }

  function Taken(s: State, w: nat, e: EventId): State
    requires e in s.queue
  {
    s.(queue := s.queue[e := s.queue[e].(state := Active)],
       workers := s.workers[w := Invocation(e, s.queue[e].made + 1, s.epoch, Checking, false)])
  }

  function ExecWorker(cfg: Config, s: State, step: Step): State {
    match step
    case Take(w, e) => if e in s.queue && s.queue[e].state == Waiting && w !in s.workers then Taken(s, w, e) else s
    case Check(w) =>
      if InStage(s, w, Checking)
      then Proceed(s, w, if HasSucceeded(s.attempts, s.workers[w].event) then Returning else Sending) else s
    case CheckFails(w) => if InStage(s, w, Checking) then Proceed(s, w, Catching) else s
    case Send(w, reply) => if InStage(s, w, Sending) then Answered(s, w, reply) else s
    case Record(w) => if InStage(s, w, Accepted) then Recorded(s, w, Succeeded, Returning) else s
    case RecordFails(w, reached) => if InStage(s, w, Accepted) then Unrecorded(s, w, reached) else s
    case Report(w) => if InStage(s, w, Catching) then Recorded(s, w, FailureStatus(cfg, s.workers[w]), Throwing) else s
    case ReportFails(w) => if InStage(s, w, Catching) then Proceed(s, w, Throwing) else s
    case Settle(w) => if InStage(s, w, Returning) || InStage(s, w, Throwing) then Settled(cfg, s, w) else s
    case WorkerCrash(w) => Left(s, w)
    case _ => s
  }

  predicate Running(s: State, e: EventId) {
    exists w :: w in s.workers && s.workers[w].event == e && s.workers[w].epoch == s.epoch
  }

  predicate Held(s: State, e: EventId) { exists t :: t in s.tokens && t.event == e }

  predicate Purgeable(cfg: Config, s: State, e: EventId) {
    && e in s.rows && s.rows[e].status == Published
    && s.rows[e].publishedAt.Some? && s.rows[e].publishedAt.value + cfg.retention < s.now
    && Terminal(s.attempts, e)
    && !Held(s, e)   // no relay keeps an event in memory for the whole retention period
  }

  function Emitted(s: State, e: EventId, availableAt: nat): State {
    s.(rows := s.rows[e := Row(Pending, availableAt, None, None, 0)], emitted := s.emitted + {e})
  }

  function WithJob(s: State, e: EventId, state: JobState): State
    requires e in s.queue
  {
    s.(queue := s.queue[e := s.queue[e].(state := state)])
  }

  function WithoutJob(s: State, e: EventId): State { s.(queue := s.queue - {e}) }

  function Wiped(s: State, survivors: bool): State {
    s.(queue := map[], epoch := s.epoch + 1, finished := map[], workers := if survivors then s.workers else map[])
  }

  function WithoutRow(s: State, e: EventId): State { s.(rows := s.rows - {e}) }

  function Left(s: State, w: nat): State { s.(workers := s.workers - {w}) }

  function WithoutAttempt(s: State, k: AttemptKey): State { s.(attempts := s.attempts - {k}) }

  function Housekeep(cfg: Config, s: State, step: Step): State {
    match step
    case Emit(e, availableAt) =>
      if e in s.emitted || availableAt > s.now then s
      else Emitted(s, e, availableAt)
    case Recover(e) =>
      if e in s.queue && s.queue[e].state == Active && !Running(s, e)
      then WithJob(s, e, Waiting) else s
    case RemoveCompleted(e) => if e in s.queue && s.queue[e].state == Completed then WithoutJob(s, e) else s
    case Wipe(survivors) => Wiped(s, survivors)
    case PurgeRow(e) => if Purgeable(cfg, s, e) then WithoutRow(s, e) else s
    case PurgeAttempt(k) => if k.event !in s.rows then WithoutAttempt(s, k) else s
    case Tick(elapsed) => s.(now := s.now + elapsed)
    case _ => s
  }

  function Exec(cfg: Config, s: State, step: Step): State {
    if RelayStep(step) then ExecRelay(cfg, s, step)
    else if WorkerStep(step) then ExecWorker(cfg, s, step)
    else Housekeep(cfg, s, step)
  }

  predicate RelayStep(step: Step) {
    || step.Claim? || step.AddOk? || step.AddFails? || step.Publish? || step.PublishFails? || step.Reset?
    || step.Recheck? || step.ReAdd? || step.RelayCrash?
  }

  predicate WorkerStep(step: Step) {
    || step.Take? || step.Check? || step.CheckFails? || step.Send? || step.Record? || step.RecordFails?
    || step.Report? || step.ReportFails? || step.Settle? || step.WorkerCrash?
  }

  function Run(cfg: Config, steps: seq<Step>): State {
    if steps == [] then INITIAL else Exec(cfg, Run(cfg, steps[..|steps| - 1]), steps[|steps| - 1])
  }
}
