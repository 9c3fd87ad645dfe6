/** The job processor as one call, and the machine steps it is made of. */
module Processor {
  import opened Pipeline
  import opened PipelineProof
  import opened OutboxRefinement

  /** How the calls of one invocation end: the look-up, the send and the two writes. */
  datatype Calls = Calls(look: bool, send: Reply, record: Reply, report: Reply)

  /** What an invocation does: the table it leaves, whether it throws, and what it sent. */
  datatype Effect = Effect(attempts: Attempts, threw: bool, sent: bool, accepted: bool)

  function Failure(attempt: nat, maxAttempts: nat): DeliveryStatus { if attempt >= maxAttempts then DeadLettered else Retrying }

  /** The catch block. */
  function Caught(attempts: Attempts, k: AttemptKey, maxAttempts: nat, calls: Calls): Attempts {
    if calls.report.Refused? then attempts else attempts[k := Failure(k.number, maxAttempts)]
  }

  /** The specification of `Process` as a function of the table. */
  function Processed(attempts: Attempts, e: EventId, attempt: nat, maxAttempts: nat, calls: Calls): Effect {
    var k := AttemptKey(e, attempt);
    if !calls.look then Effect(Caught(attempts, k, maxAttempts, calls), true, false, false)
    else if HasSucceeded(attempts, e) then Effect(attempts, false, false, false)
    else if !calls.send.Acknowledged? then Effect(Caught(attempts, k, maxAttempts, calls), true, true, calls.send.Unheard?)
    else
      var recorded := if calls.record.Refused? then attempts else attempts[k := Succeeded];
      if calls.record.Acknowledged? then Effect(recorded, false, true, true)
      else Effect(Caught(recorded, k, maxAttempts, calls), true, true, true)
  }

  class Deliveries {
    var attempts: Attempts

    constructor ()
      ensures attempts == map[]
    {
      attempts := map[];
    }

    /** Look for a delivery, send, record; anything that throws on the way is reported as a failed
        attempt, over whatever the same attempt has recorded, and thrown again. */
    method Process(e: EventId, attempt: nat, maxAttempts: nat, calls: Calls) returns (threw: bool, sent: bool, accepted: bool)
      modifies this
      ensures Effect(attempts, threw, sent, accepted) == Processed(old(attempts), e, attempt, maxAttempts, calls)
      ensures sent <==> calls.look && !old(HasSucceeded(attempts, e))
      ensures accepted <==> sent && !calls.send.Refused?
      ensures !threw <==> calls.look && (old(HasSucceeded(attempts, e)) || (calls.send.Acknowledged? && calls.record.Acknowledged?))
      ensures !threw ==> HasSucceeded(attempts, e)
      ensures !sent && !threw ==> attempts == old(attempts)
      ensures sent && !threw ==> attempts == old(attempts)[AttemptKey(e, attempt) := Succeeded]
      ensures threw && !calls.report.Refused? ==>
                attempts == old(attempts)[AttemptKey(e, attempt) := if attempt >= maxAttempts then DeadLettered else Retrying]
      ensures threw && calls.report.Refused? ==>
                attempts == if sent && calls.send.Acknowledged? && calls.record.Unheard? then old(attempts)[AttemptKey(e, attempt) := Succeeded] else old(attempts)
    {
      threw, sent, accepted := true, false, false;
      ghost var k := AttemptKey(e, attempt);
      if calls.look {
        if HasSucceeded(attempts, e) {
          threw := false;
          return;
        }
        sent := true;
        accepted := !calls.send.Refused?;
        if calls.send.Acknowledged? {
          if !calls.record.Refused? {
            attempts := attempts[AttemptKey(e, attempt) := Succeeded];
            assert attempts[k] == Succeeded;
          }
          if calls.record.Acknowledged? {
            threw := false;
            return;
          }
        }
      }
      var finalAttempt := attempt >= maxAttempts;
      if !calls.report.Refused? {
        attempts := attempts[AttemptKey(e, attempt) := if finalAttempt then DeadLettered else Retrying];
      }
    }
  }

  // ---- An invocation is a run of the machine ----

  function CaughtSteps(w: nat, calls: Calls): seq<Step> { [if calls.report.Refused? then ReportFails(w) else Report(w)] }

  function SentSteps(w: nat, calls: Calls): seq<Step> {
    if !calls.send.Acknowledged? then [Send(w, calls.send)] + CaughtSteps(w, calls)
    else if calls.record.Acknowledged? then [Send(w, Acknowledged), Record(w)]
    else [Send(w, Acknowledged), RecordFails(w, calls.record.Unheard?)] + CaughtSteps(w, calls)
  }

  function ProcessSteps(attempts: Attempts, w: nat, e: EventId, calls: Calls): seq<Step> {
    if !calls.look then [CheckFails(w)] + CaughtSteps(w, calls)
    else if HasSucceeded(attempts, e) then [Check(w)]
    else [Check(w)] + SentSteps(w, calls)
  }

  /** The processor's state and table; everything a relay or the queue owns is untouched. */
  predicate Stands(s: State, before: State, w: nat, stage: Stage, attempts: Attempts) {
    && InStage(s, w, stage) && w in before.workers && s.attempts == attempts
    && s.workers[w].event == before.workers[w].event && s.workers[w].attempt == before.workers[w].attempt
    && s.rows == before.rows && s.queue == before.queue && s.tokens == before.tokens
  }

  function KeyOf(inv: Invocation): AttemptKey { AttemptKey(inv.event, inv.attempt) }

  lemma CaughtRun(cfg: Config, s: State, w: nat, calls: Calls)
    requires InStage(s, w, Catching)
    ensures Stands(ExecAll(cfg, s, CaughtSteps(w, calls)), s, w, Throwing, Caught(s.attempts, KeyOf(s.workers[w]), cfg.maxAttempts, calls))
  {
    ExecOne(cfg, s, if calls.report.Refused? then ReportFails(w) else Report(w));
  }

  lemma SendStep(cfg: Config, s: State, w: nat, reply: Reply)
    requires InStage(s, w, Sending)
    ensures Stands(Exec(cfg, s, Send(w, reply)), s, w, if reply.Acknowledged? then Accepted else Catching, s.attempts)
    ensures Tally(Exec(cfg, s, Send(w, reply)).accepted, s.workers[w].event) == Tally(s.accepted, s.workers[w].event) + if reply.Refused? then 0 else 1
  {
  }

  lemma RecordStep(cfg: Config, s: State, w: nat, reached: bool)
    requires InStage(s, w, Accepted)
    ensures Stands(Exec(cfg, s, Record(w)), s, w, Returning, s.attempts[KeyOf(s.workers[w]) := Succeeded])
    ensures Stands(Exec(cfg, s, RecordFails(w, reached)), s, w, Catching,
                   if reached then s.attempts[KeyOf(s.workers[w]) := Succeeded] else s.attempts)
  {
  }

  lemma RecordedRun(cfg: Config, s: State, w: nat)
    requires InStage(s, w, Sending)
    ensures Stands(ExecAll(cfg, s, [Send(w, Acknowledged), Record(w)]), s, w, Returning, s.attempts[KeyOf(s.workers[w]) := Succeeded])
  {
    SendStep(cfg, s, w, Acknowledged);
    ExecTwo(cfg, s, Send(w, Acknowledged), Record(w));
    RecordStep(cfg, Exec(cfg, s, Send(w, Acknowledged)), w, true);
  }

  lemma UnrecordedRun(cfg: Config, s: State, w: nat, calls: Calls)
    requires InStage(s, w, Sending) && !calls.record.Acknowledged?
    ensures var k := KeyOf(s.workers[w]);
            Stands(ExecAll(cfg, s, [Send(w, Acknowledged), RecordFails(w, calls.record.Unheard?)] + CaughtSteps(w, calls)), s, w, Throwing,
                   Caught(if calls.record.Refused? then s.attempts else s.attempts[k := Succeeded], k, cfg.maxAttempts, calls))
  {
    var sent, fails := Exec(cfg, s, Send(w, Acknowledged)), RecordFails(w, calls.record.Unheard?);
    SendStep(cfg, s, w, Acknowledged);
    ExecTwo(cfg, s, Send(w, Acknowledged), fails);
    RecordStep(cfg, sent, w, calls.record.Unheard?);
    ExecSplit(cfg, s, [Send(w, Acknowledged), fails], CaughtSteps(w, calls));
    CaughtRun(cfg, Exec(cfg, sent, fails), w, calls);
  }

  lemma SentRun(cfg: Config, s: State, w: nat, calls: Calls)
    requires InStage(s, w, Sending) && calls.look && !HasSucceeded(s.attempts, s.workers[w].event)
    ensures var inv := s.workers[w];
            var out := Processed(s.attempts, inv.event, inv.attempt, cfg.maxAttempts, calls);
            Stands(ExecAll(cfg, s, SentSteps(w, calls)), s, w, if out.threw then Throwing else Returning, out.attempts)
  {
    if !calls.send.Acknowledged? {
      SendStep(cfg, s, w, calls.send);
      ExecOne(cfg, s, Send(w, calls.send));
      ExecSplit(cfg, s, [Send(w, calls.send)], CaughtSteps(w, calls));
      CaughtRun(cfg, Exec(cfg, s, Send(w, calls.send)), w, calls);
    } else if calls.record.Acknowledged? {
      RecordedRun(cfg, s, w);
    } else {
      UnrecordedRun(cfg, s, w, calls);
    }
  }

  /** An invocation of the processor is a run of the machine: it leaves the same table, ends by returning
      or throwing, and touches neither the outbox nor the queue. */
  lemma ProcessIsARun(cfg: Config, s: State, w: nat, calls: Calls)
    requires InStage(s, w, Checking)
    ensures var inv := s.workers[w];
            var out := Processed(s.attempts, inv.event, inv.attempt, cfg.maxAttempts, calls);
            Stands(ExecAll(cfg, s, ProcessSteps(s.attempts, w, inv.event, calls)), s, w, if out.threw then Throwing else Returning, out.attempts)
  {
    var e := s.workers[w].event;
    if !calls.look {
      LookUpFailedRun(cfg, s, w, calls);
    } else {
      ExecOne(cfg, s, Check(w));
      if !HasSucceeded(s.attempts, e) {
        ExecSplit(cfg, s, [Check(w)], SentSteps(w, calls));
        SentRun(cfg, Exec(cfg, s, Check(w)), w, calls);
      }
    }
  }

  lemma LookUpFailedRun(cfg: Config, s: State, w: nat, calls: Calls)
    requires InStage(s, w, Checking)
    ensures Stands(ExecAll(cfg, s, [CheckFails(w)] + CaughtSteps(w, calls)), s, w, Throwing,
                   Caught(s.attempts, KeyOf(s.workers[w]), cfg.maxAttempts, calls))
  {
    ExecOne(cfg, s, CheckFails(w));
    ExecSplit(cfg, s, [CheckFails(w)], CaughtSteps(w, calls));
    CaughtRun(cfg, Exec(cfg, s, CheckFails(w)), w, calls);
  }

  /** An invocation from a reachable state ends in a reachable state. So in the table it leaves RETRYING
      stands only below the maximum and DEAD_LETTERED only at it. */
  lemma ProcessStaysReachable(cfg: Config, before: seq<Step>, w: nat, calls: Calls)
    requires 1 <= cfg.maxAttempts && InStage(Run(cfg, before), w, Checking)
    ensures var s := Run(cfg, before);
            var inv := s.workers[w];
            var out := Processed(s.attempts, inv.event, inv.attempt, cfg.maxAttempts, calls);
            var s' := Run(cfg, before + ProcessSteps(s.attempts, w, inv.event, calls));
            && s'.attempts == out.attempts && s'.rows == s.rows && s'.queue == s.queue
            && (forall k | k in out.attempts :: AttemptOk(cfg, k.number, out.attempts[k]))
            && (Terminal(out.attempts, inv.event) ==> inv.event in s'.ended)
  {
    var s := Run(cfg, before);
    var steps := ProcessSteps(s.attempts, w, s.workers[w].event, calls);
    ProcessIsARun(cfg, s, w, calls);
    RunContinues(cfg, before, steps);
    EveryRun(cfg, before + steps);
  }
}
