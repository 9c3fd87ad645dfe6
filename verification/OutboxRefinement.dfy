/** Every poll of the relay class is a run of the interleaved machine, so what `PipelineProof` shows of all
    runs covers it. */
module OutboxRefinement {
  import opened Pipeline
  import opened PipelineProof
  import opened OutboxRelay
  import opened OutboxDrain

  function ExecAll(cfg: Config, s: State, steps: seq<Step>): State {
    if steps == [] then s else Exec(cfg, ExecAll(cfg, s, steps[..|steps| - 1]), steps[|steps| - 1])
  }

  lemma {:induction false} ExecSplit(cfg: Config, s: State, a: seq<Step>, b: seq<Step>)
    ensures ExecAll(cfg, s, a + b) == ExecAll(cfg, ExecAll(cfg, s, a), b)
  {
    if b == [] {
      assert a + b == a;
    } else {
      assert (a + b)[..|a + b| - 1] == a + b[..|b| - 1];
      ExecSplit(cfg, s, a, b[..|b| - 1]);
    }
  }

  lemma ExecOne(cfg: Config, s: State, step: Step)
    ensures ExecAll(cfg, s, [step]) == Exec(cfg, s, step)
  {
    assert [step][..0] == [];
    assert ExecAll(cfg, s, []) == s;
  }

  /** A run from the initial state may be continued. */
  lemma {:induction false} RunContinues(cfg: Config, before: seq<Step>, steps: seq<Step>)
    ensures ExecAll(cfg, Run(cfg, before), steps) == Run(cfg, before + steps)
  {
    if steps == [] {
      assert before + steps == before;
    } else {
      assert (before + steps)[..|before + steps| - 1] == before + steps[..|steps| - 1];
      RunContinues(cfg, before, steps[..|steps| - 1]);
    }
  }

  // ---- The steps of a poll ----

  function ClaimSteps(r: nat, events: seq<EventId>, seen: nat): seq<Step> {
    if events == [] then [] else ClaimSteps(r, events[..|events| - 1], seen) + [Claim(r, events[|events| - 1], seen)]
  }

  /** The failure path. */
  function ResetSteps(r: nat, e: EventId, reset: Reply): seq<Step> { if reset.Refused? then [] else [Reset(r, e)] }

  function HandleSteps(r: nat, e: EventId, outcome: Outcome): seq<Step> {
    if Succeeds(outcome) then [AddOk(r, e), Publish(r, e)]
    else if outcome.add.Acknowledged? then [AddOk(r, e), PublishFails(r, e, outcome.mark.Unheard?)] + ResetSteps(r, e, outcome.reset)
    else [AddFails(r, e, outcome.add.Unheard?)] + ResetSteps(r, e, outcome.reset)
  }

  function TickAndHandleSteps(r: nat, e: EventId, outcome: Outcome, at: nat, now: nat): seq<Step>
    requires now <= at
  {
    [Tick(at - now)] + HandleSteps(r, e, outcome)
  }

  /** Each event is handled at its own time. */
  function HandleAllSteps(r: nat, events: seq<EventId>, outcome: EventId -> Outcome, at: EventId -> nat, now: nat): seq<Step>
    requires InTurn(events, at, now)
    decreases |events|
  {
    if events == [] then []
    else
      TickAndHandleSteps(r, events[0], outcome(events[0]), at(events[0]), now)
      + if Ends(outcome(events[0])) then [] else HandleAllSteps(r, events[1..], outcome, at, at(events[0]))
  }

  function RecheckSteps(r: nat, events: seq<EventId>, readd: EventId -> Reply): seq<Step>
    decreases |events|
  {
    if events == [] || readd(events[0]).Refused? then []
    else if readd(events[0]).Unheard? then [Recheck(r, events[0]), ReAdd(r, events[0])]
    else [Recheck(r, events[0]), ReAdd(r, events[0])] + RecheckSteps(r, events[1..], readd)
  }

  /** The clock does not run backwards from one event to the next. */
  predicate InTurn(events: seq<EventId>, at: EventId -> nat, now: nat)
    decreases |events|
  {
    events == [] || (now <= at(events[0]) && InTurn(events[1..], at, at(events[0])))
  }

  function LastTime(events: seq<EventId>, at: EventId -> nat, now: nat): nat { if events == [] then now else at(events[|events| - 1]) }

  // ---- Claiming ----

  /** The machine's state agrees with the outbox, at a given time; what a relay only reads is unchanged. */
  predicate Shows(s: State, rows: map<EventId, Row>, queue: map<EventId, Job>, now: nat, before: State) {
    s.rows == rows && s.queue == queue && s.now == now && s.attempts == before.attempts
  }

  predicate HoldsAll(s: State, r: nat, events: seq<EventId>) { forall e | e in events :: Holds(s, r, e, Claimed) }

  lemma ClaimStep(cfg: Config, s: State, r: nat, e: EventId, seen: nat)
    requires e in s.rows && seen <= s.now && Claimable(s.rows[e], seen)
    ensures var s' := Exec(cfg, s, Claim(r, e, seen));
            && Shows(s', s.rows[e := ClaimedRow(s.rows[e], s.now)], s.queue, s.now, s)
            && s'.tokens == s.tokens + {Token(r, e, Claimed)}
  {
  }

  lemma TickStep(cfg: Config, s: State, at: nat)
    requires s.now <= at
    ensures Exec(cfg, s, Tick(at - s.now)) == s.(now := at)
  {
  }

  lemma TickThen(cfg: Config, s: State, at: nat, steps: seq<Step>)
    requires s.now <= at
    ensures ExecAll(cfg, s, [Tick(at - s.now)] + steps) == ExecAll(cfg, s.(now := at), steps)
  {
    ExecSplit(cfg, s, [Tick(at - s.now)], steps);
    ExecOne(cfg, s, Tick(at - s.now));
    TickStep(cfg, s, at);
  }

  lemma MarkedOneMore(o: Outbox, before: seq<EventId>, e: EventId, lease: nat)
    requires e in o.rows && e !in before
    ensures Marked(o, before + [e], lease).rows == Marked(o, before, lease).rows[e := ClaimedRow(o.rows[e], lease)]
    ensures Marked(o, before, lease).rows[e] == o.rows[e]
  {
  }

  lemma {:induction false} ClaimRun(cfg: Config, s: State, o: Outbox, r: nat, events: seq<EventId>, seen: nat)
    requires s.rows == o.rows && Distinct(events) && seen <= s.now
    requires forall e | e in events :: e in s.rows && Claimable(s.rows[e], seen)
    ensures var s' := ExecAll(cfg, s, ClaimSteps(r, events, seen));
            Shows(s', Marked(o, events, s.now).rows, s.queue, s.now, s) && HoldsAll(s', r, events)
  {
    if events == [] {
      assert Marked(o, events, s.now).rows == o.rows;
    } else {
      var before, e := events[..|events| - 1], events[|events| - 1];
      ClaimRun(cfg, s, o, r, before, seen);
      var steps := ClaimSteps(r, events, seen);
      assert steps[..|steps| - 1] == ClaimSteps(r, before, seen);
      ClaimOneMore(cfg, s, ExecAll(cfg, s, ClaimSteps(r, before, seen)), o, r, before, e, seen);
      assert events == before + [e];
    }
  }

  lemma ClaimOneMore(cfg: Config, s: State, mid: State, o: Outbox, r: nat, before: seq<EventId>, e: EventId, seen: nat)
    requires e in o.rows && seen <= s.now && Claimable(o.rows[e], seen) && e !in before
    requires Shows(mid, Marked(o, before, s.now).rows, s.queue, s.now, s) && HoldsAll(mid, r, before)
    ensures var s' := Exec(cfg, mid, Claim(r, e, seen));
            Shows(s', Marked(o, before + [e], s.now).rows, s.queue, s.now, s) && HoldsAll(s', r, before + [e])
  {
    MarkedOneMore(o, before, e, s.now);
    ClaimStep(cfg, mid, r, e, seen);
  }

  // ---- Publishing ----

  /** Only the relay's memory of e is spent. */
  predicate Keeps(s: State, s': State, r: nat, e: EventId) {
    forall t | t in s.tokens && !(t.relay == r && t.event == e) :: t in s'.tokens
  }

  lemma AddStep(cfg: Config, s: State, r: nat, e: EventId)
    requires Holds(s, r, e, Claimed)
    ensures var s' := Exec(cfg, s, AddOk(r, e));
            Shows(s', s.rows, Enqueued(s.queue, e), s.now, s) && Holds(s', r, e, Added) && Keeps(s, s', r, e)
  {
  }

  lemma AddFailsStep(cfg: Config, s: State, r: nat, e: EventId, reached: bool)
    requires Holds(s, r, e, Claimed)
    ensures var s' := Exec(cfg, s, AddFails(r, e, reached));
            && Shows(s', s.rows, if reached then Enqueued(s.queue, e) else s.queue, s.now, s)
            && Holds(s', r, e, Erring) && Keeps(s, s', r, e)
  {
  }

  /** `UPDATE ... WHERE status = 'PROCESSING'`, on rows as they are shown. */
  function Updated(rows: map<EventId, Row>, e: EventId, row: Row -> Row): map<EventId, Row> {
    if e in rows && rows[e].status == Processing then rows[e := row(rows[e])] else rows
  }

  function Publishing(now: nat): Row -> Row { row => PublishedRow(row, now) }

  function Resetting(now: nat, baseDelay: nat): Row -> Row { row => ResetRow(row, now, baseDelay) }

  lemma PublishStep(cfg: Config, s: State, r: nat, e: EventId)
    requires Holds(s, r, e, Added)
    ensures var s' := Exec(cfg, s, Publish(r, e));
            Shows(s', Updated(s.rows, e, Publishing(s.now)), s.queue, s.now, s) && Keeps(s, s', r, e)
  {
  }

  lemma PublishFailsStep(cfg: Config, s: State, r: nat, e: EventId, reached: bool)
    requires Holds(s, r, e, Added)
    ensures var s' := Exec(cfg, s, PublishFails(r, e, reached));
            && Shows(s', if reached then Updated(s.rows, e, Publishing(s.now)) else s.rows, s.queue, s.now, s)
            && Holds(s', r, e, Erring) && Keeps(s, s', r, e)
  {
  }

  lemma ResetStep(cfg: Config, s: State, r: nat, e: EventId)
    requires Holds(s, r, e, Erring)
    ensures var s' := Exec(cfg, s, Reset(r, e));
            Shows(s', Updated(s.rows, e, Resetting(s.now, cfg.baseDelay)), s.queue, s.now, s) && Keeps(s, s', r, e)
  {
  }

  lemma ExecTwo(cfg: Config, s: State, a: Step, b: Step)
    ensures ExecAll(cfg, s, [a, b]) == Exec(cfg, Exec(cfg, s, a), b)
  {
    assert [a, b] == [a] + [b];
    ExecSplit(cfg, s, [a], [b]);
    ExecOne(cfg, s, a);
    ExecOne(cfg, Exec(cfg, s, a), b);
  }

  /** The steps for one event do to rows and queue what handling it does. */
  predicate Handles(cfg: Config, s: State, s': State, o: Outbox, r: nat, e: EventId, outcome: Outcome) {
    var o' := Handled(o, e, outcome, s.now, cfg.baseDelay);
    Shows(s', o'.rows, o'.queue, s.now, s) && Keeps(s, s', r, e)
  }

  /** What an outcome does to the rows, call by call. */
  lemma HandledRows(o: Outbox, e: EventId, outcome: Outcome, now: nat, baseDelay: nat)
    ensures var marked := if Marks(outcome) then Updated(o.rows, e, Publishing(now)) else o.rows;
            Handled(o, e, outcome, now, baseDelay).rows
            == if Succeeds(outcome) || outcome.reset.Refused? then marked else Updated(marked, e, Resetting(now, baseDelay))
  {
    assert e in o.rows ==> o.rows == o.rows[e := o.rows[e]];
  }

  lemma DoneRun(cfg: Config, s: State, o: Outbox, r: nat, e: EventId, outcome: Outcome)
    requires s.rows == o.rows && s.queue == o.queue && Holds(s, r, e, Claimed) && Succeeds(outcome)
    ensures Handles(cfg, s, ExecAll(cfg, s, HandleSteps(r, e, outcome)), o, r, e, outcome)
  {
    HandledRows(o, e, outcome, s.now, cfg.baseDelay);
    ExecTwo(cfg, s, AddOk(r, e), Publish(r, e));
    AddStep(cfg, s, r, e);
    PublishStep(cfg, Exec(cfg, s, AddOk(r, e)), r, e);
  }

  lemma ResetRun(cfg: Config, s: State, r: nat, e: EventId, reset: Reply)
    requires Holds(s, r, e, Erring)
    ensures var s' := ExecAll(cfg, s, ResetSteps(r, e, reset));
            && Shows(s', if reset.Refused? then s.rows else Updated(s.rows, e, Resetting(s.now, cfg.baseDelay)), s.queue, s.now, s)
            && Keeps(s, s', r, e)
  {
    if !reset.Refused? {
      ExecOne(cfg, s, Reset(r, e));
      ResetStep(cfg, s, r, e);
    }
  }

  lemma AddFailedRun(cfg: Config, s: State, o: Outbox, r: nat, e: EventId, outcome: Outcome)
    requires s.rows == o.rows && s.queue == o.queue && Holds(s, r, e, Claimed) && !outcome.add.Acknowledged?
    ensures Handles(cfg, s, ExecAll(cfg, s, HandleSteps(r, e, outcome)), o, r, e, outcome)
  {
    var add := AddFails(r, e, outcome.add.Unheard?);
    HandledRows(o, e, outcome, s.now, cfg.baseDelay);
    ExecSplit(cfg, s, [add], ResetSteps(r, e, outcome.reset));
    ExecOne(cfg, s, add);
    AddFailsStep(cfg, s, r, e, outcome.add.Unheard?);
    ResetRun(cfg, Exec(cfg, s, add), r, e, outcome.reset);
  }

  /** Added, and the update that marks the row throws. */
  lemma MarkFailedRun(cfg: Config, s: State, r: nat, e: EventId, reached: bool)
    requires Holds(s, r, e, Claimed)
    ensures var s' := ExecAll(cfg, s, [AddOk(r, e), PublishFails(r, e, reached)]);
            && Shows(s', if reached then Updated(s.rows, e, Publishing(s.now)) else s.rows, Enqueued(s.queue, e), s.now, s)
            && Holds(s', r, e, Erring) && Keeps(s, s', r, e)
  {
    ExecTwo(cfg, s, AddOk(r, e), PublishFails(r, e, reached));
    AddStep(cfg, s, r, e);
    PublishFailsStep(cfg, Exec(cfg, s, AddOk(r, e)), r, e, reached);
  }

  lemma UpdateFailedRun(cfg: Config, s: State, o: Outbox, r: nat, e: EventId, outcome: Outcome)
    requires s.rows == o.rows && s.queue == o.queue && Holds(s, r, e, Claimed) && outcome.add.Acknowledged? && !Succeeds(outcome)
    ensures Handles(cfg, s, ExecAll(cfg, s, HandleSteps(r, e, outcome)), o, r, e, outcome)
  {
    var first := [AddOk(r, e), PublishFails(r, e, outcome.mark.Unheard?)];
    HandledRows(o, e, outcome, s.now, cfg.baseDelay);
    ExecSplit(cfg, s, first, ResetSteps(r, e, outcome.reset));
    MarkFailedRun(cfg, s, r, e, outcome.mark.Unheard?);
    ResetRun(cfg, ExecAll(cfg, s, first), r, e, outcome.reset);
  }

  lemma HandleRun(cfg: Config, s: State, o: Outbox, r: nat, e: EventId, outcome: Outcome)
    requires s.rows == o.rows && s.queue == o.queue && Holds(s, r, e, Claimed)
    ensures Handles(cfg, s, ExecAll(cfg, s, HandleSteps(r, e, outcome)), o, r, e, outcome)
  {
    if Succeeds(outcome) {
      DoneRun(cfg, s, o, r, e, outcome);
    } else if outcome.add.Acknowledged? {
      UpdateFailedRun(cfg, s, o, r, e, outcome);
    } else {
      AddFailedRun(cfg, s, o, r, e, outcome);
    }
  }

  /** The clock moves on to the event, and the event is handled. */
  lemma TickAndHandle(cfg: Config, s: State, o: Outbox, r: nat, e: EventId, outcome: Outcome, at: nat)
    requires s.rows == o.rows && s.queue == o.queue && Holds(s, r, e, Claimed) && s.now <= at
    ensures var s' := ExecAll(cfg, s, TickAndHandleSteps(r, e, outcome, at, s.now));
            && Handles(cfg, s.(now := at), s', o, r, e, outcome)
            && s'.attempts == s.attempts
  {
    TickThen(cfg, s, at, HandleSteps(r, e, outcome));
    HandleRun(cfg, s.(now := at), o, r, e, outcome);
  }

  lemma StillHeld(s: State, s': State, r: nat, events: seq<EventId>)
    requires events != [] && Distinct(events) && HoldsAll(s, r, events) && Keeps(s, s', r, events[0])
    ensures HoldsAll(s', r, events[1..])
  {
    forall x | x in events[1..]
      ensures Holds(s', r, x, Claimed)
    {
      var i :| 0 <= i < |events[1..]| && events[1..][i] == x;
      assert events[i + 1] == x && x in events && x != events[0];
      assert Holds(s, r, x, Claimed);
    }
  }

  lemma ThrowsLater(events: seq<EventId>, outcome: EventId -> Outcome)
    requires events != [] && Throws(events[1..], outcome)
    ensures Throws(events, outcome)
  {
    var x :| x in events[1..] && Ends(outcome(x));
    assert x in events;
  }

  /** What remains to be shown of the events still to be handled. */
  predicate HandlesAll(cfg: Config, s: State, s': State, o: Outbox, events: seq<EventId>, outcome: EventId -> Outcome, at: EventId -> nat) {
    var o' := HandledAll(o, events, outcome, at, cfg.baseDelay);
    && s'.rows == o'.rows && s'.queue == o'.queue && s'.attempts == s.attempts
    && (Throws(events, outcome) || s'.now == LastTime(events, at, s.now))
  }

  lemma HandlesMore(cfg: Config, s: State, s1: State, s': State, o: Outbox, events: seq<EventId>, outcome: EventId -> Outcome, at: EventId -> nat)
    requires events != [] && !Ends(outcome(events[0])) && s1.attempts == s.attempts && s1.now == at(events[0])
    requires HandlesAll(cfg, s1, s', Handled(o, events[0], outcome(events[0]), at(events[0]), cfg.baseDelay), events[1..], outcome, at)
    ensures HandlesAll(cfg, s, s', o, events, outcome, at)
  {
    if Throws(events[1..], outcome) { ThrowsLater(events, outcome); }
  }

  lemma {:induction false} HandleAllRun(cfg: Config, s: State, o: Outbox, r: nat, events: seq<EventId>, outcome: EventId -> Outcome, at: EventId -> nat)
    requires s.rows == o.rows && s.queue == o.queue && Distinct(events) && HoldsAll(s, r, events) && InTurn(events, at, s.now)
    ensures HandlesAll(cfg, s, ExecAll(cfg, s, HandleAllSteps(r, events, outcome, at, s.now)), o, events, outcome, at)
    decreases |events|, 1
  {
    if events != [] {
      var e := events[0];
      TickAndHandle(cfg, s, o, r, e, outcome(e), at(e));
      if Ends(outcome(e)) {
        assert HandleAllSteps(r, events, outcome, at, s.now) == TickAndHandleSteps(r, e, outcome(e), at(e), s.now);
      } else {
        HandleRestRun(cfg, s, ExecAll(cfg, s, TickAndHandleSteps(r, e, outcome(e), at(e), s.now)), o, r, events, outcome, at);
      }
    }
  }

  lemma {:induction false} HandleRestRun(cfg: Config, s: State, s1: State, o: Outbox, r: nat, events: seq<EventId>, outcome: EventId -> Outcome, at: EventId -> nat)
    requires events != [] && Distinct(events) && HoldsAll(s, r, events) && InTurn(events, at, s.now) && !Ends(outcome(events[0]))
    requires s1 == ExecAll(cfg, s, TickAndHandleSteps(r, events[0], outcome(events[0]), at(events[0]), s.now))
    requires Handles(cfg, s.(now := at(events[0])), s1, o, r, events[0], outcome(events[0])) && s1.attempts == s.attempts
    ensures HandlesAll(cfg, s, ExecAll(cfg, s, HandleAllSteps(r, events, outcome, at, s.now)), o, events, outcome, at)
    decreases |events|, 0
  {
    var e := events[0];
    var first, rest := TickAndHandleSteps(r, e, outcome(e), at(e), s.now), HandleAllSteps(r, events[1..], outcome, at, at(e));
    ExecSplit(cfg, s, first, rest);
    StillHeld(s, s1, r, events);
    HandleAllRun(cfg, s1, Handled(o, e, outcome(e), at(e), cfg.baseDelay), r, events[1..], outcome, at);
    HandlesMore(cfg, s, s1, ExecAll(cfg, s1, rest), o, events, outcome, at);
  }

  // ---- Rechecking ----

  lemma RecheckRun(cfg: Config, s: State, r: nat, e: EventId)
    requires Candidate(s, e, s.now)
    ensures Shows(ExecAll(cfg, s, [Recheck(r, e), ReAdd(r, e)]), s.rows, Enqueued(s.queue, e), s.now, s)
  {
    ExecTwo(cfg, s, Recheck(r, e), ReAdd(r, e));
  }

  lemma {:induction false} RecheckAllRun(cfg: Config, s: State, r: nat, events: seq<EventId>, readd: EventId -> Reply)
    requires forall e | e in events :: Candidate(s, e, s.now)
    ensures Shows(ExecAll(cfg, s, RecheckSteps(r, events, readd)), s.rows, AddedAll(s.queue, events, readd), s.now, s)
    decreases |events|
  {
    if events != [] && !readd(events[0]).Refused? {
      RecheckRun(cfg, s, r, events[0]);
      if readd(events[0]).Acknowledged? {
        var first, rest := [Recheck(r, events[0]), ReAdd(r, events[0])], RecheckSteps(r, events[1..], readd);
        ExecSplit(cfg, s, first, rest);
        var s1 := ExecAll(cfg, s, first);
        forall e | e in events[1..]
          ensures Candidate(s1, e, s1.now)
        {
          assert e in events;
          assert Candidate(s, e, s.now);
        }
        RecheckAllRun(cfg, s1, r, events[1..], readd);
      }
    }
  }

  // ---- A whole poll ----

  /** The readings of one poll are in order, and start no earlier than the state. */
  predicate Forward(clock: Clock, events: seq<EventId>, now: nat) {
    && clock.claim <= clock.lease && now <= clock.lease && InTurn(events, clock.handled, clock.lease)
    && LastTime(events, clock.handled, clock.lease) <= clock.recheck
  }

  function Selected(o: Outbox, clock: Clock): seq<EventId>
    requires Valid(o)
  {
    First(o.order, o.rows, clock.claim, CLAIM_LIMIT)
  }

  function ClaimingSteps(s: State, o: Outbox, r: nat, clock: Clock): seq<Step>
    requires Valid(o) && s.now <= clock.lease
  {
    [Tick(clock.lease - s.now)] + ClaimSteps(r, Selected(o, clock), clock.claim)
  }

  function RelayedSteps(s: State, o: Outbox, r: nat, clock: Clock, answers: Answers): seq<Step>
    requires Valid(o) && Forward(clock, Selected(o, clock), s.now)
  {
    ClaimingSteps(s, o, r, clock) + HandleAllSteps(r, Selected(o, clock), answers.outcome, clock.handled, clock.lease)
  }

  /** The steps of a poll; what the relay remembers is lost when the poll is over. */
  function PollSteps(cfg: Config, s: State, o: Outbox, r: nat, clock: Clock, answers: Answers): seq<Step>
    requires Valid(o) && Forward(clock, Selected(o, clock), s.now)
  {
    PollCalls(cfg, s, o, r, clock, answers) + [RelayCrash(r)]
  }

  function PollCalls(cfg: Config, s: State, o: Outbox, r: nat, clock: Clock, answers: Answers): seq<Step>
    requires Valid(o) && Forward(clock, Selected(o, clock), s.now)
  {
    if answers.claim.Refused? then []
    else if answers.claim.Unheard? then ClaimingSteps(s, o, r, clock)
    else if !Reconciles(o, clock, answers) then RelayedSteps(s, o, r, clock, answers)
    else RelayedSteps(s, o, r, clock, answers)
         + RecheckingSteps(LastTime(Selected(o, clock), clock.handled, clock.lease), r, clock.recheck,
                           Rechecked(Relayed(o, clock, cfg.baseDelay, answers), s.attempts, clock.recheck), answers.readd)
  }

  function RecheckingSteps(now: nat, r: nat, at: nat, events: seq<EventId>, readd: EventId -> Reply): seq<Step>
    requires now <= at
  {
    [Tick(at - now)] + RecheckSteps(r, events, readd)
  }

  lemma SelectedIs(o: Outbox, clock: Clock)
    requires Valid(o)
    ensures Distinct(Selected(o, clock))
    ensures forall e | e in Selected(o, clock) :: e in o.rows && Claimable(o.rows[e], clock.claim)
  {
    FirstFromOrder(o.order, o.rows, clock.claim, CLAIM_LIMIT);
  }

  lemma ClaimingIsARun(cfg: Config, s: State, o: Outbox, r: nat, clock: Clock)
    requires Valid(o) && s.rows == o.rows && s.queue == o.queue && clock.claim <= clock.lease && s.now <= clock.lease
    ensures var s' := ExecAll(cfg, s, ClaimingSteps(s, o, r, clock));
            && Shows(s', Marked(o, Selected(o, clock), clock.lease).rows, o.queue, clock.lease, s)
            && HoldsAll(s', r, Selected(o, clock)) && Distinct(Selected(o, clock))
  {
    TickThen(cfg, s, clock.lease, ClaimSteps(r, Selected(o, clock), clock.claim));
    ClaimingAt(cfg, s.(now := clock.lease), o, r, clock);
  }

  lemma ClaimingAt(cfg: Config, s: State, o: Outbox, r: nat, clock: Clock)
    requires Valid(o) && s.rows == o.rows && clock.claim <= clock.lease && s.now == clock.lease
    ensures var s' := ExecAll(cfg, s, ClaimSteps(r, Selected(o, clock), clock.claim));
            && Shows(s', Marked(o, Selected(o, clock), clock.lease).rows, s.queue, clock.lease, s)
            && HoldsAll(s', r, Selected(o, clock)) && Distinct(Selected(o, clock))
  {
    SelectedIs(o, clock);
    ClaimRun(cfg, s, o, r, Selected(o, clock), clock.claim);
  }

  lemma RelayedIsARun(cfg: Config, s: State, o: Outbox, r: nat, clock: Clock, answers: Answers)
    requires Valid(o) && s.rows == o.rows && s.queue == o.queue && Forward(clock, Selected(o, clock), s.now)
    ensures var s', o' := ExecAll(cfg, s, RelayedSteps(s, o, r, clock, answers)), Relayed(o, clock, cfg.baseDelay, answers);
            && s'.rows == o'.rows && s'.queue == o'.queue && s'.attempts == s.attempts
            && (Throws(Selected(o, clock), answers.outcome) || s'.now == LastTime(Selected(o, clock), clock.handled, clock.lease))
  {
    var events := Selected(o, clock);
    ClaimingIsARun(cfg, s, o, r, clock);
    var claimed := ExecAll(cfg, s, ClaimingSteps(s, o, r, clock));
    ExecSplit(cfg, s, ClaimingSteps(s, o, r, clock), HandleAllSteps(r, events, answers.outcome, clock.handled, clock.lease));
    HandleAllRun(cfg, claimed, Marked(o, events, clock.lease), r, events, answers.outcome, clock.handled);
  }

  lemma RecheckedAreCandidates(o: Outbox, attempts: Attempts, now: nat)
    ensures forall e | e in Rechecked(o, attempts, now) :: Overdue(o, attempts, e, now)
  {
    OverdueIs(o, o.order, attempts, now);
    assert forall e | e in Rechecked(o, attempts, now) :: e in OverdueIn(o, o.order, attempts, now);
  }

  lemma RecheckingIsARun(cfg: Config, s: State, after: Outbox, r: nat, at: nat, readd: EventId -> Reply)
    requires s.rows == after.rows && s.queue == after.queue && s.now <= at
    ensures var events := Rechecked(after, s.attempts, at);
            Shows(ExecAll(cfg, s, RecheckingSteps(s.now, r, at, events, readd)), after.rows, AddedAll(after.queue, events, readd), at, s)
  {
    var events := Rechecked(after, s.attempts, at);
    TickThen(cfg, s, at, RecheckSteps(r, events, readd));
    RecheckedAreCandidates(after, s.attempts, at);
    var later := s.(now := at);
    forall e | e in events
      ensures Candidate(later, e, at)
    {
      assert Overdue(after, s.attempts, e, at);
    }
    RecheckAllRun(cfg, later, r, events, readd);
  }

  lemma ReconciledIsARun(cfg: Config, s: State, o: Outbox, r: nat, clock: Clock, answers: Answers)
    requires Valid(o) && s.rows == o.rows && s.queue == o.queue && Forward(clock, Selected(o, clock), s.now)
    requires answers.claim.Acknowledged? && Reconciles(o, clock, answers)
    ensures var s', o' := ExecAll(cfg, s, PollCalls(cfg, s, o, r, clock, answers)), Polled(o, s.attempts, clock, cfg.baseDelay, answers);
            s'.rows == o'.rows && s'.queue == o'.queue && s'.attempts == s.attempts
  {
    RelayedIsARun(cfg, s, o, r, clock, answers);
    var after := Relayed(o, clock, cfg.baseDelay, answers);
    var steps := RelayedSteps(s, o, r, clock, answers);
    var mid := ExecAll(cfg, s, steps);
    ExecSplit(cfg, s, steps, RecheckingSteps(mid.now, r, clock.recheck, Rechecked(after, s.attempts, clock.recheck), answers.readd));
    RecheckingIsARun(cfg, mid, after, r, clock.recheck, answers.readd);
  }

  lemma PollCallsAreARun(cfg: Config, s: State, o: Outbox, r: nat, clock: Clock, answers: Answers)
    requires Valid(o) && s.rows == o.rows && s.queue == o.queue && Forward(clock, Selected(o, clock), s.now)
    ensures var s', o' := ExecAll(cfg, s, PollCalls(cfg, s, o, r, clock, answers)), Polled(o, s.attempts, clock, cfg.baseDelay, answers);
            s'.rows == o'.rows && s'.queue == o'.queue && s'.attempts == s.attempts
  {
    if answers.claim.Unheard? {
      ClaimingIsARun(cfg, s, o, r, clock);
    } else if answers.claim.Acknowledged? {
      if Reconciles(o, clock, answers) {
        ReconciledIsARun(cfg, s, o, r, clock, answers);
      } else {
        RelayedIsARun(cfg, s, o, r, clock, answers);
      }
    }
  }

  lemma ForgetStep(cfg: Config, s: State, r: nat)
    ensures var s' := Exec(cfg, s, RelayCrash(r));
            Shows(s', s.rows, s.queue, s.now, s) && forall t | t in s'.tokens :: t.relay != r
  {
  }

  /** Whatever the calls of a poll answer, its effect on rows and queue is that of a sequence of machine
      steps of one relay, each at the time the poll reads for it, and nothing of it is remembered. */
  lemma PollIsARun(cfg: Config, s: State, o: Outbox, r: nat, clock: Clock, answers: Answers)
    requires Valid(o) && s.rows == o.rows && s.queue == o.queue && Forward(clock, Selected(o, clock), s.now)
    ensures var s', o' := ExecAll(cfg, s, PollSteps(cfg, s, o, r, clock, answers)), Polled(o, s.attempts, clock, cfg.baseDelay, answers);
            && s'.rows == o'.rows && s'.queue == o'.queue && s'.attempts == s.attempts
            && forall t | t in s'.tokens :: t.relay != r
  {
    var calls := PollCalls(cfg, s, o, r, clock, answers);
    PollCallsAreARun(cfg, s, o, r, clock, answers);
    ExecSplit(cfg, s, calls, [RelayCrash(r)]);
    ExecOne(cfg, ExecAll(cfg, s, calls), RelayCrash(r));
    ForgetStep(cfg, ExecAll(cfg, s, calls), r);
  }

  /** A poll from a reachable state ends in a reachable state; so its rows are well formed, whatever they
      publish was really queued at some time, and none of its events is stranded. */
  lemma PollStaysReachable(cfg: Config, before: seq<Step>, o: Outbox, r: nat, clock: Clock, answers: Answers, e: EventId)
    requires 1 <= cfg.maxAttempts
    requires var s := Run(cfg, before); Valid(o) && s.rows == o.rows && s.queue == o.queue && Forward(clock, Selected(o, clock), s.now)
    requires e in o.rows
    ensures var s := Run(cfg, before);
            var s', o' := Run(cfg, before + PollSteps(cfg, s, o, r, clock, answers)), Polled(o, s.attempts, clock, cfg.baseDelay, answers);
            && s'.rows == o'.rows && s'.queue == o'.queue && e in o'.rows
            && (o'.rows[e].status == Processing <==> o'.rows[e].lockUntil.Some?)
            && (o'.rows[e].status == Published <==> o'.rows[e].publishedAt.Some?)
            && (o'.rows[e].status == Published ==> e in s'.queued)
            && forall at: nat | at > s'.now + LEASE + cfg.baseDelay ::
                 Terminal(s.attempts, e) || Claimable(o'.rows[e], at) || Candidate(s', e, at)
  {
    var s := Run(cfg, before);
    var steps := PollSteps(cfg, s, o, r, clock, answers);
    PollIsARun(cfg, s, o, r, clock, answers);
    RunContinues(cfg, before, steps);
    PollKeepsRows(cfg, o, s.attempts, clock, answers);
    RowsWellFormed(cfg, before + steps, e);
    EveryRun(cfg, before + steps);
    assert RowOk(cfg, Run(cfg, before + steps), e);
    forall at: nat | at > Run(cfg, before + steps).now + LEASE + cfg.baseDelay
      ensures var s' := Run(cfg, before + steps); Terminal(s.attempts, e) || Claimable(s'.rows[e], at) || Candidate(s', e, at)
    {
      NothingStranded(cfg, before + steps, e, at);
    }
  }

  lemma {:induction false} HandledKeepsRows(o: Outbox, events: seq<EventId>, outcome: EventId -> Outcome, at: EventId -> nat, baseDelay: nat)
    ensures HandledAll(o, events, outcome, at, baseDelay).rows.Keys == o.rows.Keys
    decreases |events|
  {
    if events != [] && !Ends(outcome(events[0])) {
      HandledKeepsRows(Handled(o, events[0], outcome(events[0]), at(events[0]), baseDelay), events[1..], outcome, at, baseDelay);
    }
  }

  lemma PollKeepsRows(cfg: Config, o: Outbox, attempts: Attempts, clock: Clock, answers: Answers)
    requires Valid(o)
    ensures Polled(o, attempts, clock, cfg.baseDelay, answers).rows.Keys == o.rows.Keys
  {
    HandledKeepsRows(Marked(o, Selected(o, clock), clock.lease), Selected(o, clock), answers.outcome, clock.handled, cfg.baseDelay);
  }
}
