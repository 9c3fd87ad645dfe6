/** Schedules of one request at a time: that a request left alone commits what the atomic ledger would, and
    a schedule in which a purged receipt's body is accepted by the event-time window again. */
module LedgerSchedules {
  import opened Options
  import opened Ledger
  import opened Concurrency
  import opened ConcurrencyProof

  /** The state of a run that has one transaction. */
  ghost predicate Solo(cfg: Config, steps: seq<Step>, before: State, t: Txn) {
    Run(cfg, steps) == before.(txns := map[0 := t])
  }

  lemma Snoc(cfg: Config, steps: seq<Step>, step: Step)
    ensures AllTyped(Run(cfg, steps)) && Run(cfg, steps + [step]) == Exec(cfg, Run(cfg, steps), step)
  {
    assert (steps + [step])[..|steps|] == steps;
  }

  lemma Moves(cfg: Config, steps: seq<Step>, before: State, t: Txn, id: InvoiceId, phase: Phase) returns (longer: seq<Step>)
    requires Solo(cfg, steps, before, t) && Typed(t)
    requires Exec(cfg, before.(txns := map[0 := t]), Advance(0, id)) == before.(txns := map[0 := t.(phase := phase)])
    ensures longer == steps + [Advance(0, id)] && Solo(cfg, longer, before, t.(phase := phase))
  {
    Snoc(cfg, steps, Advance(0, id));
    longer := steps + [Advance(0, id)];
  }

  // ---- A creation ----

  lemma CreationBegins(cfg: Config, before: State, c: Creation, id: InvoiceId)
    requires before.txns == map[] && c.key !in before.db.records
    ensures var t := Txn(CreateRequest(c), before.clock, Begun);
            Exec(cfg, before.(txns := map[0 := t]), Advance(0, id)) == before.(txns := map[0 := t.(phase := Looked)])
  {
  }

  lemma CreationInserts(cfg: Config, before: State, c: Creation, id: InvoiceId)
    requires before.txns == map[] && c.authorized && PriceOf(c).Ok? && id !in before.db.invoices
    ensures var t := Txn(CreateRequest(c), before.clock, Looked);
            Exec(cfg, before.(txns := map[0 := t]), Advance(0, id))
            == before.(txns := map[0 := t.(phase := CreateInserted(PriceOf(c).value, id, before.clock))])
  {
  }

  lemma CreationRecords(cfg: Config, before: State, c: Creation, id: InvoiceId)
    requires before.txns == map[] && PriceOf(c).Ok? && c.key !in before.db.records
    ensures var t := Txn(CreateRequest(c), before.clock, CreateInserted(PriceOf(c).value, id, before.clock));
            Exec(cfg, before.(txns := map[0 := t]), Advance(0, id))
            == before.(txns := map[0 := t.(phase := CreateReady(PriceOf(c).value, id, before.clock, before.clock))])
  {
  }

  lemma CreationCommits(cfg: Config, before: State, c: Creation, id: InvoiceId)
    requires before.txns == map[] && PriceOf(c).Ok?
    ensures var t := Txn(CreateRequest(c), before.clock, CreateReady(PriceOf(c).value, id, before.clock, before.clock));
            var s := Exec(cfg, before.(txns := map[0 := t]), Advance(0, id));
            Logged(s, before, Create(c, id, before.clock, before.clock))
  {
  }

  /** What a request that ran alone has left. */
  predicate Done(cfg: Config, s: State, before: State, op: Op) {
    && s.txns == map[] && s.clock == before.clock && s.log == before.log + [Entry(op, Atomic(cfg, before.db, op).1)]
    && s.db == Atomic(cfg, before.db, op).0
  }

  predicate Logged(s: State, before: State, op: Op) {
    && s.txns == map[] && s.clock == before.clock
    && |s.log| == |before.log| + 1 && s.log[..|before.log|] == before.log && s.log[|before.log|].op == op
  }

  lemma LoggedIsDone(cfg: Config, s: State, before: State, op: Op)
    requires Logged(s, before, op) && before.db == Replay(cfg, before.log)
    requires Serial(cfg, s.log) && s.db == Replay(cfg, s.log)
    ensures Done(cfg, s, before, op)
  {
    var last := s.log[|before.log|];
    assert s.log == before.log + [last];
    LastReply(cfg, before.log, last);
  }

  lemma RunIsSerial(cfg: Config, steps: seq<Step>)
    ensures var s := Run(cfg, steps); Serial(cfg, s.log) && s.db == Replay(cfg, s.log)
  {
  }

  lemma LastReply(cfg: Config, log: seq<Entry>, last: Entry)
    requires Serial(cfg, log + [last])
    ensures Atomic(cfg, Replay(cfg, log), last.op) == (Replay(cfg, log + [last]), last.response)
  {
    assert (log + [last])[..|log|] == log;
  }

  /** A creation that runs alone, and that the atomic ledger would commit, commits. */
  lemma CreationRuns(cfg: Config, steps: seq<Step>, c: Creation, id: InvoiceId) returns (longer: seq<Step>)
    requires var s := Run(cfg, steps); s.txns == map[] && Decide(cfg, s.db, Create(c, id, s.clock, s.clock)).Commit?
    ensures Done(cfg, Run(cfg, longer), Run(cfg, steps), Create(c, id, Run(cfg, steps).clock, Run(cfg, steps).clock))
  {
    var before := Run(cfg, steps);
    var t := Txn(CreateRequest(c), before.clock, Begun);
    Snoc(cfg, steps, Admit(0, CreateRequest(c)));
    longer := steps + [Admit(0, CreateRequest(c))];
    CreationBegins(cfg, before, c, id);
    longer := Moves(cfg, longer, before, t, id, Looked);
    CreationInserts(cfg, before, c, id);
    longer := Moves(cfg, longer, before, t.(phase := Looked), id, CreateInserted(PriceOf(c).value, id, before.clock));
    longer := CreationEnds(cfg, longer, before, c, id);
  }

  lemma CreationEnds(cfg: Config, steps: seq<Step>, before: State, c: Creation, id: InvoiceId) returns (longer: seq<Step>)
    requires before.txns == map[] && PriceOf(c).Ok? && c.key !in before.db.records && before.db == Replay(cfg, before.log)
    requires Solo(cfg, steps, before, Txn(CreateRequest(c), before.clock, CreateInserted(PriceOf(c).value, id, before.clock)))
    ensures Done(cfg, Run(cfg, longer), before, Create(c, id, before.clock, before.clock))
  {
    var ready := CreateReady(PriceOf(c).value, id, before.clock, before.clock);
    CreationRecords(cfg, before, c, id);
    longer := Moves(cfg, steps, before, Txn(CreateRequest(c), before.clock, CreateInserted(PriceOf(c).value, id, before.clock)), id, ready);
    CreationCommits(cfg, before, c, id);
    Snoc(cfg, longer, Advance(0, id));
    longer := longer + [Advance(0, id)];
    RunIsSerial(cfg, longer);
    LoggedIsDone(cfg, Run(cfg, longer), before, Create(c, id, before.clock, before.clock));
  }

  // ---- A capture ----

  function Capturer(before: State, w: Webhook, phase: Phase): Txn { Txn(WebhookRequest(w), before.clock, phase) }

  /** The ledger will commit this capture. */
  predicate Capturable(before: State, w: Webhook) {
    && before.txns == map[] && w.captures && w.EventKey() !in before.db.receipts && DecideCapture(before.db, w).Commit?
  }

  lemma CaptureBegins(cfg: Config, before: State, w: Webhook)
    requires Capturable(before, w)
    ensures Exec(cfg, before.(txns := map[0 := Capturer(before, w, Begun)]), Advance(0, 0))
            == before.(txns := map[0 := Capturer(before, w, Looked)])
  {
  }

  lemma CaptureLocks(cfg: Config, before: State, w: Webhook)
    requires Capturable(before, w)
    ensures Exec(cfg, before.(txns := map[0 := Capturer(before, w, Looked)]), Advance(0, 0))
            == before.(txns := map[0 := Capturer(before, w, CapLocked(before.db.invoices[w.invoice]))])
  {
  }

  lemma NothingPending(db: Db)
    ensures Apply(db, NOTHING) == db
  {
  }

  lemma CaptureLooks(cfg: Config, before: State, w: Webhook, inv: Invoice)
    requires Capturable(before, w) && inv == before.db.invoices[w.invoice]
    ensures Exec(cfg, before.(txns := map[0 := Capturer(before, w, CapLocked(inv))]), Advance(0, 0))
            == before.(txns := map[0 := Capturer(before, w, CapFresh(inv))])
  {
    NothingPending(before.db);
  }

  lemma CaptureSums(cfg: Config, before: State, w: Webhook, inv: Invoice)
    requires Capturable(before, w) && inv == before.db.invoices[w.invoice]
    ensures Exec(cfg, before.(txns := map[0 := Capturer(before, w, CapFresh(inv))]), Advance(0, 0))
            == before.(txns := map[0 := Capturer(before, w, CapSummed(inv, CapturedSum(before.db.payments, w.invoice)))])
  {
    NothingPending(before.db);
  }

  lemma CaptureInserts(cfg: Config, before: State, w: Webhook, inv: Invoice, captured: nat)
    requires Capturable(before, w)
    ensures Exec(cfg, before.(txns := map[0 := Capturer(before, w, CapSummed(inv, captured))]), Advance(0, 0))
            == before.(txns := map[0 := Capturer(before, w, CapInserted(inv, captured))])
  {
  }

  /** The updated invoice row. */
  lemma CaptureWritesRow(cfg: Config, before: State, w: Webhook, inv: Invoice, captured: nat) returns (row: Invoice)
    requires Capturable(before, w)
    ensures Exec(cfg, before.(txns := map[0 := Capturer(before, w, CapInserted(inv, captured))]), Advance(0, 0))
            == before.(txns := map[0 := Capturer(before, w, CapWritten(inv, captured, row))])
  {
    var t := Capturer(before, w, CapInserted(inv, captured));
    row := Bumped(CurrentRow(View(before.db, t), w.invoice, inv), CaptureStatus(w, inv, captured));
  }

  lemma CaptureReceipts(cfg: Config, before: State, w: Webhook, inv: Invoice, captured: nat, row: Invoice)
    requires Capturable(before, w)
    ensures Exec(cfg, before.(txns := map[0 := Capturer(before, w, CapWritten(inv, captured, row))]), Advance(0, 0))
            == before.(txns := map[0 := Capturer(before, w, CapReady(inv, captured, row, before.clock))])
  {
  }

  lemma CaptureCommits(cfg: Config, before: State, w: Webhook, inv: Invoice, captured: nat, row: Invoice)
    requires before.txns == map[]
    ensures var s := Exec(cfg, before.(txns := map[0 := Capturer(before, w, CapReady(inv, captured, row, before.clock))]), Advance(0, 0));
            Logged(s, before, HandleWebhook(w, before.clock, before.clock))
  {
  }

  /** A capture that runs alone, and that the atomic ledger would commit, commits. */
  lemma CaptureRuns(cfg: Config, steps: seq<Step>, w: Webhook) returns (longer: seq<Step>)
    requires Capturable(Run(cfg, steps), w) && Precheck(cfg, w, Run(cfg, steps).clock).None?
    ensures Done(cfg, Run(cfg, longer), Run(cfg, steps), HandleWebhook(w, Run(cfg, steps).clock, Run(cfg, steps).clock))
  {
    var before := Run(cfg, steps);
    var inv := before.db.invoices[w.invoice];
    Snoc(cfg, steps, Admit(0, WebhookRequest(w)));
    longer := steps + [Admit(0, WebhookRequest(w))];
    CaptureBegins(cfg, before, w);
    longer := Moves(cfg, longer, before, Capturer(before, w, Begun), 0, Looked);
    CaptureLocks(cfg, before, w);
    longer := Moves(cfg, longer, before, Capturer(before, w, Looked), 0, CapLocked(inv));
    longer := CaptureChecks(cfg, longer, before, w, inv);
    longer := CaptureEnds(cfg, longer, before, w, inv, CapturedSum(before.db.payments, w.invoice));
  }

  lemma CaptureChecks(cfg: Config, steps: seq<Step>, before: State, w: Webhook, inv: Invoice) returns (longer: seq<Step>)
    requires Capturable(before, w) && inv == before.db.invoices[w.invoice]
    requires Solo(cfg, steps, before, Capturer(before, w, CapLocked(inv)))
    ensures Solo(cfg, longer, before, Capturer(before, w, CapSummed(inv, CapturedSum(before.db.payments, w.invoice))))
  {
    CaptureLooks(cfg, before, w, inv);
    longer := Moves(cfg, steps, before, Capturer(before, w, CapLocked(inv)), 0, CapFresh(inv));
    CaptureSums(cfg, before, w, inv);
    longer := Moves(cfg, longer, before, Capturer(before, w, CapFresh(inv)), 0, CapSummed(inv, CapturedSum(before.db.payments, w.invoice)));
  }

  lemma CaptureEnds(cfg: Config, steps: seq<Step>, before: State, w: Webhook, inv: Invoice, captured: nat) returns (longer: seq<Step>)
    requires Capturable(before, w) && before.db == Replay(cfg, before.log)
    requires Solo(cfg, steps, before, Capturer(before, w, CapSummed(inv, captured)))
    ensures Done(cfg, Run(cfg, longer), before, HandleWebhook(w, before.clock, before.clock))
  {
    CaptureInserts(cfg, before, w, inv, captured);
    longer := Moves(cfg, steps, before, Capturer(before, w, CapSummed(inv, captured)), 0, CapInserted(inv, captured));
    var row := CaptureWritesRow(cfg, before, w, inv, captured);
    longer := Moves(cfg, longer, before, Capturer(before, w, CapInserted(inv, captured)), 0, CapWritten(inv, captured, row));
    CaptureReceipts(cfg, before, w, inv, captured, row);
    longer := Moves(cfg, longer, before, Capturer(before, w, CapWritten(inv, captured, row)), 0, CapReady(inv, captured, row, before.clock));
    CaptureCommits(cfg, before, w, inv, captured, row);
    Snoc(cfg, longer, Advance(0, 0));
    longer := longer + [Advance(0, 0)];
    RunIsSerial(cfg, longer);
    LoggedIsDone(cfg, Run(cfg, longer), before, HandleWebhook(w, before.clock, before.clock));
  }

  // ---- A refund ----

  /** The ledger will commit this refund. */
  predicate Refundable(before: State, w: Webhook) {
    && before.txns == map[] && !w.captures && w.EventKey() !in before.db.receipts && DecideRefund(before.db, w).Commit?
  }

  /** Its payment and its invoice. */
  predicate Refunds(before: State, w: Webhook, p: Payment, inv: Invoice) {
    && Refundable(before, w) && FindPayment(before.db.payments, w.PaymentKey()) == Some(p)
    && w.invoice in before.db.invoices && before.db.invoices[w.invoice] == inv
  }

  /** One step of a request that runs alone. */
  predicate StepsTo(cfg: Config, before: State, w: Webhook, from: Phase, to: Phase)
    requires Typed(Capturer(before, w, from))
  {
    Exec(cfg, before.(txns := map[0 := Capturer(before, w, from)]), Advance(0, 0)) == before.(txns := map[0 := Capturer(before, w, to)])
  }

  lemma RefundBegins(cfg: Config, before: State, w: Webhook, p: Payment, inv: Invoice)
    requires Refunds(before, w, p, inv)
    ensures StepsTo(cfg, before, w, Begun, Looked) && StepsTo(cfg, before, w, Looked, RefPayment(p))
  {
  }

  lemma RefundLocks(cfg: Config, before: State, w: Webhook, p: Payment, inv: Invoice)
    requires Refunds(before, w, p, inv)
    ensures StepsTo(cfg, before, w, RefPayment(p), RefLocked(p, inv))
  {
  }

  lemma RefundLooks(cfg: Config, before: State, w: Webhook, p: Payment, inv: Invoice)
    requires Refunds(before, w, p, inv)
    ensures StepsTo(cfg, before, w, RefLocked(p, inv), RefFresh(p, inv))
  {
    NothingPending(before.db);
  }

  lemma RefundInserts(cfg: Config, before: State, w: Webhook, p: Payment, inv: Invoice)
    requires Refunds(before, w, p, inv)
    ensures StepsTo(cfg, before, w, RefFresh(p, inv), RefInserted(p, inv))
  {
  }

  lemma RefundUpdates(cfg: Config, before: State, w: Webhook, p: Payment, inv: Invoice) returns (matched: bool)
    requires Refunds(before, w, p, inv)
    ensures StepsTo(cfg, before, w, RefInserted(p, inv), RefUpdated(p, inv, matched))
  {
    var current := FindPayment(View(before.db, Capturer(before, w, RefInserted(p, inv))).payments, w.PaymentKey());
    matched := current.Some? && current.value.version == p.version;
  }

  lemma RefundSums(cfg: Config, before: State, w: Webhook, p: Payment, inv: Invoice, matched: bool) returns (captured: nat, refunded: nat)
    requires Refunds(before, w, p, inv)
    ensures StepsTo(cfg, before, w, RefUpdated(p, inv, matched), RefSummed(p, inv, matched, captured, refunded))
  {
    var payments := View(before.db, Capturer(before, w, RefUpdated(p, inv, matched))).payments;
    captured, refunded := CapturedSum(payments, w.invoice), RefundedSum(payments, w.invoice);
  }

  lemma RefundWritesRow(cfg: Config, before: State, w: Webhook, p: Payment, inv: Invoice, matched: bool, captured: nat, refunded: nat)
    returns (row: Invoice)
    requires Refunds(before, w, p, inv)
    ensures StepsTo(cfg, before, w, RefSummed(p, inv, matched, captured, refunded), RefWritten(p, inv, matched, captured, refunded, row))
  {
    var t := Capturer(before, w, RefSummed(p, inv, matched, captured, refunded));
    row := Bumped(CurrentRow(View(before.db, t), w.invoice, inv), RefundStatus(captured, refunded));
  }

  lemma RefundReceipts(cfg: Config, before: State, w: Webhook, p: Payment, inv: Invoice, matched: bool, captured: nat, refunded: nat, row: Invoice)
    requires Refunds(before, w, p, inv)
    ensures StepsTo(cfg, before, w, RefWritten(p, inv, matched, captured, refunded, row),
                    RefReady(p, inv, matched, captured, refunded, row, before.clock))
  {
  }

  lemma RefundCommits(cfg: Config, before: State, w: Webhook, p: Payment, inv: Invoice, matched: bool, captured: nat, refunded: nat, row: Invoice)
    requires before.txns == map[]
    ensures var ready := RefReady(p, inv, matched, captured, refunded, row, before.clock);
            var s := Exec(cfg, before.(txns := map[0 := Capturer(before, w, ready)]), Advance(0, 0));
            Logged(s, before, HandleWebhook(w, before.clock, before.clock))
  {
  }

  lemma Steps(cfg: Config, steps: seq<Step>, before: State, w: Webhook, from: Phase, to: Phase) returns (longer: seq<Step>)
    requires Typed(Capturer(before, w, from)) && StepsTo(cfg, before, w, from, to) && Solo(cfg, steps, before, Capturer(before, w, from))
    ensures Solo(cfg, longer, before, Capturer(before, w, to))
  {
    longer := Moves(cfg, steps, before, Capturer(before, w, from), 0, to);
  }

  /** A refund that runs alone, and that the atomic ledger would commit, commits. */
  lemma RefundRuns(cfg: Config, steps: seq<Step>, w: Webhook) returns (longer: seq<Step>)
    requires Refundable(Run(cfg, steps), w) && Precheck(cfg, w, Run(cfg, steps).clock).None?
    ensures Done(cfg, Run(cfg, longer), Run(cfg, steps), HandleWebhook(w, Run(cfg, steps).clock, Run(cfg, steps).clock))
  {
    var before := Run(cfg, steps);
    var p, inv := FindPayment(before.db.payments, w.PaymentKey()).value, before.db.invoices[w.invoice];
    Snoc(cfg, steps, Admit(0, WebhookRequest(w)));
    longer := steps + [Admit(0, WebhookRequest(w))];
    RunIsSerial(cfg, steps);
    longer := RefundChecks(cfg, longer, before, w, p, inv);
    longer := RefundEnds(cfg, longer, before, w, p, inv);
  }

  lemma RefundChecks(cfg: Config, steps: seq<Step>, before: State, w: Webhook, p: Payment, inv: Invoice) returns (longer: seq<Step>)
    requires Refunds(before, w, p, inv) && Solo(cfg, steps, before, Capturer(before, w, Begun))
    ensures Solo(cfg, longer, before, Capturer(before, w, RefInserted(p, inv)))
  {
    RefundBegins(cfg, before, w, p, inv);
    longer := Steps(cfg, steps, before, w, Begun, Looked);
    longer := Steps(cfg, longer, before, w, Looked, RefPayment(p));
    RefundLocks(cfg, before, w, p, inv);
    longer := Steps(cfg, longer, before, w, RefPayment(p), RefLocked(p, inv));
    RefundLooks(cfg, before, w, p, inv);
    longer := Steps(cfg, longer, before, w, RefLocked(p, inv), RefFresh(p, inv));
    RefundInserts(cfg, before, w, p, inv);
    longer := Steps(cfg, longer, before, w, RefFresh(p, inv), RefInserted(p, inv));
  }

  lemma RefundEnds(cfg: Config, steps: seq<Step>, before: State, w: Webhook, p: Payment, inv: Invoice) returns (longer: seq<Step>)
    requires Refunds(before, w, p, inv) && before.db == Replay(cfg, before.log)
    requires Solo(cfg, steps, before, Capturer(before, w, RefInserted(p, inv)))
    ensures Done(cfg, Run(cfg, longer), before, HandleWebhook(w, before.clock, before.clock))
  {
    var matched := RefundUpdates(cfg, before, w, p, inv);
    longer := Steps(cfg, steps, before, w, RefInserted(p, inv), RefUpdated(p, inv, matched));
    var captured, refunded := RefundSums(cfg, before, w, p, inv, matched);
    longer := Steps(cfg, longer, before, w, RefUpdated(p, inv, matched), RefSummed(p, inv, matched, captured, refunded));
    var row := RefundWritesRow(cfg, before, w, p, inv, matched, captured, refunded);
    longer := Steps(cfg, longer, before, w, RefSummed(p, inv, matched, captured, refunded), RefWritten(p, inv, matched, captured, refunded, row));
    RefundReceipts(cfg, before, w, p, inv, matched, captured, refunded, row);
    var ready := RefReady(p, inv, matched, captured, refunded, row, before.clock);
    longer := Steps(cfg, longer, before, w, RefWritten(p, inv, matched, captured, refunded, row), ready);
    RefundCommits(cfg, before, w, p, inv, matched, captured, refunded, row);
    Snoc(cfg, longer, Advance(0, 0));
    longer := longer + [Advance(0, 0)];
    RunIsSerial(cfg, longer);
    LoggedIsDone(cfg, Run(cfg, longer), before, HandleWebhook(w, before.clock, before.clock));
  }

  // ---- A manual transition ----

  lemma ChangeReads(cfg: Config, before: State, c: Change)
    requires before.txns == map[] && DecideChange(before.db, c).Commit?
    ensures var t := Txn(ChangeRequest(c), before.clock, Begun);
            Exec(cfg, before.(txns := map[0 := t]), Advance(0, 0))
            == before.(txns := map[0 := t.(phase := ChangeRead(before.db.invoices[c.invoice]))])
  {
  }

  lemma ChangeUpdates(cfg: Config, before: State, c: Change)
    requires before.txns == map[] && DecideChange(before.db, c).Commit?
    ensures var inv := before.db.invoices[c.invoice];
            var t := Txn(ChangeRequest(c), before.clock, ChangeRead(inv));
            Exec(cfg, before.(txns := map[0 := t]), Advance(0, 0))
            == before.(txns := map[0 := t.(phase := ChangeReady(inv, Bumped(inv, c.status)))])
  {
  }

  lemma ChangeCommits(cfg: Config, before: State, c: Change, inv: Invoice)
    requires before.txns == map[]
    ensures var t := Txn(ChangeRequest(c), before.clock, ChangeReady(inv, Bumped(inv, c.status)));
            Logged(Exec(cfg, before.(txns := map[0 := t]), Advance(0, 0)), before, Transition(c))
  {
  }

  /** A transition that runs alone, and that the atomic ledger would commit, commits. */
  lemma ChangeRuns(cfg: Config, steps: seq<Step>, c: Change) returns (longer: seq<Step>)
    requires Run(cfg, steps).txns == map[] && DecideChange(Run(cfg, steps).db, c).Commit?
    ensures Done(cfg, Run(cfg, longer), Run(cfg, steps), Transition(c))
  {
    var before := Run(cfg, steps);
    var t, inv := Txn(ChangeRequest(c), before.clock, Begun), before.db.invoices[c.invoice];
    RunIsSerial(cfg, steps);
    Snoc(cfg, steps, Admit(0, ChangeRequest(c)));
    longer := steps + [Admit(0, ChangeRequest(c))];
    ChangeReads(cfg, before, c);
    longer := Moves(cfg, longer, before, t, 0, ChangeRead(inv));
    longer := ChangeEnds(cfg, longer, before, c);
  }

  lemma ChangeEnds(cfg: Config, steps: seq<Step>, before: State, c: Change) returns (longer: seq<Step>)
    requires before.txns == map[] && DecideChange(before.db, c).Commit? && before.db == Replay(cfg, before.log)
    requires Solo(cfg, steps, before, Txn(ChangeRequest(c), before.clock, ChangeRead(before.db.invoices[c.invoice])))
    ensures Done(cfg, Run(cfg, longer), before, Transition(c))
  {
    var inv := before.db.invoices[c.invoice];
    ChangeUpdates(cfg, before, c);
    longer := Moves(cfg, steps, before, Txn(ChangeRequest(c), before.clock, ChangeRead(inv)), 0, ChangeReady(inv, Bumped(inv, c.status)));
    ChangeCommits(cfg, before, c, inv);
    Snoc(cfg, longer, Advance(0, 0));
    longer := longer + [Advance(0, 0)];
    RunIsSerial(cfg, longer);
    LoggedIsDone(cfg, Run(cfg, longer), before, Transition(c));
  }

  // ---- Receipts kept for 90 days or less ----

  const SAMPLE_ORDER := Math.Order([Math.Item(true, 1, 100)], 0, 0)

  function SampleCreation(): Creation { Creation(IdemKey(0, 0), 0, 0, 0, true, 0, 0, SAMPLE_ORDER) }

  function SampleCapture(cfg: Config, at: nat): Webhook {
    Webhook(cfg.provider, true, 0, 0, true, 0, None, 0, 100, 0, at + 5 * MINUTE)
  }

  lemma SamplePurges(cfg: Config, db: Db, clock: nat)
    requires cfg.receiptDays <= 90 && clock == cfg.receiptDays * DAY + 1
    requires var w := SampleCapture(cfg, 0); w.EventKey() in db.receipts && db.receipts[w.EventKey()].receivedAt == 0
    ensures var w := SampleCapture(cfg, 0);
            && w.EventKey() !in Atomic(cfg, db, Purge({w.EventKey()}, {}, clock)).0.receipts
            && Precheck(cfg, w, clock).None?
  {
  }

  lemma SamplePrice()
    ensures PriceOf(SampleCreation()) == Ok(Math.Totals([100], 100, 0, 0, 100))
  {
    var items := SAMPLE_ORDER.items;
    assert items[..0] == [];
    assert Math.FirstError(items).None?;
    assert Math.Products(items) == [100];
    assert [100][..0] == [];
    assert Math.Sum([100]) == 100;
  }

  /** The first creation in an empty ledger. */
  lemma FirstCreation(cfg: Config, c: Creation, t: Math.Totals)
    requires c.authorized && PriceOf(c) == Ok(t)
    ensures Decide(cfg, EMPTY_DB, Create(c, 0, 0, 0)).Commit?
    ensures var db := Atomic(cfg, EMPTY_DB, Create(c, 0, 0, 0)).0;
            && 0 in db.invoices && db.invoices[0].status == Issued && db.invoices[0].details.currency == c.currency
            && db.invoices[0].details.total == t.total && db.payments == [] && db.receipts == map[]
  {
  }

  lemma SampleCaptures(cfg: Config, db: Db)
    requires 0 in db.invoices && db.invoices[0].status == Issued && db.invoices[0].details.currency == 0
    requires db.invoices[0].details.total == 100 && db.payments == [] && db.receipts == map[]
    ensures var w := SampleCapture(cfg, 0);
            var (db', r) := Atomic(cfg, db, HandleWebhook(w, 0, 0));
            r.Applied? && w.EventKey() in db'.receipts && db'.receipts[w.EventKey()].receivedAt == 0
  {
  }

  /** An issued invoice of the sample's price, and nothing else. */
  predicate Issuing(s: State) {
    && s.txns == map[] && s.clock == 0 && |s.log| == 1
    && 0 in s.db.invoices && s.db.invoices[0].status == Issued && s.db.invoices[0].details.currency == 0
    && s.db.invoices[0].details.total == 100 && s.db.payments == [] && s.db.receipts == map[]
  }

  lemma SampleIssued(cfg: Config) returns (steps: seq<Step>)
    ensures Issuing(Run(cfg, steps))
  {
    assert Run(cfg, []) == INITIAL;
    SamplePrice();
    FirstCreation(cfg, SampleCreation(), Math.Totals([100], 100, 0, 0, 100));
    steps := CreationRuns(cfg, [], SampleCreation(), 0);
  }

  /** The receipt of the applied capture is there. */
  predicate Receipted(s: State, w: Webhook) {
    && s.txns == map[] && s.clock == 0 && |s.log| == 2
    && s.log[1].op == HandleWebhook(w, 0, 0) && s.log[1].response.Applied?
    && w.EventKey() in s.db.receipts && s.db.receipts[w.EventKey()].receivedAt == 0
  }

  lemma SampleCaptured(cfg: Config, before: State, s: State)
    requires Issuing(before) && Done(cfg, s, before, HandleWebhook(SampleCapture(cfg, 0), 0, 0))
    ensures Receipted(s, SampleCapture(cfg, 0))
  {
    SampleCaptures(cfg, before.db);
  }

  lemma SampleCapturable(cfg: Config, s: State)
    requires Issuing(s)
    ensures Capturable(s, SampleCapture(cfg, 0)) && Precheck(cfg, SampleCapture(cfg, 0), 0).None?
  {
  }

  lemma SampleRuns(cfg: Config) returns (steps: seq<Step>)
    ensures Receipted(Run(cfg, steps), SampleCapture(cfg, 0))
  {
    var issued := SampleIssued(cfg);
    SampleCapturable(cfg, Run(cfg, issued));
    steps := CaptureRuns(cfg, issued, SampleCapture(cfg, 0));
    SampleCaptured(cfg, Run(cfg, issued), Run(cfg, steps));
  }

  /** The configuration also admits 90 days, and there the promise fails, as it does for any shorter
      period: after this schedule a body stamped five minutes ahead has been applied, its receipt is purged,
      and its event time is still accepted. */
  lemma ShortRetentionReadmits(cfg: Config) returns (steps: seq<Step>)
    requires cfg.receiptDays <= 90
    ensures var s := Run(cfg, steps);
            && |s.log| == 3 && s.log[1].response.Applied? && s.log[1].op.HandleWebhook?
            && s.log[1].op.webhook.EventKey() !in s.db.receipts
            && Precheck(cfg, s.log[1].op.webhook, s.clock).None?
  {
    var clock := cfg.receiptDays * DAY + 1;
    steps := SampleRuns(cfg);
    Ticks(cfg, steps, clock);
    steps := SamplePurged(cfg, steps + [Tick(clock)]);
  }

  lemma Ticks(cfg: Config, steps: seq<Step>, elapsed: nat)
    ensures var s := Run(cfg, steps); Run(cfg, steps + [Tick(elapsed)]) == s.(clock := s.clock + elapsed)
  {
    Snoc(cfg, steps, Tick(elapsed));
  }

  lemma SamplePurged(cfg: Config, before: seq<Step>) returns (steps: seq<Step>)
    requires var s, w := Run(cfg, before), SampleCapture(cfg, 0);
             && cfg.receiptDays <= 90 && s.clock == cfg.receiptDays * DAY + 1 && |s.log| == 2
             && w.EventKey() in s.db.receipts && s.db.receipts[w.EventKey()].receivedAt == 0
    ensures var s, s', w := Run(cfg, before), Run(cfg, steps), SampleCapture(cfg, 0);
            && |s'.log| == 3 && s'.log[1] == s.log[1] && w.EventKey() !in s'.db.receipts && Precheck(cfg, w, s'.clock).None?
  {
    var s, w := Run(cfg, before), SampleCapture(cfg, 0);
    SamplePurges(cfg, s.db, s.clock);
    Snoc(cfg, before, Retain({w.EventKey()}, {}));
    steps := before + [Retain({w.EventKey()}, {})];
  }
}
