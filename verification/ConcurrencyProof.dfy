/** Every schedule of the concurrent machine commits exactly what its log commits one operation
    at a time. */
module ConcurrencyProof {
  import opened Options
  import opened Ledger
  import opened LedgerRows
  import opened Concurrency

  // ---- What a transaction may rely on ----

  predicate CaptureFacts(db: Db, w: Webhook, inv: Invoice) {
    && w.captures
    && w.invoice in db.invoices && db.invoices[w.invoice] == inv
    && inv.status in {Issued, PartiallyPaid} && inv.details.currency == w.currency
  }

  predicate CaptureSummed(db: Db, w: Webhook, inv: Invoice, captured: nat) {
    && CaptureFacts(db, w, inv)
    && captured == CapturedSum(db.payments, w.invoice)
    && captured + w.amount <= inv.details.total
  }

  predicate CaptureInserted(db: Db, w: Webhook, inv: Invoice, captured: nat) {
    CaptureSummed(db, w, inv, captured) && FindPayment(db.payments, w.PaymentKey()).None?
  }

  predicate PaymentFacts(db: Db, w: Webhook, p: Payment) {
    && !w.captures && w.refundRef.Some?
    && FindPayment(db.payments, w.PaymentKey()) == Some(p)
  }

  predicate RefundFacts(db: Db, w: Webhook, p: Payment, inv: Invoice) {
    && PaymentFacts(db, w, p)
    && w.invoice in db.invoices && db.invoices[w.invoice] == inv
    && p.invoice == w.invoice && inv.status in {Paid, PartiallyRefunded} && p.currency == w.currency
    && p.refunded + w.amount <= p.amount
  }

  predicate RefundInserted(db: Db, w: Webhook, p: Payment, inv: Invoice) {
    RefundFacts(db, w, p, inv) && !HasRefund(db.refunds, RefundKey(w))
  }

  predicate RefundSummed(db: Db, w: Webhook, p: Payment, inv: Invoice, captured: nat, refunded: nat) {
    && RefundInserted(db, w, p, inv)
    && captured == CapturedSum(db.payments, w.invoice)
    && refunded == RefundedSum(db.payments, w.invoice) + w.amount
  }

  /** `inv` was once the committed row: it still is unless the version has moved past it. */
  predicate Older(inv: Invoice, now: Invoice) {
    inv.details == now.details && inv.version <= now.version && (inv.version == now.version ==> inv == now)
  }

  predicate ReceiptFree(db: Db, t: Txn, w: Webhook, receivedAt: nat, clock: nat) {
    w.EventKey() !in db.receipts && t.startedAt <= receivedAt <= clock
  }

  /** What is known of a transaction, statement by statement. */
  predicate TxnOk(cfg: Config, db: Db, clock: nat, t: Txn) {
    && Typed(t)
    && t.startedAt <= clock
    && (t.request.WebhookRequest? ==> Precheck(cfg, t.request.webhook, t.startedAt).None?)
    && match t.phase
       case CapLocked(inv) => CaptureFacts(db, t.request.webhook, inv)
       case CapFresh(inv) => CaptureFacts(db, t.request.webhook, inv)
       case CapSummed(inv, captured) => CaptureSummed(db, t.request.webhook, inv, captured)
       case CapInserted(inv, captured) => CaptureInserted(db, t.request.webhook, inv, captured)
       case CapWritten(inv, captured, row) =>
         && CaptureInserted(db, t.request.webhook, inv, captured)
         && row == Bumped(inv, CaptureStatus(t.request.webhook, inv, captured))
       case CapReady(inv, captured, row, receivedAt) =>
         && CaptureInserted(db, t.request.webhook, inv, captured)
         && row == Bumped(inv, CaptureStatus(t.request.webhook, inv, captured))
         && ReceiptFree(db, t, t.request.webhook, receivedAt, clock)
       case RefPayment(p) => PaymentFacts(db, t.request.webhook, p)
       case RefLocked(p, inv) => RefundFacts(db, t.request.webhook, p, inv)
       case RefFresh(p, inv) => RefundFacts(db, t.request.webhook, p, inv)
       case RefInserted(p, inv) => RefundInserted(db, t.request.webhook, p, inv)
       case RefUpdated(p, inv, matched) => RefundInserted(db, t.request.webhook, p, inv) && matched
       case RefSummed(p, inv, matched, captured, refunded) =>
         RefundSummed(db, t.request.webhook, p, inv, captured, refunded) && matched
       case RefWritten(p, inv, matched, captured, refunded, row) =>
         && RefundSummed(db, t.request.webhook, p, inv, captured, refunded) && matched
         && row == Bumped(inv, RefundStatus(captured, refunded))
       case RefReady(p, inv, matched, captured, refunded, row, receivedAt) =>
         && RefundSummed(db, t.request.webhook, p, inv, captured, refunded) && matched
         && row == Bumped(inv, RefundStatus(captured, refunded))
         && ReceiptFree(db, t, t.request.webhook, receivedAt, clock)
       case ChangeRead(inv) =>
         var c := t.request.change;
         && c.authorized && Allowed(inv.status, c.status) && inv.version == c.expectedVersion
         && c.invoice in db.invoices && Older(inv, db.invoices[c.invoice])
       case ChangeReady(inv, row) =>
         var c := t.request.change;
         && c.authorized && Allowed(inv.status, c.status) && inv.version == c.expectedVersion
         && c.invoice in db.invoices && db.invoices[c.invoice] == inv && row == Bumped(inv, c.status)
       case CreateInserted(totals, id, at) =>
         t.request.creation.authorized && id !in db.invoices
       case CreateReady(totals, id, at, _) =>
         t.request.creation.authorized && id !in db.invoices && t.request.creation.key !in db.records
       case _ => true
  }

  predicate Consistent(cfg: Config, s: State) {
    && (forall i | i in s.txns :: TxnOk(cfg, s.db, s.clock, s.txns[i]))
    && forall i, j | i in s.txns && j in s.txns && i != j :: Held(s.txns[i]) !! Held(s.txns[j])
  }

  // ---- Frames: what a commit leaves alone ----

  /** Nothing that the locks protect differs between the two databases. */
  ghost predicate SameUnder(db: Db, db': Db, locks: set<Lock>) {
    && (forall id :: InvoiceLock(id) in locks ==>
          && (id in db.invoices <==> id in db'.invoices)
          && (id in db.invoices ==> db'.invoices[id] == db.invoices[id])
          && CapturedSum(db'.payments, id) == CapturedSum(db.payments, id)
          && RefundedSum(db'.payments, id) == RefundedSum(db.payments, id))
    && (forall k :: PaymentLock(k) in locks ==> FindPayment(db'.payments, k) == FindPayment(db.payments, k))
    && (forall k :: RefundLock(k) in locks ==> (HasRefund(db'.refunds, k) <==> HasRefund(db.refunds, k)))
    && (forall k :: ReceiptLock(k) in locks ==> (k in db'.receipts ==> k in db.receipts))
    && (forall k :: RecordLock(k) in locks ==> (k in db'.records ==> k in db.records))
    && (forall id :: id in db.invoices ==> id in db'.invoices && Older(db.invoices[id], db'.invoices[id]))
  }

  lemma Stable(cfg: Config, db: Db, db': Db, clock: nat, clock': nat, t: Txn)
    requires TxnOk(cfg, db, clock, t) && clock <= clock'
    requires SameUnder(db, db', Held(t))
    ensures TxnOk(cfg, db', clock', t)
  {
  }

  /** The rows a transaction is about to commit are covered by the locks it holds. */
  ghost predicate Covered(db: Db, w: Writes, locks: set<Lock>) {
    && (w.invoice.Some? ==>
          && InvoiceLock(w.invoice.value.0) in locks
          && (w.invoice.value.0 in db.invoices ==> Older(db.invoices[w.invoice.value.0], w.invoice.value.1)))
    && (w.inserted.Some? ==> PaymentLock(w.inserted.value.key) in locks && InvoiceLock(w.inserted.value.invoice) in locks)
    && (w.updated.Some? ==>
          && PaymentLock(w.updated.value.key) in locks && InvoiceLock(w.updated.value.invoice) in locks
          && FindPayment(db.payments, w.updated.value.key).Some?
          && FindPayment(db.payments, w.updated.value.key).value.invoice == w.updated.value.invoice)
    && (w.refund.Some? ==> RefundLock(w.refund.value.key) in locks)
    && (w.receipt.Some? ==> ReceiptLock(w.receipt.value.0) in locks)
    && (w.record.Some? ==> RecordLock(w.record.value.0) in locks)
  }

  predicate AtCommit(t: Txn) {
    t.phase.CapReady? || t.phase.RefReady? || t.phase.ChangeReady? || t.phase.CreateReady?
  }

  lemma PendingCovered(cfg: Config, db: Db, clock: nat, t: Txn)
    requires TxnOk(cfg, db, clock, t) && AtCommit(t)
    ensures Covered(db, Pending(t), Held(t))
  {
  }

  lemma ApplyFrame(db: Db, w: Writes, mine: set<Lock>, others: set<Lock>)
    requires Covered(db, w, mine) && mine !! others
    ensures SameUnder(db, Apply(db, w), others)
  {
    var db' := Apply(db, w);
    var ps := if w.updated.Some? then SetPayment(db.payments, w.updated.value) else db.payments;
    forall id | InvoiceLock(id) in others
      ensures CapturedSum(db'.payments, id) == CapturedSum(db.payments, id)
      ensures RefundedSum(db'.payments, id) == RefundedSum(db.payments, id)
    {
      if w.updated.Some? { UpdatePayment(db.payments, w.updated.value, id, w.updated.value.key); }
      if w.inserted.Some? { InsertPayment(ps, w.inserted.value, id, w.inserted.value.key); }
    }
    forall k | PaymentLock(k) in others
      ensures FindPayment(db'.payments, k) == FindPayment(db.payments, k)
    {
      if w.updated.Some? { UpdatePayment(db.payments, w.updated.value, w.updated.value.invoice, k); }
      if w.inserted.Some? { InsertPayment(ps, w.inserted.value, w.inserted.value.invoice, k); }
    }
    forall k | RefundLock(k) in others
      ensures HasRefund(db'.refunds, k) <==> HasRefund(db.refunds, k)
    {
      RefundFrame(db.refunds, w.refund, k);
    }
  }

  lemma RefundFrame(refunds: seq<Refund>, row: Option<Refund>, k: ProviderKey)
    requires row.Some? ==> row.value.key != k
    ensures HasRefund(Append(refunds, row), k) <==> HasRefund(refunds, k)
  {
    if HasRefund(refunds, k) {
      var i :| 0 <= i < |refunds| && refunds[i].key == k;
      assert Append(refunds, row)[i].key == k;
    }
  }

  // ---- A commit is the operation run alone at that moment ----

  lemma CaptureIsAtomic(cfg: Config, db: Db, clock: nat, t: Txn)
    requires TxnOk(cfg, db, clock, t) && t.phase.CapReady?
    ensures var w, ph := t.request.webhook, t.phase;
            Atomic(cfg, db, HandleWebhook(w, t.startedAt, ph.receivedAt)) ==
            (View(db, t), Applied(w.eventId, w.invoice, CaptureStatus(w, ph.inv, ph.captured), w.PaymentKey()))
  {
  }

  lemma RefundDecision(db: Db, w: Webhook, p: Payment, inv: Invoice, captured: nat, refunded: nat)
    requires RefundSummed(db, w, p, inv, captured, refunded)
    ensures DecideRefund(db, w) ==
            Commit(RefundWrites(w, p, inv, RefundKey(w), RefundStatus(captured, refunded)),
                   Applied(w.eventId, w.invoice, RefundStatus(captured, refunded), w.PaymentKey()))
  {
    UpdatePayment(db.payments, RefundedPayment(w, p), w.invoice, w.PaymentKey());
  }

  lemma RefundIsAtomic(cfg: Config, db: Db, clock: nat, t: Txn)
    requires TxnOk(cfg, db, clock, t) && t.phase.RefReady?
    ensures var w, ph := t.request.webhook, t.phase;
            Atomic(cfg, db, HandleWebhook(w, t.startedAt, ph.receivedAt)) ==
            (View(db, t), Applied(w.eventId, w.invoice, RefundStatus(ph.captured, ph.refunded), w.PaymentKey()))
  {
    var w, ph := t.request.webhook, t.phase;
    RefundDecision(db, w, ph.p, ph.inv, ph.captured, ph.refunded);
    assert Pending(t) == WithReceipt(DecideRefund(db, w).writes, w, ph.receivedAt);
  }

  lemma ChangeIsAtomic(cfg: Config, db: Db, clock: nat, t: Txn)
    requires TxnOk(cfg, db, clock, t) && t.phase.ChangeReady?
    ensures var c := t.request.change;
            Atomic(cfg, db, Transition(c)) == (View(db, t), Reply(ToResponse(c.invoice, Bumped(t.phase.inv, c.status))))
  {
  }

  lemma CreationIsAtomic(cfg: Config, db: Db, clock: nat, t: Txn)
    requires TxnOk(cfg, db, clock, t) && t.phase.CreateReady?
    ensures var c, ph := t.request.creation, t.phase;
            Atomic(cfg, db, Create(c, ph.id, ph.at, ph.recordedAt)) ==
            (View(db, t), Reply(ToResponse(ph.id, Invoice(NewDetails(c, ph.t, ph.at), Issued, 1))))
  {
  }

  // ---- One step ----

  ghost predicate Inv(cfg: Config, s: State) {
    && Consistent(cfg, s)
    && Serial(cfg, s.log) && s.db == Replay(cfg, s.log)
    && Timed(s.log, s.clock)
  }

  /** A step leaves database and log alone, or appends one entry whose operation, run alone on the
      database before the step, gives the database after it and the reply that was sent. */
  ghost predicate OneAtomicStep(cfg: Config, s: State, s': State) {
    && s.clock <= s'.clock
    && (|| (s'.db == s.db && s'.log == s.log)
        || (&& |s'.log| == |s.log| + 1 && s'.log[..|s.log|] == s.log
        && OnTime(s'.log[|s.log|].op, s'.clock)
        && Atomic(cfg, s.db, s'.log[|s.log|].op) == (s'.db, s'.log[|s.log|].response)))
  }

  ghost predicate Good(cfg: Config, s: State, s': State) {
    Consistent(cfg, s') && OneAtomicStep(cfg, s, s')
  }

  lemma MoveOk(cfg: Config, s: State, i: nat, phase: Phase)
    requires Consistent(cfg, s) && i in s.txns
    requires TxnOk(cfg, s.db, s.clock, s.txns[i].(phase := phase))
    requires forall l | l in Held(s.txns[i].(phase := phase)) :: l in Held(s.txns[i]) || Free(s, i, l)
    ensures Good(cfg, s, Move(s, i, phase))
  {
    var s' := Move(s, i, phase);
    forall j, k | j in s'.txns && k in s'.txns && j != k
      ensures Held(s'.txns[j]) !! Held(s'.txns[k])
    {
      if k == i {
        assert Held(s.txns[j]) !! Held(s.txns[i]);
      }
    }
  }

  lemma DropOk(cfg: Config, s: State, i: nat)
    requires Consistent(cfg, s)
    ensures Good(cfg, s, Drop(s, i))
  {
  }

  lemma FinishOk(cfg: Config, s: State, i: nat, op: Op, response: Response)
    requires Consistent(cfg, s)
    requires Atomic(cfg, s.db, op) == (s.db, response) && OnTime(op, s.clock)
    ensures Good(cfg, s, Finish(s, i, op, response))
  {
  }

  lemma CommitOk(cfg: Config, s: State, i: nat, op: Op, response: Response)
    requires Consistent(cfg, s) && i in s.txns && AtCommit(s.txns[i])
    requires Atomic(cfg, s.db, op) == (View(s.db, s.txns[i]), response) && OnTime(op, s.clock)
    ensures Good(cfg, s, CommitTxn(s, i, op, response))
  {
    var t := s.txns[i];
    var s' := CommitTxn(s, i, op, response);
    PendingCovered(cfg, s.db, s.clock, t);
    forall j | j in s'.txns
      ensures TxnOk(cfg, s'.db, s'.clock, s'.txns[j])
    {
      assert Held(s.txns[i]) !! Held(s.txns[j]);
      ApplyFrame(s.db, Pending(t), Held(t), Held(s.txns[j]));
      Stable(cfg, s.db, s'.db, s.clock, s'.clock, s.txns[j]);
    }
  }

  /** The request stays where it is, ends, or completes a statement whose new facts hold and whose
      new lock was free. */
  ghost predicate Proceeds(cfg: Config, s: State, i: nat, s': State)
    requires AllTyped(s) && i in s.txns
  {
    || s' == s || s' == Drop(s, i)
    || (&& i in s'.txns && s' == Move(s, i, s'.txns[i].phase)
        && TxnOk(cfg, s.db, s.clock, s'.txns[i])
        && forall l | l in Held(s'.txns[i]) :: l in Held(s.txns[i]) || Free(s, i, l))
  }

  lemma ProceedsTo(cfg: Config, s: State, i: nat, phase: Phase)
    requires AllTyped(s) && i in s.txns && TxnOk(cfg, s.db, s.clock, s.txns[i].(phase := phase))
    requires forall l | l in Held(s.txns[i].(phase := phase)) :: l in Held(s.txns[i]) || Free(s, i, l)
    ensures Proceeds(cfg, s, i, Move(s, i, phase))
  {
  }

  lemma ProceedOk(cfg: Config, s: State, i: nat, s': State)
    requires Consistent(cfg, s) && i in s.txns && Proceeds(cfg, s, i, s')
    ensures Good(cfg, s, s')
  {
    DropOk(cfg, s, i);
    if s' != s && s' != Drop(s, i) {
      MoveOk(cfg, s, i, s'.txns[i].phase);
    }
  }

  predicate Capturing(ph: Phase) {
    ph.CapLocked? || ph.CapFresh? || ph.CapSummed? || ph.CapInserted? || ph.CapWritten?
  }

  /** What a capture reads through its own pending rows. */
  lemma CaptureView(cfg: Config, db: Db, clock: nat, t: Txn)
    requires TxnOk(cfg, db, clock, t) && Capturing(t.phase)
    ensures var w, view := t.request.webhook, View(db, t);
            && (t.phase.CapLocked? || t.phase.CapFresh? ==> view.payments == db.payments)
            && (t.phase.CapInserted? ==> CurrentRow(view, w.invoice, t.phase.inv) == t.phase.inv)
  {
  }

  lemma CaptureProceeds(cfg: Config, s: State, i: nat, w: Webhook)
    requires AllTyped(s) && i in s.txns && TxnOk(cfg, s.db, s.clock, s.txns[i])
    requires s.txns[i].request == WebhookRequest(w) && Capturing(s.txns[i].phase)
    ensures Proceeds(cfg, s, i, AdvanceWebhook(s, i, w))
  {
    CaptureView(cfg, s.db, s.clock, s.txns[i]);
    var s' := AdvanceWebhook(s, i, w);
    if i in s'.txns && s' != s {
      ProceedsTo(cfg, s, i, s'.txns[i].phase);
    }
  }

  predicate Refunding(ph: Phase) {
    ph.RefPayment? || ph.RefLocked? || ph.RefFresh? || RefundWriting(ph)
  }

  predicate RefundWriting(ph: Phase) { ph.RefInserted? || ph.RefUpdated? || ph.RefSummed? || ph.RefWritten? }

  /** What a refund reads through its own pending rows. */
  lemma RefundView(cfg: Config, db: Db, clock: nat, t: Txn)
    requires TxnOk(cfg, db, clock, t) && RefundWriting(t.phase)
    ensures var w, view := t.request.webhook, View(db, t);
            && (t.phase.RefInserted? ==> view.payments == db.payments)
            && (t.phase.RefUpdated? ==>
                  && CapturedSum(view.payments, w.invoice) == CapturedSum(db.payments, w.invoice)
                  && RefundedSum(view.payments, w.invoice) == RefundedSum(db.payments, w.invoice) + w.amount)
            && (t.phase.RefSummed? ==> CurrentRow(view, w.invoice, t.phase.inv) == t.phase.inv)
  {
    var w := t.request.webhook;
    if t.phase.RefUpdated? {
      UpdatePayment(db.payments, RefundedPayment(w, t.phase.p), w.invoice, w.PaymentKey());
    }
  }

  lemma RefundWritingProceeds(cfg: Config, s: State, i: nat, w: Webhook)
    requires AllTyped(s) && i in s.txns && TxnOk(cfg, s.db, s.clock, s.txns[i])
    requires s.txns[i].request == WebhookRequest(w) && RefundWriting(s.txns[i].phase)
    ensures Proceeds(cfg, s, i, AdvanceWebhook(s, i, w))
  {
    RefundView(cfg, s.db, s.clock, s.txns[i]);
    var s' := AdvanceWebhook(s, i, w);
    if i in s'.txns && s' != s {
      ProceedsTo(cfg, s, i, s'.txns[i].phase);
    }
  }

  lemma RefundCheckingProceeds(cfg: Config, s: State, i: nat, w: Webhook)
    requires AllTyped(s) && i in s.txns && TxnOk(cfg, s.db, s.clock, s.txns[i])
    requires s.txns[i].request == WebhookRequest(w) && Refunding(s.txns[i].phase) && !RefundWriting(s.txns[i].phase)
    ensures Proceeds(cfg, s, i, AdvanceWebhook(s, i, w))
  {
    var s' := AdvanceWebhook(s, i, w);
    if i in s'.txns && s' != s {
      ProceedsTo(cfg, s, i, s'.txns[i].phase);
    }
  }

  lemma WebhookBegins(cfg: Config, s: State, i: nat, w: Webhook)
    requires AllTyped(s) && i in s.txns && TxnOk(cfg, s.db, s.clock, s.txns[i])
    requires s.txns[i].request == WebhookRequest(w)
    requires s.txns[i].phase.Begun? || s.txns[i].phase.Recovering? || s.txns[i].phase.Looked?
    ensures var s', op := AdvanceWebhook(s, i, w), WebhookOp(s, i, w, s.clock);
            || Proceeds(cfg, s, i, s')
            || (s' == Finish(s, i, op, Duplicate(w.eventId)) && Atomic(cfg, s.db, op) == (s.db, Duplicate(w.eventId)))
  {
  }

  lemma WebhookStep(cfg: Config, s: State, i: nat, w: Webhook)
    requires Consistent(cfg, s) && i in s.txns && s.txns[i].request == WebhookRequest(w)
    ensures Good(cfg, s, AdvanceWebhook(s, i, w))
  {
    var t, s' := s.txns[i], AdvanceWebhook(s, i, w);
    if t.phase.CapReady? {
      CaptureIsAtomic(cfg, s.db, s.clock, t);
      CommitOk(cfg, s, i, s'.log[|s.log|].op, s'.log[|s.log|].response);
    } else if t.phase.RefReady? {
      RefundIsAtomic(cfg, s.db, s.clock, t);
      CommitOk(cfg, s, i, s'.log[|s.log|].op, s'.log[|s.log|].response);
    } else {
      if Capturing(t.phase) {
        CaptureProceeds(cfg, s, i, w);
      } else if Refunding(t.phase) {
        if RefundWriting(t.phase) {
          RefundWritingProceeds(cfg, s, i, w);
        } else {
          RefundCheckingProceeds(cfg, s, i, w);
        }
      } else {
        WebhookBegins(cfg, s, i, w);
      }
      if Proceeds(cfg, s, i, s') {
        ProceedOk(cfg, s, i, s');
      } else {
        FinishOk(cfg, s, i, WebhookOp(s, i, w, s.clock), Duplicate(w.eventId));
      }
    }
  }

  lemma ChangeProceeds(cfg: Config, s: State, i: nat, c: Change)
    requires AllTyped(s) && i in s.txns && TxnOk(cfg, s.db, s.clock, s.txns[i])
    requires s.txns[i].request == ChangeRequest(c) && !s.txns[i].phase.ChangeReady?
    ensures Proceeds(cfg, s, i, AdvanceChange(s, i, c))
  {
  }

  lemma ChangeStep(cfg: Config, s: State, i: nat, c: Change)
    requires Consistent(cfg, s) && i in s.txns && s.txns[i].request == ChangeRequest(c)
    ensures Good(cfg, s, AdvanceChange(s, i, c))
  {
    var t, s' := s.txns[i], AdvanceChange(s, i, c);
    if t.phase.ChangeReady? {
      ChangeIsAtomic(cfg, s.db, s.clock, t);
      CommitOk(cfg, s, i, s'.log[|s.log|].op, s'.log[|s.log|].response);
    } else {
      ChangeProceeds(cfg, s, i, c);
      ProceedOk(cfg, s, i, s');
    }
  }

  lemma CreationProceeds(cfg: Config, s: State, i: nat, c: Creation, newId: InvoiceId)
    requires AllTyped(s) && i in s.txns && TxnOk(cfg, s.db, s.clock, s.txns[i])
    requires s.txns[i].request == CreateRequest(c) && !s.txns[i].phase.CreateReady?
    ensures var s', op := AdvanceCreation(s, i, c, newId), Create(c, newId, s.clock, s.clock);
            || Proceeds(cfg, s, i, s')
            || (&& c.key in s.db.records
                && s' == Finish(s, i, op, Reply(s.db.records[c.key].response))
                && Atomic(cfg, s.db, op) == (s.db, Reply(s.db.records[c.key].response)))
  {
    var s' := AdvanceCreation(s, i, c, newId);
    if i in s'.txns && s' != s {
      ProceedsTo(cfg, s, i, s'.txns[i].phase);
    }
  }

  lemma CreationStep(cfg: Config, s: State, i: nat, c: Creation, newId: InvoiceId)
    requires Consistent(cfg, s) && i in s.txns && s.txns[i].request == CreateRequest(c)
    ensures Good(cfg, s, AdvanceCreation(s, i, c, newId))
  {
    var t, s' := s.txns[i], AdvanceCreation(s, i, c, newId);
    if t.phase.CreateReady? {
      CreationIsAtomic(cfg, s.db, s.clock, t);
      CommitOk(cfg, s, i, s'.log[|s.log|].op, s'.log[|s.log|].response);
    } else {
      CreationProceeds(cfg, s, i, c, newId);
      if Proceeds(cfg, s, i, s') {
        ProceedOk(cfg, s, i, s');
      } else {
        FinishOk(cfg, s, i, Create(c, newId, s.clock, s.clock), Reply(s.db.records[c.key].response));
      }
    }
  }

  lemma TickOk(cfg: Config, s: State, elapsed: nat)
    requires Consistent(cfg, s)
    ensures Good(cfg, s, s.(clock := s.clock + elapsed))
  {
    forall i | i in s.txns
      ensures TxnOk(cfg, s.db, s.clock + elapsed, s.txns[i])
    {
      Stable(cfg, s.db, s.db, s.clock, s.clock + elapsed, s.txns[i]);
    }
  }

  lemma RetainOk(cfg: Config, s: State, events: set<ProviderKey>, keys: set<IdemKey>)
    requires Consistent(cfg, s)
    ensures Good(cfg, s, Exec(cfg, s, Retain(events, keys)))
  {
    var s' := Exec(cfg, s, Retain(events, keys));
    forall i | i in s.txns
      ensures TxnOk(cfg, s'.db, s'.clock, s'.txns[i])
    {
      Stable(cfg, s.db, s'.db, s.clock, s.clock, s.txns[i]);
    }
  }

  lemma AdmitOk(cfg: Config, s: State, i: nat, request: Request)
    requires Consistent(cfg, s)
    ensures Good(cfg, s, Exec(cfg, s, Admit(i, request)))
  {
  }

  /** Whatever statement runs next, the database moves by one whole operation or not at all. */
  lemma StepIsAtomic(cfg: Config, s: State, step: Step)
    requires Consistent(cfg, s)
    ensures Good(cfg, s, Exec(cfg, s, step))
  {
    match step
    case Admit(i, request) => AdmitOk(cfg, s, i, request);
    case Abort(i) => DropOk(cfg, s, i);
    case Tick(elapsed) => TickOk(cfg, s, elapsed);
    case Retain(events, keys) => RetainOk(cfg, s, events, keys);
    case Advance(i, newId) =>
      if i in s.txns {
        match s.txns[i].request
        case WebhookRequest(w) => WebhookStep(cfg, s, i, w);
        case ChangeRequest(c) => ChangeStep(cfg, s, i, c);
        case CreateRequest(c) => CreationStep(cfg, s, i, c, newId);
      }
  }

  /** The whole run of a schedule. */
  ghost function Run(cfg: Config, steps: seq<Step>): (s: State)
    ensures Inv(cfg, s)
  {
    if steps == [] then INITIAL
    else
      var before := Run(cfg, steps[..|steps| - 1]);
      var step := steps[|steps| - 1];
      StepIsAtomic(cfg, before, step);
      LogExtends(cfg, before, Exec(cfg, before, step));
      Exec(cfg, before, step)
  }

  lemma LogExtends(cfg: Config, s: State, s': State)
    requires Inv(cfg, s) && OneAtomicStep(cfg, s, s')
    ensures Serial(cfg, s'.log) && s'.db == Replay(cfg, s'.log) && Timed(s'.log, s'.clock)
  {
    TimedLater(s.log, s.clock, s'.clock);
  }

  lemma {:induction false} TimedLater(log: seq<Entry>, clock: nat, later: nat)
    requires Timed(log, clock) && clock <= later
    ensures Timed(log, later)
  {
    if log != [] {
      TimedLater(log[..|log| - 1], clock, later);
    }
  }

  lemma {:induction false} TimedAt(log: seq<Entry>, clock: nat, i: nat)
    requires Timed(log, clock) && i < |log|
    ensures OnTime(log[i].op, clock)
  {
    if i < |log| - 1 {
      TimedAt(log[..|log| - 1], clock, i);
    }
  }
}
