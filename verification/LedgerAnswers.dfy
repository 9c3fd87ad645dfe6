/** What each request is answered and what it leaves behind, written out in terms of the tables: when it is
    accepted, with which rows, and with which error it is refused otherwise. */
module LedgerAnswers {
  import opened Options
  import opened Ledger
  import opened LedgerRows
  import opened LedgerInvariants
  import opened Concurrency
  import opened LedgerTheorems

  // ---- Manual transitions ----

  /** A manual move is accepted exactly to CANCELLED from DRAFT or ISSUED, or to PAID from ISSUED or
      PARTIALLY_PAID, by an authorized actor who names the current version. It leaves the invoice with
      that status and the next version, one event and one audit row. Anything else changes nothing. */
  lemma TransitionExactly(cfg: Config, db: Db, c: Change)
    ensures var (db', r) := Atomic(cfg, db, Op.Transition(c));
            if c.invoice !in db.invoices then (db', r) == (db, Rejected(InvoiceNotFound))
            else
              var inv := db.invoices[c.invoice];
              if !c.authorized then (db', r) == (db, Rejected(Forbidden))
              else if !(if c.status == Cancelled then inv.status in {Draft, Issued} else inv.status in {Issued, PartiallyPaid}) then
                (db', r) == (db, Rejected(BadTransition))
              else if inv.version != c.expectedVersion then (db', r) == (db, Rejected(StaleVersion))
              else
                var d := inv.details;
                && r == Reply(InvoiceResponse(c.invoice, d.store, c.status, d.currency, d.subtotal, d.discount, d.tax, d.total, d.issuedAt, inv.version + 1))
                && db' == db.(invoices := db.invoices[c.invoice := Invoice(d, c.status, inv.version + 1)],
                              outbox := db.outbox + [OutboxEvent(StatusChanged, c.invoice, c.status, d, None, None)],
                              audit := db.audit + [AuditEvent(StatusChanged, c.invoice, d.merchant, ChangedDetail(inv.status, c.status, c.expectedVersion))])
  {
  }

  // ---- Webhooks before their event is looked at ----

  /** From the configured provider, signed, and at most 90 days old and 5 minutes ahead. */
  predicate Passes(cfg: Config, w: Webhook, now: nat) {
    w.provider == cfg.provider && w.signed && now - 7_776_000_000 <= w.occurredAt <= now + 300_000
  }

  lemma UnsoundIsRefused(cfg: Config, db: Db, w: Webhook, now: nat, receivedAt: nat)
    requires !Passes(cfg, w, now)
    ensures Atomic(cfg, db, HandleWebhook(w, now, receivedAt))
            == (db, Rejected(if w.provider != cfg.provider then UnknownProvider else if !w.signed then BadSignature else OutsideWindow))
  {
  }

  /** With a receipt of its event there, a webhook is a duplicate exactly when its body is the same. */
  lemma KnownEvent(cfg: Config, db: Db, w: Webhook, now: nat, receivedAt: nat)
    requires Passes(cfg, w, now) && ProviderKey(w.provider, w.eventId) in db.receipts
    ensures Atomic(cfg, db, HandleWebhook(w, now, receivedAt))
            == (db, if db.receipts[ProviderKey(w.provider, w.eventId)].hash == w.hash then Duplicate(w.eventId) else Rejected(ReusedEventId))
  {
  }

  /** Since the i-th reply no pass of retention has removed the receipt of the event. */
  predicate Unpurged(cfg: Config, log: seq<Entry>, i: nat, event: ProviderKey) {
    |log| <= i + 1 || (&& Unpurged(cfg, log[..|log| - 1], i, event)
                       && (log[|log| - 1].op.Purge? ==> event in Replay(cfg, log).receipts))
  }

  lemma {:induction false} ReceiptStays(cfg: Config, log: seq<Entry>, i: nat)
    requires Serial(cfg, log) && i < |log| && log[i].response.Applied? && log[i].op.HandleWebhook?
    requires Unpurged(cfg, log, i, log[i].op.webhook.EventKey())
    ensures ReceiptKept(Replay(cfg, log), log[i].op.webhook, log[i].op.receivedAt)
  {
    LastOfSerial(cfg, log);
    var init, last := log[..|log| - 1], log[|log| - 1];
    if i < |log| - 1 {
      assert init[i] == log[i];
      ReceiptStays(cfg, init, i);
      ReceiptKeptBy(cfg, Replay(cfg, init), last.op, log[i].op);
    } else {
      ReceiptWritten(cfg, Replay(cfg, init), last);
    }
  }

  lemma LastOfSerial(cfg: Config, log: seq<Entry>)
    requires Serial(cfg, log) && log != []
    ensures var init, last := log[..|log| - 1], log[|log| - 1];
            Serial(cfg, init) && Atomic(cfg, Replay(cfg, init), last.op) == (Replay(cfg, log), last.response)
  {
  }

  lemma ReceiptWritten(cfg: Config, db: Db, e: Entry)
    requires e.op.HandleWebhook? && e.response.Applied? && Atomic(cfg, db, e.op).1 == e.response
    ensures ReceiptKept(Atomic(cfg, db, e.op).0, e.op.webhook, e.op.receivedAt)
  {
  }

  lemma ReceiptKeptBy(cfg: Config, db: Db, op: Op, earlier: Op)
    requires earlier.HandleWebhook? && ReceiptKept(db, earlier.webhook, earlier.receivedAt)
    requires op.Purge? ==> earlier.webhook.EventKey() in Atomic(cfg, db, op).0.receipts
    ensures ReceiptKept(Atomic(cfg, db, op).0, earlier.webhook, earlier.receivedAt)
  {
  }

  /** Once an event has been applied, and while its receipt is not purged, any further webhook with its
      provider and event ID is a duplicate exactly when it has the same body, is refused otherwise, and
      changes nothing. */
  lemma AppliedEventIsKnown(cfg: Config, log: seq<Entry>, i: nat, w: Webhook, now: nat, receivedAt: nat)
    requires Serial(cfg, log) && i < |log| && log[i].response.Applied? && log[i].op.HandleWebhook?
    requires Unpurged(cfg, log, i, log[i].op.webhook.EventKey())
    requires w.provider == log[i].op.webhook.provider && w.eventId == log[i].op.webhook.eventId && Passes(cfg, w, now)
    ensures var db := Replay(cfg, log);
            Atomic(cfg, db, HandleWebhook(w, now, receivedAt))
            == (db, if w.hash == log[i].op.webhook.hash then Duplicate(w.eventId) else Rejected(ReusedEventId))
  {
    ReceiptStays(cfg, log, i);
    KnownEvent(cfg, Replay(cfg, log), w, now, receivedAt);
  }

  // ---- Captures ----

  predicate NewEvent(cfg: Config, db: Db, w: Webhook, now: nat) {
    Passes(cfg, w, now) && ProviderKey(w.provider, w.eventId) !in db.receipts
  }

  /** A capture is accepted exactly for a known invoice that is ISSUED or PARTIALLY_PAID, in its currency,
      under a payment ID that no row has, and up to the total, the total included. */
  lemma CaptureExactly(cfg: Config, db: Db, w: Webhook, now: nat, receivedAt: nat)
    requires NewEvent(cfg, db, w, now) && w.captures
    ensures var key := ProviderKey(w.provider, w.paymentRef);
            var (db', r) := Atomic(cfg, db, HandleWebhook(w, now, receivedAt));
            if w.invoice !in db.invoices then (db', r) == (db, Rejected(InvoiceNotFound))
            else
              var inv, captured := db.invoices[w.invoice], CapturedSum(db.payments, w.invoice);
              if inv.status !in {Issued, PartiallyPaid} then (db', r) == (db, Rejected(WrongStatus))
              else if inv.details.currency != w.currency then (db', r) == (db, Rejected(WrongCurrency))
              else if exists i :: 0 <= i < |db.payments| && db.payments[i].key == key then (db', r) == (db, Rejected(DuplicatePayment))
              else if captured + w.amount > inv.details.total then (db', r) == (db, Rejected(ExceedsTotal))
              else
                var d, status := inv.details, if captured + w.amount == inv.details.total then Paid else PartiallyPaid;
                && r == Applied(w.eventId, w.invoice, status, key)
                && db' == db.(invoices := db.invoices[w.invoice := Invoice(d, status, inv.version + 1)],
                              payments := db.payments + [Payment(key, w.invoice, d.merchant, w.amount, 0, w.currency, Captured, w.occurredAt, 1)],
                              receipts := db.receipts[ProviderKey(w.provider, w.eventId) := Receipt(w.hash, receivedAt)],
                              outbox := db.outbox + [OutboxEvent(PaymentCaptured, w.invoice, status, d, Some(w.eventId), Some(w.amount))],
                              audit := db.audit + [AuditEvent(PaymentCaptured, w.invoice, d.merchant, CapturedDetail(key, w.eventId, w.amount, w.currency))])
  {
    var key := ProviderKey(w.provider, w.paymentRef);
    if FindPayment(db.payments, key).Some? {
      var i := FoundRow(db.payments, key);
    } else {
      MissingRow(db.payments, key);
    }
  }

  // ---- Refunds ----

  lemma {:induction false} UpdatedRow(ps: seq<Payment>, k: nat, row: Payment)
    requires DistinctPayments(ps) && k < |ps| && row.key == ps[k].key
    ensures FindPayment(ps, row.key) == Some(ps[k]) && SetPayment(ps, row) == ps[k := row]
  {
    var n := |ps| - 1;
    if k < n {
      UpdatedRow(ps[..n], k, row);
      assert ps[k := row] == ps[..n][k := row] + [ps[n]];
    } else {
      assert ps[k := row] == ps[..n] + [row];
    }
  }

  lemma RefundWithoutPayment(cfg: Config, db: Db, w: Webhook, now: nat, receivedAt: nat)
    requires NewEvent(cfg, db, w, now) && !w.captures
    requires w.refundRef.None? || forall i | 0 <= i < |db.payments| :: db.payments[i].key != ProviderKey(w.provider, w.paymentRef)
    ensures Atomic(cfg, db, HandleWebhook(w, now, receivedAt))
            == (db, Rejected(if w.refundRef.None? then MissingRefundId else PaymentNotFound))
  {
    var key := ProviderKey(w.provider, w.paymentRef);
    if FindPayment(db.payments, key).Some? { var i := FoundRow(db.payments, key); }
  }

  /** The refusals of a refund of the k-th payment, in the order they are checked. */
  function RefundError(db: Db, w: Webhook, k: nat): Option<Error>
    requires k < |db.payments| && w.refundRef.Some?
  {
    var p := db.payments[k];
    if w.invoice !in db.invoices then Some(InvoiceNotFound)
    else if p.invoice != w.invoice then Some(RefundMismatch)
    else if db.invoices[w.invoice].status !in {Paid, PartiallyRefunded} then Some(WrongStatus)
    else if p.currency != w.currency then Some(WrongCurrency)
    else if p.refunded + w.amount > p.amount then Some(ExceedsPayment)
    else if exists i :: 0 <= i < |db.refunds| && db.refunds[i].key == ProviderKey(w.provider, w.refundRef.value) then Some(DuplicateRefund)
    else None
  }

  lemma RefundRefused(cfg: Config, db: Db, w: Webhook, now: nat, receivedAt: nat, k: nat)
    requires NewEvent(cfg, db, w, now) && !w.captures && w.refundRef.Some? && DistinctPayments(db.payments)
    requires k < |db.payments| && db.payments[k].key == ProviderKey(w.provider, w.paymentRef)
    requires RefundError(db, w, k).Some?
    ensures Atomic(cfg, db, HandleWebhook(w, now, receivedAt)) == (db, Rejected(RefundError(db, w, k).value))
  {
    UpdatedRow(db.payments, k, db.payments[k]);
  }

  /** A refund that is not refused adds its row, raises what its payment has refunded, and leaves the
      invoice REFUNDED exactly when everything captured for it is now refunded. */
  lemma RefundApplied(cfg: Config, db: Db, w: Webhook, now: nat, receivedAt: nat, k: nat)
    requires NewEvent(cfg, db, w, now) && !w.captures && w.refundRef.Some? && DistinctPayments(db.payments)
    requires k < |db.payments| && db.payments[k].key == ProviderKey(w.provider, w.paymentRef)
    requires RefundError(db, w, k).None?
    ensures var p, inv := db.payments[k], db.invoices[w.invoice];
            var refunded := p.refunded + w.amount;
            var payments := db.payments[k := p.(refunded := refunded, version := p.version + 1,
                                                status := if refunded == p.amount then PaymentRefunded else PaymentPartiallyRefunded)];
            var status := if RefundedSum(payments, w.invoice) == CapturedSum(payments, w.invoice) then Refunded else PartiallyRefunded;
            var refundKey, d := ProviderKey(w.provider, w.refundRef.value), inv.details;
            Atomic(cfg, db, HandleWebhook(w, now, receivedAt))
            == (db.(invoices := db.invoices[w.invoice := Invoice(d, status, inv.version + 1)],
                    payments := payments,
                    refunds := db.refunds + [Refund(refundKey, p.key, d.merchant, w.amount, w.occurredAt)],
                    receipts := db.receipts[ProviderKey(w.provider, w.eventId) := Receipt(w.hash, receivedAt)],
                    outbox := db.outbox + [OutboxEvent(PaymentRefundedEvent, w.invoice, status, d, Some(w.eventId), Some(w.amount))],
                    audit := db.audit + [AuditEvent(PaymentRefundedEvent, w.invoice, d.merchant,
                                                    RefundedDetail(refundKey, p.key, w.eventId, w.amount, w.currency))]),
                Applied(w.eventId, w.invoice, status, p.key))
  {
    UpdatedRow(db.payments, k, RefundedPayment(w, db.payments[k]));
  }

  // ---- Creations ----

  /** With a record under its key a creation replays the record exactly when the request is the same. */
  lemma KnownKey(cfg: Config, db: Db, c: Creation, id: InvoiceId, at: nat, recordedAt: nat)
    requires c.key in db.records
    ensures Atomic(cfg, db, Create(c, id, at, recordedAt))
            == (db, if db.records[c.key].requestHash == c.hash then Reply(db.records[c.key].response) else Rejected(ReusedKey))
  {
  }

  /** Every number fits its unsigned column. */
  predicate FitsColumns(c: Creation, t: Math.Totals) {
    && 0 <= t.subtotal < 4_294_967_296 && 0 <= t.discount < 4_294_967_296 && 0 <= t.tax < 4_294_967_296 && 0 <= t.total < 4_294_967_296
    && |c.order.items| < 65_536 && forall i | 0 <= i < |c.order.items| :: c.order.items[i].quantity < 65_536
  }

  lemma CreationRefused(cfg: Config, db: Db, c: Creation, id: InvoiceId, at: nat, recordedAt: nat)
    requires c.key !in db.records && id !in db.invoices
    requires !c.authorized || Math.ExactInvoice(c.order).Err? || !FitsColumns(c, Math.ExactInvoice(c.order).value)
    ensures Atomic(cfg, db, Create(c, id, at, recordedAt))
            == (db, Rejected(if !c.authorized then Forbidden else if Math.ExactInvoice(c.order).Err? then BadOrder else OutOfRange))
  {
  }

  /** A creation that is not refused adds the invoice with its totals, one numbered line per item, one
      event, one audit row, and the record of the reply. */
  lemma CreationApplied(cfg: Config, db: Db, c: Creation, id: InvoiceId, at: nat, recordedAt: nat)
    requires c.key !in db.records && id !in db.invoices && c.authorized
    requires Math.ExactInvoice(c.order).Ok? && FitsColumns(c, Math.ExactInvoice(c.order).value)
    ensures var t, items := Math.ExactInvoice(c.order).value, c.order.items;
            var d := Details(c.merchant, c.store, c.customer, c.currency, t.subtotal, t.discount, t.tax, t.total, at);
            var response := InvoiceResponse(id, c.store, Issued, c.currency, t.subtotal, t.discount, t.tax, t.total, at, 1);
            var lines := seq(|items|, i requires 0 <= i < |items| => Line(i + 1, items[i].quantity, items[i].unitPrice, t.lines[i]));
            Atomic(cfg, db, Create(c, id, at, recordedAt))
            == (db.(invoices := db.invoices[id := Invoice(d, Issued, 1)],
                    lines := db.lines[id := lines],
                    records := db.records[c.key := IdemRecord(c.hash, response, recordedAt)],
                    outbox := db.outbox + [OutboxEvent(InvoiceIssued, id, Issued, d, None, None)],
                    audit := db.audit + [AuditEvent(InvoiceIssued, id, c.merchant, CreatedDetail(c.store, c.currency, t.total))]),
                Reply(response))
  {
    var t, items := Math.ExactInvoice(c.order).value, c.order.items;
    assert NewLines(items, t.lines) == seq(|items|, i requires 0 <= i < |items| => Line(i + 1, items[i].quantity, items[i].unitPrice, t.lines[i]));
  }

  // ---- Retention ----

  /** A pass that is about some events and keys removes exactly those of their receipts and records whose
      days are over. */
  lemma PurgeExactly(cfg: Config, db: Db, events: set<ProviderKey>, keys: set<IdemKey>, now: nat)
    ensures var (db', r) := Atomic(cfg, db, Purge(events, keys, now));
            && r == Purged && db' == db.(receipts := db'.receipts, records := db'.records)
            && (forall k :: k in db'.receipts <==> k in db.receipts && !(k in events && db.receipts[k].receivedAt + cfg.receiptDays * 86_400_000 < now))
            && (forall k :: k in db'.records <==> k in db.records && !(k in keys && db.records[k].createdAt + cfg.recordDays * 86_400_000 < now))
            && (forall k | k in db'.receipts :: db'.receipts[k] == db.receipts[k])
            && (forall k | k in db'.records :: db'.records[k] == db.records[k])
  {
  }
}
