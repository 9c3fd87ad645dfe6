/** The services over mutable tables, one request at a time. Every method is proved to
    leave the tables, and to answer, exactly as the decision functions of `Ledger` say. */
module LedgerService {
  import opened Options
  import opened Ledger

  class Tables {
    const cfg: Config
    var invoices: map<InvoiceId, Invoice>
    var lines: map<InvoiceId, seq<Line>>
    var payments: seq<Payment>
    var refunds: seq<Refund>
    var receipts: map<ProviderKey, Receipt>
    var records: map<IdemKey, IdemRecord>
    var outbox: seq<OutboxEvent>
    var audit: seq<AuditEvent>

    ghost function Contents(): Db
      reads this
    {
      Db(invoices, lines, payments, refunds, receipts, records, outbox, audit)
    }

    constructor (cfg: Config)
      ensures this.cfg == cfg && Contents() == EMPTY_DB
    {
      this.cfg := cfg;
      invoices, lines, payments, refunds := map[], map[], [], [];
      receipts, records, outbox, audit := map[], map[], [], [];
    }

    method CapturedTotal(id: InvoiceId) returns (total: nat)
      ensures total == CapturedSum(payments, id)
    {
      total := 0;
      for i := 0 to |payments|
        invariant total == CapturedSum(payments[..i], id)
      {
        assert payments[..i + 1][..i] == payments[..i];
        if payments[i].invoice == id {
          total := total + payments[i].amount;
        }
      }
      assert payments[..|payments|] == payments;
    }

    method RefundedTotal(id: InvoiceId) returns (total: nat)
      ensures total == RefundedSum(payments, id)
    {
      total := 0;
      for i := 0 to |payments|
        invariant total == RefundedSum(payments[..i], id)
      {
        assert payments[..i + 1][..i] == payments[..i];
        if payments[i].invoice == id {
          total := total + payments[i].refunded;
        }
      }
      assert payments[..|payments|] == payments;
    }

    /** Both locking reads and plain reads: alone, a row is what the table holds. */
    method FindInvoice(id: InvoiceId) returns (r: Option<Invoice>)
      ensures r == if id in invoices then Some(invoices[id]) else None
    {
      r := if id in invoices then Some(invoices[id]) else None;
    }

    method HandleWebhook(w: Webhook, now: nat, receivedAt: nat) returns (r: Response)
      modifies this
      ensures (Contents(), r) == Atomic(cfg, old(Contents()), Ledger.HandleWebhook(w, now, receivedAt))
    {
      var refused := Precheck(cfg, w, now);
      if refused.Some? {
        return Rejected(refused.value);
      }
      if w.EventKey() in receipts {
        if receipts[w.EventKey()].hash != w.hash {
          return Rejected(ReusedEventId);
        }
        return Duplicate(w.eventId);
      }
      var result;
      if w.captures {
        result := Capture(w);
      } else {
        result := Refund(w);
      }
      match result
      case Err(e) =>
        return Rejected(e);
      case Ok(response) =>
        receipts := receipts[w.EventKey() := Receipt(w.hash, receivedAt)];
        return response;
    }

    method Capture(w: Webhook) returns (r: Result<Response, Error>)
      modifies this
      ensures match DecideCapture(old(Contents()), w)
              case Refuse(e) => r == Err(e) && Contents() == old(Contents())
              case Answer(_) => false
              case Commit(writes, response) => r == Ok(response) && Contents() == Apply(old(Contents()), writes)
    {
      var found := FindInvoice(w.invoice);
      if found.None? {
        return Err(InvoiceNotFound);
      }
      var invoice := found.value;
      if invoice.status !in {Issued, PartiallyPaid} {
        return Err(WrongStatus);
      }
      if invoice.details.currency != w.currency {
        return Err(WrongCurrency);
      }
      if FindPayment(payments, w.PaymentKey()).Some? {
        return Err(DuplicatePayment);
      }
      var alreadyCaptured := CapturedTotal(w.invoice);
      if alreadyCaptured + w.amount > invoice.details.total {
        return Err(ExceedsTotal);
      }
      payments := payments + [NewPayment(w, invoice)];
      var status := if alreadyCaptured + w.amount == invoice.details.total then Paid else PartiallyPaid;
      invoices := invoices[w.invoice := invoice.(status := status, version := invoice.version + 1)];
      outbox := outbox + [WebhookEvent(PaymentCaptured, w, invoice, status)];
      audit := audit + [AuditEvent(PaymentCaptured, w.invoice, invoice.details.merchant,
                                   CapturedDetail(w.PaymentKey(), w.eventId, w.amount, w.currency))];
      return Ok(Applied(w.eventId, w.invoice, status, w.PaymentKey()));
    }

    method Refund(w: Webhook) returns (r: Result<Response, Error>)
      modifies this
      ensures match DecideRefund(old(Contents()), w)
              case Refuse(e) => r == Err(e) && Contents() == old(Contents())
              case Answer(_) => false
              case Commit(writes, response) => r == Ok(response) && Contents() == Apply(old(Contents()), writes)
    {
      if w.refundRef.None? {
        return Err(MissingRefundId);
      }
      var refundKey := ProviderKey(w.provider, w.refundRef.value);
      var paymentRow := FindPayment(payments, w.PaymentKey());
      if paymentRow.None? {
        return Err(PaymentNotFound);
      }
      var payment := paymentRow.value;
      var found := FindInvoice(w.invoice);
      if found.None? {
        return Err(InvoiceNotFound);
      }
      var invoice := found.value;
      if payment.invoice != w.invoice {
        return Err(RefundMismatch);
      }
      if invoice.status !in {Paid, PartiallyRefunded} {
        return Err(WrongStatus);
      }
      if payment.currency != w.currency {
        return Err(WrongCurrency);
      }
      if payment.refunded + w.amount > payment.amount {
        return Err(ExceedsPayment);
      }
      if HasRefund(refunds, refundKey) {
        return Err(DuplicateRefund);
      }
      var status := WriteRefund(w, payment, invoice, refundKey);
      return Ok(Applied(w.eventId, w.invoice, status, w.PaymentKey()));
    }

    /** The statements of a refund after its checks. */
    method WriteRefund(w: Webhook, payment: Payment, invoice: Invoice, refundKey: ProviderKey) returns (status: InvoiceStatus)
      requires payment.refunded + w.amount <= payment.amount
      modifies this
      ensures var after := SetPayment(old(payments), RefundedPayment(w, payment));
              status == RefundStatus(CapturedSum(after, w.invoice), RefundedSum(after, w.invoice))
      ensures Contents() == Apply(old(Contents()), RefundWrites(w, payment, invoice, refundKey, status))
    {
      refunds := refunds + [NewRefund(w, invoice, refundKey)];
      var row := RefundedPayment(w, payment);
      payments := SetPayment(payments, row);
      var totalCaptured := CapturedTotal(w.invoice);
      var totalRefunded := RefundedTotal(w.invoice);
      status := if totalRefunded == totalCaptured then Refunded else PartiallyRefunded;
      assert status == RefundStatus(totalCaptured, totalRefunded);
      ghost var writes := RefundWrites(w, payment, invoice, refundKey, status);
      assert writes.updated == Some(row) && writes.inserted == None;
      invoices := invoices[w.invoice := invoice.(status := status, version := invoice.version + 1)];
      outbox := outbox + [WebhookEvent(PaymentRefundedEvent, w, invoice, status)];
      audit := audit + [AuditEvent(PaymentRefundedEvent, w.invoice, invoice.details.merchant,
                                   RefundedDetail(refundKey, w.PaymentKey(), w.eventId, w.amount, w.currency))];
    }

    method Transition(c: Change) returns (r: Response)
      modifies this
      ensures (Contents(), r) == Atomic(cfg, old(Contents()), Ledger.Transition(c))
    {
      var found := FindInvoice(c.invoice);
      if found.None? {
        return Rejected(InvoiceNotFound);
      }
      var invoice := found.value;
      if !c.authorized {
        return Rejected(Forbidden);
      }
      if !Allowed(invoice.status, c.status) {
        return Rejected(BadTransition);
      }
      if invoice.version != c.expectedVersion {
        return Rejected(StaleVersion);
      }
      invoices := invoices[c.invoice := invoice.(status := c.status, version := invoice.version + 1)];
      outbox := outbox + [OutboxEvent(StatusChanged, c.invoice, c.status, invoice.details, None, None)];
      audit := audit + [AuditEvent(StatusChanged, c.invoice, invoice.details.merchant,
                                   ChangedDetail(invoice.status, c.status, c.expectedVersion))];
      invoice := invoice.(status := c.status, version := invoice.version + 1);
      return Reply(ToResponse(c.invoice, invoice));
    }

    method Create(c: Creation, id: InvoiceId, issuedAt: nat, recordedAt: nat) returns (r: Response)
      modifies this
      ensures (Contents(), r) == Atomic(cfg, old(Contents()), Ledger.Create(c, id, issuedAt, recordedAt))
    {
      if c.key in records {
        if records[c.key].requestHash != c.hash {
          return Rejected(ReusedKey);
        }
        return Reply(records[c.key].response);
      }
      if !c.authorized {
        return Rejected(Forbidden);
      }
      var price := PriceOf(c);
      if price.Err? {
        return Rejected(price.error);
      }
      var t := price.value;
      if id in invoices {
        return Rejected(DatabaseError);
      }
      var invoice := Invoice(NewDetails(c, t, issuedAt), Issued, 1);
      invoices := invoices[id := invoice];
      lines := lines[id := NewLines(c.order.items, t.lines)];
      outbox := outbox + [OutboxEvent(InvoiceIssued, id, Issued, invoice.details, None, None)];
      var response := ToResponse(id, invoice);
      records := records[c.key := IdemRecord(c.hash, response, recordedAt)];
      audit := audit + [AuditEvent(InvoiceIssued, id, c.merchant, CreatedDetail(c.store, c.currency, t.total))];
      return Reply(response);
    }
  }
}
