/** What is true of the ledger after any sequence of operations. */
module LedgerInvariants {
  import opened Ledger
  import opened LedgerRows

  // ---- The event log of one invoice ----

  /** The statuses announced for one invoice, oldest first. */
  function History(outbox: seq<OutboxEvent>, id: InvoiceId): seq<InvoiceStatus> {
    if outbox == [] then []
    else
      var e := outbox[|outbox| - 1];
      History(outbox[..|outbox| - 1], id) + if e.invoice == id then [e.status] else []
  }

  /** How many of the events of one invoice are manual status changes. */
  function Manual(outbox: seq<OutboxEvent>, id: InvoiceId): nat {
    if outbox == [] then 0
    else
      var e := outbox[|outbox| - 1];
      Manual(outbox[..|outbox| - 1], id) + if e.invoice == id && e.kind == StatusChanged then 1 else 0
  }

  /** A walk in the domain transition table, except that a status may repeat. */
  predicate Walk(h: seq<InvoiceStatus>) {
    && h != [] && h[0] == Issued
    && forall i | 0 <= i < |h| - 1 :: h[i] == h[i + 1] || Adjacent(h[i], h[i + 1])
  }

  /** The pairs of the table. */
  predicate Adjacent(from: InvoiceStatus, to: InvoiceStatus) {
    || (from == Draft && (to == Issued || to == Cancelled))
    || (from == Issued && (to == PartiallyPaid || to == Paid || to == Cancelled))
    || (from == PartiallyPaid && to == Paid)
    || (from == Paid && (to == PartiallyRefunded || to == Refunded))
    || (from == PartiallyRefunded && to == Refunded)
  }

  // ---- The invariant ----

  predicate Agrees(status: InvoiceStatus, captured: nat, refunded: nat, total: nat, manual: nat) {
    && captured <= total && refunded <= captured && manual <= 1
    && match status
       case Draft => false
       case Issued => captured == 0 && manual == 0
       case PartiallyPaid => 0 < captured < total && refunded == 0 && manual == 0
       case Paid => refunded == 0 && (manual == 0 ==> 0 < captured == total)
       case PartiallyRefunded => 0 < refunded < captured && (manual == 0 ==> captured == total)
       case Refunded => 0 < refunded == captured && (manual == 0 ==> captured == total)
       case Cancelled => captured == 0 && manual == 1
  }

  /** An invoice row against its own event log and its sums. */
  predicate Fits(inv: Invoice, h: seq<InvoiceStatus>, captured: nat, refunded: nat, manual: nat) {
    && Agrees(inv.status, captured, refunded, inv.details.total, manual)
    && Walk(h) && |h| == inv.version && h[|h| - 1] == inv.status
    && inv.version <= 1 + captured + refunded + manual
  }

  predicate InvoiceOk(db: Db, id: InvoiceId)
    requires id in db.invoices
  {
    Fits(db.invoices[id], History(db.outbox, id), CapturedSum(db.payments, id), RefundedSum(db.payments, id),
         Manual(db.outbox, id))
  }

  predicate PaymentOk(db: Db, p: Payment) {
    && 0 < p.amount && p.refunded <= p.amount
    && p.refunded == RefundRows(db.refunds, p.key)
    && p.status == (if p.refunded == 0 then Captured else if p.refunded == p.amount then PaymentRefunded else PaymentPartiallyRefunded)
    && p.invoice in db.invoices
    && p.currency == db.invoices[p.invoice].details.currency
  }

  predicate RecordOk(db: Db, r: IdemRecord) {
    && r.response.id in db.invoices
    && r.response == ToResponse(r.response.id, Invoice(db.invoices[r.response.id].details, Issued, 1))
  }

  predicate EventOk(db: Db, e: OutboxEvent) {
    e.invoice in db.invoices && e.details == db.invoices[e.invoice].details
  }

  predicate DistinctPayments(ps: seq<Payment>) {
    forall i, j | 0 <= i < j < |ps| :: ps[i].key != ps[j].key
  }

  predicate DistinctRefunds(rs: seq<Refund>) {
    forall i, j | 0 <= i < j < |rs| :: rs[i].key != rs[j].key
  }

  predicate Paired(db: Db) {
    && |db.audit| == |db.outbox|
    && forall i | 0 <= i < |db.audit| ::
         db.audit[i].kind == db.outbox[i].kind && db.audit[i].invoice == db.outbox[i].invoice
  }

  predicate RefundOk(db: Db, r: Refund) {
    0 < r.amount && FindPayment(db.payments, r.payment).Some?
  }

  predicate InvoicesOk(db: Db) {
    forall id | id in db.invoices :: InvoiceOk(db, id)
  }

  predicate MoneyOk(db: Db) {
    && (forall i | 0 <= i < |db.payments| :: PaymentOk(db, db.payments[i]))
    && DistinctPayments(db.payments)
    && (forall i | 0 <= i < |db.refunds| :: RefundOk(db, db.refunds[i]))
    && DistinctRefunds(db.refunds)
  }

  predicate LogOk(db: Db) {
    && (forall k | k in db.records :: RecordOk(db, db.records[k]))
    && (forall i | 0 <= i < |db.outbox| :: EventOk(db, db.outbox[i]))
    && Paired(db)
  }

  predicate LedgerOk(db: Db) { InvoicesOk(db) && MoneyOk(db) && LogOk(db) }

  // ---- Preservation ----

  lemma AppendEvent(outbox: seq<OutboxEvent>, e: OutboxEvent, id: InvoiceId)
    ensures History(outbox + [e], id) == History(outbox, id) + if e.invoice == id then [e.status] else []
    ensures Manual(outbox + [e], id) == Manual(outbox, id) + if e.invoice == id && e.kind == StatusChanged then 1 else 0
  {
    assert (outbox + [e])[..|outbox|] == outbox;
  }

  lemma {:induction false} NoEvents(outbox: seq<OutboxEvent>, id: InvoiceId)
    requires forall i | 0 <= i < |outbox| :: outbox[i].invoice != id
    ensures History(outbox, id) == [] && Manual(outbox, id) == 0
  {
    if outbox != [] {
      NoEvents(outbox[..|outbox| - 1], id);
    }
  }

  lemma {:induction false} NoRefundRows(rs: seq<Refund>, key: ProviderKey)
    requires forall i | 0 <= i < |rs| :: rs[i].payment != key
    ensures RefundRows(rs, key) == 0
  {
    if rs != [] {
      NoRefundRows(rs[..|rs| - 1], key);
    }
  }

  lemma InsertRefund(rs: seq<Refund>, r: Refund, key: ProviderKey)
    ensures RefundRows(rs + [r], key) == RefundRows(rs, key) + if r.payment == key then r.amount else 0
  {
    assert (rs + [r])[..|rs|] == rs;
  }

  /** Changing one row by its key, in place. */
  lemma {:induction false} SetPaymentRows(ps: seq<Payment>, row: Payment)
    requires FindPayment(ps, row.key).Some? && DistinctPayments(ps)
    ensures var after := SetPayment(ps, row);
            && DistinctPayments(after)
            && forall i | 0 <= i < |ps| :: after[i] == if ps[i].key == row.key then row else ps[i]
  {
    var n := |ps| - 1;
    if ps[n].key != row.key {
      SetPaymentRows(ps[..n], row);
    }
  }

  lemma Moved(inv: Invoice, h: seq<InvoiceStatus>, captured: nat, refunded: nat, manual: nat,
              status: InvoiceStatus, captured': nat, refunded': nat, manual': nat)
    requires Fits(inv, h, captured, refunded, manual)
    requires status == inv.status || Adjacent(inv.status, status)
    requires captured <= captured' && refunded <= refunded' && manual <= manual'
    requires captured + refunded + manual < captured' + refunded' + manual'
    requires Agrees(status, captured', refunded', inv.details.total, manual')
    ensures Fits(Bumped(inv, status), h + [status], captured', refunded', manual')
  {
    var h' := h + [status];
    forall i | 0 <= i < |h'| - 1
      ensures h'[i] == h'[i + 1] || Adjacent(h'[i], h'[i + 1])
    {
      if i < |h| - 1 { assert h[i] == h[i + 1] || Adjacent(h[i], h[i + 1]); }
    }
  }

  /** Invoices are never removed and their immutable columns never change. */
  predicate InvoicesKept(db: Db, db': Db) {
    forall id | id in db.invoices :: id in db'.invoices && db'.invoices[id].details == db.invoices[id].details
  }

  // -- capture --

  lemma CaptureInvoices(db: Db, w: Webhook)
    requires InvoicesOk(db) && DecideCapture(db, w).Commit?
    ensures InvoicesOk(Apply(db, DecideCapture(db, w).writes))
  {
    var writes := DecideCapture(db, w).writes;
    var db', p := Apply(db, writes), writes.inserted.value;
    forall id {
      InsertPayment(db.payments, p, id, p.key);
    }
    assert InvoiceOk(db, w.invoice);
    OneInvoiceMoved(db, db', w.invoice, writes.outbox[0]);
  }

  lemma CaptureMoney(db: Db, w: Webhook)
    requires MoneyOk(db) && DecideCapture(db, w).Commit?
    ensures MoneyOk(Apply(db, DecideCapture(db, w).writes))
  {
    var writes := DecideCapture(db, w).writes;
    var db', p := Apply(db, writes), writes.inserted.value;
    assert db'.payments == db.payments + [p];
    MissingRow(db.payments, p.key);
    forall i | 0 <= i < |db.refunds|
      ensures RefundOk(db', db.refunds[i]) && db.refunds[i].payment != p.key
    {
      assert RefundOk(db, db.refunds[i]);
      InsertPayment(db.payments, p, w.invoice, db.refunds[i].payment);
    }
    NoRefundRows(db.refunds, p.key);
    forall i | 0 <= i < |db'.payments|
      ensures PaymentOk(db', db'.payments[i])
    {
      if i < |db.payments| { assert PaymentOk(db, db.payments[i]); }
    }
  }

  /** One invoice takes a new status and a higher version, with one event; the sums of the others stay. */
  lemma OneInvoiceMoved(db: Db, db': Db, id: InvoiceId, e: OutboxEvent)
    requires InvoicesOk(db) && id in db.invoices && e.invoice == id
    requires db'.invoices == db.invoices[id := Bumped(db.invoices[id], e.status)]
    requires db'.outbox == db.outbox + [e]
    requires forall k | k in db.invoices && k != id ::
               && CapturedSum(db'.payments, k) == CapturedSum(db.payments, k)
               && RefundedSum(db'.payments, k) == RefundedSum(db.payments, k)
    requires var manual := if e.kind == StatusChanged then 1 else 0;
             var captured, refunded := CapturedSum(db'.payments, id), RefundedSum(db'.payments, id);
             && (e.status == db.invoices[id].status || Adjacent(db.invoices[id].status, e.status))
             && CapturedSum(db.payments, id) <= captured && RefundedSum(db.payments, id) <= refunded
             && CapturedSum(db.payments, id) + RefundedSum(db.payments, id) < captured + refunded + manual
             && Agrees(e.status, captured, refunded, db.invoices[id].details.total, Manual(db.outbox, id) + manual)
    ensures InvoicesOk(db')
  {
    forall k | k in db'.invoices
      ensures InvoiceOk(db', k)
    {
      AppendEvent(db.outbox, e, k);
      assert InvoiceOk(db, k);
      if k == id {
        Moved(db.invoices[id], History(db.outbox, id), CapturedSum(db.payments, id), RefundedSum(db.payments, id), Manual(db.outbox, id),
              e.status, CapturedSum(db'.payments, id), RefundedSum(db'.payments, id),
              Manual(db.outbox, id) + if e.kind == StatusChanged then 1 else 0);
      }
    }
  }

  // -- refund --

  lemma {:induction false} RefundedBelowCaptured(ps: seq<Payment>, id: InvoiceId)
    requires forall i | 0 <= i < |ps| :: ps[i].refunded <= ps[i].amount
    ensures RefundedSum(ps, id) <= CapturedSum(ps, id)
  {
    if ps != [] {
      RefundedBelowCaptured(ps[..|ps| - 1], id);
    }
  }

  lemma RefundMoney(db: Db, w: Webhook)
    requires MoneyOk(db) && DecideRefund(db, w).Commit?
    ensures MoneyOk(Apply(db, DecideRefund(db, w).writes))
  {
    var writes := DecideRefund(db, w).writes;
    var db', row, r := Apply(db, writes), writes.updated.value, writes.refund.value;
    assert db'.payments == SetPayment(db.payments, row) && db'.refunds == db.refunds + [r];
    var at := FoundRow(db.payments, w.PaymentKey());
    assert PaymentOk(db, db.payments[at]);
    assert PaymentOk(db', row) by { InsertRefund(db.refunds, r, row.key); }
    RefundedPayments(db, db', row, r);
    RefundedRefunds(db, db', row, r);
  }

  lemma RefundedPayments(db: Db, db': Db, row: Payment, r: Refund)
    requires MoneyOk(db) && InvoicesKept(db, db') && FindPayment(db.payments, row.key).Some?
    requires db'.payments == SetPayment(db.payments, row) && db'.refunds == db.refunds + [r]
    requires r.payment == row.key && PaymentOk(db', row)
    ensures DistinctPayments(db'.payments)
    ensures forall i | 0 <= i < |db'.payments| :: PaymentOk(db', db'.payments[i])
  {
    SetPaymentRows(db.payments, row);
    forall i | 0 <= i < |db'.payments|
      ensures PaymentOk(db', db'.payments[i])
    {
      assert PaymentOk(db, db.payments[i]);
      InsertRefund(db.refunds, r, db.payments[i].key);
    }
  }

  lemma RefundedRefunds(db: Db, db': Db, row: Payment, r: Refund)
    requires MoneyOk(db) && FindPayment(db.payments, row.key).Some?
    requires FindPayment(db.payments, row.key).value.invoice == row.invoice
    requires db'.payments == SetPayment(db.payments, row) && db'.refunds == db.refunds + [r]
    requires r.payment == row.key && 0 < r.amount && !HasRefund(db.refunds, r.key)
    ensures DistinctRefunds(db'.refunds)
    ensures forall i | 0 <= i < |db'.refunds| :: RefundOk(db', db'.refunds[i])
  {
    forall i | 0 <= i < |db'.refunds|
      ensures RefundOk(db', db'.refunds[i])
    {
      UpdatePayment(db.payments, row, row.invoice, db'.refunds[i].payment);
      if i < |db.refunds| { assert RefundOk(db, db.refunds[i]); }
    }
  }

  lemma RefundSums(db: Db, db': Db, w: Webhook, row: Payment)
    requires MoneyOk(db) && DecideRefund(db, w).Commit?
    requires db' == Apply(db, DecideRefund(db, w).writes) && row == DecideRefund(db, w).writes.updated.value
    ensures CapturedSum(db'.payments, w.invoice) == CapturedSum(db.payments, w.invoice)
    ensures RefundedSum(db'.payments, w.invoice) == RefundedSum(db.payments, w.invoice) + w.amount
    ensures RefundedSum(db'.payments, w.invoice) <= CapturedSum(db'.payments, w.invoice)
  {
    UpdatePayment(db.payments, row, w.invoice, row.key);
    RefundMoney(db, w);
    assert forall i | 0 <= i < |db'.payments| :: PaymentOk(db', db'.payments[i]);
    RefundedBelowCaptured(db'.payments, w.invoice);
  }

  /** A refund starts from PAID or PARTIALLY_REFUNDED; the new status follows from the new sums. */
  lemma RefundAgrees(inv: Invoice, h: seq<InvoiceStatus>, captured: nat, refunded: nat, manual: nat, refunded': nat)
    requires Fits(inv, h, captured, refunded, manual) && inv.status in {Paid, PartiallyRefunded}
    requires refunded < refunded' <= captured
    ensures var status := RefundStatus(captured, refunded');
            && Agrees(status, captured, refunded', inv.details.total, manual)
            && (status == inv.status || Adjacent(inv.status, status))
  {
  }

  lemma RefundInvoices(db: Db, w: Webhook)
    requires InvoicesOk(db) && MoneyOk(db) && DecideRefund(db, w).Commit?
    ensures InvoicesOk(Apply(db, DecideRefund(db, w).writes))
  {
    var writes := DecideRefund(db, w).writes;
    var db', row, id := Apply(db, writes), writes.updated.value, w.invoice;
    RefundSums(db, db', w, row);
    assert InvoiceOk(db, id);
    RefundAgrees(db.invoices[id], History(db.outbox, id), CapturedSum(db.payments, id), RefundedSum(db.payments, id),
                 Manual(db.outbox, id), RefundedSum(db'.payments, id));
    forall k | k in db.invoices && k != id
      ensures CapturedSum(db'.payments, k) == CapturedSum(db.payments, k)
      ensures RefundedSum(db'.payments, k) == RefundedSum(db.payments, k)
    {
      UpdatePayment(db.payments, row, k, row.key);
    }
    OneInvoiceMoved(db, db', id, writes.outbox[0]);
  }

  // -- manual change --

  lemma ChangeInvoices(db: Db, c: Change)
    requires InvoicesOk(db) && DecideChange(db, c).Commit?
    ensures InvoicesOk(Apply(db, DecideChange(db, c).writes))
  {
    var writes := DecideChange(db, c).writes;
    assert InvoiceOk(db, c.invoice);
    OneInvoiceMoved(db, Apply(db, writes), c.invoice, writes.outbox[0]);
  }

  // -- creation --

  lemma UnusedId(db: Db, id: InvoiceId)
    requires LedgerOk(db) && id !in db.invoices
    ensures History(db.outbox, id) == [] && Manual(db.outbox, id) == 0
    ensures CapturedSum(db.payments, id) == 0 && RefundedSum(db.payments, id) == 0
  {
    assert forall i | 0 <= i < |db.outbox| :: EventOk(db, db.outbox[i]);
    NoEvents(db.outbox, id);
    assert forall i | 0 <= i < |db.payments| :: PaymentOk(db, db.payments[i]);
    NoRowsNoSum(db.payments, id);
  }

  lemma CreationInvoices(db: Db, db': Db, id: InvoiceId, details: Details, e: OutboxEvent)
    requires LedgerOk(db) && id !in db.invoices
    requires db'.invoices == db.invoices[id := Invoice(details, Issued, 1)]
    requires db'.payments == db.payments && db'.outbox == db.outbox + [e]
    requires e.kind == InvoiceIssued && e.invoice == id && e.status == Issued
    ensures InvoicesOk(db')
  {
    UnusedId(db, id);
    forall k | k in db'.invoices
      ensures InvoiceOk(db', k)
    {
      AppendEvent(db.outbox, e, k);
      if k != id { assert InvoiceOk(db, k); }
    }
  }

  // -- rows that refer to invoices --


  lemma MoneyFramed(db: Db, db': Db)
    requires MoneyOk(db) && InvoicesKept(db, db') && db'.payments == db.payments && db'.refunds == db.refunds
    ensures MoneyOk(db')
  {
    forall i | 0 <= i < |db'.payments|
      ensures PaymentOk(db', db'.payments[i])
    {
      assert PaymentOk(db, db.payments[i]);
    }
    assert forall i | 0 <= i < |db'.refunds| :: RefundOk(db, db.refunds[i]) ==> RefundOk(db', db'.refunds[i]);
  }

  lemma RecordsFramed(db: Db, db': Db)
    requires LogOk(db) && InvoicesKept(db, db')
    ensures forall k | k in db.records :: RecordOk(db', db.records[k])
  {
    forall k | k in db.records
      ensures RecordOk(db', db.records[k])
    {
      assert RecordOk(db, db.records[k]);
    }
  }

  lemma EventsExtended(db: Db, db': Db, e: OutboxEvent, a: AuditEvent)
    requires LogOk(db) && InvoicesKept(db, db')
    requires db'.outbox == db.outbox + [e] && db'.audit == db.audit + [a]
    requires EventOk(db', e) && a.kind == e.kind && a.invoice == e.invoice
    ensures (forall i | 0 <= i < |db'.outbox| :: EventOk(db', db'.outbox[i])) && Paired(db')
  {
    forall i | 0 <= i < |db'.outbox|
      ensures EventOk(db', db'.outbox[i])
    {
      if i < |db.outbox| { assert EventOk(db, db.outbox[i]); }
    }
  }

  lemma LogFramed(db: Db, db': Db, e: OutboxEvent, a: AuditEvent)
    requires LogOk(db) && InvoicesKept(db, db') && db'.records == db.records
    requires db'.outbox == db.outbox + [e] && db'.audit == db.audit + [a]
    requires EventOk(db', e) && a.kind == e.kind && a.invoice == e.invoice
    ensures LogOk(db')
  {
    RecordsFramed(db, db');
    EventsExtended(db, db', e, a);
  }

  lemma CaptureLog(db: Db, w: Webhook)
    requires LogOk(db) && DecideCapture(db, w).Commit?
    ensures LogOk(Apply(db, DecideCapture(db, w).writes))
  {
    var writes := DecideCapture(db, w).writes;
    LogFramed(db, Apply(db, writes), writes.outbox[0], writes.audit[0]);
  }

  lemma RefundLog(db: Db, w: Webhook)
    requires LogOk(db) && DecideRefund(db, w).Commit?
    ensures LogOk(Apply(db, DecideRefund(db, w).writes))
  {
    var writes := DecideRefund(db, w).writes;
    LogFramed(db, Apply(db, writes), writes.outbox[0], writes.audit[0]);
  }

  lemma ChangeLog(db: Db, c: Change)
    requires LogOk(db) && DecideChange(db, c).Commit?
    ensures LogOk(Apply(db, DecideChange(db, c).writes))
  {
    var writes := DecideChange(db, c).writes;
    LogFramed(db, Apply(db, writes), writes.outbox[0], writes.audit[0]);
  }

  lemma CreationLog(db: Db, c: Creation, id: InvoiceId, at: nat, recordedAt: nat)
    requires LogOk(db) && DecideCreation(db, c, id, at, recordedAt).Commit?
    ensures LogOk(Apply(db, DecideCreation(db, c, id, at, recordedAt).writes))
  {
    var writes := DecideCreation(db, c, id, at, recordedAt).writes;
    var db' := Apply(db, writes);
    RecordsFramed(db, db');
    assert RecordOk(db', writes.record.value.1);
    EventsExtended(db, db', writes.outbox[0], writes.audit[0]);
  }

  lemma CaptureKeeps(db: Db, w: Webhook)
    requires LedgerOk(db) && DecideCapture(db, w).Commit?
    ensures LedgerOk(Apply(db, DecideCapture(db, w).writes))
  {
    CaptureInvoices(db, w);
    CaptureMoney(db, w);
    CaptureLog(db, w);
  }

  lemma RefundKeeps(db: Db, w: Webhook)
    requires LedgerOk(db) && DecideRefund(db, w).Commit?
    ensures LedgerOk(Apply(db, DecideRefund(db, w).writes))
  {
    RefundInvoices(db, w);
    RefundMoney(db, w);
    RefundLog(db, w);
  }

  lemma ReceiptsFramed(db: Db, receipts: map<ProviderKey, Receipt>)
    requires LedgerOk(db)
    ensures LedgerOk(db.(receipts := receipts))
  {
    var db' := db.(receipts := receipts);
    InvoicesFramed(db, db');
    MoneyFramed(db, db');
    assert forall k | k in db.records :: RecordOk(db, db.records[k]) ==> RecordOk(db', db'.records[k]);
    assert forall i | 0 <= i < |db.outbox| :: EventOk(db, db.outbox[i]) ==> EventOk(db', db'.outbox[i]);
  }

  lemma WebhookKeeps(cfg: Config, db: Db, w: Webhook, now: nat, receivedAt: nat)
    requires LedgerOk(db) && DecideWebhook(cfg, db, w, now, receivedAt).Commit?
    ensures LedgerOk(Apply(db, DecideWebhook(cfg, db, w, now, receivedAt).writes))
  {
    if w.captures {
      CaptureKeeps(db, w);
      ReceiptsFramed(Apply(db, DecideCapture(db, w).writes), Apply(db, DecideWebhook(cfg, db, w, now, receivedAt).writes).receipts);
    } else {
      RefundKeeps(db, w);
      ReceiptsFramed(Apply(db, DecideRefund(db, w).writes), Apply(db, DecideWebhook(cfg, db, w, now, receivedAt).writes).receipts);
    }
  }

  lemma ChangeKeeps(db: Db, c: Change)
    requires LedgerOk(db) && DecideChange(db, c).Commit?
    ensures LedgerOk(Apply(db, DecideChange(db, c).writes))
  {
    ChangeInvoices(db, c);
    MoneyFramed(db, Apply(db, DecideChange(db, c).writes));
    ChangeLog(db, c);
  }

  lemma CreationKeeps(db: Db, c: Creation, id: InvoiceId, at: nat, recordedAt: nat)
    requires LedgerOk(db) && DecideCreation(db, c, id, at, recordedAt).Commit?
    ensures LedgerOk(Apply(db, DecideCreation(db, c, id, at, recordedAt).writes))
  {
    var writes := DecideCreation(db, c, id, at, recordedAt).writes;
    var db' := Apply(db, writes);
    CreationInvoices(db, db', id, writes.invoice.value.1.details, writes.outbox[0]);
    MoneyFramed(db, db');
    CreationLog(db, c, id, at, recordedAt);
  }

  lemma CommitKeeps(cfg: Config, db: Db, op: Op)
    requires LedgerOk(db) && !op.Purge? && Decide(cfg, db, op).Commit?
    ensures LedgerOk(Apply(db, Decide(cfg, db, op).writes))
  {
    match op
    case HandleWebhook(w, now, receivedAt) => WebhookKeeps(cfg, db, w, now, receivedAt);
    case Transition(c) => ChangeKeeps(db, c);
    case Create(c, id, at, recordedAt) => CreationKeeps(db, c, id, at, recordedAt);
  }

  lemma InvoicesFramed(db: Db, db': Db)
    requires InvoicesOk(db) && db'.invoices == db.invoices && db'.payments == db.payments && db'.outbox == db.outbox
    ensures InvoicesOk(db')
  {
    forall id | id in db'.invoices
      ensures InvoiceOk(db', id)
    {
      assert InvoiceOk(db, id);
    }
  }

  lemma PurgeKeeps(cfg: Config, db: Db, events: set<ProviderKey>, keys: set<IdemKey>, now: nat)
    requires LedgerOk(db)
    ensures LedgerOk(PurgeRows(cfg, db, events, keys, now))
  {
    var db' := PurgeRows(cfg, db, events, keys, now);
    InvoicesFramed(db, db');
    MoneyFramed(db, db');
    forall k | k in db'.records
      ensures RecordOk(db', db'.records[k])
    {
      assert RecordOk(db, db.records[k]);
    }
    forall i | 0 <= i < |db.outbox|
      ensures EventOk(db', db'.outbox[i])
    {
      assert EventOk(db, db.outbox[i]);
    }
  }

  lemma AtomicCases(cfg: Config, db: Db, op: Op)
    ensures var db' := Atomic(cfg, db, op).0;
            if op.Purge? then db' == PurgeRows(cfg, db, op.events, op.keys, op.now)
            else if Decide(cfg, db, op).Commit? then db' == Apply(db, Decide(cfg, db, op).writes)
            else db' == db
  {
  }

  /** No operation, whatever its outcome, breaks the invariant. */
  lemma AtomicKeeps(cfg: Config, db: Db, op: Op)
    requires LedgerOk(db)
    ensures LedgerOk(Atomic(cfg, db, op).0)
  {
    AtomicCases(cfg, db, op);
    if op.Purge? {
      PurgeKeeps(cfg, db, op.events, op.keys, op.now);
    } else if Decide(cfg, db, op).Commit? {
      CommitKeeps(cfg, db, op);
    }
  }
}
