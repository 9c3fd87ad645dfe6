/** The tables of the money ledger and the effect each request has on them when it
    runs alone: what `PaymentService` and `InvoiceService` promise to commit. */
module Ledger {
  import opened Options
  import Math = InvoiceMath

  type InvoiceId = nat

  /** A provider together with one of its identifiers: the unique keys of payments,
      refunds and receipts. */
  datatype ProviderKey = ProviderKey(provider: nat, ref: nat)
  datatype IdemKey = IdemKey(actor: nat, key: nat)

  datatype InvoiceStatus = Draft | Issued | PartiallyPaid | Paid | PartiallyRefunded | Refunded | Cancelled
  datatype PaymentStatus = Captured | PaymentPartiallyRefunded | PaymentRefunded

  /** The columns of an invoice that never change after it is created. */
  datatype Details = Details(merchant: nat, store: nat, customer: nat, currency: nat, subtotal: nat,
                             discount: nat, tax: nat, total: nat, issuedAt: nat)
  datatype Invoice = Invoice(details: Details, status: InvoiceStatus, version: nat)
  datatype Line = Line(position: nat, quantity: int, unitPrice: int, total: int)
  datatype Payment = Payment(key: ProviderKey, invoice: InvoiceId, merchant: nat, amount: nat, refunded: nat,
                             currency: nat, status: PaymentStatus, capturedAt: int, version: nat)
  datatype Refund = Refund(key: ProviderKey, payment: ProviderKey, merchant: nat, amount: nat, refundedAt: int)
  datatype Receipt = Receipt(hash: nat, receivedAt: nat)
  datatype IdemRecord = IdemRecord(requestHash: nat, response: InvoiceResponse, createdAt: nat)

  datatype EventKind = InvoiceIssued | StatusChanged | PaymentCaptured | PaymentRefundedEvent
  datatype OutboxEvent = OutboxEvent(kind: EventKind, invoice: InvoiceId, status: InvoiceStatus, details: Details,
                                     providerEvent: Option<nat>, amount: Option<nat>)
  datatype AuditEvent = AuditEvent(kind: EventKind, invoice: InvoiceId, merchant: nat, detail: AuditDetail)
  datatype AuditDetail =
    | CreatedDetail(store: nat, currency: nat, total: nat)
    | ChangedDetail(from: InvoiceStatus, to: InvoiceStatus, expectedVersion: nat)
    | CapturedDetail(payment: ProviderKey, providerEvent: nat, amount: nat, currency: nat)
    | RefundedDetail(refund: ProviderKey, payment: ProviderKey, providerEvent: nat, amount: nat, currency: nat)

  datatype InvoiceResponse = InvoiceResponse(id: InvoiceId, store: nat, status: InvoiceStatus, currency: nat,
                                             subtotal: nat, discount: nat, tax: nat, total: nat,
                                             issuedAt: nat, version: nat)

  datatype Db = Db(
    invoices: map<InvoiceId, Invoice>,
    lines: map<InvoiceId, seq<Line>>,
    payments: seq<Payment>,
    refunds: seq<Refund>,
    receipts: map<ProviderKey, Receipt>,
    records: map<IdemKey, IdemRecord>,
    outbox: seq<OutboxEvent>,
    audit: seq<AuditEvent>)

  const EMPTY_DB := Db(map[], map[], [], [], map[], map[], [], [])

  // ---- Requests and replies ----

  type Amount = n: nat | 1 <= n <= 100_000_000 witness 1

  datatype Webhook = Webhook(provider: nat, signed: bool, hash: nat, eventId: nat, captures: bool, paymentRef: nat,
                             refundRef: Option<nat>, invoice: InvoiceId, amount: Amount, currency: nat, occurredAt: int)
  {
    function EventKey(): ProviderKey { ProviderKey(provider, eventId) }
    function PaymentKey(): ProviderKey { ProviderKey(provider, paymentRef) }
  }

  /** The two targets a manual transition may name. */
  type Target = s: InvoiceStatus | s == Paid || s == Cancelled witness Paid

  datatype Change = Change(invoice: InvoiceId, authorized: bool, status: Target, expectedVersion: nat)
  datatype Creation = Creation(key: IdemKey, hash: nat, merchant: nat, store: nat, authorized: bool, customer: nat,
                               currency: nat, order: Math.Order)

  datatype Config = Config(provider: nat, receiptDays: nat, recordDays: nat)

  datatype Error =
    | UnknownProvider | BadSignature | OutsideWindow | ReusedEventId | InvoiceNotFound | PaymentNotFound
    | WrongStatus | WrongCurrency | DuplicatePayment | ExceedsTotal | MissingRefundId | RefundMismatch
    | ExceedsPayment | DuplicateRefund | Forbidden | BadTransition | StaleVersion | ReusedKey | BadOrder
    | OutOfRange | ConcurrentUpdate | ConcurrentKey | DatabaseError

  datatype Response =
    | Applied(eventId: nat, invoice: InvoiceId, status: InvoiceStatus, payment: ProviderKey)
    | Duplicate(eventId: nat)
    | Reply(invoiceResponse: InvoiceResponse)
    | Purged
    | Rejected(error: Error)

  // ---- Sums and lookups over the tables ----

  /** `COALESCE(SUM(payment.amount_minor), 0)` over one invoice. */
  function CapturedSum(payments: seq<Payment>, id: InvoiceId): nat {
    if payments == [] then 0
    else
      var p := payments[|payments| - 1];
      CapturedSum(payments[..|payments| - 1], id) + if p.invoice == id then p.amount else 0
  }

  /** `COALESCE(SUM(payment.refunded_minor), 0)` over one invoice. */
  function RefundedSum(payments: seq<Payment>, id: InvoiceId): nat {
    if payments == [] then 0
    else
      var p := payments[|payments| - 1];
      RefundedSum(payments[..|payments| - 1], id) + if p.invoice == id then p.refunded else 0
  }

  /** The total of the refund rows of one payment. */
  function RefundRows(refunds: seq<Refund>, key: ProviderKey): nat {
    if refunds == [] then 0
    else
      var r := refunds[|refunds| - 1];
      RefundRows(refunds[..|refunds| - 1], key) + if r.payment == key then r.amount else 0
  }

  function FindPayment(payments: seq<Payment>, key: ProviderKey): (r: Option<Payment>)
    ensures r.Some? ==> r.value.key == key
  {
    if payments == [] then None
    else
      var p := payments[|payments| - 1];
      if p.key == key then Some(p) else FindPayment(payments[..|payments| - 1], key)
  }

  /** The table after updating the row with the key of `row`. */
  function SetPayment(payments: seq<Payment>, row: Payment): (r: seq<Payment>)
    ensures |r| == |payments|
  {
    if payments == [] then []
    else
      var n := |payments| - 1;
      if payments[n].key == row.key then payments[..n] + [row] else SetPayment(payments[..n], row) + [payments[n]]
  }

  predicate HasRefund(refunds: seq<Refund>, key: ProviderKey) {
    exists i :: 0 <= i < |refunds| && refunds[i].key == key
  }

  // ---- Pending writes of one transaction ----

  datatype Writes = Writes(
    invoice: Option<(InvoiceId, Invoice)>,
    lines: Option<(InvoiceId, seq<Line>)>,
    inserted: Option<Payment>,
    updated: Option<Payment>,
    refund: Option<Refund>,
    receipt: Option<(ProviderKey, Receipt)>,
    record: Option<(IdemKey, IdemRecord)>,
    outbox: seq<OutboxEvent>,
    audit: seq<AuditEvent>)

  const NOTHING := Writes(None, None, None, None, None, None, None, [], [])

  function Put<K, V>(m: map<K, V>, row: Option<(K, V)>): map<K, V> {
    if row.Some? then m[row.value.0 := row.value.1] else m
  }

  function Append<T>(s: seq<T>, row: Option<T>): seq<T> {
    if row.Some? then s + [row.value] else s
  }

  function Apply(db: Db, w: Writes): Db {
    Db(Put(db.invoices, w.invoice),
       Put(db.lines, w.lines),
       Append(if w.updated.Some? then SetPayment(db.payments, w.updated.value) else db.payments, w.inserted),
       Append(db.refunds, w.refund),
       Put(db.receipts, w.receipt),
       Put(db.records, w.record),
       db.outbox + w.outbox,
       db.audit + w.audit)
  }

  // ---- What each request writes ----

  function Bumped(inv: Invoice, status: InvoiceStatus): Invoice {
    Invoice(inv.details, status, inv.version + 1)
  }

  function NewPayment(w: Webhook, inv: Invoice): Payment {
    Payment(w.PaymentKey(), w.invoice, inv.details.merchant, w.amount, 0, w.currency, Captured,
            w.occurredAt, 1)
  }

  function CaptureStatus(w: Webhook, inv: Invoice, captured: nat): InvoiceStatus {
    if captured + w.amount == inv.details.total then Paid else PartiallyPaid
  }

  function WebhookEvent(kind: EventKind, w: Webhook, inv: Invoice, status: InvoiceStatus): OutboxEvent {
    OutboxEvent(kind, w.invoice, status, inv.details, Some(w.eventId), Some(w.amount))
  }

  function CaptureWrites(w: Webhook, inv: Invoice, captured: nat): Writes {
    var status := CaptureStatus(w, inv, captured);
    NOTHING.(inserted := Some(NewPayment(w, inv)),
             invoice := Some((w.invoice, Bumped(inv, status))),
             outbox := [WebhookEvent(PaymentCaptured, w, inv, status)],
             audit := [AuditEvent(PaymentCaptured, w.invoice, inv.details.merchant,
                                  CapturedDetail(w.PaymentKey(), w.eventId, w.amount, w.currency))])
  }

  function NewRefund(w: Webhook, inv: Invoice, refundKey: ProviderKey): Refund {
    Refund(refundKey, w.PaymentKey(), inv.details.merchant, w.amount, w.occurredAt)
  }

  function RefundedPayment(w: Webhook, p: Payment): Payment {
    p.(refunded := p.refunded + w.amount,
       status := if p.refunded + w.amount == p.amount then PaymentRefunded else PaymentPartiallyRefunded,
       version := p.version + 1)
  }

  function RefundStatus(captured: nat, refunded: nat): InvoiceStatus {
    if refunded == captured then Refunded else PartiallyRefunded
  }

  function RefundWrites(w: Webhook, p: Payment, inv: Invoice, refundKey: ProviderKey, status: InvoiceStatus): Writes {
    NOTHING.(refund := Some(NewRefund(w, inv, refundKey)),
             updated := Some(RefundedPayment(w, p)),
             invoice := Some((w.invoice, Bumped(inv, status))),
             outbox := [WebhookEvent(PaymentRefundedEvent, w, inv, status)],
             audit := [AuditEvent(PaymentRefundedEvent, w.invoice, inv.details.merchant,
                                  RefundedDetail(refundKey, w.PaymentKey(), w.eventId, w.amount, w.currency))])
  }

  function ChangeWrites(c: Change, inv: Invoice): Writes {
    NOTHING.(invoice := Some((c.invoice, Bumped(inv, c.status))),
             outbox := [OutboxEvent(StatusChanged, c.invoice, c.status, inv.details, None, None)],
             audit := [AuditEvent(StatusChanged, c.invoice, inv.details.merchant,
                                  ChangedDetail(inv.status, c.status, c.expectedVersion))])
  }

  function NewDetails(c: Creation, t: Math.Totals, at: nat): Details
    requires Storable(c.order, t)
  {
    Details(c.merchant, c.store, c.customer, c.currency, t.subtotal, t.discount, t.tax, t.total, at)
  }

  /** Every number fits its unsigned column; MySQL refuses the insert otherwise. */
  predicate Storable(order: Math.Order, t: Math.Totals) {
    && 0 <= t.subtotal < Math.COLUMN_LIMIT && 0 <= t.discount < Math.COLUMN_LIMIT
    && 0 <= t.tax < Math.COLUMN_LIMIT && 0 <= t.total < Math.COLUMN_LIMIT
    && |order.items| < 65536
    && forall i | 0 <= i < |order.items| :: order.items[i].quantity < 65536
  }

  function NewLines(items: seq<Math.Item>, totals: seq<int>): seq<Line>
    requires |items| == |totals|
  {
    seq(|items|, i requires 0 <= i < |items| => Line(i + 1, items[i].quantity, items[i].unitPrice, totals[i]))
  }

  function ToResponse(id: InvoiceId, inv: Invoice): InvoiceResponse {
    var d := inv.details;
    InvoiceResponse(id, d.store, inv.status, d.currency, d.subtotal, d.discount, d.tax, d.total, d.issuedAt, inv.version)
  }

  function CreationWrites(c: Creation, t: Math.Totals, id: InvoiceId, at: nat, recordedAt: nat): Writes
    requires Storable(c.order, t) && |t.lines| == |c.order.items|
  {
    var inv := Invoice(NewDetails(c, t, at), Issued, 1);
    NOTHING.(invoice := Some((id, inv)),
             lines := Some((id, NewLines(c.order.items, t.lines))),
             record := Some((c.key, IdemRecord(c.hash, ToResponse(id, inv), recordedAt))),
             outbox := [OutboxEvent(InvoiceIssued, id, Issued, inv.details, None, None)],
             audit := [AuditEvent(InvoiceIssued, id, c.merchant, CreatedDetail(c.store, c.currency, t.total))])
  }

  // ---- Decisions: what a request does when nothing else is running ----

  /** Refuse with an error, answer without writing, or commit some writes. */
  datatype Decision = Refuse(error: Error) | Answer(response: Response) | Commit(writes: Writes, response: Response)

  function DecideCapture(db: Db, w: Webhook): Decision {
    if w.invoice !in db.invoices then Refuse(InvoiceNotFound)
    else
      var inv := db.invoices[w.invoice];
      if inv.status !in {Issued, PartiallyPaid} then Refuse(WrongStatus)
      else if inv.details.currency != w.currency then Refuse(WrongCurrency)
      else if FindPayment(db.payments, w.PaymentKey()).Some? then Refuse(DuplicatePayment)
      else
        var captured := CapturedSum(db.payments, w.invoice);
        if captured + w.amount > inv.details.total then Refuse(ExceedsTotal)
        else
          Commit(CaptureWrites(w, inv, captured),
                 Applied(w.eventId, w.invoice, CaptureStatus(w, inv, captured), w.PaymentKey()))
  }

  function DecideRefund(db: Db, w: Webhook): Decision {
    if w.refundRef.None? then Refuse(MissingRefundId)
    else
      var refundKey := ProviderKey(w.provider, w.refundRef.value);
      var found := FindPayment(db.payments, w.PaymentKey());
      if found.None? then Refuse(PaymentNotFound)
      else if w.invoice !in db.invoices then Refuse(InvoiceNotFound)
      else
        var p, inv := found.value, db.invoices[w.invoice];
        if p.invoice != w.invoice then Refuse(RefundMismatch)
        else if inv.status !in {Paid, PartiallyRefunded} then Refuse(WrongStatus)
        else if p.currency != w.currency then Refuse(WrongCurrency)
        else if p.refunded + w.amount > p.amount then Refuse(ExceedsPayment)
        else if HasRefund(db.refunds, refundKey) then Refuse(DuplicateRefund)
        else
          var after := SetPayment(db.payments, RefundedPayment(w, p));
          var status := RefundStatus(CapturedSum(after, w.invoice), RefundedSum(after, w.invoice));
          Commit(RefundWrites(w, p, inv, refundKey, status), Applied(w.eventId, w.invoice, status, w.PaymentKey()))
  }

  const MINUTE: int := 60_000
  const DAY: int := 86_400_000

  predicate InWindow(occurredAt: int, now: int) {
    now - 90 * DAY <= occurredAt <= now + 5 * MINUTE
  }

  /** The checks made before any query. */
  function Precheck(cfg: Config, w: Webhook, now: nat): Option<Error> {
    if w.provider != cfg.provider then Some(UnknownProvider)
    else if !w.signed then Some(BadSignature)
    else if !InWindow(w.occurredAt, now) then Some(OutsideWindow)
    else None
  }

  function DecideWebhook(cfg: Config, db: Db, w: Webhook, now: nat, receivedAt: nat): Decision {
    if Precheck(cfg, w, now).Some? then Refuse(Precheck(cfg, w, now).value)
    else if w.EventKey() in db.receipts then
      if db.receipts[w.EventKey()].hash != w.hash then Refuse(ReusedEventId) else Answer(Duplicate(w.eventId))
    else
      var d := if w.captures then DecideCapture(db, w) else DecideRefund(db, w);
      match d
      case Commit(writes, response) =>
        Commit(writes.(receipt := Some((w.EventKey(), Receipt(w.hash, receivedAt)))), response)
      case _ => d
  }

  /** The frozen table behind `assertInvoiceTransition`. */
  predicate Allowed(from: InvoiceStatus, to: InvoiceStatus) {
    match from
    case Draft => to in {Issued, Cancelled}
    case Issued => to in {PartiallyPaid, Paid, Cancelled}
    case PartiallyPaid => to == Paid
    case Paid => to in {PartiallyRefunded, Refunded}
    case PartiallyRefunded => to == Refunded
    case Refunded => false
    case Cancelled => false
  }

  function DecideChange(db: Db, c: Change): Decision {
    if c.invoice !in db.invoices then Refuse(InvoiceNotFound)
    else
      var inv := db.invoices[c.invoice];
      if !c.authorized then Refuse(Forbidden)
      else if !Allowed(inv.status, c.status) then Refuse(BadTransition)
      else if inv.version != c.expectedVersion then Refuse(StaleVersion)
      else Commit(ChangeWrites(c, inv), Reply(ToResponse(c.invoice, Bumped(inv, c.status))))
  }

  function PriceOf(c: Creation): (r: Result<Math.Totals, Error>)
    ensures r.Ok? ==> Storable(c.order, r.value) && |r.value.lines| == |c.order.items|
  {
    var t := Math.ExactInvoice(c.order);
    if t.Err? then Err(BadOrder)
    else if !Storable(c.order, t.value) then Err(OutOfRange)
    else Ok(t.value)
  }

  function DecideCreation(db: Db, c: Creation, id: InvoiceId, at: nat, recordedAt: nat): Decision {
    if c.key in db.records then
      if db.records[c.key].requestHash != c.hash then Refuse(ReusedKey)
      else Answer(Reply(db.records[c.key].response))
    else if !c.authorized then Refuse(Forbidden)
    else
      match PriceOf(c)
      case Err(e) => Refuse(e)
      case Ok(t) =>
        if id in db.invoices then Refuse(DatabaseError)
        else
          Commit(CreationWrites(c, t, id, at, recordedAt), Reply(ToResponse(id, Invoice(NewDetails(c, t, at), Issued, 1))))
  }

  // ---- Operations ----

  /** A request with the clock readings and the generated identifier it used; or one retention pass. */
  datatype Op =
    | HandleWebhook(webhook: Webhook, checkedAt: nat, receivedAt: nat)
    | Transition(change: Change)
    | Create(creation: Creation, id: InvoiceId, issuedAt: nat, recordedAt: nat)
    | Purge(events: set<ProviderKey>, keys: set<IdemKey>, now: nat)

  function Decide(cfg: Config, db: Db, op: Op): Decision
    requires !op.Purge?
  {
    match op
    case HandleWebhook(w, now, receivedAt) => DecideWebhook(cfg, db, w, now, receivedAt)
    case Transition(c) => DecideChange(db, c)
    case Create(c, id, at, recordedAt) => DecideCreation(db, c, id, at, recordedAt)
  }

  /** Older than the retention period. */
  predicate Expired(at: nat, days: nat, now: nat) {
    at < now - days * DAY
  }

  function PurgeRows(cfg: Config, db: Db, events: set<ProviderKey>, keys: set<IdemKey>, now: nat): Db {
    db.(receipts := map k | k in db.receipts && !(k in events && Expired(db.receipts[k].receivedAt, cfg.receiptDays, now)) :: db.receipts[k],
        records := map k | k in db.records && !(k in keys && Expired(db.records[k].createdAt, cfg.recordDays, now)) :: db.records[k])
  }

  /** One operation run alone: the new tables and the reply. */
  function Atomic(cfg: Config, db: Db, op: Op): (Db, Response) {
    match op
    case Purge(events, keys, now) => (PurgeRows(cfg, db, events, keys, now), Purged)
    case _ =>
      match Decide(cfg, db, op)
      case Refuse(e) => (db, Rejected(e))
      case Answer(r) => (db, r)
      case Commit(w, r) => (Apply(db, w), r)
  }
}
