/** Any number of requests running at once against one database, one statement at a time.

    A transaction's row locks and unwritten rows are functions of how far it has got; other
    transactions see only committed rows. Only three protections are used: the row locks taken by
    `SELECT ... FOR UPDATE`, `UPDATE` and `INSERT`, the unique keys, and the version guard. Plain
    reads take no lock and lock no ranges. A transaction may abort at any moment. */
module Concurrency {
  import opened Options
  import opened Ledger

  datatype Lock =
    | InvoiceLock(id: InvoiceId)
    | PaymentLock(payment: ProviderKey)
    | RefundLock(refund: ProviderKey)
    | ReceiptLock(receipt: ProviderKey)
    | RecordLock(record: IdemKey)

  datatype Request = WebhookRequest(webhook: Webhook) | ChangeRequest(change: Change) | CreateRequest(creation: Creation)

  /** The last statement a request has executed, with the local variables it has filled in. */
  datatype Phase =
    | Begun
    | Looked                                                     // no receipt, or no idempotency record, was found
    | CapLocked(inv: Invoice)                                    // invoice row locked, status and currency checked
    | CapFresh(inv: Invoice)                                     // no payment with this key was found
    | CapSummed(inv: Invoice, captured: nat)
    | CapInserted(inv: Invoice, captured: nat)
    | CapWritten(inv: Invoice, captured: nat, row: Invoice)      // invoice updated, event and audit row inserted
    | CapReady(inv: Invoice, captured: nat, row: Invoice, receivedAt: nat)
    | RefPayment(p: Payment)                                     // payment row locked
    | RefLocked(p: Payment, inv: Invoice)                        // invoice row locked, all checks passed
    | RefFresh(p: Payment, inv: Invoice)                         // no refund with this key was found
    | RefInserted(p: Payment, inv: Invoice)
    | RefUpdated(p: Payment, inv: Invoice, matched: bool)        // payment updated if its version still matched
    | RefSummed(p: Payment, inv: Invoice, matched: bool, captured: nat, refunded: nat)
    | RefWritten(p: Payment, inv: Invoice, matched: bool, captured: nat, refunded: nat, row: Invoice)
    | RefReady(p: Payment, inv: Invoice, matched: bool, captured: nat, refunded: nat, row: Invoice, receivedAt: nat)
    | ChangeRead(inv: Invoice)                                   // plain read; transition and version checks passed
    | ChangeReady(inv: Invoice, row: Invoice)                    // guarded update hit one row
    | CreateInserted(t: Math.Totals, id: InvoiceId, at: nat)     // invoice, lines and event inserted
    | CreateReady(t: Math.Totals, id: InvoiceId, at: nat, recordedAt: nat)
    | Recovering                                                 // rolled back on ER_DUP_ENTRY, about to look again

  datatype Txn = Txn(request: Request, startedAt: nat, phase: Phase)

  datatype Entry = Entry(op: Op, response: Response)

  datatype State = State(db: Db, clock: nat, txns: map<nat, Txn>, log: seq<Entry>)

  const INITIAL := State(EMPTY_DB, 0, map[], [])

  function RefundKey(w: Webhook): ProviderKey {
    ProviderKey(w.provider, if w.refundRef.Some? then w.refundRef.value else 0)
  }

  /** Phases make sense only for their own kind of request. */
  predicate Typed(t: Txn) {
    var ph := t.phase;
    if ph.Begun? || ph.Recovering? then true
    else if ph.Looked? then !t.request.ChangeRequest?
    else if ph.ChangeRead? || ph.ChangeReady? then t.request.ChangeRequest?
    else if ph.CreateInserted? || ph.CreateReady? then
      t.request.CreateRequest? && PriceOf(t.request.creation) == Ok(ph.t)
    else t.request.WebhookRequest?
  }

  // ---- What a transaction holds ----

  function Held(t: Txn): set<Lock>
    requires Typed(t)
  {
    match t.phase
    case Begun => {}
    case Looked => {}
    case Recovering => {}
    case ChangeRead(_) => {}
    case CapLocked(_) => {InvoiceLock(t.request.webhook.invoice)}
    case CapFresh(_) => {InvoiceLock(t.request.webhook.invoice)}
    case CapSummed(_, _) => {InvoiceLock(t.request.webhook.invoice)}
    case CapInserted(_, _) => {InvoiceLock(t.request.webhook.invoice), PaymentLock(t.request.webhook.PaymentKey())}
    case CapWritten(_, _, _) => {InvoiceLock(t.request.webhook.invoice), PaymentLock(t.request.webhook.PaymentKey())}
    case CapReady(_, _, _, _) =>
      {InvoiceLock(t.request.webhook.invoice), PaymentLock(t.request.webhook.PaymentKey()), ReceiptLock(t.request.webhook.EventKey())}
    case RefPayment(_) => {PaymentLock(t.request.webhook.PaymentKey())}
    case RefLocked(_, _) => {PaymentLock(t.request.webhook.PaymentKey()), InvoiceLock(t.request.webhook.invoice)}
    case RefFresh(_, _) => {PaymentLock(t.request.webhook.PaymentKey()), InvoiceLock(t.request.webhook.invoice)}
    case RefReady(_, _, _, _, _, _, _) =>
      {PaymentLock(t.request.webhook.PaymentKey()), InvoiceLock(t.request.webhook.invoice),
       RefundLock(RefundKey(t.request.webhook)), ReceiptLock(t.request.webhook.EventKey())}
    case ChangeReady(_, _) => {InvoiceLock(t.request.change.invoice)}
    case CreateInserted(_, id, _) => {InvoiceLock(id)}
    case CreateReady(_, id, _, _) => {InvoiceLock(id), RecordLock(t.request.creation.key)}
    case _ =>
      {PaymentLock(t.request.webhook.PaymentKey()), InvoiceLock(t.request.webhook.invoice), RefundLock(RefundKey(t.request.webhook))}
  }

  function CaptureRow(w: Webhook, inv: Invoice): Writes { NOTHING.(inserted := Some(NewPayment(w, inv))) }

  function RefundRow(w: Webhook, p: Payment, inv: Invoice, matched: bool): Writes {
    NOTHING.(refund := Some(NewRefund(w, inv, RefundKey(w))),
             updated := if matched then Some(RefundedPayment(w, p)) else None)
  }

  function PendingCapture(w: Webhook, inv: Invoice, captured: nat, row: Invoice): Writes {
    CaptureWrites(w, inv, captured).(invoice := Some((w.invoice, row)))
  }

  function PendingRefund(w: Webhook, p: Payment, inv: Invoice, matched: bool, captured: nat, refunded: nat, row: Invoice): Writes {
    RefundWrites(w, p, inv, RefundKey(w), RefundStatus(captured, refunded)).(
      updated := if matched then Some(RefundedPayment(w, p)) else None,
      invoice := Some((w.invoice, row)))
  }

  function WithReceipt(writes: Writes, w: Webhook, receivedAt: nat): Writes {
    writes.(receipt := Some((w.EventKey(), Receipt(w.hash, receivedAt))))
  }

  /** The rows a transaction has written and not yet committed. */
  function Pending(t: Txn): Writes
    requires Typed(t)
  {
    match t.phase
    case CapInserted(inv, _) => CaptureRow(t.request.webhook, inv)
    case CapWritten(inv, captured, row) => PendingCapture(t.request.webhook, inv, captured, row)
    case CapReady(inv, captured, row, receivedAt) =>
      WithReceipt(PendingCapture(t.request.webhook, inv, captured, row), t.request.webhook, receivedAt)
    case RefInserted(p, inv) => RefundRow(t.request.webhook, p, inv, false)
    case RefUpdated(p, inv, matched) => RefundRow(t.request.webhook, p, inv, matched)
    case RefSummed(p, inv, matched, _, _) => RefundRow(t.request.webhook, p, inv, matched)
    case RefWritten(p, inv, matched, captured, refunded, row) =>
      PendingRefund(t.request.webhook, p, inv, matched, captured, refunded, row)
    case RefReady(p, inv, matched, captured, refunded, row, receivedAt) =>
      WithReceipt(PendingRefund(t.request.webhook, p, inv, matched, captured, refunded, row), t.request.webhook, receivedAt)
    case ChangeReady(inv, row) => ChangeWrites(t.request.change, inv).(invoice := Some((t.request.change.invoice, row)))
    case CreateInserted(totals, id, at) =>
      CreationWrites(t.request.creation, totals, id, at, at).(record := None, audit := [])
    case CreateReady(totals, id, at, recordedAt) => CreationWrites(t.request.creation, totals, id, at, recordedAt)
    case _ => NOTHING
  }

  /** What a transaction reads: committed rows under its own. */
  function View(db: Db, t: Txn): Db
    requires Typed(t)
  {
    Apply(db, Pending(t))
  }

  // ---- Steps ----

  datatype Step =
    | Admit(i: nat, request: Request)
    | Advance(i: nat, newId: InvoiceId)  // the next statement of request i; `newId` is a generated invoice ID
    | Abort(i: nat)
    | Retain(events: set<ProviderKey>, keys: set<IdemKey>)
    | Tick(elapsed: nat)

  predicate AllTyped(s: State) { forall i | i in s.txns :: Typed(s.txns[i]) }

  predicate Free(s: State, i: nat, l: Lock)
    requires AllTyped(s)
  {
    forall j | j in s.txns && j != i :: l !in Held(s.txns[j])
  }

  function Drop(s: State, i: nat): State { s.(txns := s.txns - {i}) }

  function Move(s: State, i: nat, phase: Phase): State
    requires i in s.txns
  {
    s.(txns := s.txns[i := s.txns[i].(phase := phase)])
  }

  /** The request ends with a successful reply that changes nothing. */
  function Finish(s: State, i: nat, op: Op, response: Response): State {
    Drop(s, i).(log := s.log + [Entry(op, response)])
  }

  /** `COMMIT`: the pending rows become visible and every lock is released. */
  function CommitTxn(s: State, i: nat, op: Op, response: Response): State
    requires i in s.txns && Typed(s.txns[i])
  {
    Drop(s, i).(db := View(s.db, s.txns[i]), log := s.log + [Entry(op, response)])
  }

  function CurrentRow(db: Db, id: InvoiceId, otherwise: Invoice): Invoice {
    if id in db.invoices then db.invoices[id] else otherwise
  }

  function Exec(cfg: Config, s: State, step: Step): State
    requires AllTyped(s)
  {
    match step
    case Admit(i, request) =>
      if i in s.txns || (request.WebhookRequest? && Precheck(cfg, request.webhook, s.clock).Some?) then s
      else s.(txns := s.txns[i := Txn(request, s.clock, Begun)])
    case Advance(i, newId) =>
      if i !in s.txns then s
      else (
        match s.txns[i].request
        case WebhookRequest(w) => AdvanceWebhook(s, i, w)
        case ChangeRequest(c) => AdvanceChange(s, i, c)
        case CreateRequest(c) => AdvanceCreation(s, i, c, newId))
    case Abort(i) => Drop(s, i)
    case Retain(events, keys) =>
      s.(db := PurgeRows(cfg, s.db, events, keys, s.clock), log := s.log + [Entry(Purge(events, keys, s.clock), Purged)])
    case Tick(elapsed) => s.(clock := s.clock + elapsed)
  }

  function WebhookOp(s: State, i: nat, w: Webhook, receivedAt: nat): Op
    requires i in s.txns
  {
    HandleWebhook(w, s.txns[i].startedAt, receivedAt)
  }

  function AdvanceWebhook(s: State, i: nat, w: Webhook): State
    requires AllTyped(s) && i in s.txns && s.txns[i].request == WebhookRequest(w)
  {
    var t := s.txns[i];
    match t.phase
    case Begun =>
      if w.EventKey() !in s.db.receipts then Move(s, i, Looked)
      else if s.db.receipts[w.EventKey()].hash != w.hash then Drop(s, i)
      else Finish(s, i, WebhookOp(s, i, w, s.clock), Duplicate(w.eventId))
    case Recovering =>
      if w.EventKey() in s.db.receipts && s.db.receipts[w.EventKey()].hash == w.hash
      then Finish(s, i, WebhookOp(s, i, w, s.clock), Duplicate(w.eventId))
      else Drop(s, i)
    case Looked => if w.captures then LockForCapture(s, i, w) else LockPayment(s, i, w)
    // capture
    case CapLocked(inv) =>
      if FindPayment(View(s.db, t).payments, w.PaymentKey()).Some? then Drop(s, i) else Move(s, i, CapFresh(inv))
    case CapFresh(inv) =>
      var captured := CapturedSum(View(s.db, t).payments, w.invoice);
      if captured + w.amount > inv.details.total then Drop(s, i) else Move(s, i, CapSummed(inv, captured))
    case CapSummed(inv, captured) =>
      if !Free(s, i, PaymentLock(w.PaymentKey())) then s
      else if FindPayment(s.db.payments, w.PaymentKey()).Some? then Move(s, i, Recovering)
      else Move(s, i, CapInserted(inv, captured))
    case CapInserted(inv, captured) =>
      var row := Bumped(CurrentRow(View(s.db, t), w.invoice, inv), CaptureStatus(w, inv, captured));
      Move(s, i, CapWritten(inv, captured, row))
    case CapWritten(inv, captured, row) =>
      if !Free(s, i, ReceiptLock(w.EventKey())) then s
      else if w.EventKey() in s.db.receipts then Move(s, i, Recovering)
      else Move(s, i, CapReady(inv, captured, row, s.clock))
    case CapReady(inv, captured, row, receivedAt) =>
      CommitTxn(s, i, WebhookOp(s, i, w, receivedAt),
                Applied(w.eventId, w.invoice, CaptureStatus(w, inv, captured), w.PaymentKey()))
    // refund
    case RefPayment(p) => LockForRefund(s, i, w, p)
    case RefLocked(p, inv) =>
      if HasRefund(View(s.db, t).refunds, RefundKey(w)) then Drop(s, i) else Move(s, i, RefFresh(p, inv))
    case RefFresh(p, inv) =>
      if !Free(s, i, RefundLock(RefundKey(w))) then s
      else if HasRefund(s.db.refunds, RefundKey(w)) then Move(s, i, Recovering)
      else Move(s, i, RefInserted(p, inv))
    case RefInserted(p, inv) =>
      var current := FindPayment(View(s.db, t).payments, w.PaymentKey());
      Move(s, i, RefUpdated(p, inv, current.Some? && current.value.version == p.version))
    case RefUpdated(p, inv, matched) =>
      var payments := View(s.db, t).payments;
      Move(s, i, RefSummed(p, inv, matched, CapturedSum(payments, w.invoice), RefundedSum(payments, w.invoice)))
    case RefSummed(p, inv, matched, captured, refunded) =>
      var row := Bumped(CurrentRow(View(s.db, t), w.invoice, inv), RefundStatus(captured, refunded));
      Move(s, i, RefWritten(p, inv, matched, captured, refunded, row))
    case RefWritten(p, inv, matched, captured, refunded, row) =>
      if !Free(s, i, ReceiptLock(w.EventKey())) then s
      else if w.EventKey() in s.db.receipts then Move(s, i, Recovering)
      else Move(s, i, RefReady(p, inv, matched, captured, refunded, row, s.clock))
    case RefReady(p, inv, matched, captured, refunded, row, receivedAt) =>
      CommitTxn(s, i, WebhookOp(s, i, w, receivedAt),
                Applied(w.eventId, w.invoice, RefundStatus(captured, refunded), w.PaymentKey()))
    case _ => s
  }

  function LockForCapture(s: State, i: nat, w: Webhook): State
    requires AllTyped(s) && i in s.txns
  {
    if !Free(s, i, InvoiceLock(w.invoice)) then s
    else if w.invoice !in s.db.invoices then Drop(s, i)
    else
      var inv := s.db.invoices[w.invoice];
      if inv.status !in {Issued, PartiallyPaid} || inv.details.currency != w.currency then Drop(s, i)
      else Move(s, i, CapLocked(inv))
  }

  function LockPayment(s: State, i: nat, w: Webhook): State
    requires AllTyped(s) && i in s.txns
  {
    if w.refundRef.None? then Drop(s, i)
    else if !Free(s, i, PaymentLock(w.PaymentKey())) then s
    else
      var found := FindPayment(s.db.payments, w.PaymentKey());
      if found.None? then Drop(s, i) else Move(s, i, RefPayment(found.value))
  }

  function LockForRefund(s: State, i: nat, w: Webhook, p: Payment): State
    requires AllTyped(s) && i in s.txns
  {
    if !Free(s, i, InvoiceLock(w.invoice)) then s
    else if w.invoice !in s.db.invoices then Drop(s, i)
    else
      var inv := s.db.invoices[w.invoice];
      if p.invoice != w.invoice || inv.status !in {Paid, PartiallyRefunded} || p.currency != w.currency
         || p.refunded + w.amount > p.amount
      then Drop(s, i)
      else Move(s, i, RefLocked(p, inv))
  }

  function AdvanceChange(s: State, i: nat, c: Change): State
    requires AllTyped(s) && i in s.txns && s.txns[i].request == ChangeRequest(c)
  {
    match s.txns[i].phase
    case Begun =>
      if c.invoice !in s.db.invoices then Drop(s, i)
      else
        var inv := s.db.invoices[c.invoice];
        if !c.authorized || !Allowed(inv.status, c.status) || inv.version != c.expectedVersion then Drop(s, i)
        else Move(s, i, ChangeRead(inv))
    case ChangeRead(inv) =>
      if !Free(s, i, InvoiceLock(c.invoice)) then s
      else if c.invoice in s.db.invoices && s.db.invoices[c.invoice].version == c.expectedVersion
      then Move(s, i, ChangeReady(inv, Bumped(s.db.invoices[c.invoice], c.status)))
      else Drop(s, i)
    case ChangeReady(inv, _) =>
      CommitTxn(s, i, Transition(c), Reply(ToResponse(c.invoice, Bumped(inv, c.status))))
    case _ => s
  }

  function AdvanceCreation(s: State, i: nat, c: Creation, newId: InvoiceId): State
    requires AllTyped(s) && i in s.txns && s.txns[i].request == CreateRequest(c)
  {
    match s.txns[i].phase
    case Begun =>
      if c.key !in s.db.records then Move(s, i, Looked)
      else if s.db.records[c.key].requestHash != c.hash then Drop(s, i)
      else Finish(s, i, Create(c, newId, s.clock, s.clock), Reply(s.db.records[c.key].response))
    case Recovering =>
      if c.key in s.db.records && s.db.records[c.key].requestHash == c.hash
      then Finish(s, i, Create(c, newId, s.clock, s.clock), Reply(s.db.records[c.key].response))
      else Drop(s, i)
    case Looked =>
      if !c.authorized || PriceOf(c).Err? then Drop(s, i)
      else if newId in s.db.invoices || !Free(s, i, InvoiceLock(newId)) then s
      else Move(s, i, CreateInserted(PriceOf(c).value, newId, s.clock))
    case CreateInserted(t, id, at) =>
      if !Free(s, i, RecordLock(c.key)) then s
      else if c.key in s.db.records then Move(s, i, Recovering)
      else Move(s, i, CreateReady(t, id, at, s.clock))
    case CreateReady(t, id, at, recordedAt) =>
      CommitTxn(s, i, Create(c, id, at, recordedAt), Reply(ToResponse(id, Invoice(NewDetails(c, t, at), Issued, 1))))
    case _ => s
  }

  // ---- The serial explanation of a log ----

  function Replay(cfg: Config, log: seq<Entry>): Db {
    if log == [] then EMPTY_DB
    else Atomic(cfg, Replay(cfg, log[..|log| - 1]), log[|log| - 1].op).0
  }

  /** Every reply in the log is the one its operation gives when run alone, in log order. */
  ghost predicate Serial(cfg: Config, log: seq<Entry>) {
    log == [] ||
    (var init := log[..|log| - 1];
     && Serial(cfg, init)
     && Atomic(cfg, Replay(cfg, init), log[|log| - 1].op).1 == log[|log| - 1].response)
  }

  /** The clock readings recorded with an operation are in order and not in the future. */
  predicate OnTime(op: Op, clock: nat) {
    match op
    case HandleWebhook(_, checkedAt, receivedAt) => checkedAt <= receivedAt <= clock
    case Purge(_, _, now) => now <= clock
    case _ => true
  }

  predicate Timed(log: seq<Entry>, clock: nat) {
    log == [] || (Timed(log[..|log| - 1], clock) && OnTime(log[|log| - 1].op, clock))
  }
}
