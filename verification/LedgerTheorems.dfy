/** What clients and auditors can count on, over every schedule of concurrent requests. */
module LedgerTheorems {
  import opened Ledger
  import opened LedgerRows
  import opened LedgerInvariants
  import opened Concurrency
  import opened ConcurrencyProof

  // ---- Every reachable database ----

  lemma {:induction false} ReplayOk(cfg: Config, log: seq<Entry>)
    ensures LedgerOk(Replay(cfg, log))
  {
    if log != [] {
      var init := log[..|log| - 1];
      ReplayOk(cfg, init);
      AtomicKeeps(cfg, Replay(cfg, init), log[|log| - 1].op);
    }
  }

  /** However requests interleave, abort and race with retention, the committed ledger is the one its
      log of successful replies produces serially, and the ledger invariant holds in it. */
  lemma EveryScheduleKeepsTheLedger(cfg: Config, steps: seq<Step>)
    ensures var s := Run(cfg, steps);
            s.db == Replay(cfg, s.log) && Serial(cfg, s.log) && Timed(s.log, s.clock) && LedgerOk(s.db)
  {
    ReplayOk(cfg, Run(cfg, steps).log);
  }

  lemma {:induction false} SumsEqualIffEachFull(ps: seq<Payment>, id: InvoiceId)
    requires forall i | 0 <= i < |ps| :: ps[i].refunded <= ps[i].amount
    ensures RefundedSum(ps, id) <= CapturedSum(ps, id)
    ensures RefundedSum(ps, id) == CapturedSum(ps, id) <==>
            forall i | 0 <= i < |ps| && ps[i].invoice == id :: ps[i].refunded == ps[i].amount
  {
    if ps != [] {
      var n := |ps| - 1;
      SumsEqualIffEachFull(ps[..n], id);
      assert forall i | 0 <= i < n :: ps[..n][i] == ps[i];
    }
  }

  lemma {:induction false} SumZeroIffNoRows(ps: seq<Payment>, id: InvoiceId)
    requires forall i | 0 <= i < |ps| :: 0 < ps[i].amount
    ensures CapturedSum(ps, id) == 0 <==> forall i | 0 <= i < |ps| :: ps[i].invoice != id
  {
    if ps != [] {
      var n := |ps| - 1;
      SumZeroIffNoRows(ps[..n], id);
      assert forall i | 0 <= i < n :: ps[..n][i] == ps[i];
    }
  }

  predicate HasPayments(db: Db, id: InvoiceId) {
    exists i :: 0 <= i < |db.payments| && db.payments[i].invoice == id
  }

  predicate AllRefunded(db: Db, id: InvoiceId) {
    forall i | 0 <= i < |db.payments| && db.payments[i].invoice == id :: db.payments[i].status == PaymentRefunded
  }

  /** What a status says about the payment rows, and the rows about the status. */
  predicate StatusTells(db: Db, id: InvoiceId)
    requires id in db.invoices
  {
    var inv, captured, refunded := db.invoices[id], CapturedSum(db.payments, id), RefundedSum(db.payments, id);
    && refunded <= captured <= inv.details.total
    && (inv.status in {Issued, Cancelled} ==> !HasPayments(db, id))
    && (inv.status == PartiallyPaid ==> 0 < captured < inv.details.total && refunded == 0)
    && (inv.status == Paid ==> refunded == 0)
    && (inv.status == PartiallyRefunded <==> 0 < refunded < captured)
    && (inv.status == Refunded <==> 0 < refunded == captured)
    && (inv.status == Refunded <==> HasPayments(db, id) && AllRefunded(db, id))
    && (Manual(db.outbox, id) == 0 && inv.status in {Paid, PartiallyRefunded, Refunded} ==> captured == inv.details.total)
  }

  lemma LedgerTells(db: Db, id: InvoiceId)
    requires LedgerOk(db) && id in db.invoices
    ensures StatusTells(db, id)
  {
    assert InvoiceOk(db, id);
    PaymentsTell(db, id);
  }

  lemma PaymentsTell(db: Db, id: InvoiceId)
    requires MoneyOk(db)
    ensures var captured, refunded := CapturedSum(db.payments, id), RefundedSum(db.payments, id);
            && refunded <= captured && (captured == 0 <==> !HasPayments(db, id)) && (refunded == captured <==> AllRefunded(db, id))
  {
    assert forall i | 0 <= i < |db.payments| :: PaymentOk(db, db.payments[i]);
    SumsEqualIffEachFull(db.payments, id);
    SumZeroIffNoRows(db.payments, id);
  }

  /** In every reachable state the status column can be read off the payment rows, and the other way
      round. */
  lemma StatusMeansMoney(cfg: Config, steps: seq<Step>, id: InvoiceId)
    requires id in Run(cfg, steps).db.invoices
    ensures StatusTells(Run(cfg, steps).db, id)
  {
    EveryScheduleKeepsTheLedger(cfg, steps);
    LedgerTells(Run(cfg, steps).db, id);
  }

  /** Capture and refund never consult the transition table, yet every status history follows it up
      to repetition. The version counts the events, the last event carries the current status, every
      event has its audit row, and since every change moves money or is the one manual move, versions
      are bounded. */
  lemma HistoryAndVersion(cfg: Config, steps: seq<Step>, id: InvoiceId)
    requires id in Run(cfg, steps).db.invoices
    ensures var db := Run(cfg, steps).db;
            var inv, h := db.invoices[id], History(db.outbox, id);
            && Walk(h) && h[|h| - 1] == inv.status
            && |h| == inv.version <= 2 * inv.details.total + 2
            && Paired(db)
  {
    EveryScheduleKeepsTheLedger(cfg, steps);
    assert InvoiceOk(Run(cfg, steps).db, id);
  }

  // ---- One creation per idempotency key ----

  predicate Committed(cfg: Config, db: Db, op: Op) {
    !op.Purge? && Decide(cfg, db, op).Commit?
  }

  predicate Creates(cfg: Config, db: Db, op: Op, k: IdemKey) {
    op.Create? && op.creation.key == k && Committed(cfg, db, op)
  }

  predicate PurgesRecord(cfg: Config, db: Db, op: Op, k: IdemKey) {
    op.Purge? && k in db.records && k !in Atomic(cfg, db, op).0.records
  }

  function Creations(cfg: Config, log: seq<Entry>, k: IdemKey): nat {
    if log == [] then 0
    else
      var init := log[..|log| - 1];
      Creations(cfg, init, k) + if Creates(cfg, Replay(cfg, init), log[|log| - 1].op, k) then 1 else 0
  }

  function RecordPurges(cfg: Config, log: seq<Entry>, k: IdemKey): nat {
    if log == [] then 0
    else
      var init := log[..|log| - 1];
      RecordPurges(cfg, init, k) + if PurgesRecord(cfg, Replay(cfg, init), log[|log| - 1].op, k) then 1 else 0
  }

  /** Invoices created under a key and records purged for it always differ by whether a record is
      there now: with the record unpurged there is at most one invoice per key. */
  lemma {:induction false} OneCreationPerRecord(cfg: Config, log: seq<Entry>, k: IdemKey)
    ensures Creations(cfg, log, k) == RecordPurges(cfg, log, k) + if k in Replay(cfg, log).records then 1 else 0
  {
    if log != [] {
      OneCreationPerRecord(cfg, log[..|log| - 1], k);
      RecordChanges(cfg, Replay(cfg, log[..|log| - 1]), log[|log| - 1].op, k);
    }
  }

  /** How one operation can touch the record of a key. */
  lemma RecordChanges(cfg: Config, db: Db, op: Op, k: IdemKey)
    ensures var db' := Atomic(cfg, db, op).0;
            && (Creates(cfg, db, op, k) ==> k !in db.records && k in db'.records)
            && (PurgesRecord(cfg, db, op, k) <==> k in db.records && k !in db'.records)
            && (k !in db.records && k in db'.records ==> Creates(cfg, db, op, k))
            && (k in db.records && k in db'.records ==> db'.records[k] == db.records[k])
  {
  }

  /** A successful creation reply is backed by a record with the same request hash and reply. */
  lemma ReplyBacked(cfg: Config, db: Db, op: Op)
    requires op.Create? && Atomic(cfg, db, op).1.Reply?
    ensures var k, db' := op.creation.key, Atomic(cfg, db, op).0;
            && k in db'.records && db'.records[k].requestHash == op.creation.hash
            && Atomic(cfg, db, op).1 == Reply(db'.records[k].response)
  {
  }

  lemma {:induction false} RecordKept(cfg: Config, log: seq<Entry>, m: nat, k: IdemKey)
    requires m <= |log| && k in Replay(cfg, log[..m]).records
    requires RecordPurges(cfg, log, k) == RecordPurges(cfg, log[..m], k)
    ensures k in Replay(cfg, log).records && Replay(cfg, log).records[k] == Replay(cfg, log[..m]).records[k]
  {
    if m == |log| {
      assert log[..m] == log;
    } else {
      var init := log[..|log| - 1];
      assert init[..m] == log[..m];
      PurgesGrow(cfg, init, m, k);
      RecordKept(cfg, init, m, k);
      RecordChanges(cfg, Replay(cfg, init), log[|log| - 1].op, k);
    }
  }

  lemma {:induction false} PurgesGrow(cfg: Config, log: seq<Entry>, m: nat, k: IdemKey)
    requires m <= |log|
    ensures RecordPurges(cfg, log[..m], k) <= RecordPurges(cfg, log, k)
  {
    if m == |log| {
      assert log[..m] == log;
    } else {
      assert log[..|log| - 1][..m] == log[..m];
      PurgesGrow(cfg, log[..|log| - 1], m, k);
    }
  }

  lemma {:induction false} SerialAt(cfg: Config, log: seq<Entry>, i: nat)
    requires Serial(cfg, log) && i < |log|
    ensures Atomic(cfg, Replay(cfg, log[..i]), log[i].op) == (Replay(cfg, log[..i + 1]), log[i].response)
  {
    if i < |log| - 1 {
      var init := log[..|log| - 1];
      assert init[..i] == log[..i] && init[..i + 1] == log[..i + 1];
      SerialAt(cfg, init, i);
    } else {
      assert log[..i + 1] == log;
    }
  }

  predicate Succeeds(e: Entry, k: IdemKey) {
    e.op.Create? && e.op.creation.key == k && e.response.Reply?
  }

  lemma SuccessBacked(cfg: Config, log: seq<Entry>, i: nat, k: IdemKey)
    requires Serial(cfg, log) && i < |log| && Succeeds(log[i], k)
    ensures var records := Replay(cfg, log[..i + 1]).records;
            k in records && records[k].requestHash == log[i].op.creation.hash && log[i].response == Reply(records[k].response)
  {
    SerialAt(cfg, log, i);
    ReplyBacked(cfg, Replay(cfg, log[..i]), log[i].op);
  }

  /** With a record there, a success is a replay of it and creates nothing. */
  lemma SuccessReplayed(cfg: Config, db: Db, op: Op, k: IdemKey)
    requires op.Create? && op.creation.key == k && k in db.records && Atomic(cfg, db, op).1.Reply?
    ensures Atomic(cfg, db, op) == (db, Reply(db.records[k].response))
    ensures db.records[k].requestHash == op.creation.hash && !Creates(cfg, db, op, k)
  {
  }

  lemma CreationsNext(cfg: Config, log: seq<Entry>, j: nat, k: IdemKey)
    requires j < |log| && !Creates(cfg, Replay(cfg, log[..j]), log[j].op, k)
    ensures Creations(cfg, log[..j + 1], k) == Creations(cfg, log[..j], k)
  {
    assert log[..j + 1][..j] == log[..j];
  }

  /** The record behind a success. */
  predicate Backs(db: Db, e: Entry, k: IdemKey) {
    e.op.Create? && k in db.records && db.records[k].requestHash == e.op.creation.hash && e.response == Reply(db.records[k].response)
  }

  lemma StillBacked(cfg: Config, log: seq<Entry>, i: nat, j: nat, k: IdemKey)
    requires Serial(cfg, log) && i < j < |log| && Succeeds(log[i], k)
    requires RecordPurges(cfg, log[..j], k) == RecordPurges(cfg, log[..i + 1], k)
    ensures k in Replay(cfg, log[..i + 1]).records && Backs(Replay(cfg, log[..j]), log[i], k)
  {
    SuccessBacked(cfg, log, i, k);
    assert log[..j][..i + 1] == log[..i + 1];
    RecordKept(cfg, log[..j], i + 1, k);
  }

  lemma LaterReply(cfg: Config, log: seq<Entry>, first: Entry, j: nat, k: IdemKey)
    requires Serial(cfg, log) && j < |log| && Succeeds(log[j], k) && Backs(Replay(cfg, log[..j]), first, k)
    ensures first.response == log[j].response && first.op.creation.hash == log[j].op.creation.hash
    ensures Creations(cfg, log[..j + 1], k) == Creations(cfg, log[..j], k)
  {
    SerialAt(cfg, log, j);
    SuccessReplayed(cfg, Replay(cfg, log[..j]), log[j].op, k);
    CreationsNext(cfg, log, j, k);
  }

  lemma SameCreations(cfg: Config, a: seq<Entry>, b: seq<Entry>, k: IdemKey)
    requires RecordPurges(cfg, a, k) == RecordPurges(cfg, b, k) && k in Replay(cfg, a).records && k in Replay(cfg, b).records
    ensures Creations(cfg, a, k) == Creations(cfg, b, k)
  {
    OneCreationPerRecord(cfg, a, k);
    OneCreationPerRecord(cfg, b, k);
  }

  /** Any two successful replies to one key, with no purge of its record in between, answer the same
      request with the identical response, whatever has happened to the invoice meanwhile. */
  lemma RepliesIdentical(cfg: Config, log: seq<Entry>, i: nat, j: nat, k: IdemKey)
    requires Serial(cfg, log) && i < j < |log|
    requires Succeeds(log[i], k) && Succeeds(log[j], k)
    requires RecordPurges(cfg, log[..j], k) == RecordPurges(cfg, log[..i + 1], k)
    ensures log[i].response == log[j].response
    ensures log[i].op.creation.hash == log[j].op.creation.hash
    ensures Creations(cfg, log[..j + 1], k) == Creations(cfg, log[..i + 1], k)
  {
    StillBacked(cfg, log, i, j, k);
    LaterReply(cfg, log, log[i], j, k);
    SameCreations(cfg, log[..i + 1], log[..j], k);
  }

  /** A committed creation adds exactly one invoice, its lines, one event, one audit row and one record. */
  lemma CreationEffect(cfg: Config, db: Db, op: Op)
    requires op.Create? && Committed(cfg, db, op)
    ensures var db', c, id := Atomic(cfg, db, op).0, op.creation, op.id;
            && db'.invoices.Keys == db.invoices.Keys + {id} && id !in db.invoices
            && (forall k | k in db.invoices :: db'.invoices[k] == db.invoices[k])
            && db'.invoices[id].status == Issued && db'.invoices[id].version == 1
            && id in db'.lines && |db'.lines[id]| == |c.order.items|
            && |db'.outbox| == |db.outbox| + 1 && |db'.audit| == |db.audit| + 1
            && db'.records.Keys == db.records.Keys + {c.key} && c.key !in db.records
            && db'.payments == db.payments && db'.refunds == db.refunds && db'.receipts == db.receipts
  {
  }

  // ---- Money moves once per provider identifier ----

  predicate CapturedWith(e: Entry, key: ProviderKey) {
    e.response.Applied? && e.op.HandleWebhook? && e.op.webhook.captures && e.op.webhook.PaymentKey() == key
  }

  predicate RefundedWith(e: Entry, key: ProviderKey) {
    e.response.Applied? && e.op.HandleWebhook? && !e.op.webhook.captures && RefundKey(e.op.webhook) == key
  }

  function Count(log: seq<Entry>, captures: bool, key: ProviderKey): nat {
    if log == [] then 0
    else
      var e := log[|log| - 1];
      Count(log[..|log| - 1], captures, key)
      + if (if captures then CapturedWith(e, key) else RefundedWith(e, key)) then 1 else 0
  }

  function Announced(log: seq<Entry>, captures: bool, id: InvoiceId): nat {
    if log == [] then 0
    else
      var e := log[|log| - 1];
      Announced(log[..|log| - 1], captures, id) + AmountOf(e, captures, id)
  }

  function AmountOf(e: Entry, captures: bool, id: InvoiceId): nat {
    if e.response.Applied? && e.op.HandleWebhook? && e.op.webhook.captures == captures && e.op.webhook.invoice == id
    then e.op.webhook.amount else 0
  }

  /** What one replied operation does to the row of a key and the sums of an invoice. */
  predicate MoneyEffect(db: Db, db': Db, e: Entry, key: ProviderKey, id: InvoiceId) {
    && (CapturedWith(e, key) ==> FindPayment(db.payments, key).None?)
    && (FindPayment(db'.payments, key).Some? <==> FindPayment(db.payments, key).Some? || CapturedWith(e, key))
    && (RefundedWith(e, key) ==> !HasRefund(db.refunds, key))
    && (HasRefund(db'.refunds, key) <==> HasRefund(db.refunds, key) || RefundedWith(e, key))
    && CapturedSum(db'.payments, id) == CapturedSum(db.payments, id) + AmountOf(e, true, id)
    && RefundedSum(db'.payments, id) == RefundedSum(db.payments, id) + AmountOf(e, false, id)
  }

  lemma CaptureEffect(db: Db, e: Entry, key: ProviderKey, id: InvoiceId)
    requires e.op.HandleWebhook? && e.response.Applied? && e.op.webhook.captures
    requires DecideCapture(db, e.op.webhook).Commit?
    ensures MoneyEffect(db, Apply(db, DecideCapture(db, e.op.webhook).writes), e, key, id)
  {
    InsertPayment(db.payments, DecideCapture(db, e.op.webhook).writes.inserted.value, id, key);
  }

  lemma RefundEffect(db: Db, e: Entry, key: ProviderKey, id: InvoiceId)
    requires e.op.HandleWebhook? && e.response.Applied? && !e.op.webhook.captures
    requires DecideRefund(db, e.op.webhook).Commit?
    ensures MoneyEffect(db, Apply(db, DecideRefund(db, e.op.webhook).writes), e, key, id)
  {
    UpdatePayment(db.payments, DecideRefund(db, e.op.webhook).writes.updated.value, id, key);
    InsertedRefund(db.refunds, DecideRefund(db, e.op.webhook).writes.refund.value, key);
  }

  /** Only an applied webhook touches the payment and refund tables. */
  lemma MoneyTables(cfg: Config, db: Db, e: Entry)
    requires Atomic(cfg, db, e.op).1 == e.response
    ensures var db' := Atomic(cfg, db, e.op).0;
            if e.response.Applied? then
              && e.op.HandleWebhook?
              && var d := (if e.op.webhook.captures then DecideCapture(db, e.op.webhook) else DecideRefund(db, e.op.webhook));
                 && d.Commit?
                 && db'.payments == Apply(db, d.writes).payments && db'.refunds == Apply(db, d.writes).refunds
            else db'.payments == db.payments && db'.refunds == db.refunds
  {
  }

  lemma MoneyChanges(cfg: Config, db: Db, e: Entry, key: ProviderKey, id: InvoiceId)
    requires Atomic(cfg, db, e.op).1 == e.response
    ensures MoneyEffect(db, Atomic(cfg, db, e.op).0, e, key, id)
  {
    MoneyTables(cfg, db, e);
    if e.response.Applied? {
      if e.op.webhook.captures { CaptureEffect(db, e, key, id); } else { RefundEffect(db, e, key, id); }
    }
  }

  lemma InsertedRefund(rs: seq<Refund>, r: Refund, key: ProviderKey)
    ensures HasRefund(rs + [r], key) <==> HasRefund(rs, key) || r.key == key
  {
    if r.key == key { assert (rs + [r])[|rs|].key == key; }
    if HasRefund(rs, key) {
      var i :| 0 <= i < |rs| && rs[i].key == key;
      assert (rs + [r])[i].key == key;
    }
  }

  /** Conservation: the tables hold exactly the money the replies announced, and no provider payment
      or refund identifier is ever applied twice, receipts purged or not. */
  lemma {:induction false} MoneyMovesOnce(cfg: Config, log: seq<Entry>, key: ProviderKey, id: InvoiceId)
    requires Serial(cfg, log)
    ensures var db := Replay(cfg, log);
            && Count(log, true, key) == (if FindPayment(db.payments, key).Some? then 1 else 0)
            && Count(log, false, key) == (if HasRefund(db.refunds, key) then 1 else 0)
            && Announced(log, true, id) == CapturedSum(db.payments, id)
            && Announced(log, false, id) == RefundedSum(db.payments, id)
  {
    if log != [] {
      var init, e := log[..|log| - 1], log[|log| - 1];
      MoneyMovesOnce(cfg, init, key, id);
      MoneyChanges(cfg, Replay(cfg, init), e, key, id);
    }
  }

  // ---- Receipts and their retention ----

  predicate ReceiptKept(db: Db, w: Webhook, receivedAt: nat) {
    w.EventKey() in db.receipts && db.receipts[w.EventKey()] == Receipt(w.hash, receivedAt)
  }

  predicate Accounted(cfg: Config, db: Db, clock: nat, e: Entry) {
    e.response.Applied? && e.op.HandleWebhook? ==>
      && InWindow(e.op.webhook.occurredAt, e.op.checkedAt)
      && (ReceiptKept(db, e.op.webhook, e.op.receivedAt) || Expired(e.op.receivedAt, cfg.receiptDays, clock))
  }

  lemma {:induction false} ReceiptsAccounted(cfg: Config, log: seq<Entry>, clock: nat, i: nat)
    requires Serial(cfg, log) && Timed(log, clock) && i < |log|
    ensures Accounted(cfg, Replay(cfg, log), clock, log[i])
  {
    LastEntry(cfg, log, clock);
    var init, last := log[..|log| - 1], log[|log| - 1];
    var before := Replay(cfg, init);
    if i < |log| - 1 {
      ReceiptsAccounted(cfg, init, clock, i);
      StaysAccounted(cfg, before, last.op, init[i], clock);
    } else {
      BecomesAccounted(cfg, before, last, clock);
    }
  }

  lemma LastEntry(cfg: Config, log: seq<Entry>, clock: nat)
    requires Serial(cfg, log) && Timed(log, clock) && log != []
    ensures var init, last := log[..|log| - 1], log[|log| - 1];
            && Serial(cfg, init) && Timed(init, clock) && OnTime(last.op, clock)
            && Atomic(cfg, Replay(cfg, init), last.op) == (Replay(cfg, log), last.response)
  {
  }

  lemma BecomesAccounted(cfg: Config, db: Db, e: Entry, clock: nat)
    requires Atomic(cfg, db, e.op).1 == e.response
    ensures Accounted(cfg, Atomic(cfg, db, e.op).0, clock, e)
  {
  }

  lemma StaysAccounted(cfg: Config, db: Db, op: Op, e: Entry, clock: nat)
    requires Accounted(cfg, db, clock, e) && OnTime(op, clock)
    ensures Accounted(cfg, Atomic(cfg, db, op).0, clock, e)
  {
    if e.op.HandleWebhook? && ReceiptKept(db, e.op.webhook, e.op.receivedAt) {
      ReceiptChanges(cfg, db, op, e.op, clock);
    }
  }

  lemma ReceiptChanges(cfg: Config, db: Db, op: Op, earlier: Op, clock: nat)
    requires earlier.HandleWebhook? && ReceiptKept(db, earlier.webhook, earlier.receivedAt) && OnTime(op, clock)
    ensures var db' := Atomic(cfg, db, op).0;
            ReceiptKept(db', earlier.webhook, earlier.receivedAt) || Expired(earlier.receivedAt, cfg.receiptDays, clock)
  {
  }

  /** With receipts kept 91 days or longer, a body whose receipt is gone is refused before any query:
      its event time has left the window. */
  lemma PurgedBodyRefused(cfg: Config, log: seq<Entry>, clock: nat, i: nat, now: nat)
    requires cfg.receiptDays >= 91
    requires Serial(cfg, log) && Timed(log, clock) && i < |log| && clock <= now
    requires log[i].response.Applied? && log[i].op.HandleWebhook?
    requires log[i].op.webhook.EventKey() !in Replay(cfg, log).receipts
    ensures Precheck(cfg, log[i].op.webhook, now).Some?
  {
    ReceiptsAccounted(cfg, log, clock, i);
    TimedAt(log, clock, i);
    assert cfg.receiptDays * DAY >= 91 * DAY;
  }

  /** Even then nothing is paid twice: a capture or refund that was applied once is refused, whatever
      the receipts say, from any later state of the ledger. */
  lemma AppliedBodyNeverApplies(cfg: Config, log: seq<Entry>, i: nat, now: nat, receivedAt: nat)
    requires Serial(cfg, log) && i < |log|
    requires log[i].response.Applied? && log[i].op.HandleWebhook?
    ensures !Decide(cfg, Replay(cfg, log), HandleWebhook(log[i].op.webhook, now, receivedAt)).Commit?
  {
    var w := log[i].op.webhook;
    if w.captures {
      CountAtLeast(log, true, w.PaymentKey(), i);
      MoneyMovesOnce(cfg, log, w.PaymentKey(), w.invoice);
    } else {
      SerialAt(cfg, log, i);
      CountAtLeast(log, false, RefundKey(w), i);
      MoneyMovesOnce(cfg, log, RefundKey(w), w.invoice);
    }
  }

  lemma {:induction false} CountAtLeast(log: seq<Entry>, captures: bool, key: ProviderKey, i: nat)
    requires i < |log| && (if captures then CapturedWith(log[i], key) else RefundedWith(log[i], key))
    ensures Count(log, captures, key) >= 1
  {
    if i < |log| - 1 {
      CountAtLeast(log[..|log| - 1], captures, key, i);
    }
  }
}
