/** The retention job: four tables, each purged oldest first in at most twenty batches of a thousand. */
module Retention {
  import opened Options
  import opened Pipeline

  const BATCH: nat := 1000
  const BATCHES: nat := 20

  // ---- Deleting the oldest eligible rows; a table is listed in the order of its time column ----

  function Eligible<T>(table: seq<T>, due: T -> bool): nat {
    if table == [] then 0 else (if due(table[0]) then 1 else 0) + Eligible(table[1..], due)
  }

  /** The table without its first n eligible rows. */
  function Without<T>(table: seq<T>, due: T -> bool, n: nat): seq<T> {
    if table == [] || n == 0 then table
    else if due(table[0]) then Without(table[1..], due, n - 1)
    else [table[0]] + Without(table[1..], due, n)
  }

  function Least(a: nat, b: nat): nat { if a <= b then a else b }

  lemma {:induction false} WithoutTwice<T>(table: seq<T>, due: T -> bool, m: nat, n: nat)
    ensures Without(Without(table, due, m), due, n) == Without(table, due, m + n)
  {
    if table != [] && m > 0 {
      if due(table[0]) {
        WithoutTwice(table[1..], due, m - 1, n);
      } else {
        WithoutTwice(table[1..], due, m, n);
        var once := Without(table, due, m);
        assert once[0] == table[0] && once[1..] == Without(table[1..], due, m);
      }
    }
  }

  lemma {:induction false} WithoutCounts<T>(table: seq<T>, due: T -> bool, n: nat)
    ensures var k := Least(n, Eligible(table, due));
            && |Without(table, due, n)| == |table| - k
            && Eligible(Without(table, due, n), due) == Eligible(table, due) - k
            && Eligible(table, due) <= |table|
  {
    if table != [] {
      var m := if due(table[0]) && n > 0 then n - 1 else n;
      WithoutCounts(table[1..], due, m);
      if n > 0 && !due(table[0]) {
        assert Without(table, due, n)[1..] == Without(table[1..], due, n);
      }
    }
  }

  /** Asking for more than there is deletes what there is. */
  lemma {:induction false} WithoutAll<T>(table: seq<T>, due: T -> bool, n: nat)
    ensures Without(table, due, n) == Without(table, due, Least(n, Eligible(table, due)))
  {
    if table != [] && n > 0 {
      WithoutAll(table[1..], due, if due(table[0]) then n - 1 else n);
      if Eligible(table, due) == 0 { WithoutNone(table, due, n); }
    }
  }

  lemma {:induction false} WithoutNone<T>(table: seq<T>, due: T -> bool, n: nat)
    requires Eligible(table, due) == 0
    ensures Without(table, due, n) == table
  {
    if table != [] && n > 0 {
      WithoutNone(table[1..], due, n);
    }
  }

  /** A row stays exactly when it is not eligible or n older rows are. */
  lemma {:induction false} StaysExactly<T>(table: seq<T>, due: T -> bool, n: nat, p: nat)
    requires p < |table| && forall i, j | 0 <= i < j < |table| :: table[i] != table[j]
    ensures table[p] in Without(table, due, n) <==> !due(table[p]) || Eligible(table[..p], due) >= n
  {
    if n > 0 {
      if p == 0 {
        if due(table[0]) { WithoutIsPart(table[1..], due, n - 1); }
      } else {
        assert table[..p][0] == table[0] && table[..p][1..] == table[1..][..p - 1];
        assert table[p] == table[1..][p - 1] && table[p] != table[0];
        StaysExactly(table[1..], due, if due(table[0]) then n - 1 else n, p - 1);
      }
    }
  }

  lemma {:induction false} WithoutIsPart<T>(table: seq<T>, due: T -> bool, n: nat)
    ensures forall row | row in Without(table, due, n) :: row in table
    ensures forall row | row in table && !due(row) :: row in Without(table, due, n)
  {
    if table != [] && n > 0 {
      WithoutIsPart(table[1..], due, if due(table[0]) then n - 1 else n);
      forall row | row in table && !due(row)
        ensures row in Without(table, due, n)
      {
        assert row == table[0] || row in table[1..];
        if !due(table[0]) { assert Without(table, due, n)[0] == table[0]; }
      }
    }
  }

  // ---- A listing by a time column: what goes is no younger than what stays ----

  /** Rows differ, and stand in the order of a column. */
  ghost predicate Ordered<T>(table: seq<T>, time: T -> int) {
    && (forall i, j | 0 <= i < j < |table| :: table[i] != table[j])
    && forall i, j | 0 <= i < j < |table| :: time(table[i]) <= time(table[j])
  }

  /** Every deleted row is eligible, and no younger than any eligible row that is left. */
  ghost predicate OldestWent<T(!new)>(table: seq<T>, left: seq<T>, due: T -> bool, time: T -> int) {
    forall gone, stays | gone in table && gone !in left && stays in left && due(stays) :: due(gone) && time(gone) <= time(stays)
  }

  lemma {:induction false} EligibleGrows<T>(table: seq<T>, due: T -> bool, p: nat, q: nat)
    requires p <= q <= |table|
    ensures Eligible(table[..p], due) <= Eligible(table[..q], due)
  {
    if p > 0 {
      assert table[..p][0] == table[0] && table[..p][1..] == table[1..][..p - 1];
      assert table[..q][0] == table[0] && table[..q][1..] == table[1..][..q - 1];
      EligibleGrows(table[1..], due, p - 1, q - 1);
    }
  }

  lemma WithoutOldest<T(!new)>(table: seq<T>, due: T -> bool, n: nat, time: T -> int)
    requires Ordered(table, time)
    ensures OldestWent(table, Without(table, due, n), due, time)
  {
    var left := Without(table, due, n);
    WithoutIsPart(table, due, n);
    forall gone, stays | gone in table && gone !in left && stays in left && due(stays)
      ensures due(gone) && time(gone) <= time(stays)
    {
      var p :| 0 <= p < |table| && table[p] == gone;
      var q :| 0 <= q < |table| && table[q] == stays;
      StaysExactly(table, due, n, p);
      StaysExactly(table, due, n, q);
      if q < p { EligibleGrows(table, due, q, p); }
    }
  }

  /** The first 20,000 eligible rows go. */
  function Purged<T>(table: seq<T>, due: T -> bool): seq<T> {
    Without(table, due, Least(BATCHES * BATCH, Eligible(table, due)))
  }

  /** Batches until one comes back short, and never more than twenty. The total is what was deleted, the
      deleted rows are the oldest eligible ones by the column that the table is listed by, and either none is
      left or 20,000 have gone. */
  method PurgeInBatches<T(!new)>(table: seq<T>, due: T -> bool, ghost time: T -> int) returns (total: nat, left: seq<T>)
    ensures total == |table| - |left| == Least(20_000, Eligible(table, due))
    ensures left == Without(table, due, total) == Purged(table, due)
    ensures Eligible(left, due) == 0 || total == 20_000
    ensures Ordered(table, time) ==> OldestWent(table, left, due, time)
  {
    total, left := 0, table;
    var batch := 0;
    WithoutCounts(table, due, 0);
    while batch < BATCHES
      invariant batch <= BATCHES
      invariant total == batch * BATCH && total <= Eligible(table, due)
      invariant left == Without(table, due, total)
    {
      WithoutTwice(table, due, total, BATCH);
      WithoutCounts(table, due, total);
      WithoutCounts(left, due, BATCH);
      var next := Without(left, due, BATCH);
      var affected := |left| - |next|;
      WithoutAll(left, due, BATCH);
      WithoutTwice(table, due, total, affected);
      total, left := total + affected, next;
      WithoutCounts(table, due, total);
      if affected < BATCH { break; }
      batch := batch + 1;
    }
    WithoutCounts(table, due, total);
    if Ordered(table, time) { WithoutOldest(table, due, total, time); }
  }

  // ---- The four purges ----

  const DAY: nat := 86_400_000

  datatype Days = Days(idempotency: nat, outbox: nat, receipts: nat)

  datatype OutboxRow = OutboxRow(id: EventId, status: OutboxStatus, publishedAt: Option<nat>)
  datatype Delivery = Delivery(event: EventId, number: nat, status: DeliveryStatus, createdAt: nat)
  datatype Stamped = Stamped(id: nat, at: nat)

  datatype Store = Store(outbox: seq<OutboxRow>, deliveries: seq<Delivery>, idempotency: seq<Stamped>, receipts: seq<Stamped>)

  predicate Older(at: nat, now: nat, days: nat) { at < now - days * DAY }

  predicate Ended(deliveries: seq<Delivery>, e: EventId) {
    exists d :: d in deliveries && d.event == e && (d.status == Succeeded || d.status == DeadLettered)
  }

  predicate OutboxDue(row: OutboxRow, deliveries: seq<Delivery>, now: nat, days: Days) {
    && row.status == Published && row.publishedAt.Some? && Older(row.publishedAt.value, now, days.outbox)
    && Ended(deliveries, row.id)
  }

  predicate InOutbox(outbox: seq<OutboxRow>, e: EventId) { exists row :: row in outbox && row.id == e }

  predicate DeliveryDue(d: Delivery, outbox: seq<OutboxRow>, now: nat, days: Days) {
    !InOutbox(outbox, d.event) && Older(d.createdAt, now, days.outbox)
  }

  function RowsDue(deliveries: seq<Delivery>, now: nat, days: Days): OutboxRow -> bool {
    row => OutboxDue(row, deliveries, now, days)
  }

  function DeliveriesDue(outbox: seq<OutboxRow>, now: nat, days: Days): Delivery -> bool {
    d => DeliveryDue(d, outbox, now, days)
  }

  /** `ORDER BY published_at`, `created_at`, and `created_at` or `received_at`. */
  function PublicationTime(): OutboxRow -> int { (row: OutboxRow) => if row.publishedAt.Some? then row.publishedAt.value else -1 }

  function CreationTime(): Delivery -> int { (d: Delivery) => d.createdAt }

  function StampTime(): Stamped -> int { (r: Stamped) => r.at }

  function StampsDue(now: nat, days: nat): Stamped -> bool { (r: Stamped) => Older(r.at, now, days) }

  function Retained(s: Store, now: nat, days: Days): Store {
    var outbox := Purged(s.outbox, RowsDue(s.deliveries, now, days));
    Store(outbox,
          Purged(s.deliveries, DeliveriesDue(outbox, now, days)),
          Purged(s.idempotency, StampsDue(now, days.idempotency)),
          Purged(s.receipts, StampsDue(now, days.receipts)))
  }

  class Tables {
    var outbox: seq<OutboxRow>
    var deliveries: seq<Delivery>
    var idempotency: seq<Stamped>
    var receipts: seq<Stamped>

    constructor (s: Store)
      ensures Contents() == s
    {
      outbox, deliveries, idempotency, receipts := s.outbox, s.deliveries, s.idempotency, s.receipts;
    }

    function Contents(): Store
      reads this
    {
      Store(outbox, deliveries, idempotency, receipts)
    }

    /** Each table is listed by the column that its purge orders by. */
    method RunRetention(now: nat, days: Days) returns (purged: (nat, nat, nat, nat))
      modifies this
      ensures Contents() == Retained(old(Contents()), now, days)
      ensures purged.0 == |old(outbox)| - |outbox| && purged.1 == |old(deliveries)| - |deliveries|
      ensures purged.2 == |old(idempotency)| - |idempotency| && purged.3 == |old(receipts)| - |receipts|
    {
      var events, attempts, records, bodies;
      events, outbox := PurgeInBatches(outbox, RowsDue(deliveries, now, days), PublicationTime());
      attempts, deliveries := PurgeInBatches(deliveries, DeliveriesDue(outbox, now, days), CreationTime());
      records, idempotency := PurgeInBatches(idempotency, StampsDue(now, days.idempotency), StampTime());
      bodies, receipts := PurgeInBatches(receipts, StampsDue(now, days.receipts), StampTime());
      purged := (events, attempts, records, bodies);
    }
  }

  lemma PurgedIs<T>(table: seq<T>, due: T -> bool)
    ensures forall row | row in Purged(table, due) :: row in table
    ensures forall row | row in table && row !in Purged(table, due) :: due(row)
  {
    WithoutIsPart(table, due, Least(BATCHES * BATCH, Eligible(table, due)));
  }

  /** A row that goes is no younger than an eligible one that stays, in each of the four tables. */
  lemma RetentionTakesTheOldest(s: Store, now: nat, days: Days)
    requires Ordered(s.outbox, PublicationTime()) && Ordered(s.deliveries, CreationTime())
    requires Ordered(s.idempotency, StampTime()) && Ordered(s.receipts, StampTime())
    ensures var s' := Retained(s, now, days);
            && OldestWent(s.outbox, s'.outbox, RowsDue(s.deliveries, now, days), PublicationTime())
            && OldestWent(s.deliveries, s'.deliveries, DeliveriesDue(s'.outbox, now, days), CreationTime())
            && OldestWent(s.idempotency, s'.idempotency, StampsDue(now, days.idempotency), StampTime())
            && OldestWent(s.receipts, s'.receipts, StampsDue(now, days.receipts), StampTime())
  {
    var s' := Retained(s, now, days);
    PurgedOldest(s.outbox, RowsDue(s.deliveries, now, days), PublicationTime());
    PurgedOldest(s.deliveries, DeliveriesDue(s'.outbox, now, days), CreationTime());
    PurgedOldest(s.idempotency, StampsDue(now, days.idempotency), StampTime());
    PurgedOldest(s.receipts, StampsDue(now, days.receipts), StampTime());
  }

  lemma PurgedOldest<T(!new)>(table: seq<T>, due: T -> bool, time: T -> int)
    requires Ordered(table, time)
    ensures OldestWent(table, Purged(table, due), due, time)
  {
    WithoutOldest(table, due, Least(BATCHES * BATCH, Eligible(table, due)), time);
  }

  lemma {:induction false} SomeEligible<T>(table: seq<T>, due: T -> bool, row: T)
    requires row in table && due(row)
    ensures Eligible(table, due) > 0
  {
    if row != table[0] { SomeEligible(table[1..], due, row); }
  }

  /** A row that is not due stays. A row that is due goes, unless 20,000 due rows have gone; in a table listed
      by a column they are no younger. */
  ghost predicate PurgesExactly<T(!new)>(table: seq<T>, left: seq<T>, due: T -> bool, time: T -> int) {
    forall row | row in table ::
      && (!due(row) ==> row in left)
      && (due(row) && row in left ==>
            && |table| - |left| == 20_000
            && forall gone | gone in table && gone !in left :: due(gone) && (Ordered(table, time) ==> time(gone) <= time(row)))
  }

  lemma PurgedExactly<T(!new)>(table: seq<T>, due: T -> bool, time: T -> int)
    ensures PurgesExactly(table, Purged(table, due), due, time)
  {
    var left := Purged(table, due);
    PurgedIs(table, due);
    if Ordered(table, time) { PurgedOldest(table, due, time); }
    WithoutCounts(table, due, Least(BATCHES * BATCH, Eligible(table, due)));
    forall row | row in left && due(row)
      ensures |table| - |left| == 20_000
    {
      SomeEligible(left, due, row);
    }
  }

  // ---- How long each table keeps its rows, written out ----

  /** An outbox row stays unless it is published, its days are over, and the event has a SUCCEEDED or
      DEAD_LETTERED attempt; then it goes, unless 20,000 such rows have gone, published no later. */
  lemma OutboxKept(s: Store, now: nat, days: Days, row: OutboxRow)
    requires row in s.outbox
    ensures var left := Retained(s, now, days).outbox;
            var over := && row.status == OutboxStatus.Published && row.publishedAt.Some?
                        && row.publishedAt.value + days.outbox * 86_400_000 < now
                        && exists d :: d in s.deliveries && d.event == row.id && (d.status == Succeeded || d.status == DeadLettered);
            && (!over ==> row in left)
            && (over && row in left ==>
                  && |s.outbox| - |left| == 20_000
                  && forall gone | gone in s.outbox && gone !in left ::
                       gone.publishedAt.Some? && (Ordered(s.outbox, PublicationTime()) ==> gone.publishedAt.value <= row.publishedAt.value))
  {
    PurgedExactly(s.outbox, RowsDue(s.deliveries, now, days), PublicationTime());
  }

  /** An attempt stays unless no outbox row of its event is left and its days are over; then it goes, unless
      20,000 such attempts have gone, made no later. */
  lemma DeliveriesKept(s: Store, now: nat, days: Days, d: Delivery)
    requires d in s.deliveries
    ensures var s' := Retained(s, now, days);
            var over := (forall row | row in s'.outbox :: row.id != d.event) && d.createdAt + days.outbox * 86_400_000 < now;
            && (!over ==> d in s'.deliveries)
            && (over && d in s'.deliveries ==>
                  && |s.deliveries| - |s'.deliveries| == 20_000
                  && (Ordered(s.deliveries, CreationTime()) ==>
                        forall gone | gone in s.deliveries && gone !in s'.deliveries :: gone.createdAt <= d.createdAt))
  {
    PurgedExactly(s.deliveries, DeliveriesDue(Retained(s, now, days).outbox, now, days), CreationTime());
  }

  /** Idempotency records and receipts stay for their days; then they go, unless 20,000 have gone that are no
      younger. */
  lemma KeptForTheirTime(s: Store, now: nat, days: Days)
    ensures var s' := Retained(s, now, days);
            && StampsKept(s.idempotency, s'.idempotency, now, days.idempotency)
            && StampsKept(s.receipts, s'.receipts, now, days.receipts)
  {
    PurgedExactly(s.idempotency, StampsDue(now, days.idempotency), StampTime());
    PurgedExactly(s.receipts, StampsDue(now, days.receipts), StampTime());
  }

  ghost predicate StampsKept(table: seq<Stamped>, left: seq<Stamped>, now: nat, days: nat) {
    forall r | r in table ::
      && (r.at + days * 86_400_000 >= now ==> r in left)
      && (r.at + days * 86_400_000 < now && r in left ==>
            && |table| - |left| == 20_000
            && (Ordered(table, StampTime()) ==> forall gone | gone in table && gone !in left :: gone.at <= r.at))
  }

  /** The columns by which the tables are listed: unpublished rows come first. */
  lemma ListedByColumns(s: Store)
    ensures Ordered(s.outbox, PublicationTime()) <==>
              forall i, j | 0 <= i < j < |s.outbox| ::
                var a, b := s.outbox[i], s.outbox[j];
                a != b && (a.publishedAt.Some? ==> b.publishedAt.Some? && a.publishedAt.value <= b.publishedAt.value)
    ensures Ordered(s.deliveries, CreationTime()) <==>
              forall i, j | 0 <= i < j < |s.deliveries| :: s.deliveries[i] != s.deliveries[j] && s.deliveries[i].createdAt <= s.deliveries[j].createdAt
    ensures Ordered(s.receipts, StampTime()) <==>
              forall i, j | 0 <= i < j < |s.receipts| :: s.receipts[i] != s.receipts[j] && s.receipts[i].at <= s.receipts[j].at
  {
  }

  /** No attempt goes while its outbox row is there, and no outbox row goes unless it is published, old
      and terminal. So an event without a terminal record keeps its row and all its attempts. */
  lemma RetentionIsSafe(s: Store, now: nat, days: Days, e: EventId)
    ensures var s' := Retained(s, now, days);
            && (forall row | row in s.outbox && row !in s'.outbox ::
                  row.status == OutboxStatus.Published && row.publishedAt.Some? && row.publishedAt.value + days.outbox * 86_400_000 < now
                  && exists d :: d in s.deliveries && d.event == row.id && (d.status == Succeeded || d.status == DeadLettered))
            && (InOutbox(s'.outbox, e) ==> forall d | d in s.deliveries && d.event == e :: d in s'.deliveries)
            && (InOutbox(s.outbox, e) && !Ended(s.deliveries, e) ==> InOutbox(s'.outbox, e))
            && (InOutbox(s'.outbox, e) ==> (Ended(s'.deliveries, e) <==> Ended(s.deliveries, e)))
  {
    var s' := Retained(s, now, days);
    PurgedIs(s.outbox, RowsDue(s.deliveries, now, days));
    PurgedIs(s.deliveries, DeliveriesDue(s'.outbox, now, days));
  }
}
