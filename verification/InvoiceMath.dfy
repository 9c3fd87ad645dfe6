/** `calculateInvoice`: invoice arithmetic carried out in double precision, next to
    the same calculation in exact integers.

    A double result is modelled by an arbitrary rounding function on the reals of
    which only two facts are used: it is monotone, and it leaves alone the numbers
    that a 53-bit significand can hold. */
module InvoiceMath {
  import opened Options

  const TWO53: int := 0x20_0000_0000_0000
  const MAX_SAFE: int := TWO53 - 1
  const COLUMN_LIMIT: int := 0x1_0000_0000  // INT UNSIGNED

  datatype Item = Item(described: bool, quantity: int, unitPrice: int)
  datatype Order = Order(items: seq<Item>, discount: int, rate: int)
  datatype Totals = Totals(lines: seq<int>, subtotal: int, discount: int, tax: int, total: int)

  datatype MathError = NoItems | BadDiscount | BadRate | RateTooHigh | NoDescription
                     | BadQuantity | BadPrice | BadLineTotal | BadSubtotal | DiscountTooHigh

  // ---- Rounding ----

  ghost predicate DoubleRounding(rnd: real -> real) {
    && (forall x: real, y: real {:trigger rnd(x), rnd(y)} :: x <= y ==> rnd(x) <= rnd(y))
    && (forall k: int {:trigger rnd(k as real)} :: 0 <= k <= TWO53 ==> rnd(k as real) == k as real)
    && (forall k: int {:trigger Fraction(k)} :: 0 <= k <= TWO53 ==> rnd(Fraction(k)) == Fraction(k))
  }

  /** k / 2^14: still a 53-bit number for every k up to 2^53. */
  function Fraction(k: int): real { k as real / 16384.0 }

  predicate Integral(x: real) { x == x.Floor as real }

  predicate SafeInteger(x: real, minimum: int) {
    Integral(x) && minimum as real <= x <= MAX_SAFE as real
  }

  predicate SafeInt(x: int, minimum: int) { minimum <= x <= MAX_SAFE }

  /** `Math.round`: the nearest integer, ties upwards. */
  function RoundHalfUp(x: real): int { (x + 0.5).Floor }

  // ---- The calculation as written, in doubles ----

  function CheckLine(rnd: real -> real, item: Item): Result<real, MathError> {
    if !item.described then Err(NoDescription)
    else if !SafeInt(item.quantity, 1) then Err(BadQuantity)
    else if !SafeInt(item.unitPrice, 0) then Err(BadPrice)
    else
      var lineTotal := rnd(item.quantity as real * item.unitPrice as real);
      if SafeInteger(lineTotal, 0) then Ok(lineTotal) else Err(BadLineTotal)
  }

  /** The `items.map` callback applied left to right; the first throw wins. */
  function CheckLines(rnd: real -> real, items: seq<Item>): (r: Result<seq<real>, MathError>)
    ensures r.Ok? ==> |r.value| == |items|
  {
    if items == [] then Ok([])
    else
      var init := CheckLines(rnd, items[..|items| - 1]);
      if init.Err? then init
      else
        var last := CheckLine(rnd, items[|items| - 1]);
        if last.Err? then Err(last.error) else Ok(init.value + [last.value])
  }

  /** `reduce((total, item) => total + item.lineTotalMinor, 0)`, one rounding per addition. */
  function Reduce(rnd: real -> real, lines: seq<real>): real {
    if lines == [] then 0.0
    else rnd(Reduce(rnd, lines[..|lines| - 1]) + lines[|lines| - 1])
  }

  function CalculateInvoice(rnd: real -> real, order: Order): Result<Totals, MathError> {
    if order.items == [] then Err(NoItems)
    else if !SafeInt(order.discount, 0) then Err(BadDiscount)
    else if !SafeInt(order.rate, 0) then Err(BadRate)
    else if order.rate > 10000 then Err(RateTooHigh)
    else
      var lines := CheckLines(rnd, order.items);
      if lines.Err? then Err(lines.error) else Totalled(rnd, lines.value, order)
  }

  function Totalled(rnd: real -> real, lines: seq<real>, order: Order): Result<Totals, MathError> {
    var subtotal := Reduce(rnd, lines);
    if !SafeInteger(subtotal, 0) then Err(BadSubtotal)
    else if order.discount as real > subtotal then Err(DiscountTooHigh)
    else
      var (tax, total) := Priced(rnd, subtotal, order.discount, order.rate);
      Ok(Totals(Floors(lines), subtotal.Floor, order.discount, tax, total))
  }

  /** The part of the calculation after the subtotal check. */
  function Priced(rnd: real -> real, subtotal: real, discount: int, rate: int): (int, int) {
    var taxable := rnd(subtotal - discount as real);
    var tax := TaxOn(rnd, taxable, rate);
    (tax, rnd(taxable + tax as real).Floor)
  }

  function TaxOn(rnd: real -> real, taxable: real, rate: int): int {
    RoundHalfUp(rnd(rnd(taxable * rate as real) / 10000.0))
  }

  function Floors(xs: seq<real>): seq<int> { seq(|xs|, i requires 0 <= i < |xs| => xs[i].Floor) }

  // ---- The calculation in exact integers ----

  function Sum(xs: seq<int>): int {
    if xs == [] then 0 else Sum(xs[..|xs| - 1]) + xs[|xs| - 1]
  }

  function LineTotal(item: Item): int { item.quantity * item.unitPrice }

  function Products(items: seq<Item>): (r: seq<int>) {
    seq(|items|, i requires 0 <= i < |items| => LineTotal(items[i]))
  }

  function ItemError(item: Item): Option<MathError> {
    if !item.described then Some(NoDescription)
    else if !SafeInt(item.quantity, 1) then Some(BadQuantity)
    else if !SafeInt(item.unitPrice, 0) then Some(BadPrice)
    else if !SafeInt(LineTotal(item), 0) then Some(BadLineTotal)
    else None
  }

  function FirstError(items: seq<Item>): Option<MathError> {
    if items == [] then None
    else
      var init := FirstError(items[..|items| - 1]);
      if init.Some? then init else ItemError(items[|items| - 1])
  }

  /** Nearest multiple, ties upwards. */
  function Tax(taxable: int, rate: int): int { (taxable * rate + 5000) / 10000 }

  function ExactInvoice(order: Order): (r: Result<Totals, MathError>)
    ensures r.Ok? ==> |r.value.lines| == |order.items|
  {
    if order.items == [] then Err(NoItems)
    else if !SafeInt(order.discount, 0) then Err(BadDiscount)
    else if !SafeInt(order.rate, 0) then Err(BadRate)
    else if order.rate > 10000 then Err(RateTooHigh)
    else if FirstError(order.items).Some? then Err(FirstError(order.items).value)
    else ExactlyTotalled(Products(order.items), order)
  }

  function ExactlyTotalled(lines: seq<int>, order: Order): Result<Totals, MathError> {
    var subtotal := Sum(lines);
    if subtotal > MAX_SAFE then Err(BadSubtotal)
    else if order.discount > subtotal then Err(DiscountTooHigh)
    else
      var tax := Tax(subtotal - order.discount, order.rate);
      Ok(Totals(lines, subtotal, order.discount, tax, subtotal - order.discount + tax))
  }

  // ---- The safe-integer checks are sufficient ----

  lemma ExactBelow(rnd: real -> real, k: int)
    requires DoubleRounding(rnd) && 0 <= k
    ensures k <= TWO53 ==> rnd(k as real) == k as real
    ensures k > TWO53 ==> rnd(k as real) >= TWO53 as real
  {
    assert rnd(TWO53 as real) == TWO53 as real;
  }

  lemma RealProduct(a: int, b: int)
    ensures a as real * b as real == (a * b) as real
  {
  }

  /** The checks of a line, in order; the one on the rounded product accepts exactly the products that are
      safe integers, and then the product is exact. */
  lemma LineChecked(rnd: real -> real, item: Item)
    requires DoubleRounding(rnd)
    ensures CheckLine(rnd, item) ==
            if !item.described then Err(NoDescription)
            else if !(1 <= item.quantity <= 9_007_199_254_740_991) then Err(BadQuantity)
            else if !(0 <= item.unitPrice <= 9_007_199_254_740_991) then Err(BadPrice)
            else if item.quantity * item.unitPrice > 9_007_199_254_740_991 then Err(BadLineTotal)
            else Ok((item.quantity * item.unitPrice) as real)
    ensures CheckLine(rnd, item) == if ItemError(item).Some? then Err(ItemError(item).value) else Ok(LineTotal(item) as real)
  {
    if item.described && SafeInt(item.quantity, 1) && SafeInt(item.unitPrice, 0) {
      var k := LineTotal(item);
      RealProduct(item.quantity, item.unitPrice);
      assert 0 <= k;
      ExactBelow(rnd, k);
    }
  }

  function Reals(xs: seq<int>): seq<real> { seq(|xs|, i requires 0 <= i < |xs| => xs[i] as real) }

  lemma {:induction false} LinesChecked(rnd: real -> real, items: seq<Item>)
    requires DoubleRounding(rnd)
    ensures FirstError(items).Some? ==> CheckLines(rnd, items) == Err(FirstError(items).value)
    ensures FirstError(items).None? ==> CheckLines(rnd, items) == Ok(Reals(Products(items)))
    ensures FirstError(items).None? ==> forall k | 0 <= k < |items| :: 0 <= Products(items)[k] <= MAX_SAFE
  {
    if items == [] {
      assert Reals(Products(items)) == [];
    } else {
      var n := |items| - 1;
      LinesChecked(rnd, items[..n]);
      LineChecked(rnd, items[n]);
      if FirstError(items).None? {
        assert Products(items) == Products(items[..n]) + [LineTotal(items[n])];
        assert Reals(Products(items)) == Reals(Products(items[..n])) + [LineTotal(items[n]) as real];
      }
    }
  }

  /** The unchecked reduce: as long as the exact sum is below 2^53 every partial sum is
      exact, and from the first partial sum that is not, the result stays at or above 2^53. */
  lemma {:induction false} ReduceExactOrHuge(rnd: real -> real, lines: seq<int>)
    requires DoubleRounding(rnd)
    requires forall k | 0 <= k < |lines| :: 0 <= lines[k] <= MAX_SAFE
    ensures 0 <= Sum(lines)
    ensures Sum(lines) <= TWO53 ==> Reduce(rnd, Reals(lines)) == Sum(lines) as real
    ensures Sum(lines) > TWO53 ==> Reduce(rnd, Reals(lines)) >= TWO53 as real
  {
    if lines != [] {
      var n := |lines| - 1;
      ReduceExactOrHuge(rnd, lines[..n]);
      assert Reals(lines)[..n] == Reals(lines[..n]);
      var before := Reduce(rnd, Reals(lines[..n]));
      assert Reduce(rnd, Reals(lines)) == rnd(before + lines[n] as real);
      if Sum(lines[..n]) <= TWO53 {
        assert before + lines[n] as real == Sum(lines) as real;
        ExactBelow(rnd, Sum(lines));
      } else {
        assert rnd(TWO53 as real) <= rnd(before + lines[n] as real);
      }
    }
  }

  /** Every partial sum of an accepted reduce was exact. */
  lemma PartialSumsExact(rnd: real -> real, lines: seq<int>, k: nat)
    requires DoubleRounding(rnd)
    requires forall j | 0 <= j < |lines| :: 0 <= lines[j] <= MAX_SAFE
    requires SafeInteger(Reduce(rnd, Reals(lines)), 0) && k <= |lines|
    ensures Reduce(rnd, Reals(lines[..k])) == Sum(lines[..k]) as real
  {
    ReduceExactOrHuge(rnd, lines);
    SumPrefix(lines, k);
    ReduceExactOrHuge(rnd, lines[..k]);
  }

  lemma {:induction false} SumPrefix(lines: seq<int>, k: nat)
    requires forall j | 0 <= j < |lines| :: 0 <= lines[j]
    requires k <= |lines|
    ensures 0 <= Sum(lines[..k]) <= Sum(lines)
  {
    if lines == [] {
      assert lines[..k] == [];
    } else {
      var n := |lines| - 1;
      SumPrefix(lines[..n], if k <= n then k else n);
      if k <= n {
        assert lines[..n][..k] == lines[..k];
      } else {
        assert lines[..k] == lines && lines[..n][..n] == lines[..n];
      }
    }
  }

  lemma SumAround(pre: seq<int>, x: int, post: seq<int>)
    ensures Sum(pre + ([x] + post)) == Sum(pre + post) + x
  {
    SumConcat(pre, [x] + post);
    SumConcat([x], post);
    SumConcat(pre, post);
    assert Sum([x]) == Sum([]) + x by { assert [x][..0] == []; }
  }

  lemma {:induction false} SumConcat(a: seq<int>, b: seq<int>)
    ensures Sum(a + b) == Sum(a) + Sum(b)
  {
    if b == [] {
      assert a + b == a;
    } else {
      var n := |b| - 1;
      assert (a + b)[..|a| + n] == a + b[..n];
      SumConcat(a, b[..n]);
    }
  }

  // ---- The double calculation refines the exact one ----

  /** One half-up rounding of a quotient: the error of the double division never moves the
      result, because no multiple of 1/10000 other than a tie is within 2^-14 of a tie. */
  lemma RoundedQuotient(rnd: real -> real, t: int)
    requires DoubleRounding(rnd) && 0 <= t < COLUMN_LIMIT * 10000
    ensures RoundHalfUp(rnd(t as real / 10000.0)) == (t + 5000) / 10000
  {
    var n := (t + 5000) / 10000;
    var x := t as real / 10000.0;
    assert 10000 * n <= t + 5000 <= 10000 * n + 9999;
    assert (10000 * n - 5000) as real <= t as real <= (10000 * n + 4999) as real;
    // below: x is at least n - 1/2
    if n > 0 {
      var lo := 16384 * n - 8192;
      assert Fraction(lo) == n as real - 0.5;
      assert Fraction(lo) <= x;
      assert n as real - 0.5 <= rnd(x);
    } else {
      assert rnd(0 as real) == 0.0;
      assert rnd(x) >= 0.0;
    }
    // above: x is at most n + 4999/10000, which is under n + 1/2 - 2^-14
    var hi := 16384 * n + 8191;
    assert Fraction(hi) == n as real + 8191.0 / 16384.0;
    assert x <= n as real + 4999.0 / 10000.0 <= Fraction(hi);
    assert rnd(x) <= rnd(Fraction(hi)) == Fraction(hi) < n as real + 0.5;
    assert n as real <= rnd(x) + 0.5 < n as real + 1.0;
  }

  /** The check on the rounded subtotal accepts exactly the sums that are safe integers. */
  lemma SubtotalChecked(rnd: real -> real, lines: seq<int>)
    requires DoubleRounding(rnd)
    requires forall k | 0 <= k < |lines| :: 0 <= lines[k] <= MAX_SAFE
    ensures SafeInteger(Reduce(rnd, Reals(lines)), 0) <==> Sum(lines) <= MAX_SAFE
    ensures Sum(lines) <= MAX_SAFE ==> Reduce(rnd, Reals(lines)) == Sum(lines) as real
    ensures 0 <= Sum(lines)
  {
    ReduceExactOrHuge(rnd, lines);
  }

  /** For every rounding and every request: both calculations refuse with the same error, or
      both accept with the same lines and subtotal; and if the subtotal fits its INT UNSIGNED
      column they agree on the tax and the total too. */
  lemma DoublesAreExact(rnd: real -> real, order: Order)
    requires DoubleRounding(rnd)
    ensures Agree(CalculateInvoice(rnd, order), ExactInvoice(order))
  {
    if order.items != [] && SafeInt(order.discount, 0) && SafeInt(order.rate, 0) && order.rate <= 10000 {
      LinesChecked(rnd, order.items);
      if FirstError(order.items).None? {
        TotalsAgree(rnd, Products(order.items), order);
      }
    }
  }

  predicate Agree(d: Result<Totals, MathError>, e: Result<Totals, MathError>) {
    match e
    case Err(_) => d == e
    case Ok(t) =>
      && d.Ok? && d.value.lines == t.lines && d.value.subtotal == t.subtotal
      && (t.subtotal < COLUMN_LIMIT ==> d == e)
  }

  lemma TotalsAgree(rnd: real -> real, lines: seq<int>, order: Order)
    requires DoubleRounding(rnd)
    requires forall k | 0 <= k < |lines| :: 0 <= lines[k] <= MAX_SAFE
    requires SafeInt(order.discount, 0) && 0 <= order.rate <= 10000
    ensures Agree(Totalled(rnd, Reals(lines), order), ExactlyTotalled(lines, order))
  {
    ReducedExactly(rnd, lines);
    PricesExactly(rnd, Sum(lines), order.discount, order.rate);
    PricedAgree(rnd, lines, order);
  }

  /** The rounded subtotal is exact as far as it is accepted. */
  predicate ExactSubtotal(rnd: real -> real, lines: seq<int>) {
    && 0 <= Sum(lines)
    && (SafeInteger(Reduce(rnd, Reals(lines)), 0) <==> Sum(lines) <= MAX_SAFE)
    && (Sum(lines) <= MAX_SAFE ==> Reduce(rnd, Reals(lines)) == Sum(lines) as real)
  }

  /** Rounded tax and total are exact as far as the subtotal is storable. */
  predicate ExactPrice(rnd: real -> real, subtotal: int, discount: int, rate: int) {
    0 <= discount <= subtotal < COLUMN_LIMIT ==>
      var tax := Tax(subtotal - discount, rate);
      Priced(rnd, subtotal as real, discount, rate) == (tax, subtotal - discount + tax)
  }

  lemma ReducedExactly(rnd: real -> real, lines: seq<int>)
    requires DoubleRounding(rnd) && forall k | 0 <= k < |lines| :: 0 <= lines[k] <= MAX_SAFE
    ensures ExactSubtotal(rnd, lines)
  {
    SubtotalChecked(rnd, lines);
  }

  lemma PricesExactly(rnd: real -> real, subtotal: int, discount: int, rate: int)
    requires DoubleRounding(rnd) && 0 <= rate <= 10000
    ensures ExactPrice(rnd, subtotal, discount, rate)
  {
    PricedExactly(rnd, subtotal, discount, rate);
  }

  lemma PricedAgree(rnd: real -> real, lines: seq<int>, order: Order)
    requires ExactSubtotal(rnd, lines) && 0 <= order.discount && ExactPrice(rnd, Sum(lines), order.discount, order.rate)
    ensures Agree(Totalled(rnd, Reals(lines), order), ExactlyTotalled(lines, order))
  {
    FloorsOfReals(lines);
    if order.discount <= Sum(lines) <= MAX_SAFE { TotalledIs(rnd, Reals(lines), order, Sum(lines)); }
  }

  lemma FloorsOfReals(lines: seq<int>)
    ensures Floors(Reals(lines)) == lines
  {
  }

  lemma TotalledIs(rnd: real -> real, lines: seq<real>, order: Order, subtotal: int)
    requires SafeInteger(Reduce(rnd, lines), 0) && Reduce(rnd, lines) == subtotal as real && order.discount <= subtotal
    ensures var priced := Priced(rnd, subtotal as real, order.discount, order.rate);
            Totalled(rnd, lines, order) == Ok(Totals(Floors(lines), subtotal, order.discount, priced.0, priced.1))
  {
  }

  lemma PricedExactly(rnd: real -> real, subtotal: int, discount: int, rate: int)
    requires DoubleRounding(rnd)
    ensures 0 <= discount <= subtotal < COLUMN_LIMIT && 0 <= rate <= 10000 ==>
              var tax := Tax(subtotal - discount, rate);
              Priced(rnd, subtotal as real, discount, rate) == (tax, subtotal - discount + tax)
  {
    if 0 <= discount <= subtotal < COLUMN_LIMIT && 0 <= rate <= 10000 {
      var taxable := subtotal - discount;
      TaxBounds(taxable, rate);
      TaxExactly(rnd, taxable, rate);
      PricedWith(rnd, subtotal, discount, rate, Tax(taxable, rate));
    }
  }

  lemma PricedWith(rnd: real -> real, subtotal: int, discount: int, rate: int, tax: int)
    requires DoubleRounding(rnd)
    requires 0 <= discount <= subtotal < COLUMN_LIMIT && 0 <= tax < COLUMN_LIMIT
    requires TaxOn(rnd, (subtotal - discount) as real, rate) == tax
    ensures Priced(rnd, subtotal as real, discount, rate) == (tax, subtotal - discount + tax)
  {
    assert subtotal as real - discount as real == (subtotal - discount) as real;
    ExactBelow(rnd, subtotal - discount);
    SumExactly(rnd, subtotal - discount, tax);
  }

  lemma SumExactly(rnd: real -> real, a: int, b: int)
    requires DoubleRounding(rnd)
    requires 0 <= a < COLUMN_LIMIT && 0 <= b < COLUMN_LIMIT
    ensures rnd(a as real + b as real).Floor == a + b
  {
    assert a as real + b as real == (a + b) as real;
    ExactBelow(rnd, a + b);
  }

  lemma TaxExactly(rnd: real -> real, taxable: int, rate: int)
    requires DoubleRounding(rnd)
    requires 0 <= taxable < COLUMN_LIMIT && 0 <= rate <= 10000
    ensures TaxOn(rnd, taxable as real, rate) == Tax(taxable, rate)
  {
    var t := taxable * rate;
    assert 0 <= t < COLUMN_LIMIT * 10000 by { ProductBound(taxable, rate); }
    RealProduct(taxable, rate);
    ExactBelow(rnd, t);
    RoundedQuotient(rnd, t);
  }

  lemma ProductBound(taxable: int, rate: int)
    requires 0 <= taxable < COLUMN_LIMIT && 0 <= rate <= 10000
    ensures 0 <= taxable * rate < COLUMN_LIMIT * 10000
  {
    MulMonotone(taxable, rate, 10000);
    MulMonotone(taxable, 0, rate);
  }

  lemma MulMonotone(a: int, b: int, c: int)
    requires 0 <= a && b <= c
    ensures a * b <= a * c
  {
    assert 0 <= a * (c - b);
  }

  // ---- The order of the lines does not matter ----

  lemma {:induction false} FirstErrorNone(items: seq<Item>)
    ensures FirstError(items).None? <==> forall item | item in items :: ItemError(item).None?
  {
    if items != [] {
      FirstErrorNone(items[..|items| - 1]);
      assert items == items[..|items| - 1] + [items[|items| - 1]];
    }
  }

  lemma ProductsAround(pre: seq<Item>, x: Item, post: seq<Item>)
    ensures Sum(Products(pre + ([x] + post))) == Sum(Products(pre + post)) + LineTotal(x)
  {
    assert Products(pre + ([x] + post)) == Products(pre) + ([LineTotal(x)] + Products(post));
    assert Products(pre + post) == Products(pre) + Products(post);
    SumAround(Products(pre), LineTotal(x), Products(post));
  }

  lemma {:induction false} SubtotalPermutation(a: seq<Item>, b: seq<Item>)
    requires multiset(a) == multiset(b)
    ensures Sum(Products(a)) == Sum(Products(b))
  {
    assert |multiset(a)| == |a| && |multiset(b)| == |b|;
    if a != [] {
      var n := |a| - 1;
      assert a[n] in multiset(b);
      var i :| 0 <= i < |b| && b[i] == a[n];
      TakenOut(a, b, i);
      ProductsLast(a);
      ProductsAround(b[..i], b[i], b[i + 1..]);
      assert b == b[..i] + ([b[i]] + b[i + 1..]);
      SubtotalPermutation(a[..n], b[..i] + b[i + 1..]);
    }
  }

  lemma ProductsLast(items: seq<Item>)
    requires items != []
    ensures Sum(Products(items)) == Sum(Products(items[..|items| - 1])) + LineTotal(items[|items| - 1])
  {
    assert Products(items)[..|items| - 1] == Products(items[..|items| - 1]);
  }

  /** The same item is taken out of two listings of one bag. */
  lemma TakenOut<T>(a: seq<T>, b: seq<T>, i: nat)
    requires multiset(a) == multiset(b) && a != [] && i < |b| && b[i] == a[|a| - 1]
    ensures multiset(a[..|a| - 1]) == multiset(b[..i] + b[i + 1..])
  {
    var x := b[i];
    assert a == a[..|a| - 1] + [x];
    assert multiset(a[..|a| - 1]) == multiset(a) - multiset{x};
    assert b == b[..i] + ([x] + b[i + 1..]);
    BagAround(b[..i], x, b[i + 1..]);
    assert multiset(b[..i] + b[i + 1..]) == multiset(b) - multiset{x};
  }

  lemma BagAround<T>(pre: seq<T>, x: T, post: seq<T>)
    ensures multiset(pre + ([x] + post)) == multiset(pre + post) + multiset{x}
  {
  }

  /** For every rounding, requests that list the same lines in another order are accepted together, and
      then have the same subtotal, tax and total: no rounding of the unchecked sum depends on the order. */
  lemma OrderOfLinesIrrelevant(rnd: real -> real, a: Order, b: Order)
    requires DoubleRounding(rnd)
    requires multiset(a.items) == multiset(b.items) && a.discount == b.discount && a.rate == b.rate
    ensures var x, y := CalculateInvoice(rnd, a), CalculateInvoice(rnd, b);
            && (x.Ok? <==> y.Ok?)
            && (x.Ok? ==> x.value.subtotal == y.value.subtotal && x.value.tax == y.value.tax && x.value.total == y.value.total)
  {
    assert |multiset(a.items)| == |a.items| && |multiset(b.items)| == |b.items|;
    LinesChecked(rnd, a.items);
    LinesChecked(rnd, b.items);
    FirstErrorNone(a.items);
    FirstErrorNone(b.items);
    assert forall item :: item in a.items <==> item in multiset(a.items);
    assert forall item :: item in b.items <==> item in multiset(b.items);
    SubtotalPermutation(a.items, b.items);
    if FirstError(a.items).None? {
      SubtotalChecked(rnd, Products(a.items));
      SubtotalChecked(rnd, Products(b.items));
    }
  }

  // ---- What an accepted order costs, written out ----

  /** The sum of quantity times unit price. */
  function Worth(items: seq<Item>): int {
    if items == [] then 0
    else
      var item := items[|items| - 1];
      Worth(items[..|items| - 1]) + item.quantity * item.unitPrice
  }

  lemma {:induction false} WorthIsSum(items: seq<Item>)
    ensures Worth(items) == Sum(Products(items))
  {
    if items != [] {
      WorthIsSum(items[..|items| - 1]);
      ProductsLast(items);
    }
  }

  /** Described, with quantity, price and product in range. */
  predicate Sound(item: Item) {
    && item.described && 1 <= item.quantity <= 9_007_199_254_740_991 && 0 <= item.unitPrice <= 9_007_199_254_740_991
    && item.quantity * item.unitPrice <= 9_007_199_254_740_991
  }

  predicate Acceptable(order: Order) {
    && order.items != [] && 0 <= order.rate <= 10_000 && (forall item | item in order.items :: Sound(item))
    && 0 <= order.discount <= Worth(order.items) <= 9_007_199_254_740_991
  }

  lemma SoundIsChecked(items: seq<Item>)
    ensures FirstError(items).None? <==> forall item | item in items :: Sound(item)
  {
    FirstErrorNone(items);
    forall item | item in items
      ensures ItemError(item).None? <==> Sound(item)
    {
      if Sound(item) { MulMonotone(item.quantity, 0, item.unitPrice); }
      if ItemError(item).None? { MulMonotone(item.quantity, 0, item.unitPrice); }
    }
  }

  /** The figures of an accepted order: each line is its quantity times its price, the subtotal their sum,
      the tax the half-up rounding of the discounted subtotal at the rate, the total both together. */
  predicate Costs(order: Order, t: Totals) {
    && |t.lines| == |order.items|
    && (forall i | 0 <= i < |order.items| :: t.lines[i] == order.items[i].quantity * order.items[i].unitPrice)
    && t.subtotal == Worth(order.items) && t.discount == order.discount
  }

  predicate Taxes(order: Order, t: Totals) {
    var taxable := Worth(order.items) - order.discount;
    -5000 < 10_000 * t.tax - taxable * order.rate <= 5000 && t.total == taxable + t.tax
  }

  lemma ExactlyWritten(order: Order)
    ensures ExactInvoice(order).Ok? <==> Acceptable(order)
    ensures ExactInvoice(order).Ok? ==> Costs(order, ExactInvoice(order).value) && Taxes(order, ExactInvoice(order).value)
  {
    WorthIsSum(order.items);
    SoundIsChecked(order.items);
    if ExactInvoice(order).Ok? {
      SoundSum(order.items);
      TaxBounds(Worth(order.items) - order.discount, order.rate);
    }
  }

  lemma SoundSum(items: seq<Item>)
    requires forall item | item in items :: Sound(item)
    ensures 0 <= Worth(items)
    decreases |items|
  {
    if items != [] {
      var item := items[|items| - 1];
      assert items == items[..|items| - 1] + [item];
      assert item in items && Sound(item);
      SoundSum(items[..|items| - 1]);
      MulMonotone(item.quantity, 0, item.unitPrice);
    }
  }

  /** For every rounding: an order is accepted exactly when its items, rate, discount and sums are in
      range, with the lines and the subtotal that multiplication and addition give; and if the subtotal
      fits its column, with the exact half-up tax. */
  lemma InvoiceWritten(rnd: real -> real, order: Order)
    requires DoubleRounding(rnd)
    ensures var r := CalculateInvoice(rnd, order);
            && (r.Ok? <==> Acceptable(order))
            && (r.Ok? ==> Costs(order, r.value))
            && (r.Ok? && Worth(order.items) < 4_294_967_296 ==> Taxes(order, r.value))
  {
    DoublesAreExact(rnd, order);
    ExactlyWritten(order);
  }

  /** The refusals that come before any line is looked at, and after all of them. */
  lemma RefusedInOrder(rnd: real -> real, order: Order)
    requires DoubleRounding(rnd) && CalculateInvoice(rnd, order).Err?
    ensures var error, items := CalculateInvoice(rnd, order).error, order.items;
            if items == [] then error == NoItems
            else if !(0 <= order.discount <= 9_007_199_254_740_991) then error == BadDiscount
            else if !(0 <= order.rate <= 9_007_199_254_740_991) then error == BadRate
            else if order.rate > 10_000 then error == RateTooHigh
            else if exists item :: item in items && !Sound(item) then error in {NoDescription, BadQuantity, BadPrice, BadLineTotal}
            else error == if Worth(items) > 9_007_199_254_740_991 then BadSubtotal else DiscountTooHigh
  {
    DoublesAreExact(rnd, order);
    WorthIsSum(order.items);
    SoundIsChecked(order.items);
    LineErrors(order.items);
  }

  lemma {:induction false} LineErrors(items: seq<Item>)
    ensures FirstError(items).Some? ==> FirstError(items).value in {NoDescription, BadQuantity, BadPrice, BadLineTotal}
  {
    if items != [] { LineErrors(items[..|items| - 1]); }
  }

  function Repeated(item: Item, n: nat): seq<Item> { if n == 0 then [] else Repeated(item, n - 1) + [item] }

  lemma {:induction false} RepeatedIs(item: Item, n: nat)
    ensures |Repeated(item, n)| == n && Worth(Repeated(item, n)) == n * (item.quantity * item.unitPrice)
    ensures forall x | x in Repeated(item, n) :: x == item
  {
    if n > 0 {
      RepeatedIs(item, n - 1);
      assert Repeated(item, n)[..n - 1] == Repeated(item, n - 1);
    }
  }

  lemma OneLine(item: Item)
    ensures Worth([item]) == item.quantity * item.unitPrice
  {
    assert [item][..0] == [];
  }

  /** One line of q units costs what q lines of one unit cost, and a line of one unit costs its price. */
  lemma UnitsOrLines(rnd: real -> real, one: Order, many: Order, q: nat, price: int)
    requires one.items == [Item(true, q, price)] && many.items == Repeated(Item(true, 1, price), q)
    requires one.discount == many.discount && one.rate == many.rate
    requires DoubleRounding(rnd) && CalculateInvoice(rnd, one).Ok? && CalculateInvoice(rnd, many).Ok?
    ensures var a, b := CalculateInvoice(rnd, one).value, CalculateInvoice(rnd, many).value;
            && a.subtotal == b.subtotal == q * price && a.tax == b.tax && a.total == b.total
            && a.lines == [q * price] && forall i | 0 <= i < |b.lines| :: b.lines[i] == price
  {
    RepeatedIs(Item(true, 1, price), q);
    OneLine(Item(true, q, price));
    InvoiceWritten(rnd, one);
    InvoiceWritten(rnd, many);
    SameSubtotal(rnd, one, many);
    RepeatedLines(many, CalculateInvoice(rnd, many).value, q, price);
  }

  lemma RepeatedLines(many: Order, t: Totals, q: nat, price: int)
    requires many.items == Repeated(Item(true, 1, price), q) && Costs(many, t)
    ensures forall i | 0 <= i < |t.lines| :: t.lines[i] == price
  {
    RepeatedIs(Item(true, 1, price), q);
    assert forall i | 0 <= i < |many.items| :: many.items[i] in many.items;
  }

  /** Tax and total depend on the subtotal only. */
  lemma SameSubtotal(rnd: real -> real, a: Order, b: Order)
    requires DoubleRounding(rnd) && CalculateInvoice(rnd, a).Ok? && CalculateInvoice(rnd, b).Ok?
    requires Worth(a.items) == Worth(b.items) && a.discount == b.discount && a.rate == b.rate
    ensures CalculateInvoice(rnd, a).value.tax == CalculateInvoice(rnd, b).value.tax
    ensures CalculateInvoice(rnd, a).value.total == CalculateInvoice(rnd, b).value.total
  {
    ReducedTo(rnd, a);
    ReducedTo(rnd, b);
  }

  lemma ReducedTo(rnd: real -> real, order: Order)
    requires DoubleRounding(rnd) && CalculateInvoice(rnd, order).Ok?
    ensures var t, priced := CalculateInvoice(rnd, order).value, Priced(rnd, Worth(order.items) as real, order.discount, order.rate);
            t.tax == priced.0 && t.total == priced.1
  {
    LinesChecked(rnd, order.items);
    WorthIsSum(order.items);
    SubtotalChecked(rnd, Products(order.items));
  }

  // ---- What the tax figure means ----

  lemma TaxBounds(taxable: int, rate: int)
    requires 0 <= taxable && 0 <= rate <= 10000
    ensures -5000 <= 10000 * Tax(taxable, rate) - taxable * rate <= 5000
    ensures 10000 * Tax(taxable, rate) - taxable * rate > -5000  // a tie goes up
    ensures 0 <= Tax(taxable, rate) <= taxable
  {
    assert taxable * rate <= taxable * 10000;
    assert 0 <= taxable * rate;
  }

  lemma TaxMonotone(a: int, b: int, r: int, s: int)
    requires 0 <= a <= b && 0 <= r <= s <= 10000
    ensures a + Tax(a, r) <= b + Tax(b, s)
  {
    assert a * r <= b * r <= b * s;
  }

  function TaxPerLine(lines: seq<int>, rate: int): int {
    if lines == [] then 0 else TaxPerLine(lines[..|lines| - 1], rate) + Tax(lines[|lines| - 1], rate)
  }

  lemma {:induction false} LineTaxesBounded(lines: seq<int>, rate: int)
    requires 0 <= rate <= 10000 && forall k | 0 <= k < |lines| :: 0 <= lines[k]
    ensures -5000 * |lines| <= 10000 * TaxPerLine(lines, rate) - Sum(lines) * rate <= 5000 * |lines|
  {
    if lines != [] {
      var n := |lines| - 1;
      LineTaxesBounded(lines[..n], rate);
      TaxBounds(lines[n], rate);
      assert Sum(lines) * rate == Sum(lines[..n]) * rate + lines[n] * rate;
    }
  }

  /** With no discount, taxing the invoice and taxing its n lines differ by at most (n + 1) / 2. */
  lemma InvoiceTaxVersusLineTax(lines: seq<int>, rate: int)
    requires 0 <= rate <= 10000 && forall k | 0 <= k < |lines| :: 0 <= lines[k]
    ensures -(|lines| + 1) <= 2 * (Tax(Sum(lines), rate) - TaxPerLine(lines, rate)) <= |lines| + 1
  {
    LineTaxesBounded(lines, rate);
    SumPrefix(lines, 0);
    TaxBounds(Sum(lines), rate);
  }
}
