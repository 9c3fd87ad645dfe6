/** How the sums and lookups over the payment and refund tables react to one insert or update. */
module LedgerRows {
  import opened Options
  import opened Ledger

  lemma {:induction false} FoundRow(ps: seq<Payment>, key: ProviderKey) returns (i: nat)
    requires FindPayment(ps, key).Some?
    ensures i < |ps| && ps[i] == FindPayment(ps, key).value
  {
    i := |ps| - 1;
    if ps[i].key != key {
      i := FoundRow(ps[..i], key);
    }
  }

  lemma {:induction false} MissingRow(ps: seq<Payment>, key: ProviderKey)
    requires FindPayment(ps, key).None?
    ensures forall i | 0 <= i < |ps| :: ps[i].key != key
  {
    if ps != [] {
      MissingRow(ps[..|ps| - 1], key);
    }
  }

  lemma InsertPayment(ps: seq<Payment>, p: Payment, id: InvoiceId, key: ProviderKey)
    ensures CapturedSum(ps + [p], id) == CapturedSum(ps, id) + if p.invoice == id then p.amount else 0
    ensures RefundedSum(ps + [p], id) == RefundedSum(ps, id) + if p.invoice == id then p.refunded else 0
    ensures FindPayment(ps + [p], key) == if p.key == key then Some(p) else FindPayment(ps, key)
  {
    assert (ps + [p])[..|ps|] == ps;
  }

  /** Updating an existing row moves both sums of its invoice by the difference and no other sum;
      no other key finds a different row. */
  lemma {:induction false} UpdatePayment(ps: seq<Payment>, row: Payment, id: InvoiceId, key: ProviderKey)
    requires FindPayment(ps, row.key).Some? && FindPayment(ps, row.key).value.invoice == row.invoice
    ensures var p, after := FindPayment(ps, row.key).value, SetPayment(ps, row);
            && CapturedSum(after, id) == CapturedSum(ps, id) + (if row.invoice == id then row.amount - p.amount else 0)
            && RefundedSum(after, id) == RefundedSum(ps, id) + (if row.invoice == id then row.refunded - p.refunded else 0)
            && FindPayment(after, key) == (if row.key == key then Some(row) else FindPayment(ps, key))
  {
    var n := |ps| - 1;
    var last := ps[n];
    if last.key == row.key {
      InsertPayment(ps[..n], row, id, key);
    } else {
      UpdatePayment(ps[..n], row, id, key);
      InsertPayment(SetPayment(ps[..n], row), last, id, key);
    }
  }

  lemma {:induction false} NoRowsNoSum(ps: seq<Payment>, id: InvoiceId)
    requires forall p | p in ps :: p.invoice != id
    ensures CapturedSum(ps, id) == 0 && RefundedSum(ps, id) == 0
  {
    if ps != [] {
      assert forall p | p in ps[..|ps| - 1] :: p in ps;
      NoRowsNoSum(ps[..|ps| - 1], id);
      assert ps[|ps| - 1] in ps;
    }
  }
}
