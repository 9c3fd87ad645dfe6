/** Two values get the same text exactly when they are equal up to the order of object keys. */
module CanonicalJsonOrder {
  import opened CanonicalJson
  import opened CanonicalJsonProof

  // ---- Code-unit order ----

  lemma {:induction false} LessIsTotal(a: Text, b: Text)
    ensures a == b || Less(a, b) || Less(b, a)
    ensures !(Less(a, b) && Less(b, a)) && !Less(a, a)
  {
    if a != [] {
      LessIsTotal(a[1..], a[1..]);
      if b != [] && a[0] == b[0] {
        LessIsTotal(a[1..], b[1..]);
        assert a == [a[0]] + a[1..] && b == [b[0]] + b[1..];
      }
    }
  }

  lemma {:induction false} LessIsTransitive(a: Text, b: Text, c: Text)
    requires Less(a, b) && Less(b, c)
    ensures Less(a, c)
  {
    if a != [] && a[0] == b[0] == c[0] {
      LessIsTransitive(a[1..], b[1..], c[1..]);
    }
  }

  // ---- Sorting entries with distinct keys ----

  predicate DistinctKeys<T>(es: seq<Entry<T>>) {
    forall i, j | 0 <= i < j < |es| :: es[i].key != es[j].key
  }

  predicate Sorted<T>(es: seq<Entry<T>>) {
    forall i, j | 0 <= i < j < |es| :: Less(es[i].key, es[j].key)
  }

  ghost predicate SameMembers<T(!new)>(a: seq<Entry<T>>, b: seq<Entry<T>>) {
    forall e :: e in a <==> e in b
  }

  lemma {:induction false} InsertKeepsSorted<T(!new)>(e: Entry<T>, s: seq<Entry<T>>)
    requires Sorted(s) && forall i | 0 <= i < |s| :: s[i].key != e.key
    ensures Sorted(Insert(e, s)) && SameMembers(Insert(e, s), [e] + s)
  {
    if s != [] {
      var r := Insert(e, s);
      if Less(s[0].key, e.key) {
        InsertKeepsSorted(e, s[1..]);
        var tail := Insert(e, s[1..]);
        assert s == [s[0]] + s[1..];
        forall j | 0 <= j < |tail|
          ensures Less(s[0].key, tail[j].key)
        {
          assert tail[j] in [e] + s[1..];
        }
        assert SameMembers(r, [e] + s);
      } else {
        LessIsTotal(s[0].key, e.key);
        forall j | 0 <= j < |s|
          ensures Less(e.key, s[j].key)
        {
          if j > 0 { LessIsTransitive(e.key, s[0].key, s[j].key); }
        }
      }
    }
  }

  lemma {:induction false} SortSorts<T(!new)>(es: seq<Entry<T>>)
    requires DistinctKeys(es)
    ensures Sorted(Sort(es)) && SameMembers(Sort(es), es)
  {
    if es != [] {
      var rest := Sort(es[1..]);
      SortSorts(es[1..]);
      forall i | 0 <= i < |rest|
        ensures rest[i].key != es[0].key
      {
        assert rest[i] in es[1..];
      }
      InsertKeepsSorted(es[0], rest);
      assert es == [es[0]] + es[1..];
    }
  }

  /** A sorted list is determined by its members. */
  lemma {:induction false} SortedIsUnique<T(!new)>(a: seq<Entry<T>>, b: seq<Entry<T>>)
    requires Sorted(a) && Sorted(b) && SameMembers(a, b)
    ensures a == b
  {
    assert a != [] ==> a[0] in a && a[0] in b;
    assert b != [] ==> b[0] in b && b[0] in a;
    if a != [] && b != [] {
      assert a[0] in a && a[0] in b;
      assert b[0] in b && b[0] in a;
      var i :| 0 <= i < |b| && b[i] == a[0];
      var j :| 0 <= j < |a| && a[j] == b[0];
      LessIsTotal(a[0].key, b[0].key);
      assert i == 0 && j == 0;
      forall e
        ensures e in a[1..] <==> e in b[1..]
      {
        TailMembers(a, e);
        TailMembers(b, e);
      }
      SortedIsUnique(a[1..], b[1..]);
      assert a == [a[0]] + a[1..] && b == [b[0]] + b[1..];
    }
  }

  lemma TailMembers<T(!new)>(a: seq<Entry<T>>, e: Entry<T>)
    requires Sorted(a) && a != []
    ensures e in a[1..] <==> e in a && e != a[0]
  {
    LessIsTotal(a[0].key, a[0].key);
    if e in a[1..] {
      var i :| 0 <= i < |a| - 1 && a[1..][i] == e;
      assert Less(a[0].key, a[i + 1].key);
    }
  }

  // ---- Equality up to key order ----

  /** JavaScript objects have each key once. */
  predicate WellFormed(v: Json) {
    match v
    case Arr(items) => forall i | 0 <= i < |items| :: WellFormed(items[i])
    case Obj(fields) => DistinctKeys(fields) && forall i | 0 <= i < |fields| :: WellFormedField(fields[i])
    case _ => true
  }

  predicate WellFormedField(f: Entry<Json>) { WellFormed(f.value) }

  predicate Same(v: Json, w: Json) {
    match v
    case Arr(items) => w.Arr? && |items| == |w.items| && forall i | 0 <= i < |items| :: Same(items[i], w.items[i])
    case Obj(fields) =>
      && w.Obj?
      && (forall i | 0 <= i < |fields| :: FoundIn(fields[i], w.fields))
      && (forall j | 0 <= j < |w.fields| :: HasKey(fields, w.fields[j].key))
    case _ => v == w
  }

  predicate FoundIn(f: Entry<Json>, gs: seq<Entry<Json>>) {
    exists j :: 0 <= j < |gs| && f.key == gs[j].key && Same(f.value, gs[j].value)
  }

  predicate HasKey<T>(es: seq<Entry<T>>, key: Text) {
    exists i :: 0 <= i < |es| && es[i].key == key
  }

  lemma {:induction false} CanonItemAt(items: seq<Json>, i: nat)
    requires i < |items|
    ensures CanonItems(items)[i] == Canon(items[i])
  {
    if i > 0 {
      CanonItemAt(items[1..], i - 1);
    }
  }

  lemma {:induction false} CanonFieldAt(fields: seq<Entry<Json>>, i: nat)
    requires i < |fields|
    ensures CanonFields(fields)[i] == Entry(fields[i].key, Canon(fields[i].value))
  {
    if i > 0 {
      CanonFieldAt(fields[1..], i - 1);
    }
  }

  lemma CanonDistinct(fields: seq<Entry<Json>>)
    requires DistinctKeys(fields)
    ensures DistinctKeys(CanonFields(fields))
  {
    forall i, j | 0 <= i < j < |fields|
      ensures CanonFields(fields)[i].key != CanonFields(fields)[j].key
    {
      CanonFieldAt(fields, i);
      CanonFieldAt(fields, j);
    }
  }

  lemma CanonHasKey(fields: seq<Entry<Json>>, key: Text)
    ensures HasKey(CanonFields(fields), key) <==> HasKey(fields, key)
  {
    if HasKey(CanonFields(fields), key) {
      var i :| 0 <= i < |fields| && CanonFields(fields)[i].key == key;
      CanonFieldAt(fields, i);
    }
    if HasKey(fields, key) {
      var i :| 0 <= i < |fields| && fields[i].key == key;
      CanonFieldAt(fields, i);
      assert CanonFields(fields)[i].key == key;
    }
  }

  lemma {:induction false} SameMeansSameCanon(v: Json, w: Json)
    requires WellFormed(v) && WellFormed(w) && Same(v, w)
    ensures Canon(v) == Canon(w)
    decreases v, 1
  {
    match v
    case Arr(items) =>
      forall i | 0 <= i < |items|
        ensures CanonItems(items)[i] == CanonItems(w.items)[i]
      {
        CanonItemAt(items, i);
        CanonItemAt(w.items, i);
        SameMeansSameCanon(items[i], w.items[i]);
      }
    case Obj(fields) =>
      var a, b := CanonFields(fields), CanonFields(w.fields);
      forall i | 0 <= i < |a|
        ensures a[i] in b
      {
        FieldCarriedOver(v, w, i);
      }
      forall j | 0 <= j < |b|
        ensures HasKey(a, b[j].key)
      {
        CanonFieldAt(w.fields, j);
        CanonHasKey(fields, w.fields[j].key);
      }
      CanonDistinct(fields);
      CanonDistinct(w.fields);
      MembersByKey(a, b);
      SortSorts(a);
      SortSorts(b);
      SortedIsUnique(Sort(a), Sort(b));
    case _ =>
  }

  lemma {:induction false} FieldCarriedOver(v: Json, w: Json, i: nat)
    requires v.Obj? && WellFormed(v) && WellFormed(w) && Same(v, w) && i < |v.fields|
    ensures CanonFields(v.fields)[i] in CanonFields(w.fields)
    decreases v, 0
  {
    var f := v.fields[i];
    assert FoundIn(f, w.fields);
    var j :| 0 <= j < |w.fields| && f.key == w.fields[j].key && Same(f.value, w.fields[j].value);
    assert f.value < f && WellFormedField(f) && WellFormedField(w.fields[j]);
    SameMeansSameCanon(f.value, w.fields[j].value);
    CanonFieldAt(v.fields, i);
    CanonFieldAt(w.fields, j);
    assert CanonFields(w.fields)[j] == CanonFields(v.fields)[i];
  }

  lemma MembersByKey<T(!new)>(a: seq<Entry<T>>, b: seq<Entry<T>>)
    requires (forall i | 0 <= i < |a| :: a[i] in b) && (forall j | 0 <= j < |b| :: HasKey(a, b[j].key)) && DistinctKeys(b)
    ensures SameMembers(a, b)
  {
    forall e | e in b
      ensures e in a
    {
      var j :| 0 <= j < |b| && b[j] == e;
      assert HasKey(a, b[j].key);
      var i :| 0 <= i < |a| && a[i].key == b[j].key;
      assert a[i] in b;
      var k :| 0 <= k < |b| && b[k] == a[i];
      assert k == j;
    }
  }

  lemma {:induction false} SameCanonMeansSame(v: Json, w: Json)
    requires WellFormed(v) && WellFormed(w) && Canon(v) == Canon(w)
    ensures Same(v, w)
    decreases v, 1
  {
    match v
    case Arr(items) =>
      forall i | 0 <= i < |items|
        ensures Same(items[i], w.items[i])
      {
        CanonItemAt(items, i);
        CanonItemAt(w.items, i);
        SameCanonMeansSame(items[i], w.items[i]);
      }
    case Obj(fields) =>
      var a, b := CanonFields(fields), CanonFields(w.fields);
      CanonDistinct(fields);
      CanonDistinct(w.fields);
      SortSorts(a);
      SortSorts(b);
      assert SameMembers(a, b);
      forall i | 0 <= i < |fields|
        ensures FoundIn(fields[i], w.fields)
      {
        assert a[i] in a;
        FieldFound(v, w, i);
      }
      forall j | 0 <= j < |w.fields|
        ensures HasKey(fields, w.fields[j].key)
      {
        assert b[j] in b && b[j] in a;
        CanonFieldAt(w.fields, j);
        assert HasKey(a, b[j].key);
        CanonHasKey(fields, w.fields[j].key);
      }
    case _ =>
  }

  lemma {:induction false} FieldFound(v: Json, w: Json, i: nat)
    requires v.Obj? && w.Obj? && WellFormed(v) && WellFormed(w) && i < |v.fields|
    requires CanonFields(v.fields)[i] in CanonFields(w.fields)
    ensures FoundIn(v.fields[i], w.fields)
    decreases v, 0
  {
    var a, b := CanonFields(v.fields), CanonFields(w.fields);
    var j :| 0 <= j < |b| && b[j] == a[i];
    CanonFieldAt(v.fields, i);
    CanonFieldAt(w.fields, j);
    assert v.fields[i].value < v.fields[i];
    assert WellFormedField(v.fields[i]) && WellFormedField(w.fields[j]);
    SameCanonMeansSame(v.fields[i].value, w.fields[j].value);
  }

  /** The fingerprint text is the same exactly for values equal up to object key order. */
  lemma StableTextIsCanonical(v: Json, w: Json)
    requires WellFormed(v) && WellFormed(w)
    ensures StableJson(v) == StableJson(w) <==> Same(v, w)
  {
    if Same(v, w) {
      SameMeansSameCanon(v, w);
      StableIsPlain(v);
      StableIsPlain(w);
    }
    if StableJson(v) == StableJson(w) {
      ParserRecovers(v);
      ParserRecovers(w);
      SameCanonMeansSame(v, w);
    }
  }
}
