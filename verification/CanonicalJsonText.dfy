/** The fingerprint text, written out in UTF-16 code units: what JSON prescribes for each kind of value,
    each character and each separator, and the order of the keys. */
module CanonicalJsonText {
  import opened CanonicalJson
  import opened CanonicalJsonOrder

  // ---- Keys ----

  /** The order of keys: at the first difference the smaller code unit, or the shorter text, comes first. */
  predicate Before(a: Text, b: Text) {
    exists k :: 0 <= k <= |a| && k < |b| && a[..k] == b[..k] && (k == |a| || a[k] < b[k])
  }

  lemma SameHead(a: Text, b: Text, k: nat)
    requires 0 < k <= |a| && k <= |b| && a[..k] == b[..k]
    ensures a[0] == b[0] && a[1..][..k - 1] == b[1..][..k - 1]
  {
    assert a[..k][0] == b[..k][0];
    assert a[1..][..k - 1] == a[..k][1..] && b[1..][..k - 1] == b[..k][1..];
  }

  lemma BeforeByHead(a: Text, b: Text)
    requires a != [] && b != [] && a[0] != b[0]
    ensures Before(a, b) <==> a[0] < b[0]
  {
    assert a[..0] == b[..0];
    if Before(a, b) {
      var k :| 0 <= k <= |a| && k < |b| && a[..k] == b[..k] && (k == |a| || a[k] < b[k]);
      if k > 0 { SameHead(a, b, k); }
    }
  }

  lemma BeforeByTail(a: Text, b: Text)
    requires a != [] && b != [] && a[0] == b[0]
    ensures Before(a, b) <==> Before(a[1..], b[1..])
  {
    if Before(a[1..], b[1..]) {
      var k :| 0 <= k <= |a[1..]| && k < |b[1..]| && a[1..][..k] == b[1..][..k] && (k == |a[1..]| || a[1..][k] < b[1..][k]);
      assert a[..k + 1] == [a[0]] + a[1..][..k] && b[..k + 1] == [b[0]] + b[1..][..k];
    }
    if Before(a, b) {
      var k :| 0 <= k <= |a| && k < |b| && a[..k] == b[..k] && (k == |a| || a[k] < b[k]);
      assert k > 0;
      SameHead(a, b, k);
    }
  }

  lemma {:induction false} LessIsBefore(a: Text, b: Text)
    ensures Less(a, b) <==> Before(a, b)
  {
    if a != [] && b != [] {
      if a[0] == b[0] {
        BeforeByTail(a, b);
        LessIsBefore(a[1..], b[1..]);
      } else {
        BeforeByHead(a, b);
      }
    } else if b != [] {
      assert a[..0] == b[..0];
    }
  }

  /** An object is printed with its keys in that order. */
  lemma KeysInOrder(fields: seq<Entry<Json>>)
    requires WellFormed(Obj(fields))
    ensures var sorted := Canon(Obj(fields)).fields;
            && |sorted| == |fields|
            && (forall i, j | 0 <= i < j < |sorted| :: Before(sorted[i].key, sorted[j].key))
  {
    CanonDistinct(fields);
    SortSorts(CanonFields(fields));
    SortLength(CanonFields(fields));
    var sorted := Sort(CanonFields(fields));
    forall i, j | 0 <= i < j < |sorted|
      ensures Before(sorted[i].key, sorted[j].key)
    {
      LessIsBefore(sorted[i].key, sorted[j].key);
    }
  }

  lemma {:induction false} SortLength<T>(es: seq<Entry<T>>)
    ensures |Sort(es)| == |es|
  {
    if es != [] {
      SortLength(es[1..]);
      InsertLength(es[0], Sort(es[1..]));
    }
  }

  lemma {:induction false} InsertLength<T>(e: Entry<T>, es: seq<Entry<T>>)
    ensures |Insert(e, es)| == |es| + 1
  {
    if es != [] { InsertLength(e, es[1..]); }
  }

  // ---- Characters ----

  /** The value of a lower-case hexadecimal digit. */
  function Nibble(c: Code): int {
    if 0x30 <= c <= 0x39 then c - 0x30 else if 0x61 <= c <= 0x66 then c - 0x57 else -1
  }

  /** Quotation marks and backslashes are escaped, five control characters have a short form, all others and
      lone surrogates four hexadecimal digits; everything else is copied. */
  lemma CharactersWritten(c: Code)
    ensures var t := EscapeUnit(c);
            if c == 0x22 then t == [0x5C, 0x22]
            else if c == 0x5C then t == [0x5C, 0x5C]
            else if c == 0x08 then t == [0x5C, 0x62]
            else if c == 0x09 then t == [0x5C, 0x74]
            else if c == 0x0A then t == [0x5C, 0x6E]
            else if c == 0x0C then t == [0x5C, 0x66]
            else if c == 0x0D then t == [0x5C, 0x72]
            else if c <= 0x1F || 0xD800 <= c <= 0xDFFF then
              && |t| == 6 && t[0] == 0x5C && t[1] == 0x75
              && (forall i | 2 <= i < 6 :: 0 <= Nibble(t[i]) < 16)
              && Nibble(t[2]) * 4096 + Nibble(t[3]) * 256 + Nibble(t[4]) * 16 + Nibble(t[5]) == c
            else t == [c]
  {
    NibbleOfHex(c / 4096);
    NibbleOfHex(c / 256 % 16);
    NibbleOfHex(c / 16 % 16);
    NibbleOfHex(c % 16);
    FourNibbles(c);
  }

  lemma NibbleOfHex(d: int)
    requires 0 <= d < 16
    ensures Nibble(Hex(d)) == d
  {
  }

  lemma FourNibbles(c: Code)
    ensures c / 4096 * 4096 + c / 256 % 16 * 256 + c / 16 % 16 * 16 + c % 16 == c
  {
    assert c / 16 / 16 == c / 256 && c / 256 / 16 == c / 4096;
  }

  /** A string is printed between quotation marks, character by character, surrogate pairs copied. */
  lemma StringsWritten(s: Text, c: Code, d: Code)
    ensures Quoted([]) == [0x22, 0x22]
    ensures StableJson(Str(s)) == [0x22] + Escape(s) + [0x22]
    ensures 0xD800 <= c <= 0xDBFF && 0xDC00 <= d <= 0xDFFF ==> Escape([c, d] + s) == [c, d] + Escape(s)
    ensures !(0xD800 <= c <= 0xDBFF && s != [] && 0xDC00 <= s[0] <= 0xDFFF) ==> Escape([c] + s) == EscapeUnit(c) + Escape(s)
  {
    assert ([c, d] + s)[2..] == s && ([c, d] + s)[..2] == [c, d];
    assert ([c] + s)[1..] == s;
  }

  // ---- Numbers, literals, arrays and objects ----

  /** Decimal, without leading zeros, negative numbers after a minus sign. */
  lemma NumbersWritten(n: int, d: int)
    requires 0 < n && 0 <= d < 10
    ensures Integer(d) == [0x30 + d]
    ensures Integer(10 * n + d) == Integer(n) + [0x30 + d]
    ensures Integer(-n) == [0x2D] + Integer(n)
  {
  }

  lemma LiteralsWritten()
    ensures StableJson(Null) == [0x6E, 0x75, 0x6C, 0x6C]
    ensures StableJson(Bool(true)) == [0x74, 0x72, 0x75, 0x65] && StableJson(Bool(false)) == [0x66, 0x61, 0x6C, 0x73, 0x65]
    ensures StableJson(Arr([])) == [0x5B, 0x5D] && StableJson(Obj([])) == [0x7B, 0x7D]
  {
  }

  /** Brackets around the items, commas between them. */
  lemma ArraysWritten(v: Json, items: seq<Json>)
    ensures StableJson(Arr([v])) == [0x5B] + StableJson(v) + [0x5D]
    ensures items != [] ==> StableJson(Arr([v] + items)) == [0x5B] + StableJson(v) + [0x2C] + StableJson(Arr(items))[1..]
  {
    assert Texts([v]) == [StableJson(v)] by { assert [v][1..] == []; }
    assert ([v] + items)[1..] == items;
    if items != [] {
      assert Texts([v] + items)[1..] == Texts(items);
      assert StableJson(Arr(items))[1..] == Join(Texts(items)) + [0x5D];
    }
  }

  function FieldText(f: Entry<Json>): Text { Quoted(f.key) + [0x3A] + StableJson(f.value) }

  /** Braces around the fields, each a quoted key, a colon and a value, the least key first, commas between. */
  lemma ObjectsWritten(f: Entry<Json>, fields: seq<Entry<Json>>)
    ensures StableJson(Obj([f])) == [0x7B] + FieldText(f) + [0x7D]
    ensures fields != [] && (forall i | 0 <= i < |fields| :: Before(f.key, fields[i].key)) ==>
              StableJson(Obj([f] + fields)) == [0x7B] + FieldText(f) + [0x2C] + StableJson(Obj(fields))[1..]
  {
    OneField(f);
    if fields != [] && forall i | 0 <= i < |fields| :: Before(f.key, fields[i].key) { MoreFields(f, fields); }
  }

  lemma OneField(f: Entry<Json>)
    ensures StableJson(Obj([f])) == [0x7B] + FieldText(f) + [0x7D]
  {
    var first := Entry(f.key, StableJson(f.value));
    assert [f][1..] == [] && FieldTexts([f]) == [first];
    SortOne(first);
    assert Labelled([first]) == [FieldText(f)];
  }

  lemma MoreFields(f: Entry<Json>, fields: seq<Entry<Json>>)
    requires fields != [] && forall i | 0 <= i < |fields| :: Before(f.key, fields[i].key)
    ensures StableJson(Obj([f] + fields)) == [0x7B] + FieldText(f) + [0x2C] + StableJson(Obj(fields))[1..]
  {
    var first, sorted := Entry(f.key, StableJson(f.value)), Sort(FieldTexts(fields));
    LeastFirst(f, fields);
    SortLength(FieldTexts(fields));
    LabelledMore(first, sorted);
    JoinMore(FieldText(f), Labelled(sorted));
    assert StableJson(Obj(fields))[1..] == Join(Labelled(sorted)) + [0x7D];
  }

  lemma LabelledMore(e: Entry<Text>, es: seq<Entry<Text>>)
    ensures Labelled([e] + es) == [Quoted(e.key) + [0x3A] + e.value] + Labelled(es)
  {
  }

  lemma JoinMore(t: Text, ts: seq<Text>)
    requires ts != []
    ensures Join([t] + ts) == t + [0x2C] + Join(ts)
  {
    assert ([t] + ts)[1..] == ts;
  }

  lemma SortOne(e: Entry<Text>)
    ensures Sort([e]) == [e]
  {
    var rest: seq<Entry<Text>> := [e][1..];
    assert rest == [];
  }

  lemma LeastFirst(f: Entry<Json>, fields: seq<Entry<Json>>)
    requires forall i | 0 <= i < |fields| :: Before(f.key, fields[i].key)
    ensures Sort(FieldTexts([f] + fields)) == [Entry(f.key, StableJson(f.value))] + Sort(FieldTexts(fields))
  {
    var first := Entry(f.key, StableJson(f.value));
    assert ([f] + fields)[1..] == fields;
    assert FieldTexts([f] + fields) == [first] + FieldTexts(fields);
    assert ([first] + FieldTexts(fields))[1..] == FieldTexts(fields);
    KeysOfTexts(fields, f.key);
    SortKeepsLeast(FieldTexts(fields), f.key);
    var sorted := Sort(FieldTexts(fields));
    if sorted != [] {
      LessIsBefore(sorted[0].key, f.key);
      LessIsBefore(f.key, sorted[0].key);
      LessIsTotal(f.key, sorted[0].key);
    }
  }

  lemma {:induction false} KeysOfTexts(fields: seq<Entry<Json>>, key: Text)
    requires forall i | 0 <= i < |fields| :: Before(key, fields[i].key)
    ensures forall i | 0 <= i < |fields| :: Before(key, FieldTexts(fields)[i].key)
  {
    if fields != [] { KeysOfTexts(fields[1..], key); }
  }

  lemma {:induction false} SortKeepsLeast(es: seq<Entry<Text>>, key: Text)
    requires forall i | 0 <= i < |es| :: Before(key, es[i].key)
    ensures forall i | 0 <= i < |Sort(es)| :: Before(key, Sort(es)[i].key)
  {
    if es != [] {
      SortKeepsLeast(es[1..], key);
      InsertKeepsLeast(es[0], Sort(es[1..]), key);
    }
  }

  lemma {:induction false} InsertKeepsLeast(e: Entry<Text>, es: seq<Entry<Text>>, key: Text)
    requires Before(key, e.key) && forall i | 0 <= i < |es| :: Before(key, es[i].key)
    ensures forall i | 0 <= i < |Insert(e, es)| :: Before(key, Insert(e, es)[i].key)
  {
    if es != [] { InsertKeepsLeast(e, es[1..], key); }
  }
}
