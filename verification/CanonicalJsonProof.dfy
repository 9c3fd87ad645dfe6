/** The fingerprint text is canonical and injective. */
module CanonicalJsonProof {
  import opened Options
  import opened CanonicalJson

  // ---- Strings survive quoting ----

  lemma HexSurvives(d: int)
    requires 0 <= d < 16
    ensures Unhex(Hex(d)) == Some(d)
  {
  }

  lemma FourHexDigits(a: int, b: int, c: int, d: int, rest: Text)
    requires 0 <= a < 16 && 0 <= b < 16 && 0 <= c < 16 && 0 <= d < 16
    ensures UnescapeUnit([BACKSLASH, 0x75, Hex(a), Hex(b), Hex(c), Hex(d)] + rest) ==
            Some((a * 4096 + b * 256 + c * 16 + d, rest))
  {
    var t := [BACKSLASH, 0x75, Hex(a), Hex(b), Hex(c), Hex(d)] + rest;
    assert t[6..] == rest;
    HexSurvives(a);
    HexSurvives(b);
    HexSurvives(c);
    HexSurvives(d);
  }

  lemma InHex(c: Code)
    ensures c == c / 4096 * 4096 + c / 256 % 16 * 256 + c / 16 % 16 * 16 + c % 16
  {
    assert c / 16 == c / 256 * 16 + c / 16 % 16;
    assert c / 256 == c / 4096 * 16 + c / 256 % 16;
  }

  lemma UnitSurvives(c: Code, rest: Text)
    ensures EscapeUnit(c) == [c] ==> c != QUOTE && c != BACKSLASH
    ensures EscapeUnit(c) != [c] ==>
              EscapeUnit(c)[0] == BACKSLASH && UnescapeUnit(EscapeUnit(c) + rest) == Some((c, rest))
  {
    if |EscapeUnit(c)| == 2 {
      assert (EscapeUnit(c) + rest)[2..] == rest;
    } else if |EscapeUnit(c)| == 6 {
      FourHexDigits(c / 4096, c / 256 % 16, c / 16 % 16, c % 16, rest);
      InHex(c);
    }
  }

  lemma UnquoteRaw(c: Code, t: Text, s: Text, rest: Text)
    requires c != QUOTE && c != BACKSLASH && Unquote(t) == Some((s, rest))
    ensures Unquote([c] + t) == Some(([c] + s, rest))
  {
    assert ([c] + t)[1..] == t;
  }

  lemma UnquoteEscaped(escape: Text, c: Code, t: Text, s: Text, rest: Text)
    requires escape != [] && escape[0] == BACKSLASH && UnescapeUnit(escape + t) == Some((c, t))
    requires Unquote(t) == Some((s, rest))
    ensures Unquote(escape + t) == Some(([c] + s, rest))
  {
  }

  lemma UnquotePair(pair: Text, t: Text, s: Text, rest: Text)
    requires |pair| == 2 && High(pair[0]) && Low(pair[1]) && Unquote(t) == Some((s, rest))
    ensures Unquote(pair + t) == Some((pair + s, rest))
  {
    UnquoteRaw(pair[1], t, s, rest);
    UnquoteRaw(pair[0], [pair[1]] + t, [pair[1]] + s, rest);
    assert pair + t == [pair[0]] + ([pair[1]] + t);
    assert pair + s == [pair[0]] + ([pair[1]] + s);
  }

  lemma UnquoteUnit(c: Code, t: Text, s: Text, rest: Text)
    requires Unquote(t) == Some((s, rest))
    ensures Unquote(EscapeUnit(c) + t) == Some(([c] + s, rest))
  {
    UnitSurvives(c, t);
    if EscapeUnit(c) == [c] {
      UnquoteRaw(c, t, s, rest);
    } else {
      UnquoteEscaped(EscapeUnit(c), c, t, s, rest);
    }
  }

  lemma {:induction false} QuotingSurvives(s: Text, rest: Text)
    ensures Unquote(Escape(s) + ([QUOTE] + rest)) == Some((s, rest))
    decreases |s|
  {
    var end := [QUOTE] + rest;
    if s == [] {
      assert Escape(s) + end == end && end[1..] == rest;
    } else {
      var taken := if |s| > 1 && High(s[0]) && Low(s[1]) then 2 else 1;
      var tail := Escape(s[taken..]) + end;
      QuotingSurvives(s[taken..], rest);
      assert s == s[..taken] + s[taken..];
      if taken == 2 {
        assert Escape(s) + end == s[..2] + tail;
        UnquotePair(s[..2], tail, s[2..], rest);
      } else {
        assert s[..1] == [s[0]];
        assert Escape(s) + end == EscapeUnit(s[0]) + tail;
        UnquoteUnit(s[0], tail, s[1..], rest);
      }
    }
  }

  // ---- Integers survive printing ----

  /** What follows a printed value never continues a number. */
  predicate Stops(t: Text) { t == [] || !Digit(t[0]) }

  lemma {:induction false} DigitsAreDigits(n: nat)
    ensures forall i | 0 <= i < |Digits(n)| :: Digit(Digits(n)[i])
    ensures Value(Digits(n)) == n
  {
    if n < 10 {
      assert Digits(n)[..0] == [];
      assert Value(Digits(n)) == Value([]) * 10 + n;
    } else {
      DigitsAreDigits(n / 10);
      assert Digits(n)[..|Digits(n)| - 1] == Digits(n / 10);
    }
  }

  lemma {:induction false} RunOfDigits(ds: Text, rest: Text)
    requires (forall i | 0 <= i < |ds| :: Digit(ds[i])) && Stops(rest)
    ensures DigitRun(ds + rest) == |ds|
  {
    if ds == [] {
      assert ds + rest == rest;
    } else {
      assert (ds + rest)[1..] == ds[1..] + rest;
      RunOfDigits(ds[1..], rest);
    }
  }

  lemma SlicesParse(t: Text, sign: nat, ds: Text, rest: Text)
    requires t != [] && sign == (if t[0] == MINUS then 1 else 0) && ds != [] && sign + |ds| <= |t|
    requires DigitRun(t[sign..]) == |ds| && t[sign..sign + |ds|] == ds && t[sign + |ds|..] == rest
    requires 0 <= Value(ds) <= CanonicalJson.MAX_SAFE
    ensures ParseInteger(t) == Some((Num(if sign == 1 then -Value(ds) else Value(ds)), rest))
  {
  }

  lemma IntegerSurvives(n: SafeInt, rest: Text)
    requires Stops(rest)
    ensures ParseInteger(Integer(n) + rest) == Some((Num(n), rest))
  {
    var size: nat := if n < 0 then -n else n;
    var ds, t, sign := Digits(size), Integer(n) + rest, if n < 0 then 1 else 0;
    IntegerStarts(n);
    DigitsAreDigits(size);
    RunOfDigits(ds, rest);
    if n < 0 {
      Slices([MINUS], ds, rest);
    } else {
      Slices([], ds, rest);
      assert t == [] + ds + rest;
    }
    SlicesParse(t, sign, ds, rest);
  }

  lemma Slices(sign: Text, ds: Text, rest: Text)
    ensures var t := sign + ds + rest;
            && t[|sign|..] == ds + rest
            && t[|sign|..|sign| + |ds|] == ds
            && t[|sign| + |ds|..] == rest
  {
  }

  lemma IntegerStarts(n: int)
    ensures if n < 0 then Integer(n)[0] == MINUS else Digit(Integer(n)[0])
  {
    if n >= 0 { DigitsAreDigits(n); }
  }

  // ---- Values survive plain printing ----

  /** Printing with the fields in the order they are in. */
  function Plain(v: Json): (t: Text)
    ensures t != []
  {
    match v
    case Arr(items) => [OPEN_ARRAY] + Join(PlainTexts(items)) + [CLOSE_ARRAY]
    case Obj(fields) => [OPEN_OBJECT] + Join(Labelled(PlainFields(fields))) + [CLOSE_OBJECT]
    case Null => NULL
    case Bool(b) => if b then TRUE else FALSE
    case Num(n) => Integer(n)
    case Str(s) => Quoted(s)
  }

  function PlainTexts(items: seq<Json>): (r: seq<Text>)
    ensures |r| == |items|
  {
    if items == [] then [] else [Plain(items[0])] + PlainTexts(items[1..])
  }

  function PlainFields(fields: seq<Entry<Json>>): (r: seq<Entry<Text>>)
    ensures |r| == |fields|
  {
    if fields == [] then [] else [Entry(fields[0].key, Plain(fields[0].value))] + PlainFields(fields[1..])
  }

  lemma JoinFirst(texts: seq<Text>, close: Text)
    requires texts != []
    ensures Join(texts) + close == texts[0] + (if |texts| == 1 then close else [COMMA] + (Join(texts[1..]) + close))
  {
  }

  // One unfolding of the parser at a time.

  lemma ArrayParses(t: Text, items: seq<Json>, rest: Text)
    requires t != [] && t[0] != CLOSE_ARRAY && ParseItems(t) == Some((items, rest))
    ensures ParseValue([OPEN_ARRAY] + t) == Some((Arr(items), rest))
  {
    assert ([OPEN_ARRAY] + t)[1..] == t;
  }

  lemma ObjectParses(t: Text, fields: seq<Entry<Json>>, rest: Text)
    requires t != [] && t[0] != CLOSE_OBJECT && ParseFields(t) == Some((fields, rest))
    ensures ParseValue([OPEN_OBJECT] + t) == Some((Obj(fields), rest))
  {
    assert ([OPEN_OBJECT] + t)[1..] == t;
  }

  lemma LastItem(t: Text, v: Json, rest: Text)
    requires ParseValue(t) == Some((v, [CLOSE_ARRAY] + rest))
    ensures ParseItems(t) == Some(([v], rest))
  {
    assert ([CLOSE_ARRAY] + rest)[1..] == rest;
  }

  lemma NextItem(t: Text, v: Json, t': Text, items: seq<Json>, rest: Text)
    requires ParseValue(t) == Some((v, [COMMA] + t')) && ParseItems(t') == Some((items, rest))
    ensures ParseItems(t) == Some(([v] + items, rest))
  {
    assert ([COMMA] + t')[1..] == t';
  }

  lemma LastField(t: Text, key: Text, t': Text, v: Json, rest: Text)
    requires Unquote(t) == Some((key, [COLON] + t')) && ParseValue(t') == Some((v, [CLOSE_OBJECT] + rest))
    ensures ParseFields([QUOTE] + t) == Some(([Entry(key, v)], rest))
  {
    assert ([QUOTE] + t)[1..] == t;
    assert ([COLON] + t')[1..] == t';
    assert ([CLOSE_OBJECT] + rest)[1..] == rest;
  }

  lemma NextField(t: Text, key: Text, t': Text, v: Json, t'': Text, fields: seq<Entry<Json>>, rest: Text)
    requires Unquote(t) == Some((key, [COLON] + t')) && ParseValue(t') == Some((v, [COMMA] + t''))
    requires ParseFields(t'') == Some((fields, rest))
    ensures ParseFields([QUOTE] + t) == Some(([Entry(key, v)] + fields, rest))
  {
    assert ([QUOTE] + t)[1..] == t;
    assert ([COLON] + t')[1..] == t';
    assert ([COMMA] + t'')[1..] == t'';
  }

  lemma LiteralSurvives(v: Json, rest: Text)
    requires v.Null? || v.Bool?
    ensures ParseValue(Plain(v) + rest) == Some((v, rest))
  {
    var word, t := Plain(v), Plain(v) + rest;
    assert word <= t && t[|word|..] == rest;
    assert NULL[0] == 0x6E && TRUE[0] == 0x74 && FALSE[0] == 0x66 && t[0] == word[0];
  }

  lemma NumberSurvives(n: SafeInt, rest: Text)
    requires Stops(rest)
    ensures ParseValue(Integer(n) + rest) == Some((Num(n), rest))
  {
    var t := Integer(n) + rest;
    IntegerSurvives(n, rest);
    IntegerStarts(n);
    assert t[0] == MINUS || Digit(t[0]);
    NotALiteral(t);
  }

  lemma NotALiteral(t: Text)
    requires t != [] && (t[0] == MINUS || Digit(t[0]))
    ensures !(NULL <= t) && !(TRUE <= t) && !(FALSE <= t)
  {
    assert NULL[0] == 0x6E && TRUE[0] == 0x74 && FALSE[0] == 0x66;
  }

  lemma StringSurvives(s: Text, rest: Text)
    ensures ParseValue(Quoted(s) + rest) == Some((Str(s), rest))
  {
    var t := Quoted(s) + rest;
    QuotingSurvives(s, rest);
    assert t[1..] == Escape(s) + ([QUOTE] + rest);
  }

  lemma EmptyParses(rest: Text)
    ensures ParseValue([OPEN_ARRAY] + ([CLOSE_ARRAY] + rest)) == Some((Arr([]), rest))
    ensures ParseValue([OPEN_OBJECT] + ([CLOSE_OBJECT] + rest)) == Some((Obj([]), rest))
  {
    assert ([OPEN_ARRAY] + ([CLOSE_ARRAY] + rest))[2..] == rest;
    assert ([OPEN_OBJECT] + ([CLOSE_OBJECT] + rest))[2..] == rest;
  }

  /** Parsing what was printed gives the value back and stops where the printing stopped. */
  lemma {:induction false} PlainSurvives(v: Json, rest: Text)
    requires Stops(rest)
    ensures ParseValue(Plain(v) + rest) == Some((v, rest))
    decreases v, 1
  {
    match v
    case Arr(items) => ArraySurvives(v, items, rest);
    case Obj(fields) => ObjectSurvives(v, fields, rest);
    case Num(n) => NumberSurvives(n, rest);
    case Str(s) => StringSurvives(s, rest);
    case _ => LiteralSurvives(v, rest);
  }

  lemma {:induction false} ArraySurvives(v: Json, items: seq<Json>, rest: Text)
    requires v == Arr(items)
    ensures ParseValue(Plain(v) + rest) == Some((v, rest))
    decreases v, 0
  {
    var body := Join(PlainTexts(items)) + ([CLOSE_ARRAY] + rest);
    assert Plain(v) + rest == [OPEN_ARRAY] + body;
    if items == [] {
      assert body == [CLOSE_ARRAY] + rest;
      EmptyParses(rest);
    } else {
      ItemsSurvive(items, rest);
      BodyStarts(items, [CLOSE_ARRAY] + rest);
      ArrayParses(body, items, rest);
    }
  }

  lemma {:induction false} ObjectSurvives(v: Json, fields: seq<Entry<Json>>, rest: Text)
    requires v == Obj(fields)
    ensures ParseValue(Plain(v) + rest) == Some((v, rest))
    decreases v, 0
  {
    var body := Join(Labelled(PlainFields(fields))) + ([CLOSE_OBJECT] + rest);
    assert Plain(v) + rest == [OPEN_OBJECT] + body;
    if fields == [] {
      assert body == [CLOSE_OBJECT] + rest;
      EmptyParses(rest);
    } else {
      FieldsSurvive(fields, rest);
      assert body[0] == QUOTE by { JoinFirst(Labelled(PlainFields(fields)), [CLOSE_OBJECT] + rest); }
      ObjectParses(body, fields, rest);
    }
  }

  lemma BodyStarts(items: seq<Json>, close: Text)
    requires items != []
    ensures (Join(PlainTexts(items)) + close)[0] != CLOSE_ARRAY
  {
    JoinFirst(PlainTexts(items), close);
    if items[0].Num? { IntegerStarts(items[0].n); }
    assert (Join(PlainTexts(items)) + close)[0] == Plain(items[0])[0];
  }

  lemma {:induction false} ItemsSurvive(items: seq<Json>, rest: Text)
    requires items != []
    ensures ParseItems(Join(PlainTexts(items)) + ([CLOSE_ARRAY] + rest)) == Some((items, rest))
    decreases items
  {
    var close := [CLOSE_ARRAY] + rest;
    var texts := PlainTexts(items);
    var t := Join(texts) + close;
    JoinFirst(texts, close);
    if |items| == 1 {
      PlainSurvives(items[0], close);
      LastItem(t, items[0], rest);
      assert items == [items[0]];
    } else {
      assert texts[1..] == PlainTexts(items[1..]);
      var t' := Join(texts[1..]) + close;
      PlainSurvives(items[0], [COMMA] + t');
      ItemsSurvive(items[1..], rest);
      NextItem(t, items[0], t', items[1..], rest);
      assert items == [items[0]] + items[1..];
    }
  }

  lemma {:induction false} FieldsSurvive(fields: seq<Entry<Json>>, rest: Text)
    requires fields != []
    ensures ParseFields(Join(Labelled(PlainFields(fields))) + ([CLOSE_OBJECT] + rest)) == Some((fields, rest))
    decreases fields
  {
    var close := [CLOSE_OBJECT] + rest;
    var labels := Labelled(PlainFields(fields));
    var key, value := fields[0].key, fields[0].value;
    assert value < fields[0];
    JoinFirst(labels, close);
    if |fields| == 1 {
      LabelOpens(key, Plain(value), close);
      QuotingSurvives(key, [COLON] + (Plain(value) + close));
      PlainSurvives(value, close);
      LastField(Escape(key) + ([QUOTE] + ([COLON] + (Plain(value) + close))), key, Plain(value) + close, value, rest);
      assert fields == [Entry(key, value)];
    } else {
      assert labels[1..] == Labelled(PlainFields(fields[1..]));
      var t' := Join(labels[1..]) + close;
      LabelOpens(key, Plain(value), [COMMA] + t');
      QuotingSurvives(key, [COLON] + (Plain(value) + ([COMMA] + t')));
      PlainSurvives(value, [COMMA] + t');
      FieldsSurvive(fields[1..], rest);
      NextField(Escape(key) + ([QUOTE] + ([COLON] + (Plain(value) + ([COMMA] + t')))), key,
                Plain(value) + ([COMMA] + t'), value, t', fields[1..], rest);
      assert fields == [Entry(key, value)] + fields[1..];
    }
  }

  lemma LabelOpens(key: Text, value: Text, after: Text)
    ensures Quoted(key) + [COLON] + value + after == [QUOTE] + (Escape(key) + ([QUOTE] + ([COLON] + (value + after))))
  {
  }

  // ---- Printing sorts: the stable text is the plain text of the key-sorted value ----

  /** Applying `Plain` to every value of a list of entries, which no sort by key can tell. */
  lemma {:induction false} InsertPlain(e: Entry<Json>, sorted: seq<Entry<Json>>)
    ensures PlainFields(Insert(e, sorted)) == Insert(Entry(e.key, Plain(e.value)), PlainFields(sorted))
  {
    var t := Entry(e.key, Plain(e.value));
    if sorted == [] {
      assert [e][1..] == [];
    } else if Less(sorted[0].key, e.key) {
      InsertPlain(e, sorted[1..]);
      assert ([sorted[0]] + Insert(e, sorted[1..]))[1..] == Insert(e, sorted[1..]);
      assert PlainFields(sorted)[1..] == PlainFields(sorted[1..]);
    } else {
      assert ([e] + sorted)[1..] == sorted;
    }
  }

  lemma {:induction false} SortPlain(fields: seq<Entry<Json>>)
    ensures PlainFields(Sort(fields)) == Sort(PlainFields(fields))
  {
    if fields != [] {
      SortPlain(fields[1..]);
      InsertPlain(fields[0], Sort(fields[1..]));
      assert PlainFields(fields)[1..] == PlainFields(fields[1..]);
    }
  }

  lemma {:induction false} StableIsPlain(v: Json)
    ensures StableJson(v) == Plain(Canon(v))
    decreases v
  {
    match v
    case Arr(items) => ItemsStable(items);
    case Obj(fields) =>
      FieldsStable(fields);
      SortPlain(CanonFields(fields));
    case _ =>
  }

  lemma {:induction false} ItemsStable(items: seq<Json>)
    ensures Texts(items) == PlainTexts(CanonItems(items))
    decreases items
  {
    if items != [] {
      StableIsPlain(items[0]);
      ItemsStable(items[1..]);
      assert CanonItems(items)[1..] == CanonItems(items[1..]);
    }
  }

  lemma {:induction false} FieldsStable(fields: seq<Entry<Json>>)
    ensures FieldTexts(fields) == PlainFields(CanonFields(fields))
    decreases fields
  {
    if fields != [] {
      assert fields[0].value < fields[0];
      StableIsPlain(fields[0].value);
      FieldsStable(fields[1..]);
      assert CanonFields(fields)[1..] == CanonFields(fields[1..]);
    }
  }

  /** The printed text determines the key-sorted value: a parser recovers it. */
  lemma ParserRecovers(v: Json)
    ensures ParseValue(StableJson(v)) == Some((Canon(v), []))
  {
    StableIsPlain(v);
    PlainSurvives(Canon(v), []);
    assert Plain(Canon(v)) + [] == Plain(Canon(v));
  }
}
