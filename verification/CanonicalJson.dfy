/** `stableJson`, the text behind request fingerprints, with the parser that shows it loses nothing
    but the order of object keys. Strings are sequences of UTF-16 code units, as in the source. */
module CanonicalJson {
  import opened Options

  type Code = c: int | 0 <= c < 0x10000
  type Text = seq<Code>

  const MAX_SAFE: int := 0x1F_FFFF_FFFF_FFFF

  type SafeInt = n: int | -MAX_SAFE <= n <= MAX_SAFE

  datatype Entry<+T> = Entry(key: Text, value: T)

  /** Object fields are kept in insertion order. */
  datatype Json = Null | Bool(b: bool) | Num(n: SafeInt) | Str(s: Text) | Arr(items: seq<Json>) | Obj(fields: seq<Entry<Json>>)

  const QUOTE: Code := 0x22
  const BACKSLASH: Code := 0x5C
  const COMMA: Code := 0x2C
  const COLON: Code := 0x3A
  const MINUS: Code := 0x2D
  const OPEN_ARRAY: Code := 0x5B
  const CLOSE_ARRAY: Code := 0x5D
  const OPEN_OBJECT: Code := 0x7B
  const CLOSE_OBJECT: Code := 0x7D
  const NULL: Text := [0x6E, 0x75, 0x6C, 0x6C]
  const TRUE: Text := [0x74, 0x72, 0x75, 0x65]
  const FALSE: Text := [0x66, 0x61, 0x6C, 0x73, 0x65]

  // ---- Strings: `JSON.stringify` of a string ----

  predicate High(c: Code) { 0xD800 <= c < 0xDC00 }

  predicate Low(c: Code) { 0xDC00 <= c < 0xE000 }

  function Hex(d: int): Code
    requires 0 <= d < 16
  {
    if d < 10 then 0x30 + d else 0x61 + d - 10
  }

  /** Everything that is not a well-formed surrogate pair is written unit by unit. */
  function EscapeUnit(c: Code): (t: Text)
    ensures t != []
  {
    if c == QUOTE || c == BACKSLASH then [BACKSLASH, c]
    else if c == 8 then [BACKSLASH, 0x62]
    else if c == 9 then [BACKSLASH, 0x74]
    else if c == 10 then [BACKSLASH, 0x6E]
    else if c == 12 then [BACKSLASH, 0x66]
    else if c == 13 then [BACKSLASH, 0x72]
    else if c < 0x20 || High(c) || Low(c) then
      [BACKSLASH, 0x75, Hex(c / 4096), Hex(c / 256 % 16), Hex(c / 16 % 16), Hex(c % 16)]
    else [c]
  }

  function Escape(s: Text): Text {
    if s == [] then []
    else if |s| > 1 && High(s[0]) && Low(s[1]) then s[..2] + Escape(s[2..])
    else EscapeUnit(s[0]) + Escape(s[1..])
  }

  function Quoted(s: Text): Text { [QUOTE] + Escape(s) + [QUOTE] }

  // ---- Integers ----

  function Digits(n: nat): (t: Text)
    ensures t != []
  {
    if n < 10 then [0x30 + n] else Digits(n / 10) + [0x30 + n % 10]
  }

  function Integer(n: int): Text { if n < 0 then [MINUS] + Digits(-n) else Digits(n) }

  // ---- Sorting by key, in code-unit order ----

  predicate Less(a: Text, b: Text) {
    if b == [] then false
    else if a == [] then true
    else if a[0] != b[0] then a[0] < b[0]
    else Less(a[1..], b[1..])
  }

  function Insert<T>(e: Entry<T>, sorted: seq<Entry<T>>): seq<Entry<T>> {
    if sorted == [] then [e]
    else if Less(sorted[0].key, e.key) then [sorted[0]] + Insert(e, sorted[1..])
    else [e] + sorted
  }

  function Sort<T>(entries: seq<Entry<T>>): seq<Entry<T>> {
    if entries == [] then [] else Insert(entries[0], Sort(entries[1..]))
  }

  // ---- Printing ----

  function Join(texts: seq<Text>): Text {
    if texts == [] then []
    else if |texts| == 1 then texts[0]
    else texts[0] + [COMMA] + Join(texts[1..])
  }

  function Labelled(entries: seq<Entry<Text>>): seq<Text> {
    seq(|entries|, i requires 0 <= i < |entries| => Quoted(entries[i].key) + [COLON] + entries[i].value)
  }

  function StableJson(v: Json): Text {
    match v
    case Arr(items) => [OPEN_ARRAY] + Join(Texts(items)) + [CLOSE_ARRAY]
    case Obj(fields) => [OPEN_OBJECT] + Join(Labelled(Sort(FieldTexts(fields)))) + [CLOSE_OBJECT]
    case Null => NULL
    case Bool(b) => if b then TRUE else FALSE
    case Num(n) => Integer(n)
    case Str(s) => Quoted(s)
  }

  function Texts(items: seq<Json>): (r: seq<Text>)
    ensures |r| == |items|
  {
    if items == [] then [] else [StableJson(items[0])] + Texts(items[1..])
  }

  function FieldTexts(fields: seq<Entry<Json>>): (r: seq<Entry<Text>>)
    ensures |r| == |fields|
  {
    if fields == [] then []
    else [Entry(fields[0].key, StableJson(fields[0].value))] + FieldTexts(fields[1..])
  }

  // ---- The key-sorted value ----

  function Canon(v: Json): Json {
    match v
    case Arr(items) => Arr(CanonItems(items))
    case Obj(fields) => Obj(Sort(CanonFields(fields)))
    case _ => v
  }

  function CanonItems(items: seq<Json>): (r: seq<Json>)
    ensures |r| == |items|
  {
    if items == [] then [] else [Canon(items[0])] + CanonItems(items[1..])
  }

  function CanonFields(fields: seq<Entry<Json>>): (r: seq<Entry<Json>>)
    ensures |r| == |fields|
  {
    if fields == [] then [] else [Entry(fields[0].key, Canon(fields[0].value))] + CanonFields(fields[1..])
  }

  // ---- Parsing ----

  predicate Digit(c: Code) { 0x30 <= c < 0x3A }

  function Unhex(c: Code): Option<int> {
    if Digit(c) then Some(c - 0x30) else if 0x61 <= c < 0x67 then Some(c - 0x61 + 10) else None
  }

  /** The unit written by one escape sequence, and what follows it. */
  function UnescapeUnit(t: Text): (r: Option<(Code, Text)>)
    requires t != [] && t[0] == BACKSLASH
    ensures r.Some? ==> |r.value.1| < |t|
  {
    if |t| < 2 then None
    else if t[1] == QUOTE || t[1] == BACKSLASH then Some((t[1], t[2..]))
    else if t[1] == 0x62 then Some((8, t[2..]))
    else if t[1] == 0x74 then Some((9, t[2..]))
    else if t[1] == 0x6E then Some((10, t[2..]))
    else if t[1] == 0x66 then Some((12, t[2..]))
    else if t[1] == 0x72 then Some((13, t[2..]))
    else if t[1] == 0x75 && |t| >= 6 then
      var a, b, c, d := Unhex(t[2]), Unhex(t[3]), Unhex(t[4]), Unhex(t[5]);
      if a.Some? && b.Some? && c.Some? && d.Some?
      then Some((a.value * 4096 + b.value * 256 + c.value * 16 + d.value, t[6..]))
      else None
    else None
  }

  /** A string after its opening quote, and what follows its closing quote. */
  function Unquote(t: Text): (r: Option<(Text, Text)>)
    ensures r.Some? ==> |r.value.1| < |t|
    decreases |t|
  {
    if t == [] then None
    else if t[0] == QUOTE then Some(([], t[1..]))
    else
      var unit := if t[0] == BACKSLASH then UnescapeUnit(t) else Some((t[0], t[1..]));
      if unit.None? then None
      else
        var more := Unquote(unit.value.1);
        if more.None? then None else Some(([unit.value.0] + more.value.0, more.value.1))
  }

  function DigitRun(t: Text): (n: nat)
    ensures n <= |t|
  {
    if t == [] || !Digit(t[0]) then 0 else 1 + DigitRun(t[1..])
  }

  function Value(t: Text): int {
    if t == [] then 0 else Value(t[..|t| - 1]) * 10 + (t[|t| - 1] as int - 0x30)
  }

  function ParseInteger(t: Text): (r: Option<(Json, Text)>)
    ensures r.Some? ==> |r.value.1| < |t|
  {
    var sign := if t != [] && t[0] == MINUS then 1 else 0;
    var run := DigitRun(t[sign..]);
    if run == 0 then None
    else
      var size := Value(t[sign..sign + run]);
      var n := if sign == 1 then -size else size;
      if -MAX_SAFE <= n <= MAX_SAFE then Some((Num(n), t[sign + run..])) else None
  }

  function ParseValue(t: Text): (r: Option<(Json, Text)>)
    ensures r.Some? ==> |r.value.1| < |t|
    decreases |t|, 0
  {
    if t == [] then None
    else if t[0] == QUOTE then
      var s := Unquote(t[1..]);
      if s.None? then None else Some((Str(s.value.0), s.value.1))
    else if t[0] == OPEN_ARRAY then
      if |t| > 1 && t[1] == CLOSE_ARRAY then Some((Arr([]), t[2..]))
      else
        var items := ParseItems(t[1..]);
        if items.None? then None else Some((Arr(items.value.0), items.value.1))
    else if t[0] == OPEN_OBJECT then
      if |t| > 1 && t[1] == CLOSE_OBJECT then Some((Obj([]), t[2..]))
      else
        var fields := ParseFields(t[1..]);
        if fields.None? then None else Some((Obj(fields.value.0), fields.value.1))
    else if NULL <= t then Some((Null, t[4..]))
    else if TRUE <= t then Some((Bool(true), t[4..]))
    else if FALSE <= t then Some((Bool(false), t[5..]))
    else ParseInteger(t)
  }

  /** At least one element, up to the closing bracket. */
  function ParseItems(t: Text): (r: Option<(seq<Json>, Text)>)
    ensures r.Some? ==> |r.value.1| < |t|
    decreases |t|, 1
  {
    var first := ParseValue(t);
    if first.None? then None
    else
      var (v, rest) := first.value;
      if rest == [] then None
      else if rest[0] == CLOSE_ARRAY then Some(([v], rest[1..]))
      else if rest[0] != COMMA then None
      else
        var more := ParseItems(rest[1..]);
        if more.None? then None else Some(([v] + more.value.0, more.value.1))
  }

  function ParseFields(t: Text): (r: Option<(seq<Entry<Json>>, Text)>)
    ensures r.Some? ==> |r.value.1| < |t|
    decreases |t|, 1
  {
    if t == [] || t[0] != QUOTE then None
    else
      var key := Unquote(t[1..]);
      if key.None? || key.value.1 == [] || key.value.1[0] != COLON then None
      else
        var first := ParseValue(key.value.1[1..]);
        if first.None? then None
        else
          var (v, rest) := first.value;
          if rest == [] then None
          else if rest[0] == CLOSE_OBJECT then Some(([Entry(key.value.0, v)], rest[1..]))
          else if rest[0] != COMMA then None
          else
            var more := ParseFields(rest[1..]);
            if more.None? then None else Some(([Entry(key.value.0, v)] + more.value.0, more.value.1))
  }
}
