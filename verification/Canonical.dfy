// The exact-comparison serialiser of packages/client/src/lockup.ts (`canonical`),
// its sibling `canonicalJson` of packages/app/src/claimFeed.ts, and a parser that
// inverts the printer in front of any delimiter.
//
// Text is a sequence of UTF-16 code units, as in JavaScript, so key order and the
// escaping of lone surrogates are those of the source.
module Canonical {
  import opened Prelude

  type Unit = u: nat | u < 0x1_0000
  type Byte = b: nat | b < 0x100
  type Text = seq<Unit>

  datatype Value =
    | Undefined
    | Null
    | Bool(flag: bool)
    | Num(number: int)   // an integer that JavaScript prints in plain decimal
    | Str(text: Text)
    | Big(bigint: int)
    | Bytes(data: seq<Byte>)
    | Arr(items: seq<Value>)
    | Rec(fields: seq<Field>)

  datatype Field = Field(key: Text, value: Value)

  // Punctuation and tags of the printed form.
  const QUOTE: Unit := 34
  const COMMA: Unit := 44
  const MINUS: Unit := 45
  const COLON: Unit := 58
  const OPEN_BRACKET: Unit := 91
  const BACKSLASH: Unit := 92
  const CLOSE_BRACKET: Unit := 93
  const OPEN_BRACE: Unit := 123
  const CLOSE_BRACE: Unit := 125
  const BYTES_TAG: Text := [98, 121, 116, 101, 115, 58]                // bytes:
  const BIGINT_TAG: Text := [98, 105, 103, 105, 110, 116, 58]          // bigint:
  const UNDEFINED_TEXT: Text := [117, 110, 100, 101, 102, 105, 110, 101, 100]
  const NULL_TEXT: Text := [110, 117, 108, 108]
  const TRUE_TEXT: Text := [116, 114, 117, 101]
  const FALSE_TEXT: Text := [102, 97, 108, 115, 101]

  // ---------------------------------------------------------------- records

  predicate HasKey(v: Value, key: Text)
    requires v.Rec?
  {
    exists i :: 0 <= i < |v.fields| && v.fields[i].key == key
  }

  /** `record[key]`. */
  function Get(v: Value, key: Text): (r: Value)
    requires v.Rec? && HasKey(v, key)
    ensures r < v && Field(key, r) in v.fields
  {
    GetFrom(v, key, 0)
  }

  function GetFrom(v: Value, key: Text, i: nat): (r: Value)
    requires v.Rec? && i <= |v.fields|
    requires exists j :: i <= j < |v.fields| && v.fields[j].key == key
    ensures r < v && Field(key, r) in v.fields
    decreases |v.fields| - i
  {
    if v.fields[i].key == key then v.fields[i].value else GetFrom(v, key, i + 1)
  }

  /** `Object.keys(record)`. */
  function Keys(v: Value): (ks: seq<Text>)
    requires v.Rec?
    ensures |ks| == |v.fields|
    ensures forall i :: 0 <= i < |ks| ==> ks[i] == v.fields[i].key
  {
    seq(|v.fields|, i requires 0 <= i < |v.fields| => v.fields[i].key)
  }

  /** Plain data: no record repeats a key, at any depth. Every JavaScript object meets it. */
  predicate Plain(v: Value) {
    match v
    case Arr(items) => forall i :: 0 <= i < |items| ==> Plain(items[i])
    case Rec(fields) =>
      Distinct(Keys(v)) && forall i :: 0 <= i < |fields| ==> Plain(fields[i].value)
    case _ => true
  }

  /** Lexicographic order by code unit, the order of `Array.prototype.sort` on strings. */
  predicate Before(a: Text, b: Text) {
    if b == [] then false
    else if a == [] then true
    else if a[0] != b[0] then a[0] < b[0]
    else Before(a[1..], b[1..])
  }

  function Insert(k: Text, ks: seq<Text>): seq<Text> {
    if ks == [] || !Before(ks[0], k) then [k] + ks else [ks[0]] + Insert(k, ks[1..])
  }

  function Sort(ks: seq<Text>): seq<Text> {
    if ks == [] then [] else Insert(ks[0], Sort(ks[1..]))
  }

  function SortedKeys(v: Value): (ks: seq<Text>)
    requires v.Rec?
    ensures forall k :: k in ks ==> HasKey(v, k)
  {
    SortKeeps(Keys(v));
    Sort(Keys(v))
  }

  // ---------------------------------------------------------------- printer

  function HexDigit(n: nat): Unit
    requires n < 16
  {
    if n < 10 then 48 + n else 87 + n
  }

  function Hex(data: seq<Byte>): Text {
    if data == [] then []
    else [HexDigit(data[0] / 16), HexDigit(data[0] % 16)] + Hex(data[1..])
  }

  function Digits(n: nat): Text {
    if n < 10 then [48 + n] else Digits(n / 10) + [48 + n % 10]
  }

  function Decimal(n: int): Text {
    if n < 0 then [MINUS] + Digits(-n) else Digits(n)
  }

  predicate High(u: Unit) { 0xD800 <= u < 0xDC00 }
  predicate Low(u: Unit) { 0xDC00 <= u < 0xE000 }

  predicate LoneSurrogate(s: Text, i: nat)
    requires i < |s|
  {
    (High(s[i]) && !(i + 1 < |s| && Low(s[i + 1]))) || (Low(s[i]) && !(i > 0 && High(s[i - 1])))
  }

  function UnicodeEscape(u: Unit): Text {
    [BACKSLASH, 117, HexDigit(u / 16 / 16 / 16), HexDigit(u / 16 / 16 % 16), HexDigit(u / 16 % 16), HexDigit(u % 16)]
  }

  /** One code unit as `JSON.stringify` writes it inside a string (RFC 8259, section 7). */
  function EscapeUnit(s: Text, i: nat): Text
    requires i < |s|
  {
    var u := s[i];
    if u == QUOTE then [BACKSLASH, QUOTE]
    else if u == BACKSLASH then [BACKSLASH, BACKSLASH]
    else if u == 8 then [BACKSLASH, 98]
    else if u == 9 then [BACKSLASH, 116]
    else if u == 10 then [BACKSLASH, 110]
    else if u == 12 then [BACKSLASH, 102]
    else if u == 13 then [BACKSLASH, 114]
    else if u < 32 || LoneSurrogate(s, i) then UnicodeEscape(u)
    else [u]
  }

  function Escaped(s: Text, i: nat): Text
    requires i <= |s|
    decreases |s| - i
  {
    if i == |s| then [] else EscapeUnit(s, i) + Escaped(s, i + 1)
  }

  function Quoted(s: Text): Text {
    [QUOTE] + Escaped(s, 0) + [QUOTE]
  }

  /** `canonical`. */
  function Print(v: Value): Text
    decreases v
  {
    match v
    case Bytes(data) => BYTES_TAG + Hex(data)
    case Big(n) => BIGINT_TAG + Decimal(n)
    case Undefined => UNDEFINED_TEXT
    case Null => NULL_TEXT
    case Bool(flag) => if flag then TRUE_TEXT else FALSE_TEXT
    case Num(n) => Decimal(n)
    case Str(text) => Quoted(text)
    case Arr(_) => [OPEN_BRACKET] + PrintItems(v, 0) + [CLOSE_BRACKET]
    case Rec(_) => [OPEN_BRACE] + PrintFields(v, SortedKeys(v)) + [CLOSE_BRACE]
  }

  /** Items `i..` joined by commas. */
  function PrintItems(v: Value, i: nat): Text
    requires v.Arr? && i <= |v.items|
    decreases v, |v.items| - i
  {
    if i == |v.items| then []
    else Print(v.items[i]) + (if i + 1 == |v.items| then [] else [COMMA] + PrintItems(v, i + 1))
  }

  /** The fields named by `ks`, in that order, joined by commas. */
  function PrintFields(v: Value, ks: seq<Text>): Text
    requires v.Rec? && forall k :: k in ks ==> HasKey(v, k)
    decreases v, |ks|
  {
    if ks == [] then []
    else Quoted(ks[0]) + [COLON] + Print(Get(v, ks[0]))
         + (if |ks| == 1 then [] else [COMMA] + PrintFields(v, ks[1..]))
  }

  // ----------------------------------------------------------------- parser

  datatype Parsed<+T> = Stuck | Parsed(value: T, rest: Text)

  predicate IsDigit(u: Unit) { 48 <= u < 58 }
  predicate IsHexDigit(u: Unit) { 48 <= u < 58 || 97 <= u < 103 }

  function HexValue(u: Unit): nat
    requires IsHexDigit(u)
  {
    if u < 58 then u - 48 else u - 87
  }

  function ParseHex(t: Text): (r: (seq<Byte>, Text))
    ensures |r.1| <= |t|
  {
    if |t| >= 2 && IsHexDigit(t[0]) && IsHexDigit(t[1]) then
      var tail := ParseHex(t[2..]);
      ([HexValue(t[0]) * 16 + HexValue(t[1])] + tail.0, tail.1)
    else ([], t)
  }

  /** Reads digits onto `acc`. */
  function ParseDigits(acc: nat, t: Text): (r: (nat, Text))
    ensures |r.1| <= |t|
    decreases |t|
  {
    if t != [] && IsDigit(t[0]) then ParseDigits(10 * acc + (t[0] - 48), t[1..]) else (acc, t)
  }

  function ParseDecimal(t: Text): (r: Parsed<int>)
    ensures r.Parsed? ==> |r.rest| < |t|
  {
    if t != [] && IsDigit(t[0]) then
      var d := ParseDigits(0, t);
      assert d == ParseDigits(t[0] - 48, t[1..]);
      Parsed(d.0, d.1)
    else if |t| >= 2 && t[0] == MINUS && IsDigit(t[1]) then
      var d := ParseDigits(0, t[1..]);
      Parsed(-(d.0 as int), d.1)
    else Stuck
  }

  /** The rest of a string whose opening quote has been read. */
  function ParseChars(t: Text): (r: Parsed<Text>)
    ensures r.Parsed? ==> |r.rest| < |t|
    decreases |t|
  {
    if t == [] then Stuck
    else if t[0] == QUOTE then Parsed([], t[1..])
    else if t[0] != BACKSLASH then Prepend(t[0], ParseChars(t[1..]))
    else if |t| == 1 then Stuck
    else if t[1] == QUOTE || t[1] == BACKSLASH then Prepend(t[1], ParseChars(t[2..]))
    else if t[1] == 98 then Prepend(8, ParseChars(t[2..]))
    else if t[1] == 116 then Prepend(9, ParseChars(t[2..]))
    else if t[1] == 110 then Prepend(10, ParseChars(t[2..]))
    else if t[1] == 102 then Prepend(12, ParseChars(t[2..]))
    else if t[1] == 114 then Prepend(13, ParseChars(t[2..]))
    else if t[1] == 117 && |t| >= 6 && IsHexDigit(t[2]) && IsHexDigit(t[3]) && IsHexDigit(t[4]) && IsHexDigit(t[5]) then
      Prepend(HexValue(t[2]) * 4096 + HexValue(t[3]) * 256 + HexValue(t[4]) * 16 + HexValue(t[5]),
              ParseChars(t[6..]))
    else Stuck
  }

  function Prepend(u: Unit, p: Parsed<Text>): Parsed<Text> {
    if p.Stuck? then Stuck else Parsed([u] + p.value, p.rest)
  }

  predicate StartsWith(t: Text, prefix: Text) {
    |prefix| <= |t| && t[..|prefix|] == prefix
  }

  function Parse(t: Text): (r: Parsed<Value>)
    ensures r.Parsed? ==> |r.rest| < |t|
    decreases |t|, 0
  {
    if t == [] then Stuck
    else if t[0] == QUOTE then
      var s := ParseChars(t[1..]);
      if s.Stuck? then Stuck else Parsed(Str(s.value), s.rest)
    else if t[0] == OPEN_BRACKET then
      if |t| > 1 && t[1] == CLOSE_BRACKET then Parsed(Arr([]), t[2..])
      else var items := ParseItems(t[1..]);
           if items.Stuck? then Stuck else Parsed(Arr(items.value), items.rest)
    else if t[0] == OPEN_BRACE then
      if |t| > 1 && t[1] == CLOSE_BRACE then Parsed(Rec([]), t[2..])
      else var fields := ParseFields(t[1..]);
           if fields.Stuck? then Stuck else Parsed(Rec(fields.value), fields.rest)
    else if StartsWith(t, BYTES_TAG) then
      var h := ParseHex(t[6..]);
      Parsed(Bytes(h.0), h.1)
    else if StartsWith(t, BIGINT_TAG) then
      var n := ParseDecimal(t[7..]);
      if n.Stuck? then Stuck else Parsed(Big(n.value), n.rest)
    else if StartsWith(t, UNDEFINED_TEXT) then Parsed(Undefined, t[9..])
    else if StartsWith(t, NULL_TEXT) then Parsed(Null, t[4..])
    else if StartsWith(t, TRUE_TEXT) then Parsed(Bool(true), t[4..])
    else if StartsWith(t, FALSE_TEXT) then Parsed(Bool(false), t[5..])
    else
      var n := ParseDecimal(t);
      if n.Stuck? then Stuck else Parsed(Num(n.value), n.rest)
  }

  /** One or more values, up to and including the closing bracket. */
  function ParseItems(t: Text): (r: Parsed<seq<Value>>)
    ensures r.Parsed? ==> |r.rest| < |t|
    decreases |t|, 1
  {
    var first := Parse(t);
    if first.Stuck? || first.rest == [] then Stuck
    else if first.rest[0] == CLOSE_BRACKET then Parsed([first.value], first.rest[1..])
    else if first.rest[0] != COMMA then Stuck
    else
      var more := ParseItems(first.rest[1..]);
      if more.Stuck? then Stuck else Parsed([first.value] + more.value, more.rest)
  }

  /** One or more fields, up to and including the closing brace. */
  function ParseFields(t: Text): (r: Parsed<seq<Field>>)
    ensures r.Parsed? ==> |r.rest| < |t|
    decreases |t|, 1
  {
    if t == [] || t[0] != QUOTE then Stuck
    else
      var key := ParseChars(t[1..]);
      if key.Stuck? || key.rest == [] || key.rest[0] != COLON then Stuck
      else
        var first := Parse(key.rest[1..]);
        if first.Stuck? || first.rest == [] then Stuck
        else if first.rest[0] == CLOSE_BRACE then Parsed([Field(key.value, first.value)], first.rest[1..])
        else if first.rest[0] != COMMA then Stuck
        else
          var more := ParseFields(first.rest[1..]);
          if more.Stuck? then Stuck else Parsed([Field(key.value, first.value)] + more.value, more.rest)
  }

  // ------------------------------------------------- what a print stands for

  /** The value with the fields of every record in key order. */
  function Normal(v: Value): Value
    decreases v
  {
    match v
    case Arr(_) => Arr(NormalItems(v, 0))
    case Rec(_) => Rec(NormalFields(v, SortedKeys(v)))
    case _ => v
  }

  function NormalItems(v: Value, i: nat): (r: seq<Value>)
    requires v.Arr? && i <= |v.items|
    ensures |r| == |v.items| - i
    decreases v, |v.items| - i
  {
    if i == |v.items| then [] else [Normal(v.items[i])] + NormalItems(v, i + 1)
  }

  function NormalFields(v: Value, ks: seq<Text>): (r: seq<Field>)
    requires v.Rec? && forall k :: k in ks ==> HasKey(v, k)
    ensures |r| == |ks| && forall i :: 0 <= i < |ks| ==> r[i].key == ks[i]
    decreases v, |ks|
  {
    if ks == [] then [] else [Field(ks[0], Normal(Get(v, ks[0])))] + NormalFields(v, ks[1..])
  }

  /** Equality of plain data up to the order in which records list their keys. */
  predicate Same(a: Value, b: Value)
    decreases a
  {
    if a.Arr? && b.Arr? then
      |a.items| == |b.items| && forall i :: 0 <= i < |a.items| ==> Same(a.items[i], b.items[i])
    else if a.Rec? && b.Rec? then
      && (forall i :: 0 <= i < |a.fields| ==> HasKey(b, a.fields[i].key))
      && (forall i :: 0 <= i < |b.fields| ==> HasKey(a, b.fields[i].key))
      && (forall i :: 0 <= i < |a.fields| ==>
            HasKey(b, a.fields[i].key) && Same(a.fields[i].value, Get(b, a.fields[i].key)))
    else a == b
  }

  // ------------------------------------------------------------ sorting keys

  lemma {:induction false} InsertKeeps(k: Text, ks: seq<Text>)
    ensures forall x :: x in Insert(k, ks) <==> x == k || x in ks
  {
    if ks != [] && Before(ks[0], k) {
      InsertKeeps(k, ks[1..]);
      assert ks == [ks[0]] + ks[1..];
    }
  }

  lemma {:induction false} SortKeeps(ks: seq<Text>)
    ensures forall x :: x in Sort(ks) <==> x in ks
  {
    if ks != [] {
      SortKeeps(ks[1..]);
      InsertKeeps(ks[0], Sort(ks[1..]));
      assert ks == [ks[0]] + ks[1..];
    }
  }

  predicate Ascending(ks: seq<Text>) {
    forall i, j :: 0 <= i < j < |ks| ==> Before(ks[i], ks[j])
  }

  lemma {:induction false} BeforeIsTotal(a: Text, b: Text)
    ensures a == b || Before(a, b) || Before(b, a)
    ensures !(Before(a, b) && Before(b, a)) && !Before(a, a)
  {
    if a != [] && b != [] && a[0] == b[0] {
      BeforeIsTotal(a[1..], b[1..]);
      assert a == [a[0]] + a[1..] && b == [b[0]] + b[1..];
    }
    if a != [] { BeforeIsIrreflexive(a); }
  }

  /** At the first place where they differ, `a` has the smaller unit or ends. */
  lemma {:induction false} BeforeMeans(a: Text, b: Text)
    ensures Before(a, b) <==> exists n :: DiffersAt(a, b, n)
  {
    if a != [] && b != [] && a[0] == b[0] {
      BeforeMeans(a[1..], b[1..]);
      if n :| DiffersAt(a[1..], b[1..], n) {
        assert a == [a[0]] + a[1..] && b == [b[0]] + b[1..];
        assert a[..n + 1] == [a[0]] + a[1..][..n] && b[..n + 1] == [b[0]] + b[1..][..n];
        assert DiffersAt(a, b, n + 1);
      }
      if n :| DiffersAt(a, b, n) {
        assert a[1..][..n - 1] == a[..n][1..] && b[1..][..n - 1] == b[..n][1..];
        assert DiffersAt(a[1..], b[1..], n - 1);
      }
    } else if Before(a, b) {
      assert DiffersAt(a, b, 0);
    }
  }

  predicate DiffersAt(a: Text, b: Text, n: int) {
    0 <= n <= |a| && n < |b| && a[..n] == b[..n] && (n == |a| || a[n] < b[n])
  }

  lemma {:induction false} BeforeIsIrreflexive(a: Text)
    ensures !Before(a, a)
  {
    if a != [] { BeforeIsIrreflexive(a[1..]); }
  }

  lemma {:induction false} BeforeIsTransitive(a: Text, b: Text, c: Text)
    requires Before(a, b) && Before(b, c)
    ensures Before(a, c)
  {
    if a != [] && a[0] == b[0] && b[0] == c[0] { BeforeIsTransitive(a[1..], b[1..], c[1..]); }
  }

  lemma {:induction false} InsertAscends(k: Text, ks: seq<Text>)
    requires Ascending(ks) && k !in ks
    ensures Ascending(Insert(k, ks))
  {
    if ks == [] {
    } else if Before(ks[0], k) {
      InsertAscends(k, ks[1..]);
      InsertKeeps(k, ks[1..]);
      forall x | x in Insert(k, ks[1..]) ensures Before(ks[0], x) {
        if x in ks[1..] { var i :| 0 <= i < |ks[1..]| && ks[1..][i] == x; assert ks[i + 1] == x; }
      }
    } else {
      BeforeIsTotal(ks[0], k);
      forall i | 0 < i < |ks| ensures Before(k, ks[i]) { BeforeIsTransitive(k, ks[0], ks[i]); }
    }
  }

  lemma {:induction false} SortAscends(ks: seq<Text>)
    requires Distinct(ks)
    ensures Ascending(Sort(ks))
  {
    if ks != [] {
      SortAscends(ks[1..]);
      SortKeeps(ks[1..]);
      InsertAscends(ks[0], Sort(ks[1..]));
    }
  }

  /** Two ascending lists of the same keys are the same list. */
  lemma {:induction false} AscendingIsUnique(a: seq<Text>, b: seq<Text>)
    requires Ascending(a) && Ascending(b)
    requires forall k :: k in a <==> k in b
    ensures a == b
  {
    assert |a| > 0 ==> a[0] in a;
    assert |b| > 0 ==> b[0] in b;
    if a != [] {
      BeforeIsTotal(a[0], b[0]);
      forall k | k in a[1..] ensures k in b[1..] { TailMember(a, b, k); }
      forall k | k in b[1..] ensures k in a[1..] { TailMember(b, a, k); }
      AscendingIsUnique(a[1..], b[1..]);
      assert a == [a[0]] + a[1..] && b == [b[0]] + b[1..];
    }
  }

  lemma TailMember(a: seq<Text>, b: seq<Text>, k: Text)
    requires a != [] && b != [] && a[0] == b[0] && Ascending(a)
    requires k in a[1..] && k in b
    ensures k in b[1..]
  {
    var i :| 0 <= i < |a[1..]| && a[1..][i] == k;
    assert a[i + 1] == k;
    BeforeIsTotal(a[0], k);
    assert b == [b[0]] + b[1..];
  }
}
