// The parser inverts the printer, so printing is injective up to record key order.
module CanonicalRoundTrip {
  import opened Prelude
  import opened Canonical

  /** What may follow a printed value: nothing, a comma, or a closing bracket or brace. */
  predicate AtDelimiter(rest: Text) {
    rest == [] || rest[0] == COMMA || rest[0] == CLOSE_BRACKET || rest[0] == CLOSE_BRACE
  }

  lemma Regroup(a: Text, b: Text, c: Text)
    ensures a + b + c == a + (b + c)
  {
  }

  // ---------------------------------------------------------------- scalars

  predicate AllDigits(t: Text) { forall i :: 0 <= i < |t| ==> IsDigit(t[i]) }

  lemma {:induction false} DigitsAreDigits(n: nat)
    ensures Digits(n) != [] && AllDigits(Digits(n))
  {
    if n >= 10 { DigitsAreDigits(n / 10); }
  }

  lemma {:induction false} ParseDigitsSplits(acc: nat, a: Text, b: Text)
    requires AllDigits(a)
    ensures ParseDigits(acc, a + b) == ParseDigits(ParseDigits(acc, a).0, b)
    decreases |a|
  {
    if a == [] {
      assert a + b == b;
    } else {
      assert (a + b)[1..] == a[1..] + b;
      ParseDigitsSplits(10 * acc + (a[0] - 48), a[1..], b);
    }
  }

  lemma {:induction false} ParseDigitsInverts(n: nat, rest: Text)
    requires rest == [] || !IsDigit(rest[0])
    ensures ParseDigits(0, Digits(n) + rest) == (n, rest)
  {
    DigitsAreDigits(n);
    DigitsValue(n);
    ParseDigitsSplits(0, Digits(n), rest);
  }

  lemma {:induction false} DigitsValue(n: nat)
    ensures ParseDigits(0, Digits(n)).0 == n
  {
    if n < 10 {
      assert ParseDigits(0, Digits(n)) == ParseDigits(n, Digits(n)[1..]);
    } else {
      DigitsValue(n / 10);
      DigitsAreDigits(n / 10);
      var last: Text := [48 + n % 10];
      ParseDigitsSplits(0, Digits(n / 10), last);
      assert ParseDigits(n / 10, last) == ParseDigits(10 * (n / 10) + n % 10, last[1..]);
    }
  }

  lemma ParseDecimalInverts(n: int, rest: Text)
    requires AtDelimiter(rest)
    ensures ParseDecimal(Decimal(n) + rest) == Parsed(n, rest)
  {
    if n < 0 {
      hide ParseDigits, Digits;
      DigitsAreDigits(-n);
      ParseDigitsInverts(-n, rest);
      assert (Decimal(n) + rest)[1..] == Digits(-n) + rest;
    } else {
      hide ParseDigits, Digits;
      DigitsAreDigits(n);
      ParseDigitsInverts(n, rest);
    }
  }

  lemma HexDigitDecodes(n: nat)
    requires n < 16
    ensures IsHexDigit(HexDigit(n)) && HexValue(HexDigit(n)) == n
  {
  }

  lemma HexPairParses(b: Byte, t: Text)
    ensures ParseHex([HexDigit(b / 16), HexDigit(b % 16)] + t) == ([b] + ParseHex(t).0, ParseHex(t).1)
  {
    HexDigitDecodes(b / 16);
    HexDigitDecodes(b % 16);
    assert ([HexDigit(b / 16), HexDigit(b % 16)] + t)[2..] == t;
  }

  lemma {:induction false} ParseHexInverts(data: seq<Byte>, rest: Text)
    requires AtDelimiter(rest)
    ensures ParseHex(Hex(data) + rest) == (data, rest)
  {
    if data == [] {
      assert Hex(data) + rest == rest;
    } else {
      hide ParseHex;
      ParseHexInverts(data[1..], rest);
      HexPairParses(data[0], Hex(data[1..]) + rest);
      Regroup([HexDigit(data[0] / 16), HexDigit(data[0] % 16)], Hex(data[1..]), rest);
      assert data == [data[0]] + data[1..];
    }
  }

  lemma EscapeParses(a: Unit, b: Unit, c: Unit, d: Unit, rest: Text)
    requires IsHexDigit(a) && IsHexDigit(b) && IsHexDigit(c) && IsHexDigit(d)
    ensures ParseChars([BACKSLASH, 117, a, b, c, d] + rest)
            == Prepend(HexValue(a) * 4096 + HexValue(b) * 256 + HexValue(c) * 16 + HexValue(d), ParseChars(rest))
  {
    var t := [BACKSLASH, 117, a, b, c, d] + rest;
    assert t[6..] == rest;
    assert t[0] == BACKSLASH && t[1] == 117 && t[2] == a && t[3] == b && t[4] == c && t[5] == d;
  }

  lemma UnicodeEscapeDecodes(u: Unit, rest: Text)
    ensures ParseChars(UnicodeEscape(u) + rest) == Prepend(u, ParseChars(rest))
  {
    var t := UnicodeEscape(u) + rest;
    var a, b, c, d := u / 16 / 16 / 16, u / 16 / 16 % 16, u / 16 % 16, u % 16;
    HexDigitDecodes(a);
    HexDigitDecodes(b);
    HexDigitDecodes(c);
    HexDigitDecodes(d);
    EscapeParses(HexDigit(a), HexDigit(b), HexDigit(c), HexDigit(d), rest);
    assert 4096 * a + 256 * b + 16 * c + d == u;
  }

  lemma ParseOneUnit(s: Text, i: nat, rest: Text)
    requires i < |s|
    ensures ParseChars(EscapeUnit(s, i) + rest) == Prepend(s[i], ParseChars(rest))
  {
    var e := EscapeUnit(s, i);
    var t := e + rest;
    if |e| == 1 {
      assert t[0] == s[i] && t[1..] == rest;
    } else if |e| == 2 {
      assert t[0] == BACKSLASH && t[1] == e[1] && t[2..] == rest;
    } else {
      UnicodeEscapeDecodes(s[i], rest);
    }
  }

  lemma ParseClosingQuote(rest: Text)
    ensures ParseChars([QUOTE] + rest) == Parsed([], rest)
  {
    assert ([QUOTE] + rest)[1..] == rest;
  }

  lemma {:induction false} ParseCharsInverts(s: Text, i: nat, rest: Text)
    requires i <= |s|
    ensures ParseChars(Escaped(s, i) + [QUOTE] + rest) == Parsed(s[i..], rest)
    decreases |s| - i
  {
    if i < |s| {
      hide ParseChars, EscapeUnit;
      ParseCharsInverts(s, i + 1, rest);
      var tail := Escaped(s, i + 1) + [QUOTE] + rest;
      ParseOneUnit(s, i, tail);
      Regroup(EscapeUnit(s, i), Escaped(s, i + 1), [QUOTE]);
      Regroup(EscapeUnit(s, i), Escaped(s, i + 1) + [QUOTE], rest);
      assert Escaped(s, i) + [QUOTE] + rest == EscapeUnit(s, i) + tail;
      assert s[i..] == [s[i]] + s[i + 1..];
    } else {
      hide ParseChars;
      ParseClosingQuote(rest);
      assert Escaped(s, i) + [QUOTE] == [QUOTE];
      assert s[i..] == [];
    }
  }

  lemma ParseQuotedInverts(s: Text, rest: Text)
    ensures Quoted(s) != [] && Quoted(s)[0] == QUOTE
    ensures ParseChars((Quoted(s) + rest)[1..]) == Parsed(s, rest)
  {
    hide ParseChars, Escaped;
    ParseCharsInverts(s, 0, rest);
    assert (Quoted(s) + rest)[1..] == Escaped(s, 0) + [QUOTE] + rest;
  }

  /** No printed value begins like a closing bracket or brace. */
  lemma PrintStarts(v: Value)
    ensures Print(v) != [] && Print(v)[0] != CLOSE_BRACKET && Print(v)[0] != CLOSE_BRACE
  {
    if v.Num? { DigitsAreDigits(if v.number < 0 then -v.number else v.number); }
  }

  /** Two units tell the tagged and literal prints apart. */
  lemma TagsDiffer(t: Text)
    ensures StartsWith(t, BYTES_TAG) ==> t[0] == 98 && t[1] == 121
    ensures StartsWith(t, BIGINT_TAG) ==> t[0] == 98 && t[1] == 105
    ensures StartsWith(t, UNDEFINED_TEXT) ==> t[0] == 117
    ensures StartsWith(t, NULL_TEXT) ==> t[0] == 110
    ensures StartsWith(t, TRUE_TEXT) ==> t[0] == 116
    ensures StartsWith(t, FALSE_TEXT) ==> t[0] == 102
  {
    if StartsWith(t, BYTES_TAG) { assert t[..6][0] == t[0] && t[..6][1] == t[1]; }
    if StartsWith(t, BIGINT_TAG) { assert t[..7][0] == t[0] && t[..7][1] == t[1]; }
    if StartsWith(t, UNDEFINED_TEXT) { assert t[..9][0] == t[0]; }
    if StartsWith(t, NULL_TEXT) { assert t[..4][0] == t[0]; }
    if StartsWith(t, TRUE_TEXT) { assert t[..4][0] == t[0]; }
    if StartsWith(t, FALSE_TEXT) { assert t[..5][0] == t[0]; }
  }

  lemma WordInverts(v: Value, rest: Text)
    requires v.Undefined? || v.Null? || v.Bool?
    ensures Parse(Print(v) + rest) == Parsed(v, rest)
  {
    var w := Print(v);
    var t := w + rest;
    assert t[..|w|] == w && t[|w|..] == rest && t[0] == w[0];
    TagsDiffer(t);
  }

  lemma NumberInverts(n: int, rest: Text)
    requires AtDelimiter(rest)
    ensures Parse(Print(Num(n)) + rest) == Parsed(Num(n), rest)
  {
    DigitsAreDigits(if n < 0 then -n else n);
    ParseDecimalInverts(n, rest);
    TagsDiffer(Print(Num(n)) + rest);
  }

  lemma BytesInvert(data: seq<Byte>, rest: Text)
    requires AtDelimiter(rest)
    ensures Parse(Print(Bytes(data)) + rest) == Parsed(Bytes(data), rest)
  {
    hide ParseHex, Hex;
    var t := Print(Bytes(data)) + rest;
    ParseHexInverts(data, rest);
    assert t[..6] == BYTES_TAG && t[6..] == Hex(data) + rest;
    assert t[0] == 98;
  }

  lemma BigIntInverts(n: int, rest: Text)
    requires AtDelimiter(rest)
    ensures Parse(Print(Big(n)) + rest) == Parsed(Big(n), rest)
  {
    hide ParseDecimal, Decimal;
    var t := Print(Big(n)) + rest;
    TagsDiffer(t);
    ParseDecimalInverts(n, rest);
    assert t[..7] == BIGINT_TAG && t[7..] == Decimal(n) + rest;
    assert t[0] == 98 && t[1] == 105;
  }

  lemma StringInverts(text: Text, rest: Text)
    ensures Parse(Print(Str(text)) + rest) == Parsed(Str(text), rest)
  {
    hide ParseChars, Quoted;
    ParseQuotedInverts(text, rest);
  }

  lemma ScalarInverts(v: Value, rest: Text)
    requires !v.Arr? && !v.Rec? && AtDelimiter(rest)
    ensures Parse(Print(v) + rest) == Parsed(v, rest)
  {
    hide Parse, Print;
    if v.Bytes? { BytesInvert(v.data, rest); }
    else if v.Big? { BigIntInverts(v.bigint, rest); }
    else if v.Num? { NumberInverts(v.number, rest); }
    else if v.Str? { StringInverts(v.text, rest); }
    else { WordInverts(v, rest); }
  }

  // ------------------------------------------------------------- round trip

  lemma LastItem(t: Text, v: Value, rest: Text)
    requires Parse(t) == Parsed(v, [CLOSE_BRACKET] + rest)
    ensures ParseItems(t) == Parsed([v], rest)
  {
    assert ([CLOSE_BRACKET] + rest)[1..] == rest;
  }

  lemma NextItem(t: Text, v: Value, more: Text, vs: seq<Value>, rest: Text)
    requires Parse(t) == Parsed(v, [COMMA] + more) && ParseItems(more) == Parsed(vs, rest)
    ensures ParseItems(t) == Parsed([v] + vs, rest)
  {
    assert ([COMMA] + more)[1..] == more;
  }

  lemma WholeArray(t: Text, vs: seq<Value>, rest: Text)
    requires t != [] && t[0] != CLOSE_BRACKET && ParseItems(t) == Parsed(vs, rest)
    ensures Parse([OPEN_BRACKET] + t) == Parsed(Arr(vs), rest)
  {
    assert ([OPEN_BRACKET] + t)[1..] == t;
  }

  lemma EmptyArray(rest: Text)
    ensures Parse([OPEN_BRACKET, CLOSE_BRACKET] + rest) == Parsed(Arr([]), rest)
  {
    assert ([OPEN_BRACKET, CLOSE_BRACKET] + rest)[2..] == rest;
  }

  lemma LastField(k: Text, t: Text, v: Value, rest: Text)
    requires Parse(t) == Parsed(v, [CLOSE_BRACE] + rest)
    ensures ParseFields(Quoted(k) + ([COLON] + t)) == Parsed([Field(k, v)], rest)
  {
    ParseQuotedInverts(k, [COLON] + t);
    assert ([COLON] + t)[1..] == t && ([CLOSE_BRACE] + rest)[1..] == rest;
  }

  lemma NextField(k: Text, t: Text, v: Value, more: Text, fs: seq<Field>, rest: Text)
    requires Parse(t) == Parsed(v, [COMMA] + more) && ParseFields(more) == Parsed(fs, rest)
    ensures ParseFields(Quoted(k) + ([COLON] + t)) == Parsed([Field(k, v)] + fs, rest)
  {
    ParseQuotedInverts(k, [COLON] + t);
    assert ([COLON] + t)[1..] == t && ([COMMA] + more)[1..] == more;
  }

  lemma WholeRecord(t: Text, fs: seq<Field>, rest: Text)
    requires t != [] && t[0] == QUOTE && ParseFields(t) == Parsed(fs, rest)
    ensures Parse([OPEN_BRACE] + t) == Parsed(Rec(fs), rest)
  {
    assert ([OPEN_BRACE] + t)[1..] == t;
  }

  lemma EmptyRecord(rest: Text)
    ensures Parse([OPEN_BRACE, CLOSE_BRACE] + rest) == Parsed(Rec([]), rest)
  {
    assert ([OPEN_BRACE, CLOSE_BRACE] + rest)[2..] == rest;
  }

  /** Parsing a print in front of any delimiter gives the value back, in key order. */
  lemma {:induction false} ParseInvertsPrint(v: Value, rest: Text)
    requires AtDelimiter(rest)
    ensures Parse(Print(v) + rest) == Parsed(Normal(v), rest)
    decreases v
  {
    hide Parse, ParseItems, ParseFields, ParseChars;
    if v.Arr? {
      if v.items == [] {
        EmptyArray(rest);
        assert Print(v) == [OPEN_BRACKET, CLOSE_BRACKET];
      } else {
        var t := PrintItems(v, 0) + [CLOSE_BRACKET] + rest;
        PrintStarts(v.items[0]);
        ItemsInvert(v, 0, rest);
        WholeArray(t, NormalItems(v, 0), rest);
        Regroup([OPEN_BRACKET], PrintItems(v, 0), [CLOSE_BRACKET]);
        Regroup([OPEN_BRACKET], PrintItems(v, 0) + [CLOSE_BRACKET], rest);
      }
    } else if v.Rec? {
      var ks := SortedKeys(v);
      if ks == [] {
        EmptyRecord(rest);
        assert Print(v) == [OPEN_BRACE, CLOSE_BRACE] && NormalFields(v, ks) == [];
      } else {
        var t := PrintFields(v, ks) + [CLOSE_BRACE] + rest;
        FieldsInvert(v, ks, rest);
        WholeRecord(t, NormalFields(v, ks), rest);
        Regroup([OPEN_BRACE], PrintFields(v, ks), [CLOSE_BRACE]);
        Regroup([OPEN_BRACE], PrintFields(v, ks) + [CLOSE_BRACE], rest);
      }
    } else {
      ScalarInverts(v, rest);
    }
  }

  lemma {:induction false} ItemsInvert(v: Value, i: nat, rest: Text)
    requires v.Arr? && i < |v.items|
    ensures ParseItems(PrintItems(v, i) + [CLOSE_BRACKET] + rest) == Parsed(NormalItems(v, i), rest)
    decreases v, |v.items| - i
  {
    hide Parse, ParseItems, Print, Normal;
    var t := PrintItems(v, i) + [CLOSE_BRACKET] + rest;
    var item := v.items[i];
    if i + 1 == |v.items| {
      ParseInvertsPrint(item, [CLOSE_BRACKET] + rest);
      assert t == Print(item) + ([CLOSE_BRACKET] + rest);
      LastItem(t, Normal(item), rest);
      assert NormalItems(v, i) == [Normal(item)] + NormalItems(v, i + 1) && NormalItems(v, i + 1) == [];
      assert [Normal(item)] + [] == [Normal(item)];
    } else {
      var more := PrintItems(v, i + 1) + [CLOSE_BRACKET] + rest;
      ParseInvertsPrint(item, [COMMA] + more);
      assert t == Print(item) + ([COMMA] + more);
      ItemsInvert(v, i + 1, rest);
      NextItem(t, Normal(item), more, NormalItems(v, i + 1), rest);
    }
  }

  lemma {:induction false} FieldsInvert(v: Value, ks: seq<Text>, rest: Text)
    requires v.Rec? && ks != [] && forall k :: k in ks ==> HasKey(v, k)
    ensures ParseFields(PrintFields(v, ks) + [CLOSE_BRACE] + rest) == Parsed(NormalFields(v, ks), rest)
    decreases v, |ks|
  {
    hide Parse, ParseFields, ParseChars, Print, Quoted, Normal, Get;
    var t := PrintFields(v, ks) + [CLOSE_BRACE] + rest;
    var value := Get(v, ks[0]);
    if |ks| == 1 {
      var after := [CLOSE_BRACE] + rest;
      ParseInvertsPrint(value, after);
      assert t == Quoted(ks[0]) + ([COLON] + (Print(value) + after));
      LastField(ks[0], Print(value) + after, Normal(value), rest);
      assert NormalFields(v, ks) == [Field(ks[0], Normal(value))] + NormalFields(v, ks[1..]);
      assert NormalFields(v, ks[1..]) == [];
      assert [Field(ks[0], Normal(value))] + [] == [Field(ks[0], Normal(value))];
    } else {
      var more := PrintFields(v, ks[1..]) + [CLOSE_BRACE] + rest;
      ParseInvertsPrint(value, [COMMA] + more);
      assert t == Quoted(ks[0]) + ([COLON] + (Print(value) + ([COMMA] + more)));
      FieldsInvert(v, ks[1..], rest);
      NextField(ks[0], Print(value) + ([COMMA] + more), Normal(value), more, NormalFields(v, ks[1..]), rest);
    }
  }

  // ------------------------------------------- normal forms against equality

  lemma {:induction false} NormalItemsAt(v: Value, i: nat, j: nat)
    requires v.Arr? && i <= j < |v.items|
    ensures NormalItems(v, i)[j - i] == Normal(v.items[j])
    decreases j - i
  {
    if i < j { NormalItemsAt(v, i + 1, j); }
  }

  lemma {:induction false} NormalFieldsAt(v: Value, ks: seq<Text>, j: nat)
    requires v.Rec? && (forall k :: k in ks ==> HasKey(v, k)) && j < |ks|
    ensures NormalFields(v, ks)[j] == Field(ks[j], Normal(Get(v, ks[j])))
    decreases j
  {
    if j > 0 { NormalFieldsAt(v, ks[1..], j - 1); }
  }

  lemma {:induction false} GetIsUnique(v: Value, i: nat)
    requires v.Rec? && Distinct(Keys(v)) && i < |v.fields|
    ensures HasKey(v, v.fields[i].key) && Get(v, v.fields[i].key) == v.fields[i].value
  {
    var key := v.fields[i].key;
    assert HasKey(v, key);
    var r := Get(v, key);
    var j :| 0 <= j < |v.fields| && v.fields[j] == Field(key, r);
    assert Keys(v)[i] == Keys(v)[j];
  }

  lemma SortedKeysFacts(v: Value)
    requires v.Rec? && Plain(v)
    ensures Ascending(SortedKeys(v))
    ensures forall k :: k in SortedKeys(v) <==> HasKey(v, k)
  {
    SortAscends(Keys(v));
    SortKeeps(Keys(v));
    forall k | HasKey(v, k) ensures k in Keys(v) {
      var i :| 0 <= i < |v.fields| && v.fields[i].key == k;
      assert Keys(v)[i] == k;
    }
  }

  /** Equal values up to key order have one normal form. */
  lemma {:induction false} SameHaveOneNormalForm(a: Value, b: Value)
    requires Plain(a) && Plain(b) && Same(a, b)
    ensures Normal(a) == Normal(b)
    decreases a
  {
    if a.Arr? && b.Arr? {
      forall i | 0 <= i < |a.items| ensures NormalItems(a, 0)[i] == NormalItems(b, 0)[i] {
        NormalItemsAt(a, 0, i);
        NormalItemsAt(b, 0, i);
        SameHaveOneNormalForm(a.items[i], b.items[i]);
      }
    } else if a.Rec? && b.Rec? {
      SameRecordsHaveOneNormalForm(a, b);
    }
  }

  lemma SameHaveSameKeys(a: Value, b: Value)
    requires a.Rec? && b.Rec? && Plain(a) && Plain(b) && Same(a, b)
    ensures SortedKeys(a) == SortedKeys(b)
  {
    SortedKeysFacts(a);
    SortedKeysFacts(b);
    forall k | HasKey(a, k) ensures HasKey(b, k) { var i :| 0 <= i < |a.fields| && a.fields[i].key == k; }
    forall k | HasKey(b, k) ensures HasKey(a, k) { var i :| 0 <= i < |b.fields| && b.fields[i].key == k; }
    AscendingIsUnique(SortedKeys(a), SortedKeys(b));
  }

  lemma {:induction false} SameRecordsHaveOneNormalForm(a: Value, b: Value)
    requires a.Rec? && b.Rec? && Plain(a) && Plain(b) && Same(a, b)
    ensures Normal(a) == Normal(b)
    decreases a, 0
  {
    hide SortedKeys, Get;
    SameHaveSameKeys(a, b);
    var ks := SortedKeys(a);
    forall j | 0 <= j < |ks| ensures NormalFields(a, ks)[j] == NormalFields(b, ks)[j] {
      NormalFieldsAt(a, ks, j);
      NormalFieldsAt(b, ks, j);
      assert ks[j] in ks;
      var i :| 0 <= i < |a.fields| && a.fields[i].key == ks[j];
      GetIsUnique(a, i);
      PlainField(b, ks[j]);
      SameHaveOneNormalForm(a.fields[i].value, Get(b, ks[j]));
    }
  }

  lemma PlainField(v: Value, key: Text)
    requires v.Rec? && Plain(v) && HasKey(v, key)
    ensures Plain(Get(v, key))
  {
    var i :| 0 <= i < |v.fields| && v.fields[i] == Field(key, Get(v, key));
  }

  /** One normal form means equal values up to key order. */
  lemma {:induction false} OneNormalFormMeansSame(a: Value, b: Value)
    requires Plain(a) && Plain(b) && Normal(a) == Normal(b)
    ensures Same(a, b)
    decreases a
  {
    if a.Arr? && b.Arr? {
      assert |NormalItems(a, 0)| == |NormalItems(b, 0)|;
      forall i | 0 <= i < |a.items| ensures Same(a.items[i], b.items[i]) {
        NormalItemsAt(a, 0, i);
        NormalItemsAt(b, 0, i);
        OneNormalFormMeansSame(a.items[i], b.items[i]);
      }
    } else if a.Rec? && b.Rec? {
      SortedKeysFacts(a);
      SortedKeysFacts(b);
      var ka, kb := SortedKeys(a), SortedKeys(b);
      var na, nb := NormalFields(a, ka), NormalFields(b, kb);
      assert Normal(a) == Rec(na) && Normal(b) == Rec(nb);
      assert na == nb && |ka| == |kb|;
      forall j | 0 <= j < |ka| ensures ka[j] == kb[j] { assert na[j].key == ka[j] && nb[j].key == kb[j]; }
      assert ka == kb;
      forall i | 0 <= i < |b.fields| ensures HasKey(a, b.fields[i].key) {
        assert HasKey(b, b.fields[i].key);
      }
      forall i | 0 <= i < |a.fields|
        ensures HasKey(b, a.fields[i].key) && Same(a.fields[i].value, Get(b, a.fields[i].key))
      {
        GetIsUnique(a, i);
        var j :| 0 <= j < |ka| && ka[j] == a.fields[i].key;
        NormalFieldsAt(a, ka, j);
        NormalFieldsAt(b, kb, j);
        PlainField(b, ka[j]);
        OneNormalFormMeansSame(a.fields[i].value, Get(b, ka[j]));
      }
    }
  }

  lemma {:induction false} PrintDependsOnNormal(a: Value, b: Value)
    requires Plain(a) && Plain(b) && Normal(a) == Normal(b)
    ensures Print(a) == Print(b)
    decreases a
  {
    if a.Arr? && b.Arr? {
      assert |NormalItems(a, 0)| == |NormalItems(b, 0)|;
      ItemsPrintAlike(a, b, 0);
    } else if a.Rec? && b.Rec? {
      SortedKeysFacts(a);
      SortedKeysFacts(b);
      var ka, kb := SortedKeys(a), SortedKeys(b);
      var na, nb := NormalFields(a, ka), NormalFields(b, kb);
      assert Normal(a) == Rec(na) && Normal(b) == Rec(nb);
      forall j | 0 <= j < |ka| ensures ka[j] == kb[j] { assert na[j].key == ka[j] && nb[j].key == kb[j]; }
      assert ka == kb;
      FieldsPrintAlike(a, b, ka);
    }
  }

  lemma {:induction false} ItemsPrintAlike(a: Value, b: Value, i: nat)
    requires a.Arr? && b.Arr? && Plain(a) && Plain(b) && |a.items| == |b.items| && i <= |a.items|
    requires NormalItems(a, i) == NormalItems(b, i)
    ensures PrintItems(a, i) == PrintItems(b, i)
    decreases a, |a.items| - i
  {
    if i < |a.items| {
      NormalItemsAt(a, i, i);
      NormalItemsAt(b, i, i);
      PrintDependsOnNormal(a.items[i], b.items[i]);
      assert NormalItems(a, i)[1..] == NormalItems(a, i + 1);
      assert NormalItems(b, i)[1..] == NormalItems(b, i + 1);
      ItemsPrintAlike(a, b, i + 1);
    }
  }

  lemma {:induction false} FieldsPrintAlike(a: Value, b: Value, ks: seq<Text>)
    requires a.Rec? && b.Rec? && Plain(a) && Plain(b)
    requires forall k :: k in ks ==> HasKey(a, k) && HasKey(b, k)
    requires NormalFields(a, ks) == NormalFields(b, ks)
    ensures PrintFields(a, ks) == PrintFields(b, ks)
    decreases a, |ks|
  {
    if ks != [] {
      NormalFieldsAt(a, ks, 0);
      NormalFieldsAt(b, ks, 0);
      PlainField(a, ks[0]);
      PlainField(b, ks[0]);
      PrintDependsOnNormal(Get(a, ks[0]), Get(b, ks[0]));
      assert NormalFields(a, ks)[1..] == NormalFields(a, ks[1..]);
      assert NormalFields(b, ks)[1..] == NormalFields(b, ks[1..]);
      FieldsPrintAlike(a, b, ks[1..]);
    }
  }

  /** `exact` passes on plain data exactly when the values agree up to record key order. */
  lemma ExactComparison(a: Value, b: Value)
    requires Plain(a) && Plain(b)
    ensures Print(a) == Print(b) <==> Same(a, b)
  {
    hide Print, Parse, Normal, Same, Plain;
    if Same(a, b) {
      SameHaveOneNormalForm(a, b);
      PrintDependsOnNormal(a, b);
    }
    if Print(a) == Print(b) {
      ParseInvertsPrint(a, []);
      ParseInvertsPrint(b, []);
      assert Print(a) + [] == Print(a) && Print(b) + [] == Print(b);
      OneNormalFormMeansSame(a, b);
    }
  }

  /** No print is a proper prefix of another print followed by a delimiter. */
  lemma PrintsAreSelfDelimiting(a: Value, b: Value, afterA: Text, afterB: Text)
    requires Plain(a) && Plain(b) && AtDelimiter(afterA) && AtDelimiter(afterB)
    requires Print(a) + afterA == Print(b) + afterB
    ensures Same(a, b) && afterA == afterB
  {
    ParseInvertsPrint(a, afterA);
    ParseInvertsPrint(b, afterB);
    OneNormalFormMeansSame(a, b);
  }
}
