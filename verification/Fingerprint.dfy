// The sibling printer `canonicalJson` of packages/app/src/claimFeed.ts: like `canonical`, but a
// field whose value is undefined is left out.
module Fingerprint {
  import opened Prelude
  import opened Canonical
  import opened CanonicalRoundTrip

  /** JSON data: undefined only as a field's value, no bytes and no bigints. */
  predicate Json(v: Value) {
    match v
    case Undefined => false
    case Big(_) => false
    case Bytes(_) => false
    case Arr(items) => forall i :: 0 <= i < |items| ==> Json(items[i])
    case Rec(fields) => forall i :: 0 <= i < |fields| ==> fields[i].value.Undefined? || Json(fields[i].value)
    case _ => true
  }

  function DefinedKeys(fields: seq<Field>): (ks: seq<Text>)
    ensures forall k :: k in ks ==> exists i :: 0 <= i < |fields| && fields[i].key == k && !fields[i].value.Undefined?
  {
    if fields == [] then []
    else
      var rest := DefinedKeys(fields[1..]);
      assert forall k :: k in rest ==>
        exists i :: 0 <= i < |fields| && fields[i].key == k && !fields[i].value.Undefined? by {
        forall k | k in rest
          ensures exists i :: 0 <= i < |fields| && fields[i].key == k && !fields[i].value.Undefined?
        {
          var i :| 0 <= i < |fields[1..]| && fields[1..][i].key == k && !fields[1..][i].value.Undefined?;
          assert fields[i + 1].key == k;
        }
      }
      (if fields[0].value.Undefined? then [] else [fields[0].key]) + rest
  }

  function SortedDefinedKeys(v: Value): (ks: seq<Text>)
    requires v.Rec?
    ensures forall k :: k in ks ==> HasKey(v, k)
  {
    SortKeeps(DefinedKeys(v.fields));
    Sort(DefinedKeys(v.fields))
  }

  /** `canonicalJson`. */
  function PrintJson(v: Value): Text
    decreases v
  {
    match v
    case Arr(_) => [OPEN_BRACKET] + PrintJsonItems(v, 0) + [CLOSE_BRACKET]
    case Rec(_) => [OPEN_BRACE] + PrintJsonFields(v, SortedDefinedKeys(v)) + [CLOSE_BRACE]
    case _ => Print(v)
  }

  function PrintJsonItems(v: Value, i: nat): Text
    requires v.Arr? && i <= |v.items|
    decreases v, |v.items| - i
  {
    if i == |v.items| then []
    else PrintJson(v.items[i]) + (if i + 1 == |v.items| then [] else [COMMA] + PrintJsonItems(v, i + 1))
  }

  function PrintJsonFields(v: Value, ks: seq<Text>): Text
    requires v.Rec? && forall k :: k in ks ==> HasKey(v, k)
    decreases v, |ks|
  {
    if ks == [] then []
    else Quoted(ks[0]) + [COLON] + PrintJson(Get(v, ks[0]))
         + (if |ks| == 1 then [] else [COMMA] + PrintJsonFields(v, ks[1..]))
  }

  /** The value without its undefined fields, at every depth. */
  function Defined(v: Value): Value
    decreases v
  {
    match v
    case Arr(items) => Arr(seq(|items|, i requires 0 <= i < |items| => Defined(items[i])))
    case Rec(_) => Rec(DefinedFields(v, 0))
    case _ => v
  }

  function DefinedFields(v: Value, i: nat): seq<Field>
    requires v.Rec? && i <= |v.fields|
    decreases v, |v.fields| - i
  {
    if i == |v.fields| then []
    else (if v.fields[i].value.Undefined? then [] else [Field(v.fields[i].key, Defined(v.fields[i].value))])
         + DefinedFields(v, i + 1)
  }

  lemma {:induction false} DefinedFieldsFacts(v: Value, i: nat)
    requires v.Rec? && i <= |v.fields|
    ensures Keys(Rec(DefinedFields(v, i))) == DefinedKeys(v.fields[i..])
    ensures forall f :: f in DefinedFields(v, i) ==>
      exists j :: i <= j < |v.fields| && v.fields[j].key == f.key && f.value == Defined(v.fields[j].value)
    decreases |v.fields| - i
  {
    if i < |v.fields| {
      DefinedFieldsFacts(v, i + 1);
      assert v.fields[i..][1..] == v.fields[i + 1..];
    }
  }

  lemma {:induction false} DefinedKeysDistinct(fields: seq<Field>)
    requires Distinct(Keys(Rec(fields)))
    ensures Distinct(DefinedKeys(fields))
  {
    if fields != [] {
      var all := Keys(Rec(fields));
      forall i, j | 0 <= i < j < |fields[1..]| ensures Keys(Rec(fields[1..]))[i] != Keys(Rec(fields[1..]))[j] {
        assert all[i + 1] != all[j + 1];
      }
      DefinedKeysDistinct(fields[1..]);
      forall k | k in DefinedKeys(fields[1..]) ensures k != fields[0].key {
        var i :| 0 <= i < |fields[1..]| && fields[1..][i].key == k;
        assert all[0] != all[i + 1];
      }
      var ks, rest := DefinedKeys(fields), DefinedKeys(fields[1..]);
      forall i, j | 0 <= i < j < |ks| ensures ks[i] != ks[j] {
        if !fields[0].value.Undefined? {
          assert ks == [fields[0].key] + rest;
          assert ks[j] == rest[j - 1] && rest[j - 1] in rest;
          if i > 0 { assert ks[i] == rest[i - 1]; }
        }
      }
    }
  }

  lemma {:induction false} DefinedIsPlain(v: Value)
    requires Plain(v)
    ensures Plain(Defined(v))
    decreases v
  {
    match v
    case Arr(items) => forall i | 0 <= i < |items| { DefinedIsPlain(items[i]); }
    case Rec(fields) =>
      DefinedFieldsFacts(v, 0);
      assert fields[0..] == fields;
      assert v == Rec(fields);
      DefinedKeysDistinct(fields);
      var kept := DefinedFields(v, 0);
      forall i | 0 <= i < |kept| ensures Plain(kept[i].value) {
        assert kept[i] in kept;
        var j :| 0 <= j < |fields| && fields[j].key == kept[i].key && kept[i].value == Defined(fields[j].value);
        DefinedIsPlain(fields[j].value);
      }
    case _ =>
  }

  lemma {:induction false} GetDefined(v: Value, k: Text)
    requires v.Rec? && Plain(v) && HasKey(v, k) && HasKey(Defined(v), k)
    ensures Get(Defined(v), k) == Defined(Get(v, k))
  {
    DefinedFieldsFacts(v, 0);
    var r := Get(Defined(v), k);
    var j :| 0 <= j < |v.fields| && v.fields[j].key == k && r == Defined(v.fields[j].value);
    GetIsUnique(v, j);
  }

  /** The fingerprint prints what is defined, as `canonical` would. */
  lemma {:induction false} PrintsDefined(v: Value)
    requires Plain(v)
    ensures PrintJson(v) == Print(Defined(v))
    decreases v
  {
    if v.Arr? {
      ItemsPrintDefined(v, 0);
    } else if v.Rec? {
      DefinedFieldsFacts(v, 0);
      assert v.fields[0..] == v.fields;
      assert SortedKeys(Defined(v)) == SortedDefinedKeys(v);
      FieldsPrintDefined(v, SortedDefinedKeys(v));
    }
  }

  lemma {:induction false} ItemsPrintDefined(v: Value, i: nat)
    requires v.Arr? && Plain(v) && i <= |v.items|
    ensures PrintJsonItems(v, i) == PrintItems(Defined(v), i)
    decreases v, |v.items| - i
  {
    if i < |v.items| {
      PrintsDefined(v.items[i]);
      ItemsPrintDefined(v, i + 1);
    }
  }

  lemma {:induction false} FieldsPrintDefined(v: Value, ks: seq<Text>)
    requires v.Rec? && Plain(v) && forall k :: k in ks ==> HasKey(v, k) && HasKey(Defined(v), k)
    ensures PrintJsonFields(v, ks) == PrintFields(Defined(v), ks)
    decreases v, |ks|
  {
    hide PrintJson, Print, Defined, Get, Quoted;
    if ks != [] {
      PlainField(v, ks[0]);
      GetDefined(v, ks[0]);
      PrintsDefined(Get(v, ks[0]));
      FieldsPrintDefined(v, ks[1..]);
    }
  }

  /** Two claims have one fingerprint exactly when their defined fields agree, in any order. */
  lemma FingerprintComparison(a: Value, b: Value)
    requires Plain(a) && Plain(b) && Json(a) && Json(b)
    ensures PrintJson(a) == PrintJson(b) <==> Same(Defined(a), Defined(b))
  {
    PrintsDefined(a);
    PrintsDefined(b);
    DefinedIsPlain(a);
    DefinedIsPlain(b);
    ExactComparison(Defined(a), Defined(b));
  }
}
