// Asset holdings, and the per-id totals that many source functions build in a local map.
module Assets {
  import opened Prelude
  import Canonical

  type AssetId = Canonical.Text

  datatype Holding = Holding(assetId: AssetId, units: int)

  function UnitsOf(held: seq<Holding>, id: AssetId): int {
    if held == [] then 0
    else (if held[0].assetId == id then held[0].units else 0) + UnitsOf(held[1..], id)
  }

  predicate Names(held: seq<Holding>, id: AssetId) {
    exists i :: 0 <= i < |held| && held[i].assetId == id
  }

  predicate UniqueNames(held: seq<Holding>) {
    forall i, j :: 0 <= i < j < |held| ==> held[i].assetId != held[j].assetId
  }

  lemma {:induction false} UnitsOfConcat(a: seq<Holding>, b: seq<Holding>, id: AssetId)
    ensures UnitsOf(a + b, id) == UnitsOf(a, id) + UnitsOf(b, id)
  {
    if a == [] {
      assert a + b == b;
    } else {
      assert (a + b)[1..] == a[1..] + b;
      UnitsOfConcat(a[1..], b, id);
    }
  }

  lemma {:induction false} UnnamedHasNone(held: seq<Holding>, id: AssetId)
    requires !Names(held, id)
    ensures UnitsOf(held, id) == 0
  {
    if held != [] {
      assert held[0].assetId != id;
      forall i | 0 <= i < |held[1..]| ensures held[1..][i].assetId != id { assert held[i + 1].assetId != id; }
      UnnamedHasNone(held[1..], id);
    }
  }

  /** For every id named and no other, the units of all its holdings. */
  ghost predicate Totalled(totals: map<AssetId, int>, held: seq<Holding>) {
    && (forall id :: id in totals <==> Names(held, id))
    && (forall id :: id in totals ==> totals[id] == UnitsOf(held, id))
  }

  /** `map.set(id, (map.get(id) ?? 0n) + amount)`. */
  function Added(totals: map<AssetId, int>, next: Holding): map<AssetId, int> {
    totals[next.assetId := (if next.assetId in totals then totals[next.assetId] else 0) + next.units]
  }

  lemma OneMoreHolding(totals: map<AssetId, int>, held: seq<Holding>, next: Holding)
    requires Totalled(totals, held)
    ensures Totalled(Added(totals, next), held + [next])
  {
    forall id
      ensures UnitsOf(held + [next], id) == UnitsOf(held, id) + (if next.assetId == id then next.units else 0)
      ensures Names(held + [next], id) <==> Names(held, id) || next.assetId == id
    {
      UnitsOfConcat(held, [next], id);
      assert [next][1..] == [] && (held + [next])[|held|] == next;
      if Names(held, id) { var k :| 0 <= k < |held| && held[k].assetId == id; assert (held + [next])[k] == held[k]; }
    }
    forall id | !Names(held, id) ensures UnitsOf(held, id) == 0 { UnnamedHasNone(held, id); }
  }

  method Totals(held: seq<Holding>) returns (totals: map<AssetId, int>)
    ensures forall id :: id in totals <==> Names(held, id)
    ensures forall id :: id in totals ==> totals[id] == UnitsOf(held, id)
  {
    totals := map[];
    for i := 0 to |held|
      invariant Totalled(totals, held[..i])
    {
      OneMoreHolding(totals, held[..i], held[i]);
      assert held[..i + 1] == held[..i] + [held[i]];
      totals := Added(totals, held[i]);
    }
    assert held[..|held|] == held;
  }

  /** The units a list gives one asset, over all its entries. */
  function UnitsAmong(held: seq<Holding>, id: AssetId): int {
    Sum(held, UnitsWhere(id))
  }

  function UnitsWhere(id: AssetId): Holding -> int { (h: Holding) => if h.assetId == id then h.units else 0 }

  lemma {:induction false} UnitsAmongIs(held: seq<Holding>, id: AssetId)
    ensures UnitsAmong(held, id) == UnitsOf(held, id)
  {
    if held != [] { UnitsAmongIs(held[1..], id); }
  }
}
