// What acceptance by `assertFillGraph` means: assets are conserved, and the Taxi gets its
// reservation back less the loan plus the fare, up to the indexed coins that settle the fill.
module FillConservation {
  import opened Prelude
  import opened Assets
  import opened FillGraph
  import R = FillReconciler
  import P = FillProtocol

  // --------------------------------------------------- packet legs by asset id

  /** Units of one asset entering or leaving at one input or output. */
  datatype Leg = Leg(id: AssetId, at: nat, amount: int)

  function UnitsAtPlace(legs: seq<Leg>, id: AssetId, at: nat): int {
    if legs == [] then 0
    else (if legs[0].id == id && legs[0].at == at then legs[0].amount else 0) + UnitsAtPlace(legs[1..], id, at)
  }

  function UnitsAnywhere(legs: seq<Leg>, id: AssetId): int {
    if legs == [] then 0 else (if legs[0].id == id then legs[0].amount else 0) + UnitsAnywhere(legs[1..], id)
  }

  function UnitsAtPlaces(legs: seq<Leg>, id: AssetId, places: seq<nat>): int {
    if places == [] then 0 else UnitsAtPlace(legs, id, places[0]) + UnitsAtPlaces(legs, id, places[1..])
  }

  lemma {:induction false} PlacesOfConcat(a: seq<Leg>, b: seq<Leg>, id: AssetId, at: nat)
    ensures UnitsAtPlace(a + b, id, at) == UnitsAtPlace(a, id, at) + UnitsAtPlace(b, id, at)
  {
    if a == [] {
      assert a + b == b;
    } else {
      assert (a + b)[1..] == a[1..] + b;
      PlacesOfConcat(a[1..], b, id, at);
    }
  }

  lemma {:induction false} AnywhereOfConcat(a: seq<Leg>, b: seq<Leg>, id: AssetId)
    ensures UnitsAnywhere(a + b, id) == UnitsAnywhere(a, id) + UnitsAnywhere(b, id)
  {
    if a == [] {
      assert a + b == b;
    } else {
      assert (a + b)[1..] == a[1..] + b;
      AnywhereOfConcat(a[1..], b, id);
    }
  }

  /** One leg is counted once over places that name it once. */
  lemma {:induction false} OneLeg(leg: Leg, rest: seq<Leg>, id: AssetId, places: seq<nat>)
    requires Distinct(places)
    ensures UnitsAtPlaces([leg] + rest, id, places)
            == UnitsAtPlaces(rest, id, places) + (if leg.id == id && leg.at in places then leg.amount else 0)
  {
    if places != [] {
      assert ([leg] + rest)[1..] == rest;
      assert forall k :: 0 <= k < |places[1..]| ==> places[1..][k] == places[k + 1] && places[k + 1] != places[0];
      OneLeg(leg, rest, id, places[1..]);
    }
  }

  lemma {:induction false} EveryLegHasAPlace(legs: seq<Leg>, id: AssetId, places: seq<nat>)
    requires Distinct(places) && forall k :: 0 <= k < |legs| ==> legs[k].at in places
    ensures UnitsAtPlaces(legs, id, places) == UnitsAnywhere(legs, id)
  {
    if legs == [] {
      NoLegs(id, places);
    } else {
      OneLeg(legs[0], legs[1..], id, places);
      assert [legs[0]] + legs[1..] == legs;
      EveryLegHasAPlace(legs[1..], id, places);
    }
  }

  lemma {:induction false} NoLegs(id: AssetId, places: seq<nat>)
    ensures UnitsAtPlaces([], id, places) == 0
  {
    if places != [] { NoLegs(id, places[1..]); }
  }

  function InLegs(group: Group): (r: seq<Leg>)
    ensures |r| == |group.inputs|
    ensures forall k :: 0 <= k < |r| ==> r[k] == Leg(IdOf(group), group.inputs[k].vin, group.inputs[k].amount)
  {
    seq(|group.inputs|, k requires 0 <= k < |group.inputs| =>
      Leg(IdOf(group), group.inputs[k].vin, group.inputs[k].amount))
  }

  function OutLegs(group: Group): (r: seq<Leg>)
    ensures |r| == |group.outputs|
    ensures forall k :: 0 <= k < |r| ==> r[k] == Leg(IdOf(group), group.outputs[k].vout, group.outputs[k].amount)
  {
    seq(|group.outputs|, k requires 0 <= k < |group.outputs| =>
      Leg(IdOf(group), group.outputs[k].vout, group.outputs[k].amount))
  }

  function AllIn(groups: seq<Group>): seq<Leg> {
    if groups == [] then [] else AllIn(groups[..|groups| - 1]) + InLegs(groups[|groups| - 1])
  }

  function AllOut(groups: seq<Group>): seq<Leg> {
    if groups == [] then [] else AllOut(groups[..|groups| - 1]) + OutLegs(groups[|groups| - 1])
  }

  // ------------------------------------------------ groups balance id by id

  lemma {:induction false} InLegsTotal(group: Group, id: AssetId)
    ensures UnitsAnywhere(InLegs(group), id) == if IdOf(group) == id then InputUnits(group.inputs) else 0
    decreases |group.inputs|
  {
    if group.inputs != [] {
      var before := group.(inputs := group.inputs[..|group.inputs| - 1]);
      var last := group.inputs[|group.inputs| - 1];
      InLegsTotal(before, id);
      assert InLegs(group) == InLegs(before) + [Leg(IdOf(group), last.vin, last.amount)];
      AnywhereOfConcat(InLegs(before), [Leg(IdOf(group), last.vin, last.amount)], id);
      OneUnit(Leg(IdOf(group), last.vin, last.amount), id);
    }
  }

  lemma {:induction false} OutLegsTotal(group: Group, id: AssetId)
    ensures UnitsAnywhere(OutLegs(group), id) == if IdOf(group) == id then OutputUnits(group.outputs) else 0
    decreases |group.outputs|
  {
    if group.outputs != [] {
      var before := group.(outputs := group.outputs[..|group.outputs| - 1]);
      var last := group.outputs[|group.outputs| - 1];
      OutLegsTotal(before, id);
      assert OutLegs(group) == OutLegs(before) + [Leg(IdOf(group), last.vout, last.amount)];
      AnywhereOfConcat(OutLegs(before), [Leg(IdOf(group), last.vout, last.amount)], id);
      OneUnit(Leg(IdOf(group), last.vout, last.amount), id);
    }
  }

  lemma OneUnit(leg: Leg, id: AssetId)
    ensures UnitsAnywhere([leg], id) == if leg.id == id then leg.amount else 0
  {
    assert [leg][1..] == [];
  }

  lemma {:induction false} GroupsBalance(groups: seq<Group>, id: AssetId)
    requires forall i :: 0 <= i < |groups| ==> InputUnits(groups[i].inputs) == OutputUnits(groups[i].outputs)
    ensures UnitsAnywhere(AllIn(groups), id) == UnitsAnywhere(AllOut(groups), id)
  {
    if groups != [] {
      var before, last := groups[..|groups| - 1], groups[|groups| - 1];
      GroupsBalance(before, id);
      AnywhereOfConcat(AllIn(before), InLegs(last), id);
      AnywhereOfConcat(AllOut(before), OutLegs(last), id);
      InLegsTotal(last, id);
      OutLegsTotal(last, id);
    }
  }

  // --------------------------------- what is declared at an input, leg by leg

  function UnitsDeclared(declared: map<Claimed, int>, c: Claimed): int { if c in declared then declared[c] else 0 }

  lemma {:induction false} NowhereThere(legs: seq<Leg>, id: AssetId, at: nat)
    requires forall k :: 0 <= k < |legs| ==> !(legs[k].id == id && legs[k].at == at)
    ensures UnitsAtPlace(legs, id, at) == 0
  {
    if legs != [] { NowhereThere(legs[1..], id, at); }
  }

  lemma OnePlace(leg: Leg, id: AssetId, at: nat)
    ensures UnitsAtPlace([leg], id, at) == if leg.id == id && leg.at == at then leg.amount else 0
  {
    assert [leg][1..] == [];
  }

  /** No earlier input of a fitting group has the last one's place. */
  lemma LastPlaceIsNew(before: Group, last: AssetInput, n: nat)
    requires InputsFit(before.inputs + [last], n)
    ensures InputsFit(before.inputs, n)
    ensures UnitsAtPlace(InLegs(before), IdOf(before), last.vin) == 0
  {
    var all := before.inputs + [last];
    assert forall k :: 0 <= k < |before.inputs| ==> all[k] == before.inputs[k];
    assert all[|before.inputs|] == last;
    NowhereThere(InLegs(before), IdOf(before), last.vin);
  }

  lemma {:induction false} GroupDeclaresLegs(group: Group, n: nat, c: Claimed)
    requires InputsFit(group.inputs, n)
    ensures UnitsDeclared(GroupDeclares(IdOf(group), group.inputs), c) == UnitsAtPlace(InLegs(group), c.id, c.vin)
    decreases |group.inputs|
  {
    if group.inputs != [] {
      hide UnitsAtPlace, InputsFit;
      var before := group.(inputs := group.inputs[..|group.inputs| - 1]);
      var last := group.inputs[|group.inputs| - 1];
      var leg := Leg(IdOf(group), last.vin, last.amount);
      assert before.inputs + [last] == group.inputs;
      LastPlaceIsNew(before, last, n);
      GroupDeclaresLegs(before, n, c);
      assert InLegs(group) == InLegs(before) + [leg];
      PlacesOfConcat(InLegs(before), [leg], c.id, c.vin);
      OnePlace(leg, c.id, c.vin);
      hide InLegs;
    }
  }

  lemma {:induction false} LegsCarryGroupIds(groups: seq<Group>, k: nat)
    requires k < |AllIn(groups)|
    ensures exists i :: 0 <= i < |groups| && IdOf(groups[i]) == AllIn(groups)[k].id
                        && exists j :: 0 <= j < |groups[i].inputs| && groups[i].inputs[j].vin == AllIn(groups)[k].at
  {
    var before, last := groups[..|groups| - 1], groups[|groups| - 1];
    if k < |AllIn(before)| {
      LegsCarryGroupIds(before, k);
      var i :| 0 <= i < |before| && IdOf(before[i]) == AllIn(before)[k].id
               && exists j :: 0 <= j < |before[i].inputs| && before[i].inputs[j].vin == AllIn(before)[k].at;
      assert groups[i] == before[i];
    } else {
      assert InLegs(last)[k - |AllIn(before)|] == AllIn(groups)[k];
      assert last.inputs[k - |AllIn(before)|].vin == AllIn(groups)[k].at;
    }
  }

  lemma {:induction false} OutLegsLandOn(groups: seq<Group>, vouts: set<nat>, k: nat)
    requires k < |AllOut(groups)| && forall i :: 0 <= i < |groups| ==> OutputsFit(groups[i].outputs, vouts)
    ensures AllOut(groups)[k].at in vouts
  {
    var before, last := groups[..|groups| - 1], groups[|groups| - 1];
    if k < |AllOut(before)| {
      OutLegsLandOn(before, vouts, k);
    } else {
      assert OutLegs(last)[k - |AllOut(before)|] == AllOut(groups)[k];
    }
  }

  predicate Identified(groups: seq<Group>) { forall i :: 0 <= i < |groups| ==> groups[i].assetId.Some? }

  lemma {:induction false} DeclaredLegs(groups: seq<Group>, n: nat, c: Claimed)
    requires UniqueIds(groups) && Identified(groups) && forall i :: 0 <= i < |groups| ==> InputsFit(groups[i].inputs, n)
    ensures UnitsDeclared(Declared(groups), c) == UnitsAtPlace(AllIn(groups), c.id, c.vin)
  {
    hide InputsFit;
    if groups != [] {
      var before, last := groups[..|groups| - 1], groups[|groups| - 1];
      DeclaredLegs(before, n, c);
      PlacesOfConcat(AllIn(before), InLegs(last), c.id, c.vin);
      GroupDeclaresLegs(last, n, c);
      GroupDeclaresOwn(IdOf(last), last.inputs, c);
      if IdOf(last) == c.id {
        forall k | 0 <= k < |AllIn(before)| ensures AllIn(before)[k].id != c.id {
          LegsCarryGroupIds(before, k);
          var i :| 0 <= i < |before| && IdOf(before[i]) == AllIn(before)[k].id;
          assert groups[i] == before[i] && groups[i].assetId != last.assetId;
        }
        NowhereThere(AllIn(before), c.id, c.vin);
        assert UnitsDeclared(Declared(before), c) == 0;
      }
    }
  }

  // -------------------------------------------- what an output is allocated

  lemma {:induction false} UnitsAtLegs(group: Group, vout: nat, id: AssetId)
    ensures UnitsOf(UnitsAt(IdOf(group), group.outputs, vout), id) == UnitsAtPlace(OutLegs(group), id, vout)
    decreases |group.outputs|
  {
    if group.outputs != [] {
      var rest := group.(outputs := group.outputs[1..]);
      UnitsAtLegs(rest, vout, id);
      assert OutLegs(group)[1..] == OutLegs(rest);
      var first := if group.outputs[0].vout == vout then [Holding(IdOf(group), group.outputs[0].amount)] else [];
      UnitsOfConcat(first, UnitsAt(IdOf(group), rest.outputs, vout), id);
      assert first != [] ==> first[1..] == [];
    }
  }

  lemma {:induction false} AssetsAtSnoc(groups: seq<Group>, last: Group, vout: nat)
    ensures AssetsAt(groups + [last], vout) == AssetsAt(groups, vout) + UnitsAt(IdOf(last), last.outputs, vout)
  {
    if groups == [] {
      assert groups + [last] == [last] && [last][1..] == [];
    } else {
      assert (groups + [last])[1..] == groups[1..] + [last];
      AssetsAtSnoc(groups[1..], last, vout);
    }
  }

  lemma {:induction false} UnitsAtNothing(id: AssetId, outputs: seq<AssetOutput>, vout: nat)
    ensures UnitsAt(id, outputs, vout) == [] <==> forall k :: 0 <= k < |outputs| ==> outputs[k].vout != vout
    ensures forall i :: 0 <= i < |UnitsAt(id, outputs, vout)| ==> UnitsAt(id, outputs, vout)[i].assetId == id
  {
    if outputs != [] {
      UnitsAtNothing(id, outputs[1..], vout);
      if forall k :: 0 <= k < |outputs| ==> outputs[k].vout != vout {
        assert forall k :: 0 <= k < |outputs[1..]| ==> outputs[1..][k] == outputs[k + 1];
      } else if outputs[0].vout != vout {
        var k :| 0 <= k < |outputs| && outputs[k].vout == vout;
        assert outputs[1..][k - 1].vout == vout;
      }
    }
  }

  predicate PaysAt(group: Group, vout: nat) { exists k :: 0 <= k < |group.outputs| && group.outputs[k].vout == vout }

  lemma {:induction false} AssetsAtNothing(groups: seq<Group>, vout: nat)
    requires forall i :: 0 <= i < |groups| ==> !PaysAt(groups[i], vout)
    ensures AssetsAt(groups, vout) == []
  {
    if groups != [] {
      assert !PaysAt(groups[0], vout);
      UnitsAtNothing(IdOf(groups[0]), groups[0].outputs, vout);
      AssetsAtNothing(groups[1..], vout);
    }
  }

  lemma {:induction false} AssetsAtSomething(groups: seq<Group>, vout: nat, i: nat)
    requires i < |groups| && PaysAt(groups[i], vout)
    ensures AssetsAt(groups, vout) != []
  {
    if i == 0 {
      UnitsAtNothing(IdOf(groups[0]), groups[0].outputs, vout);
    } else {
      AssetsAtSomething(groups[1..], vout, i - 1);
    }
  }

  lemma NothingAtLegs(vout: nat, id: AssetId)
    ensures UnitsOf(AssetsAt([], vout), id) == 0 == UnitsAtPlace(AllOut([]), id, vout)
  {
  }

  lemma {:induction false} AssetsAtLegs(groups: seq<Group>, vout: nat, id: AssetId)
    ensures UnitsOf(AssetsAt(groups, vout), id) == UnitsAtPlace(AllOut(groups), id, vout)
  {
    hide UnitsOf, UnitsAtPlace, OutLegs, UnitsAt;
    if groups == [] {
      NothingAtLegs(vout, id);
    } else {
      var before, last := groups[..|groups| - 1], groups[|groups| - 1];
      AssetsAtLegs(before, vout, id);
      AssetsAtSnoc(before, last, vout);
      assert before + [last] == groups;
      UnitsOfConcat(AssetsAt(before, vout), UnitsAt(IdOf(last), last.outputs, vout), id);
      UnitsAtLegs(last, vout, id);
      PlacesOfConcat(AllOut(before), OutLegs(last), id, vout);
    }
  }

  // ------------------------------------------------------ conservation

  /** Units of one asset over a list of holdings lists. */
  function UnitsIn(lists: seq<seq<Holding>>, id: AssetId): int {
    if lists == [] then 0 else UnitsOf(lists[0], id) + UnitsIn(lists[1..], id)
  }

  function AssetLists(outputs: seq<R.GraphOutput>): (r: seq<seq<Holding>>)
    ensures |r| == |outputs| && forall i :: 0 <= i < |r| ==> r[i] == outputs[i].assets
  {
    seq(|outputs|, i requires 0 <= i < |outputs| => outputs[i].assets)
  }

  lemma {:induction false} ListsAtPlaces(lists: seq<seq<Holding>>, legs: seq<Leg>, id: AssetId, places: seq<nat>)
    requires |lists| == |places|
    requires forall i :: 0 <= i < |lists| ==> UnitsOf(lists[i], id) == UnitsAtPlace(legs, id, places[i])
    ensures UnitsIn(lists, id) == UnitsAtPlaces(legs, id, places)
  {
    if lists != [] { ListsAtPlaces(lists[1..], legs, id, places[1..]); }
  }

  lemma ObservedIsDeclared(groups: seq<Group>, held: seq<seq<Holding>>, vouts: set<nat>, i: nat, id: AssetId)
    requires AssetsConserved(groups, held, vouts) && i < |held|
    ensures UnitsOf(held[i], id) == UnitsAtPlace(AllIn(groups), id, i)
  {
    var c := Claimed(i, id);
    DeclaredLegs(groups, |held|, c);
    if c !in Declared(groups) { UnnamedHasNone(held[i], id); }
  }

  function Upto(n: nat): (r: seq<nat>)
    ensures |r| == n && forall i :: 0 <= i < n ==> r[i] == i
  {
    seq(n, i => i)
  }

  lemma ConservedByGroups(
    groups: seq<Group>, held: seq<seq<Holding>>, outputs: seq<R.GraphOutput>, places: seq<nat>, id: AssetId)
    requires AssetsConserved(groups, held, Vouts(outputs))
    requires |places| == |outputs| && Distinct(places)
    requires forall i :: 0 <= i < |outputs| ==>
             places[i] == outputs[i].vout && outputs[i].assets == AssetsAt(groups, outputs[i].vout)
    ensures UnitsIn(held, id) == UnitsIn(AssetLists(outputs), id)
  {
    forall i | 0 <= i < |held| ensures UnitsOf(held[i], id) == UnitsAtPlace(AllIn(groups), id, i) {
      ObservedIsDeclared(groups, held, Vouts(outputs), i, id);
    }
    ListsAtPlaces(held, AllIn(groups), id, Upto(|held|));
    forall k | 0 <= k < |AllIn(groups)| ensures AllIn(groups)[k].at in Upto(|held|) {
      InLegsAreInputs(groups, held, Vouts(outputs), k);
    }
    EveryLegHasAPlace(AllIn(groups), id, Upto(|held|));
    GroupsBalance(groups, id);
    forall k | 0 <= k < |AllOut(groups)| ensures AllOut(groups)[k].at in places {
      OutLegsLandOn(groups, Vouts(outputs), k);
      var o :| o in outputs && o.vout == AllOut(groups)[k].at;
      var i :| 0 <= i < |outputs| && outputs[i] == o;
      assert places[i] == AllOut(groups)[k].at;
    }
    EveryLegHasAPlace(AllOut(groups), id, places);
    forall i | 0 <= i < |outputs|
      ensures UnitsOf(AssetLists(outputs)[i], id) == UnitsAtPlace(AllOut(groups), id, places[i])
    {
      AssetsAtLegs(groups, outputs[i].vout, id);
    }
    ListsAtPlaces(AssetLists(outputs), AllOut(groups), id, places);
  }

  lemma InLegsAreInputs(groups: seq<Group>, held: seq<seq<Holding>>, vouts: set<nat>, k: nat)
    requires AssetsConserved(groups, held, vouts) && k < |AllIn(groups)|
    ensures AllIn(groups)[k].at in Upto(|held|)
  {
    LegsCarryGroupIds(groups, k);
    var i :| && 0 <= i < |groups|
             && exists j :: 0 <= j < |groups[i].inputs| && groups[i].inputs[j].vin == AllIn(groups)[k].at;
    assert GroupConserved(groups[i], |held|, vouts);
    assert Upto(|held|)[AllIn(groups)[k].at] == AllIn(groups)[k].at;
  }

  // -------------------------------------------------- the derived outputs

  function Places(outputs: seq<R.GraphOutput>): (r: seq<nat>)
    ensures |r| == |outputs| && forall i :: 0 <= i < |r| ==> r[i] == outputs[i].vout
  {
    seq(|outputs|, i requires 0 <= i < |outputs| => outputs[i].vout)
  }

  /** Derived outputs name distinct transaction outputs and carry what the packet allocates there. */
  lemma {:induction false} DerivedOutputs(tx: Tx, n: nat)
    requires n <= |tx.outputs|
    ensures Distinct(Places(OutputsBefore(tx, n)))
    ensures forall i :: 0 <= i < |OutputsBefore(tx, n)| ==>
              && OutputsBefore(tx, n)[i].vout < n
              && OutputsBefore(tx, n)[i].assets == AssetsAt(Groups(tx), OutputsBefore(tx, n)[i].vout)
              && OutputsBefore(tx, n)[i].sats == tx.outputs[OutputsBefore(tx, n)[i].vout].amount
              && OutputsBefore(tx, n)[i].script == tx.outputs[OutputsBefore(tx, n)[i].vout].script
  {
    hide AssetsAt, Groups, IsValue;
    if n > 0 {
      DerivedOutputs(tx, n - 1);
      var before, after := OutputsBefore(tx, n - 1), OutputsBefore(tx, n);
      forall i, j | 0 <= i < j < |after| ensures Places(after)[i] != Places(after)[j] {
        assert Places(before)[i] == before[i].vout == after[i].vout;
        if j < |before| { assert Places(before)[i] != Places(before)[j]; }
      }
    }
  }

  /**
   * An accepted fill graph conserves every asset: what the inputs are observed to hold is what the
   * value outputs are allocated, and nothing of it comes from a Taxi input.
   */
  lemma AcceptedGraphConservesAssets(a: Args, id: AssetId)
    requires Acceptable(a)
    ensures UnitsIn(Held(Inputs(a.checkpoints), a.observed), id) == UnitsIn(AssetLists(Outputs(a.tx)), id)
  {
    assert Holds(a, AssetNotConserved);
    DerivedOutputs(a.tx, |a.tx.outputs|);
    hide Held, AssetsConserved, AssetsAt, Acceptable, Distinct, Vouts;
    ConservedByGroups(Groups(a.tx), Held(Inputs(a.checkpoints), a.observed), Outputs(a.tx), Places(Outputs(a.tx)), id);
  }

  lemma TaxiInputsHoldNoAssets(a: Args, k: nat)
    requires Acceptable(a) && k < |a.taxiIndexes|
    ensures 0 <= a.taxiIndexes[k] < |a.checkpoints|
    ensures Held(Inputs(a.checkpoints), a.observed)[a.taxiIndexes[k]] == []
    ensures forall g, j :: 0 <= g < |Groups(a.tx)| && 0 <= j < |Groups(a.tx)[g].inputs| ==>
              Groups(a.tx)[g].inputs[j].vin != a.taxiIndexes[k]
  {
    assert Holds(a, TaxiInputsDiffer) && Holds(a, TaxiInputAssets);
    forall g, j | 0 <= g < |Groups(a.tx)| && 0 <= j < |Groups(a.tx)[g].inputs|
      ensures Groups(a.tx)[g].inputs[j].vin != a.taxiIndexes[k]
    {
      assert !TouchesTaxi(Groups(a.tx)[g].inputs, IndexSet(a.taxiIndexes));
      assert a.taxiIndexes[k] in IndexSet(a.taxiIndexes);
    }
  }

  // ----------------------------------------------------------- payout chain

  function SatsOf(outputs: seq<R.GraphOutput>): int {
    if outputs == [] then 0 else outputs[0].sats + SatsOf(outputs[1..])
  }

  /** The covenant output of an accepted graph: what it pays, what it carries, and that no other shares its vout. */
  lemma AcceptedCovenant(a: Args) returns (covenant: R.GraphOutput)
    requires Acceptable(a)
    ensures FirstAt(Outputs(a.tx), a.covenantVout) == Some(covenant)
    ensures covenant.vout == a.covenantVout && covenant.sats == a.quote.lockupSats
            && covenant.script == a.quote.covenantScript
    ensures a.assetUnits > 0 && UnitsOf(covenant.assets, a.quote.assetId) == a.assetUnits
    ensures forall id :: Names(covenant.assets, id) <==> id == a.quote.assetId
    ensures covenant.assets != [] && covenant.script != a.operatorScript
  {
    hide Outputs, Names, UnitsOf;
    assert Holds(a, CovenantOutputMismatch) && Holds(a, CovenantAssetMismatch) && Holds(a, UnpricedFare)
      && Holds(a, AssetUnitsInvalid);
    covenant := FirstAt(Outputs(a.tx), a.covenantVout).value;
    assert Names(covenant.assets, a.quote.assetId);
    NamedIsHeld(covenant.assets, a.quote.assetId);
    var i :| 0 <= i < |Outputs(a.tx)| && Outputs(a.tx)[i] == covenant;
  }

  lemma NamedIsHeld(held: seq<Holding>, id: AssetId)
    requires Names(held, id)
    ensures held != []
  {
  }

  lemma {:induction false} OperatorOutputsPay(graph: R.Graph, outputs: seq<R.GraphOutput>)
    requires forall i :: 0 <= i < |outputs| && outputs[i].vout == graph.covenantVout ==>
             outputs[i].script != graph.operatorScript
    ensures SatsOf(R.OperatorOutputs(graph, outputs)) == PaidTo(outputs, graph.operatorScript)
  {
    if outputs != [] {
      OperatorOutputsPay(graph, outputs[1..]);
      var o := outputs[0];
      if o.vout != graph.covenantVout && o.script == graph.operatorScript {
        var paid := R.OperatorOutputs(graph, outputs);
        assert paid == [o] + R.OperatorOutputs(graph, outputs[1..]);
        assert paid[0] == o && paid[1..] == R.OperatorOutputs(graph, outputs[1..]);
      } else {
        assert R.OperatorOutputs(graph, outputs) == R.OperatorOutputs(graph, outputs[1..]);
      }
    }
  }

  lemma {:induction false} FirstAmongCovenants(graph: R.Graph, outputs: seq<R.GraphOutput>)
    ensures match FirstAt(outputs, graph.covenantVout)
            case None => R.CovenantOutputs(graph, outputs) == []
            case Some(o) => R.CovenantOutputs(graph, outputs) != [] && R.CovenantOutputs(graph, outputs)[0] == o
  {
    if outputs != [] { FirstAmongCovenants(graph, outputs[1..]); }
  }

  lemma OnlyCovenantAtItsVout(a: Args, i: nat, covenant: R.GraphOutput)
    requires FirstAt(Outputs(a.tx), a.covenantVout) == Some(covenant)
    requires i < |Outputs(a.tx)| && Outputs(a.tx)[i].vout == a.covenantVout
    ensures Outputs(a.tx)[i] == covenant
  {
    DerivedOutputs(a.tx, |a.tx.outputs|);
    var outputs := Outputs(a.tx);
    var j :| 0 <= j < |outputs| && outputs[j] == covenant;
    assert Places(outputs)[i] == Places(outputs)[j];
  }

  /** What the Taxi's reserved coins are worth. */
  function ReservedSats(coins: seq<Reserved>): int {
    if coins == [] then 0 else coins[0].value + ReservedSats(coins[1..])
  }

  lemma AcceptedPayout(a: Args)
    requires Acceptable(a)
    ensures a.quote.fare.SatsFare?
    ensures PaidTo(Outputs(a.tx), a.operatorScript)
            == ContributedBy(Inputs(a.checkpoints), ReservedBy(a.quote.operatorInputs), a.taxiIndexes)
               - a.quote.topup + a.quote.fare.sats
  {
    hide Outputs, ContributedBy, ReservedBy, Inputs;
    assert Holds(a, FareUnsupported) && Holds(a, OperatorPayoutMismatch);
  }

  /**
   * The payout chain: in an accepted graph the settlement rule reads, besides the covenant, outputs
   * that pay the operator what its inputs contributed, less the loan, plus the fare.
   */
  lemma AcceptedGraphPaysTheTaxi(a: Args, txid: R.Id)
    requires Acceptable(a)
    ensures a.quote.fare.SatsFare?
    ensures var graph := GraphOf(a, txid);
            var operator := R.OperatorOutputs(graph, graph.outputs);
            && R.Expected(graph) != [] && R.Expected(graph)[1..] == operator
            && R.Expected(graph)[0].vout == a.covenantVout && R.Expected(graph)[0] !in operator
            && SatsOf(operator)
               == ContributedBy(Inputs(a.checkpoints), ReservedBy(a.quote.operatorInputs), a.taxiIndexes)
                  - a.quote.topup + a.quote.fare.sats
  {
    hide Outputs, ContributedBy, ReservedBy, Inputs;
    hide Holds, Acceptable, FirstAt, PaidTo, R.OperatorOutputs, R.CovenantOutputs, Names, UnitsOf;
    AcceptedPayout(a);
    var covenant := AcceptedCovenant(a);
    var graph := GraphOf(a, txid);
    FirstAmongCovenants(graph, graph.outputs);
    forall i | 0 <= i < |graph.outputs| && graph.outputs[i].vout == graph.covenantVout
      ensures graph.outputs[i].script != graph.operatorScript
    {
      OnlyCovenantAtItsVout(a, i, covenant);
    }
    OperatorOutputsPay(graph, graph.outputs);
  }

  // ---- the Taxi's inputs are exactly the reservation

  lemma {:induction false} ReservedByFinds(coins: seq<Reserved>, i: nat)
    requires i < |coins| && forall j, k :: 0 <= j < k < |coins| ==> coins[j].point != coins[k].point
    ensures coins[i].point in ReservedBy(coins) && ReservedBy(coins)[coins[i].point] == coins[i]
  {
    var n := |coins| - 1;
    if i < n {
      ReservedByFinds(coins[..n], i);
      assert coins[..n][i] == coins[i] && coins[i].point != coins[n].point;
    }
  }

  lemma {:induction false} ReservedByOnly(coins: seq<Reserved>, p: R.Point) returns (i: nat)
    requires p in ReservedBy(coins)
    ensures i < |coins| && coins[i].point == p
  {
    i := |coins| - 1;
    if coins[i].point != p { i := ReservedByOnly(coins[..i], p); }
  }

  function PointsAt(inputs: seq<R.Point>, indexes: seq<int>): (r: seq<R.Point>)
    requires forall k :: 0 <= k < |indexes| ==> 0 <= indexes[k] < |inputs|
    ensures |r| == |indexes| && forall k :: 0 <= k < |r| ==> r[k] == inputs[indexes[k]]
  {
    seq(|indexes|, k requires 0 <= k < |indexes| => inputs[indexes[k]])
  }

  function PointsOf(coins: seq<Reserved>): (r: seq<R.Point>)
    ensures |r| == |coins| && forall k :: 0 <= k < |r| ==> r[k] == coins[k].point
  {
    seq(|coins|, k requires 0 <= k < |coins| => coins[k].point)
  }

  /** Values of reserved coins, looked up point by point. */
  function ValueOf(reserved: map<R.Point, Reserved>, points: seq<R.Point>): int {
    if points == [] then 0
    else ValueOf(reserved, points[..|points| - 1])
         + (if points[|points| - 1] in reserved then reserved[points[|points| - 1]].value else 0)
  }

  lemma {:induction false} ContributedIsValue(inputs: seq<R.Point>, reserved: map<R.Point, Reserved>, indexes: seq<int>)
    requires forall k :: 0 <= k < |indexes| ==> 0 <= indexes[k] < |inputs|
    ensures ContributedBy(inputs, reserved, indexes) == ValueOf(reserved, PointsAt(inputs, indexes))
  {
    if indexes != [] {
      var n := |indexes| - 1;
      ContributedIsValue(inputs, reserved, indexes[..n]);
      assert PointsAt(inputs, indexes)[..n] == PointsAt(inputs, indexes[..n]);
    }
  }

  lemma {:induction false} ValueWithout(reserved: map<R.Point, Reserved>, points: seq<R.Point>, i: nat)
    requires i < |points| && points[i] in reserved
    ensures ValueOf(reserved, points) == ValueOf(reserved, points[..i] + points[i + 1..]) + reserved[points[i]].value
  {
    var n := |points| - 1;
    if i == n {
      assert points[..i] + points[i + 1..] == points[..n];
    } else {
      ValueWithout(reserved, points[..n], i);
      var without := points[..i] + points[i + 1..];
      assert without[..|without| - 1] == points[..n][..i] + points[..n][i + 1..];
      assert without[|without| - 1] == points[n];
    }
  }

  /** The same reserved points in another order are worth the same. */
  lemma {:induction false} SamePointsSameValue(reserved: map<R.Point, Reserved>, a: seq<R.Point>, b: seq<R.Point>)
    requires Distinct(a) && Distinct(b) && |a| == |b|
    requires forall p :: p in a ==> p in b && p in reserved
    ensures ValueOf(reserved, a) == ValueOf(reserved, b)
    decreases |a|
  {
    if a != [] {
      var n := |a| - 1;
      assert a[n] in b;
      var i :| 0 <= i < |b| && b[i] == a[n];
      var without := b[..i] + b[i + 1..];
      forall p | p in a[..n] ensures p in without && p in reserved {
        var k :| 0 <= k < n && a[k] == p;
        assert p in a && p != b[i];
        StillIn(b, i, p);
      }
      DistinctWithout(b, i);
      SamePointsSameValue(reserved, a[..n], without);
      ValueWithout(reserved, b, i);
    } else {
      assert b == [];
    }
  }

  lemma StillIn<T>(s: seq<T>, i: nat, x: T)
    requires i < |s| && x in s && x != s[i]
    ensures x in s[..i] + s[i + 1..]
  {
    var j :| 0 <= j < |s| && s[j] == x;
    assert (s[..i] + s[i + 1..])[if j < i then j else j - 1] == x;
  }

  lemma DistinctWithout<T>(s: seq<T>, i: nat)
    requires Distinct(s) && i < |s|
    ensures Distinct(s[..i] + s[i + 1..])
  {
    var t := s[..i] + s[i + 1..];
    forall j, k | 0 <= j < k < |t| ensures t[j] != t[k] {
      assert t[j] == s[if j < i then j else j + 1] && t[k] == s[if k < i then k else k + 1];
    }
  }

  lemma {:induction false} ValueOfAll(coins: seq<Reserved>, reserved: map<R.Point, Reserved>)
    requires forall i :: 0 <= i < |coins| ==> coins[i].point in reserved && reserved[coins[i].point] == coins[i]
    ensures ValueOf(reserved, PointsOf(coins)) == ReservedSats(coins)
  {
    if coins != [] {
      var n := |coins| - 1;
      ValueOfAll(coins[..n], reserved);
      assert PointsOf(coins)[..n] == PointsOf(coins[..n]);
      assert coins == coins[..n] + [coins[n]];
      ReservedSatsSnoc(coins[..n], coins[n]);
    }
  }

  lemma {:induction false} ReservedSatsSnoc(coins: seq<Reserved>, last: Reserved)
    ensures ReservedSats(coins + [last]) == ReservedSats(coins) + last.value
  {
    if coins == [] {
      assert coins + [last] == [last] && [last][1..] == [];
    } else {
      assert (coins + [last])[1..] == coins[1..] + [last];
      ReservedSatsSnoc(coins[1..], last);
    }
  }

  /**
   * For a quote whose reserved coins are distinct: an accepted graph spends every one of them, at
   * Taxi inputs only, so what the Taxi contributes is the whole reservation.
   */
  lemma TaxiInputsAreTheReservation(a: Args)
    requires Acceptable(a) && Distinct(PointsOf(a.quote.operatorInputs))
    ensures forall k :: 0 <= k < |a.taxiIndexes| ==> 0 <= a.taxiIndexes[k] < |a.checkpoints|
    ensures ContributedBy(Inputs(a.checkpoints), ReservedBy(a.quote.operatorInputs), a.taxiIndexes)
            == ReservedSats(a.quote.operatorInputs)
    ensures forall p :: p in PointsOf(a.quote.operatorInputs) ==> p in PointsAt(Inputs(a.checkpoints), a.taxiIndexes)
  {
    assert Holds(a, TaxiInputsDiffer) && Holds(a, GraphInvalid);
    hide Holds, Acceptable, OutputsDerive, HeaderFits, Undisturbed;
    var inputs, coins := Inputs(a.checkpoints), a.quote.operatorInputs;
    var reserved := ReservedBy(coins);
    var spent, points := PointsAt(inputs, a.taxiIndexes), PointsOf(coins);
    forall i | 0 <= i < |coins| ensures coins[i].point in reserved && reserved[coins[i].point] == coins[i] {
      forall j, k | 0 <= j < k < |coins| ensures coins[j].point != coins[k].point { assert points[j] != points[k]; }
      ReservedByFinds(coins, i);
    }
    forall p | p in spent ensures p in points && p in reserved {
      var k :| 0 <= k < |spent| && spent[k] == p;
      var i := ReservedByOnly(coins, p);
      assert points[i] == p;
    }
    assert Distinct(spent) by {
      forall j, k | 0 <= j < k < |spent| ensures spent[j] != spent[k] {
        assert a.taxiIndexes[j] != a.taxiIndexes[k];
        if a.taxiIndexes[j] < a.taxiIndexes[k] {
          assert inputs[a.taxiIndexes[j]] != inputs[a.taxiIndexes[k]];
        } else {
          assert inputs[a.taxiIndexes[k]] != inputs[a.taxiIndexes[j]];
        }
      }
    }
    hide ReservedBy;
    assert |points| == |reserved| by {
      assert reserved.Keys == set p | p in points by {
        forall p | p in reserved ensures p in points { var i := ReservedByOnly(coins, p); assert points[i] == p; }
      }
      DistinctSize(points);
    }
    SameSizeSubset(spent, points);
    SamePointsSameValue(reserved, spent, points);
    ValueOfAll(coins, reserved);
    ContributedIsValue(inputs, reserved, a.taxiIndexes);
  }

  lemma {:induction false} DistinctSize<T>(s: seq<T>)
    requires Distinct(s)
    ensures |set x | x in s| == |s|
  {
    if s == [] {
      assert (set x | x in s) == {};
    } else {
      var n := |s| - 1;
      DistinctSize(s[..n]);
      assert (set x | x in s) == (set x | x in s[..n]) + {s[n]};
    }
  }

  lemma SameSizeSubset<T>(a: seq<T>, b: seq<T>)
    requires Distinct(a) && Distinct(b) && |a| == |b| && forall x :: x in a ==> x in b
    ensures forall x :: x in b ==> x in a
  {
    DistinctSize(a);
    DistinctSize(b);
    var sa, sb := set x | x in a, set x | x in b;
    if x :| x in b && x !in a {
      assert sa <= sb - {x};
      SubsetSize(sa, sb - {x});
      assert false;
    }
  }

  lemma {:induction false} SubsetSize<T>(a: set<T>, b: set<T>)
    requires a <= b
    ensures |a| <= |b|
    decreases |a|
  {
    if a != {} {
      var x :| x in a;
      SubsetSize(a - {x}, b - {x});
    }
  }

  // -------------------------------------------------------------- settlement

  /** Indexed sats at the coins of some outputs. */
  function IndexedSats(coins: map<R.Point, R.OutputCoin>, txid: R.Id, outputs: seq<R.GraphOutput>): int {
    if outputs == [] then 0
    else
      var p := R.Point(txid, outputs[0].vout);
      (if p in coins then coins[p].sats else 0) + IndexedSats(coins, txid, outputs[1..])
  }

  lemma {:induction false} IndexedAsExpected(coins: map<R.Point, R.OutputCoin>, txid: R.Id, outputs: seq<R.GraphOutput>)
    requires forall o :: o in outputs ==>
             R.Point(txid, o.vout) in coins && R.OutputMatches(coins[R.Point(txid, o.vout)], txid, o)
    ensures IndexedSats(coins, txid, outputs) == SatsOf(outputs)
  {
    if outputs != [] {
      assert outputs[0] in outputs;
      IndexedAsExpected(coins, txid, outputs[1..]);
    }
  }

  /**
   * Settlement of an accepted fill: the indexed operator coins total the reservation less the loan
   * plus the fare, and the indexed covenant coin holds the lockup with exactly the declared delivery.
   */
  lemma SettledFillPaysTheTaxi(a: Args, txid: R.Id, coins: map<R.Point, R.OutputCoin>)
    requires Acceptable(a) && Distinct(PointsOf(a.quote.operatorInputs))
    requires R.SecondRead(GraphOf(a, txid), coins)
    ensures a.quote.fare.SatsFare?
    ensures IndexedSats(coins, txid, R.OperatorOutputs(GraphOf(a, txid), Outputs(a.tx)))
            == ReservedSats(a.quote.operatorInputs) - a.quote.topup + a.quote.fare.sats
    ensures var p := R.Point(txid, a.covenantVout);
            && p in coins && coins[p].sats == a.quote.lockupSats && coins[p].script == a.quote.covenantScript
            && (forall id :: UnitsOf(coins[p].assets, id) == if id == a.quote.assetId then a.assetUnits else 0)
  {
    hide Outputs, ContributedBy, ReservedBy, Inputs, Acceptable;
    hide FirstAt, R.OperatorOutputs, R.CovenantOutputs, Names, UnitsOf, SatsOf, ReservedSats, IndexedSats;
    var graph := GraphOf(a, txid);
    AcceptedGraphPaysTheTaxi(a, txid);
    TaxiInputsAreTheReservation(a);
    var covenant := AcceptedCovenant(a);
    FirstAmongCovenants(graph, graph.outputs);
    var expected := R.Expected(graph);
    assert expected[0] == covenant && covenant in expected;
    forall o | o in expected[1..] ensures o in expected {}
    IndexedAsExpected(coins, txid, expected[1..]);
    forall id ensures UnitsOf(covenant.assets, id) == if id == a.quote.assetId then a.assetUnits else 0 {
      if !Names(covenant.assets, id) { UnnamedHasNone(covenant.assets, id); }
    }
  }

  /** `fillSource`'s `operatorPayouts`: outputs at the operator script that carry no assets. */
  function RecordedPayouts(outputs: seq<R.GraphOutput>, operatorScript: string): seq<R.GraphOutput> {
    if outputs == [] then []
    else (if outputs[0].assets == [] && outputs[0].script == operatorScript then [outputs[0]] else [])
         + RecordedPayouts(outputs[1..], operatorScript)
  }

  lemma {:induction false} PayoutFiltersAgree(graph: R.Graph, outputs: seq<R.GraphOutput>)
    requires forall i :: 0 <= i < |outputs| && outputs[i].script == graph.operatorScript ==>
               outputs[i].assets == [] && outputs[i].vout != graph.covenantVout
    ensures RecordedPayouts(outputs, graph.operatorScript) == R.OperatorOutputs(graph, outputs)
  {
    if outputs != [] { PayoutFiltersAgree(graph, outputs[1..]); }
  }

  /** The payouts a fill records when it is bound are the ones the reconciler will look for. */
  lemma RecordedPayoutsAreReconciled(a: Args, txid: R.Id)
    requires Acceptable(a)
    ensures RecordedPayouts(Outputs(a.tx), a.operatorScript) == R.OperatorOutputs(GraphOf(a, txid), Outputs(a.tx))
  {
    var covenant := AcceptedCovenant(a);
    assert Holds(a, UnpricedFare);
    hide Outputs, Holds, Acceptable;
    var outputs := Outputs(a.tx);
    forall i | 0 <= i < |outputs| && outputs[i].script == a.operatorScript
      ensures outputs[i].assets == [] && outputs[i].vout != a.covenantVout
    {
      if outputs[i].vout == a.covenantVout { OnlyCovenantAtItsVout(a, i, covenant); }
    }
    PayoutFiltersAgree(GraphOf(a, txid), outputs);
  }

  /** An accepted graph meets what the protocol asks of a new row's graph. */
  lemma AcceptedGraphCanBeBound(a: Args, txid: R.Id)
    requires Acceptable(a)
    ensures P.DistinctInputs(GraphOf(a, txid))
  {
    assert Holds(a, GraphInvalid);
    hide Acceptable, Holds, Outputs, OutputsDerive, HeaderFits;
    var inputs := Inputs(a.checkpoints);
    assert Distinct(inputs);
    assert forall i :: 0 <= i < |inputs| ==> GraphOf(a, txid).inputs[i].point == inputs[i];
  }

  /**
   * The step that settles a fill whose graph was accepted: what the indexer showed then is the Taxi
   * paid back its reservation, less the loan, plus the fare.
   */
  lemma SettlingStepPaysTheTaxi(w: P.World, indexed: map<R.Point, R.OutputCoin>, rowsAgree: bool, a: Args)
    requires w.pending.AwaitOutputs? && w.pending.snapshot.id in w.rows
    requires Acceptable(a) && Distinct(PointsOf(a.quote.operatorInputs))
    requires w.pending.snapshot.graph == GraphOf(a, w.pending.snapshot.graph.txid)
    requires w.rows[w.pending.snapshot.id].state != R.Settled
    requires P.AfterOutputs(w, indexed, rowsAgree).rows[w.pending.snapshot.id].state == R.Settled
    ensures a.quote.fare.SatsFare?
    ensures var graph := w.pending.snapshot.graph;
            IndexedSats(indexed, graph.txid, R.OperatorOutputs(graph, graph.outputs))
            == ReservedSats(a.quote.operatorInputs) - a.quote.topup + a.quote.fare.sats
  {
    hide Acceptable, R.SecondRead, Outputs, IndexedSats, R.OperatorOutputs, ReservedSats, Distinct;
    SettledFillPaysTheTaxi(a, w.pending.snapshot.graph.txid, indexed);
  }
}
