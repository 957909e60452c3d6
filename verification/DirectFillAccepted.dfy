// Every graph the reference builder makes for a matching quote is accepted by `assertFillGraph`.
module DirectFillAccepted {
  import opened Prelude
  import opened Assets
  import opened FillGraph
  import opened DirectFill
  import C = FillConservation
  import R = FillReconciler

  // ------------------------------------------------------- packet inputs

  lemma {:induction false} CoinEntriesAreHoldings(vin: nat, held: seq<Holding>, id: AssetId)
    requires UniqueNames(held)
    ensures CoinEntries(vin, held, id) == if Names(held, id) then [AssetInput(vin, UnitsOf(held, id), true)] else []
  {
    if held != [] {
      var before, last := held[..|held| - 1], held[|held| - 1];
      CoinEntriesAreHoldings(vin, before, id);
      LastHolding(before, last, id);
      assert held == before + [last];
      hide Names, UnitsOf, UniqueNames;
    }
  }

  lemma LastHolding(before: seq<Holding>, last: Holding, id: AssetId)
    requires UniqueNames(before + [last])
    ensures Names(before + [last], id) <==> Names(before, id) || last.assetId == id
    ensures last.assetId == id ==> !Names(before, id) && UnitsOf(before + [last], id) == last.units
    ensures last.assetId != id ==> UnitsOf(before + [last], id) == UnitsOf(before, id)
  {
    var held := before + [last];
    NamesSnoc(before, last, id);
    UnitsOfConcat(before, [last], id);
    assert [last][1..] == [];
    if last.assetId == id {
      forall i | 0 <= i < |before| ensures before[i].assetId != id { assert held[i].assetId != held[|before|].assetId; }
      UnnamedHasNone(before, id);
    }
  }

  lemma NamesSnoc(held: seq<Holding>, last: Holding, id: AssetId)
    ensures Names(held + [last], id) <==> Names(held, id) || last.assetId == id
  {
    assert (held + [last])[|held|] == last;
    assert forall i :: 0 <= i < |held| ==> (held + [last])[i] == held[i];
  }

  /** The packet inputs of an asset: one for each coin that holds it, in coin order. */
  ghost predicate Lists(entries: seq<AssetInput>, coins: seq<DirectCoin>, id: AssetId) {
    && (forall k :: 0 <= k < |entries| ==>
          && entries[k].local && entries[k].vin < |coins| && Names(coins[entries[k].vin].assets, id)
          && entries[k].amount == UnitsOf(coins[entries[k].vin].assets, id))
    && (forall j, k :: 0 <= j < k < |entries| ==> entries[j].vin != entries[k].vin)
    && forall v: nat :: v < |coins| && Names(coins[v].assets, id) ==> HasVin(entries, v)
  }

  predicate HasVin(entries: seq<AssetInput>, v: nat) { exists k :: 0 <= k < |entries| && entries[k].vin == v }

  lemma {:induction false} EntriesList(coins: seq<DirectCoin>, id: AssetId)
    requires forall i :: 0 <= i < |coins| ==> UniqueNames(coins[i].assets)
    ensures Lists(Entries(coins, id), coins, id)
  {
    if coins != [] {
      var n := |coins| - 1;
      EntriesList(coins[..n], id);
      CoinEntriesAreHoldings(n, coins[n].assets, id);
      hide Names, UnitsOf, UniqueNames, CoinEntries, Lists;
      assert coins == coins[..n] + [coins[n]];
      if Names(coins[n].assets, id) {
        ListsOneMore(Entries(coins[..n], id), coins[..n], coins[n], id);
      } else {
        ListsAsBefore(Entries(coins[..n], id), coins[..n], coins[n], id);
        assert Entries(coins[..n], id) + [] == Entries(coins[..n], id);
      }
    }
  }

  lemma ListsAsBefore(entries: seq<AssetInput>, coins: seq<DirectCoin>, last: DirectCoin, id: AssetId)
    requires Lists(entries, coins, id) && !Names(last.assets, id)
    ensures Lists(entries, coins + [last], id)
  {
    hide Names, UnitsOf, HasVin;
    assert forall v :: 0 <= v < |coins| ==> (coins + [last])[v] == coins[v];
  }

  lemma ListsOneMore(entries: seq<AssetInput>, coins: seq<DirectCoin>, last: DirectCoin, id: AssetId)
    requires Lists(entries, coins, id) && Names(last.assets, id)
    ensures Lists(entries + [AssetInput(|coins|, UnitsOf(last.assets, id), true)], coins + [last], id)
  {
    hide Names, UnitsOf;
    var entry := AssetInput(|coins|, UnitsOf(last.assets, id), true);
    assert forall v :: 0 <= v < |coins| ==> (coins + [last])[v] == coins[v];
    forall v: nat | v < |coins + [last]| && Names((coins + [last])[v].assets, id) ensures HasVin(entries + [entry], v) {
      if v < |coins| {
        assert HasVin(entries, v);
        var k :| 0 <= k < |entries| && entries[k].vin == v;
        assert (entries + [entry])[k].vin == v;
      } else {
        assert (entries + [entry])[|entries|].vin == v;
      }
    }
  }

  lemma {:induction false} UnitsPositive(held: seq<Holding>, id: AssetId)
    requires forall j :: 0 <= j < |held| ==> held[j].units > 0
    ensures UnitsOf(held, id) >= 0 && (Names(held, id) ==> UnitsOf(held, id) > 0)
  {
    if held != [] {
      UnitsPositive(held[1..], id);
      if Names(held, id) && held[0].assetId != id {
        var i :| 0 <= i < |held| && held[i].assetId == id;
        assert held[1..][i - 1].assetId == id;
      }
    }
  }

  lemma EntriesFit(plan: Plan, id: AssetId)
    requires Buildable(plan) && forall i :: 0 <= i < |plan.callerInputs| ==> UniqueNames(plan.callerInputs[i].assets)
    ensures InputsFit(Entries(plan.callerInputs, id), |plan.callerInputs|)
  {
    EntriesList(plan.callerInputs, id);
    var entries := Entries(plan.callerInputs, id);
    forall k | 0 <= k < |entries| ensures entries[k].amount > 0 {
      UnitsPositive(plan.callerInputs[entries[k].vin].assets, id);
    }
  }

  lemma {:induction false} NoInputsNoUnits(entries: seq<AssetInput>)
    requires forall k :: 0 <= k < |entries| ==> entries[k].amount > 0
    ensures InputUnits(entries) >= 0 && (entries != [] ==> InputUnits(entries) > 0)
  {
    if entries != [] { NoInputsNoUnits(entries[..|entries| - 1]); }
  }

  // --------------------------------------------------------- ids and groups

  lemma {:induction false} SeenFacts(ids: seq<AssetId>, held: seq<Holding>, id: AssetId)
    requires Distinct(ids)
    ensures Distinct(Seen(ids, held)) && (id in Seen(ids, held) <==> id in ids || Names(held, id))
  {
    if held != [] {
      var before, last := held[..|held| - 1], held[|held| - 1];
      SeenFacts(ids, before, id);
      DistinctSnoc(Seen(ids, before), last.assetId);
      assert held == before + [last];
      NamesSnoc(before, last, id);
    }
  }

  predicate HeldSomewhere(coins: seq<DirectCoin>, id: AssetId) {
    exists v :: 0 <= v < |coins| && Names(coins[v].assets, id)
  }

  lemma {:induction false} IdsFacts(coins: seq<DirectCoin>, id: AssetId)
    ensures Distinct(Ids(coins)) && (id in Ids(coins) <==> HeldSomewhere(coins, id))
  {
    hide Names, Seen;
    if coins != [] {
      var n := |coins| - 1;
      IdsFacts(coins[..n], id);
      SeenFacts(Ids(coins[..n]), coins[n].assets, id);
      if HeldSomewhere(coins[..n], id) {
        var v :| 0 <= v < n && Names(coins[..n][v].assets, id);
        assert coins[v] == coins[..n][v];
      }
      if HeldSomewhere(coins, id) && !Names(coins[n].assets, id) {
        var v :| 0 <= v < |coins| && Names(coins[v].assets, id);
        assert coins[..n][v] == coins[v];
      }
    }
  }

  function AllGroups(plan: Plan): seq<Group> { GroupsOf(plan, Ids(plan.callerInputs)) }

  lemma GroupsAreUnique(plan: Plan)
    ensures UniqueIds(AllGroups(plan)) && C.Identified(AllGroups(plan))
  {
    hide Ids, Entries, InputUnits;
    IdsFacts(plan.callerInputs, []);
    var groups, ids := AllGroups(plan), Ids(plan.callerInputs);
    forall i, j | 0 <= i < j < |groups| ensures groups[i].assetId != groups[j].assetId {
      assert ids[i] != ids[j];
    }
  }

  /** Each group balances, names caller inputs only, and pays outputs 0 and 1. */
  lemma GroupFits(plan: Plan, id: AssetId)
    requires Buildable(plan) && forall i :: 0 <= i < |plan.callerInputs| ==> UniqueNames(plan.callerInputs[i].assets)
    ensures GroupConserved(GroupOf(plan, id), |Inventory(plan)|, {0, 1, 2})
    ensures Available(plan, id) >= DeliveredUnits(plan, id) >= 0
  {
    hide Entries, KeepsAssets, UsableInputs, InputUnits, PositiveHoldings, CoinSats, OutputUnits, UniqueNames;
    EntriesFit(plan, id);
    NoInputsNoUnits(Entries(plan.callerInputs, id));
    var outputs := GroupOf(plan, id).outputs;
    TwoOutputs(outputs);
  }

  lemma TwoOutputs(outputs: seq<AssetOutput>)
    requires |outputs| <= 2
    ensures OutputUnits(outputs)
            == (if |outputs| > 0 then outputs[0].amount else 0) + (if |outputs| > 1 then outputs[1].amount else 0)
  {
    if |outputs| == 2 {
      assert outputs[..1] == [outputs[0]];
      TwoOutputs(outputs[..1]);
    }
  }

  // ------------------------------------------------------ declared holdings

  lemma {:induction false} GroupDeclaresAt(id: AssetId, inputs: seq<AssetInput>, k: nat)
    requires k < |inputs| && forall i, j :: 0 <= i < j < |inputs| ==> inputs[i].vin != inputs[j].vin
    ensures Claimed(inputs[k].vin, id) in GroupDeclares(id, inputs)
    ensures GroupDeclares(id, inputs)[Claimed(inputs[k].vin, id)] == inputs[k].amount
  {
    var n := |inputs| - 1;
    if k < n {
      GroupDeclaresAt(id, inputs[..n], k);
      assert inputs[..n][k] == inputs[k] && inputs[k].vin != inputs[n].vin;
    }
  }

  lemma {:induction false} DeclaredFinds(groups: seq<Group>, i: nat, c: Claimed)
    requires UniqueIds(groups) && C.Identified(groups) && i < |groups| && c.id == IdOf(groups[i])
    ensures c in Declared(groups) <==> c in GroupDeclares(c.id, groups[i].inputs)
    ensures c in Declared(groups) ==> Declared(groups)[c] == GroupDeclares(c.id, groups[i].inputs)[c]
  {
    hide GroupDeclares;
    var n := |groups| - 1;
    var before := groups[..n];
    GroupDeclaresOwn(IdOf(groups[n]), groups[n].inputs, c);
    if i < n {
      assert before[i] == groups[i] && groups[i].assetId != groups[n].assetId;
      DeclaredFinds(before, i, c);
    } else {
      forall j | 0 <= j < |before| ensures IdOf(before[j]) != c.id {
        assert before[j] == groups[j] && groups[j].assetId != groups[n].assetId;
      }
      NotDeclared(before, c);
    }
  }

  lemma NotDeclared(groups: seq<Group>, c: Claimed)
    requires forall j :: 0 <= j < |groups| ==> IdOf(groups[j]) != c.id
    ensures c !in Declared(groups)
  {
    if c in Declared(groups) { var j := DeclaredOnly(groups, c); }
  }

  lemma {:induction false} DeclaredOnly(groups: seq<Group>, c: Claimed) returns (i: nat)
    requires c in Declared(groups)
    ensures i < |groups| && IdOf(groups[i]) == c.id && c in GroupDeclares(c.id, groups[i].inputs)
  {
    i := |groups| - 1;
    GroupDeclaresOwn(IdOf(groups[i]), groups[i].inputs, c);
    if c !in GroupDeclares(IdOf(groups[i]), groups[i].inputs) { i := DeclaredOnly(groups[..i], c); }
  }

  ghost predicate HeldAs(held: seq<seq<Holding>>, plan: Plan) {
    && |held| == |Inventory(plan)|
    && forall i :: 0 <= i < |held| ==> held[i] == Inventory(plan)[i].assets && UniqueNames(held[i])
  }

  lemma CallerHolds(plan: Plan, v: nat, id: AssetId)
    requires UsableInputs(plan) && v < |Inventory(plan)| && Names(Inventory(plan)[v].assets, id)
    ensures v < |plan.callerInputs|
  {
    var n := |plan.callerInputs|;
    forall i | n <= i < |Inventory(plan)| ensures !Names(Inventory(plan)[i].assets, id) {
      assert Inventory(plan)[i] == plan.taxiInputs[i - n];
    }
  }

  lemma DeclaredWhereHeld(plan: Plan, held: seq<seq<Holding>>, c: Claimed)
    requires Buildable(plan) && HeldAs(held, plan) && c.vin < |held| && Names(held[c.vin], c.id)
    ensures c in Declared(AllGroups(plan)) && Declared(AllGroups(plan))[c] == UnitsOf(held[c.vin], c.id)
  {
    hide Names, UnitsOf, Ids, Entries, Declared, GroupDeclares, UniqueNames;
    var coins := plan.callerInputs;
    CallerHolds(plan, c.vin, c.id);
    assert held[c.vin] == coins[c.vin].assets;
    assert forall i :: 0 <= i < |coins| ==> coins[i].assets == held[i];
    assert HeldSomewhere(coins, c.id);
    IdsFacts(coins, c.id);
    var i :| 0 <= i < |Ids(coins)| && Ids(coins)[i] == c.id;
    var entries := Entries(coins, c.id);
    EntriesList(coins, c.id);
    assert HasVin(entries, c.vin);
    var k :| 0 <= k < |entries| && entries[k].vin == c.vin;
    GroupDeclaresAt(c.id, entries, k);
    GroupsAreUnique(plan);
    DeclaredFinds(AllGroups(plan), i, c);
  }

  lemma HeldWhereDeclared(plan: Plan, held: seq<seq<Holding>>, c: Claimed)
    requires Buildable(plan) && HeldAs(held, plan) && c in Declared(AllGroups(plan))
    ensures c.vin < |held| && Names(held[c.vin], c.id)
  {
    hide Names, UnitsOf, Ids, Entries, Declared, GroupDeclares, UniqueNames;
    var coins := plan.callerInputs;
    var i := DeclaredOnly(AllGroups(plan), c);
    var entries := Entries(coins, c.id);
    assert entries == AllGroups(plan)[i].inputs;
    GroupDeclaresOwn(c.id, entries, c);
    assert forall i :: 0 <= i < |coins| ==> coins[i].assets == held[i];
    EntriesList(coins, c.id);
    var k :| 0 <= k < |entries| && entries[k].vin == c.vin;
  }

  lemma CoinsHoldOnce(plan: Plan, held: seq<seq<Holding>>)
    requires Buildable(plan) && HeldAs(held, plan)
    ensures forall i :: 0 <= i < |plan.callerInputs| ==> UniqueNames(plan.callerInputs[i].assets)
  {
    hide UniqueNames;
    forall i | 0 <= i < |plan.callerInputs| ensures UniqueNames(plan.callerInputs[i].assets) {
      assert plan.callerInputs[i] == Inventory(plan)[i] && UniqueNames(held[i]);
    }
  }

  lemma BuiltGroupsFit(plan: Plan, held: seq<seq<Holding>>)
    requires Buildable(plan) && HeldAs(held, plan)
    ensures forall i :: 0 <= i < |AllGroups(plan)| ==> GroupConserved(AllGroups(plan)[i], |held|, {0, 1, 2})
    ensures forall i :: 0 <= i < |AllGroups(plan)| ==>
              !TouchesTaxi(AllGroups(plan)[i].inputs, IndexSet(TaxiIndexes(plan)))
  {
    CoinsHoldOnce(plan, held);
    hide Ids, Entries, GroupConserved, UniqueNames, Buildable;
    forall i | 0 <= i < |AllGroups(plan)|
      ensures GroupConserved(AllGroups(plan)[i], |held|, {0, 1, 2})
      ensures !TouchesTaxi(AllGroups(plan)[i].inputs, IndexSet(TaxiIndexes(plan)))
    {
      GroupFits(plan, Ids(plan.callerInputs)[i]);
      EntriesFit(plan, Ids(plan.callerInputs)[i]);
    }
  }

  lemma BuiltDeclaresHoldings(plan: Plan, held: seq<seq<Holding>>)
    requires Buildable(plan) && HeldAs(held, plan)
    ensures forall c: Claimed :: c in Declared(AllGroups(plan)) ==> c.vin < |held| && Names(held[c.vin], c.id)
    ensures forall c: Claimed :: c.vin < |held| && Names(held[c.vin], c.id) ==>
              c in Declared(AllGroups(plan)) && Declared(AllGroups(plan))[c] == UnitsOf(held[c.vin], c.id)
  {
    CoinsHoldOnce(plan, held);
    hide Names, UnitsOf, Ids, Entries, Declared, UniqueNames, Buildable;
    forall c: Claimed | c in Declared(AllGroups(plan)) ensures c.vin < |held| && Names(held[c.vin], c.id) {
      HeldWhereDeclared(plan, held, c);
    }
    forall c: Claimed | c.vin < |held| && Names(held[c.vin], c.id)
      ensures c in Declared(AllGroups(plan)) && Declared(AllGroups(plan))[c] == UnitsOf(held[c.vin], c.id)
    {
      DeclaredWhereHeld(plan, held, c);
    }
  }

  lemma BuiltAssetsConserved(plan: Plan, held: seq<seq<Holding>>)
    requires Buildable(plan) && HeldAs(held, plan)
    ensures AssetsConserved(AllGroups(plan), held, {0, 1, 2})
    ensures !AnyTouchesTaxi(AllGroups(plan), IndexSet(TaxiIndexes(plan)))
  {
    CoinsHoldOnce(plan, held);
    GroupsAreUnique(plan);
    BuiltGroupsFit(plan, held);
    BuiltDeclaresHoldings(plan, held);
    hide Names, UnitsOf, Declared, UniqueIds, GroupConserved, UniqueNames, Buildable, HeldAs, AllGroups, TouchesTaxi,
      IndexSet, TaxiIndexes;
  }

  // --------------------------------------------------- allocated at outputs

  /** Where only one group pays an output, its units are all the output carries. */
  lemma {:induction false} OnlyGroupAt(groups: seq<Group>, vout: nat, i: nat)
    requires i < |groups| && forall j :: 0 <= j < |groups| && j != i ==> !C.PaysAt(groups[j], vout)
    ensures AssetsAt(groups, vout) == UnitsAt(IdOf(groups[i]), groups[i].outputs, vout)
  {
    if i == 0 {
      forall j | 0 <= j < |groups[1..]| ensures !C.PaysAt(groups[1..][j], vout) {
        assert groups[1..][j] == groups[j + 1];
      }
      C.AssetsAtNothing(groups[1..], vout);
    } else {
      assert !C.PaysAt(groups[0], vout);
      C.UnitsAtNothing(IdOf(groups[0]), groups[0].outputs, vout);
      forall j | 0 <= j < |groups[1..]| && j != i - 1 ensures !C.PaysAt(groups[1..][j], vout) {
        assert groups[1..][j] == groups[j + 1];
      }
      OnlyGroupAt(groups[1..], vout, i - 1);
    }
  }

  lemma GroupPays(plan: Plan, id: AssetId)
    requires plan.assetUnits > 0
    ensures C.PaysAt(GroupOf(plan, id), 0) <==> id == plan.assetId
    ensures C.PaysAt(GroupOf(plan, id), 1) <==> Available(plan, id) > DeliveredUnits(plan, id)
    ensures !C.PaysAt(GroupOf(plan, id), 2) && !C.PaysAt(GroupOf(plan, id), 4)
    ensures UnitsAt(plan.assetId, GroupOf(plan, plan.assetId).outputs, 0) == [Holding(plan.assetId, plan.assetUnits)]
  {
    hide Entries, InputUnits;
    var outputs := GroupOf(plan, id).outputs;
    if Available(plan, id) > DeliveredUnits(plan, id) { assert outputs[|outputs| - 1].vout == 1; }
    if id == plan.assetId { assert outputs[0].vout == 0; }
    var own := GroupOf(plan, plan.assetId).outputs;
    assert own[0] == AssetOutput(0, plan.assetUnits);
    assert forall k :: 0 <= k < |own[1..]| ==> own[1..][k].vout == 1;
    C.UnitsAtNothing(plan.assetId, own[1..], 0);
  }

  lemma DeliveredAsset(plan: Plan) returns (i: nat)
    requires Buildable(plan)
    ensures i < |Ids(plan.callerInputs)| && Ids(plan.callerInputs)[i] == plan.assetId
  {
    hide Seen, CoinEntries;
    IdsFacts(plan.callerInputs, plan.assetId);
    assert Entries(plan.callerInputs, plan.assetId) != [];
    EntriesComeFromHoldings(plan.callerInputs, plan.assetId);
    i :| 0 <= i < |Ids(plan.callerInputs)| && Ids(plan.callerInputs)[i] == plan.assetId;
  }

  lemma {:induction false} EntriesComeFromHoldings(coins: seq<DirectCoin>, id: AssetId)
    requires Entries(coins, id) != []
    ensures HeldSomewhere(coins, id)
  {
    hide Names;
    var n := |coins| - 1;
    if Entries(coins[..n], id) != [] {
      EntriesComeFromHoldings(coins[..n], id);
      var v :| 0 <= v < n && Names(coins[..n][v].assets, id);
      assert coins[v] == coins[..n][v];
    } else {
      CoinEntriesComeFromHoldings(n, coins[n].assets, id);
    }
  }

  lemma {:induction false} CoinEntriesComeFromHoldings(vin: nat, held: seq<Holding>, id: AssetId)
    requires CoinEntries(vin, held, id) != []
    ensures Names(held, id)
  {
    var n := |held| - 1;
    if held[n].assetId != id {
      CoinEntriesComeFromHoldings(vin, held[..n], id);
      var i :| 0 <= i < n && held[..n][i].assetId == id;
      assert held[i].assetId == id;
    }
  }

  /** What each output carries: the delivery, the leftovers if there are any, and nothing else. */
  lemma Allocations(plan: Plan)
    requires Buildable(plan)
    ensures AssetsAt(AllGroups(plan), 0) == [Holding(plan.assetId, plan.assetUnits)]
    ensures AssetsAt(AllGroups(plan), 1) != [] <==> KeepsAssets(plan)
    ensures AssetsAt(AllGroups(plan), 2) == [] && AssetsAt(AllGroups(plan), 4) == []
  {
    var groups, ids := AllGroups(plan), Ids(plan.callerInputs);
    var own := DeliveredAsset(plan);
    assert IdOf(groups[own]) == plan.assetId;
    IdsFacts(plan.callerInputs, plan.assetId);
    hide C.PaysAt, GroupOf, Ids, Available, DeliveredUnits, AssetsAt, UsableInputs, PositiveHoldings;
    forall i | 0 <= i < |groups|
      ensures C.PaysAt(groups[i], 0) <==> i == own
      ensures C.PaysAt(groups[i], 1) <==> Available(plan, ids[i]) > DeliveredUnits(plan, ids[i])
      ensures !C.PaysAt(groups[i], 2) && !C.PaysAt(groups[i], 4)
    {
      GroupPays(plan, ids[i]);
      assert i < own ==> ids[i] != ids[own];
      assert own < i ==> ids[own] != ids[i];
    }
    OnlyGroupAt(groups, 0, own);
    GroupPays(plan, plan.assetId);
    C.AssetsAtNothing(groups, 2);
    C.AssetsAtNothing(groups, 4);
    if KeepsAssets(plan) {
      var i :| 0 <= i < |ids| && Available(plan, ids[i]) > DeliveredUnits(plan, ids[i]);
      C.AssetsAtSomething(groups, 1, i);
    } else {
      C.AssetsAtNothing(groups, 1);
    }
  }

  // ----------------------------------------------------------- derived outputs

  lemma ExtensionsOfPlan(a: TxOutput, b: TxOutput, c: TxOutput, extension: TxOutput, anchor: TxOutput)
    requires a.content.NotExtension? && b.content.NotExtension? && c.content.NotExtension?
             && anchor.content.NotExtension?
    requires !extension.content.NotExtension?
    ensures Extensions([a, b, c, extension, anchor]) == [extension]
  {
    assert [a, b, c, extension, anchor][1..] == [b, c, extension, anchor];
    assert [b, c, extension, anchor][1..] == [c, extension, anchor];
    assert [c, extension, anchor][1..] == [extension, anchor];
    assert [extension, anchor][1..] == [anchor];
    assert [anchor][1..] == [];
    assert Extensions([anchor]) == [];
    assert Extensions([extension, anchor]) == [extension];
    assert Extensions([c, extension, anchor]) == [extension];
    assert Extensions([b, c, extension, anchor]) == [extension];
  }

  function PlannedTx(plan: Plan, ids: seq<R.Id>): Tx
    requires Buildable(plan) && |ids| == |Inventory(plan)|
  {
    DirectGraph(plan, ids).tx
  }

  lemma PlannedGroups(plan: Plan, ids: seq<R.Id>)
    requires Buildable(plan) && |ids| == |Inventory(plan)|
    ensures PlannedTx(plan, ids).outputs == PlannedOutputs(plan) + [TxOutput(0, P2A, NotExtension)]
    ensures Groups(PlannedTx(plan, ids)) == AllGroups(plan) && OutputsDerive(PlannedTx(plan, ids))
  {
    hide Ids, Buildable, KeepsAssets, Inventory;
    var out := PlannedOutputs(plan) + [TxOutput(0, P2A, NotExtension)];
    assert out == [out[0], out[1], out[2], out[3], out[4]];
    ExtensionsOfPlan(out[0], out[1], out[2], out[3], out[4]);
  }

  function CovenantOutput(plan: Plan): R.GraphOutput {
    R.GraphOutput(0, plan.covenantScript, plan.covenantSats, [Holding(plan.assetId, plan.assetUnits)])
  }

  function ChangeOutput(plan: Plan): R.GraphOutput
    requires Change(plan) >= 0
  {
    R.GraphOutput(1, plan.callerScript, Change(plan), AssetsAt(AllGroups(plan), 1))
  }

  function PayoutOutput(plan: Plan): R.GraphOutput
    requires OperatorPayout(plan) >= 0
  {
    R.GraphOutput(2, plan.operatorScript, OperatorPayout(plan), [])
  }

  lemma OutputsOfFive(tx: Tx)
    requires |tx.outputs| == 5
    requires IsValue(tx, 0) && IsValue(tx, 1) && IsValue(tx, 2) && !IsValue(tx, 3) && !IsValue(tx, 4)
    ensures Outputs(tx) == [
      R.GraphOutput(0, tx.outputs[0].script, tx.outputs[0].amount, AssetsAt(Groups(tx), 0)),
      R.GraphOutput(1, tx.outputs[1].script, tx.outputs[1].amount, AssetsAt(Groups(tx), 1)),
      R.GraphOutput(2, tx.outputs[2].script, tx.outputs[2].amount, AssetsAt(Groups(tx), 2))]
  {
    hide IsValue, AssetsAt, Groups;
    assert OutputsBefore(tx, 1)
      == [R.GraphOutput(0, tx.outputs[0].script, tx.outputs[0].amount, AssetsAt(Groups(tx), 0))];
    assert OutputsBefore(tx, 3) == OutputsBefore(tx, 1)
      + [R.GraphOutput(1, tx.outputs[1].script, tx.outputs[1].amount, AssetsAt(Groups(tx), 1))]
      + [R.GraphOutput(2, tx.outputs[2].script, tx.outputs[2].amount, AssetsAt(Groups(tx), 2))];
    assert OutputsBefore(tx, 5) == OutputsBefore(tx, 3);
  }

  lemma PlannedValueOutputs(plan: Plan, ids: seq<R.Id>)
    requires Buildable(plan) && |ids| == |Inventory(plan)|
    ensures Outputs(PlannedTx(plan, ids)) == [CovenantOutput(plan), ChangeOutput(plan), PayoutOutput(plan)]
    ensures Vouts(Outputs(PlannedTx(plan, ids))) == {0, 1, 2}
  {
    PlannedGroups(plan, ids);
    Allocations(plan);
    var tx := PlannedTx(plan, ids);
    hide Ids, Buildable, KeepsAssets, Inventory, AssetsAt, Groups, AllGroups, PlannedTx, OutputsDerive, Outputs;
    OutputsOfFive(tx);
    ThreeVouts(CovenantOutput(plan), ChangeOutput(plan), PayoutOutput(plan));
  }

  lemma ThreeVouts(a: R.GraphOutput, b: R.GraphOutput, c: R.GraphOutput)
    ensures Vouts([a, b, c]) == {a.vout, b.vout, c.vout}
  {
    var outputs := [a, b, c];
    assert outputs[0] in outputs && outputs[1] in outputs && outputs[2] in outputs;
  }

  lemma InputsArePoints(plan: Plan, ids: seq<R.Id>)
    requires Buildable(plan) && |ids| == |Inventory(plan)|
    ensures var g := DirectGraph(plan, ids);
            && Inputs(g.checkpoints) == Points(Inventory(plan)) && |g.tx.inputs| == |Inventory(plan)|
            && InputsDerive(g.tx, g.checkpoints) && HeaderFits(g.tx, |g.checkpoints|)
  {
    hide PlannedOutputs, KeepsAssets;
    var g := DirectGraph(plan, ids);
    assert Inputs(g.checkpoints) == Points(Inventory(plan));
  }

  lemma NotReserved(coins: seq<Reserved>, p: R.Point)
    requires forall i :: 0 <= i < |coins| ==> coins[i].point != p
    ensures p !in ReservedBy(coins)
  {
    if p in ReservedBy(coins) { var i := C.ReservedByOnly(coins, p); }
  }

  lemma {:induction false} ReservedBySize(coins: seq<Reserved>)
    requires Distinct(C.PointsOf(coins))
    ensures |ReservedBy(coins)| == |coins|
  {
    if coins != [] {
      var n := |coins| - 1;
      var points := C.PointsOf(coins);
      assert C.PointsOf(coins[..n]) == points[..n];
      ReservedBySize(coins[..n]);
      assert forall i :: 0 <= i < n ==> points[i] != points[n];
      NotReserved(coins[..n], coins[n].point);
    }
  }

  /** The reservation is the Taxi's coins, as they are still observed. */
  ghost predicate ReservedAs(plan: Plan, coins: seq<Reserved>, observed: map<R.Point, Coin>) {
    && |coins| == |plan.taxiInputs|
    && forall k :: 0 <= k < |coins| ==>
         && coins[k].point == plan.taxiInputs[k].point && coins[k].value == plan.taxiInputs[k].value
         && coins[k].point in observed && Undisturbed(observed[coins[k].point], coins[k])
  }

  lemma DistinctSuffix<T>(a: seq<T>, b: seq<T>)
    requires Distinct(a + b)
    ensures Distinct(b)
  {
    assert forall i :: 0 <= i < |b| ==> (a + b)[|a| + i] == b[i];
  }

  lemma ReservedDistinct(plan: Plan, coins: seq<Reserved>, observed: map<R.Point, Coin>)
    requires Distinct(Points(Inventory(plan))) && ReservedAs(plan, coins, observed)
    ensures forall i, j :: 0 <= i < j < |coins| ==> coins[i].point != coins[j].point
    ensures Distinct(C.PointsOf(coins))
  {
    hide Undisturbed, Distinct;
    assert Points(Inventory(plan)) == Points(plan.callerInputs) + Points(plan.taxiInputs);
    DistinctSuffix(Points(plan.callerInputs), Points(plan.taxiInputs));
    assert C.PointsOf(coins) == Points(plan.taxiInputs);
    hide ReservedAs;
    DistinctPoints(coins);
  }

  lemma DistinctPoints(coins: seq<Reserved>)
    requires Distinct(C.PointsOf(coins))
    ensures forall i, j :: 0 <= i < j < |coins| ==> coins[i].point != coins[j].point
  {
    assert forall i :: 0 <= i < |coins| ==> C.PointsOf(coins)[i] == coins[i].point;
  }

  lemma ReservedLookup(plan: Plan, coins: seq<Reserved>, observed: map<R.Point, Coin>)
    requires Distinct(Points(Inventory(plan))) && ReservedAs(plan, coins, observed)
    ensures |ReservedBy(coins)| == |coins|
    ensures forall k :: 0 <= k < |coins| ==>
            coins[k].point in ReservedBy(coins) && ReservedBy(coins)[coins[k].point] == coins[k]
  {
    hide Undisturbed, ReservedBy;
    ReservedDistinct(plan, coins, observed);
    ReservedBySize(coins);
    forall k | 0 <= k < |coins|
      ensures coins[k].point in ReservedBy(coins) && ReservedBy(coins)[coins[k].point] == coins[k]
    {
      C.ReservedByFinds(coins, k);
    }
  }

  lemma {:induction false} ContributedIsTaxiSats(
    inputs: seq<R.Point>, reserved: map<R.Point, Reserved>, indexes: seq<int>, coins: seq<DirectCoin>)
    requires |indexes| == |coins|
    requires forall k :: 0 <= k < |coins| ==>
      && 0 <= indexes[k] < |inputs| && inputs[indexes[k]] in reserved
         && reserved[inputs[indexes[k]]].value == coins[k].value
    ensures ContributedBy(inputs, reserved, indexes) == CoinSats(coins)
  {
    if coins != [] {
      var n := |coins| - 1;
      ContributedIsTaxiSats(inputs, reserved, indexes[..n], coins[..n]);
    }
  }

  lemma TaxiPointsAt(plan: Plan)
    ensures IndexesName(TaxiIndexes(plan), |Inventory(plan)|)
    ensures forall k :: 0 <= k < |plan.taxiInputs| ==>
              Points(Inventory(plan))[TaxiIndexes(plan)[k]] == plan.taxiInputs[k].point
  {
  }

  lemma TaxiSide(plan: Plan, coins: seq<Reserved>, observed: map<R.Point, Coin>)
    requires UsableInputs(plan) && ReservedAs(plan, coins, observed)
    ensures IndexesName(TaxiIndexes(plan), |Inventory(plan)|)
    ensures SpendsReservation(TaxiIndexes(plan), Points(Inventory(plan)), ReservedBy(coins), observed)
    ensures ContributedBy(Points(Inventory(plan)), ReservedBy(coins), TaxiIndexes(plan)) == CoinSats(plan.taxiInputs)
  {
    ReservedLookup(plan, coins, observed);
    TaxiPointsAt(plan);
    hide ReservedBy, UsableInputs, Undisturbed, CoinSats, ContributedBy, Inventory;
    var inputs := Points(Inventory(plan));
    ContributedIsTaxiSats(inputs, ReservedBy(coins), TaxiIndexes(plan), plan.taxiInputs);
  }

  lemma CallerSide(plan: Plan, observed: map<R.Point, Coin>)
    requires forall i :: 0 <= i < |plan.callerInputs| && plan.callerInputs[i].point in observed ==>
               observed[plan.callerInputs[i].point].script != plan.operatorScript
    ensures NoForeignTaxiCoin(TaxiIndexes(plan), Points(Inventory(plan)), observed, plan.operatorScript)
  {
    var n := |plan.callerInputs|;
    forall i | n <= i < |Inventory(plan)| ensures i in TaxiIndexes(plan) { assert TaxiIndexes(plan)[i - n] == i; }
  }

  lemma PaidToThree(a: R.GraphOutput, b: R.GraphOutput, c: R.GraphOutput, script: string)
    requires a.script != script && b.script != script && c.script == script
    ensures PaidTo([a, b, c], script) == c.sats
  {
    assert [a, b, c][1..] == [b, c] && [b, c][1..] == [c] && [c][1..] == [];
    assert PaidTo([c], script) == c.sats;
    assert PaidTo([b, c], script) == c.sats;
  }

  lemma OneHolding(id: AssetId, units: int)
    ensures forall other :: Names([Holding(id, units)], other) <==> other == id
    ensures UnitsOf([Holding(id, units)], id) == units
  {
    assert [Holding(id, units)][0].assetId == id && [Holding(id, units)][1..] == [];
  }

  predicate ScriptsApart(plan: Plan) {
    plan.callerScript != plan.operatorScript && plan.covenantScript != plan.operatorScript
  }

  lemma PaySide(plan: Plan, maxAmount: Option<int>)
    requires Buildable(plan) && ScriptsApart(plan)
    requires Within(plan.covenantSats, maxAmount) && Within(Change(plan), maxAmount)
             && Within(OperatorPayout(plan), maxAmount)
    ensures var outputs := [CovenantOutput(plan), ChangeOutput(plan), PayoutOutput(plan)];
            && FirstAt(outputs, 0) == Some(CovenantOutput(plan))
            && Delivers(Some(CovenantOutput(plan)), plan.assetId, plan.assetUnits)
            && !Unpriced(outputs, plan.operatorScript) && PaidTo(outputs, plan.operatorScript) == OperatorPayout(plan)
            && AllWithin(outputs, maxAmount) && AllAboveFloor(outputs, plan.dust, plan.vtxoMin)
  {
    Allocations(plan);
    hide AssetsAt, KeepsAssets, AllGroups, CoinSats, UsableInputs, PositiveHoldings, Available, Within;
    PaidToThree(CovenantOutput(plan), ChangeOutput(plan), PayoutOutput(plan), plan.operatorScript);
    OneHolding(plan.assetId, plan.assetUnits);
    hide PaidTo, Names, UnitsOf;
  }

  lemma {:induction false} InputSatsOfCoins(coins: seq<DirectCoin>, observed: map<R.Point, Coin>)
    requires forall i :: 0 <= i < |coins| ==>
             coins[i].point in observed && observed[coins[i].point].value == coins[i].value
    ensures InputSats(Points(coins), observed) == CoinSats(coins)
  {
    if coins != [] {
      var n := |coins| - 1;
      InputSatsOfCoins(coins[..n], observed);
      assert Points(coins)[..n] == Points(coins[..n]);
    }
  }

  lemma {:induction false} CoinSatsConcat(a: seq<DirectCoin>, b: seq<DirectCoin>)
    ensures CoinSats(a + b) == CoinSats(a) + CoinSats(b)
  {
    if b == [] {
      assert a + b == a;
    } else {
      assert (a + b)[..|a + b| - 1] == a + b[..|b| - 1];
      CoinSatsConcat(a, b[..|b| - 1]);
    }
  }

  lemma OutputSatsOfFive(out: seq<TxOutput>)
    requires |out| == 5
    ensures OutputSats(out) == out[0].amount + out[1].amount + out[2].amount + out[3].amount + out[4].amount
  {
    assert out[..4][..3] == out[..3] && out[..3][..2] == out[..2] && out[..2][..1] == out[..1] && out[..1][..0] == [];
    assert OutputSats(out[..1]) == out[0].amount;
    assert OutputSats(out[..2]) == out[0].amount + out[1].amount;
    assert OutputSats(out[..3]) == out[0].amount + out[1].amount + out[2].amount;
    assert OutputSats(out[..4]) == OutputSats(out[..3]) + out[3].amount;
  }

  /** Each input is observed as the builder saw it, spendable and late enough. */
  ghost predicate ObservedAs(coins: seq<DirectCoin>, observed: map<R.Point, Coin>, floor: Expiry) {
    forall i :: 0 <= i < |coins| ==>
      && coins[i].point in observed && UniqueNames(coins[i].assets)
      && observed[coins[i].point].value == coins[i].value
         && LowerIds(observed[coins[i].point].assets) == coins[i].assets
      && observed[coins[i].point].spendable && observed[coins[i].point].expiry.Some?
      && NotBefore(observed[coins[i].point].expiry.value, floor)
  }

  lemma SatsSide(plan: Plan, ids: seq<R.Id>, observed: map<R.Point, Coin>, floor: Expiry)
    requires Buildable(plan) && |ids| == |Inventory(plan)| && ObservedAs(Inventory(plan), observed, floor)
    ensures InputSats(Points(Inventory(plan)), observed) == OutputSats(PlannedTx(plan, ids).outputs)
  {
    PlannedGroups(plan, ids);
    OutputSatsOfFive(PlannedTx(plan, ids).outputs);
    hide PlannedTx, OutputsDerive, UsableInputs, PositiveHoldings, KeepsAssets, Available, UniqueNames, LowerIds,
      NotBefore, Points, OutputSats, Groups, AllGroups, Ids;
    InputSatsOfCoins(Inventory(plan), observed);
    CoinSatsConcat(plan.callerInputs, plan.taxiInputs);
    hide InputSats, CoinSats;
  }

  lemma AssetSide(plan: Plan, observed: map<R.Point, Coin>, floor: Expiry)
    requires Buildable(plan) && ObservedAs(Inventory(plan), observed, floor)
    ensures var inputs := Points(Inventory(plan));
            && !AnyTouchesTaxi(AllGroups(plan), IndexSet(TaxiIndexes(plan)))
            && AssetsConserved(AllGroups(plan), Held(inputs, observed), {0, 1, 2})
            && AllSpendable(inputs, observed) && ExpiriesKnown(inputs, observed)
               && ExpiriesReach(inputs, observed, floor)
  {
    hide Buildable, UniqueNames, AllGroups, AssetsConserved, AnyTouchesTaxi, TaxiIndexes, LowerIds, NotBefore;
    BuiltAssetsConserved(plan, Held(Points(Inventory(plan)), observed));
  }

  // ------------------------------------------------------------- the theorem

  /** The call and its quote name what was built, within the provider maximum and above the receiver fare. */
  ghost predicate Quoted(a: Args, plan: Plan, ids: seq<R.Id>) {
    && Buildable(plan) && |ids| == |Inventory(plan)|
    && a.tx == PlannedTx(plan, ids) && a.checkpoints == DirectGraph(plan, ids).checkpoints
    && a.taxiIndexes == TaxiIndexes(plan) && a.covenantVout == 0 && a.assetUnits == plan.assetUnits
    && a.operatorScript == plan.operatorScript && a.dust == plan.dust && a.vtxoMin == plan.vtxoMin
    && a.quote.covenantScript == plan.covenantScript && a.quote.lockupSats == plan.covenantSats
    && a.quote.topup == plan.loanSats && a.quote.assetId == plan.assetId
       && a.quote.fare == SatsFare(plan.senderFareSats)
    && FareBelow(a.quote.receiverFare, plan.assetUnits)
    && Within(plan.covenantSats, a.maxAmount) && Within(Change(plan), a.maxAmount)
       && Within(OperatorPayout(plan), a.maxAmount)
  }

  /** The observed coins are the builder's, the Taxi's still as reserved, the caller's not the Taxi's. */
  ghost predicate Observed(a: Args, plan: Plan) {
    && ObservedAs(Inventory(plan), a.observed, a.quote.expiryFloor)
    && ReservedAs(plan, a.quote.operatorInputs, a.observed)
    && forall i :: 0 <= i < |plan.callerInputs| && plan.callerInputs[i].point in a.observed ==>
         a.observed[plan.callerInputs[i].point].script != plan.operatorScript
  }

  /**
   * The reference builder and the validator agree: a graph built from distinct owner scripts and
   * distinct asset ids per coin, submitted under a quote with the same terms whose reservation and
   * observed coins match, is accepted.
   */
  lemma BuiltGraphIsAccepted(a: Args, plan: Plan, ids: seq<R.Id>)
    requires Quoted(a, plan, ids) && Observed(a, plan) && ScriptsApart(plan)
    requires CheckpointsHold(a.taxiIndexes, a.checkpointHolds) && a.signaturesHold
    ensures Acceptable(a)
  {
    hide InputsDerive, HeaderFits, OutputsDerive, Inputs, Outputs, Groups, AllGroups, Vouts, Held, PlannedTx,
      CheckpointsHold;
    hide SpendsReservation, IndexesName, NoForeignTaxiCoin, ReservedAs, ReservedBy, ContributedBy, ObservedAs,
      UsableInputs;
    hide AllSpendable, ExpiriesKnown, ExpiriesReach, AssetsConserved, AnyTouchesTaxi, InputSats, OutputSats, CoinSats,
      Points;
    hide FirstAt, Delivers, Unpriced, PaidTo, AllWithin, AllAboveFloor, FareBelow, Within, KeepsAssets, Available;
    hide PositiveHoldings, TaxiIndexes, PlannedOutputs, IndexSet;
    PlannedTxIsBuilt(plan, ids);
    InputsArePoints(plan, ids);
    PlannedGroups(plan, ids);
    PlannedValueOutputs(plan, ids);
    TaxiSide(plan, a.quote.operatorInputs, a.observed);
    CallerSide(plan, a.observed);
    PaySide(plan, a.maxAmount);
    SatsSide(plan, ids, a.observed, a.quote.expiryFloor);
    AssetSide(plan, a.observed, a.quote.expiryFloor);
    hide DirectGraph;
    forall code: Code ensures Holds(a, code) {}
  }

  lemma PlannedTxIsBuilt(plan: Plan, ids: seq<R.Id>)
    requires Buildable(plan) && |ids| == |Inventory(plan)|
    ensures PlannedTx(plan, ids) == DirectGraph(plan, ids).tx
  {
  }
}
