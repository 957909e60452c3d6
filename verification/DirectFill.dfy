// e2e/directFillGraph.ts: `buildDirectFillGraph`, the reference builder of fill graphs.
// Canonical multisig leaves are not modelled; `ids` are the checkpoint ids the SDK computes.
module DirectFill {
  import opened Prelude
  import opened Assets
  import opened FillGraph
  import R = FillReconciler

  const MAX_SAFE_INTEGER := 9007199254740991

  datatype DirectCoin = DirectCoin(point: R.Point, value: nat, assets: seq<Holding>)

  datatype Plan = Plan(
    callerInputs: seq<DirectCoin>, taxiInputs: seq<DirectCoin>,
    callerScript: string, covenantScript: string, operatorScript: string,
    assetId: AssetId, assetUnits: int, covenantSats: nat, loanSats: int, senderFareSats: int, dust: nat, vtxoMin: nat)

  datatype Built = Built(tx: Tx, checkpoints: seq<Checkpoint>, taxiIndexes: seq<int>, callerChange: nat,
    operatorPayout: nat)

  // --------------------------------------------------------- specification

  function CoinSats(coins: seq<DirectCoin>): int {
    if coins == [] then 0 else CoinSats(coins[..|coins| - 1]) + coins[|coins| - 1].value
  }

  function Points(coins: seq<DirectCoin>): (r: seq<R.Point>)
    ensures |r| == |coins| && forall i :: 0 <= i < |r| ==> r[i] == coins[i].point
  {
    seq(|coins|, i requires 0 <= i < |coins| => coins[i].point)
  }

  function CoinEntries(vin: nat, held: seq<Holding>, id: AssetId): seq<AssetInput> {
    if held == [] then []
    else
      var last := held[|held| - 1];
      CoinEntries(vin, held[..|held| - 1], id)
        + (if last.assetId == id then [AssetInput(vin, last.units, true)] else [])
  }

  /** The packet inputs of one asset, in the order the coins list it. */
  function Entries(coins: seq<DirectCoin>, id: AssetId): seq<AssetInput> {
    if coins == [] then []
    else Entries(coins[..|coins| - 1], id) + CoinEntries(|coins| - 1, coins[|coins| - 1].assets, id)
  }

  function Seen(ids: seq<AssetId>, held: seq<Holding>): seq<AssetId> {
    if held == [] then ids
    else
      var before, id := Seen(ids, held[..|held| - 1]), held[|held| - 1].assetId;
      if id in before then before else before + [id]
  }

  /** Asset ids in the order they are first seen, as a `Map` keeps them. */
  function Ids(coins: seq<DirectCoin>): seq<AssetId> {
    if coins == [] then [] else Seen(Ids(coins[..|coins| - 1]), coins[|coins| - 1].assets)
  }

  function Available(plan: Plan, id: AssetId): int { InputUnits(Entries(plan.callerInputs, id)) }

  function DeliveredUnits(plan: Plan, id: AssetId): int { if id == plan.assetId then plan.assetUnits else 0 }

  function GroupOf(plan: Plan, id: AssetId): Group {
    var amount, units := Available(plan, id), DeliveredUnits(plan, id);
    Group(Some(id), Entries(plan.callerInputs, id),
          (if units != 0 then [AssetOutput(0, units)] else [])
            + (if amount > units then [AssetOutput(1, amount - units)] else []))
  }

  function GroupsOf(plan: Plan, ids: seq<AssetId>): (r: seq<Group>)
    ensures |r| == |ids| && forall i :: 0 <= i < |r| ==> r[i] == GroupOf(plan, ids[i])
  {
    seq(|ids|, i requires 0 <= i < |ids| => GroupOf(plan, ids[i]))
  }

  function Inventory(plan: Plan): seq<DirectCoin> { plan.callerInputs + plan.taxiInputs }

  function OperatorPayout(plan: Plan): int { CoinSats(plan.taxiInputs) - plan.loanSats + plan.senderFareSats }

  function Change(plan: Plan): int {
    CoinSats(plan.callerInputs) - (plan.covenantSats - plan.loanSats) - plan.senderFareSats
  }

  predicate KeepsAssets(plan: Plan) {
    exists i :: 0 <= i < |Ids(plan.callerInputs)| &&
      Available(plan, Ids(plan.callerInputs)[i]) > DeliveredUnits(plan, Ids(plan.callerInputs)[i])
  }

  predicate PositiveHoldings(coins: seq<DirectCoin>) {
    forall i, j :: 0 <= i < |coins| && 0 <= j < |coins[i].assets| ==> coins[i].assets[j].units > 0
  }

  predicate UsableInputs(plan: Plan) {
    && plan.callerInputs != [] && plan.taxiInputs != [] && Distinct(Points(Inventory(plan)))
    && (forall i :: 0 <= i < |Inventory(plan)| ==> 0 < Inventory(plan)[i].value <= MAX_SAFE_INTEGER)
    && forall i :: 0 <= i < |plan.taxiInputs| ==> plan.taxiInputs[i].assets == []
  }

  predicate Buildable(plan: Plan) {
    && UsableInputs(plan)
    && PositiveHoldings(plan.callerInputs)
    && 0 < plan.assetUnits <= Available(plan, plan.assetId)
    && Change(plan) >= (if KeepsAssets(plan) then plan.vtxoMin else plan.dust)
    && plan.covenantSats >= plan.vtxoMin && OperatorPayout(plan) >= plan.dust
  }

  /** `buildOffchainTx`: a checkpoint for each coin, the given outputs, and the anchor. */
  function OffchainTx(points: seq<R.Point>, ids: seq<R.Id>, outputs: seq<TxOutput>): (r: (Tx, seq<Checkpoint>))
    requires |ids| == |points|
    ensures |r.1| == |points| == |r.0.inputs|
    ensures forall i :: 0 <= i < |points| ==> r.1[i] == Checkpoint(ids[i], [points[i]])
    ensures forall i :: 0 <= i < |points| ==> r.0.inputs[i] == TxInput(R.Point(ids[i], 0), FINAL_SEQUENCE)
    ensures r.0.version == 3 && r.0.lockTime == 0 && r.0.outputs == outputs + [TxOutput(0, P2A, NotExtension)]
  {
    (Tx(3, 0, seq(|ids|, i requires 0 <= i < |ids| => TxInput(R.Point(ids[i], 0), FINAL_SEQUENCE)),
        outputs + [TxOutput(0, P2A, NotExtension)]),
     seq(|points|, i requires 0 <= i < |points| => Checkpoint(ids[i], [points[i]])))
  }

  function PlannedOutputs(plan: Plan): seq<TxOutput>
    requires Buildable(plan)
  {
    [TxOutput(plan.covenantSats, plan.covenantScript, NotExtension),
     TxOutput(Change(plan), plan.callerScript, NotExtension),
     TxOutput(OperatorPayout(plan), plan.operatorScript, NotExtension),
     TxOutput(0, "6a", Packet(GroupsOf(plan, Ids(plan.callerInputs))))]
  }

  function TaxiIndexes(plan: Plan): (r: seq<int>)
    ensures |r| == |plan.taxiInputs| && forall k :: 0 <= k < |r| ==> r[k] == |plan.callerInputs| + k
  {
    seq(|plan.taxiInputs|, k => |plan.callerInputs| + k)
  }

  function DirectGraph(plan: Plan, ids: seq<R.Id>): Built
    requires Buildable(plan) && |ids| == |Inventory(plan)|
  {
    var graph := OffchainTx(Points(Inventory(plan)), ids, PlannedOutputs(plan));
    Built(graph.0, graph.1, TaxiIndexes(plan), Change(plan), OperatorPayout(plan))
  }

  // ----------------------------------------------------------------- builder

  method SumCoins(coins: seq<DirectCoin>) returns (sats: int)
    ensures sats == CoinSats(coins)
  {
    sats := 0;
    for i := 0 to |coins|
      invariant sats == CoinSats(coins[..i])
    {
      assert coins[..i + 1][..i] == coins[..i];
      sats := sats + coins[i].value;
    }
    assert coins[..|coins|] == coins;
  }

  /** Packet inputs of one asset after `coins` and the holdings `held` of the next coin. */
  function Collecting(coins: seq<DirectCoin>, held: seq<Holding>, id: AssetId): seq<AssetInput> {
    Entries(coins, id) + CoinEntries(|coins|, held, id)
  }

  /** The `assets` map, and the order of its keys, at that point. */
  ghost predicate Collected(
    order: seq<AssetId>, assets: map<AssetId, seq<AssetInput>>, coins: seq<DirectCoin>, held: seq<Holding>)
  {
    && order == Seen(Ids(coins), held)
    && (forall id :: id in assets <==> id in order)
    && forall id :: Collecting(coins, held, id) == if id in assets then assets[id] else []
  }

  lemma CollectingOne(coins: seq<DirectCoin>, held: seq<Holding>, j: nat, id: AssetId)
    requires j < |held|
    ensures Collecting(coins, held[..j + 1], id)
            == Collecting(coins, held[..j], id)
               + (if held[j].assetId == id then [AssetInput(|coins|, held[j].units, true)] else [])
  {
    hide Entries;
    assert held[..j + 1][..j] == held[..j] && held[..j + 1][j] == held[j];
  }

  lemma CollectingCoin(coins: seq<DirectCoin>, i: nat, id: AssetId)
    requires i < |coins|
    ensures Collecting(coins[..i + 1], [], id) == Collecting(coins[..i], coins[i].assets, id)
  {
    assert coins[..i + 1][..i] == coins[..i] && coins[..i + 1][i] == coins[i];
  }

  lemma SeenOne(ids: seq<AssetId>, held: seq<Holding>, j: nat)
    requires j < |held|
    ensures var before := Seen(ids, held[..j]);
            Seen(ids, held[..j + 1]) == if held[j].assetId in before then before else before + [held[j].assetId]
  {
    assert held[..j + 1][..j] == held[..j] && held[..j + 1][j] == held[j];
  }

  lemma CollectedOne(
    order: seq<AssetId>, assets: map<AssetId, seq<AssetInput>>, coins: seq<DirectCoin>, held: seq<Holding>, j: nat)
    requires j < |held| && Collected(order, assets, coins, held[..j])
    ensures var id := held[j].assetId;
            Collected(if id in assets then order else order + [id],
                      assets[id := (if id in assets then assets[id] else [])
                        + [AssetInput(|coins|, held[j].units, true)]],
                      coins, held[..j + 1])
  {
    hide Ids, Collecting, Seen;
    SeenOne(Ids(coins), held, j);
    forall id ensures Collecting(coins, held[..j + 1], id)
                      == Collecting(coins, held[..j], id)
                         + (if held[j].assetId == id then [AssetInput(|coins|, held[j].units, true)] else [])
    {
      CollectingOne(coins, held, j, id);
    }
  }

  lemma CollectedCoin(order: seq<AssetId>, assets: map<AssetId, seq<AssetInput>>, coins: seq<DirectCoin>, i: nat)
    requires i < |coins| && Collected(order, assets, coins[..i], coins[i].assets)
    ensures Collected(order, assets, coins[..i + 1], [])
  {
    hide Collecting;
    assert coins[..i + 1][..i] == coins[..i] && coins[..i + 1][i] == coins[i];
    forall id ensures Collecting(coins[..i + 1], [], id) == Collecting(coins[..i], coins[i].assets, id) {
      CollectingCoin(coins, i, id);
    }
  }

  lemma CollectedNone()
    ensures Collected([], map[], [], [])
  {
  }

  lemma CollectedAll(order: seq<AssetId>, assets: map<AssetId, seq<AssetInput>>, coins: seq<DirectCoin>)
    requires Collected(order, assets, coins, [])
    ensures order == Ids(coins) && assets.Keys == (set id | id in order)
    ensures forall id :: Entries(coins, id) == if id in assets then assets[id] else []
  {
    hide Entries, Ids;
    forall id ensures Collecting(coins, [], id) == Entries(coins, id) {}
  }

  /** The map of packet inputs by asset id, or nothing where a holding is not positive. */
  method CollectAssets(coins: seq<DirectCoin>)
    returns (ok: bool, order: seq<AssetId>, assets: map<AssetId, seq<AssetInput>>)
    ensures ok <==> PositiveHoldings(coins)
    ensures ok ==> order == Ids(coins) && assets.Keys == (set id | id in order)
    ensures ok ==> forall id :: Entries(coins, id) == if id in assets then assets[id] else []
  {
    hide Collected, Ids, Entries;
    order, assets := [], map[];
    CollectedNone();
    assert coins[..0] == [];
    for vin := 0 to |coins|
      invariant forall i, k :: 0 <= i < vin && 0 <= k < |coins[i].assets| ==> coins[i].assets[k].units > 0
      invariant Collected(order, assets, coins[..vin], [])
    {
      var held := coins[vin].assets;
      assert held[..0] == [];
      for j := 0 to |held|
        invariant forall k :: 0 <= k < j ==> held[k].units > 0
        invariant Collected(order, assets, coins[..vin], held[..j])
      {
        if held[j].units <= 0 { return false, order, assets; }
        CollectedOne(order, assets, coins[..vin], held, j);
        var id := held[j].assetId;
        var entries := (if id in assets then assets[id] else []) + [AssetInput(vin, held[j].units, true)];
        if id !in assets { order := order + [id]; }
        assets := assets[id := entries];
      }
      assert held[..|held|] == held;
      CollectedCoin(order, assets, coins, vin);
    }
    assert coins[..|coins|] == coins;
    CollectedAll(order, assets, coins);
    return true, order, assets;
  }

  /** The packet groups, and whether the caller keeps any units. */
  method PlanGroups(plan: Plan, order: seq<AssetId>, assets: map<AssetId, seq<AssetInput>>)
    returns (groups: seq<Group>, keeps: bool)
    requires forall id :: id in order ==> id in assets && assets[id] == Entries(plan.callerInputs, id)
    ensures groups == GroupsOf(plan, order)
    ensures keeps <==> exists i :: 0 <= i < |order| && Available(plan, order[i]) > DeliveredUnits(plan, order[i])
  {
    hide Entries;
    keeps, groups := false, [];
    for i := 0 to |order|
      invariant keeps <==> exists k :: 0 <= k < i && Available(plan, order[k]) > DeliveredUnits(plan, order[k])
      invariant groups == GroupsOf(plan, order[..i])
    {
      var id := order[i];
      var amount := SumInputs(assets[id]);
      var units := if id == plan.assetId then plan.assetUnits else 0;
      keeps := keeps || amount > units;
      groups := groups + [Group(Some(id), assets[id],
                                (if units != 0 then [AssetOutput(0, units)] else [])
                                + (if amount > units then [AssetOutput(1, amount - units)] else []))];
      assert groups == GroupsOf(plan, order[..i + 1]);
    }
    assert order[..|order|] == order;
  }

  /** Builds exactly when every guard holds, and then the graph specified. */
  method BuildDirectFillGraph(plan: Plan, ids: seq<R.Id>) returns (r: Option<Built>)
    requires |ids| == |plan.callerInputs| + |plan.taxiInputs|
    ensures r.Some? <==> Buildable(plan)
    ensures r.Some? ==> r.value == DirectGraph(plan, ids)
  {
    hide Ids, Entries, CoinSats, Distinct, PositiveHoldings, UsableInputs, InputUnits, GroupsOf, OffchainTx;
    if !UsableInputs(plan) { return None; }
    var callerSats := SumCoins(plan.callerInputs);
    var taxiSats := SumCoins(plan.taxiInputs);
    var operatorPayout := taxiSats - plan.loanSats + plan.senderFareSats;
    var callerChange := callerSats - (plan.covenantSats - plan.loanSats) - plan.senderFareSats;
    var ok, order, assets := CollectAssets(plan.callerInputs);
    if !ok { return None; }
    var available := SumInputs(if plan.assetId in assets then assets[plan.assetId] else []);
    if plan.assetUnits <= 0 || available < plan.assetUnits { return None; }
    var groups, keeps := PlanGroups(plan, order, assets);
    assert keeps == KeepsAssets(plan);
    if callerChange < (if keeps then plan.vtxoMin else plan.dust) { return None; }
    if plan.covenantSats < plan.vtxoMin || operatorPayout < plan.dust { return None; }
    var graph := OffchainTx(
      Points(Inventory(plan)), ids,
      [TxOutput(plan.covenantSats, plan.covenantScript, NotExtension),
       TxOutput(callerChange, plan.callerScript, NotExtension),
       TxOutput(operatorPayout, plan.operatorScript, NotExtension),
       TxOutput(0, "6a", Packet(groups))]);
    return Some(Built(graph.0, graph.1, TaxiIndexes(plan), callerChange, operatorPayout));
  }
}
