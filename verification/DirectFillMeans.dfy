// What the reference builder demands and what it pays, on the plan's own figures.
module DirectFillMeans {
  import opened Prelude
  import opened Assets
  import opened FillGraph
  import opened DirectFill
  import R = FillReconciler

  function Sats(coins: seq<DirectCoin>): int { Sum(coins, (c: DirectCoin) => c.value) }

  /** Units of an asset over all coins. */
  function Carried(coins: seq<DirectCoin>, id: AssetId): int {
    Sum(coins, (c: DirectCoin) => UnitsAmong(c.assets, id))
  }

  predicate HoldsIt(coins: seq<DirectCoin>, id: AssetId) {
    exists i, k :: 0 <= i < |coins| && 0 <= k < |coins[i].assets| && coins[i].assets[k].assetId == id
  }

  /** More than the delivery takes is left of some asset. */
  ghost predicate SomethingLeft(plan: Plan) {
    exists id :: HoldsIt(plan.callerInputs, id)
                 && Carried(plan.callerInputs, id) > (if id == plan.assetId then plan.assetUnits else 0)
  }

  lemma {:induction false} SatsAre(coins: seq<DirectCoin>)
    ensures CoinSats(coins) == Sats(coins)
  {
    if coins != [] {
      var n := |coins| - 1;
      SatsAre(coins[..n]);
      SumSnoc(coins[..n], coins[n], (c: DirectCoin) => c.value);
      assert coins[..n] + [coins[n]] == coins;
    }
  }

  lemma EntryUnits(a: seq<AssetInput>, last: AssetInput)
    ensures InputUnits(a + [last]) == InputUnits(a) + last.amount
  {
    assert (a + [last])[..|a|] == a;
  }

  lemma {:induction false} EntryUnitsConcat(a: seq<AssetInput>, b: seq<AssetInput>)
    ensures InputUnits(a + b) == InputUnits(a) + InputUnits(b)
  {
    if b == [] {
      assert a + b == a;
    } else {
      assert (a + b)[..|a + b| - 1] == a + b[..|b| - 1];
      EntryUnitsConcat(a, b[..|b| - 1]);
    }
  }

  lemma {:induction false} CoinUnits(vin: nat, held: seq<Holding>, id: AssetId)
    ensures InputUnits(CoinEntries(vin, held, id)) == UnitsAmong(held, id)
  {
    if held != [] {
      var n := |held| - 1;
      CoinUnits(vin, held[..n], id);
      SumSnoc(held[..n], held[n], UnitsWhere(id));
      assert held[..n] + [held[n]] == held;
      var before := CoinEntries(vin, held[..n], id);
      if held[n].assetId == id { EntryUnits(before, AssetInput(vin, held[n].units, true)); }
      assert before + [] == before;
    }
  }

  lemma {:induction false} UnitsAre(coins: seq<DirectCoin>, id: AssetId)
    ensures InputUnits(Entries(coins, id)) == Carried(coins, id)
  {
    if coins != [] {
      var n := |coins| - 1;
      UnitsAre(coins[..n], id);
      CoinUnits(n, coins[n].assets, id);
      EntryUnitsConcat(Entries(coins[..n], id), CoinEntries(n, coins[n].assets, id));
      SumSnoc(coins[..n], coins[n], (c: DirectCoin) => UnitsAmong(c.assets, id));
      assert coins[..n] + [coins[n]] == coins;
    }
  }

  lemma {:induction false} SeenAre(ids: seq<AssetId>, held: seq<Holding>, id: AssetId)
    ensures id in Seen(ids, held) <==> id in ids || exists k :: 0 <= k < |held| && held[k].assetId == id
  {
    if held != [] {
      var n := |held| - 1;
      SeenAre(ids, held[..n], id);
      assert forall k :: 0 <= k < n ==> held[..n][k] == held[k];
    }
  }

  lemma {:induction false} IdsAre(coins: seq<DirectCoin>, id: AssetId)
    ensures id in Ids(coins) <==> HoldsIt(coins, id)
  {
    if coins != [] {
      var n := |coins| - 1;
      IdsAre(coins[..n], id);
      SeenAre(Ids(coins[..n]), coins[n].assets, id);
      assert forall i :: 0 <= i < n ==> coins[..n][i] == coins[i];
    }
  }

  lemma KeepsMeans(plan: Plan)
    ensures KeepsAssets(plan) <==> SomethingLeft(plan)
  {
    var ids := Ids(plan.callerInputs);
    forall id
      ensures Available(plan, id) == Carried(plan.callerInputs, id)
      ensures id in ids <==> HoldsIt(plan.callerInputs, id)
    {
      UnitsAre(plan.callerInputs, id);
      IdsAre(plan.callerInputs, id);
    }
    hide Ids, Carried, HoldsIt, Available;
    if SomethingLeft(plan) {
      var id :| HoldsIt(plan.callerInputs, id)
        && Carried(plan.callerInputs, id) > (if id == plan.assetId then plan.assetUnits else 0);
      var i :| 0 <= i < |ids| && ids[i] == id;
      assert Available(plan, ids[i]) > DeliveredUnits(plan, ids[i]);
    }
  }

  /** No outpoint is given twice, as a caller's or as the Taxi's. */
  predicate NoPointTwice(coins: seq<DirectCoin>) {
    forall i, j :: 0 <= i < j < |coins| ==> coins[i].point != coins[j].point
  }

  /** What the caller gets back. */
  function CallerGets(plan: Plan): int {
    Sats(plan.callerInputs) + plan.loanSats - plan.covenantSats - plan.senderFareSats
  }

  /** What the Taxi gets back: its coins less the loan plus the fare. */
  function TaxiGets(plan: Plan): int { Sats(plan.taxiInputs) + plan.senderFareSats - plan.loanSats }

  /** Everything the builder asks of a plan. */
  ghost predicate Demands(plan: Plan) {
    var coins := plan.callerInputs + plan.taxiInputs;
    && |plan.callerInputs| >= 1 && |plan.taxiInputs| >= 1 && NoPointTwice(coins)
    && (forall i :: 0 <= i < |coins| ==> coins[i].value > 0 && coins[i].value <= 9007199254740991)
    && (forall i :: 0 <= i < |plan.taxiInputs| ==> plan.taxiInputs[i].assets == [])
    && (forall i, k :: 0 <= i < |plan.callerInputs| && 0 <= k < |plan.callerInputs[i].assets| ==>
          plan.callerInputs[i].assets[k].units > 0)
    && plan.assetUnits > 0 && plan.assetUnits <= Carried(plan.callerInputs, plan.assetId)
    && CallerGets(plan) >= (if SomethingLeft(plan) then plan.vtxoMin else plan.dust)
    && plan.covenantSats >= plan.vtxoMin && TaxiGets(plan) >= plan.dust
  }

  lemma PointsMean(coins: seq<DirectCoin>)
    ensures Distinct(Points(coins)) <==> NoPointTwice(coins)
  {
    if Distinct(Points(coins)) {
      forall i, j | 0 <= i < j < |coins| ensures coins[i].point != coins[j].point {
        assert Points(coins)[i] != Points(coins)[j];
      }
    }
  }

  /** The builder builds exactly what meets its demands. */
  lemma BuildsExactlyWhen(plan: Plan)
    ensures Buildable(plan) <==> Demands(plan)
  {
    PointsMean(plan.callerInputs + plan.taxiInputs);
    SatsAre(plan.callerInputs);
    SatsAre(plan.taxiInputs);
    UnitsAre(plan.callerInputs, plan.assetId);
    KeepsMeans(plan);
    hide NoPointTwice, Points, Distinct, CoinSats, Sats, KeepsAssets, SomethingLeft, Carried, Entries, InputUnits;
  }

  /** The output pays this script this much, and carries no packet. */
  predicate Pays(outputs: seq<TxOutput>, i: nat, script: string, sats: int) {
    i < |outputs| && outputs[i].script == script && outputs[i].amount == sats && outputs[i].content == NotExtension
  }

  /**
   * Input by input the graph moves the callers' coins, then the Taxi's, each through its own
   * checkpoint; it pays the covenant, the caller and the Taxi, in this order, and declares a packet.
   */
  lemma BuiltGraphPays(plan: Plan, ids: seq<R.Id>)
    requires Buildable(plan) && |ids| == |plan.callerInputs| + |plan.taxiInputs|
    ensures var built, coins := DirectGraph(plan, ids), plan.callerInputs + plan.taxiInputs;
            && |built.tx.inputs| == |built.checkpoints| == |coins|
            && (forall i :: 0 <= i < |coins| ==>
                  && built.checkpoints[i].id == ids[i] && built.checkpoints[i].spends == [coins[i].point]
                  && built.tx.inputs[i].spends == R.Point(ids[i], 0) && built.tx.inputs[i].sequence == 4294967295)
            && |built.taxiIndexes| == |plan.taxiInputs|
            && (forall k :: 0 <= k < |plan.taxiInputs| ==>
                  var i := built.taxiIndexes[k];
                  0 <= i < |coins| && coins[i] == plan.taxiInputs[k])
            && |built.tx.outputs| == 5
            && Pays(built.tx.outputs, 0, plan.covenantScript, plan.covenantSats)
            && Pays(built.tx.outputs, 1, plan.callerScript, CallerGets(plan))
            && Pays(built.tx.outputs, 2, plan.operatorScript, TaxiGets(plan))
            && built.tx.outputs[3].content.Packet? && built.tx.outputs[3].amount == 0
            && Pays(built.tx.outputs, 4, P2A, 0)
            && built.callerChange == CallerGets(plan) && built.operatorPayout == TaxiGets(plan)
  {
    SatsAre(plan.callerInputs);
    SatsAre(plan.taxiInputs);
    hide CoinSats, Sats, UsableInputs, PositiveHoldings, KeepsAssets, GroupsOf, Ids, Available;
  }
}
