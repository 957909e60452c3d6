// What the rules of the fill validator say about a graph, on the transaction's own outputs, the
// coins each checkpoint spends, and the quote's own figures.
module FillGraphMeans {
  import opened Prelude
  import opened Assets
  import opened FillGraph
  import R = FillReconciler
  import C = FillConservation

  // --------------------------------------------------------- reading the graph

  /** Input `i` moves the one coin its own checkpoint spends, and no coin is moved twice. */
  predicate EachInputMovesOneCoin(tx: Tx, checkpoints: seq<Checkpoint>) {
    && |tx.inputs| == |checkpoints|
    && (forall i :: 0 <= i < |checkpoints| ==> |checkpoints[i].spends| == 1)
    && (forall i :: 0 <= i < |checkpoints| ==> tx.inputs[i].spends == R.Point(checkpoints[i].id, 0))
    && forall i, j :: 0 <= i < j < |checkpoints| ==> checkpoints[i].spends[0] != checkpoints[j].spends[0]
  }

  function CoinOf(a: Args, i: nat): R.Point
    requires EachInputMovesOneCoin(a.tx, a.checkpoints) && i < |a.tx.inputs|
  {
    a.checkpoints[i].spends[0]
  }

  /** At most one extension output, without sats, readable, whose groups all carry an id. */
  predicate PacketReadable(tx: Tx) {
    && (forall i, j :: 0 <= i < j < |tx.outputs| ==>
          tx.outputs[i].content.NotExtension? || tx.outputs[j].content.NotExtension?)
    && (forall i :: 0 <= i < |tx.outputs| && !tx.outputs[i].content.NotExtension? ==>
          && tx.outputs[i].amount == 0 && !tx.outputs[i].content.Unparsable?
          && (tx.outputs[i].content.Packet? ==>
                forall g :: 0 <= g < |tx.outputs[i].content.groups| ==> tx.outputs[i].content.groups[g].assetId.Some?))
  }

  /** Some group of the packet allocates to this output. */
  predicate Allocates(tx: Tx, vout: nat) {
    exists g :: 0 <= g < |Groups(tx)| && C.PaysAt(Groups(tx)[g], vout)
  }

  /** An output that holds value: not the extension, and not an empty anchor at the end. */
  predicate HoldsValue(tx: Tx, vout: nat)
    requires vout < |tx.outputs|
  {
    && tx.outputs[vout].content.NotExtension?
    && (vout + 1 == |tx.outputs| && tx.outputs[vout].script == "51024e73" && tx.outputs[vout].amount == 0 ==>
          Allocates(tx, vout))
  }

  lemma AllocatesMeans(tx: Tx, vout: nat)
    ensures Allocates(tx, vout) <==> AssetsAt(Groups(tx), vout) != []
  {
    hide Groups;
    if Allocates(tx, vout) {
      var g :| 0 <= g < |Groups(tx)| && C.PaysAt(Groups(tx)[g], vout);
      C.AssetsAtSomething(Groups(tx), vout, g);
    } else {
      C.AssetsAtNothing(Groups(tx), vout);
    }
  }

  lemma HoldsValueMeans(tx: Tx, vout: nat)
    requires vout < |tx.outputs|
    ensures HoldsValue(tx, vout) <==> IsValue(tx, vout)
  {
    AllocatesMeans(tx, vout);
    hide Allocates, Groups, AssetsAt;
  }

  lemma {:induction false} OutputsAre(tx: Tx, n: nat)
    requires n <= |tx.outputs|
    ensures forall o :: o in OutputsBefore(tx, n) <==>
              o.vout < n && IsValue(tx, o.vout) && o.script == tx.outputs[o.vout].script
              && o.sats == tx.outputs[o.vout].amount && o.assets == AssetsAt(Groups(tx), o.vout)
  {
    hide IsValue, AssetsAt, Groups;
    if n > 0 { OutputsAre(tx, n - 1); }
  }

  /** The value outputs, by place. */
  lemma ValueOutput(tx: Tx, o: R.GraphOutput)
    ensures o in Outputs(tx) <==>
            && o.vout < |tx.outputs| && HoldsValue(tx, o.vout) && o.script == tx.outputs[o.vout].script
            && o.sats == tx.outputs[o.vout].amount && o.assets == AssetsAt(Groups(tx), o.vout)
  {
    OutputsAre(tx, |tx.outputs|);
    if o.vout < |tx.outputs| { HoldsValueMeans(tx, o.vout); }
    hide OutputsBefore, HoldsValue, IsValue, AssetsAt, Groups;
  }

  lemma ValueAt(tx: Tx, vout: nat) returns (o: R.GraphOutput)
    requires vout < |tx.outputs| && HoldsValue(tx, vout)
    ensures o in Outputs(tx) && o.vout == vout && o.script == tx.outputs[vout].script
    ensures o.sats == tx.outputs[vout].amount && (o.assets == [] <==> !Allocates(tx, vout))
    ensures o.assets == AssetsAt(Groups(tx), vout)
  {
    o := R.GraphOutput(vout, tx.outputs[vout].script, tx.outputs[vout].amount, AssetsAt(Groups(tx), vout));
    ValueOutput(tx, o);
    AllocatesMeans(tx, vout);
  }

  // ------------------------------------------------------------------- header

  /** Version 3, no locktime, and every input final. */
  predicate StandardHeader(tx: Tx) {
    tx.version == 3 && tx.lockTime == 0 && forall i :: 0 <= i < |tx.inputs| ==> tx.inputs[i].sequence == 4294967295
  }

  /** At most one output is read as an extension. */
  predicate OneExtension(outputs: seq<TxOutput>) {
    forall i, j :: 0 <= i < j < |outputs| ==> outputs[i].content.NotExtension? || outputs[j].content.NotExtension?
  }

  predicate NoExtension(outputs: seq<TxOutput>) {
    forall i :: 0 <= i < |outputs| ==> outputs[i].content.NotExtension?
  }

  lemma {:induction false} ExtensionsListed(outputs: seq<TxOutput>)
    ensures |Extensions(outputs)| <= |outputs|
    ensures forall e :: e in Extensions(outputs) <==> e in outputs && !e.content.NotExtension?
  {
    if outputs != [] {
      ExtensionsListed(outputs[1..]);
      assert outputs == [outputs[0]] + outputs[1..];
    }
  }

  lemma NoneOrFirst(outputs: seq<TxOutput>)
    requires outputs != []
    ensures NoExtension(outputs) <==> outputs[0].content.NotExtension? && NoExtension(outputs[1..])
    ensures OneExtension(outputs) <==>
            OneExtension(outputs[1..]) && (outputs[0].content.NotExtension? || NoExtension(outputs[1..]))
  {
    var rest := outputs[1..];
    assert forall i :: 0 <= i < |rest| ==> rest[i] == outputs[i + 1];
    assert forall i :: 0 < i < |outputs| ==> outputs[i] == rest[i - 1];
  }

  lemma {:induction false} ExtensionsCounted(outputs: seq<TxOutput>)
    ensures Extensions(outputs) == [] <==> NoExtension(outputs)
    ensures |Extensions(outputs)| <= 1 <==> OneExtension(outputs)
  {
    if outputs != [] {
      ExtensionsCounted(outputs[1..]);
      NoneOrFirst(outputs);
      hide NoExtension, OneExtension;
    }
  }

  lemma ExtensionsAre(outputs: seq<TxOutput>)
    ensures |Extensions(outputs)| <= |outputs|
    ensures forall e :: e in Extensions(outputs) <==> e in outputs && !e.content.NotExtension?
    ensures |Extensions(outputs)| <= 1 <==>
            forall i, j :: 0 <= i < j < |outputs| ==>
              outputs[i].content.NotExtension? || outputs[j].content.NotExtension?
  {
    ExtensionsListed(outputs);
    ExtensionsCounted(outputs);
    hide Extensions;
  }

  lemma PacketReadableMeans(tx: Tx)
    ensures PacketReadable(tx) <==> OutputsDerive(tx)
  {
    var found := Extensions(tx.outputs);
    ExtensionsAre(tx.outputs);
    if |found| == 1 {
      assert found[0] in found;
      var e :| 0 <= e < |tx.outputs| && tx.outputs[e] == found[0];
      assert !tx.outputs[e].content.NotExtension?;
      assert forall i :: 0 <= i < e ==> tx.outputs[i].content.NotExtension?;
      assert forall i :: e < i < |tx.outputs| ==> tx.outputs[i].content.NotExtension?;
      assert Groups(tx) == if found[0].content.Packet? then found[0].content.groups else [];
    } else if found == [] {
      forall i | 0 <= i < |tx.outputs| ensures tx.outputs[i].content.NotExtension? {
        assert tx.outputs[i] in tx.outputs;
      }
    }
  }

  /** The groups the rules speak of are those of the one readable packet. */
  lemma GroupsAre(tx: Tx, i: nat)
    requires PacketReadable(tx) && i < |tx.outputs|
    ensures tx.outputs[i].content.Packet? ==> Groups(tx) == tx.outputs[i].content.groups
    ensures (forall j :: 0 <= j < |tx.outputs| ==> !tx.outputs[j].content.Packet?) ==> Groups(tx) == []
  {
    var found := Extensions(tx.outputs);
    ExtensionsAre(tx.outputs);
    if found != [] {
      assert found[0] in found;
      var e :| 0 <= e < |tx.outputs| && tx.outputs[e] == found[0];
      if tx.outputs[i].content.Packet? { assert i == e; }
    } else {
      assert tx.outputs[i] in tx.outputs && tx.outputs[i] !in found;
    }
  }

  lemma CoinsMeans(a: Args)
    ensures EachInputMovesOneCoin(a.tx, a.checkpoints) <==> InputsDerive(a.tx, a.checkpoints)
    ensures EachInputMovesOneCoin(a.tx, a.checkpoints) ==>
              |Inputs(a.checkpoints)| == |a.tx.inputs|
              && forall i :: 0 <= i < |a.tx.inputs| ==> Inputs(a.checkpoints)[i] == CoinOf(a, i)
  {
    var inputs := Inputs(a.checkpoints);
    if forall i :: 0 <= i < |a.checkpoints| ==> |a.checkpoints[i].spends| == 1 {
      assert forall i :: 0 <= i < |inputs| ==> inputs[i] == a.checkpoints[i].spends[0];
    }
  }

  /** The graph is readable and standard: what `GraphInvalid` names when it is not. */
  lemma GraphInvalidMeans(a: Args)
    ensures Holds(a, GraphInvalid) <==>
            EachInputMovesOneCoin(a.tx, a.checkpoints) && PacketReadable(a.tx) && StandardHeader(a.tx)
  {
    CoinsMeans(a);
    PacketReadableMeans(a.tx);
    hide OutputsDerive, PacketReadable, EachInputMovesOneCoin, InputsDerive;
  }

  // ------------------------------------------------------------- whose coins

  /** The quote's last reservation of this outpoint. */
  predicate ReservedAt(coins: seq<Reserved>, k: int, point: R.Point) {
    0 <= k < |coins| && coins[k].point == point && forall j :: k < j < |coins| ==> coins[j].point != point
  }

  lemma {:induction false} ReservedByMeans(coins: seq<Reserved>)
    ensures ReservedBy(coins).Keys == set k | 0 <= k < |coins| :: coins[k].point
    ensures forall k, p :: ReservedAt(coins, k, p) ==> p in ReservedBy(coins) && ReservedBy(coins)[p] == coins[k]
  {
    if coins != [] {
      var before := coins[..|coins| - 1];
      ReservedByMeans(before);
      forall k, p | ReservedAt(coins, k, p) ensures p in ReservedBy(coins) && ReservedBy(coins)[p] == coins[k] {
        if k < |before| {
          assert before[k] == coins[k] && forall j :: k < j < |before| ==> before[j] == coins[j];
          assert ReservedAt(before, k, p);
          assert coins[|before|].point != p;
        }
      }
      forall p ensures p in ReservedBy(coins) <==> p in set k | 0 <= k < |coins| :: coins[k].point {
        if k :| 0 <= k < |coins| && coins[k].point == p && k < |before| { assert before[k] == coins[k]; }
        if k :| 0 <= k < |before| && before[k].point == p { assert coins[k] == before[k]; }
      }
    }
  }

  lemma {:induction false} SomeReservation(coins: seq<Reserved>, p: R.Point) returns (k: int)
    requires p in ReservedBy(coins)
    ensures ReservedAt(coins, k, p)
  {
    var n := |coins| - 1;
    if coins[n].point == p { k := n; } else { k := SomeReservation(coins[..n], p); }
  }

  /** The coin is still as it was reserved: value, script, leaf and expiry, and no assets. */
  predicate AsReserved(coin: Coin, snapshot: Reserved) {
    && coin.value == snapshot.value && coin.script == snapshot.script && snapshot.hasLeaf && coin.assets == []
    && coin.expiry.Some? && coin.expiry.value.kind == snapshot.expiry.kind
    && coin.expiry.value.value == snapshot.expiry.value
  }

  /** Every named index is an input of its own, and spends a reserved coin that is still as reserved. */
  ghost predicate SpendsTheReservation(a: Args)
    requires EachInputMovesOneCoin(a.tx, a.checkpoints)
  {
    && (forall k, l :: 0 <= k < l < |a.taxiIndexes| ==> a.taxiIndexes[k] != a.taxiIndexes[l])
    && |a.taxiIndexes| == |set k | 0 <= k < |a.quote.operatorInputs| :: a.quote.operatorInputs[k].point|
    && forall k :: 0 <= k < |a.taxiIndexes| ==>
         && 0 <= a.taxiIndexes[k] < |a.tx.inputs|
         && exists r :: ReservedAt(a.quote.operatorInputs, r, CoinOf(a, a.taxiIndexes[k]))
                        && CoinOf(a, a.taxiIndexes[k]) in a.observed
                        && AsReserved(a.observed[CoinOf(a, a.taxiIndexes[k])], a.quote.operatorInputs[r])
  }

  lemma UndisturbedMeans(coin: Coin, snapshot: Reserved)
    ensures Undisturbed(coin, snapshot) <==> AsReserved(coin, snapshot)
  {
  }

  lemma TaxiInputsMeans(a: Args)
    requires EachInputMovesOneCoin(a.tx, a.checkpoints)
    ensures Holds(a, TaxiInputsDiffer) <==> SpendsTheReservation(a)
  {
    CoinsMeans(a);
    var coins, reserved := a.quote.operatorInputs, ReservedBy(a.quote.operatorInputs);
    ReservedByMeans(coins);
    assert |reserved| == |reserved.Keys|;
    forall coin, snapshot ensures Undisturbed(coin, snapshot) <==> AsReserved(coin, snapshot) {
      UndisturbedMeans(coin, snapshot);
    }
    forall p | p in reserved ensures exists r :: ReservedAt(coins, r, p) { var r := SomeReservation(coins, p); }
    hide Undisturbed, AsReserved, ReservedBy, ReservedAt, EachInputMovesOneCoin, InputsDerive, CoinOf;
    var inputs := Inputs(a.checkpoints);
    forall k | 0 <= k < |a.taxiIndexes| && 0 <= a.taxiIndexes[k] < |inputs|
      ensures (inputs[a.taxiIndexes[k]] in reserved && inputs[a.taxiIndexes[k]] in a.observed
               && Undisturbed(a.observed[inputs[a.taxiIndexes[k]]], reserved[inputs[a.taxiIndexes[k]]]))
              <==> exists r :: ReservedAt(coins, r, CoinOf(a, a.taxiIndexes[k]))
                               && CoinOf(a, a.taxiIndexes[k]) in a.observed
                               && AsReserved(a.observed[CoinOf(a, a.taxiIndexes[k])], coins[r])
    {
      var p := CoinOf(a, a.taxiIndexes[k]);
      if p in reserved && p in a.observed && Undisturbed(a.observed[p], reserved[p]) {
        var r :| ReservedAt(coins, r, p);
      }
    }
  }

  /** No other input spends a coin at the operator's script. */
  predicate NoOtherTaxiCoin(a: Args)
    requires EachInputMovesOneCoin(a.tx, a.checkpoints)
  {
    forall i :: 0 <= i < |a.tx.inputs| && i !in a.taxiIndexes && CoinOf(a, i) in a.observed ==>
      a.observed[CoinOf(a, i)].script != a.operatorScript
  }

  lemma ForeignTaxiCoinMeans(a: Args)
    requires EachInputMovesOneCoin(a.tx, a.checkpoints)
    ensures Holds(a, ForeignTaxiCoin) <==> NoOtherTaxiCoin(a)
  {
    CoinsMeans(a);
    hide EachInputMovesOneCoin, InputsDerive, CoinOf;
  }

  lemma CheckpointMeans(a: Args)
    ensures Holds(a, CheckpointMismatch) <==> forall i :: i in a.taxiIndexes ==> i in a.checkpointHolds
  {
    assert Holds(a, CheckpointMismatch) <==> CheckpointsHold(a.taxiIndexes, a.checkpointHolds);
    hide Holds;
    if CheckpointsHold(a.taxiIndexes, a.checkpointHolds) {
      forall i | i in a.taxiIndexes ensures i in a.checkpointHolds {
        var k :| 0 <= k < |a.taxiIndexes| && a.taxiIndexes[k] == i;
      }
    }
    if forall i :: i in a.taxiIndexes ==> i in a.checkpointHolds {
      forall k | 0 <= k < |a.taxiIndexes| ensures a.taxiIndexes[k] in a.checkpointHolds {
        assert a.taxiIndexes[k] in a.taxiIndexes;
      }
    }
  }

  // ------------------------------------------------------------ what is paid

  /** The covenant sits at its place: a value output with the quoted script and lockup. */
  predicate CovenantInPlace(a: Args) {
    && a.covenantVout < |a.tx.outputs| && HoldsValue(a.tx, a.covenantVout)
    && a.tx.outputs[a.covenantVout].script == a.quote.covenantScript
    && a.tx.outputs[a.covenantVout].amount == a.quote.lockupSats
  }

  lemma FirstAtIs(tx: Tx, vout: nat)
    ensures FirstAt(Outputs(tx), vout).Some? <==> vout < |tx.outputs| && HoldsValue(tx, vout)
    ensures FirstAt(Outputs(tx), vout).Some? ==>
              FirstAt(Outputs(tx), vout).value
              == R.GraphOutput(vout, tx.outputs[vout].script, tx.outputs[vout].amount, AssetsAt(Groups(tx), vout))
  {
    var found := FirstAt(Outputs(tx), vout);
    if found.Some? { ValueOutput(tx, found.value); }
    if vout < |tx.outputs| && HoldsValue(tx, vout) { var o := ValueAt(tx, vout); }
  }

  lemma CovenantOutputMeans(a: Args)
    ensures Holds(a, CovenantOutputMismatch) <==> CovenantInPlace(a)
  {
    FirstAtIs(a.tx, a.covenantVout);
    hide Outputs, AssetsAt, Groups, HoldsValue, FirstAt;
  }

  /** Group `g` allocates to this output, under this id. */
  predicate GivesAt(groups: seq<Group>, g: int, k: int, vout: nat, id: AssetId) {
    && 0 <= g < |groups| && IdOf(groups[g]) == id && 0 <= k < |groups[g].outputs| && groups[g].outputs[k].vout == vout
  }

  ghost predicate Gives(groups: seq<Group>, vout: nat, id: AssetId) { exists g, k :: GivesAt(groups, g, k, vout, id) }

  /** The covenant is given units of the quoted id alone, and of that id the declared units over all legs. */
  ghost predicate CovenantDelivers(a: Args) {
    && (forall id :: Gives(Groups(a.tx), a.covenantVout, id) <==> id == a.quote.assetId)
    && C.UnitsAtPlace(C.AllOut(Groups(a.tx)), a.quote.assetId, a.covenantVout) == a.assetUnits
  }

  lemma {:induction false} NamedAt(own: AssetId, outputs: seq<AssetOutput>, vout: nat, id: AssetId)
    ensures Names(UnitsAt(own, outputs, vout), id) <==>
            own == id && exists k :: 0 <= k < |outputs| && outputs[k].vout == vout
  {
    if outputs != [] {
      var rest := outputs[1..];
      NamedAt(own, rest, vout, id);
      assert forall k :: 0 <= k < |rest| ==> rest[k] == outputs[k + 1];
      if k :| 0 <= k < |outputs| && outputs[k].vout == vout { assert k > 0 ==> rest[k - 1] == outputs[k]; }
      var here := if outputs[0].vout == vout then [Holding(own, outputs[0].amount)] else [];
      NamesOfConcat(here, UnitsAt(own, rest, vout), id);
      assert Names(here, id) <==> outputs[0].vout == vout && own == id by {
        if here != [] { assert here[0].assetId == own; }
      }
    }
  }

  lemma NamesOfConcat(x: seq<Holding>, y: seq<Holding>, id: AssetId)
    ensures Names(x + y, id) <==> Names(x, id) || Names(y, id)
  {
    if Names(x, id) { var i :| 0 <= i < |x| && x[i].assetId == id; assert (x + y)[i].assetId == id; }
    if Names(y, id) { var i :| 0 <= i < |y| && y[i].assetId == id; assert (x + y)[|x| + i].assetId == id; }
  }

  lemma {:induction false} GivenMeans(groups: seq<Group>, vout: nat, id: AssetId)
    ensures Names(AssetsAt(groups, vout), id) <==> Gives(groups, vout, id)
  {
    if groups != [] {
      var rest := groups[1..];
      GivenMeans(rest, vout, id);
      NamedAt(IdOf(groups[0]), groups[0].outputs, vout, id);
      NamesOfConcat(UnitsAt(IdOf(groups[0]), groups[0].outputs, vout), AssetsAt(rest, vout), id);
      hide Names, UnitsAt;
      forall g, k ensures GivesAt(groups, g, k, vout, id) <==>
                          GivesAt(rest, g - 1, k, vout, id)
                          || (g == 0 && IdOf(groups[0]) == id && 0 <= k < |groups[0].outputs|
                              && groups[0].outputs[k].vout == vout) {}
      if Gives(rest, vout, id) {
        var g, k :| GivesAt(rest, g, k, vout, id);
        assert GivesAt(groups, g + 1, k, vout, id);
      }
      if k :| 0 <= k < |groups[0].outputs| && groups[0].outputs[k].vout == vout && IdOf(groups[0]) == id {
        assert GivesAt(groups, 0, k, vout, id);
      }
    }
  }

  /** Declared units are positive and cover an asset fare with something left. */
  predicate DeliveryWorthwhile(a: Args) {
    && a.assetUnits >= 1
    && (a.quote.receiverFare.Some? && a.quote.receiverFare.value.AssetFare? ==>
          a.assetUnits - a.quote.receiverFare.value.units >= 1)
  }

  lemma DeliveryMeans(a: Args)
    requires CovenantInPlace(a)
    ensures Holds(a, AssetUnitsInvalid) && Holds(a, FareExceedsDelivery) <==> DeliveryWorthwhile(a)
    ensures Holds(a, CovenantAssetMismatch) <==> CovenantDelivers(a)
  {
    FirstAtIs(a.tx, a.covenantVout);
    C.AssetsAtLegs(Groups(a.tx), a.covenantVout, a.quote.assetId);
    forall id ensures Names(AssetsAt(Groups(a.tx), a.covenantVout), id) <==> Gives(Groups(a.tx), a.covenantVout, id) {
      GivenMeans(Groups(a.tx), a.covenantVout, id);
    }
    hide Outputs, AssetsAt, Groups, HoldsValue, FirstAt, Gives, Names, UnitsOf, C.AllOut, C.UnitsAtPlace;
  }

  /** Sats of the first `n` outputs that hold value and pay this script. */
  function PaidBefore(tx: Tx, script: string, n: nat): int
    requires n <= |tx.outputs|
  {
    if n == 0 then 0
    else
      PaidBefore(tx, script, n - 1)
      + if HoldsValue(tx, n - 1) && tx.outputs[n - 1].script == script then tx.outputs[n - 1].amount else 0
  }

  lemma {:induction false} PaidIs(tx: Tx, script: string, n: nat)
    requires n <= |tx.outputs|
    ensures PaidTo(OutputsBefore(tx, n), script) == PaidBefore(tx, script, n)
  {
    if n > 0 {
      PaidIs(tx, script, n - 1);
      HoldsValueMeans(tx, n - 1);
      hide HoldsValue, IsValue, AssetsAt, Groups;
      var before := OutputsBefore(tx, n - 1);
      if IsValue(tx, n - 1) {
        var o := R.GraphOutput(n - 1, tx.outputs[n - 1].script, tx.outputs[n - 1].amount, AssetsAt(Groups(tx), n - 1));
        PaidToSnoc(before, o, script);
        assert OutputsBefore(tx, n) == before + [o];
      } else {
        assert OutputsBefore(tx, n) == before + [] == before;
      }
    }
  }

  /** Values of the reserved coins at the first `n` of the named inputs. */
  ghost function ContributedBefore(a: Args, n: nat): int
    requires EachInputMovesOneCoin(a.tx, a.checkpoints) && SpendsTheReservation(a) && n <= |a.taxiIndexes|
  {
    if n == 0 then 0 else ContributedBefore(a, n - 1) + a.observed[CoinOf(a, a.taxiIndexes[n - 1])].value
  }

  lemma {:induction false} ContributedIs(a: Args, n: nat)
    requires EachInputMovesOneCoin(a.tx, a.checkpoints) && SpendsTheReservation(a) && n <= |a.taxiIndexes|
    ensures ContributedBy(Inputs(a.checkpoints), ReservedBy(a.quote.operatorInputs), a.taxiIndexes[..n])
            == ContributedBefore(a, n)
  {
    if n > 0 {
      ContributedIs(a, n - 1);
      CoinsMeans(a);
      ReservedByMeans(a.quote.operatorInputs);
      assert a.taxiIndexes[..n][..n - 1] == a.taxiIndexes[..n - 1];
      var p := CoinOf(a, a.taxiIndexes[n - 1]);
      var r :| ReservedAt(a.quote.operatorInputs, r, p) && p in a.observed
               && AsReserved(a.observed[p], a.quote.operatorInputs[r]);
      hide EachInputMovesOneCoin, SpendsTheReservation, InputsDerive, ReservedBy;
    }
  }

  /** The operator's outputs carry no assets and give back what the Taxi put in, less the loan, plus a sats fare. */
  ghost predicate PaysTheOperator(a: Args)
    requires EachInputMovesOneCoin(a.tx, a.checkpoints) && SpendsTheReservation(a)
  {
    && a.quote.fare.SatsFare?
    && PaidBefore(a.tx, a.operatorScript, |a.tx.outputs|) + a.quote.topup
       == ContributedBefore(a, |a.taxiIndexes|) + a.quote.fare.sats
    && forall v :: 0 <= v < |a.tx.outputs| && HoldsValue(a.tx, v) && a.tx.outputs[v].script == a.operatorScript ==>
         !Allocates(a.tx, v)
  }

  lemma UnpricedMeans(a: Args)
    ensures Holds(a, UnpricedFare) <==>
            forall v :: 0 <= v < |a.tx.outputs| && HoldsValue(a.tx, v) && a.tx.outputs[v].script == a.operatorScript ==>
              !Allocates(a.tx, v)
  {
    hide HoldsValue, Allocates, Outputs, FirstAt;
    var outputs := Outputs(a.tx);
    if i :| 0 <= i < |outputs| && outputs[i].script == a.operatorScript && outputs[i].assets != [] {
      assert outputs[i] in outputs;
      ValueOutput(a.tx, outputs[i]);
      AllocatesMeans(a.tx, outputs[i].vout);
      assert Allocates(a.tx, outputs[i].vout);
    }
    if v :| 0 <= v < |a.tx.outputs| && HoldsValue(a.tx, v) && a.tx.outputs[v].script == a.operatorScript
            && Allocates(a.tx, v)
    {
      var o := ValueAt(a.tx, v);
      var i :| 0 <= i < |outputs| && outputs[i] == o;
    }
  }

  lemma OperatorPayoutMeans(a: Args)
    requires EachInputMovesOneCoin(a.tx, a.checkpoints) && SpendsTheReservation(a)
    ensures Holds(a, FareUnsupported) && Holds(a, UnpricedFare) && Holds(a, OperatorPayoutMismatch) <==>
            PaysTheOperator(a)
  {
    UnpricedMeans(a);
    PaidIs(a.tx, a.operatorScript, |a.tx.outputs|);
    ContributedIs(a, |a.taxiIndexes|);
    assert a.taxiIndexes[..|a.taxiIndexes|] == a.taxiIndexes;
    hide EachInputMovesOneCoin, SpendsTheReservation, HoldsValue, Allocates, PaidTo, PaidBefore, ContributedBefore,
      ContributedBy, Unpriced, FirstAt;
  }

  /** No value output exceeds the provider's maximum, where there is one. */
  predicate BelowMaximum(a: Args) {
    a.maxAmount.Some? && a.maxAmount.value >= 0 ==>
      forall v :: 0 <= v < |a.tx.outputs| && HoldsValue(a.tx, v) ==> a.tx.outputs[v].amount <= a.maxAmount.value
  }

  /** A value output holds at least the dust amount, or the provider's minimum where it carries assets. */
  predicate AboveFloors(a: Args) {
    forall v :: 0 <= v < |a.tx.outputs| && HoldsValue(a.tx, v) ==>
      if Allocates(a.tx, v) then a.tx.outputs[v].amount >= a.vtxoMin else a.tx.outputs[v].amount >= a.dust
  }

  lemma LimitsMean(a: Args)
    ensures Holds(a, OutputLimitExceeded) <==> BelowMaximum(a)
    ensures Holds(a, OutputBelowFloor) <==> AboveFloors(a)
  {
    hide HoldsValue, Allocates, Outputs, FirstAt;
    var outputs := Outputs(a.tx);
    forall i | 0 <= i < |outputs|
      ensures outputs[i].vout < |a.tx.outputs| && HoldsValue(a.tx, outputs[i].vout)
              && outputs[i].sats == a.tx.outputs[outputs[i].vout].amount
              && (outputs[i].assets == [] <==> !Allocates(a.tx, outputs[i].vout))
    {
      assert outputs[i] in outputs;
      ValueOutput(a.tx, outputs[i]);
      AllocatesMeans(a.tx, outputs[i].vout);
    }
    forall v | 0 <= v < |a.tx.outputs| && HoldsValue(a.tx, v)
      ensures exists i :: 0 <= i < |outputs| && outputs[i].vout == v
    {
      var o := ValueAt(a.tx, v);
      var i :| 0 <= i < |outputs| && outputs[i] == o;
    }
  }

  // ----------------------------------------------------------- what is moved

  /** No group declares units at a Taxi input. */
  predicate TakesNothingFromTaxi(a: Args) {
    forall g, k :: 0 <= g < |Groups(a.tx)| && 0 <= k < |Groups(a.tx)[g].inputs| ==>
      Groups(a.tx)[g].inputs[k].vin !in a.taxiIndexes
  }

  lemma TaxiAssetsMeans(a: Args)
    ensures Holds(a, TaxiInputAssets) <==> TakesNothingFromTaxi(a)
  {
    hide Groups;
  }

  /** Every input is observed, spendable, and lasts at least as long as the quote's floor, in the floor's own kind. */
  predicate InputsOutliveFloor(a: Args)
    requires EachInputMovesOneCoin(a.tx, a.checkpoints)
  {
    forall i :: 0 <= i < |a.tx.inputs| ==>
      && CoinOf(a, i) in a.observed
      && var coin := a.observed[CoinOf(a, i)];
      && coin.spendable && coin.expiry.Some?
      && (match a.quote.expiryFloor.kind
          case Height => coin.expiry.value.kind == Height
          case Time => coin.expiry.value.kind == Time)
      && coin.expiry.value.value - a.quote.expiryFloor.value >= 0
  }

  lemma ExpiryMeans(a: Args)
    requires EachInputMovesOneCoin(a.tx, a.checkpoints)
    ensures Holds(a, InputUnspendable) && Holds(a, InputExpiryUnknown) && Holds(a, InputExpiryFloor) <==>
            InputsOutliveFloor(a)
  {
    CoinsMeans(a);
    hide EachInputMovesOneCoin, InputsDerive, CoinOf, Outputs, FirstAt, ReservedBy;
  }

  /** Sats of the first `n` inputs, as observed. */
  function ObservedBefore(a: Args, n: nat): int
    requires EachInputMovesOneCoin(a.tx, a.checkpoints) && n <= |a.tx.inputs|
  {
    if n == 0 then 0
    else ObservedBefore(a, n - 1) + if CoinOf(a, n - 1) in a.observed then a.observed[CoinOf(a, n - 1)].value else 0
  }

  function SentBefore(tx: Tx, n: nat): int
    requires n <= |tx.outputs|
  {
    if n == 0 then 0 else SentBefore(tx, n - 1) + tx.outputs[n - 1].amount
  }

  lemma {:induction false} ObservedIs(a: Args, n: nat)
    requires EachInputMovesOneCoin(a.tx, a.checkpoints) && n <= |a.tx.inputs|
    ensures n <= |Inputs(a.checkpoints)| && InputSats(Inputs(a.checkpoints)[..n], a.observed) == ObservedBefore(a, n)
  {
    CoinsMeans(a);
    if n > 0 {
      ObservedIs(a, n - 1);
      assert Inputs(a.checkpoints)[..n][..n - 1] == Inputs(a.checkpoints)[..n - 1];
    }
  }

  lemma {:induction false} SentIs(tx: Tx, n: nat)
    requires n <= |tx.outputs|
    ensures OutputSats(tx.outputs[..n]) == SentBefore(tx, n)
  {
    if n > 0 {
      SentIs(tx, n - 1);
      assert tx.outputs[..n][..n - 1] == tx.outputs[..n - 1];
    }
  }

  lemma SatsMeans(a: Args)
    requires EachInputMovesOneCoin(a.tx, a.checkpoints)
    ensures Holds(a, SatsNotConserved) <==> ObservedBefore(a, |a.tx.inputs|) == SentBefore(a.tx, |a.tx.outputs|)
  {
    ObservedIs(a, |a.tx.inputs|);
    SentIs(a.tx, |a.tx.outputs|);
    CoinsMeans(a);
    assert Inputs(a.checkpoints)[..|a.tx.inputs|] == Inputs(a.checkpoints);
    assert a.tx.outputs[..|a.tx.outputs|] == a.tx.outputs;
  }

  /** The packet declares what the inputs hold, balances each group, and allocates to value outputs. */
  ghost predicate Balanced(a: Args) {
    AssetsConserved(Groups(a.tx), Held(Inputs(a.checkpoints), a.observed), Vouts(Outputs(a.tx)))
  }

  // ------------------------------------------------------ what the packet moves

  /** `id` is `held` in lower case, letter by letter. */
  predicate LowerOf(held: AssetId, id: AssetId) {
    |held| == |id| && forall k :: 0 <= k < |id| ==> id[k] == if 65 <= held[k] <= 90 then held[k] + 32 else held[k]
  }

  /** Units of one id among the first `n` holdings of a coin, whatever the case of their ids. */
  function UnitsBefore(assets: seq<Holding>, id: AssetId, n: nat): int
    requires n <= |assets|
  {
    if n == 0 then 0
    else UnitsBefore(assets, id, n - 1) + if LowerOf(assets[n - 1].assetId, id) then assets[n - 1].units else 0
  }

  predicate HoldsSome(assets: seq<Holding>, id: AssetId) {
    exists h :: 0 <= h < |assets| && LowerOf(assets[h].assetId, id)
  }

  lemma LowerOfMeans(held: AssetId, id: AssetId)
    ensures LowerOf(held, id) <==> LowerCase(held) == id
  {
    if LowerOf(held, id) {
      forall k | 0 <= k < |id| ensures LowerCase(held)[k] == id[k] { assert LowerCase(held)[k] == Lower(held[k]); }
    }
  }

  lemma {:induction false} UnitsBeforeIs(assets: seq<Holding>, id: AssetId, n: nat)
    requires n <= |assets|
    ensures UnitsOf(LowerIds(assets)[..n], id) == UnitsBefore(assets, id, n)
  {
    if n > 0 {
      UnitsBeforeIs(assets, id, n - 1);
      LowerOfMeans(assets[n - 1].assetId, id);
      var last := LowerIds(assets)[n - 1];
      assert LowerIds(assets)[..n] == LowerIds(assets)[..n - 1] + [last];
      UnitsOfConcat(LowerIds(assets)[..n - 1], [last], id);
      assert [last][1..] == [];
    }
  }

  lemma HeldMeans(assets: seq<Holding>, id: AssetId)
    ensures UnitsOf(LowerIds(assets), id) == UnitsBefore(assets, id, |assets|)
    ensures Names(LowerIds(assets), id) <==> HoldsSome(assets, id)
  {
    UnitsBeforeIs(assets, id, |assets|);
    assert LowerIds(assets)[..|assets|] == LowerIds(assets);
    forall h | 0 <= h < |assets| ensures LowerOf(assets[h].assetId, id) <==> LowerIds(assets)[h].assetId == id {
      LowerOfMeans(assets[h].assetId, id);
    }
  }

  function GroupIn(group: Group, n: nat): int
    requires n <= |group.inputs|
  {
    if n == 0 then 0 else GroupIn(group, n - 1) + group.inputs[n - 1].amount
  }

  function GroupOut(group: Group, n: nat): int
    requires n <= |group.outputs|
  {
    if n == 0 then 0 else GroupOut(group, n - 1) + group.outputs[n - 1].amount
  }

  lemma {:induction false} GroupInIs(group: Group, n: nat)
    requires n <= |group.inputs|
    ensures InputUnits(group.inputs[..n]) == GroupIn(group, n)
  {
    if n > 0 {
      GroupInIs(group, n - 1);
      assert group.inputs[..n][..n - 1] == group.inputs[..n - 1];
    }
  }

  lemma {:induction false} GroupOutIs(group: Group, n: nat)
    requires n <= |group.outputs|
    ensures OutputUnits(group.outputs[..n]) == GroupOut(group, n)
  {
    if n > 0 {
      GroupOutIs(group, n - 1);
      assert group.outputs[..n][..n - 1] == group.outputs[..n - 1];
    }
  }

  /** A group of its own id, from distinct local inputs with something in them, to value outputs, unit for unit. */
  predicate GroupSound(tx: Tx, group: Group) {
    && group.assetId.Some?
    && (forall k :: 0 <= k < |group.inputs| ==>
          group.inputs[k].local && group.inputs[k].vin < |tx.inputs| && group.inputs[k].amount >= 1)
    && (forall k, l :: 0 <= k < l < |group.inputs| ==> group.inputs[k].vin != group.inputs[l].vin)
    && (forall k :: 0 <= k < |group.outputs| ==>
          group.outputs[k].vout < |tx.outputs| && HoldsValue(tx, group.outputs[k].vout))
    && GroupIn(group, |group.inputs|) == GroupOut(group, |group.outputs|)
  }

  function AssetsSeen(a: Args, i: nat): seq<Holding>
    requires EachInputMovesOneCoin(a.tx, a.checkpoints) && i < |a.tx.inputs|
  {
    if CoinOf(a, i) in a.observed then a.observed[CoinOf(a, i)].assets else []
  }

  /** Group `g` takes `amount` of its id at input `vin`. */
  predicate TakesAt(groups: seq<Group>, g: int, k: int, vin: nat, id: AssetId) {
    && 0 <= g < |groups| && groups[g].assetId == Some(id) && 0 <= k < |groups[g].inputs|
    && groups[g].inputs[k].vin == vin
  }

  ghost predicate Taken(groups: seq<Group>, vin: nat, id: AssetId) { exists g, k :: TakesAt(groups, g, k, vin, id) }

  /** Whatever a group takes at an input is all that the coin there holds of it. */
  ghost predicate TakesWhole(a: Args, groups: seq<Group>)
    requires EachInputMovesOneCoin(a.tx, a.checkpoints)
  {
    forall g, k, vin: nat, id :: TakesAt(groups, g, k, vin, id) && vin < |a.tx.inputs| ==>
      && HoldsSome(AssetsSeen(a, vin), id)
      && groups[g].inputs[k].amount == UnitsBefore(AssetsSeen(a, vin), id, |AssetsSeen(a, vin)|)
  }

  /** Whatever a coin holds is taken by some group. */
  ghost predicate LeavesNone(a: Args, groups: seq<Group>)
    requires EachInputMovesOneCoin(a.tx, a.checkpoints)
  {
    forall vin: nat, id :: vin < |a.tx.inputs| && HoldsSome(AssetsSeen(a, vin), id) ==> Taken(groups, vin, id)
  }

  predicate IdsDiffer(groups: seq<Group>) {
    forall g, h :: 0 <= g < h < |groups| ==> groups[g].assetId != groups[h].assetId
  }

  /** Groups are sound, no id comes twice, and each input's coins are taken whole, id by id. */
  ghost predicate PacketSound(a: Args)
    requires EachInputMovesOneCoin(a.tx, a.checkpoints)
  {
    var groups := Groups(a.tx);
    && IdsDiffer(groups) && (forall g :: 0 <= g < |groups| ==> GroupSound(a.tx, groups[g]))
    && TakesWhole(a, groups) && LeavesNone(a, groups)
  }

  lemma GroupSoundMeans(tx: Tx, group: Group)
    ensures GroupSound(tx, group) <==> GroupConserved(group, |tx.inputs|, Vouts(Outputs(tx)))
  {
    GroupInIs(group, |group.inputs|);
    GroupOutIs(group, |group.outputs|);
    assert group.inputs[..|group.inputs|] == group.inputs && group.outputs[..|group.outputs|] == group.outputs;
    hide InputUnits, OutputUnits, GroupIn, GroupOut, HoldsValue, Outputs;
    forall k | 0 <= k < |group.outputs|
      ensures group.outputs[k].vout in Vouts(Outputs(tx)) <==>
              group.outputs[k].vout < |tx.outputs| && HoldsValue(tx, group.outputs[k].vout)
    {
      ValuePlace(tx, group.outputs[k].vout);
    }
  }

  lemma ValuePlace(tx: Tx, vout: nat)
    ensures vout in Vouts(Outputs(tx)) <==> vout < |tx.outputs| && HoldsValue(tx, vout)
  {
    if vout in Vouts(Outputs(tx)) {
      var o :| o in Outputs(tx) && o.vout == vout;
      ValueOutput(tx, o);
    }
    if vout < |tx.outputs| && HoldsValue(tx, vout) { var o := ValueAt(tx, vout); }
  }

  lemma {:induction false} GroupDeclaresAt(id: AssetId, inputs: seq<AssetInput>, c: Claimed)
    requires forall k, l :: 0 <= k < l < |inputs| ==> inputs[k].vin != inputs[l].vin
    ensures c in GroupDeclares(id, inputs) <==> c.id == id && exists k :: 0 <= k < |inputs| && inputs[k].vin == c.vin
    ensures forall k :: 0 <= k < |inputs| && inputs[k].vin == c.vin && c.id == id ==>
              c in GroupDeclares(id, inputs) && GroupDeclares(id, inputs)[c] == inputs[k].amount
  {
    if inputs != [] {
      var n := |inputs| - 1;
      GroupDeclaresAt(id, inputs[..n], c);
      assert forall k :: 0 <= k < n ==> inputs[..n][k] == inputs[k];
    }
  }

  lemma TakesAtSnoc(before: seq<Group>, last: Group, c: Claimed, g: int, k: int)
    requires last.assetId.Some?
    ensures TakesAt(before + [last], g, k, c.vin, c.id) <==>
            TakesAt(before, g, k, c.vin, c.id)
            || (g == |before| && c.id == IdOf(last) && 0 <= k < |last.inputs| && last.inputs[k].vin == c.vin)
  {
  }

  /** What the packet declares at an input, where ids are not repeated. */
  lemma {:induction false} DeclaredAt(groups: seq<Group>, c: Claimed)
    requires IdsDiffer(groups) && forall g :: 0 <= g < |groups| ==> groups[g].assetId.Some?
    requires forall g, k, l :: 0 <= g < |groups| && 0 <= k < l < |groups[g].inputs| ==>
               groups[g].inputs[k].vin != groups[g].inputs[l].vin
    ensures c in Declared(groups) <==> Taken(groups, c.vin, c.id)
    ensures forall g, k :: TakesAt(groups, g, k, c.vin, c.id) ==>
              c in Declared(groups) && Declared(groups)[c] == groups[g].inputs[k].amount
  {
    if groups != [] {
      var n := |groups| - 1;
      var before, last := groups[..n], groups[n];
      assert groups == before + [last];
      DeclaredAt(before, c);
      GroupDeclaresAt(IdOf(last), last.inputs, c);
      forall g, k
        ensures TakesAt(groups, g, k, c.vin, c.id) <==>
                TakesAt(before, g, k, c.vin, c.id)
                || (g == n && c.id == IdOf(last) && 0 <= k < |last.inputs| && last.inputs[k].vin == c.vin)
      {
        TakesAtSnoc(before, last, c, g, k);
      }
      hide GroupDeclares, IdsDiffer;
      if k :| 0 <= k < |last.inputs| && last.inputs[k].vin == c.vin && c.id == IdOf(last) {
        assert TakesAt(groups, n, k, c.vin, c.id);
      }
    }
  }

  lemma SeenAt(a: Args, i: nat, id: AssetId)
    requires EachInputMovesOneCoin(a.tx, a.checkpoints) && i < |a.tx.inputs|
    ensures i < |Held(Inputs(a.checkpoints), a.observed)|
    ensures var held := Held(Inputs(a.checkpoints), a.observed)[i];
            && (Names(held, id) <==> HoldsSome(AssetsSeen(a, i), id))
            && UnitsOf(held, id) == UnitsBefore(AssetsSeen(a, i), id, |AssetsSeen(a, i)|)
  {
    CoinsMeans(a);
    HeldMeans(AssetsSeen(a, i), id);
  }

  /** The packet's own rule, on the groups and the coins themselves. */
  lemma PacketMeans(a: Args)
    requires EachInputMovesOneCoin(a.tx, a.checkpoints)
    ensures Balanced(a) <==> PacketSound(a)
  {
    var groups, held := Groups(a.tx), Held(Inputs(a.checkpoints), a.observed);
    CoinsMeans(a);
    hide EachInputMovesOneCoin, InputsDerive, Groups, AssetsSeen, CoinOf, Outputs, Vouts, Inputs, Held, GroupConserved;
    assert |held| == |a.tx.inputs|;
    forall g | 0 <= g < |groups|
      ensures GroupSound(a.tx, groups[g]) <==> GroupConserved(groups[g], |held|, Vouts(Outputs(a.tx)))
    {
      GroupSoundMeans(a.tx, groups[g]);
    }
    if IdsDiffer(groups) && forall g :: 0 <= g < |groups| ==> GroupSound(a.tx, groups[g]) {
      DeclaresMeans(a, groups, held);
    }
    hide GroupSound, Declared, TakesWhole, LeavesNone, DeclaresHoldings;
  }

  lemma ClaimMeans(a: Args, groups: seq<Group>, held: seq<seq<Holding>>, c: Claimed)
    requires EachInputMovesOneCoin(a.tx, a.checkpoints)
    requires held == Held(Inputs(a.checkpoints), a.observed) && |held| == |a.tx.inputs|
    requires IdsDiffer(groups) && forall g :: 0 <= g < |groups| ==> GroupSound(a.tx, groups[g])
    ensures c in Declared(groups) <==> Taken(groups, c.vin, c.id)
    ensures forall g, k :: TakesAt(groups, g, k, c.vin, c.id) ==>
              c.vin < |held| && c in Declared(groups) && Declared(groups)[c] == groups[g].inputs[k].amount
    ensures c.vin < |held| ==>
              && (Names(held[c.vin], c.id) <==> HoldsSome(AssetsSeen(a, c.vin), c.id))
              && UnitsOf(held[c.vin], c.id)
                 == UnitsBefore(AssetsSeen(a, c.vin), c.id, |AssetsSeen(a, c.vin)|)
  {
    DeclaredAt(groups, c);
    if c.vin < |held| { SeenAt(a, c.vin, c.id); }
  }

  lemma DeclaresMeans(a: Args, groups: seq<Group>, held: seq<seq<Holding>>)
    requires EachInputMovesOneCoin(a.tx, a.checkpoints)
    requires held == Held(Inputs(a.checkpoints), a.observed) && |held| == |a.tx.inputs|
    requires IdsDiffer(groups) && forall g :: 0 <= g < |groups| ==> GroupSound(a.tx, groups[g])
    ensures DeclaresHoldings(Declared(groups), held) <==> TakesWhole(a, groups) && LeavesNone(a, groups)
  {
    hide Declared, Names, UnitsOf, HoldsSome, UnitsBefore, AssetsSeen, GroupSound, Held, Inputs, TakesAt, IdsDiffer,
      EachInputMovesOneCoin;
    if DeclaresHoldings(Declared(groups), held) { DeclaredIsTaken(a, groups, held); }
    if TakesWhole(a, groups) && LeavesNone(a, groups) { TakenIsDeclared(a, groups, held); }
  }

  lemma DeclaredIsTaken(a: Args, groups: seq<Group>, held: seq<seq<Holding>>)
    requires EachInputMovesOneCoin(a.tx, a.checkpoints)
    requires held == Held(Inputs(a.checkpoints), a.observed) && |held| == |a.tx.inputs|
    requires IdsDiffer(groups) && forall g :: 0 <= g < |groups| ==> GroupSound(a.tx, groups[g])
    requires DeclaresHoldings(Declared(groups), held)
    ensures TakesWhole(a, groups) && LeavesNone(a, groups)
  {
    hide Declared, Names, UnitsOf, HoldsSome, UnitsBefore, AssetsSeen, GroupSound, Held, Inputs, IdsDiffer,
      EachInputMovesOneCoin;
    forall g, k, vin: nat, id | TakesAt(groups, g, k, vin, id) && vin < |held|
      ensures HoldsSome(AssetsSeen(a, vin), id)
      ensures groups[g].inputs[k].amount == UnitsBefore(AssetsSeen(a, vin), id, |AssetsSeen(a, vin)|)
    {
      ClaimMeans(a, groups, held, Claimed(vin, id));
    }
    forall vin: nat, id | vin < |held| && HoldsSome(AssetsSeen(a, vin), id) ensures Taken(groups, vin, id) {
      ClaimMeans(a, groups, held, Claimed(vin, id));
    }
  }

  lemma TakenIsDeclared(a: Args, groups: seq<Group>, held: seq<seq<Holding>>)
    requires EachInputMovesOneCoin(a.tx, a.checkpoints)
    requires held == Held(Inputs(a.checkpoints), a.observed) && |held| == |a.tx.inputs|
    requires IdsDiffer(groups) && forall g :: 0 <= g < |groups| ==> GroupSound(a.tx, groups[g])
    requires TakesWhole(a, groups) && LeavesNone(a, groups)
    ensures DeclaresHoldings(Declared(groups), held)
  {
    hide Declared, Names, UnitsOf, HoldsSome, UnitsBefore, AssetsSeen, GroupSound, Held, Inputs, TakesAt, IdsDiffer,
      EachInputMovesOneCoin;
    forall c: Claimed
      ensures c in Declared(groups) <==> c.vin < |held| && Names(held[c.vin], c.id)
      ensures c in Declared(groups) && c.vin < |held| ==> Declared(groups)[c] == UnitsOf(held[c.vin], c.id)
    {
      ClaimMeans(a, groups, held, c);
      if c in Declared(groups) { var g, k :| TakesAt(groups, g, k, c.vin, c.id); }
    }
  }

  // ------------------------------------------------------------------ theorem

  /** Every rule, on the graph's and the quote's own figures. */
  ghost predicate Sound(a: Args) {
    && EachInputMovesOneCoin(a.tx, a.checkpoints) && PacketReadable(a.tx) && StandardHeader(a.tx)
    && SpendsTheReservation(a) && NoOtherTaxiCoin(a) && (forall i :: i in a.taxiIndexes ==> i in a.checkpointHolds)
    && CovenantInPlace(a) && DeliveryWorthwhile(a) && CovenantDelivers(a)
    && PaysTheOperator(a) && BelowMaximum(a) && AboveFloors(a)
    && TakesNothingFromTaxi(a) && PacketSound(a) && InputsOutliveFloor(a)
    && ObservedBefore(a, |a.tx.inputs|) == SentBefore(a.tx, |a.tx.outputs|)
    && a.signaturesHold
  }

  /** The rules, one by one. */
  ghost predicate EveryRule(a: Args) {
    && Holds(a, GraphInvalid) && Holds(a, TaxiInputsDiffer) && Holds(a, ForeignTaxiCoin) && Holds(a, CheckpointMismatch)
    && Holds(a, CovenantOutputMismatch) && Holds(a, AssetUnitsInvalid) && Holds(a, FareExceedsDelivery)
    && Holds(a, CovenantAssetMismatch) && Holds(a, FareUnsupported) && Holds(a, UnpricedFare)
    && Holds(a, OperatorPayoutMismatch) && Holds(a, OutputLimitExceeded) && Holds(a, OutputBelowFloor)
    && Holds(a, TaxiInputAssets) && Holds(a, AssetNotConserved) && Holds(a, InputUnspendable)
    && Holds(a, InputExpiryUnknown) && Holds(a, InputExpiryFloor) && Holds(a, SatsNotConserved)
    && Holds(a, ForeignInputInvalid)
  }

  lemma AcceptableIsEveryRule(a: Args)
    ensures Acceptable(a) <==> EveryRule(a)
  {
    hide Holds;
    if EveryRule(a) {
      forall code: Code ensures Holds(a, code) { EveryCode(code); }
    }
  }

  lemma PlainRulesMean(a: Args)
    ensures Holds(a, ForeignInputInvalid) <==> a.signaturesHold
    ensures Holds(a, AssetNotConserved) <==> Balanced(a)
  {
    hide Outputs, FirstAt, Groups, AssetsConserved, Held, Vouts;
  }

  /** The validator accepts exactly the sound graphs. */
  lemma AcceptedExactlyWhen(a: Args)
    ensures Acceptable(a) <==> Sound(a)
  {
    hide Holds, Acceptable, Balanced;
    AcceptableIsEveryRule(a);
    PlainRulesMean(a);
    GraphInvalidMeans(a);
    CheckpointMeans(a);
    LimitsMean(a);
    TaxiAssetsMeans(a);
    CovenantOutputMeans(a);
    hide PacketReadable, StandardHeader, BelowMaximum, AboveFloors, TakesNothingFromTaxi, CovenantInPlace;
    if EachInputMovesOneCoin(a.tx, a.checkpoints) {
      TaxiInputsMeans(a);
      ForeignTaxiCoinMeans(a);
      ExpiryMeans(a);
      SatsMeans(a);
      PacketMeans(a);
      if CovenantInPlace(a) { DeliveryMeans(a); }
      if SpendsTheReservation(a) { OperatorPayoutMeans(a); }
    }
    hide EachInputMovesOneCoin, SpendsTheReservation, NoOtherTaxiCoin, DeliveryWorthwhile, CovenantDelivers,
      PaysTheOperator, InputsOutliveFloor, ObservedBefore, SentBefore, PacketSound;
  }
}
