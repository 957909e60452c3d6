// What the covenant spends build and what the watcher lets through, on the transfer's own parameters:
// every output, amount and unit of a purchase, a recycle, a refund and a recovery, and what else may be there.
module SpendMeans {
  import opened Prelude
  import opened Assets
  import opened SpendPacket
  import opened CovenantSpend
  import opened SpendWatcher
  import Canonical
  import F = FillGraph
  import C = FillConservation
  import L = LayoutMeans

  // ------------------------------------------------------------------ packets

  predicate Holds(held: seq<Holding>, id: AssetId) { exists k :: 0 <= k < |held| && held[k].assetId == id }

  ghost predicate HeldSomewhere(sources: seq<seq<Holding>>, id: AssetId) {
    exists v :: 0 <= v < |sources| && Holds(sources[v], id)
  }

  function HeldEverywhere(sources: seq<seq<Holding>>, id: AssetId): int {
    Sum(sources, (held: seq<Holding>) => UnitsAmong(held, id))
  }

  /** Input by input, in order, all units of the asset at each input that holds it. */
  ghost predicate TakesAll(inputs: seq<F.AssetInput>, sources: seq<seq<Holding>>, id: AssetId) {
    && (forall i, j :: 0 <= i < j < |inputs| ==> inputs[i].vin < inputs[j].vin)
    && (forall i :: 0 <= i < |inputs| ==> TakesAt(inputs[i], sources, id))
    && forall v :: 0 <= v < |sources| && Holds(sources[v], id) ==> Reaches(inputs, v)
  }

  predicate Reaches(inputs: seq<F.AssetInput>, vin: nat) { exists i :: 0 <= i < |inputs| && inputs[i].vin == vin }

  predicate TakesAt(input: F.AssetInput, sources: seq<seq<Holding>>, id: AssetId) {
    && input.vin < |sources| && Holds(sources[input.vin], id) && input.local
    && input.amount == UnitsAmong(sources[input.vin], id)
  }

  /** The asset goes to the destination, but for a fare in that asset, which comes first. */
  predicate GivesAll(
    outputs: seq<F.AssetOutput>, sources: seq<seq<Holding>>, id: AssetId, destination: nat, fare: Option<AssetFare>)
  {
    if fare.Some? && fare.value.id == id then
      && |outputs| == 2 && outputs[0] == F.AssetOutput(fare.value.vout, fare.value.units)
      && outputs[1].vout == destination && outputs[0].amount + outputs[1].amount == HeldEverywhere(sources, id)
    else
      |outputs| == 1 && outputs[0].vout == destination && outputs[0].amount == HeldEverywhere(sources, id)
  }

  ghost predicate GroupMoves(
    group: F.Group, sources: seq<seq<Holding>>, destination: nat, fare: Option<AssetFare>)
  {
    && group.assetId.Some? && HeldSomewhere(sources, group.assetId.value)
    && TakesAll(group.inputs, sources, group.assetId.value)
    && GivesAll(group.outputs, sources, group.assetId.value, destination, fare)
  }

  /** One group for every asset held, in order, that moves all of it. */
  ghost predicate MovesEverything(
    groups: seq<F.Group>, sources: seq<seq<Holding>>, destination: nat, fare: Option<AssetFare>)
  {
    && (forall i :: 0 <= i < |groups| ==> GroupMoves(groups[i], sources, destination, fare))
    && (forall i, j :: 0 <= i < j < |groups| ==>
          Canonical.Before(groups[i].assetId.value, groups[j].assetId.value))
    && forall id :: HeldSomewhere(sources, id) ==> HasGroup(groups, id)
  }

  predicate HasGroup(groups: seq<F.Group>, id: AssetId) {
    exists i :: 0 <= i < |groups| && groups[i].assetId == Some(id)
  }

  ghost predicate AllUnique(sources: seq<seq<Holding>>) {
    forall v :: 0 <= v < |sources| ==> UniqueNames(sources[v])
  }

  lemma {:induction false} HeldIs(sources: seq<seq<Holding>>, id: AssetId)
    ensures HeldEverywhere(sources, id) == C.UnitsIn(sources, id)
  {
    if sources != [] {
      UnitsAmongIs(sources[0], id);
      HeldIs(sources[1..], id);
    }
  }

  lemma HoldsIs(held: seq<Holding>, id: AssetId)
    ensures Holds(held, id) <==> Names(held, id)
  {
  }

  lemma SourcesHold(sources: seq<seq<Holding>>, id: AssetId)
    ensures HeldSomewhere(sources, id) <==> Names(Flat(sources), id)
    ensures HeldEverywhere(sources, id) == UnitsOf(Flat(sources), id)
  {
    hide Flat, UnitsOf, HeldEverywhere, C.UnitsIn;
    FlatUnits(sources, id);
    HeldIs(sources, id);
    forall v | 0 <= v < |sources| { HoldsIs(sources[v], id); }
    hide Holds, Names;
  }

  lemma TakesAtStill(input: F.AssetInput, sources: seq<seq<Holding>>, n: nat, id: AssetId)
    requires n <= |sources| && TakesAt(input, sources[..n], id)
    ensures TakesAt(input, sources, id) && input.vin < n
  {
    hide UnitsAmong, Holds;
  }

  lemma ReachesStill(before: seq<F.AssetInput>, more: seq<F.AssetInput>, vin: nat)
    requires Reaches(before, vin) || Reaches(more, vin)
    ensures Reaches(before + more, vin)
  {
    if Reaches(before, vin) {
      var i :| 0 <= i < |before| && before[i].vin == vin;
      assert (before + more)[i] == before[i];
    } else {
      var i :| 0 <= i < |more| && more[i].vin == vin;
      assert (before + more)[|before| + i] == more[i];
    }
  }

  lemma OneMoreSource(before: seq<F.AssetInput>, sources: seq<seq<Holding>>, id: AssetId)
    requires sources != [] && TakesAll(before, sources[..|sources| - 1], id)
    ensures var vin := |sources| - 1;
            TakesAll(if Holds(sources[vin], id)
                     then before + [F.AssetInput(vin, UnitsAmong(sources[vin], id), true)] else before, sources, id)
  {
    var vin := |sources| - 1;
    var last := F.AssetInput(vin, UnitsAmong(sources[vin], id), true);
    var more := if Holds(sources[vin], id) then [last] else [];
    assert more != [] ==> TakesAt(last, sources, id) && Reaches(more, vin) by {
      assert more != [] ==> more[0].vin == vin;
    }
    hide UnitsAmong, Holds, TakesAt, Reaches;
    forall i | 0 <= i < |before| ensures before[i].vin < vin && TakesAt(before[i], sources, id) {
      TakesAtStill(before[i], sources, vin, id);
    }
    forall v | 0 <= v < |sources| && Holds(sources[v], id) ensures Reaches(before + more, v) {
      if v < vin { assert sources[..vin][v] == sources[v]; }
      ReachesStill(before, more, v);
    }
    assert before + [] == before;
  }

  lemma InputsNext(sources: seq<seq<Holding>>, id: AssetId)
    requires sources != [] && AllUnique(sources)
    ensures var vin := |sources| - 1;
            var before := InputsFor(sources[..vin], id);
            InputsFor(sources, id)
            == if Holds(sources[vin], id) then before + [F.AssetInput(vin, UnitsAmong(sources[vin], id), true)]
               else before
  {
    hide UnitsAmong, FirstUnits, UnitsOf, UniqueNames, Holds, Names;
    var vin := |sources| - 1;
    HoldsIs(sources[vin], id);
    FirstIsOnly(sources[vin], id);
    UnitsAmongIs(sources[vin], id);
  }

  lemma {:induction false} InputsTakeAll(sources: seq<seq<Holding>>, id: AssetId)
    requires AllUnique(sources)
    ensures TakesAll(InputsFor(sources, id), sources, id)
  {
    if sources == [] {
      assert InputsFor(sources, id) == [];
    } else {
      hide UnitsAmong, UniqueNames, Holds, TakesAll, InputsFor;
      InputsTakeAll(sources[..|sources| - 1], id);
      OneMoreSource(InputsFor(sources[..|sources| - 1], id), sources, id);
      InputsNext(sources, id);
    }
  }

  predicate Increasing(places: seq<nat>) { forall i, j :: 0 <= i < j < |places| ==> places[i] < places[j] }

  lemma {:induction false} IncreasingOnce(a: seq<nat>, b: seq<nat>)
    requires Increasing(a) && Increasing(b) && forall k :: k in a <==> k in b
    ensures a == b
  {
    assert |a| > 0 ==> a[0] in a;
    assert |b| > 0 ==> b[0] in b;
    if a != [] {
      forall k | k in a[1..] ensures k in b[1..] { LaterPlace(a, b, k); }
      forall k | k in b[1..] ensures k in a[1..] { LaterPlace(b, a, k); }
      IncreasingOnce(a[1..], b[1..]);
      assert a == [a[0]] + a[1..] && b == [b[0]] + b[1..];
    }
  }

  lemma LaterPlace(a: seq<nat>, b: seq<nat>, k: nat)
    requires a != [] && b != [] && a[0] == b[0] && Increasing(a) && k in a[1..] && k in b
    ensures k in b[1..]
  {
    var i :| 0 <= i < |a[1..]| && a[1..][i] == k;
    assert a[i + 1] == k;
    assert b == [b[0]] + b[1..];
  }

  function Places(inputs: seq<F.AssetInput>): (r: seq<nat>)
    ensures |r| == |inputs| && forall i :: 0 <= i < |r| ==> r[i] == inputs[i].vin
  {
    seq(|inputs|, i requires 0 <= i < |inputs| => inputs[i].vin)
  }

  lemma PlacesAre(inputs: seq<F.AssetInput>, sources: seq<seq<Holding>>, id: AssetId)
    requires TakesAll(inputs, sources, id)
    ensures Increasing(Places(inputs))
    ensures forall v: nat :: v in Places(inputs) <==> v < |sources| && Holds(sources[v], id)
  {
    hide Holds;
    forall v: nat | v in Places(inputs) ensures v < |sources| && Holds(sources[v], id) {
      var i :| 0 <= i < |inputs| && Places(inputs)[i] == v;
      assert TakesAt(inputs[i], sources, id);
    }
    forall v: nat | v < |sources| && Holds(sources[v], id) ensures v in Places(inputs) {
      assert Reaches(inputs, v);
      var i :| 0 <= i < |inputs| && inputs[i].vin == v;
      assert Places(inputs)[i] == v;
    }
  }

  /** The inputs are those at the places where the asset is held, so there is one such list. */
  lemma TakesAllOnce(a: seq<F.AssetInput>, b: seq<F.AssetInput>, sources: seq<seq<Holding>>, id: AssetId)
    requires TakesAll(a, sources, id) && TakesAll(b, sources, id)
    ensures a == b
  {
    PlacesAre(a, sources, id);
    PlacesAre(b, sources, id);
    IncreasingOnce(Places(a), Places(b));
    forall i | 0 <= i < |a| ensures a[i] == b[i] {
      assert Places(a)[i] == Places(b)[i] && TakesAt(a[i], sources, id) && TakesAt(b[i], sources, id);
    }
  }

  lemma GroupIs(group: F.Group, sources: seq<seq<Holding>>, id: AssetId, destination: nat, fare: Option<AssetFare>)
    requires AllUnique(sources) && HeldSomewhere(sources, id) && group.assetId == Some(id)
    ensures group == GroupFor(sources, id, destination, fare) <==> GroupMoves(group, sources, destination, fare)
  {
    InputsTakeAll(sources, id);
    SourcesHold(sources, id);
    hide InputsFor, TakesAll, HeldEverywhere, UnitsOf, Flat, HeldSomewhere, Names;
    if TakesAll(group.inputs, sources, id) { TakesAllOnce(group.inputs, InputsFor(sources, id), sources, id); }
    if GivesAll(group.outputs, sources, id, destination, fare) {
      assert group.outputs == OutputsFor(UnitsOf(Flat(sources), id), id, destination, fare);
    }
  }

  function IdsOf(groups: seq<F.Group>): (r: seq<AssetId>)
    requires forall i :: 0 <= i < |groups| ==> groups[i].assetId.Some?
    ensures |r| == |groups| && forall i :: 0 <= i < |r| ==> r[i] == groups[i].assetId.value
  {
    seq(|groups|, i requires 0 <= i < |groups| => groups[i].assetId.value)
  }

  lemma PacketIds(sources: seq<seq<Holding>>)
    ensures var ids := Canonical.Sort(NewIds(Flat(sources)));
            Canonical.Ascending(ids) && forall id :: id in ids <==> HeldSomewhere(sources, id)
  {
    var all := Flat(sources);
    NewIdsFacts(all, []);
    Canonical.SortAscends(NewIds(all));
    Canonical.SortKeeps(NewIds(all));
    hide Canonical.Sort, NewIds, Flat, HeldSomewhere;
    forall id ensures id in NewIds(all) <==> HeldSomewhere(sources, id) {
      NewIdsFacts(all, id);
      SourcesHold(sources, id);
    }
  }

  lemma MovingIds(groups: seq<F.Group>, sources: seq<seq<Holding>>, destination: nat, fare: Option<AssetFare>)
    requires MovesEverything(groups, sources, destination, fare)
    ensures forall i :: 0 <= i < |groups| ==> groups[i].assetId.Some?
    ensures Canonical.Ascending(IdsOf(groups)) && forall id :: id in IdsOf(groups) <==> HeldSomewhere(sources, id)
  {
    hide TakesAll, GivesAll, HeldSomewhere;
    forall i | 0 <= i < |groups| ensures groups[i].assetId.Some? && HeldSomewhere(sources, groups[i].assetId.value) {
      assert GroupMoves(groups[i], sources, destination, fare);
    }
    forall id | HeldSomewhere(sources, id) ensures id in IdsOf(groups) {
      assert HasGroup(groups, id);
      var i :| 0 <= i < |groups| && groups[i].assetId == Some(id);
      assert IdsOf(groups)[i] == id;
    }
  }

  /** The packet that builder and watcher agree on moves every unit, and no other list of groups does. */
  lemma PacketMeans(groups: seq<F.Group>, sources: seq<seq<Holding>>, destination: nat, fare: Option<AssetFare>)
    requires AllUnique(sources)
    ensures groups == PacketOf(sources, destination, fare) <==> MovesEverything(groups, sources, destination, fare)
  {
    var ids := Canonical.Sort(NewIds(Flat(sources)));
    var packet := PacketOf(sources, destination, fare);
    assert packet == GroupsFor(sources, ids, destination, fare);
    PacketIds(sources);
    hide PacketOf, NewIds, Flat, Canonical.Sort, HeldSomewhere, AllUnique, Canonical.Before;
    forall i | 0 <= i < |ids| ensures packet[i] == GroupFor(sources, ids[i], destination, fare)
                                      && GroupMoves(packet[i], sources, destination, fare)
    {
      assert ids[i] in ids;
      GroupIs(packet[i], sources, ids[i], destination, fare);
    }
    assert MovesEverything(packet, sources, destination, fare) by {
      hide GroupMoves;
      forall id | HeldSomewhere(sources, id) ensures HasGroup(packet, id) {
        var i :| 0 <= i < |ids| && ids[i] == id;
        assert packet[i].assetId == Some(id);
      }
    }
    if MovesEverything(groups, sources, destination, fare) {
      MovingIds(groups, sources, destination, fare);
      Canonical.AscendingIsUnique(IdsOf(groups), ids);
      forall i | 0 <= i < |groups| ensures groups[i] == packet[i] {
        assert GroupMoves(groups[i], sources, destination, fare);
        GroupIs(groups[i], sources, ids[i], destination, fare);
      }
      assert groups == packet;
    }
  }

  // ------------------------------------------------------------------ amounts

  /** The covenant coin: the dust that carries it, and the payment where that is in sats. */
  function Locked(p: Params): int {
    match p.paymentSats
    case Some(sats) => p.dust + sats
    case None => p.dust
  }

  /** What a recycle owes the operator: its top-up, and the receiver's fare where that is in sats. */
  function Owed(p: Params): int {
    match p.receiverFare
    case Some(SatsFare(sats)) => p.topup + sats
    case _ => p.topup
  }

  /** The receiver's fare where it is in units of the transfer's asset: to the operator's output, the first. */
  function OwedUnits(p: Params): Option<AssetFare> {
    match p.receiverFare
    case Some(UnitsFare(units)) =>
      if units > 0 && p.assetId.Some? then Some(AssetFare(p.assetId.value, 0, units)) else None
    case _ => None
  }

  lemma AmountsAre(p: Params)
    ensures Locked(p) == LockupSats(p) && p.topup == LoanSats(p) && Owed(p) == OperatorSats(p)
    ensures OwedUnits(p) == RecycleAssetFare(p)
  {
  }

  /** The output pays this amount to this key, as the SDK writes a payout of that size. */
  predicate PaysKey(outputs: seq<Output>, i: nat, key: Key, amount: int, dust: int) {
    i < |outputs| && outputs[i].amount == amount && L.PaysKey(outputs[i], key, dust)
  }

  lemma PaysKeyMeans(outputs: seq<Output>, i: nat, key: Key, amount: int, dust: int)
    ensures PaysKey(outputs, i, key, amount, dust) <==> OutputIs(outputs, i, amount, PayoutScript(key, amount, dust))
  {
  }

  predicate PaysScript(outputs: seq<Output>, i: nat, script: Script, amount: int) {
    i < |outputs| && outputs[i].script == script && outputs[i].amount == amount
  }

  /** A coin that may fund a spend: a witness version 1 coin of a safe positive value that lists no asset twice. */
  predicate Funds(funding: Funding) {
    && funding.script.Program? && funding.value > 0 && funding.value <= 9007199254740991
    && forall i, j :: 0 <= i < j < |funding.holdings| ==> funding.holdings[i].assetId != funding.holdings[j].assetId
  }

  lemma FundsMeans(funding: Funding, key: Key)
    ensures ExactFunding(funding, None) <==> Funds(funding)
    ensures ExactFunding(funding, Some(Program(key))) <==> Funds(funding) && funding.script == Program(key)
    ensures Funds(funding) ==> UniqueNames(funding.holdings)
  {
  }

  lemma OneOutput(outputs: seq<Output>, a: Output)
    ensures outputs == [a] <==> |outputs| == 1 && PaysScript(outputs, 0, a.script, a.amount)
  {
  }

  lemma TwoOutputs(outputs: seq<Output>, a: Output, b: Output)
    ensures outputs == [a, b]
            <==> && |outputs| == 2 && OutputIs(outputs, 0, a.amount, a.script)
                 && PaysScript(outputs, 1, b.script, b.amount)
  {
  }

  /** A purchase: the whole lockup to the receiver's own key, with every unit, unless below the minimum. */
  lemma PurchaseBuilds(s: State, destination: Script, plan: Plan)
    requires UniqueNames(s.holdings)
    ensures PurchasePlan(s, destination) == Some(plan)
            <==> && destination == Program(s.params.receiverKey) && Locked(s.params) >= s.vtxoMin
                 && plan.leaf == Purchase && plan.inputs == 1
                 && |plan.outputs| == 1 && PaysScript(plan.outputs, 0, destination, Locked(s.params))
                 && MovesEverything(plan.groups, [s.holdings], 0, None)
  {
    AmountsAre(s.params);
    PacketMeans(plan.groups, [s.holdings], 0, None);
    OneOutput(plan.outputs, Output(destination, Locked(s.params)));
    hide PacketOf, MovesEverything, UniqueNames;
  }

  /**
   * A recycle: what is owed to the operator, the rest of lockup and funding to the receiver's own key,
   * with every unit but the fare; refused where the rest is below dust or the minimum.
   */
  lemma RecycleBuilds(s: State, funding: Funding, destination: Script, plan: Plan)
    requires UniqueNames(s.holdings)
    ensures var p := s.params;
            var rest := Locked(p) + funding.value - Owed(p);
            RecyclePlan(s, funding, destination) == Some(plan)
            <==> && destination == Program(p.receiverKey) && Funds(funding) && funding.script == destination
                 && rest >= p.dust && rest >= s.vtxoMin
                 && plan.leaf == Recycle && plan.inputs == 2 && |plan.outputs| == 2
                 && PaysKey(plan.outputs, 0, p.operatorKey, Owed(p), p.dust)
                 && PaysScript(plan.outputs, 1, destination, rest)
                 && MovesEverything(plan.groups, [s.holdings, funding.holdings], 1, OwedUnits(p))
  {
    AmountsAre(s.params);
    FundsMeans(funding, s.params.receiverKey);
    PaysKeyMeans(plan.outputs, 0, s.params.operatorKey, Owed(s.params), s.params.dust);
    var owed := Output(PayoutScript(s.params.operatorKey, Owed(s.params), s.params.dust), Owed(s.params));
    TwoOutputs(plan.outputs, owed, Output(destination, Locked(s.params) + funding.value - Owed(s.params)));
    if Funds(funding) { PacketMeans(plan.groups, [s.holdings, funding.holdings], 1, OwedUnits(s.params)); }
    hide PacketOf, MovesEverything, UniqueNames, Funds, ExactFunding, PaysKey, PayoutScript, OwedUnits, Owed,
      OperatorSats, RecycleAssetFare, OutputIs, PaysScript;
  }

  /**
   * A refund: the top-up to the operator, the rest of lockup and funding to the funding coin's own
   * script, with every unit; refused where the rest is below dust or the minimum.
   */
  lemma RefundBuilds(s: State, funding: Funding, plan: Plan)
    requires UniqueNames(s.holdings)
    ensures var p := s.params;
            var rest := Locked(p) + funding.value - p.topup;
            RefundPlan(s, funding) == Some(plan)
            <==> && Funds(funding) && rest >= p.dust && rest >= s.vtxoMin
                 && plan.leaf == RefundSender && plan.inputs == 2 && |plan.outputs| == 2
                 && PaysKey(plan.outputs, 0, p.operatorKey, p.topup, p.dust)
                 && PaysScript(plan.outputs, 1, funding.script, rest)
                 && MovesEverything(plan.groups, [s.holdings, funding.holdings], 1, None)
  {
    AmountsAre(s.params);
    FundsMeans(funding, s.params.receiverKey);
    PaysKeyMeans(plan.outputs, 0, s.params.operatorKey, s.params.topup, s.params.dust);
    var loan := Output(PayoutScript(s.params.operatorKey, s.params.topup, s.params.dust), s.params.topup);
    TwoOutputs(plan.outputs, loan, Output(funding.script, Locked(s.params) + funding.value - s.params.topup));
    if Funds(funding) { PacketMeans(plan.groups, [s.holdings, funding.holdings], 1, None); }
    hide PacketOf, MovesEverything, UniqueNames, Funds, ExactFunding, PaysKey, PayoutScript, OutputIs, PaysScript;
  }

  // ---------------------------------------------------------------- placement

  predicate Unspendable(script: Script) {
    script.Return? || script.Extension? || script.OtherExtension?
    || (script.Other? && |script.bytes| >= 1 && script.bytes[0] == 106)
  }

  function Counted(): Output -> int { (o: Output) => if Unspendable(o.script) then 1 else 0 }

  lemma {:induction false} OpReturnsAre(outputs: seq<Output>)
    ensures OpReturns(outputs) == Sum(outputs, Counted())
  {
    if outputs != [] {
      var n := |outputs| - 1;
      OpReturnsAre(outputs[..n]);
      SumSnoc(outputs[..n], outputs[n], Counted());
      assert outputs[..n] + [outputs[n]] == outputs;
    }
  }

  /**
   * With its extension, a plan is placed exactly when the provider takes that many OP_RETURN outputs,
   * and beyond two of them only for a refund whose two outputs are such, where the provider says how many.
   */
  lemma PlacedExactlyWhen(plan: Plan, program: string, maxOpReturns: Option<nat>)
    ensures var extension := Output(Extension(plan.groups, 0, program), 0);
            var n := Sum(plan.outputs, Counted()) + 1;
            Placeable(plan, OpReturns(plan.outputs + [extension]), maxOpReturns)
            <==> && (maxOpReturns.Some? ==> n <= maxOpReturns.value)
                 && (n <= 2
                     || (&& plan.leaf == RefundSender && maxOpReturns.Some? && |plan.outputs| == 2
                         && Unspendable(plan.outputs[0].script) && Unspendable(plan.outputs[1].script)))
  {
    var extension := Output(Extension(plan.groups, 0, program), 0);
    OpReturnsAre(plan.outputs + [extension]);
    SumSnoc(plan.outputs, extension, Counted());
    hide Sum, OpReturns;
  }

  // ----------------------------------------------------------- classification

  /** The coin holds what the advance locked: its asset in those units, or nothing. */
  predicate AsLocked(w: Watch, held: seq<Holding>) {
    match (w.params.assetId, w.assetUnits)
    case (Some(id), Some(units)) => units > 0 && held == [Holding(id, units)]
    case (None, None) => held == []
    case _ => false
  }

  function Rank(leaf: Leaf): nat {
    match leaf
    case Recycle => 0
    case Purchase => 1
    case RefundSender => 2
    case Recovery => 3
  }

  predicate RunsLeaf(w: Watch, s: Spend, leaf: Leaf) { leaf in w.leafScripts && w.leafScripts[leaf] == s.leafScript }

  /** The checkpoint runs this leaf, and none tried before it; its program is known and the evidence holds. */
  ghost predicate Runs(w: Watch, s: Spend, leaf: Leaf) {
    && s.evidence && AsLocked(w, s.holdings) && leaf in w.programs && RunsLeaf(w, s, leaf)
    && forall other :: Rank(other) < Rank(leaf) ==> !RunsLeaf(w, s, other)
  }

  /** Version 3, and every input final except under a locktime, which leaves them one below. */
  predicate Sequenced(h: Header) {
    && h.version == 3
    && forall i :: 0 <= i < |h.sequences| ==> h.sequences[i] == if h.lockTime == 0 then 4294967295 else 4294967294
  }

  lemma LeafMeans(w: Watch, s: Spend, leaf: Leaf)
    ensures SelectedLeaf(w, s.leafScript, 0) == Some(leaf)
            <==> RunsLeaf(w, s, leaf) && forall other :: Rank(other) < Rank(leaf) ==> !RunsLeaf(w, s, other)
  {
    assert LEAVES[0] == Recycle && LEAVES[1] == Purchase && LEAVES[2] == RefundSender && LEAVES[3] == Recovery;
    assert SelectedLeaf(w, s.leafScript, 4) == None;
    assert SelectedLeaf(w, s.leafScript, 3) == if RunsLeaf(w, s, Recovery) then Some(Recovery) else None;
    assert SelectedLeaf(w, s.leafScript, 2)
      == if RunsLeaf(w, s, RefundSender) then Some(RefundSender) else SelectedLeaf(w, s.leafScript, 3);
    assert SelectedLeaf(w, s.leafScript, 1)
      == if RunsLeaf(w, s, Purchase) then Some(Purchase) else SelectedLeaf(w, s.leafScript, 2);
    assert SelectedLeaf(w, s.leafScript, 0)
      == if RunsLeaf(w, s, Recycle) then Some(Recycle) else SelectedLeaf(w, s.leafScript, 1);
    hide SelectedLeaf, RunsLeaf;
    assert Rank(Recycle) == 0 && Rank(Purchase) == 1 && Rank(RefundSender) == 2;
  }

  lemma LockedMeans(w: Watch, held: seq<Holding>)
    ensures AsLocked(w, held) <==> WellHeld(held) && ExpectedHoldings(w) == Some(held)
    ensures AsLocked(w, held) ==> UniqueNames(held)
  {
  }

  /** What gets past the checks common to all leaves. */
  lemma GatesMean(w: Watch, s: Spend, leaf: Leaf)
    ensures Runs(w, s, leaf)
            <==> && s.evidence && WellHeld(s.holdings) && ExpectedHoldings(w) == Some(s.holdings)
                 && SelectedLeaf(w, s.leafScript, 0) == Some(leaf) && leaf in w.programs
    ensures Runs(w, s, leaf) ==> UniqueNames(s.holdings)
  {
    LeafMeans(w, s, leaf);
    LockedMeans(w, s.holdings);
    hide SelectedLeaf, RunsLeaf, WellHeld, ExpectedHoldings, AsLocked;
  }

  lemma HeaderMeans(h: Header, ceiling: nat)
    ensures ExactHeader(h, 0, false) <==> Sequenced(h) && h.lockTime == 0
    ensures ExactHeader(h, ceiling, true) <==> Sequenced(h) && h.lockTime <= ceiling
  {
  }

  /** An extension of no value, run for input 0 by this program, whose packet moves every unit. */
  ghost predicate Extends(
    outputs: seq<Output>, i: nat, program: string, sources: seq<seq<Holding>>, destination: nat,
    fare: Option<AssetFare>)
  {
    && i < |outputs| && outputs[i].amount == 0 && outputs[i].script.Extension? && outputs[i].script.vin == 0
    && outputs[i].script.program == program
    && MovesEverything(outputs[i].script.groups, sources, destination, fare)
  }

  lemma ExtendsMeans(
    outputs: seq<Output>, i: nat, program: string, sources: seq<seq<Holding>>, destination: nat,
    fare: Option<AssetFare>)
    requires AllUnique(sources)
    ensures ExactExtension(outputs, i, program, sources, destination, fare)
            <==> Extends(outputs, i, program, sources, destination, fare)
  {
    if i < |outputs| && outputs[i].script.Extension? {
      PacketMeans(outputs[i].script.groups, sources, destination, fare);
    }
    hide PacketOf, MovesEverything, AllUnique;
  }

  predicate Bears(output: Output) { output.script.Extension? || output.script.OtherExtension? }

  predicate IsAnchor(output: Output) { output.script == Anchor && output.amount == 0 }

  ghost predicate OnlyOne(outputs: seq<Output>, i: nat, such: Output -> bool) {
    i < |outputs| && such(outputs[i]) && forall j :: 0 <= j < |outputs| && j != i ==> !such(outputs[j])
  }

  ghost predicate HasOneAnchor(outputs: seq<Output>) { exists i: nat :: OnlyOne(outputs, i, IsAnchor) }

  lemma OnlyOneMeans(outputs: seq<Output>, i: nat, matches: Output -> bool)
    ensures Sole(outputs, matches) == Some(i) <==> OnlyOne(outputs, i, matches)
  {
    if OnlyOne(outputs, i, matches) { OnlyAt(outputs, matches, i); }
    if Sole(outputs, matches) == Some(i) { SoleIsOnly(outputs, matches); }
  }

  lemma AnchorsMean(outputs: seq<Output>)
    ensures Sole(outputs, AnchorAt).Some? <==> HasOneAnchor(outputs)
  {
    forall i: nat ensures OnlyOne(outputs, i, IsAnchor) <==> Sole(outputs, AnchorAt) == Some(i) {
      OnlyOneMeans(outputs, i, AnchorAt);
    }
    hide Sole;
  }

  /** The one extension among the outputs, wherever it is, moves every unit. */
  ghost predicate ExtendsOnce(
    outputs: seq<Output>, program: string, sources: seq<seq<Holding>>, destination: nat)
  {
    exists i: nat :: OnlyOne(outputs, i, Bears) && Extends(outputs, i, program, sources, destination, None)
  }

  lemma SoleExtensionMeans(outputs: seq<Output>, program: string, sources: seq<seq<Holding>>, destination: nat)
    requires AllUnique(sources)
    ensures SoleExtension(outputs, program, sources, destination)
            <==> ExtendsOnce(outputs, program, sources, destination)
  {
    forall i: nat
      ensures OnlyOne(outputs, i, Bears) <==> Sole(outputs, ExtensionAt) == Some(i)
      ensures ExactExtension(outputs, i, program, sources, destination, None)
              <==> Extends(outputs, i, program, sources, destination, None)
    {
      OnlyOneMeans(outputs, i, ExtensionAt);
      ExtendsMeans(outputs, i, program, sources, destination, None);
    }
    hide Sole, ExactExtension, Extends, OnlyOne;
    if Sole(outputs, ExtensionAt).Some? {
      var i := Sole(outputs, ExtensionAt).value;
      assert OnlyOne(outputs, i, Bears);
    }
  }

  /** A spend is a purchase exactly when it runs the purchase leaf and its outputs are these three. */
  lemma PurchasedExactlyWhen(w: Watch, s: Spend)
    ensures Classify(w, s) == Purchased
            <==> && Runs(w, s, Purchase)
                 && Sequenced(s.checkpoint) && Sequenced(s.ark) && s.checkpoint.lockTime == 0 && s.ark.lockTime == 0
                 && |s.ark.sequences| == 1 && |s.outputs| == 3 && Locked(w.params) >= w.vtxoMin
                 && PaysScript(s.outputs, 0, Program(w.params.receiverKey), Locked(w.params))
                 && Extends(s.outputs, 1, w.programs[Purchase], [s.holdings], 0, None) && IsAnchor(s.outputs[2])
  {
    hide SelectedLeaf, WellHeld, ExpectedHoldings, AsLocked, Runs, ExactHeader, Sequenced, ExactExtension, Extends,
      RecycleFits, RefundFits, RecoveryFits, UniqueNames;
    AmountsAre(w.params);
    HeaderMeans(s.checkpoint, 0);
    HeaderMeans(s.ark, 0);
    GatesMean(w, s, Purchase);
    if Runs(w, s, Purchase) { ExtendsMeans(s.outputs, 1, w.programs[Purchase], [s.holdings], 0, None); }
  }

  ghost predicate ListsAssets(held: seq<Holding>) {
    && (forall i, j :: 0 <= i < j < |held| ==> held[i].assetId != held[j].assetId)
    && forall i :: 0 <= i < |held| ==> held[i].units > 0
  }

  lemma ListsAssetsMeans(held: seq<Holding>)
    ensures WellHeld(held) <==> ListsAssets(held)
    ensures ListsAssets(held) ==> UniqueNames(held)
  {
  }

  /** A spend is a recycle exactly when it runs the recycle leaf and its outputs are these four. */
  lemma RecycledExactlyWhen(w: Watch, s: Spend)
    ensures Classify(w, s) == Recycled
            <==> && Runs(w, s, Recycle)
                 && Sequenced(s.checkpoint) && Sequenced(s.ark) && s.checkpoint.lockTime == 0 && s.ark.lockTime == 0
                 && |s.ark.sequences| == 2 && |s.outputs| == 4
                 && s.second.Some? && s.second.value.script == Program(w.params.receiverKey)
                 && ListsAssets(s.second.value.holdings)
                 && PaysKey(s.outputs, 0, w.params.operatorKey, Owed(w.params), w.params.dust)
                 && PaysScript(s.outputs, 1, Program(w.params.receiverKey),
                    Locked(w.params) + s.second.value.value - Owed(w.params))
                 && s.outputs[1].amount >= w.params.dust && s.outputs[1].amount >= w.vtxoMin
                 && Extends(s.outputs, 2, w.programs[Recycle], [s.holdings, s.second.value.holdings], 1,
                    OwedUnits(w.params))
                 && IsAnchor(s.outputs[3])
  {
    hide SelectedLeaf, WellHeld, ExpectedHoldings, AsLocked, Runs, ExactHeader, Sequenced, ExactExtension, Extends,
      PurchaseFits, RefundFits, RecoveryFits, UniqueNames, ListsAssets, PaysKey, PayoutScript, OwedUnits,
      RecycleAssetFare, Owed, OperatorSats, LockupSats, Locked;
    AmountsAre(w.params);
    HeaderMeans(s.checkpoint, 0);
    HeaderMeans(s.ark, 0);
    GatesMean(w, s, Recycle);
    PaysKeyMeans(s.outputs, 0, w.params.operatorKey, Owed(w.params), w.params.dust);
    if s.second.Some? { ListsAssetsMeans(s.second.value.holdings); }
    if Runs(w, s, Recycle) && s.second.Some? && ListsAssets(s.second.value.holdings) {
      ExtendsMeans(s.outputs, 2, w.programs[Recycle], [s.holdings, s.second.value.holdings], 1, OwedUnits(w.params));
    }
  }

  /**
   * A spend is a refund exactly when it runs the refund leaf, repays the top-up, and sends the rest to
   * input 1's own script; further outputs are allowed, but for a second extension or anchor.
   */
  lemma RefundedExactlyWhen(w: Watch, s: Spend)
    ensures Classify(w, s) == Refunded
            <==> && Runs(w, s, RefundSender)
                 && Sequenced(s.checkpoint) && Sequenced(s.ark) && s.checkpoint.lockTime == 0 && s.ark.lockTime == 0
                 && |s.ark.sequences| == 2 && s.second.Some? && ListsAssets(s.second.value.holdings)
                 && PaysKey(s.outputs, 0, w.params.operatorKey, w.params.topup, w.params.dust)
                 && PaysScript(s.outputs, 1, s.second.value.script,
                    Locked(w.params) + s.second.value.value - w.params.topup)
                 && ExtendsOnce(s.outputs, w.programs[RefundSender], [s.holdings, s.second.value.holdings], 1)
                 && HasOneAnchor(s.outputs)
  {
    hide SelectedLeaf, WellHeld, ExpectedHoldings, AsLocked, Runs, ExactHeader, Sequenced, SoleExtension, ExtendsOnce,
      PurchaseFits, RecycleFits, RecoveryFits, UniqueNames, ListsAssets, PaysKey, PayoutScript, LockupSats, Locked,
      HasOneAnchor, Sole;
    AmountsAre(w.params);
    HeaderMeans(s.checkpoint, 0);
    HeaderMeans(s.ark, 0);
    GatesMean(w, s, RefundSender);
    PaysKeyMeans(s.outputs, 0, w.params.operatorKey, w.params.topup, w.params.dust);
    AnchorsMean(s.outputs);
    if s.second.Some? { ListsAssetsMeans(s.second.value.holdings); }
    if Runs(w, s, RefundSender) && s.second.Some? && ListsAssets(s.second.value.holdings) {
      SoleExtensionMeans(s.outputs, w.programs[RefundSender], [s.holdings, s.second.value.holdings], 1);
    }
  }

  /**
   * A spend is a recovery exactly when it runs the recovery leaf and pays the operator the whole lockup,
   * with a locktime that is the checkpoint's, no later than the advance's, and matured. Nothing is asked
   * of its other inputs, nor of its other outputs but that there is one extension and one anchor.
   */
  lemma RecoveredExactlyWhen(w: Watch, s: Spend)
    ensures Classify(w, s) == Recovered
            <==> && Runs(w, s, Recovery) && w.recoveryLocktime.Some?
                 && Sequenced(s.checkpoint) && Sequenced(s.ark) && s.ark.lockTime == s.checkpoint.lockTime
                 && s.ark.lockTime <= w.recoveryLocktime.value && s.ark.lockTime <= w.tipTime
                 && PaysKey(s.outputs, 0, w.params.operatorKey, Locked(w.params), w.params.dust)
                 && ExtendsOnce(s.outputs, w.programs[Recovery], [s.holdings], 0) && HasOneAnchor(s.outputs)
  {
    hide SelectedLeaf, WellHeld, ExpectedHoldings, AsLocked, Runs, ExactHeader, Sequenced, SoleExtension, ExtendsOnce,
      PurchaseFits, RecycleFits, RefundFits, UniqueNames, PaysKey, PayoutScript, LockupSats, Locked, HasOneAnchor, Sole;
    AmountsAre(w.params);
    if w.recoveryLocktime.Some? {
      HeaderMeans(s.checkpoint, w.recoveryLocktime.value);
      HeaderMeans(s.ark, w.recoveryLocktime.value);
    }
    GatesMean(w, s, Recovery);
    PaysKeyMeans(s.outputs, 0, w.params.operatorKey, Locked(w.params), w.params.dust);
    AnchorsMean(s.outputs);
    if Runs(w, s, Recovery) { SoleExtensionMeans(s.outputs, w.programs[Recovery], [s.holdings], 0); }
  }

  /** Whoever broadcasts a recovery may add an input and its change: it is still a recovery. */
  lemma RecoveryToleratesChange(w: Watch, s: Spend, change: Output, sequence: nat)
    requires Classify(w, s) == Recovered && !Bears(change) && !IsAnchor(change)
    requires sequence == if s.ark.lockTime == 0 then 4294967295 else 4294967294
    ensures var ark := s.ark.(sequences := s.ark.sequences + [sequence]);
            Classify(w, s.(ark := ark, outputs := s.outputs + [change])) == Recovered
  {
    var ark := s.ark.(sequences := s.ark.sequences + [sequence]);
    var t := s.(ark := ark, outputs := s.outputs + [change]);
    RecoveredExactlyWhen(w, s);
    RecoveredExactlyWhen(w, t);
    forall i: nat | OnlyOne(s.outputs, i, Bears) ensures OnlyOne(t.outputs, i, Bears) && t.outputs[i] == s.outputs[i] {}
    forall i: nat | OnlyOne(s.outputs, i, IsAnchor) ensures OnlyOne(t.outputs, i, IsAnchor) {}
    hide MovesEverything, Classify, OnlyOne;
    var i: nat :| OnlyOne(s.outputs, i, Bears) && Extends(s.outputs, i, w.programs[Recovery], [s.holdings], 0, None);
    assert Extends(t.outputs, i, w.programs[Recovery], [t.holdings], 0, None);
  }
}
