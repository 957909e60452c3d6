// packages/app/src/watcher.ts: `classifySpend`, on a covenant coin that was spent.
//
// Signatures, trees, checkpoint edges and persisted commitments are one opaque verdict,
// `evidence`; `second` is the coin at input 1 once its own evidence has been checked.
module SpendWatcher {
  import opened Prelude
  import opened Assets
  import opened SpendPacket
  import opened CovenantSpend
  import Canonical
  import F = FillGraph
  import C = FillConservation

  datatype Header = Header(version: nat, lockTime: nat, sequences: seq<nat>)

  datatype Spend = Spend(
    leafScript: string,              // the leaf the covenant's checkpoint selects
    checkpoint: Header, ark: Header, // `ark.sequences` has one entry for each input
    outputs: seq<Output>,
    holdings: seq<Holding>,          // what the covenant coin is observed to hold
    second: Option<Funding>,
    evidence: bool)

  /** What the watcher knows of an advance. */
  datatype Watch = Watch(
    params: Params, vtxoMin: int, assetUnits: Option<int>,
    leafScripts: map<Leaf, string>, programs: map<Leaf, string>,
    recoveryLocktime: Option<nat>, tipTime: nat)

  /** `expectedHoldings`, or nothing where the persisted asset facts disagree. */
  function ExpectedHoldings(w: Watch): Option<seq<Holding>> {
    if w.params.assetId.Some? != w.assetUnits.Some? || (w.assetUnits.Some? && w.assetUnits.value <= 0) then None
    else if w.assetUnits.None? then Some([])
    else Some([Holding(w.params.assetId.value, w.assetUnits.value)])
  }

  datatype Verdict = Purchased | Recycled | Refunded | Recovered | Unknown

  const LEAVES := [Recycle, Purchase, RefundSender, Recovery]

  /** `[...].find(...)`: the first leaf with the selected script. */
  function SelectedLeaf(w: Watch, script: string, from: nat): (r: Option<Leaf>)
    requires from <= |LEAVES|
    ensures r.Some? ==> r.value in w.leafScripts && w.leafScripts[r.value] == script
    decreases |LEAVES| - from
  {
    if from == |LEAVES| then None
    else if LEAVES[from] in w.leafScripts && w.leafScripts[LEAVES[from]] == script then Some(LEAVES[from])
    else SelectedLeaf(w, script, from + 1)
  }

  /** `holdings`: positive amounts, no id twice. */
  predicate WellHeld(held: seq<Holding>) {
    UniqueNames(held) && forall i :: 0 <= i < |held| ==> held[i].units > 0
  }

  predicate ExactHeader(h: Header, lockTime: nat, atMost: bool) {
    && h.version == 3 && (if atMost then h.lockTime <= lockTime else h.lockTime == lockTime)
    && forall i :: 0 <= i < |h.sequences| ==> h.sequences[i] == if h.lockTime == 0 then 0xffffffff else 0xfffffffe
  }

  predicate OutputIs(outputs: seq<Output>, i: nat, amount: int, script: Script) {
    i < |outputs| && outputs[i] == Output(script, amount)
  }

  // -------------------------------------------------- the packet it expects

  /** The watcher's own totals: holding by holding, source by source. */
  method ExpectedTotals(sources: seq<seq<Holding>>) returns (totals: map<AssetId, int>)
    ensures Totalled(totals, Flat(sources))
  {
    hide Totalled, Added;
    totals := map[];
    assert Totalled(totals, []) by { NothingTotalled(); }
    for vin := 0 to |sources|
      invariant Totalled(totals, Flat(sources[..vin]))
    {
      ghost var before := Flat(sources[..vin]);
      assert before + sources[vin][..0] == before;
      for j := 0 to |sources[vin]|
        invariant Totalled(totals, before + sources[vin][..j])
      {
        OneMoreHolding(totals, before + sources[vin][..j], sources[vin][j]);
        assert before + sources[vin][..j + 1] == before + sources[vin][..j] + [sources[vin][j]];
        totals := Added(totals, sources[vin][j]);
      }
      assert sources[vin][..|sources[vin]|] == sources[vin] && sources[..vin + 1][..vin] == sources[..vin];
    }
    assert sources[..|sources|] == sources;
  }

  lemma NothingTotalled()
    ensures Totalled(map[], [])
  {
  }

  /** `source.some(...)` and `source.find(...)`. */
  method FindUnits(source: seq<Holding>, id: AssetId) returns (units: Option<int>)
    ensures units == if Names(source, id) then Some(FirstUnits(source, id)) else None
  {
    for i := 0 to |source|
      invariant forall k :: 0 <= k < i ==> source[k].assetId != id
      invariant FirstUnits(source[i..], id) == FirstUnits(source, id)
    {
      assert source[i..][0] == source[i] && source[i..][1..] == source[i + 1..];
      if source[i].assetId == id { return Some(source[i].units); }
    }
    return None;
  }

  /** `expectedAssetPacket`: computed apart from the builder's packet, and the same. */
  method ExpectedAssetPacket(sources: seq<seq<Holding>>, destination: nat, fare: Option<AssetFare>)
    returns (groups: seq<F.Group>)
    ensures groups == PacketOf(sources, destination, fare)
  {
    hide NewIds, Flat, UnitsOf, Names, Canonical.Sort, FirstUnits;
    var totals := ExpectedTotals(sources);
    var ids := SortedKeys(totals, Flat(sources));
    groups := [];
    for i := 0 to |ids|
      invariant groups == GroupsFor(sources, ids[..i], destination, fare)
    {
      var id := ids[i];
      assert id in ids;
      var inputs: seq<F.AssetInput> := [];
      for vin := 0 to |sources|
        invariant inputs == InputsFor(sources[..vin], id)
      {
        assert sources[..vin + 1][..vin] == sources[..vin] && sources[..vin + 1][vin] == sources[vin];
        var units := FindUnits(sources[vin], id);
        if units.Some? { inputs := inputs + [F.AssetInput(vin, units.value, true)]; }
      }
      assert sources[..|sources|] == sources;
      groups := groups + [F.Group(Some(id), inputs, OutputsFor(totals[id], id, destination, fare))];
      assert groups == GroupsFor(sources, ids[..i + 1], destination, fare);
    }
    assert ids[..|ids|] == ids;
  }

  /** `exactExtension`. */
  predicate ExactExtension(
    outputs: seq<Output>, i: nat, program: string, sources: seq<seq<Holding>>, destination: nat,
    fare: Option<AssetFare>)
  {
    OutputIs(outputs, i, 0, Extension(PacketOf(sources, destination, fare), 0, program))
  }

  predicate ExtensionAt(output: Output) { IsExtension(output.script) }

  predicate AnchorAt(output: Output) { output == ANCHOR }

  /** `soleOutput`: the one output that matches. */
  function Matching(outputs: seq<Output>, matches: Output -> bool): (r: seq<nat>)
    ensures forall i: nat :: i in r <==> i < |outputs| && matches(outputs[i])
  {
    if outputs == [] then []
    else
      var n := |outputs| - 1;
      Matching(outputs[..n], matches) + if matches(outputs[n]) then [n] else []
  }

  function Sole(outputs: seq<Output>, matches: Output -> bool): (r: Option<nat>)
    ensures r.Some? ==> r.value < |outputs| && matches(outputs[r.value])
  {
    var found := Matching(outputs, matches);
    if |found| == 1 then
      assert found[0] in found;
      Some(found[0])
    else None
  }

  predicate SoleExtension(outputs: seq<Output>, program: string, sources: seq<seq<Holding>>, destination: nat) {
    var i := Sole(outputs, ExtensionAt);
    i.Some? && ExactExtension(outputs, i.value, program, sources, destination, None)
  }

  /** What the leaf lets through, given the opaque evidence. */
  function Classify(w: Watch, s: Spend): Verdict {
    var leaf := SelectedLeaf(w, s.leafScript, 0);
    if !s.evidence || !WellHeld(s.holdings) || ExpectedHoldings(w) != Some(s.holdings) || leaf.None? then Unknown
    else if leaf.value !in w.programs then Unknown
    else
      var reclaim := leaf == Some(Recovery);
      if reclaim && w.recoveryLocktime.None? then Unknown
      else
        var lockTime := if reclaim then w.recoveryLocktime.value else 0;
        if !ExactHeader(s.checkpoint, lockTime, reclaim) || !ExactHeader(s.ark, lockTime, reclaim) then Unknown
        else
          match leaf.value
          case Purchase => if PurchaseFits(w, s) then Purchased else Unknown
          case Recycle => if RecycleFits(w, s) then Recycled else Unknown
          case Recovery => if RecoveryFits(w, s, lockTime) then Recovered else Unknown
          case RefundSender => if RefundFits(w, s) then Refunded else Unknown
  }

  predicate PurchaseFits(w: Watch, s: Spend)
    requires Purchase in w.programs
  {
    && |s.ark.sequences| == 1 && |s.outputs| == 3
    && OutputIs(s.outputs, 0, LockupSats(w.params), Program(w.params.receiverKey))
    && LockupSats(w.params) >= w.vtxoMin
    && ExactExtension(s.outputs, 1, w.programs[Purchase], [s.holdings], 0, None)
    && OutputIs(s.outputs, 2, 0, Anchor)
  }

  predicate RecycleFits(w: Watch, s: Spend)
    requires Recycle in w.programs
  {
    && |s.ark.sequences| == 2 && |s.outputs| == 4
    && s.second.Some? && s.second.value.script == Program(w.params.receiverKey)
    && var merged := LockupSats(w.params) + s.second.value.value - OperatorSats(w.params);
    && merged >= w.params.dust && merged >= w.vtxoMin
    && OutputIs(s.outputs, 0, OperatorSats(w.params),
       PayoutScript(w.params.operatorKey, OperatorSats(w.params), w.params.dust))
    && OutputIs(s.outputs, 1, merged, Program(w.params.receiverKey))
    && WellHeld(s.second.value.holdings)
    && ExactExtension(s.outputs, 2, w.programs[Recycle], [s.holdings, s.second.value.holdings], 1,
       RecycleAssetFare(w.params))
    && OutputIs(s.outputs, 3, 0, Anchor)
  }

  predicate RefundFits(w: Watch, s: Spend)
    requires RefundSender in w.programs
  {
    && |s.ark.sequences| == 2 && s.second.Some?
    && OutputIs(s.outputs, 0, LoanSats(w.params), PayoutScript(w.params.operatorKey, LoanSats(w.params), w.params.dust))
    && OutputIs(s.outputs, 1, LockupSats(w.params) + s.second.value.value - LoanSats(w.params), s.second.value.script)
    && WellHeld(s.second.value.holdings)
    && SoleExtension(s.outputs, w.programs[RefundSender], [s.holdings, s.second.value.holdings], 1)
    && Sole(s.outputs, AnchorAt).Some?
    && s.ark.lockTime == 0 && s.checkpoint.lockTime == 0
  }

  predicate RecoveryFits(w: Watch, s: Spend, ceiling: nat)
    requires Recovery in w.programs
  {
    && OutputIs(s.outputs, 0, LockupSats(w.params),
       PayoutScript(w.params.operatorKey, LockupSats(w.params), w.params.dust))
    && SoleExtension(s.outputs, w.programs[Recovery], [s.holdings], 0)
    && Sole(s.outputs, AnchorAt).Some?
    && s.ark.lockTime == s.checkpoint.lockTime && s.ark.lockTime <= ceiling && s.ark.lockTime <= w.tipTime
  }

  // ------------------------------------------------------------ completeness

  ghost predicate DistinctLeaves(w: Watch) {
    && (forall i :: 0 <= i < |LEAVES| ==> LEAVES[i] in w.leafScripts)
    && forall i, j :: 0 <= i < j < |LEAVES| ==> w.leafScripts[LEAVES[i]] != w.leafScripts[LEAVES[j]]
  }

  lemma LeafIsSelected(w: Watch, leaf: Leaf)
    requires DistinctLeaves(w)
    ensures leaf in w.leafScripts && SelectedLeaf(w, w.leafScripts[leaf], 0) == Some(leaf)
  {
    assert LEAVES[0] == Recycle && LEAVES[1] == Purchase && LEAVES[2] == RefundSender && LEAVES[3] == Recovery;
    assert SelectedLeaf(w, w.leafScripts[leaf], 3) == if leaf == Recovery then Some(Recovery) else None;
    assert SelectedLeaf(w, w.leafScripts[leaf], 2) == if leaf in {RefundSender, Recovery} then Some(leaf) else None;
    assert SelectedLeaf(w, w.leafScripts[leaf], 1) == if leaf != Recycle then Some(leaf) else None;
  }

  /** The watcher watches the transfer that a wallet holds. */
  ghost predicate Watches(w: Watch, state: State) {
    && w.params == state.params && w.vtxoMin == state.vtxoMin && w.programs == state.programs && DistinctLeaves(w)
    && ExpectedHoldings(w).Some? && SameHoldings(state.holdings, ExpectedHoldings(w).value)
  }

  /** The observed chain is what `execute` built for the plan: the placed outputs, standard headers, valid evidence. */
  ghost predicate Executed(w: Watch, state: State, plan: Plan, funding: Option<Funding>, s: Spend)
    requires Watches(w, state) && plan.leaf in state.programs
  {
    && s.outputs == plan.outputs + [ExtensionOutput(plan, state.programs[plan.leaf]), ANCHOR]
    && |s.ark.sequences| == plan.inputs && ExactHeader(s.ark, 0, false) && ExactHeader(s.checkpoint, 0, false)
    && plan.leaf in w.leafScripts && s.leafScript == w.leafScripts[plan.leaf] && s.evidence
    && s.holdings == ExpectedHoldings(w).value
    && (funding.Some? ==>
          && s.second.Some? && s.second.value.value == funding.value.value
             && s.second.value.script == funding.value.script
          && WellHeld(s.second.value.holdings) && SameHoldings(funding.value.holdings, s.second.value.holdings))
  }

  lemma ExpectedIsWellHeld(w: Watch)
    requires ExpectedHoldings(w).Some?
    ensures WellHeld(ExpectedHoldings(w).value)
  {
  }

  lemma SameSources(a: State, funding: Option<Funding>, s: Spend, w: Watch, destination: nat, fare: Option<AssetFare>)
    requires Watches(w, a) && s.holdings == ExpectedHoldings(w).value
    requires funding.Some? ==> s.second.Some? && SameHoldings(funding.value.holdings, s.second.value.holdings)
    ensures PacketOf([a.holdings], destination, fare) == PacketOf([s.holdings], destination, fare)
    ensures funding.Some? ==>
              PacketOf([a.holdings, funding.value.holdings], destination, fare)
              == PacketOf([s.holdings, s.second.value.holdings], destination, fare)
  {
    hide PacketOf, SameHoldings;
    PacketForgetsOrder([a.holdings], [s.holdings], destination, fare);
    if funding.Some? {
      PacketForgetsOrder([a.holdings, funding.value.holdings], [s.holdings, s.second.value.holdings], destination,
        fare);
    }
  }

  lemma PurchaseIsClassified(w: Watch, state: State, destination: Script, s: Spend)
    requires Watches(w, state) && Purchase in state.programs && PurchasePlan(state, destination).Some?
    requires Executed(w, state, PurchasePlan(state, destination).value, None, s)
    ensures Classify(w, s) == Purchased
  {
    hide PacketOf, SameHoldings, UniqueNames, SelectedLeaf, ExactHeader;
    LeafIsSelected(w, Purchase);
    ExpectedIsWellHeld(w);
    SameSources(state, None, s, w, 0, None);
    hide DistinctLeaves, WellHeld;
  }

  lemma RecycleIsClassified(w: Watch, state: State, funding: Funding, destination: Script, s: Spend)
    requires Watches(w, state) && Recycle in state.programs && RecyclePlan(state, funding, destination).Some?
    requires Executed(w, state, RecyclePlan(state, funding, destination).value, Some(funding), s)
    ensures Classify(w, s) == Recycled
  {
    hide PacketOf, SameHoldings, UniqueNames, SelectedLeaf, ExactHeader, RecycleAssetFare;
    LeafIsSelected(w, Recycle);
    ExpectedIsWellHeld(w);
    SameSources(state, Some(funding), s, w, 1, RecycleAssetFare(state.params));
    hide DistinctLeaves, WellHeld;
  }

  lemma {:induction false} NoneMatch(outputs: seq<Output>, matches: Output -> bool)
    requires forall j :: 0 <= j < |outputs| ==> !matches(outputs[j])
    ensures Matching(outputs, matches) == []
  {
    if outputs != [] { NoneMatch(outputs[..|outputs| - 1], matches); }
  }

  lemma {:induction false} OnlyAt(outputs: seq<Output>, matches: Output -> bool, i: nat)
    requires i < |outputs| && matches(outputs[i])
    requires forall j :: 0 <= j < |outputs| && j != i ==> !matches(outputs[j])
    ensures Matching(outputs, matches) == [i] && Sole(outputs, matches) == Some(i)
  {
    var n := |outputs| - 1;
    if i < n { OnlyAt(outputs[..n], matches, i); } else { NoneMatch(outputs[..n], matches); }
  }

  lemma RefundIsClassified(w: Watch, state: State, funding: Funding, s: Spend)
    requires ValidParams(state.params, state.vtxoMin)
    requires Watches(w, state) && RefundSender in state.programs && RefundPlan(state, funding).Some?
    requires Executed(w, state, RefundPlan(state, funding).value, Some(funding), s)
    ensures Classify(w, s) == Refunded
  {
    hide PacketOf, SameHoldings, UniqueNames, SelectedLeaf, Sole;
    LeafIsSelected(w, RefundSender);
    ExpectedIsWellHeld(w);
    SameSources(state, Some(funding), s, w, 1, None);
    hide DistinctLeaves, WellHeld;
    OnlyAt(s.outputs, ExtensionAt, 2);
    OnlyAt(s.outputs, AnchorAt, 3);
  }

  // --------------------------------------------------------------- soundness

  /** Units that a packet takes at an input, and allocates to an output. */
  function Taken(output: Output, id: AssetId, vin: nat): int
    requires output.script.Extension?
  {
    C.UnitsAtPlace(C.AllIn(output.script.groups), id, vin)
  }

  function Allocated(output: Output, id: AssetId, vout: nat): int
    requires output.script.Extension?
  {
    C.UnitsAtPlace(C.AllOut(output.script.groups), id, vout)
  }

  lemma OneSource(held: seq<Holding>, id: AssetId)
    ensures C.UnitsIn([held], id) == UnitsOf(held, id)
  {
    assert [held][1..] == [];
  }

  lemma TwoSources(a: seq<Holding>, b: seq<Holding>, id: AssetId)
    ensures C.UnitsIn([a, b], id) == UnitsOf(a, id) + UnitsOf(b, id)
    ensures Names(a, id) ==> Names(Flat([a, b]), id)
  {
    assert [a, b][1..] == [b];
    OneSource(b, id);
    FlatUnits([a, b], id);
    assert [a, b][0] == a;
  }

  /** A purchase pays the receiver the whole lockup and every unit the covenant held. */
  lemma PurchasedMeans(w: Watch, s: Spend, id: AssetId, at: nat)
    requires Classify(w, s) == Purchased
    ensures |s.outputs| == 3 && s.outputs[0] == Output(Program(w.params.receiverKey), LockupSats(w.params))
    ensures TotalSats(s.outputs) == LockupSats(w.params)
    ensures s.outputs[1].script.Extension?
    ensures Taken(s.outputs[1], id, at) == if at == 0 then UnitsOf(s.holdings, id) else 0
    ensures Allocated(s.outputs[1], id, at) == if at == 0 then UnitsOf(s.holdings, id) else 0
  {
    hide SelectedLeaf, ExactHeader, PacketOf, C.UnitsAtPlace, C.AllIn, C.AllOut;
    PacketConserves([s.holdings], 0, None, id, at);
    OneSource(s.holdings, id);
    TotalOfThree(s.outputs);
  }

  lemma TotalOfThree(outputs: seq<Output>)
    requires |outputs| == 3
    ensures TotalSats(outputs) == outputs[0].amount + outputs[1].amount + outputs[2].amount
  {
    assert outputs[..2][..1] == outputs[..1] && outputs[..1][..0] == [];
    assert TotalSats(outputs[..1]) == outputs[0].amount;
    assert TotalSats(outputs[..2]) == outputs[0].amount + outputs[1].amount;
  }

  lemma TotalOfFour(outputs: seq<Output>)
    requires |outputs| == 4
    ensures TotalSats(outputs) == outputs[0].amount + outputs[1].amount + outputs[2].amount + outputs[3].amount
  {
    TotalOfThree(outputs[..3]);
  }

  /**
   * A recycle pays the operator exactly `operatorSats` and the receiver covenant plus funding less
   * that; sats balance; every unit of both inputs is taken and goes to the receiver's output, but
   * for the asset fare at output 0.
   */
  lemma RecycledMeans(w: Watch, s: Spend, id: AssetId, at: nat)
    requires Classify(w, s) == Recycled
    ensures |s.outputs| == 4 && s.second.Some? && s.outputs[2].script.Extension?
    ensures s.outputs[0].amount == OperatorSats(w.params)
    ensures s.outputs[0].script == PayoutScript(w.params.operatorKey, OperatorSats(w.params), w.params.dust)
    ensures s.outputs[1]
            == Output(Program(w.params.receiverKey),
              LockupSats(w.params) + s.second.value.value - OperatorSats(w.params))
    ensures TotalSats(s.outputs) == LockupSats(w.params) + s.second.value.value
    ensures Taken(s.outputs[2], id, at)
            == if at == 0 then UnitsOf(s.holdings, id) else if at == 1 then UnitsOf(s.second.value.holdings, id) else 0
    ensures var fare := RecycleAssetFare(w.params);
            var paid := if fare.Some? && fare.value.id == id then fare.value.units else 0;
            Allocated(s.outputs[2], id, at)
            == if at == 0 then paid
               else if at == 1 then UnitsOf(s.holdings, id) + UnitsOf(s.second.value.holdings, id) - paid else 0
  {
    hide SelectedLeaf, ExactHeader, PacketOf, C.UnitsAtPlace, C.AllIn, C.AllOut, Names, UnitsOf, C.UnitsIn, Flat;
    var sources := [s.holdings, s.second.value.holdings];
    TwoSources(s.holdings, s.second.value.holdings, id);
    var fare := RecycleAssetFare(w.params);
    if fare.Some? && fare.value.id == id { ExpectedNames(w, id); }
    PacketConserves(sources, 1, fare, id, at);
    TotalOfFour(s.outputs);
    hide WellHeld, UniqueNames, TotalSats;
  }

  lemma ExpectedNames(w: Watch, id: AssetId)
    requires ExpectedHoldings(w).Some? && w.params.assetId == Some(id)
    ensures Names(ExpectedHoldings(w).value, id)
  {
    assert ExpectedHoldings(w).value[0].assetId == id;
  }

  /** A refund pays the operator the loan, and input 1's own script the exact remainder and every unit. */
  lemma RefundedMeans(w: Watch, s: Spend, id: AssetId, at: nat)
    requires Classify(w, s) == Refunded
    ensures |s.outputs| >= 2 && s.second.Some?
    ensures s.outputs[0].amount == LoanSats(w.params)
    ensures s.outputs[0].script == PayoutScript(w.params.operatorKey, LoanSats(w.params), w.params.dust)
    ensures s.outputs[1].script == s.second.value.script
    ensures s.outputs[0].amount + s.outputs[1].amount == LockupSats(w.params) + s.second.value.value
    ensures exists e :: 0 <= e < |s.outputs| && s.outputs[e].script.Extension? && s.outputs[e].amount == 0
                        && (forall j :: 0 <= j < |s.outputs| && j != e ==> !IsExtension(s.outputs[j].script))
                        && Taken(s.outputs[e], id, at)
                           == (if at == 0 then UnitsOf(s.holdings, id)
                             else if at == 1 then UnitsOf(s.second.value.holdings, id) else 0)
                        && Allocated(s.outputs[e], id, at)
                           == (if at == 1 then UnitsOf(s.holdings, id) + UnitsOf(s.second.value.holdings, id) else 0)
  {
    hide SelectedLeaf, ExactHeader, PacketOf, C.UnitsAtPlace, C.AllIn, C.AllOut, Names, UnitsOf, C.UnitsIn, Flat;
    TwoSources(s.holdings, s.second.value.holdings, id);
    PacketConserves([s.holdings, s.second.value.holdings], 1, None, id, at);
    SoleIsOnly(s.outputs, ExtensionAt);
    hide WellHeld, UniqueNames, Sole;
    var e := Sole(s.outputs, ExtensionAt).value;
    assert forall j :: 0 <= j < |s.outputs| && j != e ==> !ExtensionAt(s.outputs[j]);
  }

  lemma SoleIsOnly(outputs: seq<Output>, matches: Output -> bool)
    requires Sole(outputs, matches).Some?
    ensures forall j :: 0 <= j < |outputs| && j != Sole(outputs, matches).value ==> !matches(outputs[j])
  {
    var found := Matching(outputs, matches);
    forall j | 0 <= j < |outputs| && j != found[0] ensures !matches(outputs[j]) {
      assert j !in found;
    }
  }

  /** A recovery pays the operator the whole lockup, never before its locktime. */
  lemma RecoveredMeans(w: Watch, s: Spend, id: AssetId, at: nat)
    requires Classify(w, s) == Recovered
    ensures s.outputs != []
            && s.outputs[0]
               == Output(PayoutScript(w.params.operatorKey, LockupSats(w.params), w.params.dust), LockupSats(w.params))
    ensures w.recoveryLocktime.Some? && s.ark.lockTime <= w.recoveryLocktime.value && s.ark.lockTime <= w.tipTime
    ensures exists e :: 0 <= e < |s.outputs| && s.outputs[e].script.Extension?
                        && Taken(s.outputs[e], id, at) == (if at == 0 then UnitsOf(s.holdings, id) else 0)
                        && Allocated(s.outputs[e], id, at) == (if at == 0 then UnitsOf(s.holdings, id) else 0)
  {
    hide SelectedLeaf, ExactHeader, PacketOf, C.UnitsAtPlace, C.AllIn, C.AllOut, UnitsOf;
    PacketConserves([s.holdings], 0, None, id, at);
    OneSource(s.holdings, id);
    hide WellHeld, UniqueNames, Sole;
    var e := Sole(s.outputs, ExtensionAt).value;
  }
}
