// The output layout of a joint funding transaction: `validateLockup` of
// packages/client/src/lockup.ts and `validateSponsoredPayment` of packages/client/src/sponsored.ts,
// which differ only in the amounts collected in `Terms`.
module JointLayout {
  import opened Prelude
  import opened Assets
  import opened SpendPacket
  import opened CovenantSpend
  import Canonical
  import F = FillGraph
  import C = FillConservation

  datatype JointFare = InSats(units: int) | InUnits(units: int, assetId: Option<AssetId>)

  datatype Terms = Terms(
    first: Output,                   // the covenant, or the payment to the receiver
    contribution: int,               // what the operator puts in: topup, or contribution
    assetHosting: int,               // sats under an asset fare
    floor: int, dust: int, vtxoMin: int,
    operatorKey: Key, operatorTreeKey: Key, senderTreeKey: Key,
    fare: JointFare, senderPaysFare: bool,
    paymentId: Option<AssetId>, assetUnits: Option<int>,
    declaredUnits: Option<int>)      // the envelope's

  datatype Input = Input(value: int, assets: seq<Holding>)

  /** `validateLockup`: an asset fare rides on a whole dust unit, which is also the floor. */
  function LockupTerms(p: Params, covenant: Script, rest: Terms): Terms {
    rest.(first := Output(covenant, LockupSats(p)), contribution := p.topup, assetHosting := p.dust, floor := p.dust,
          dust := p.dust, paymentId := p.assetId)
  }

  /** `validateSponsoredPayment`: an asset fare rides on the provider minimum, which is also the floor. */
  function SponsoredTerms(
    dust: int, paymentSats: Option<int>, contribution: int, receiver: Script, rest: Terms): Terms
  {
    rest.(first := Output(receiver, dust + if paymentSats.Some? then paymentSats.value else 0),
      contribution := contribution,
          assetHosting := rest.vtxoMin, floor := rest.vtxoMin, dust := dust)
  }

  datatype Reject =
    | OwnersMissing | FarePayerInvalid | FundingInsufficient | PaymentAssetMissing | QuantityDiffers | QuantityInvalid
    | FareAssetMissing | HostingMissing | BelowFloor | SharedScript | SatsUnbalanced | AssetsUnbalanced

  datatype Layout = Layout(outputs: seq<Output>, groups: seq<F.Group>)

  // ------------------------------------------------------------------ amounts

  function Sats(inputs: seq<Input>): int {
    if inputs == [] then 0 else Sats(inputs[..|inputs| - 1]) + inputs[|inputs| - 1].value
  }

  function FareHosting(t: Terms): int {
    if t.fare.units == 0 then 0 else match t.fare { case InSats(units) => units case InUnits(_, _) => t.assetHosting }
  }

  function SenderFare(t: Terms): int { if t.senderPaysFare then FareHosting(t) else 0 }

  function SenderChange(t: Terms, sender: seq<Input>): int {
    Sats(sender) + t.contribution - t.first.amount - SenderFare(t)
  }

  function OperatorChange(t: Terms, operator: seq<Input>): int {
    Sats(operator) - t.contribution - (FareHosting(t) - SenderFare(t))
  }

  /** Fare and operator change go to one output when they would pay the same script. */
  predicate MergesChange(t: Terms, operatorChange: int) {
    && FareHosting(t) > 0 && operatorChange > 0
    && PayoutScript(t.operatorKey, FareHosting(t), t.dust) == PayoutScript(t.operatorTreeKey, operatorChange, t.dust)
  }

  function FareOutputs(t: Terms, operatorChange: int): seq<Output> {
    var amount := if MergesChange(t, operatorChange) then FareHosting(t) + operatorChange else FareHosting(t);
    if FareHosting(t) > 0 then [Output(PayoutScript(t.operatorKey, amount, t.dust), amount)] else []
  }

  function SenderOutputs(t: Terms, senderChange: int, needsChange: bool): seq<Output> {
    if senderChange > 0 || needsChange then [Output(PayoutScript(t.senderTreeKey, senderChange, t.dust), senderChange)]
      else []
  }

  function OperatorOutputs(t: Terms, operatorChange: int): seq<Output> {
    if operatorChange > 0 && !MergesChange(t, operatorChange) then
      [Output(PayoutScript(t.operatorTreeKey, operatorChange, t.dust), operatorChange)]
    else []
  }

  function OutputsOf(t: Terms, senderChange: int, operatorChange: int, needsChange: bool): seq<Output> {
    [t.first] + FareOutputs(t, operatorChange) + SenderOutputs(t, senderChange, needsChange)
      + OperatorOutputs(t, operatorChange)
  }

  // ------------------------------------------------------------------- assets

  function AssetsOf(inputs: seq<Input>): (r: seq<seq<Holding>>)
    ensures |r| == |inputs| && forall i :: 0 <= i < |r| ==> r[i] == inputs[i].assets
  {
    seq(|inputs|, i requires 0 <= i < |inputs| => inputs[i].assets)
  }

  function FareId(t: Terms): Option<AssetId> { match t.fare { case InSats(_) => None case InUnits(_, id) => id } }

  function FareUnits(t: Terms, id: AssetId): int { if FareId(t) == Some(id) then t.fare.units else 0 }

  function PaymentUnits(t: Terms, id: AssetId, total: int): int {
    if t.paymentId != Some(id) then 0 else if t.assetUnits.Some? then t.assetUnits.value else total - FareUnits(t, id)
  }

  predicate QuantityFits(t: Terms, id: AssetId, total: int) {
    var fare, payment := FareUnits(t, id), PaymentUnits(t, id, total);
    total >= fare && payment >= 0 && payment + fare <= total && (t.paymentId == Some(id) ==> payment != 0)
  }

  predicate LeavesChange(t: Terms, id: AssetId, total: int) { total > FareUnits(t, id) + PaymentUnits(t, id, total) }

  predicate AllFit(t: Terms, all: seq<Holding>, ids: seq<AssetId>) {
    forall i :: 0 <= i < |ids| ==> QuantityFits(t, ids[i], UnitsOf(all, ids[i]))
  }

  predicate AnyChange(t: Terms, all: seq<Holding>, ids: seq<AssetId>) {
    exists i :: 0 <= i < |ids| && LeavesChange(t, ids[i], UnitsOf(all, ids[i]))
  }

  /** What one asset allocates: fare at output 1, payment at 0, change at the sender's output. */
  function Allocation(t: Terms, id: AssetId, total: int, changeVout: Option<nat>): map<nat, int> {
    var fare, payment := FareUnits(t, id), PaymentUnits(t, id, total);
    var owed := (if fare != 0 then map[1 := fare] else map[]) + (if payment != 0 then map[0 := payment] else map[]);
    if changeVout.Some? && total - fare - payment != 0 then owed[changeVout.value := total - fare - payment] else owed
  }

  /** Entries of an allocation in output order. */
  function Entries(allocation: map<nat, int>, n: nat): seq<F.AssetOutput> {
    if n == 0 then []
    else Entries(allocation, n - 1) + if n - 1 in allocation then [F.AssetOutput(n - 1, allocation[n - 1])] else []
  }

  function SumTo(allocation: map<nat, int>, n: nat): int {
    if n == 0 then 0 else SumTo(allocation, n - 1) + if n - 1 in allocation then allocation[n - 1] else 0
  }

  /** No allocation names an output past the sender's change. */
  const VOUTS: nat := 3

  function GroupOf(t: Terms, sources: seq<seq<Holding>>, id: AssetId, changeVout: Option<nat>): F.Group {
    F.Group(Some(id), InputsFor(sources, id), Entries(Allocation(t, id, UnitsOf(Flat(sources), id), changeVout), VOUTS))
  }

  function GroupsOf(t: Terms, sources: seq<seq<Holding>>, ids: seq<AssetId>, changeVout: Option<nat>): (r: seq<F.Group>)
    ensures |r| == |ids| && forall i :: 0 <= i < |r| ==> r[i] == GroupOf(t, sources, ids[i], changeVout)
  {
    seq(|ids|, i requires 0 <= i < |ids| => GroupOf(t, sources, ids[i], changeVout))
  }

  predicate AllBalanced(t: Terms, all: seq<Holding>, ids: seq<AssetId>, changeVout: Option<nat>) {
    forall i :: 0 <= i < |ids| ==>
      SumTo(Allocation(t, ids[i], UnitsOf(all, ids[i]), changeVout), VOUTS) == UnitsOf(all, ids[i])
  }

  predicate SharesScript(outputs: seq<Output>) {
    exists i, j :: 0 <= i < j < |outputs| && outputs[i].script == outputs[j].script
  }

  predicate AnyBelow(outputs: seq<Output>, floor: int) { exists i :: 0 <= i < |outputs| && outputs[i].amount < floor }

  /** What the envelope must declare. */
  function ExpectedUnits(t: Terms, all: seq<Holding>): Option<int> {
    if t.paymentId.None? then t.assetUnits
    else Some(PaymentUnits(t, t.paymentId.value, UnitsOf(all, t.paymentId.value)))
  }

  function ChangeVout(t: Terms, senderChange: int, needsChange: bool): Option<nat> {
    if senderChange > 0 || needsChange then Some(if FareHosting(t) > 0 then 2 else 1) else None
  }

  // ------------------------------------------------------------- specification

  /** The checks that come before anything is laid out. */
  function EarlyReject(
    t: Terms, sender: seq<Input>, operator: seq<Input>, all: seq<Holding>, ids: seq<AssetId>): Option<Reject>
  {
    var senderChange, operatorChange := SenderChange(t, sender), OperatorChange(t, operator);
    if sender == [] || operator == [] then Some(OwnersMissing)
    else if t.senderPaysFare && !(t.fare.InSats? && t.fare.units > 0) then Some(FarePayerInvalid)
    else if senderChange < 0 || operatorChange < 0 then Some(FundingInsufficient)
    else if t.paymentId.Some? && t.paymentId.value !in ids then Some(PaymentAssetMissing)
    else if t.declaredUnits != ExpectedUnits(t, all) then Some(QuantityDiffers)
    else if !AllFit(t, all, ids) then Some(QuantityInvalid)
    else if FareId(t).Some? && t.fare.units != 0 && FareId(t).value !in ids then Some(FareAssetMissing)
    else if AnyChange(t, all, ids) && senderChange < t.vtxoMin then Some(HostingMissing)
    else None
  }

  /** The layout, with every refusal of the source in its order. */
  function LayoutOf(t: Terms, sender: seq<Input>, operator: seq<Input>): Result<Layout, Reject> {
    var sources := AssetsOf(sender + operator);
    var all := Flat(sources);
    var ids := Canonical.Sort(NewIds(all));
    var early := EarlyReject(t, sender, operator, all, ids);
    if early.Some? then Err(early.value)
    else
      var needsChange := AnyChange(t, all, ids);
      var senderChange := SenderChange(t, sender);
      var outputs := OutputsOf(t, senderChange, OperatorChange(t, operator), needsChange);
      var changeVout := ChangeVout(t, senderChange, needsChange);
      if AnyBelow(outputs, t.floor) then Err(BelowFloor)
      else if SharesScript(outputs) then Err(SharedScript)
      else if TotalSats(outputs) != Sats(sender + operator) then Err(SatsUnbalanced)
      else if !AllBalanced(t, all, ids, changeVout) then Err(AssetsUnbalanced)
      else Ok(Layout(outputs, GroupsOf(t, sources, ids, changeVout)))
  }

  // ------------------------------------------------------------- the validator

  lemma NothingAbove(allocation: map<nat, int>, n: nat, m: nat)
    requires n <= m && forall v :: v in allocation ==> v < n
    ensures SumTo(allocation, m) == SumTo(allocation, n)
    decreases m
  {
    if n < m { NothingAbove(allocation, n, m - 1); }
  }

  lemma {:induction false} SumWithout(allocation: map<nat, int>, v: nat, n: nat)
    requires v in allocation && v < n
    ensures SumTo(allocation, n) == SumTo(allocation - {v}, n) + allocation[v]
  {
    if v < n - 1 { SumWithout(allocation, v, n - 1); } else { SumUnchanged(allocation, v, n - 1); }
  }

  lemma {:induction false} SumUnchanged(allocation: map<nat, int>, v: nat, n: nat)
    requires n <= v
    ensures SumTo(allocation, n) == SumTo(allocation - {v}, n)
  {
    if n > 0 { SumUnchanged(allocation, v, n - 1); }
  }

  lemma {:induction false} SumOfNothing(n: nat)
    ensures SumTo(map[], n) == 0
  {
    if n > 0 { SumOfNothing(n - 1); }
  }

  /** `[...allocation.values()].reduce(...)`. */
  method SumValues(allocation: map<nat, int>, ghost n: nat) returns (units: int)
    requires forall v :: v in allocation ==> v < n
    ensures units == SumTo(allocation, n)
  {
    units := 0;
    var rest := allocation;
    while rest != map[]
      invariant rest.Keys <= allocation.Keys && forall v :: v in rest ==> v < n && rest[v] == allocation[v]
      invariant units + SumTo(rest, n) == SumTo(allocation, n)
      decreases |rest.Keys|
    {
      var v :| v in rest.Keys;
      SumWithout(rest, v, n);
      units := units + rest[v];
      rest := rest - {v};
    }
    SumOfNothing(n);
  }

  /** The first loop over totals: fare and payment of each asset, or a refusal. */
  method Allocate(t: Terms, totals: map<AssetId, int>, ids: seq<AssetId>, ghost all: seq<Holding>)
    returns (ok: bool, destinations: map<AssetId, map<nat, int>>, needsChange: bool)
    requires forall i :: 0 <= i < |ids| ==> ids[i] in totals && totals[ids[i]] == UnitsOf(all, ids[i])
    ensures ok <==> AllFit(t, all, ids)
    ensures ok ==> (needsChange <==> AnyChange(t, all, ids))
    ensures ok ==> forall i :: 0 <= i < |ids| ==>
              ids[i] in destinations && destinations[ids[i]] == Allocation(t, ids[i], UnitsOf(all, ids[i]), None)
  {
    hide UnitsOf;
    destinations, needsChange := map[], false;
    for i := 0 to |ids|
      invariant forall k :: 0 <= k < i ==> QuantityFits(t, ids[k], UnitsOf(all, ids[k]))
      invariant needsChange <==> exists k :: 0 <= k < i && LeavesChange(t, ids[k], UnitsOf(all, ids[k]))
      invariant forall k :: 0 <= k < i ==>
        ids[k] in destinations && destinations[ids[k]] == Allocation(t, ids[k], UnitsOf(all, ids[k]), None)
    {
      var id, total := ids[i], totals[ids[i]];
      var fare := FareUnits(t, id);
      if total < fare { return false, destinations, needsChange; }
      var allocation: map<nat, int> := map[];
      if fare != 0 { allocation := allocation[1 := fare]; }
      var payment := PaymentUnits(t, id, total);
      if payment < 0 || payment + fare > total || (t.paymentId == Some(id) && payment == 0) {
        return false, destinations, needsChange;
      }
      if payment != 0 { allocation := allocation[0 := payment]; }
      assert allocation == Allocation(t, id, total, None);
      needsChange := needsChange || total > fare + payment;
      destinations := destinations[id := allocation];
    }
    return true, destinations, needsChange;
  }

  lemma OwedSum(t: Terms, id: AssetId, total: int, n: nat)
    requires n >= 2
    ensures SumTo(Allocation(t, id, total, None), n) == FareUnits(t, id) + PaymentUnits(t, id, total)
  {
    var owed := Allocation(t, id, total, None);
    NothingAbove(owed, 2, n);
    assert SumTo(owed, 2) == SumTo(owed, 1) + (if 1 in owed then owed[1] else 0);
  }

  /** The second loop: what is left of each asset goes to the sender's output. */
  method AddChange(
    t: Terms, totals: map<AssetId, int>, ids: seq<AssetId>, destinations: map<AssetId, map<nat, int>>, index: nat,
    ghost all: seq<Holding>)
    returns (r: map<AssetId, map<nat, int>>)
    requires Distinct(ids)
    requires forall i :: 0 <= i < |ids| ==> ids[i] in totals && totals[ids[i]] == UnitsOf(all, ids[i])
    requires forall i :: 0 <= i < |ids| ==>
      ids[i] in destinations && destinations[ids[i]] == Allocation(t, ids[i], UnitsOf(all, ids[i]), None)
    ensures forall i :: 0 <= i < |ids| ==>
              ids[i] in r && r[ids[i]] == Allocation(t, ids[i], UnitsOf(all, ids[i]), Some(index))
  {
    hide UnitsOf, Allocation;
    r := destinations;
    for i := 0 to |ids|
      invariant forall k :: 0 <= k < |ids| ==>
        ids[k] in r && r[ids[k]] == Allocation(t, ids[k], UnitsOf(all, ids[k]), if k < i then Some(index) else None)
    {
      var id, total := ids[i], totals[ids[i]];
      OwedVouts(t, id, total);
      var spent := SumValues(r[id], 2);
      OwedSum(t, id, total, 2);
      var change := total - spent;
      OneAllocation(t, id, total, index, r[id]);
      var allocation: map<nat, int> := r[id];
      if change != 0 { allocation := allocation[index := change]; }
      r := r[id := allocation];
    }
  }

  lemma OwedVouts(t: Terms, id: AssetId, total: int)
    ensures forall v :: v in Allocation(t, id, total, None) ==> v < 2
  {
  }

  lemma OneAllocation(t: Terms, id: AssetId, total: int, index: nat, owed: map<nat, int>)
    requires owed == Allocation(t, id, total, None)
    ensures var change := total - FareUnits(t, id) - PaymentUnits(t, id, total);
            Allocation(t, id, total, Some(index)) == if change != 0 then owed[index := change] else owed
  {
  }

  method SumSats(inputs: seq<Input>) returns (sats: int)
    ensures sats == Sats(inputs)
  {
    sats := 0;
    for i := 0 to |inputs|
      invariant sats == Sats(inputs[..i])
    {
      assert inputs[..i + 1][..i] == inputs[..i];
      sats := sats + inputs[i].value;
    }
    assert inputs[..|inputs|] == inputs;
  }

  method SumOutputs(outputs: seq<Output>) returns (sats: int)
    ensures sats == TotalSats(outputs)
  {
    sats := 0;
    for i := 0 to |outputs|
      invariant sats == TotalSats(outputs[..i])
    {
      assert outputs[..i + 1][..i] == outputs[..i];
      sats := sats + outputs[i].amount;
    }
    assert outputs[..|outputs|] == outputs;
  }

  /** The packet groups, refused where an allocation does not sum to its total. */
  method BuildGroups(
    t: Terms, sources: seq<seq<Holding>>, totals: map<AssetId, int>, ids: seq<AssetId>,
    destinations: map<AssetId, map<nat, int>>,
    changeVout: Option<nat>)
    returns (groups: Option<seq<F.Group>>)
    requires changeVout.Some? ==> changeVout.value < VOUTS
    requires forall i :: 0 <= i < |ids| ==> ids[i] in totals && totals[ids[i]] == UnitsOf(Flat(sources), ids[i])
    requires forall i :: 0 <= i < |ids| ==>
      ids[i] in destinations
        && destinations[ids[i]] == Allocation(t, ids[i], UnitsOf(Flat(sources), ids[i]), changeVout)
    ensures groups == if AllBalanced(t, Flat(sources), ids, changeVout) then Some(GroupsOf(t, sources, ids, changeVout))
            else None
  {
    hide UnitsOf, Flat, InputsFor, Entries, SumTo;
    var built: seq<F.Group> := [];
    for i := 0 to |ids|
      invariant forall k :: 0 <= k < i ==>
        SumTo(Allocation(t, ids[k], UnitsOf(Flat(sources), ids[k]), changeVout), VOUTS)
          == UnitsOf(Flat(sources), ids[k])
      invariant built == GroupsOf(t, sources, ids[..i], changeVout)
    {
      var allocation := destinations[ids[i]];
      assert forall v :: v in allocation ==> v < VOUTS;
      var spent := SumValues(allocation, VOUTS);
      if spent != totals[ids[i]] { return None; }
      var inputs := InputsOf(sources, ids[i]);
      built := built + [F.Group(Some(ids[i]), inputs, Entries(allocation, VOUTS))];
      assert built == GroupsOf(t, sources, ids[..i + 1], changeVout);
    }
    assert ids[..|ids|] == ids;
    return Some(built);
  }

  /** Owners, fare payer, funding and asset quantities. */
  method CheckTerms(
    t: Terms, sender: seq<Input>, operator: seq<Input>, totals: map<AssetId, int>, ids: seq<AssetId>,
    ghost all: seq<Holding>)
    returns (early: Option<Reject>, destinations: map<AssetId, map<nat, int>>, needsChange: bool)
    requires forall id :: id in ids <==> id in totals
    requires forall id :: id in totals ==> totals[id] == UnitsOf(all, id)
    ensures early == EarlyReject(t, sender, operator, all, ids)
    ensures early.None? ==>
              && needsChange == AnyChange(t, all, ids)
              && forall i :: 0 <= i < |ids| ==>
                   ids[i] in destinations && destinations[ids[i]] == Allocation(t, ids[i], UnitsOf(all, ids[i]), None)
  {
    hide Sats, UnitsOf, Allocation, AllFit, AnyChange, FareHosting;
    destinations, needsChange := map[], false;
    if sender == [] || operator == [] { return Some(OwnersMissing), destinations, needsChange; }
    if t.senderPaysFare && !(t.fare.InSats? && t.fare.units > 0) {
      return Some(FarePayerInvalid), destinations, needsChange;
    }
    var fareHosting := FareHosting(t);
    var senderFare := if t.senderPaysFare then fareHosting else 0;
    var senderSats := SumSats(sender);
    var operatorSats := SumSats(operator);
    var senderChange := senderSats + t.contribution - t.first.amount - senderFare;
    var operatorChange := operatorSats - t.contribution - (fareHosting - senderFare);
    if senderChange < 0 || operatorChange < 0 { return Some(FundingInsufficient), destinations, needsChange; }
    if t.paymentId.Some? && t.paymentId.value !in totals {
      return Some(PaymentAssetMissing), destinations, needsChange;
    }
    var expected := if t.paymentId.None? then t.assetUnits
      else Some(PaymentUnits(t, t.paymentId.value, totals[t.paymentId.value]));
    if t.declaredUnits != expected { return Some(QuantityDiffers), destinations, needsChange; }
    forall i | 0 <= i < |ids| ensures ids[i] in totals && totals[ids[i]] == UnitsOf(all, ids[i]) {
      assert ids[i] in ids;
    }
    var ok;
    ok, destinations, needsChange := Allocate(t, totals, ids, all);
    if !ok { return Some(QuantityInvalid), destinations, needsChange; }
    if FareId(t).Some? && t.fare.units != 0 && FareId(t).value !in totals {
      return Some(FareAssetMissing), destinations, needsChange;
    }
    if needsChange && senderChange < t.vtxoMin { return Some(HostingMissing), destinations, needsChange; }
    return None, destinations, needsChange;
  }

  /** The value outputs, pushed in order, and where the sender's change went. */
  method PushOutputs(t: Terms, senderChange: int, operatorChange: int, needsChange: bool)
    returns (outputs: seq<Output>, changeVout: Option<nat>)
    ensures outputs == OutputsOf(t, senderChange, operatorChange, needsChange)
    ensures changeVout == ChangeVout(t, senderChange, needsChange) && (changeVout.Some? ==> changeVout.value < VOUTS)
  {
    hide PayoutScript;
    outputs, changeVout := [t.first], None;
    var fareHosting := FareHosting(t);
    var mergeChange := MergesChange(t, operatorChange);
    if fareHosting > 0 {
      var farePayout := if mergeChange then fareHosting + operatorChange else fareHosting;
      outputs := outputs + [Output(PayoutScript(t.operatorKey, farePayout, t.dust), farePayout)];
    }
    assert outputs == [t.first] + FareOutputs(t, operatorChange);
    if senderChange > 0 || needsChange {
      changeVout := Some(|outputs|);
      outputs := outputs + [Output(PayoutScript(t.senderTreeKey, senderChange, t.dust), senderChange)];
    }
    if operatorChange > 0 && !mergeChange {
      outputs := outputs + [Output(PayoutScript(t.operatorTreeKey, operatorChange, t.dust), operatorChange)];
    }
  }

  /** The layout the quoted transaction must have, or the first refusal. */
  method ValidateLayout(t: Terms, sender: seq<Input>, operator: seq<Input>) returns (r: Result<Layout, Reject>)
    ensures r == LayoutOf(t, sender, operator)
  {
    hide Sats, TotalSats, UnitsOf, Flat, NewIds, Names, Canonical.Sort, Allocation, AllFit, AnyChange, AllBalanced,
      GroupsOf, AnyBelow, SharesScript, OutputsOf, EarlyReject, SenderChange, OperatorChange, ChangeVout;
    var sources := AssetsOf(sender + operator);
    ghost var all := Flat(sources);
    var held := FlattenSources(sources);
    var totals := Totals(held);
    var ids := SortedKeys(totals, all);
    SortedIds(all, ids, totals);
    var early, destinations, needsChange := CheckTerms(t, sender, operator, totals, ids, all);
    if early.Some? { return Err(early.value); }
    var senderChange, operatorChange := SenderChange(t, sender), OperatorChange(t, operator);
    var outputs, changeVout := PushOutputs(t, senderChange, operatorChange, needsChange);
    forall i | 0 <= i < |ids| ensures ids[i] in totals && totals[ids[i]] == UnitsOf(all, ids[i]) {
      assert ids[i] in ids;
    }
    if changeVout.Some? { destinations := AddChange(t, totals, ids, destinations, changeVout.value, all); }
    if AnyBelow(outputs, t.floor) { return Err(BelowFloor); }
    if SharesScript(outputs) { return Err(SharedScript); }
    var paid := SumOutputs(outputs);
    var funded := SumSats(sender + operator);
    if paid != funded { return Err(SatsUnbalanced); }
    var groups := BuildGroups(t, sources, totals, ids, destinations, changeVout);
    if groups.None? { return Err(AssetsUnbalanced); }
    return Ok(Layout(outputs, groups.value));
  }

  lemma SortedIds(all: seq<Holding>, ids: seq<AssetId>, totals: map<AssetId, int>)
    requires ids == Canonical.Sort(NewIds(all)) && forall id :: id in totals <==> Names(all, id)
    ensures Distinct(ids) && forall id :: id in ids <==> id in totals
  {
    hide Names, NewIds;
    NewIdsFacts(all, []);
    Canonical.SortKeeps(NewIds(all));
    Canonical.SortAscends(NewIds(all));
    forall i, j | 0 <= i < j < |ids| ensures ids[i] != ids[j] { Canonical.BeforeIsTotal(ids[i], ids[j]); }
    forall id ensures id in NewIds(all) <==> Names(all, id) { NewIdsFacts(all, id); }
  }

  // ---------------------------------------------------------------- theorems

  lemma {:induction false} TotalSatsConcat(a: seq<Output>, b: seq<Output>)
    ensures TotalSats(a + b) == TotalSats(a) + TotalSats(b)
  {
    if b == [] {
      assert a + b == a;
    } else {
      assert (a + b)[..|a + b| - 1] == a + b[..|b| - 1];
      TotalSatsConcat(a, b[..|b| - 1]);
    }
  }

  lemma {:induction false} SatsConcat(a: seq<Input>, b: seq<Input>)
    ensures Sats(a + b) == Sats(a) + Sats(b)
  {
    if b == [] {
      assert a + b == a;
    } else {
      assert (a + b)[..|a + b| - 1] == a + b[..|b| - 1];
      SatsConcat(a, b[..|b| - 1]);
    }
  }

  lemma OneOutput(output: Output)
    ensures TotalSats([output]) == output.amount
  {
    assert [output][..0] == [];
  }

  /** What the operator's outputs are worth, merged or not. */
  lemma OperatorIsPaid(t: Terms, operatorChange: int)
    requires operatorChange >= 0 && FareHosting(t) >= 0
    ensures TotalSats(FareOutputs(t, operatorChange)) + TotalSats(OperatorOutputs(t, operatorChange))
            == FareHosting(t) + operatorChange
  {
    hide PayoutScript;
    if FareHosting(t) > 0 { OneOutput(FareOutputs(t, operatorChange)[0]); }
    if OperatorOutputs(t, operatorChange) != [] { OneOutput(OperatorOutputs(t, operatorChange)[0]); }
  }

  lemma NegativeHosting(t: Terms, operatorChange: int)
    requires operatorChange >= 0 && FareHosting(t) < 0
    ensures TotalSats(FareOutputs(t, operatorChange)) + TotalSats(OperatorOutputs(t, operatorChange)) == operatorChange
  {
    hide PayoutScript;
    if OperatorOutputs(t, operatorChange) != [] { OneOutput(OperatorOutputs(t, operatorChange)[0]); }
  }

  lemma OutputsTotal(t: Terms, senderChange: int, operatorChange: int, needsChange: bool)
    requires senderChange >= 0
    ensures TotalSats(OutputsOf(t, senderChange, operatorChange, needsChange))
            == t.first.amount + senderChange + TotalSats(FareOutputs(t, operatorChange))
              + TotalSats(OperatorOutputs(t, operatorChange))
  {
    assert TotalSats([]) == 0;
    hide PayoutScript, TotalSats;
    var first, fare := [t.first], FareOutputs(t, operatorChange);
    var change, rest := SenderOutputs(t, senderChange, needsChange), OperatorOutputs(t, operatorChange);
    TotalSatsConcat(first + fare + change, rest);
    TotalSatsConcat(first + fare, change);
    TotalSatsConcat(first, fare);
    OneOutput(t.first);
    if change != [] { OneOutput(change[0]); }
  }

  /**
   * Sats balance by construction in every branch: fare payer, merged change, asset change or none. The
   * one exception is a negative fare, whose hosting no output carries: the balance holds exactly when
   * the hosting amount is not negative.
   */
  lemma SatsBalance(t: Terms, sender: seq<Input>, operator: seq<Input>, needsChange: bool)
    requires SenderChange(t, sender) >= 0 && OperatorChange(t, operator) >= 0
    ensures TotalSats(OutputsOf(t, SenderChange(t, sender), OperatorChange(t, operator), needsChange))
            == Sats(sender + operator)
            <==> FareHosting(t) >= 0
  {
    hide Sats, TotalSats, FareOutputs, OperatorOutputs, OutputsOf;
    SatsConcat(sender, operator);
    OutputsTotal(t, SenderChange(t, sender), OperatorChange(t, operator), needsChange);
    if FareHosting(t) >= 0 {
      OperatorIsPaid(t, OperatorChange(t, operator));
    } else {
      NegativeHosting(t, OperatorChange(t, operator));
    }
  }

  /** Each asset's allocation sums to its total, and only names outputs that exist. */
  lemma AllocationBalances(t: Terms, id: AssetId, total: int, changeVout: Option<nat>, outputs: nat)
    requires QuantityFits(t, id, total)
    requires LeavesChange(t, id, total) ==> changeVout.Some?
    requires changeVout.Some? ==>
             changeVout.value < outputs <= VOUTS && changeVout.value == (if FareHosting(t) > 0 then 2 else 1)
    requires 1 <= outputs <= VOUTS && (FareHosting(t) > 0 ==> outputs >= 2)
    requires FareUnits(t, id) != 0 ==> FareHosting(t) > 0
    ensures forall v :: v in Allocation(t, id, total, changeVout) ==> v < outputs
    ensures SumTo(Allocation(t, id, total, changeVout), VOUTS) == total
  {
    var allocation := Allocation(t, id, total, changeVout);
    assert SumTo(allocation, 1) == if 0 in allocation then allocation[0] else 0;
    assert SumTo(allocation, 2) == SumTo(allocation, 1) + if 1 in allocation then allocation[1] else 0;
    assert SumTo(allocation, 3) == SumTo(allocation, 2) + if 2 in allocation then allocation[2] else 0;
  }

  lemma LayoutChecks(
    t: Terms, sender: seq<Input>, operator: seq<Input>, all: seq<Holding>, ids: seq<AssetId>, id: AssetId)
    requires EarlyReject(t, sender, operator, all, ids).None? && id in ids
    ensures QuantityFits(t, id, UnitsOf(all, id))
    ensures LeavesChange(t, id, UnitsOf(all, id)) ==> AnyChange(t, all, ids)
  {
    hide UnitsOf, Sats;
    var i :| 0 <= i < |ids| && ids[i] == id;
  }

  lemma OutputCount(t: Terms, senderChange: int, operatorChange: int, needsChange: bool)
    ensures |OutputsOf(t, senderChange, operatorChange, needsChange)| >= 1
    ensures FareHosting(t) > 0 ==> |OutputsOf(t, senderChange, operatorChange, needsChange)| >= 2
    ensures ChangeVout(t, senderChange, needsChange).Some? ==>
              ChangeVout(t, senderChange, needsChange).value < |OutputsOf(t, senderChange, operatorChange, needsChange)|
  {
    hide PayoutScript;
  }

  /** The outputs an allocation may name. */
  function Named(t: Terms, senderChange: int, needsChange: bool): nat {
    if ChangeVout(t, senderChange, needsChange).Some? then ChangeVout(t, senderChange, needsChange).value + 1
    else if FareHosting(t) > 0 then 2 else 1
  }

  lemma AssetBalance(
    t: Terms, sender: seq<Input>, operator: seq<Input>, all: seq<Holding>, ids: seq<AssetId>, id: AssetId)
    requires EarlyReject(t, sender, operator, all, ids).None? && id in ids && t.assetHosting > 0
    ensures var senderChange, needsChange := SenderChange(t, sender), AnyChange(t, all, ids);
            var allocation := Allocation(t, id, UnitsOf(all, id), ChangeVout(t, senderChange, needsChange));
            && SumTo(allocation, VOUTS) == UnitsOf(all, id)
            && forall v :: v in allocation ==>
               v < |OutputsOf(t, senderChange, OperatorChange(t, operator), needsChange)|
  {
    hide UnitsOf, Sats, SumTo, Allocation, OutputsOf;
    LayoutChecks(t, sender, operator, all, ids, id);
    var senderChange, needsChange := SenderChange(t, sender), AnyChange(t, all, ids);
    hide EarlyReject, AnyChange, SenderChange, QuantityFits, LeavesChange;
    OutputCount(t, senderChange, OperatorChange(t, operator), needsChange);
    AllocationBalances(t, id, UnitsOf(all, id), ChangeVout(t, senderChange, needsChange),
      Named(t, senderChange, needsChange));
  }

  /**
   * The final rejections never fire: with a positive asset hosting, a layout is never refused for its
   * assets, and it is refused for its sats only where the fare is negative.
   */
  lemma FinalRejectionsAreUnreachable(t: Terms, sender: seq<Input>, operator: seq<Input>)
    requires t.assetHosting > 0
    ensures LayoutOf(t, sender, operator) != Err(AssetsUnbalanced)
    ensures LayoutOf(t, sender, operator) == Err(SatsUnbalanced) ==> t.fare.InSats? && t.fare.units < 0
  {
    hide TotalSats, Sats, UnitsOf, Flat, NewIds, AllFit, AnyChange, GroupsOf, AnyBelow, SharesScript, OutputsOf,
      ChangeVout, Allocation, SumTo, Canonical.Sort;
    var all := Flat(AssetsOf(sender + operator));
    var ids := Canonical.Sort(NewIds(all));
    if EarlyReject(t, sender, operator, all, ids).None? {
      SatsBalance(t, sender, operator, AnyChange(t, all, ids));
      forall i | 0 <= i < |ids|
        ensures SumTo(Allocation(t, ids[i], UnitsOf(all, ids[i]),
                ChangeVout(t, SenderChange(t, sender), AnyChange(t, all, ids))), VOUTS)
                == UnitsOf(all, ids[i])
      {
        AssetBalance(t, sender, operator, all, ids, ids[i]);
      }
    }
  }

  lemma {:induction false} EntriesLegs(
    t: Terms, group: F.Group, id: AssetId, allocation: map<nat, int>, n: nat, at: nat)
    requires group.assetId == Some(id) && group.outputs == Entries(allocation, n)
    ensures C.UnitsAtPlace(C.OutLegs(group), id, at) == if at < n && at in allocation then allocation[at] else 0
    decreases n
  {
    if n > 0 {
      var before := group.(outputs := Entries(allocation, n - 1));
      EntriesLegs(t, before, id, allocation, n - 1, at);
      var more := if n - 1 in allocation then [C.Leg(id, n - 1, allocation[n - 1])] else [];
      assert C.OutLegs(group) == C.OutLegs(before) + more;
      C.PlacesOfConcat(C.OutLegs(before), more, id, at);
      if more != [] { C.OnePlace(more[0], id, at); }
      hide C.UnitsAtPlace, C.OutLegs, Entries;
    } else {
      assert C.OutLegs(group) == [];
    }
  }

  lemma {:induction false} EntriesTotal(group: F.Group, id: AssetId, allocation: map<nat, int>, n: nat)
    requires group.assetId == Some(id) && group.outputs == Entries(allocation, n)
    ensures C.UnitsAnywhere(C.OutLegs(group), id) == SumTo(allocation, n)
    decreases n
  {
    if n > 0 {
      var before := group.(outputs := Entries(allocation, n - 1));
      EntriesTotal(before, id, allocation, n - 1);
      var more := if n - 1 in allocation then [C.Leg(id, n - 1, allocation[n - 1])] else [];
      assert C.OutLegs(group) == C.OutLegs(before) + more;
      C.AnywhereOfConcat(C.OutLegs(before), more, id);
      if more != [] { C.OneUnit(more[0], id); }
      hide C.UnitsAnywhere, C.OutLegs, Entries;
    } else {
      assert C.OutLegs(group) == [];
    }
  }

  /**
   * An accepted layout: sats balance; the operator's outputs are worth what it put in less its
   * contribution plus a fare the sender pays; the first output is untouched.
   */
  lemma AcceptedLayoutPays(t: Terms, sender: seq<Input>, operator: seq<Input>, layout: Layout)
    requires LayoutOf(t, sender, operator) == Ok(layout)
    ensures TotalSats(layout.outputs) == Sats(sender) + Sats(operator)
    ensures layout.outputs != [] && layout.outputs[0] == t.first
    ensures TotalSats(FareOutputs(t, OperatorChange(t, operator)))
            + TotalSats(OperatorOutputs(t, OperatorChange(t, operator)))
            == Sats(operator) - t.contribution + SenderFare(t)
    ensures exists change :: |change| <= 1
              && layout.outputs
                 == [t.first] + FareOutputs(t, OperatorChange(t, operator)) + change
                   + OperatorOutputs(t, OperatorChange(t, operator))
              && TotalSats(change) == Sats(sender) + t.contribution - t.first.amount - SenderFare(t)
  {
    hide TotalSats, Sats, UnitsOf, Flat, NewIds, AllFit, AnyChange, GroupsOf, AnyBelow, SharesScript, AllBalanced,
      Canonical.Sort, FareOutputs, OperatorOutputs, FareHosting, ExpectedUnits;
    var all := Flat(AssetsOf(sender + operator));
    var needsChange := AnyChange(t, all, Canonical.Sort(NewIds(all)));
    SatsConcat(sender, operator);
    SatsBalance(t, sender, operator, needsChange);
    OperatorIsPaid(t, OperatorChange(t, operator));
    ChangeIsPaid(t, SenderChange(t, sender), needsChange);
    var change := SenderOutputs(t, SenderChange(t, sender), needsChange);
    assert |change| <= 1;
  }

  lemma ChangeIsPaid(t: Terms, senderChange: int, needsChange: bool)
    requires senderChange >= 0
    ensures TotalSats(SenderOutputs(t, senderChange, needsChange)) == senderChange
  {
    if SenderOutputs(t, senderChange, needsChange) != [] { OneOutput(SenderOutputs(t, senderChange, needsChange)[0]); }
  }

  /**
   * An accepted layout conserves every asset: the packet takes what each input holds, allocates the
   * same units over all, the fare to output 1 and the payment to output 0, and names no other output.
   */
  lemma AcceptedLayoutConserves(
    t: Terms, sender: seq<Input>, operator: seq<Input>, layout: Layout, i: nat, vin: nat, at: nat)
    requires LayoutOf(t, sender, operator) == Ok(layout) && t.assetHosting > 0
    requires forall v :: 0 <= v < |sender + operator| ==> UniqueNames((sender + operator)[v].assets)
    requires i < |layout.groups|
    ensures var sources, group, id := AssetsOf(sender + operator), layout.groups[i], F.IdOf(layout.groups[i]);
            && group.assetId == Some(id)
            && C.UnitsAtPlace(C.InLegs(group), id, vin) == (if vin < |sources| then UnitsOf(sources[vin], id) else 0)
            && C.UnitsAnywhere(C.OutLegs(group), id) == C.UnitsIn(sources, id)
            && (at >= |layout.outputs| ==> C.UnitsAtPlace(C.OutLegs(group), id, at) == 0)
            && (at == 0 ==> C.UnitsAtPlace(C.OutLegs(group), id, at) == PaymentUnits(t, id, C.UnitsIn(sources, id)))
            && (at == 1 && FareHosting(t) > 0 ==> C.UnitsAtPlace(C.OutLegs(group), id, at) == FareUnits(t, id))
  {
    hide TotalSats, Sats, UnitsOf, Flat, NewIds, AllFit, AnyChange, AnyBelow, SharesScript, AllBalanced,
      Canonical.Sort, OutputsOf, C.UnitsAtPlace, C.UnitsAnywhere, C.InLegs, C.OutLegs, C.UnitsIn, InputsFor, SumTo,
      Entries, UniqueNames, FareHosting, SenderChange, OperatorChange, ExpectedUnits;
    var sources := AssetsOf(sender + operator);
    var all := Flat(sources);
    var ids := Canonical.Sort(NewIds(all));
    var id, group := ids[i], layout.groups[i];
    var changeVout := ChangeVout(t, SenderChange(t, sender), AnyChange(t, all, ids));
    var allocation := Allocation(t, id, UnitsOf(all, id), changeVout);
    assert group == GroupOf(t, sources, id, changeVout);
    FlatUnits(sources, id);
    AssetBalance(t, sender, operator, all, ids, id);
    InputLegs(sources, id, group.outputs, vin);
    EntriesLegs(t, group, id, allocation, VOUTS, at);
    EntriesTotal(group, id, allocation, VOUTS);
    hide LayoutOf, EarlyReject, GroupsOf, GroupOf;
  }

  /** Every asset an input holds has its group in the packet. */
  lemma EveryAssetHasAGroup(t: Terms, sender: seq<Input>, operator: seq<Input>, layout: Layout, vin: nat, id: AssetId)
    requires LayoutOf(t, sender, operator) == Ok(layout)
    requires vin < |sender + operator| && Names((sender + operator)[vin].assets, id)
    ensures exists i :: 0 <= i < |layout.groups| && layout.groups[i].assetId == Some(id)
  {
    hide TotalSats, Sats, Flat, NewIds, AllFit, AnyChange, AnyBelow, SharesScript, AllBalanced, OutputsOf, InputsFor,
      Entries, EarlyReject, Names, Canonical.Sort, Allocation, UnitsOf, C.UnitsIn;
    var sources := AssetsOf(sender + operator);
    assert Names(sources[vin], id);
    FlatUnits(sources, id);
    NewIdsFacts(Flat(sources), id);
    Canonical.SortKeeps(NewIds(Flat(sources)));
    var ids := Canonical.Sort(NewIds(Flat(sources)));
    var i :| 0 <= i < |ids| && ids[i] == id;
    assert layout.groups[i].assetId == Some(id);
  }

  /** A negative sats fare, on plain coins, is refused only by the final balance check. */
  lemma NegativeFareDoesNotBalance(receiver: Script, operatorKey: Key, treeKey: Key, senderKey: Key)
    requires treeKey != senderKey && receiver != Program(treeKey) && receiver != Program(senderKey)
    ensures var t :=
            Terms(Output(receiver, 330), 330, 330, 330, 330, 330, operatorKey, treeKey, senderKey, InSats(-5), false,
              None, None, None);
            LayoutOf(t, [Input(10000, [])], [Input(1000, [])]) == Err(SatsUnbalanced)
  {
    var t := Terms(Output(receiver, 330), 330, 330, 330, 330, 330, operatorKey, treeKey, senderKey, InSats(-5), false,
      None, None, None);
    var sender, operator := [Input(10000, [])], [Input(1000, [])];
    assert sender[..0] == [] && operator[..0] == [];
    assert Sats(sender) == 10000 && Sats(operator) == 1000;
    var sources := AssetsOf(sender + operator);
    assert sources == [[], []] && sources[..1] == [[]] && sources[..1][..0] == [];
    assert Flat(sources[..1]) == Flat(sources[..1][..0]) + sources[..1][0] == [];
    assert Flat(sources) == Flat(sources[..1]) + sources[1] == [];
    SatsBalance(t, sender, operator, false);
    hide Sats, TotalSats, Flat;
    assert OutputsOf(t, 10000, 675, false)
        == [t.first, Output(Program(senderKey), 10000), Output(Program(treeKey), 675)];
  }

  predicate FareIsNatural(t: Terms) { t.fare.InSats? ==> t.fare.units >= 0 }

  /** Both callers meet the conditions: neither final rejection of the lockup can fire on valid terms. */
  lemma LockupAlwaysBalances(p: Params, covenant: Script, rest: Terms, sender: seq<Input>, operator: seq<Input>)
    requires ValidParams(p, rest.vtxoMin) && FareIsNatural(rest)
    ensures LayoutOf(LockupTerms(p, covenant, rest), sender, operator) !in {Err(SatsUnbalanced), Err(AssetsUnbalanced)}
  {
    hide LayoutOf;
    FinalRejectionsAreUnreachable(LockupTerms(p, covenant, rest), sender, operator);
  }

  lemma SponsoredAlwaysBalances(
    dust: int, paymentSats: Option<int>, contribution: int, receiver: Script, rest: Terms, sender: seq<Input>,
    operator: seq<Input>)
    requires rest.vtxoMin > 0 && FareIsNatural(rest)
    ensures LayoutOf(SponsoredTerms(dust, paymentSats, contribution, receiver, rest), sender, operator)
            !in {Err(SatsUnbalanced), Err(AssetsUnbalanced)}
  {
    hide LayoutOf;
    FinalRejectionsAreUnreachable(SponsoredTerms(dust, paymentSats, contribution, receiver, rest), sender, operator);
  }
}
