// packages/client/src/spend.ts: the transactions that `purchase`, `recycle` and `refund` build,
// with the covenant's amounts from packages/covenant/src/params.ts and pin.ts.
//
// A script is its meaning: the SDK's encodings are taken to be injective and disjoint.
module CovenantSpend {
  import opened Prelude
  import opened Assets
  import opened SpendPacket
  import F = FillGraph

  type Key = string

  datatype Script =
    | Program(key: Key)                                                // OP_1 and a 32-byte key
    | Return(key: Key)                                                 // the OP_RETURN form of a sub-dust payout
    | Extension(groups: seq<F.Group>, vin: nat, program: string)      // asset packet, then one emulator entry
    | OtherExtension(bytes: seq<nat>)                                  // any other packet set
    | Anchor
    | Other(bytes: seq<nat>)

  predicate IsOpReturn(script: Script) {
    script.Return? || IsExtension(script) || (script.Other? && script.bytes != [] && script.bytes[0] == 0x6a)
  }

  predicate IsExtension(script: Script) { script.Extension? || script.OtherExtension? }

  datatype Output = Output(script: Script, amount: int)

  function TotalSats(outputs: seq<Output>): int {
    if outputs == [] then 0 else TotalSats(outputs[..|outputs| - 1]) + outputs[|outputs| - 1].amount
  }

  const ANCHOR := Output(Anchor, 0)

  datatype Fare = SatsFare(sats: int) | UnitsFare(units: int)

  datatype Params = Params(
    receiverKey: Key, operatorKey: Key, dust: int, topup: int, paymentSats: Option<int>,
    assetId: Option<AssetId>, receiverFare: Option<Fare>)

  /** `validateParams`, as far as amounts go. */
  predicate ValidParams(p: Params, vtxoMin: int) {
    && 0 < p.dust && 0 < vtxoMin <= p.topup && p.topup == p.dust
    && (p.paymentSats.Some? ==> p.assetId.None? && p.paymentSats.value > 0)
    && (p.receiverFare.Some? ==>
          p.assetId.Some?
          && match p.receiverFare.value { case SatsFare(sats) => sats >= 0 case UnitsFare(units) => units >= 0 })
  }

  function LockupSats(p: Params): int { p.dust + if p.paymentSats.Some? then p.paymentSats.value else 0 }

  function LoanSats(p: Params): int { p.topup }

  function OperatorSats(p: Params): int {
    if p.receiverFare.Some? && p.receiverFare.value.SatsFare? then p.topup + p.receiverFare.value.sats else p.topup
  }

  /** The asset fare of a recycle, at output 0; none unless positive. */
  function RecycleAssetFare(p: Params): Option<AssetFare> {
    if p.receiverFare.Some? && p.receiverFare.value.UnitsFare? && p.receiverFare.value.units > 0 && p.assetId.Some? then
      Some(AssetFare(p.assetId.value, 0, p.receiverFare.value.units))
    else
      None
  }

  /** `payoutPkScript`. */
  function PayoutScript(key: Key, value: int, dust: int): Script { if value >= dust then Program(key) else Return(key) }

  datatype Leaf = Recycle | Purchase | RefundSender | Recovery

  /** A verified transfer; `programs` are the covenant programs its leaves run. */
  datatype State = State(params: Params, vtxoMin: int, holdings: seq<Holding>, programs: map<Leaf, string>)

  datatype Funding = Funding(value: int, script: Script, holdings: seq<Holding>)

  datatype Plan = Plan(leaf: Leaf, inputs: nat, outputs: seq<Output>, groups: seq<F.Group>)

  const MAX_SAFE_INTEGER := 9007199254740991

  /** `exactFundingInput`: a witness version 1 coin, at the pinned script where there is one. */
  predicate ExactFunding(funding: Funding, pinned: Option<Script>) {
    && funding.script.Program? && (pinned.Some? ==> funding.script == pinned.value)
    && 0 < funding.value <= MAX_SAFE_INTEGER && UniqueNames(funding.holdings)
  }

  function PurchasePlan(s: State, destination: Script): Option<Plan> {
    if destination != Program(s.params.receiverKey) || LockupSats(s.params) < s.vtxoMin then None
    else Some(Plan(Purchase, 1, [Output(destination, LockupSats(s.params))], PacketOf([s.holdings], 0, None)))
  }

  function RecyclePlan(s: State, funding: Funding, destination: Script): Option<Plan> {
    var operatorSats := OperatorSats(s.params);
    var merged := LockupSats(s.params) + funding.value - operatorSats;
    if destination != Program(s.params.receiverKey) || !ExactFunding(funding, Some(Program(s.params.receiverKey)))
      then None
    else if merged < s.params.dust || merged < s.vtxoMin then None
    else
      Some(Plan(Recycle, 2,
                [Output(PayoutScript(s.params.operatorKey, operatorSats, s.params.dust), operatorSats),
                  Output(destination, merged)],
                PacketOf([s.holdings, funding.holdings], 1, RecycleAssetFare(s.params))))
  }

  function RefundPlan(s: State, funding: Funding): Option<Plan> {
    var loan := LoanSats(s.params);
    var returned := LockupSats(s.params) + funding.value - loan;
    if !ExactFunding(funding, None) || returned < s.params.dust || returned < s.vtxoMin then None
    else
      Some(Plan(RefundSender, 2,
                [Output(PayoutScript(s.params.operatorKey, loan, s.params.dust), loan),
                  Output(funding.script, returned)],
                PacketOf([s.holdings, funding.holdings], 1, None)))
  }

  // ------------------------------------------------------- output placement

  function OpReturns(outputs: seq<Output>): nat {
    if outputs == [] then 0
      else OpReturns(outputs[..|outputs| - 1]) + if IsOpReturn(outputs[|outputs| - 1].script) then 1 else 0
  }

  method CountOpReturns(outputs: seq<Output>) returns (count: nat)
    ensures count == OpReturns(outputs)
  {
    count := 0;
    for i := 0 to |outputs|
      invariant count == OpReturns(outputs[..i])
    {
      assert outputs[..i + 1][..i] == outputs[..i];
      if IsOpReturn(outputs[i].script) { count := count + 1; }
    }
    assert outputs[..|outputs|] == outputs;
  }

  function ExtensionOutput(plan: Plan, program: string): Output { Output(Extension(plan.groups, 0, program), 0) }

  /** The placements `execute` refuses. */
  predicate Placeable(plan: Plan, opReturns: nat, maxOpReturns: Option<nat>) {
    && (maxOpReturns.Some? ==> opReturns <= maxOpReturns.value)
    && (opReturns > 2 ==>
          plan.leaf == RefundSender && |plan.outputs| == 2 && maxOpReturns.Some?
          && forall i :: 0 <= i < |plan.outputs| ==> IsOpReturn(plan.outputs[i].script))
  }

  /**
   * The outputs of the transaction `execute` builds. Where the SDK's builder cannot take a third
   * OP_RETURN, the extension overwrites the anchor and a new anchor is appended: the order is the same.
   */
  method PlaceOutputs(plan: Plan, program: string, maxOpReturns: Option<nat>) returns (r: Option<seq<Output>>)
    ensures var extension := ExtensionOutput(plan, program);
            r == if Placeable(plan, OpReturns(plan.outputs + [extension]), maxOpReturns)
                 then Some(plan.outputs + [extension, ANCHOR]) else None
  {
    var extension := ExtensionOutput(plan, program);
    var opReturns := CountOpReturns(plan.outputs + [extension]);
    if maxOpReturns.Some? && opReturns > maxOpReturns.value { return None; }
    var needsPlacement := opReturns > 2;
    if needsPlacement {
      if plan.leaf != RefundSender || |plan.outputs| != 2
         || exists i :: 0 <= i < |plan.outputs| && !IsOpReturn(plan.outputs[i].script) { return None; }
      if maxOpReturns.None? { return None; }
    }
    var outputs := (if needsPlacement then plan.outputs else plan.outputs + [extension]) + [ANCHOR];
    if needsPlacement {
      var p2aIndex := |outputs| - 1;
      outputs := outputs[p2aIndex := extension];
      outputs := outputs + [ANCHOR];
    }
    assert outputs == plan.outputs + [extension, ANCHOR];
    return Some(outputs);
  }

  ghost predicate Planned(s: State, plan: Plan) {
    || (exists destination :: PurchasePlan(s, destination) == Some(plan))
    || (exists funding, destination :: RecyclePlan(s, funding, destination) == Some(plan))
    || (exists funding :: RefundPlan(s, funding) == Some(plan))
  }

  /** The covenant's own outputs are witness programs, so the three-OP_RETURN placement is never needed. */
  lemma PlacementIsNeverNeeded(s: State, plan: Plan, program: string, maxOpReturns: Option<nat>)
    requires ValidParams(s.params, s.vtxoMin) && Planned(s, plan)
    ensures OpReturns(plan.outputs + [ExtensionOutput(plan, program)]) == 1
    ensures Placeable(plan, 1, maxOpReturns) <==> maxOpReturns != Some(0)
  {
    hide PacketOf;
    assert |plan.outputs| <= 2 && forall i :: 0 <= i < |plan.outputs| ==> plan.outputs[i].script.Program?;
    NoOpReturns(plan.outputs);
    assert (plan.outputs + [ExtensionOutput(plan, program)])[..|plan.outputs|] == plan.outputs;
  }

  lemma {:induction false} NoOpReturns(outputs: seq<Output>)
    requires forall i :: 0 <= i < |outputs| ==> !IsOpReturn(outputs[i].script)
    ensures OpReturns(outputs) == 0
  {
    if outputs != [] { NoOpReturns(outputs[..|outputs| - 1]); }
  }
}
