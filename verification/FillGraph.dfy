// packages/app/src/fills.ts: `assertFillGraph`, the validator of caller-built fill graphs, with
// packages/app/src/arkade/jointGraphDerivation.ts, which reads inputs and outputs off a graph.
//
// Checkpoint trees, signatures and provider gates are opaque: `checkpointHolds` and
// `signaturesHold` carry their verdicts.
module FillGraph {
  import opened Prelude
  import opened Assets
  import Canonical
  import R = FillReconciler

  const P2A := "51024e73"
  const FINAL_SEQUENCE := 0xffffffff

  datatype AssetInput = AssetInput(vin: nat, amount: int, local: bool)

  datatype AssetOutput = AssetOutput(vout: nat, amount: int)

  datatype Group = Group(assetId: Option<AssetId>, inputs: seq<AssetInput>, outputs: seq<AssetOutput>)

  /** What an output script holds when it is read as an extension. */
  datatype Content = NotExtension | Unparsable | NoPacket | Packet(groups: seq<Group>)

  datatype TxOutput = TxOutput(amount: nat, script: string, content: Content)

  datatype TxInput = TxInput(spends: R.Point, sequence: nat)

  datatype Tx = Tx(version: nat, lockTime: nat, inputs: seq<TxInput>, outputs: seq<TxOutput>)

  datatype Checkpoint = Checkpoint(id: R.Id, spends: seq<R.Point>)

  datatype ExpiryKind = Height | Time

  datatype Expiry = Expiry(kind: ExpiryKind, value: int)

  /** An indexed coin; `expiry` is `None` where it cannot be normalised. */
  datatype Coin = Coin(value: nat, script: string, assets: seq<Holding>, expiry: Option<Expiry>, spendable: bool)

  /** A reserved Taxi coin; `script` and `hasLeaf` are read off its tree. */
  datatype Reserved = Reserved(point: R.Point, value: nat, script: string, hasLeaf: bool, expiry: Expiry)

  datatype Fare = SatsFare(sats: int) | AssetFare(units: int)

  datatype Quote = Quote(
    operatorInputs: seq<Reserved>, covenantScript: string, lockupSats: nat, topup: int, assetId: AssetId,
    receiverFare: Option<Fare>, fare: Fare, expiryFloor: Expiry)

  datatype Args = Args(
    tx: Tx, checkpoints: seq<Checkpoint>, taxiIndexes: seq<int>, covenantVout: nat, assetUnits: int,
    quote: Quote, operatorScript: string, observed: map<R.Point, Coin>,
    maxAmount: Option<int>, dust: int, vtxoMin: int,
    checkpointHolds: set<int>, signaturesHold: bool)

  // ------------------------------------------------------- reading the graph

  function SpentBy(checkpoint: Checkpoint): R.Point {
    if checkpoint.spends == [] then R.Point("", 0) else checkpoint.spends[0]
  }

  /** The coins the graph spends, input by input. */
  function Inputs(checkpoints: seq<Checkpoint>): (r: seq<R.Point>)
    ensures |r| == |checkpoints| && forall i :: 0 <= i < |r| ==> r[i] == SpentBy(checkpoints[i])
  {
    seq(|checkpoints|, i requires 0 <= i < |checkpoints| => SpentBy(checkpoints[i]))
  }

  /** `deriveJointInputs` succeeds. */
  predicate InputsDerive(tx: Tx, checkpoints: seq<Checkpoint>) {
    && |tx.inputs| == |checkpoints|
    && (forall i :: 0 <= i < |checkpoints| ==>
          tx.inputs[i].spends == R.Point(checkpoints[i].id, 0) && |checkpoints[i].spends| == 1)
    && Distinct(Inputs(checkpoints))
  }

  function Extensions(outputs: seq<TxOutput>): seq<TxOutput> {
    if outputs == [] then []
    else (if outputs[0].content.NotExtension? then [] else [outputs[0]]) + Extensions(outputs[1..])
  }

  function Groups(tx: Tx): seq<Group> {
    var found := Extensions(tx.outputs);
    if found != [] && found[0].content.Packet? then found[0].content.groups else []
  }

  /** `deriveJointOutputs` succeeds. */
  predicate OutputsDerive(tx: Tx) {
    var found := Extensions(tx.outputs);
    && |found| <= 1
    && (found != [] ==> found[0].amount == 0 && !found[0].content.Unparsable?)
    && forall i :: 0 <= i < |Groups(tx)| ==> Groups(tx)[i].assetId.Some?
  }

  function IdOf(group: Group): AssetId { if group.assetId.Some? then group.assetId.value else [] }

  function UnitsAt(id: AssetId, outputs: seq<AssetOutput>, vout: nat): seq<Holding> {
    if outputs == [] then []
    else (if outputs[0].vout == vout then [Holding(id, outputs[0].amount)] else []) + UnitsAt(id, outputs[1..], vout)
  }

  /** `assetsByVout`: the units the packet allocates to one output. */
  function AssetsAt(groups: seq<Group>, vout: nat): seq<Holding> {
    if groups == [] then [] else UnitsAt(IdOf(groups[0]), groups[0].outputs, vout) + AssetsAt(groups[1..], vout)
  }

  predicate IsValue(tx: Tx, vout: nat)
    requires vout < |tx.outputs|
  {
    var output := tx.outputs[vout];
    && output.content.NotExtension?
    && !(vout == |tx.outputs| - 1 && output.amount == 0 && output.script == P2A && AssetsAt(Groups(tx), vout) == [])
  }

  function OutputsBefore(tx: Tx, n: nat): seq<R.GraphOutput>
    requires n <= |tx.outputs|
  {
    if n == 0 then []
    else
      OutputsBefore(tx, n - 1)
      + (if IsValue(tx, n - 1)
         then [R.GraphOutput(n - 1, tx.outputs[n - 1].script, tx.outputs[n - 1].amount, AssetsAt(Groups(tx), n - 1))]
         else [])
  }

  /** The value outputs: neither the extension nor the trailing anchor. */
  function Outputs(tx: Tx): seq<R.GraphOutput> { OutputsBefore(tx, |tx.outputs|) }

  function Vouts(outputs: seq<R.GraphOutput>): set<nat> { set o | o in outputs :: o.vout }

  /** The graph as the reconciler reads it back. */
  function GraphOf(a: Args, txid: R.Id): R.Graph {
    var inputs := seq(|a.checkpoints|, i requires 0 <= i < |a.checkpoints| =>
                      R.GraphInput(SpentBy(a.checkpoints[i]), a.checkpoints[i].id, i in a.taxiIndexes));
    R.Graph(txid, inputs, Outputs(a.tx), a.covenantVout, a.operatorScript)
  }

  // ------------------------------------------------------------------- rules

  datatype Code =
    | TaxiInputsDiffer | GraphInvalid | ForeignTaxiCoin | CheckpointMismatch | CovenantOutputMismatch
    | AssetUnitsInvalid | FareExceedsDelivery | CovenantAssetMismatch | FareUnsupported | UnpricedFare
    | OperatorPayoutMismatch | OutputLimitExceeded | OutputBelowFloor | TaxiInputAssets | AssetNotConserved
    | InputUnspendable | InputExpiryUnknown | InputExpiryFloor | SatsNotConserved | ForeignInputInvalid

  /** `new Map(quote.operatorInputs.map(...))`. */
  function ReservedBy(coins: seq<Reserved>): map<R.Point, Reserved> {
    if coins == [] then map[]
    else ReservedBy(coins[..|coins| - 1])[coins[|coins| - 1].point := coins[|coins| - 1]]
  }

  predicate Undisturbed(coin: Coin, snapshot: Reserved) {
    && coin.value == snapshot.value && coin.script == snapshot.script && snapshot.hasLeaf
    && coin.assets == [] && coin.expiry == Some(snapshot.expiry)
  }

  function IndexSet(indexes: seq<int>): set<int> { set i | i in indexes }

  predicate IndexesName(indexes: seq<int>, n: nat) {
    Distinct(indexes) && forall k :: 0 <= k < |indexes| ==> 0 <= indexes[k] < n
  }

  /** V2: each Taxi index spends a reserved coin that is still as reserved, and there are as many. */
  predicate SpendsReservation(
    indexes: seq<int>, inputs: seq<R.Point>, reserved: map<R.Point, Reserved>, observed: map<R.Point, Coin>)
  {
    && |indexes| == |reserved|
    && forall k :: 0 <= k < |indexes| ==>
         && 0 <= indexes[k] < |inputs|
         && inputs[indexes[k]] in reserved && inputs[indexes[k]] in observed
         && Undisturbed(observed[inputs[indexes[k]]], reserved[inputs[indexes[k]]])
  }

  predicate NoForeignTaxiCoin(
    indexes: seq<int>, inputs: seq<R.Point>, observed: map<R.Point, Coin>, operatorScript: string)
  {
    forall i :: 0 <= i < |inputs| && i !in indexes && inputs[i] in observed ==>
      observed[inputs[i]].script != operatorScript
  }

  function FirstAt(outputs: seq<R.GraphOutput>, vout: nat): (r: Option<R.GraphOutput>)
    ensures r.Some? ==> r.value in outputs && r.value.vout == vout
    ensures r.None? ==> forall o :: o in outputs ==> o.vout != vout
  {
    if outputs == [] then None
    else if outputs[0].vout == vout then Some(outputs[0])
    else FirstAt(outputs[1..], vout)
  }

  predicate CovenantIs(covenant: Option<R.GraphOutput>, script: string, sats: nat) {
    covenant.Some? && covenant.value.script == script && covenant.value.sats == sats
  }

  /** V6: exactly one asset id, with exactly the declared units. */
  ghost predicate Delivers(covenant: Option<R.GraphOutput>, id: AssetId, units: int) {
    covenant.Some?
    && (forall other :: Names(covenant.value.assets, other) <==> other == id)
    && UnitsOf(covenant.value.assets, id) == units
  }

  function PaidTo(outputs: seq<R.GraphOutput>, script: string): int {
    if outputs == [] then 0
      else (if outputs[0].script == script then outputs[0].sats else 0) + PaidTo(outputs[1..], script)
  }

  function ContributedBy(inputs: seq<R.Point>, reserved: map<R.Point, Reserved>, indexes: seq<int>): int {
    if indexes == [] then 0
    else
      var i := indexes[|indexes| - 1];
      ContributedBy(inputs, reserved, indexes[..|indexes| - 1])
      + (if 0 <= i < |inputs| && inputs[i] in reserved then reserved[inputs[i]].value else 0)
  }

  predicate Unpriced(outputs: seq<R.GraphOutput>, script: string) {
    exists i :: 0 <= i < |outputs| && outputs[i].script == script && outputs[i].assets != []
  }

  function Floor(output: R.GraphOutput, dust: int, vtxoMin: int): int { if output.assets == [] then dust else vtxoMin }

  predicate Within(amount: int, maxAmount: Option<int>) {
    maxAmount.None? || maxAmount.value < 0 || amount <= maxAmount.value
  }

  predicate AllWithin(outputs: seq<R.GraphOutput>, maxAmount: Option<int>) {
    forall i :: 0 <= i < |outputs| ==> Within(outputs[i].sats, maxAmount)
  }

  predicate AllAboveFloor(outputs: seq<R.GraphOutput>, dust: int, vtxoMin: int) {
    forall i :: 0 <= i < |outputs| ==> outputs[i].sats >= Floor(outputs[i], dust, vtxoMin)
  }

  predicate FareBelow(fare: Option<Fare>, units: int) {
    fare.Some? && fare.value.AssetFare? ==> fare.value.units < units
  }

  predicate CheckpointsHold(indexes: seq<int>, holds: set<int>) {
    forall k :: 0 <= k < |indexes| ==> indexes[k] in holds
  }

  /** V7: everything contributed comes back, less the loan, plus the fare. */
  predicate PaysBack(paid: int, contributed: int, quote: Quote) {
    quote.fare.SatsFare? ==> paid == contributed - quote.topup + quote.fare.sats
  }

  // ---- V9

  function Lower(u: Canonical.Unit): Canonical.Unit { if 65 <= u <= 90 then u + 32 else u }

  function LowerCase(id: AssetId): (r: AssetId)
    ensures |r| == |id| && forall i :: 0 <= i < |id| ==> r[i] == Lower(id[i])
  {
    seq(|id|, i requires 0 <= i < |id| => Lower(id[i]))
  }

  function LowerIds(held: seq<Holding>): (r: seq<Holding>)
    ensures |r| == |held| && forall i :: 0 <= i < |r| ==> r[i] == Holding(LowerCase(held[i].assetId), held[i].units)
  {
    seq(|held|, i requires 0 <= i < |held| => Holding(LowerCase(held[i].assetId), held[i].units))
  }

  function HeldAt(point: R.Point, observed: map<R.Point, Coin>): seq<Holding> {
    if point in observed then LowerIds(observed[point].assets) else []
  }

  /** What the indexer reports at each input. */
  function Held(inputs: seq<R.Point>, observed: map<R.Point, Coin>): (r: seq<seq<Holding>>)
    ensures |r| == |inputs| && forall i :: 0 <= i < |r| ==> r[i] == HeldAt(inputs[i], observed)
  {
    seq(|inputs|, i requires 0 <= i < |inputs| => HeldAt(inputs[i], observed))
  }

  /** An input, with the asset claimed there. */
  datatype Claimed = Claimed(vin: nat, id: AssetId)

  function GroupDeclares(id: AssetId, inputs: seq<AssetInput>): map<Claimed, int> {
    if inputs == [] then map[]
    else
      var last := inputs[|inputs| - 1];
      GroupDeclares(id, inputs[..|inputs| - 1])[Claimed(last.vin, id) := last.amount]
  }

  function Declared(groups: seq<Group>): map<Claimed, int> {
    if groups == [] then map[]
    else
      var last := groups[|groups| - 1];
      Declared(groups[..|groups| - 1]) + GroupDeclares(IdOf(last), last.inputs)
  }

  function InputUnits(inputs: seq<AssetInput>): int {
    if inputs == [] then 0 else InputUnits(inputs[..|inputs| - 1]) + inputs[|inputs| - 1].amount
  }

  function OutputUnits(outputs: seq<AssetOutput>): int {
    if outputs == [] then 0 else OutputUnits(outputs[..|outputs| - 1]) + outputs[|outputs| - 1].amount
  }

  predicate InputsFit(inputs: seq<AssetInput>, n: nat) {
    && (forall k :: 0 <= k < |inputs| ==> inputs[k].local && inputs[k].vin < n && inputs[k].amount > 0)
    && forall j, k :: 0 <= j < k < |inputs| ==> inputs[j].vin != inputs[k].vin
  }

  predicate OutputsFit(outputs: seq<AssetOutput>, vouts: set<nat>) {
    forall k :: 0 <= k < |outputs| ==> outputs[k].vout in vouts
  }

  predicate GroupConserved(group: Group, n: nat, vouts: set<nat>) {
    && group.assetId.Some? && InputsFit(group.inputs, n)
    && InputUnits(group.inputs) == OutputUnits(group.outputs) && OutputsFit(group.outputs, vouts)
  }

  predicate UniqueIds(groups: seq<Group>) {
    forall i, j :: 0 <= i < j < |groups| ==> groups[i].assetId != groups[j].assetId
  }

  predicate TouchesTaxi(inputs: seq<AssetInput>, taxi: set<int>) {
    exists k :: 0 <= k < |inputs| && inputs[k].vin in taxi
  }

  predicate AnyTouchesTaxi(groups: seq<Group>, taxi: set<int>) {
    exists i :: 0 <= i < |groups| && TouchesTaxi(groups[i].inputs, taxi)
  }

  /** The packet declares exactly what the inputs are observed to hold. */
  ghost predicate DeclaresHoldings(declared: map<Claimed, int>, held: seq<seq<Holding>>) {
    && (forall c :: c in declared <==> c.vin < |held| && Names(held[c.vin], c.id))
    && forall c :: c in declared && c.vin < |held| ==> declared[c] == UnitsOf(held[c.vin], c.id)
  }

  ghost predicate AssetsConserved(groups: seq<Group>, held: seq<seq<Holding>>, vouts: set<nat>) {
    && UniqueIds(groups)
    && (forall i :: 0 <= i < |groups| ==> GroupConserved(groups[i], |held|, vouts))
    && DeclaresHoldings(Declared(groups), held)
  }

  // ---- V10, header, sats

  predicate NotBefore(expiry: Expiry, floor: Expiry) { expiry.kind == floor.kind && expiry.value >= floor.value }

  predicate HeaderFits(tx: Tx, n: nat) {
    tx.version == 3 && tx.lockTime == 0
    && forall i :: 0 <= i < n && i < |tx.inputs| ==> tx.inputs[i].sequence == FINAL_SEQUENCE
  }

  function InputSats(inputs: seq<R.Point>, observed: map<R.Point, Coin>): int {
    if inputs == [] then 0
    else
      var last := inputs[|inputs| - 1];
      InputSats(inputs[..|inputs| - 1], observed) + (if last in observed then observed[last].value else 0)
  }

  function OutputSats(outputs: seq<TxOutput>): int {
    if outputs == [] then 0 else OutputSats(outputs[..|outputs| - 1]) + outputs[|outputs| - 1].amount
  }

  predicate AllSpendable(inputs: seq<R.Point>, observed: map<R.Point, Coin>) {
    forall i :: 0 <= i < |inputs| ==> inputs[i] in observed && observed[inputs[i]].spendable
  }

  predicate ExpiriesKnown(inputs: seq<R.Point>, observed: map<R.Point, Coin>) {
    forall i :: 0 <= i < |inputs| && inputs[i] in observed ==> observed[inputs[i]].expiry.Some?
  }

  predicate ExpiriesReach(inputs: seq<R.Point>, observed: map<R.Point, Coin>, floor: Expiry) {
    forall i :: 0 <= i < |inputs| && inputs[i] in observed && observed[inputs[i]].expiry.Some? ==>
      NotBefore(observed[inputs[i]].expiry.value, floor)
  }

  /** The rule behind each refusal. */
  ghost predicate Holds(a: Args, code: Code) {
    var inputs, outputs := Inputs(a.checkpoints), Outputs(a.tx);
    var covenant := FirstAt(outputs, a.covenantVout);
    var reserved := ReservedBy(a.quote.operatorInputs);
    match code
    case TaxiInputsDiffer =>
      IndexesName(a.taxiIndexes, |a.tx.inputs|) && SpendsReservation(a.taxiIndexes, inputs, reserved, a.observed)
    case GraphInvalid => InputsDerive(a.tx, a.checkpoints) && OutputsDerive(a.tx) && HeaderFits(a.tx, |inputs|)
    case ForeignTaxiCoin => NoForeignTaxiCoin(a.taxiIndexes, inputs, a.observed, a.operatorScript)
    case CheckpointMismatch => CheckpointsHold(a.taxiIndexes, a.checkpointHolds)
    case CovenantOutputMismatch => CovenantIs(covenant, a.quote.covenantScript, a.quote.lockupSats)
    case AssetUnitsInvalid => a.assetUnits > 0
    case FareExceedsDelivery => FareBelow(a.quote.receiverFare, a.assetUnits)
    case CovenantAssetMismatch => Delivers(covenant, a.quote.assetId, a.assetUnits)
    case FareUnsupported => a.quote.fare.SatsFare?
    case UnpricedFare => !Unpriced(outputs, a.operatorScript)
    case OperatorPayoutMismatch =>
      PaysBack(PaidTo(outputs, a.operatorScript), ContributedBy(inputs, reserved, a.taxiIndexes), a.quote)
    case OutputLimitExceeded => AllWithin(outputs, a.maxAmount)
    case OutputBelowFloor => AllAboveFloor(outputs, a.dust, a.vtxoMin)
    case TaxiInputAssets => !AnyTouchesTaxi(Groups(a.tx), IndexSet(a.taxiIndexes))
    case AssetNotConserved => AssetsConserved(Groups(a.tx), Held(inputs, a.observed), Vouts(outputs))
    case InputUnspendable => AllSpendable(inputs, a.observed)
    case InputExpiryUnknown => ExpiriesKnown(inputs, a.observed)
    case InputExpiryFloor => ExpiriesReach(inputs, a.observed, a.quote.expiryFloor)
    case SatsNotConserved => InputSats(inputs, a.observed) == OutputSats(a.tx.outputs)
    case ForeignInputInvalid => a.signaturesHold
  }

  ghost predicate Acceptable(a: Args) { forall code: Code :: Holds(a, code) }

  // ------------------------------------------------------------- V1 and V2

  method TaxiSet(indexes: seq<int>) returns (taxi: set<int>)
    ensures taxi == IndexSet(indexes)
    ensures |taxi| == |indexes| <==> Distinct(indexes)
  {
    taxi := {};
    for k := 0 to |indexes|
      invariant taxi == set i | i in indexes[..k]
      invariant |taxi| <= k && (|taxi| == k <==> Distinct(indexes[..k]))
    {
      ghost var before := indexes[..k];
      assert indexes[..k + 1] == before + [indexes[k]];
      assert Distinct(before + [indexes[k]]) <==> Distinct(before) && indexes[k] !in before by {
        DistinctSnoc(before, indexes[k]);
      }
      taxi := taxi + {indexes[k]};
    }
    assert indexes[..|indexes|] == indexes;
  }

  lemma DistinctSnoc<T>(s: seq<T>, x: T)
    ensures Distinct(s + [x]) <==> Distinct(s) && x !in s
  {
    var t := s + [x];
    if Distinct(t) {
      assert forall i :: 0 <= i < |s| ==> t[i] == s[i] && t[i] != t[|s|];
    }
    if Distinct(s) && x !in s {
      assert forall i :: 0 <= i < |s| ==> t[i] == s[i];
    }
  }

  method ReservedMap(coins: seq<Reserved>) returns (reserved: map<R.Point, Reserved>)
    ensures reserved == ReservedBy(coins)
  {
    reserved := map[];
    for i := 0 to |coins|
      invariant reserved == ReservedBy(coins[..i])
    {
      assert coins[..i + 1][..i] == coins[..i];
      reserved := reserved[coins[i].point := coins[i]];
    }
    assert coins[..|coins|] == coins;
  }

  ghost predicate Snapshots(
    indexes: seq<int>, inputs: seq<R.Point>, reserved: map<R.Point, Reserved>, snapshots: map<int, Reserved>)
  {
    forall k :: 0 <= k < |indexes| ==>
      && 0 <= indexes[k] < |inputs| && inputs[indexes[k]] in reserved
      && indexes[k] in snapshots && snapshots[indexes[k]] == reserved[inputs[indexes[k]]]
  }

  /** V2: the snapshots of the Taxi's inputs, or nothing. */
  method MatchReservation(
    indexes: seq<int>, inputs: seq<R.Point>, reserved: map<R.Point, Reserved>, observed: map<R.Point, Coin>)
    returns (snapshots: Option<map<int, Reserved>>)
    requires IndexesName(indexes, |inputs|)
    ensures snapshots.Some? <==> SpendsReservation(indexes, inputs, reserved, observed)
    ensures snapshots.Some? ==> Snapshots(indexes, inputs, reserved, snapshots.value)
  {
    if |indexes| != |reserved| { return None; }
    var found: map<int, Reserved> := map[];
    for k := 0 to |indexes|
      invariant found.Keys == (set i | i in indexes[..k])
      invariant forall j :: 0 <= j < k ==>
        && inputs[indexes[j]] in reserved && inputs[indexes[j]] in observed
        && Undisturbed(observed[inputs[indexes[j]]], reserved[inputs[indexes[j]]])
        && found[indexes[j]] == reserved[inputs[indexes[j]]]
    {
      var point := inputs[indexes[k]];
      if point !in reserved || point !in observed || !Undisturbed(observed[point], reserved[point]) { return None; }
      found := found[indexes[k] := reserved[point]];
      assert indexes[..k + 1] == indexes[..k] + [indexes[k]];
    }
    assert indexes[..|indexes|] == indexes;
    return Some(found);
  }

  // ------------------------------------------------------------------- V7

  method Contributed(
    indexes: seq<int>, snapshots: map<int, Reserved>, ghost inputs: seq<R.Point>,
    ghost reserved: map<R.Point, Reserved>)
    returns (sats: int)
    requires Snapshots(indexes, inputs, reserved, snapshots)
    ensures sats == ContributedBy(inputs, reserved, indexes)
  {
    sats := 0;
    for k := 0 to |indexes|
      invariant sats == ContributedBy(inputs, reserved, indexes[..k])
    {
      assert indexes[..k + 1][..k] == indexes[..k];
      sats := sats + snapshots[indexes[k]].value;
    }
    assert indexes[..|indexes|] == indexes;
  }

  lemma {:induction false} PaidToSnoc(outputs: seq<R.GraphOutput>, output: R.GraphOutput, script: string)
    ensures PaidTo(outputs + [output], script)
            == PaidTo(outputs, script) + (if output.script == script then output.sats else 0)
  {
    if outputs == [] {
      assert outputs + [output] == [output];
    } else {
      assert (outputs + [output])[1..] == outputs[1..] + [output];
      PaidToSnoc(outputs[1..], output, script);
    }
  }

  /** What the graph pays the operator, unless some of it carries an asset. */
  method Payout(outputs: seq<R.GraphOutput>, script: string) returns (sats: Option<int>)
    ensures sats.None? <==> Unpriced(outputs, script)
    ensures sats.Some? ==> sats.value == PaidTo(outputs, script)
  {
    var paid := 0;
    for i := 0 to |outputs|
      invariant paid == PaidTo(outputs[..i], script)
      invariant forall j :: 0 <= j < i && outputs[j].script == script ==> outputs[j].assets == []
    {
      PaidToSnoc(outputs[..i], outputs[i], script);
      assert outputs[..i + 1] == outputs[..i] + [outputs[i]];
      if outputs[i].script == script {
        if outputs[i].assets != [] { return None; }
        paid := paid + outputs[i].sats;
      }
    }
    assert outputs[..|outputs|] == outputs;
    return Some(paid);
  }

  // ------------------------------------------------------------------- V8

  method CheckOutputs(outputs: seq<R.GraphOutput>, maxAmount: Option<int>, dust: int, vtxoMin: int)
    returns (refusal: Option<Code>)
    ensures refusal.Some? ==> refusal.value in {OutputLimitExceeded, OutputBelowFloor}
    ensures refusal.None? ==> AllWithin(outputs, maxAmount) && AllAboveFloor(outputs, dust, vtxoMin)
    ensures refusal == Some(OutputLimitExceeded) ==> !AllWithin(outputs, maxAmount)
    ensures refusal == Some(OutputBelowFloor) ==> !AllAboveFloor(outputs, dust, vtxoMin)
  {
    for i := 0 to |outputs|
      invariant forall j :: 0 <= j < i ==>
        Within(outputs[j].sats, maxAmount) && outputs[j].sats >= Floor(outputs[j], dust, vtxoMin)
    {
      if !Within(outputs[i].sats, maxAmount) { return Some(OutputLimitExceeded); }
      if outputs[i].sats < Floor(outputs[i], dust, vtxoMin) { return Some(OutputBelowFloor); }
    }
    return None;
  }

  // ------------------------------------------------------------------- V9

  lemma {:induction false} GroupDeclaresOwn(id: AssetId, inputs: seq<AssetInput>, c: Claimed)
    ensures c in GroupDeclares(id, inputs) <==> c.id == id && exists k :: 0 <= k < |inputs| && inputs[k].vin == c.vin
  {
    if inputs != [] {
      var before := inputs[..|inputs| - 1];
      GroupDeclaresOwn(id, before, c);
      if c.id == id && exists k :: 0 <= k < |inputs| && inputs[k].vin == c.vin {
        var k :| 0 <= k < |inputs| && inputs[k].vin == c.vin;
        if k < |before| { assert before[k].vin == c.vin; }
      }
    }
  }

  /** The loop over one group's inputs. */
  method DeclareInputs(id: AssetId, inputs: seq<AssetInput>, taxi: set<int>, n: nat, known: map<Claimed, int>)
    returns (refusal: Option<Code>, declared: map<Claimed, int>)
    requires forall c :: c in known ==> c.id != id
    ensures refusal.None? ==>
      !TouchesTaxi(inputs, taxi) && InputsFit(inputs, n) && declared == known + GroupDeclares(id, inputs)
    ensures refusal.Some? ==> refusal.value in {TaxiInputAssets, AssetNotConserved}
    ensures refusal == Some(TaxiInputAssets) ==> TouchesTaxi(inputs, taxi)
    ensures refusal == Some(AssetNotConserved) ==> !InputsFit(inputs, n)
  {
    hide GroupDeclares, InputsFit, TouchesTaxi;
    declared := known;
    NothingClaimed(id, inputs, taxi, n);
    for k := 0 to |inputs|
      invariant declared == known + GroupDeclares(id, inputs[..k])
      invariant !TouchesTaxi(inputs[..k], taxi) && InputsFit(inputs[..k], n)
    {
      var input := inputs[k];
      var key := Claimed(input.vin, id);
      OneMoreInput(id, inputs, k, taxi, n);
      if input.vin in taxi { return Some(TaxiInputAssets), declared; }
      if !input.local || input.vin >= n || input.amount <= 0 || key in declared {
        return Some(AssetNotConserved), declared;
      }
      declared := declared[key := input.amount];
    }
    assert inputs[..|inputs|] == inputs;
    return None, declared;
  }

  lemma NothingClaimed(id: AssetId, inputs: seq<AssetInput>, taxi: set<int>, n: nat)
    ensures !TouchesTaxi(inputs[..0], taxi) && InputsFit(inputs[..0], n) && GroupDeclares(id, inputs[..0]) == map[]
  {
  }

  lemma OneMoreInput(id: AssetId, inputs: seq<AssetInput>, k: nat, taxi: set<int>, n: nat)
    requires k < |inputs| && InputsFit(inputs[..k], n) && !TouchesTaxi(inputs[..k], taxi)
    ensures GroupDeclares(id, inputs[..k + 1])
            == GroupDeclares(id, inputs[..k])[Claimed(inputs[k].vin, id) := inputs[k].amount]
    ensures inputs[k].vin in taxi ==> TouchesTaxi(inputs, taxi)
    ensures inputs[k].vin !in taxi ==> !TouchesTaxi(inputs[..k + 1], taxi)
    ensures var fits := inputs[k].local && inputs[k].vin < n && inputs[k].amount > 0
                        && Claimed(inputs[k].vin, id) !in GroupDeclares(id, inputs[..k]);
            (fits ==> InputsFit(inputs[..k + 1], n)) && (!fits ==> !InputsFit(inputs, n))
  {
    var before, after := inputs[..k], inputs[..k + 1];
    assert after[..k] == before && after[k] == inputs[k];
    assert forall j :: 0 <= j < k ==> after[j] == before[j] == inputs[j];
    GroupDeclaresOwn(id, before, Claimed(inputs[k].vin, id));
    hide GroupDeclares;
    if Claimed(inputs[k].vin, id) in GroupDeclares(id, before) {
      var j :| 0 <= j < k && before[j].vin == inputs[k].vin;
      assert inputs[j].vin == inputs[k].vin;
    }
  }

  /** The loop over the packet's groups. */
  method DeclareGroups(groups: seq<Group>, taxi: set<int>, n: nat, vouts: set<nat>)
    returns (refusal: Option<Code>, declared: map<Claimed, int>)
    ensures refusal.None? ==>
      && !AnyTouchesTaxi(groups, taxi) && UniqueIds(groups)
      && (forall i :: 0 <= i < |groups| ==> GroupConserved(groups[i], n, vouts))
      && declared == Declared(groups)
    ensures refusal.Some? ==> refusal.value in {TaxiInputAssets, AssetNotConserved}
    ensures refusal == Some(TaxiInputAssets) ==> AnyTouchesTaxi(groups, taxi)
    ensures refusal == Some(AssetNotConserved) ==>
              !(UniqueIds(groups) && forall i :: 0 <= i < |groups| ==> GroupConserved(groups[i], n, vouts))
  {
    hide TouchesTaxi, InputsFit, GroupDeclares, Declared, UniqueIds, Distinct;
    var seen: set<AssetId> := {};
    declared := map[];
    NothingDeclared(groups);
    for i := 0 to |groups|
      invariant forall j :: 0 <= j < i ==> GroupConserved(groups[j], n, vouts) && !TouchesTaxi(groups[j].inputs, taxi)
      invariant forall id :: id in seen <==> exists j :: 0 <= j < i && groups[j].assetId == Some(id)
      invariant UniqueIds(groups[..i]) && declared == Declared(groups[..i])
      invariant forall c :: c in declared ==> c.id in seen
    {
      var group := groups[i];
      if group.assetId.None? { return Some(AssetNotConserved), declared; }
      var id := group.assetId.value;
      OneMoreGroup(groups, i);
      if id in seen { return Some(AssetNotConserved), declared; }
      seen := seen + {id};
      var refusal, more := DeclareInputs(id, group.inputs, taxi, n, declared);
      if refusal.Some? { return refusal, more; }
      forall c | c in more ensures c.id in seen { GroupDeclaresOwn(id, group.inputs, c); }
      declared := more;
      var into := SumInputs(group.inputs);
      var outOf := SumOutputs(group.outputs);
      if into != outOf { return Some(AssetNotConserved), declared; }
      if k :| 0 <= k < |group.outputs| && group.outputs[k].vout !in vouts {
        assert !OutputsFit(group.outputs, vouts);
        return Some(AssetNotConserved), declared;
      }
    }
    assert groups[..|groups|] == groups;
    return None, declared;
  }

  lemma NothingDeclared(groups: seq<Group>)
    ensures UniqueIds(groups[..0]) && Declared(groups[..0]) == map[]
  {
  }

  lemma OneMoreGroup(groups: seq<Group>, i: nat)
    requires i < |groups| && UniqueIds(groups[..i])
    ensures UniqueIds(groups[..i + 1]) <==> forall j :: 0 <= j < i ==> groups[j].assetId != groups[i].assetId
    ensures UniqueIds(groups) ==> UniqueIds(groups[..i + 1])
    ensures Declared(groups[..i + 1]) == Declared(groups[..i]) + GroupDeclares(IdOf(groups[i]), groups[i].inputs)
  {
    hide GroupDeclares;
    var before, after := groups[..i], groups[..i + 1];
    assert after[..i] == before && after[i] == groups[i];
    assert forall j :: 0 <= j < i ==> after[j] == before[j] == groups[j];
  }

  method SumInputs(inputs: seq<AssetInput>) returns (units: int)
    ensures units == InputUnits(inputs)
  {
    units := 0;
    for k := 0 to |inputs|
      invariant units == InputUnits(inputs[..k])
    {
      assert inputs[..k + 1][..k] == inputs[..k];
      units := units + inputs[k].amount;
    }
    assert inputs[..|inputs|] == inputs;
  }

  method SumOutputs(outputs: seq<AssetOutput>) returns (units: int)
    ensures units == OutputUnits(outputs)
  {
    units := 0;
    for k := 0 to |outputs|
      invariant units == OutputUnits(outputs[..k])
    {
      assert outputs[..k + 1][..k] == outputs[..k];
      units := units + outputs[k].amount;
    }
    assert outputs[..|outputs|] == outputs;
  }

  /**
   * Where the second pass stands after inputs below `i` and the ids `done` at input `i`: what was
   * declared there has been found observed, with the same units, and removed.
   */
  ghost predicate Matched(
    known: map<Claimed, int>, declared: map<Claimed, int>, held: seq<seq<Holding>>, i: nat, done: set<AssetId>)
  {
    && (forall c :: c in declared <==> c in known && !Passed(c, held, i, done))
    && (forall c :: c in declared ==> declared[c] == known[c])
    && forall c :: Passed(c, held, i, done) ==> c in known && c.vin < |held| && known[c] == UnitsOf(held[c.vin], c.id)
  }

  ghost predicate Passed(c: Claimed, held: seq<seq<Holding>>, i: nat, done: set<AssetId>) {
    || (c.vin < i && c.vin < |held| && Names(held[c.vin], c.id))
    || (c.vin == i && c.id in done)
  }

  lemma MatchedOne(
    known: map<Claimed, int>, declared: map<Claimed, int>, held: seq<seq<Holding>>, i: nat, done: set<AssetId>,
    id: AssetId)
    requires Matched(known, declared, held, i, done)
    requires i < |held| && Names(held[i], id) && id !in done
    ensures var key := Claimed(i, id);
            if key in declared && declared[key] == UnitsOf(held[i], id)
            then Matched(known, declared - {key}, held, i, done + {id})
            else !DeclaresHoldings(known, held)
  {
    hide Names, UnitsOf;
    var key := Claimed(i, id);
    assert !Passed(key, held, i, done);
    assert forall c :: Passed(c, held, i, done + {id}) <==> Passed(c, held, i, done) || c == key;
  }

  lemma MatchedRow(
    known: map<Claimed, int>, declared: map<Claimed, int>, held: seq<seq<Holding>>, i: nat, done: set<AssetId>)
    requires Matched(known, declared, held, i, done)
    requires i < |held| && forall id :: id in done <==> Names(held[i], id)
    ensures Matched(known, declared, held, i + 1, {})
  {
    hide Names, UnitsOf;
    assert forall c :: Passed(c, held, i, done) <==> Passed(c, held, i + 1, {});
  }

  lemma MatchedAll(known: map<Claimed, int>, declared: map<Claimed, int>, held: seq<seq<Holding>>)
    requires Matched(known, declared, held, |held|, {})
    ensures declared == map[] <==> DeclaresHoldings(known, held)
  {
    hide Names, UnitsOf;
    assert forall c :: Passed(c, held, |held|, {}) <==> c.vin < |held| && Names(held[c.vin], c.id);
  }

  /** The loops over observed holdings; each match removes its declaration, and none may be left. */
  method CheckHoldings(held: seq<seq<Holding>>, known: map<Claimed, int>) returns (ok: bool)
    ensures ok <==> DeclaresHoldings(known, held)
  {
    var declared := known;
    assert Matched(known, declared, held, 0, {});
    hide Names, UnitsOf, Matched, DeclaresHoldings;
    for i := 0 to |held|
      invariant Matched(known, declared, held, i, {})
    {
      var totals := Totals(held[i]);
      var rest := totals.Keys;
      while rest != {}
        invariant rest <= totals.Keys && Matched(known, declared, held, i, totals.Keys - rest)
      {
        var id :| id in rest;
        var key := Claimed(i, id);
        MatchedOne(known, declared, held, i, totals.Keys - rest, id);
        if key !in declared || declared[key] != totals[id] { return false; }
        assert totals.Keys - (rest - {id}) == totals.Keys - rest + {id};
        rest := rest - {id};
        declared := declared - {key};
      }
      assert totals.Keys - {} == totals.Keys;
      MatchedRow(known, declared, held, i, totals.Keys);
    }
    MatchedAll(known, declared, held);
    return declared == map[];
  }

  method CheckExpiries(inputs: seq<R.Point>, observed: map<R.Point, Coin>, floor: Expiry)
    returns (refusal: Option<Code>)
    ensures refusal.Some? ==> refusal.value in {InputUnspendable, InputExpiryUnknown, InputExpiryFloor}
    ensures refusal.None? ==>
              AllSpendable(inputs, observed) && ExpiriesKnown(inputs, observed)
                && ExpiriesReach(inputs, observed, floor)
    ensures refusal.None? ==> forall i :: 0 <= i < |inputs| ==> inputs[i] in observed
    ensures refusal == Some(InputUnspendable) ==> !AllSpendable(inputs, observed)
    ensures refusal == Some(InputExpiryUnknown) ==> !ExpiriesKnown(inputs, observed)
    ensures refusal == Some(InputExpiryFloor) ==> !ExpiriesReach(inputs, observed, floor)
  {
    for i := 0 to |inputs|
      invariant forall j :: 0 <= j < i ==>
        inputs[j] in observed && observed[inputs[j]].spendable && observed[inputs[j]].expiry.Some?
          && NotBefore(observed[inputs[j]].expiry.value, floor)
    {
      if inputs[i] !in observed || !observed[inputs[i]].spendable { return Some(InputUnspendable); }
      var expiry := observed[inputs[i]].expiry;
      if expiry.None? { return Some(InputExpiryUnknown); }
      if !NotBefore(expiry.value, floor) { return Some(InputExpiryFloor); }
    }
    return None;
  }

  // ----------------------------------------------------------- the validator

  method CheckCovenant(covenant: R.GraphOutput, quote: Quote, units: int) returns (refusal: Option<Code>)
    ensures refusal.Some? ==> refusal.value in {AssetUnitsInvalid, FareExceedsDelivery, CovenantAssetMismatch}
    ensures refusal.None? ==>
            units > 0 && FareBelow(quote.receiverFare, units) && Delivers(Some(covenant), quote.assetId, units)
    ensures refusal == Some(AssetUnitsInvalid) ==> !(units > 0)
    ensures refusal == Some(FareExceedsDelivery) ==> !FareBelow(quote.receiverFare, units)
    ensures refusal == Some(CovenantAssetMismatch) ==> !Delivers(Some(covenant), quote.assetId, units)
  {
    var delivered := Totals(covenant.assets);
    if units <= 0 { return Some(AssetUnitsInvalid); }
    if !FareBelow(quote.receiverFare, units) { return Some(FareExceedsDelivery); }
    if |delivered| != 1 || quote.assetId !in delivered || delivered[quote.assetId] != units {
      NotDelivered(covenant, delivered, quote.assetId, units);
      return Some(CovenantAssetMismatch);
    }
    Delivered(covenant.assets, delivered, quote.assetId);
    return None;
  }

  lemma NotDelivered(covenant: R.GraphOutput, delivered: map<AssetId, int>, id: AssetId, units: int)
    requires forall other :: other in delivered <==> Names(covenant.assets, other)
    requires forall other :: other in delivered ==> delivered[other] == UnitsOf(covenant.assets, other)
    requires |delivered| != 1 || id !in delivered || delivered[id] != units
    ensures !Delivers(Some(covenant), id, units)
  {
    hide Names;
    assert |delivered| == |delivered.Keys|;
    if id in delivered && |delivered| != 1 {
      assert delivered.Keys != {id};
      assert exists other :: other in delivered.Keys && other !in {id};
    }
  }

  lemma Delivered(assets: seq<Holding>, delivered: map<AssetId, int>, id: AssetId)
    requires forall other :: other in delivered <==> Names(assets, other)
    requires |delivered| == 1 && id in delivered
    ensures forall other :: Names(assets, other) <==> other == id
  {
    hide Names;
    assert |delivered.Keys - {id}| == 0;
    assert forall other :: other in delivered && other != id ==> other in delivered.Keys - {id};
  }

  method SumInputSats(inputs: seq<R.Point>, observed: map<R.Point, Coin>) returns (sats: int)
    requires forall i :: 0 <= i < |inputs| ==> inputs[i] in observed
    ensures sats == InputSats(inputs, observed)
  {
    sats := 0;
    for i := 0 to |inputs|
      invariant sats == InputSats(inputs[..i], observed)
    {
      assert inputs[..i + 1][..i] == inputs[..i];
      sats := sats + observed[inputs[i]].value;
    }
    assert inputs[..|inputs|] == inputs;
  }

  method SumOutputSats(outputs: seq<TxOutput>) returns (sats: int)
    ensures sats == OutputSats(outputs)
  {
    sats := 0;
    for i := 0 to |outputs|
      invariant sats == OutputSats(outputs[..i])
    {
      assert outputs[..i + 1][..i] == outputs[..i];
      sats := sats + outputs[i].amount;
    }
    assert outputs[..|outputs|] == outputs;
  }

  lemma DerivedCount(tx: Tx, checkpoints: seq<Checkpoint>)
    requires InputsDerive(tx, checkpoints)
    ensures |tx.inputs| == |Inputs(checkpoints)|
  {
  }

  lemma CovenantFound(covenant: Option<R.GraphOutput>, script: string, sats: nat)
    requires CovenantIs(covenant, script, sats)
    ensures covenant.Some?
  {
  }

  const SPENDS := {TaxiInputsDiffer, ForeignTaxiCoin, CheckpointMismatch}
  const PAYS := {CovenantOutputMismatch, AssetUnitsInvalid, FareExceedsDelivery, CovenantAssetMismatch, FareUnsupported,
                 UnpricedFare, OperatorPayoutMismatch, OutputLimitExceeded, OutputBelowFloor}
  const MOVES := {TaxiInputAssets, AssetNotConserved, InputUnspendable, InputExpiryUnknown, InputExpiryFloor,
                  GraphInvalid, SatsNotConserved}

  /** V1 to V4: whose coins the graph spends, and through which checkpoints. */
  method CheckSpends(a: Args) returns (refusal: Option<Code>, snapshots: map<int, Reserved>)
    ensures refusal.Some? ==> !Holds(a, refusal.value)
    ensures refusal.None? ==> InputsDerive(a.tx, a.checkpoints) && forall code :: code in SPENDS ==> Holds(a, code)
    ensures refusal.None? ==>
            Snapshots(a.taxiIndexes, Inputs(a.checkpoints), ReservedBy(a.quote.operatorInputs), snapshots)
  {
    hide Distinct, Inputs, InputsDerive, ReservedBy, NoForeignTaxiCoin, CheckpointsHold, SpendsReservation, Snapshots,
      OutputsDerive, HeaderFits, Outputs, FirstAt;
    snapshots := map[];
    var taxi := TaxiSet(a.taxiIndexes);
    var named := |taxi| == |a.taxiIndexes| && forall k :: 0 <= k < |a.taxiIndexes| ==>
      0 <= a.taxiIndexes[k] < |a.tx.inputs|;
    assert named <==> IndexesName(a.taxiIndexes, |a.tx.inputs|);
    hide IndexesName;
    if !named { return Some(TaxiInputsDiffer), snapshots; }
    if !InputsDerive(a.tx, a.checkpoints) { return Some(GraphInvalid), snapshots; }
    var inputs := Inputs(a.checkpoints);
    DerivedCount(a.tx, a.checkpoints);
    var reserved := ReservedMap(a.quote.operatorInputs);
    var found := MatchReservation(a.taxiIndexes, inputs, reserved, a.observed);
    if found.None? { return Some(TaxiInputsDiffer), snapshots; }
    snapshots := found.value;
    if !NoForeignTaxiCoin(a.taxiIndexes, inputs, a.observed, a.operatorScript) {
      return Some(ForeignTaxiCoin), snapshots;
    }
    if !CheckpointsHold(a.taxiIndexes, a.checkpointHolds) { return Some(CheckpointMismatch), snapshots; }
    return None, snapshots;
  }

  /** V5 to V8: what the outputs pay. */
  method CheckPays(a: Args, snapshots: map<int, Reserved>) returns (refusal: Option<Code>)
    requires Snapshots(a.taxiIndexes, Inputs(a.checkpoints), ReservedBy(a.quote.operatorInputs), snapshots)
    ensures refusal.Some? ==> !Holds(a, refusal.value)
    ensures refusal.None? ==> OutputsDerive(a.tx) && forall code :: code in PAYS ==> Holds(a, code)
  {
    hide Inputs, InputsDerive, ReservedBy, Snapshots, ContributedBy, OutputsDerive, HeaderFits, Outputs, FirstAt,
      CovenantIs, FareBelow, Delivers, Unpriced, PaysBack, AllWithin, AllAboveFloor, PaidTo;
    if !OutputsDerive(a.tx) { return Some(GraphInvalid); }
    var outputs := Outputs(a.tx);
    var covenant := FirstAt(outputs, a.covenantVout);
    if !CovenantIs(covenant, a.quote.covenantScript, a.quote.lockupSats) { return Some(CovenantOutputMismatch); }
    CovenantFound(covenant, a.quote.covenantScript, a.quote.lockupSats);
    refusal := CheckCovenant(covenant.value, a.quote, a.assetUnits);
    if refusal.Some? { return; }
    if !a.quote.fare.SatsFare? { return Some(FareUnsupported); }
    var contributed := Contributed(a.taxiIndexes, snapshots, Inputs(a.checkpoints), ReservedBy(a.quote.operatorInputs));
    var paid := Payout(outputs, a.operatorScript);
    if paid.None? { return Some(UnpricedFare); }
    if !PaysBack(paid.value, contributed, a.quote) { return Some(OperatorPayoutMismatch); }
    refusal := CheckOutputs(outputs, a.maxAmount, a.dust, a.vtxoMin);
  }

  /** V9, V10 and what follows: assets, expiry, header, sats. */
  method CheckMoves(a: Args) returns (refusal: Option<Code>)
    requires InputsDerive(a.tx, a.checkpoints) && OutputsDerive(a.tx)
    ensures refusal.Some? ==> !Holds(a, refusal.value)
    ensures refusal.None? ==> forall code :: code in MOVES ==> Holds(a, code)
  {
    hide Inputs, InputsDerive, OutputsDerive, Outputs, Groups, AnyTouchesTaxi, UniqueIds, GroupConserved,
      DeclaresHoldings, Declared, Held, Vouts, AllSpendable, ExpiriesKnown, ExpiriesReach, InputSats, OutputSats,
      FirstAt;
    var inputs, outputs := Inputs(a.checkpoints), Outputs(a.tx);
    DerivedCount(a.tx, a.checkpoints);
    var declared;
    refusal, declared := DeclareGroups(Groups(a.tx), IndexSet(a.taxiIndexes), |inputs|, Vouts(outputs));
    if refusal.Some? { return; }
    var conserved := CheckHoldings(Held(inputs, a.observed), declared);
    if !conserved { return Some(AssetNotConserved); }
    refusal := CheckExpiries(inputs, a.observed, a.quote.expiryFloor);
    if refusal.Some? { return; }
    if !HeaderFits(a.tx, |inputs|) { return Some(GraphInvalid); }
    var inputSats := SumInputSats(inputs, a.observed);
    var outputSats := SumOutputSats(a.tx.outputs);
    if inputSats != outputSats { return Some(SatsNotConserved); }
  }

  lemma EveryCode(code: Code)
    ensures code in SPENDS + PAYS + MOVES + {ForeignInputInvalid}
  {
  }

  /** Accepts a graph exactly when every rule holds, and names a rule that is broken when it refuses. */
  method AssertFillGraph(a: Args) returns (refusal: Option<Code>)
    ensures refusal.Some? ==> !Holds(a, refusal.value)
    ensures refusal.None? <==> Acceptable(a)
  {
    assert Holds(a, ForeignInputInvalid) <==> a.signaturesHold;
    hide Holds, InputsDerive, OutputsDerive, Snapshots;
    var snapshots;
    refusal, snapshots := CheckSpends(a);
    if refusal.Some? { return; }
    refusal := CheckPays(a, snapshots);
    if refusal.Some? { return; }
    refusal := CheckMoves(a);
    if refusal.Some? { return; }
    if !a.signaturesHold { return Some(ForeignInputInvalid); }
    forall code: Code ensures Holds(a, code) { EveryCode(code); }
    return None;
  }
}
