// What the joint validators accept and lay out, on the terms' own figures: whom each output pays and
// how much, and what it takes to be accepted.
module LayoutMeans {
  import opened Prelude
  import opened Assets
  import opened SpendPacket
  import opened CovenantSpend
  import opened JointLayout
  import Canonical
  import F = FillGraph
  import C = FillConservation

  /** The output pays this key: its witness program from a dust unit up, the OP_RETURN form below. */
  predicate PaysKey(o: Output, key: Key, dust: int) {
    if o.amount < dust then o.script == Return(key) else o.script == Program(key)
  }

  function ValueOf(inputs: seq<Input>): int {
    if inputs == [] then 0 else inputs[0].value + ValueOf(inputs[1..])
  }

  /** Units of one asset over all inputs. */
  function HeldOver(inputs: seq<Input>, id: AssetId): int {
    if inputs == [] then 0 else UnitsOf(inputs[0].assets, id) + HeldOver(inputs[1..], id)
  }

  predicate HeldByAny(inputs: seq<Input>, id: AssetId) {
    exists i :: 0 <= i < |inputs| && Names(inputs[i].assets, id)
  }

  /** Sats that host the fare: the fare itself in sats, one hosting unit for an asset fare, nothing for none. */
  function Hosting(t: Terms): int {
    match t.fare
    case InSats(units) => units
    case InUnits(units, _) => if units != 0 then t.assetHosting else 0
  }

  /** What the sender gets back: its coins and the contribution, less the first output and a fare it pays. */
  function SenderGets(t: Terms, sender: seq<Input>): int {
    ValueOf(sender) - t.first.amount + t.contribution - (if t.senderPaysFare then Hosting(t) else 0)
  }

  /** What the operator gets back beside the fare: its coins less the contribution and a fare nobody else pays. */
  function OperatorGets(t: Terms, operator: seq<Input>): int {
    ValueOf(operator) - t.contribution - (if t.senderPaysFare then 0 else Hosting(t))
  }

  /** The fare's own units of an asset. */
  function FareOf(t: Terms, id: AssetId): int {
    if t.fare.InUnits? && t.fare.assetId == Some(id) then t.fare.units else 0
  }

  /** The payment's units of an asset: those agreed, or whatever the fare leaves. */
  function PaymentOf(t: Terms, inputs: seq<Input>, id: AssetId): int {
    if t.paymentId != Some(id) then 0
    else match t.assetUnits
      case Some(units) => units
      case None => HeldOver(inputs, id) - FareOf(t, id)
  }

  predicate SomethingLeft(t: Terms, inputs: seq<Input>, id: AssetId) {
    HeldByAny(inputs, id) && HeldOver(inputs, id) - FareOf(t, id) - PaymentOf(t, inputs, id) > 0
  }

  ghost predicate AssetChange(t: Terms, inputs: seq<Input>) { exists id :: SomethingLeft(t, inputs, id) }

  // ------------------------------------------------------------- same figures

  lemma {:induction false} ValueIsSats(inputs: seq<Input>)
    ensures ValueOf(inputs) == Sats(inputs)
  {
    if inputs != [] {
      ValueIsSats(inputs[1..]);
      assert inputs == [inputs[0]] + inputs[1..];
      SatsConcat([inputs[0]], inputs[1..]);
      assert [inputs[0]][..0] == [];
    }
  }

  lemma {:induction false} HeldIsUnits(inputs: seq<Input>, id: AssetId)
    ensures HeldOver(inputs, id) == C.UnitsIn(AssetsOf(inputs), id)
  {
    if inputs != [] {
      assert AssetsOf(inputs)[1..] == AssetsOf(inputs[1..]);
      HeldIsUnits(inputs[1..], id);
    }
  }

  lemma IdsAreHeld(inputs: seq<Input>, id: AssetId)
    ensures var all := Flat(AssetsOf(inputs));
            && (id in Canonical.Sort(NewIds(all)) <==> HeldByAny(inputs, id))
            && UnitsOf(all, id) == HeldOver(inputs, id)
  {
    var sources := AssetsOf(inputs);
    HeldIsUnits(inputs, id);
    FlatUnits(sources, id);
    NewIdsFacts(Flat(sources), id);
    Canonical.SortKeeps(NewIds(Flat(sources)));
    hide Names, Flat, NewIds, UnitsOf, Canonical.Sort;
    if HeldByAny(inputs, id) {
      var i :| 0 <= i < |inputs| && Names(inputs[i].assets, id);
      assert Names(sources[i], id);
    }
    if v :| 0 <= v < |sources| && Names(sources[v], id) { assert Names(inputs[v].assets, id); }
  }

  lemma AmountsAre(t: Terms, sender: seq<Input>, operator: seq<Input>)
    ensures Hosting(t) == FareHosting(t)
    ensures SenderGets(t, sender) == SenderChange(t, sender) && OperatorGets(t, operator) == OperatorChange(t, operator)
  {
    ValueIsSats(sender);
    ValueIsSats(operator);
  }

  lemma QuantitiesAre(t: Terms, inputs: seq<Input>, id: AssetId)
    ensures var all := Flat(AssetsOf(inputs));
            && FareOf(t, id) == FareUnits(t, id) && PaymentOf(t, inputs, id) == PaymentUnits(t, id, UnitsOf(all, id))
            && (SomethingLeft(t, inputs, id) <==>
                  id in Canonical.Sort(NewIds(all)) && LeavesChange(t, id, UnitsOf(all, id)))
  {
    IdsAreHeld(inputs, id);
    hide Flat, NewIds, Canonical.Sort, UnitsOf, HeldByAny, HeldOver;
  }

  lemma AssetChangeMeans(t: Terms, inputs: seq<Input>)
    ensures var all := Flat(AssetsOf(inputs));
            AssetChange(t, inputs) <==> AnyChange(t, all, Canonical.Sort(NewIds(all)))
  {
    var all := Flat(AssetsOf(inputs));
    var ids := Canonical.Sort(NewIds(all));
    if AssetChange(t, inputs) {
      var id :| SomethingLeft(t, inputs, id);
      QuantitiesAre(t, inputs, id);
      var i :| 0 <= i < |ids| && ids[i] == id;
      assert LeavesChange(t, ids[i], UnitsOf(all, ids[i]));
    }
    if AnyChange(t, all, ids) {
      var i :| 0 <= i < |ids| && LeavesChange(t, ids[i], UnitsOf(all, ids[i]));
      QuantitiesAre(t, inputs, ids[i]);
      assert SomethingLeft(t, inputs, ids[i]);
    }
  }

  // ------------------------------------------------------------ whom it pays

  /** Fare and operator change would pay one script. */
  predicate Merged(t: Terms, operator: seq<Input>) {
    && Hosting(t) > 0 && OperatorGets(t, operator) > 0 && t.operatorKey == t.operatorTreeKey
    && (Hosting(t) < t.dust <==> OperatorGets(t, operator) < t.dust)
  }

  /** Outputs, place by place: the first one, the operator's fare, the sender's change, the operator's change. */
  ghost predicate LaidOut(t: Terms, sender: seq<Input>, operator: seq<Input>, outputs: seq<Output>) {
    var hosted := if Hosting(t) > 0 then 1 else 0;
    var toSender := if SenderGets(t, sender) > 0 || AssetChange(t, sender + operator) then 1 else 0;
    var toOperator := if OperatorGets(t, operator) > 0 && !Merged(t, operator) then 1 else 0;
    && |outputs| == 1 + hosted + toSender + toOperator
    && outputs[0] == t.first
    && (hosted == 1 ==>
          && PaysKey(outputs[1], t.operatorKey, t.dust)
          && outputs[1].amount == Hosting(t) + (if Merged(t, operator) then OperatorGets(t, operator) else 0))
    && (toSender == 1 ==>
          && PaysKey(outputs[1 + hosted], t.senderTreeKey, t.dust)
          && outputs[1 + hosted].amount == SenderGets(t, sender))
    && (toOperator == 1 ==>
          && PaysKey(outputs[|outputs| - 1], t.operatorTreeKey, t.dust)
          && outputs[|outputs| - 1].amount == OperatorGets(t, operator))
  }

  lemma MergedMeans(t: Terms, operator: seq<Input>)
    ensures Merged(t, operator) <==> MergesChange(t, OperatorChange(t, operator))
  {
    AmountsAre(t, [], operator);
  }

  lemma PaysKeyMeans(o: Output, key: Key, dust: int)
    ensures PaysKey(o, key, dust) <==> o.script == PayoutScript(key, o.amount, dust)
  {
  }

  lemma SameOutput(o: Output, key: Key, dust: int, amount: int)
    ensures PaysKey(o, key, dust) && o.amount == amount <==> o == Output(PayoutScript(key, amount, dust), amount)
  {
  }

  lemma BuiltIsLaidOut(t: Terms, sender: seq<Input>, operator: seq<Input>)
    ensures LaidOut(t, sender, operator,
              OutputsOf(t, SenderChange(t, sender), OperatorChange(t, operator), AssetChange(t, sender + operator)))
  {
    AmountsAre(t, sender, operator);
    MergedMeans(t, operator);
    hide SenderChange, OperatorChange, FareHosting, Hosting, SenderGets, OperatorGets, Merged, MergesChange,
      AssetChange;
  }

  /** Only one list of outputs is laid out so. */
  lemma LaidOutIsUnique(t: Terms, sender: seq<Input>, operator: seq<Input>, outputs: seq<Output>, others: seq<Output>)
    requires LaidOut(t, sender, operator, outputs) && LaidOut(t, sender, operator, others)
    ensures outputs == others
  {
    hide Hosting, SenderGets, OperatorGets, Merged, AssetChange;
    assert |outputs| == |others|;
    forall i | 0 <= i < |outputs| ensures outputs[i] == others[i] {
      if i == 0 {
      } else if i == 1 && Hosting(t) > 0 {
        assert outputs[1].amount == others[1].amount;
      } else if i == |outputs| - 1 && OperatorGets(t, operator) > 0 && !Merged(t, operator) {
        assert outputs[i].amount == others[i].amount;
      } else {
        assert outputs[i].amount == SenderGets(t, sender) == others[i].amount;
      }
    }
  }

  /** An accepted layout pays the covenant, the fare, the sender and the operator, in this order and no one else. */
  lemma AcceptedIsLaidOut(t: Terms, sender: seq<Input>, operator: seq<Input>, layout: Layout)
    requires LayoutOf(t, sender, operator) == Ok(layout)
    ensures LaidOut(t, sender, operator, layout.outputs)
  {
    AssetChangeMeans(t, sender + operator);
    BuiltIsLaidOut(t, sender, operator);
    hide TotalSats, Sats, UnitsOf, Flat, NewIds, AllFit, AnyChange, GroupsOf, AnyBelow, SharesScript, AllBalanced,
      Canonical.Sort, OutputsOf, EarlyReject, LaidOut, AssetChange;
  }

  /**
   * What the operator gets back over the outputs that pay its keys: its coins less the contribution,
   * and the fare on top where the sender pays it.
   */
  lemma OperatorIsPaidBack(t: Terms, sender: seq<Input>, operator: seq<Input>, layout: Layout)
    requires LayoutOf(t, sender, operator) == Ok(layout)
    ensures var fare := if Hosting(t) > 0 then layout.outputs[1].amount else 0;
            var change := if OperatorGets(t, operator) > 0 && !Merged(t, operator)
                          then layout.outputs[|layout.outputs| - 1].amount else 0;
            fare + change == ValueOf(operator) - t.contribution + (if t.senderPaysFare then Hosting(t) else 0)
  {
    AcceptedIsLaidOut(t, sender, operator, layout);
    AmountsAre(t, sender, operator);
    AcceptedAmounts(t, sender, operator, layout);
    hide LayoutOf, SenderGets, AssetChange, PaysKey;
  }

  lemma AcceptedAmounts(t: Terms, sender: seq<Input>, operator: seq<Input>, layout: Layout)
    requires LayoutOf(t, sender, operator) == Ok(layout)
    ensures SenderGets(t, sender) >= 0 && OperatorGets(t, operator) >= 0 && Hosting(t) >= 0
  {
    AmountsAre(t, sender, operator);
    var all := Flat(AssetsOf(sender + operator));
    var needsChange := AnyChange(t, all, Canonical.Sort(NewIds(all)));
    hide TotalSats, Sats, UnitsOf, Flat, NewIds, AllFit, AnyChange, GroupsOf, AnyBelow, SharesScript, AllBalanced,
      Canonical.Sort, OutputsOf, SenderGets, OperatorGets, Hosting, FareHosting;
    SatsBalance(t, sender, operator, needsChange);
  }

  // ------------------------------------------------------------ when it accepts

  /** Both sides fund, and whoever pays a sats fare is told so. */
  predicate Funded(t: Terms, sender: seq<Input>, operator: seq<Input>) {
    && |sender| >= 1 && |operator| >= 1
    && (t.senderPaysFare ==> t.fare.InSats? && t.fare.units >= 1)
    && SenderGets(t, sender) >= 0 && OperatorGets(t, operator) >= 0 && Hosting(t) >= 0
  }

  /** The declared quantity is the agreed one, and each asset covers its fare and payment. */
  ghost predicate QuantitiesAgree(t: Terms, inputs: seq<Input>) {
    && t.declaredUnits == (match t.paymentId
                           case None => t.assetUnits
                           case Some(id) => Some(PaymentOf(t, inputs, id)))
    && (t.paymentId.Some? ==> HeldByAny(inputs, t.paymentId.value) && PaymentOf(t, inputs, t.paymentId.value) >= 1)
    && (t.fare.InUnits? && t.fare.assetId.Some? && t.fare.units != 0 ==> HeldByAny(inputs, t.fare.assetId.value))
    && forall id :: HeldByAny(inputs, id) ==>
         && PaymentOf(t, inputs, id) >= 0 && FareOf(t, id) <= HeldOver(inputs, id)
         && FareOf(t, id) + PaymentOf(t, inputs, id) <= HeldOver(inputs, id)
  }

  /** Every output meets the floor, no two share a script, and asset change has sats to ride on. */
  ghost predicate Standable(t: Terms, sender: seq<Input>, operator: seq<Input>, outputs: seq<Output>) {
    && (forall i :: 0 <= i < |outputs| ==> outputs[i].amount >= t.floor)
    && (forall i, j :: 0 <= i < j < |outputs| ==> outputs[i].script != outputs[j].script)
    && (AssetChange(t, sender + operator) ==> SenderGets(t, sender) >= t.vtxoMin)
  }

  lemma EarlyMeans(t: Terms, sender: seq<Input>, operator: seq<Input>)
    ensures var inputs := sender + operator;
            var all := Flat(AssetsOf(inputs));
            EarlyReject(t, sender, operator, all, Canonical.Sort(NewIds(all))).None? && Hosting(t) >= 0 <==>
            && Funded(t, sender, operator) && QuantitiesAgree(t, inputs)
            && (AssetChange(t, inputs) ==> SenderGets(t, sender) >= t.vtxoMin)
  {
    var inputs := sender + operator;
    var all := Flat(AssetsOf(inputs));
    var ids := Canonical.Sort(NewIds(all));
    AmountsAre(t, sender, operator);
    AssetChangeMeans(t, inputs);
    forall id
      ensures id in ids <==> HeldByAny(inputs, id)
      ensures UnitsOf(all, id) == HeldOver(inputs, id)
      ensures FareOf(t, id) == FareUnits(t, id) && PaymentOf(t, inputs, id) == PaymentUnits(t, id, UnitsOf(all, id))
    {
      IdsAreHeld(inputs, id);
      QuantitiesAre(t, inputs, id);
    }
    FitsMean(t, inputs, all, ids);
    hide Flat, NewIds, Canonical.Sort, UnitsOf, HeldByAny, HeldOver, AllFit, AnyChange, AssetChange, SenderGets,
      OperatorGets, SenderChange, OperatorChange, Hosting, FareHosting, FareOf, FareUnits, PaymentOf, PaymentUnits;
  }

  /** Each asset's quantities, over all assets held. */
  lemma FitsMean(t: Terms, inputs: seq<Input>, all: seq<Holding>, ids: seq<AssetId>)
    requires forall id :: id in ids <==> HeldByAny(inputs, id)
    requires forall id :: UnitsOf(all, id) == HeldOver(inputs, id) && FareOf(t, id) == FareUnits(t, id)
                          && PaymentOf(t, inputs, id) == PaymentUnits(t, id, UnitsOf(all, id))
    ensures AllFit(t, all, ids) <==>
            forall id :: HeldByAny(inputs, id) ==>
              && PaymentOf(t, inputs, id) >= 0 && FareOf(t, id) <= HeldOver(inputs, id)
              && FareOf(t, id) + PaymentOf(t, inputs, id) <= HeldOver(inputs, id)
              && (t.paymentId == Some(id) ==> PaymentOf(t, inputs, id) != 0)
  {
    hide UnitsOf, HeldByAny, HeldOver, FareOf, FareUnits, PaymentOf, PaymentUnits;
    forall id | HeldByAny(inputs, id) ensures exists i :: 0 <= i < |ids| && ids[i] == id { assert id in ids; }
    forall i | 0 <= i < |ids| ensures HeldByAny(inputs, ids[i]) { assert ids[i] in ids; }
  }

  /**
   * The validators accept terms exactly when both sides are funded, the quantities agree with what the
   * inputs hold, and the outputs laid out for them can stand.
   */
  lemma AcceptedExactlyWhen(t: Terms, sender: seq<Input>, operator: seq<Input>)
    requires t.assetHosting > 0
    ensures LayoutOf(t, sender, operator).Ok? <==>
            && Funded(t, sender, operator) && QuantitiesAgree(t, sender + operator)
            && exists outputs :: LaidOut(t, sender, operator, outputs) && Standable(t, sender, operator, outputs)
  {
    var inputs := sender + operator;
    var all := Flat(AssetsOf(inputs));
    var ids := Canonical.Sort(NewIds(all));
    var needsChange := AnyChange(t, all, ids);
    var outputs := OutputsOf(t, SenderChange(t, sender), OperatorChange(t, operator), needsChange);
    EarlyMeans(t, sender, operator);
    AssetChangeMeans(t, inputs);
    BuiltIsLaidOut(t, sender, operator);
    FinalRejectionsAreUnreachable(t, sender, operator);
    AmountsAre(t, sender, operator);
    assert AnyBelow(outputs, t.floor) || SharesScript(outputs) || !(needsChange ==> SenderGets(t, sender) >= t.vtxoMin)
           <==> !Standable(t, sender, operator, outputs);
    hide TotalSats, Sats, UnitsOf, Flat, NewIds, AllFit, AnyChange, GroupsOf, AnyBelow, SharesScript, AllBalanced,
      Canonical.Sort, OutputsOf, EarlyReject, LaidOut, AssetChange, Funded, QuantitiesAgree, Standable, Hosting,
      FareHosting, SenderGets, OperatorGets, SenderChange, OperatorChange, ChangeVout;
    if other :| LaidOut(t, sender, operator, other) && Standable(t, sender, operator, other) {
      LaidOutIsUnique(t, sender, operator, other, outputs);
    }
    if Hosting(t) < 0 && EarlyReject(t, sender, operator, all, ids).None? {
      SatsUnbalancedBelow(t, sender, operator, needsChange);
    }
  }

  lemma SatsUnbalancedBelow(t: Terms, sender: seq<Input>, operator: seq<Input>, needsChange: bool)
    requires FareHosting(t) < 0 && SenderChange(t, sender) >= 0 && OperatorChange(t, operator) >= 0
    ensures TotalSats(OutputsOf(t, SenderChange(t, sender), OperatorChange(t, operator), needsChange))
            != Sats(sender + operator)
  {
    SatsBalance(t, sender, operator, needsChange);
  }

  // ----------------------------------------------------------- the two callers

  lemma AcceptedStands(t: Terms, sender: seq<Input>, operator: seq<Input>, layout: Layout)
    requires t.assetHosting > 0 && LayoutOf(t, sender, operator) == Ok(layout)
    ensures LaidOut(t, sender, operator, layout.outputs) && Standable(t, sender, operator, layout.outputs)
    ensures layout.outputs != [] && layout.outputs[0] == t.first
    ensures Hosting(t) > 0 ==>
              |layout.outputs| >= 2 && PaysKey(layout.outputs[1], t.operatorKey, t.dust)
              && (t.operatorKey != t.operatorTreeKey ==> layout.outputs[1].amount == Hosting(t))
  {
    AcceptedIsLaidOut(t, sender, operator, layout);
    AcceptedExactlyWhen(t, sender, operator);
    hide LayoutOf, SenderGets, OperatorGets, AssetChange, QuantitiesAgree, Funded, PaysKey, Hosting;
    var outputs :| LaidOut(t, sender, operator, outputs) && Standable(t, sender, operator, outputs);
    LaidOutIsUnique(t, sender, operator, outputs, layout.outputs);
  }

  /** An accepted lockup pays the covenant the dust that carries it and any payment in sats. */
  lemma LockupPays(
    p: Params, covenant: Script, rest: Terms, sender: seq<Input>, operator: seq<Input>, layout: Layout)
    requires p.dust > 0 && LayoutOf(LockupTerms(p, covenant, rest), sender, operator) == Ok(layout)
    ensures layout.outputs != [] && layout.outputs[0].script == covenant
    ensures layout.outputs[0].amount == match p.paymentSats { case Some(sats) => p.dust + sats case None => p.dust }
    ensures forall i :: 0 <= i < |layout.outputs| ==> layout.outputs[i].amount >= p.dust
    ensures rest.fare.InUnits? && rest.fare.units != 0 ==>
              |layout.outputs| >= 2 && PaysKey(layout.outputs[1], rest.operatorKey, p.dust)
              && (rest.operatorKey != rest.operatorTreeKey ==> layout.outputs[1].amount == p.dust)
    ensures OperatorGets(LockupTerms(p, covenant, rest), operator)
            == ValueOf(operator) - p.topup
               - (if rest.senderPaysFare || rest.fare.units == 0 then 0
                  else if rest.fare.InSats? then rest.fare.units else p.dust)
  {
    hide LayoutOf, SenderGets, AssetChange, ValueOf, QuantitiesAgree, Funded, PaysKey, LaidOut;
    var t := LockupTerms(p, covenant, rest);
    AcceptedStands(t, sender, operator, layout);
  }

  /** An accepted sponsored payment pays the receiver the dust and any payment in sats. */
  lemma SponsoredPays(
    dust: int, paymentSats: Option<int>, contribution: int, receiver: Script, rest: Terms, sender: seq<Input>,
    operator: seq<Input>, layout: Layout)
    requires rest.vtxoMin > 0
    requires LayoutOf(SponsoredTerms(dust, paymentSats, contribution, receiver, rest), sender, operator) == Ok(layout)
    ensures layout.outputs != [] && layout.outputs[0].script == receiver
    ensures layout.outputs[0].amount == match paymentSats { case Some(sats) => dust + sats case None => dust }
    ensures forall i :: 0 <= i < |layout.outputs| ==> layout.outputs[i].amount >= rest.vtxoMin
    ensures rest.fare.InUnits? && rest.fare.units != 0 ==>
              |layout.outputs| >= 2 && PaysKey(layout.outputs[1], rest.operatorKey, dust)
              && (rest.operatorKey != rest.operatorTreeKey ==> layout.outputs[1].amount == rest.vtxoMin)
    ensures OperatorGets(SponsoredTerms(dust, paymentSats, contribution, receiver, rest), operator)
            == ValueOf(operator) - contribution
               - (if rest.senderPaysFare || rest.fare.units == 0 then 0
                  else if rest.fare.InSats? then rest.fare.units else rest.vtxoMin)
  {
    hide LayoutOf, SenderGets, AssetChange, ValueOf, QuantitiesAgree, Funded, PaysKey, LaidOut;
    var t := SponsoredTerms(dust, paymentSats, contribution, receiver, rest);
    AcceptedStands(t, sender, operator, layout);
  }
}
