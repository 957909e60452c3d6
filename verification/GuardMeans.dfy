// What `assertProceedsPlan` and the guard before submission demand, on the fields of a plan and of the
// coins it spends: when a plan may be submitted, and what each refusal says.
module GuardMeans {
  import opened Prelude
  import opened Assets
  import opened SpendPacket
  import opened Proceeds
  import Canonical
  import C = FillConservation

  // ---------------------------------------------------------------- in sums

  function ValueOf(): Coin -> int { (c: Coin) => c.value }

  function Itself(): int -> int { (n: int) => n }

  /** The SDK's quote for the inputs. */
  function QuotedInputs(coins: seq<Coin>, fees: Fees): int { Sum(coins, (c: Coin) => fees.input(c)) }

  /** The SDK's quote for outputs of these amounts. */
  function QuotedOutputs(amounts: seq<int>, fees: Fees): int { Sum(amounts, (n: int) => fees.output(n)) }

  lemma {:induction false} TotalIs(coins: seq<Coin>)
    ensures Total(coins) == Sum(coins, ValueOf())
  {
    if coins != [] {
      var n := |coins| - 1;
      TotalIs(coins[..n]);
      SumSnoc(coins[..n], coins[n], ValueOf());
      assert coins[..n] + [coins[n]] == coins;
    }
  }

  lemma {:induction false} SumOfIs(amounts: seq<int>)
    ensures SumOf(amounts) == Sum(amounts, Itself())
  {
    if amounts != [] {
      var n := |amounts| - 1;
      SumOfIs(amounts[..n]);
      SumSnoc(amounts[..n], amounts[n], Itself());
      assert amounts[..n] + [amounts[n]] == amounts;
    }
  }

  lemma {:induction false} InputFeesAre(coins: seq<Coin>, fees: Fees)
    ensures InputFees(coins, fees) == QuotedInputs(coins, fees)
  {
    if coins != [] {
      var n := |coins| - 1;
      InputFeesAre(coins[..n], fees);
      SumSnoc(coins[..n], coins[n], (c: Coin) => fees.input(c));
      assert coins[..n] + [coins[n]] == coins;
    }
  }

  lemma {:induction false} OutputFeesAre(amounts: seq<int>, fees: Fees)
    ensures OutputFees(amounts, fees) == QuotedOutputs(amounts, fees)
  {
    if amounts != [] {
      var n := |amounts| - 1;
      OutputFeesAre(amounts[..n], fees);
      SumSnoc(amounts[..n], amounts[n], (n: int) => fees.output(n));
      assert amounts[..n] + [amounts[n]] == amounts;
    }
  }

  /** Fees of spending the coins into these outputs. */
  function FeeFor(coins: seq<Coin>, amounts: seq<int>, fees: Fees): int {
    QuotedInputs(coins, fees) + QuotedOutputs(amounts, fees)
  }

  /** Fees of spending the coins into one output, quoted on what the inputs' own fees leave. */
  function FeeForOne(coins: seq<Coin>, fees: Fees): int {
    FeeFor(coins, [Sum(coins, ValueOf()) - QuotedInputs(coins, fees)], fees)
  }

  lemma FeesAre(coins: seq<Coin>, fees: Fees, outputs: Option<seq<int>>)
    ensures ProceedsFee(coins, fees, outputs)
            == if outputs.Some? then FeeFor(coins, outputs.value, fees) else FeeForOne(coins, fees)
  {
    TotalIs(coins);
    InputFeesAre(coins, fees);
    if outputs.Some? {
      OutputFeesAre(outputs.value, fees);
    } else {
      var left := Sum(coins, ValueOf()) - QuotedInputs(coins, fees);
      SumOfOne(left, (n: int) => fees.output(n));
    }
  }

  // ------------------------------------------------------------- coin by coin

  /** Pays the operator's key, still live, and worth a positive safe amount. */
  predicate Ours(c: Coin, cfg: Cfg) {
    c.script == cfg.operatorScript && c.live && c.value > 0 && c.value <= 9007199254740991
  }

  /** The coin backs the reserve with its sats: no assets, spendable offchain, not renewing, not expiring soon. */
  predicate Backs(c: Coin) { c.assets == [] && c.offchain && !c.renewing && c.roomy }

  predicate CarriedBy(c: Coin, id: AssetId) { exists k :: 0 <= k < |c.assets| && c.assets[k].assetId == id }

  predicate Carried(coins: seq<Coin>, id: AssetId) { exists i :: 0 <= i < |coins| && CarriedBy(coins[i], id) }

  function UnitsCarried(coins: seq<Coin>, id: AssetId): int { Sum(coins, (c: Coin) => UnitsAmong(c.assets, id)) }

  /** Every asset the coins carry, once and in order, with all its units. */
  ghost predicate Lists(held: seq<Holding>, coins: seq<Coin>) {
    && (forall i, j :: 0 <= i < j < |held| ==> Canonical.Before(held[i].assetId, held[j].assetId))
    && (forall i :: 0 <= i < |held| ==> Carried(coins, held[i].assetId))
    && (forall i :: 0 <= i < |held| ==> held[i].units == UnitsCarried(coins, held[i].assetId))
    && forall id :: Carried(coins, id) ==> Listed(held, id)
  }

  predicate Listed(held: seq<Holding>, id: AssetId) { exists i :: 0 <= i < |held| && held[i].assetId == id }

  lemma {:induction false} UnitsCarriedIs(coins: seq<Coin>, id: AssetId)
    ensures UnitsCarried(coins, id) == C.UnitsIn(AssetLists(coins), id)
  {
    if coins != [] {
      UnitsAmongIs(coins[0].assets, id);
      UnitsCarriedIs(coins[1..], id);
      assert AssetLists(coins)[1..] == AssetLists(coins[1..]);
    }
  }

  lemma CarriedIs(coins: seq<Coin>, id: AssetId)
    ensures Names(Flat(AssetLists(coins)), id) <==> Carried(coins, id)
    ensures UnitsOf(Flat(AssetLists(coins)), id) == UnitsCarried(coins, id)
  {
    var lists := AssetLists(coins);
    FlatUnits(lists, id);
    UnitsCarriedIs(coins, id);
    hide Flat, UnitsOf, UnitsCarried, C.UnitsIn;
    if v :| 0 <= v < |lists| && Names(lists[v], id) { assert CarriedBy(coins[v], id); }
    if Carried(coins, id) {
      var i :| 0 <= i < |coins| && CarriedBy(coins[i], id);
      assert Names(lists[i], id);
    }
  }

  function IdsOf(held: seq<Holding>): (r: seq<AssetId>)
    ensures |r| == |held| && forall i :: 0 <= i < |r| ==> r[i] == held[i].assetId
  {
    seq(|held|, i requires 0 <= i < |held| => held[i].assetId)
  }

  lemma HoldingsIds(coins: seq<Coin>)
    ensures var ids := Canonical.Sort(NewIds(Flat(AssetLists(coins))));
            Canonical.Ascending(ids) && (forall id :: id in ids <==> Carried(coins, id))
  {
    var all := Flat(AssetLists(coins));
    NewIdsFacts(all, []);
    Canonical.SortAscends(NewIds(all));
    Canonical.SortKeeps(NewIds(all));
    hide Canonical.Sort, NewIds, Flat, Carried;
    forall id ensures id in NewIds(all) <==> Carried(coins, id) {
      NewIdsFacts(all, id);
      CarriedIs(coins, id);
    }
  }

  lemma ListsFacts(held: seq<Holding>, coins: seq<Coin>)
    requires Lists(held, coins)
    ensures Canonical.Ascending(IdsOf(held)) && (forall id :: id in IdsOf(held) <==> Carried(coins, id))
  {
    hide Carried;
    forall id | Carried(coins, id) ensures id in IdsOf(held) {
      assert Listed(held, id);
      var i :| 0 <= i < |held| && held[i].assetId == id;
      assert IdsOf(held)[i] == id;
    }
  }

  /** `holdings` lists every asset carried, sorted, with its units over all coins, and nothing else does. */
  lemma HoldingsMean(coins: seq<Coin>, held: seq<Holding>)
    ensures HoldingsOf(coins) == held <==> Lists(held, coins)
  {
    var all := Flat(AssetLists(coins));
    var ids := Canonical.Sort(NewIds(all));
    assert HoldingsOf(coins) == Summed(all, ids);
    HoldingsIds(coins);
    forall id ensures UnitsOf(all, id) == UnitsCarried(coins, id) { CarriedIs(coins, id); }
    hide HoldingsOf, Carried, UnitsCarried, Flat, NewIds, Canonical.Sort, UnitsOf;
    if held == Summed(all, ids) {
      forall i | 0 <= i < |held| ensures Carried(coins, held[i].assetId) { assert ids[i] in ids; }
      forall id | Carried(coins, id) ensures Listed(held, id) {
        var i :| 0 <= i < |ids| && ids[i] == id;
        assert held[i].assetId == id;
      }
    }
    if Lists(held, coins) {
      ListsFacts(held, coins);
      Canonical.AscendingIsUnique(IdsOf(held), ids);
      assert held == Summed(all, ids);
    }
  }

  /** The recorded facts are those of the coin. */
  ghost predicate RecordedAs(facts: Facts, c: Coin) {
    facts.key == c.key && facts.value == c.value && facts.script == c.script && Lists(facts.assets, [c])
  }

  ghost predicate AllRecorded(facts: seq<Facts>, coins: seq<Coin>) {
    |facts| == |coins| && forall i :: 0 <= i < |coins| ==> RecordedAs(facts[i], coins[i])
  }

  lemma RecordedMeans(facts: seq<Facts>, coins: seq<Coin>)
    ensures facts == AllFacts(coins) <==> AllRecorded(facts, coins)
  {
    hide HoldingsOf, Lists;
    if |facts| == |coins| {
      forall i | 0 <= i < |coins| ensures facts[i] == FactsOf(coins[i]) <==> RecordedAs(facts[i], coins[i]) {
        HoldingsMean([coins[i]], facts[i].assets);
      }
    }
  }

  /** Every asset amount is positive. */
  predicate Positive(coins: seq<Coin>) {
    forall c, k :: c in coins && 0 <= k < |c.assets| ==> c.assets[k].units > 0
  }

  lemma PositiveMeans(coins: seq<Coin>)
    ensures PositiveAssets(coins) <==> Positive(coins)
  {
  }

  predicate Bare(coins: seq<Coin>) { forall i :: 0 <= i < |coins| ==> coins[i].assets == [] }

  lemma NothingListed(coins: seq<Coin>)
    ensures Lists([], coins) <==> Bare(coins)
  {
    if i :| 0 <= i < |coins| && coins[i].assets != [] {
      assert CarriedBy(coins[i], coins[i].assets[0].assetId);
      assert Carried(coins, coins[i].assets[0].assetId);
      assert !Listed([], coins[i].assets[0].assetId);
    }
  }

  // ---------------------------------------------------------------- the checker

  predicate SpendsInOrder(plan: Plan, coins: seq<Coin>) {
    |plan.inputs| == |coins| && forall i :: 0 <= i < |coins| ==> plan.inputs[i] == coins[i].key
  }

  /** Two to eight outputs of at least two dust each, the first with the reserve beside a dust, in all `amount`. */
  predicate SplitInto(outputs: seq<int>, amount: int, cfg: Cfg) {
    && 2 <= |outputs| <= 8 && outputs[0] - cfg.dust >= cfg.minReserve
    && (forall i :: 0 <= i < |outputs| ==>
          outputs[i] > 0 && outputs[i] >= 2 * cfg.dust && outputs[i] <= 9007199254740991)
    && Sum(outputs, Itself()) == amount
  }

  lemma SplitIntoMeans(outputs: seq<int>, amount: int, cfg: Cfg)
    requires cfg.dust > 0
    ensures SplitInto(outputs, amount, cfg) <==> AmountsHold(outputs, amount, cfg)
  {
    SumOfIs(outputs);
    hide Sum, SumOf;
  }

  /** What an inventory split has to satisfy, apart from `maxAmount`. */
  ghost predicate SplitTerms(plan: Plan, coins: seq<Coin>, cfg: Cfg) {
    && plan.address == cfg.address && plan.receipts == [] && plan.assets == [] && plan.plainChange == None
    && |coins| == 1 && coins[0].wellFormed && coins[0].value > 0 && coins[0].value <= 9007199254740991
    && coins[0].script == cfg.operatorScript && coins[0].assets == []
    && SpendsInOrder(plan, coins) && AllRecorded(plan.coins, coins)
    && plan.fee >= 0 && plan.fee <= plan.maxFee && plan.maxFee <= cfg.maxFee && plan.amount > 0
    && plan.outputs.Some? && SplitInto(plan.outputs.value, plan.amount, cfg)
    && coins[0].value == plan.amount + plan.fee
  }

  /** Coin `i` is the first that is no receipt: the sponsor. */
  predicate SponsoredBy(plan: Plan, coins: seq<Coin>, i: nat) {
    i < |coins| && coins[i].key !in plan.receipts && forall j :: 0 <= j < i ==> coins[j].key in plan.receipts
  }

  predicate NoKeyTwice(coins: seq<Coin>) {
    forall i, j :: 0 <= i < j < |coins| ==> coins[i].key != coins[j].key
  }

  predicate HasKey(coins: seq<Coin>, k: Key) { exists i :: 0 <= i < |coins| && coins[i].key == k }

  /** What a collection has to satisfy, apart from `maxAmount`. */
  ghost predicate CollectionTerms(plan: Plan, coins: seq<Coin>, cfg: Cfg) {
    && plan.address == cfg.address && plan.outputs == None
    && plan.fee >= 0 && plan.fee <= plan.maxFee && plan.amount > 0 && plan.amount >= cfg.dust
    && Sum(coins, ValueOf()) == plan.amount + plan.fee
    && Positive(coins) && Lists(plan.assets, coins)
    && SpendsInOrder(plan, coins) && AllRecorded(plan.coins, coins)
    && plan.receipts != [] && NoKeyTwice(coins)
    && (forall i, j :: 0 <= i < j < |plan.receipts| ==> plan.receipts[i] != plan.receipts[j])
    && (forall k :: k in plan.receipts ==> HasKey(coins, k))
    && |coins| <= |plan.receipts| + 1
    && (plan.plainChange.Some? ==>
          && plan.amount == cfg.dust + plan.plainChange.value
          && plan.plainChange.value > 0 && plan.plainChange.value >= cfg.dust
          && plan.plainChange.value >= cfg.minReserve
          && !Bare(coins) && exists i: nat :: SponsoredBy(plan, coins, i) && coins[i].assets == [])
  }

  lemma {:induction false} FirstOtherMeans(plan: Plan, coins: seq<Coin>) returns (at: nat)
    ensures FirstOther(plan, coins).Some? ==> SponsoredBy(plan, coins, at) && FirstOther(plan, coins).value == coins[at]
    ensures FirstOther(plan, coins).None? ==> forall i :: 0 <= i < |coins| ==> coins[i].key in plan.receipts
  {
    at := 0;
    if coins != [] && coins[0].key in plan.receipts {
      at := FirstOtherMeans(plan, coins[1..]);
      at := at + 1;
      if FirstOther(plan, coins).Some? {
        forall j | 0 <= j < at ensures coins[j].key in plan.receipts {
          if j > 0 { assert coins[1..][j - 1] == coins[j]; }
        }
      } else {
        forall i | 0 <= i < |coins| ensures coins[i].key in plan.receipts {
          if i > 0 { assert coins[1..][i - 1] == coins[i]; }
        }
      }
    }
  }

  lemma SponsorIsFirst(plan: Plan, coins: seq<Coin>, i: nat)
    requires SponsoredBy(plan, coins, i)
    ensures FirstOther(plan, coins) == Some(coins[i])
  {
    var at := FirstOtherMeans(plan, coins);
    assert at == i;
  }

  lemma KeysMean(coins: seq<Coin>)
    ensures Distinct(Keys(coins)) <==> NoKeyTwice(coins)
    ensures forall k :: k in Keys(coins) <==> HasKey(coins, k)
  {
    if NoKeyTwice(coins) {
      forall i, j | 0 <= i < j < |coins| ensures Keys(coins)[i] != Keys(coins)[j] {}
    }
    if Distinct(Keys(coins)) {
      forall i, j | 0 <= i < j < |coins| ensures coins[i].key != coins[j].key {
        assert Keys(coins)[i] != Keys(coins)[j];
      }
    }
    forall k | HasKey(coins, k) ensures k in Keys(coins) {
      var i :| 0 <= i < |coins| && coins[i].key == k;
      assert Keys(coins)[i] == k;
    }
  }

  lemma InputsMean(plan: Plan, coins: seq<Coin>)
    ensures plan.inputs == Keys(coins) <==> SpendsInOrder(plan, coins)
  {
  }

  lemma BareHoldings(coins: seq<Coin>)
    ensures PositiveAssets(coins) && HoldingsOf(coins) == [] <==> Bare(coins)
  {
    HoldingsMean(coins, []);
    NothingListed(coins);
    hide HoldingsOf, Lists;
  }

  lemma LoneCoin(coins: seq<Coin>)
    requires |coins| == 1
    ensures (Bare(coins) <==> coins[0].assets == []) && Total(coins) == coins[0].value
  {
    assert coins[..0] == [];
  }

  lemma SplitMeans(plan: Plan, coins: seq<Coin>, cfg: Cfg)
    requires plan.split && cfg.dust > 0
    ensures PlanHolds(plan, coins, cfg) <==> SplitTerms(plan, coins, cfg)
  {
    hide Keys, AllFacts, AllRecorded, SpendsInOrder, HoldingsOf, Lists, SumOf, SplitInto, AmountsHold, Sum,
      PositiveAssets, CollectionHolds, Bare, Total;
    InputsMean(plan, coins);
    RecordedMeans(plan.coins, coins);
    BareHoldings(coins);
    if plan.outputs.Some? { SplitIntoMeans(plan.outputs.value, plan.amount, cfg); }
    if |coins| == 1 { LoneCoin(coins); }
  }

  lemma ChangeMeans(plan: Plan, coins: seq<Coin>)
    ensures (FirstOther(plan, coins).Some? && FirstOther(plan, coins).value.assets == [])
            <==> exists i: nat :: SponsoredBy(plan, coins, i) && coins[i].assets == []
  {
    var at := FirstOtherMeans(plan, coins);
    if i: nat :| SponsoredBy(plan, coins, i) && coins[i].assets == [] { SponsorIsFirst(plan, coins, i); }
  }

  lemma CollectionMeans(plan: Plan, coins: seq<Coin>, cfg: Cfg)
    requires !plan.split
    ensures PlanHolds(plan, coins, cfg) <==> CollectionTerms(plan, coins, cfg)
  {
    InputsMean(plan, coins);
    RecordedMeans(plan.coins, coins);
    PositiveMeans(coins);
    HoldingsMean(coins, plan.assets);
    HoldingsMean(coins, []);
    NothingListed(coins);
    TotalIs(coins);
    KeysMean(coins);
    ChangeMeans(plan, coins);
    hide Keys, AllFacts, AllRecorded, SpendsInOrder, HoldingsOf, Lists, Total, Sum, PositiveAssets, Positive,
      NoKeyTwice, HasKey, FirstOther, SponsoredBy, Bare;
  }

  // ------------------------------------------------------------------ the guard

  /** The amounts the plan pays out. */
  predicate PaysOut(plan: Plan, amounts: seq<int>) {
    if plan.split then amounts == (if plan.outputs.Some? then plan.outputs.value else [])
    else
      match plan.plainChange
      case None => amounts == [plan.amount]
      case Some(change) => |amounts| == 2 && amounts[0] + amounts[1] == plan.amount && amounts[1] == change
  }

  /** No provider maximum, or no amount above it. */
  predicate Fit(amounts: seq<int>, maxAmount: int) {
    maxAmount >= 0 ==> forall i :: 0 <= i < |amounts| ==> amounts[i] <= maxAmount
  }

  lemma PaysOutMeans(plan: Plan, amounts: seq<int>, maxAmount: int)
    ensures PaysOut(plan, amounts) <==> amounts == OutputAmounts(plan)
    ensures AllWithin(amounts, maxAmount) <==> Fit(amounts, maxAmount)
  {
  }

  /** Input for input, the coins of this inventory that the plan names. */
  predicate Named(plan: Plan, coins: seq<Coin>, selected: seq<Coin>) {
    SpendsInOrder(plan, selected) && forall i :: 0 <= i < |selected| ==> selected[i] in coins
  }

  lemma {:induction false} NamedAreFound(coins: seq<Coin>, keys: seq<Key>)
    requires NoKeyTwice(coins)
    ensures FindAll(coins, keys).None? ==> exists i :: 0 <= i < |keys| && !HasKey(coins, keys[i])
    ensures FindAll(coins, keys).Some? ==>
              var found := FindAll(coins, keys).value;
              |found| == |keys| && forall i :: 0 <= i < |keys| ==> found[i] in coins && found[i].key == keys[i]
  {
    if keys != [] {
      var n := |keys| - 1;
      NamedAreFound(coins, keys[..n]);
      if FindAll(coins, keys[..n]).None? {
        var i :| 0 <= i < n && !HasKey(coins, keys[..n][i]);
        assert keys[i] == keys[..n][i];
      }
    }
  }

  lemma NamedIsFound(plan: Plan, coins: seq<Coin>, selected: seq<Coin>)
    requires NoKeyTwice(coins) && Named(plan, coins, selected)
    ensures FindAll(coins, plan.inputs) == Some(selected)
  {
    NamedAreFound(coins, plan.inputs);
    hide FindAll;
    forall i | 0 <= i < |selected| ensures HasKey(coins, plan.inputs[i]) {
      var k :| 0 <= k < |coins| && coins[k] == selected[i];
    }
    var found := FindAll(coins, plan.inputs).value;
    forall i | 0 <= i < |selected| ensures found[i] == selected[i] {
      var k :| 0 <= k < |coins| && coins[k] == selected[i];
      var m :| 0 <= m < |coins| && coins[m] == found[i];
      assert coins[k].key == coins[m].key;
    }
    assert found == selected;
  }

  /** The value a coin adds to the reserve left beside the locks and the plan's own inputs. */
  function LeftOver(plan: Plan, reserved: seq<Key>, cfg: Cfg): Coin -> int {
    (c: Coin) => if c.key !in reserved && c.key !in plan.inputs && Ours(c, cfg) && Backs(c) then c.value else 0
  }

  lemma {:induction false} FreeReserveIs(plan: Plan, coins: seq<Coin>, reserved: seq<Key>, cfg: Cfg)
    ensures FreeReserve(coins, reserved + plan.inputs, cfg) == Sum(coins, LeftOver(plan, reserved, cfg))
  {
    if coins != [] {
      var n := |coins| - 1;
      FreeReserveIs(plan, coins[..n], reserved, cfg);
      SumSnoc(coins[..n], coins[n], LeftOver(plan, reserved, cfg));
      assert coins[..n] + [coins[n]] == coins;
    }
  }

  predicate AllOurs(coins: seq<Coin>, cfg: Cfg) { forall i :: 0 <= i < |coins| ==> Ours(coins[i], cfg) }

  lemma OursMeans(coins: seq<Coin>, cfg: Cfg)
    ensures AllOwned(coins, cfg) <==> AllOurs(coins, cfg)
    ensures AllBack(coins) <==> !exists i :: 0 <= i < |coins| && ReserveValue(coins[i]) == 0
  {
  }

  /** The coins the plan spends are the operator's and still what the plan recorded. */
  ghost predicate Unchanged(plan: Plan, selected: seq<Coin>, cfg: Cfg) {
    AllOurs(selected, cfg) && AllRecorded(plan.coins, selected)
  }

  /** A sponsor, if there is one, can still be spent offchain. */
  ghost predicate SponsorSpendable(plan: Plan, selected: seq<Coin>) {
    forall i: nat :: SponsoredBy(plan, selected, i) ==> selected[i].offchain
  }

  /** The plan draws on the reserve: it pays change to the inventory, or its sponsor backs the reserve. */
  ghost predicate DrawsOnReserve(plan: Plan, selected: seq<Coin>) {
    !plan.split && exists i: nat ::
      SponsoredBy(plan, selected, i) && (plan.plainChange.Some? || (Backs(selected[i]) && selected[i].value > 0))
  }

  ghost predicate ReserveLeft(plan: Plan, coins: seq<Coin>, selected: seq<Coin>, reserved: seq<Key>, cfg: Cfg) {
    DrawsOnReserve(plan, selected) ==> Sum(coins, LeftOver(plan, reserved, cfg)) >= cfg.minReserve
  }

  /** The fee of these coins into what the plan pays is the plan's, and at most what was authorised. */
  predicate FeeStands(plan: Plan, selected: seq<Coin>, amounts: seq<int>, fees: Fees) {
    && plan.fee == (if plan.split || plan.plainChange.Some? then FeeFor(selected, amounts, fees)
                    else FeeForOne(selected, fees))
    && plan.fee <= plan.maxFee
  }

  predicate AllBack(selected: seq<Coin>) {
    forall i :: 0 <= i < |selected| ==> Backs(selected[i]) && selected[i].value != 0
  }

  lemma SponsorMeans(plan: Plan, selected: seq<Coin>)
    ensures (FirstOther(plan, selected).Some? && !FirstOther(plan, selected).value.offchain)
            <==> !SponsorSpendable(plan, selected)
    ensures !plan.split && FirstOther(plan, selected).Some?
              && (plan.plainChange.Some? || ReserveValue(FirstOther(plan, selected).value) > 0)
            <==> DrawsOnReserve(plan, selected)
  {
    var at := FirstOtherMeans(plan, selected);
    forall i: nat | SponsoredBy(plan, selected, i) ensures FirstOther(plan, selected) == Some(selected[i]) {
      SponsorIsFirst(plan, selected, i);
    }
  }

  /** What the guard says of the coins it found: each refusal, and none. */
  lemma FoundDecides(
    plan: Plan, coins: seq<Coin>, selected: seq<Coin>, amounts: seq<int>, reserved: seq<Key>, cfg: Cfg, fees: Fees)
    requires cfg.dust > 0 && PaysOut(plan, amounts)
    ensures GuardFound(plan, selected, coins, reserved, cfg, fees)
            == if !AllOurs(selected, cfg) then Some(InputUnavailable)
               else if !Positive(selected) then Some(AssetInvalid)
               else if !AllRecorded(plan.coins, selected) then Some(InputUnavailable)
               else if !SponsorSpendable(plan, selected) then Some(InputsAged)
               else if plan.split && !SplitTerms(plan, selected, cfg) then Some(PlanInvalid)
               else if plan.split && !AllBack(selected) then Some(InputsAged)
               else if !ReserveLeft(plan, coins, selected, reserved, cfg) then Some(ReserveUnavailable)
               else if !FeeStands(plan, selected, amounts, fees) then Some(FeeAuthorizationChanged)
               else None
  {
    hide PaysOut, AllOwned, AllOurs, AllBack, PositiveAssets, Positive, AllFacts, AllRecorded, FirstOther,
      SponsorSpendable, DrawsOnReserve, FreeReserve, Sum, SplitTerms, PlanHolds, ProceedsFee, FeeFor, FeeForOne,
      OutputAmounts, LeftOver, ReserveValue;
    OursMeans(selected, cfg);
    PositiveMeans(selected);
    RecordedMeans(plan.coins, selected);
    SponsorMeans(plan, selected);
    FreeReserveIs(plan, coins, reserved, cfg);
    if plan.split { SplitMeans(plan, selected, cfg); }
    PaysOutMeans(plan, amounts, 0);
    FeesAre(selected, fees, if !plan.split && plan.plainChange.None? then None else Some(amounts));
  }

  lemma GuardFinds(
    plan: Plan, coins: seq<Coin>, selected: seq<Coin>, amounts: seq<int>, reserved: seq<Key>, cfg: Cfg, fees: Fees,
    maxAmount: int)
    requires PaysOut(plan, amounts) && Fit(amounts, maxAmount) && NoKeyTwice(coins) && Named(plan, coins, selected)
    ensures Guard(plan, coins, reserved, cfg, fees, maxAmount)
            == GuardFound(plan, selected, coins, reserved, cfg, fees)
  {
    PaysOutMeans(plan, amounts, maxAmount);
    KeysMean(coins);
    NamedIsFound(plan, coins, selected);
    hide GuardFound, FindAll, PaysOut, AllWithin, Fit, NoKeyTwice, Named, Keys, Distinct, OutputAmounts;
  }

  /** Everything the guard checks, on raw facts. */
  ghost predicate MaySubmit(
    plan: Plan, coins: seq<Coin>, selected: seq<Coin>, amounts: seq<int>, reserved: seq<Key>, cfg: Cfg, fees: Fees,
    maxAmount: int)
  {
    && PaysOut(plan, amounts) && Fit(amounts, maxAmount) && NoKeyTwice(coins)
    && Named(plan, coins, selected) && Unchanged(plan, selected, cfg) && Positive(selected)
    && SponsorSpendable(plan, selected)
    && (plan.split ==> SplitTerms(plan, selected, cfg) && AllBack(selected))
    && ReserveLeft(plan, coins, selected, reserved, cfg) && FeeStands(plan, selected, amounts, fees)
  }

  lemma Decided(
    plan: Plan, coins: seq<Coin>, selected: seq<Coin>, amounts: seq<int>, reserved: seq<Key>, cfg: Cfg, fees: Fees,
    maxAmount: int)
    requires cfg.dust > 0
    requires PaysOut(plan, amounts) && Fit(amounts, maxAmount) && NoKeyTwice(coins) && Named(plan, coins, selected)
    ensures Guard(plan, coins, reserved, cfg, fees, maxAmount) == None
            <==> MaySubmit(plan, coins, selected, amounts, reserved, cfg, fees, maxAmount)
  {
    GuardFinds(plan, coins, selected, amounts, reserved, cfg, fees, maxAmount);
    FoundDecides(plan, coins, selected, amounts, reserved, cfg, fees);
    hide Guard, GuardFound, PaysOut, Fit, NoKeyTwice, Named, AllOurs, AllBack, Positive, AllRecorded,
      SponsorSpendable, SplitTerms, ReserveLeft, FeeStands;
  }

  /**
   * The guard lets a plan through exactly when: every amount it pays is within the provider maximum; no
   * coin is listed twice; its inputs are coins of the inventory, the operator's and as recorded; its
   * sponsor is spendable; a split keeps the checker's terms on a coin that backs the reserve; enough
   * reserve is left where it counts; and the fee of these inputs into these outputs is the plan's and
   * within its cap.
   */
  lemma GuardPassesExactlyWhen(
    plan: Plan, coins: seq<Coin>, reserved: seq<Key>, cfg: Cfg, fees: Fees, maxAmount: int)
    requires cfg.dust > 0
    ensures Guard(plan, coins, reserved, cfg, fees, maxAmount) == None
            <==> exists selected, amounts :: MaySubmit(plan, coins, selected, amounts, reserved, cfg, fees, maxAmount)
  {
    GuardPasses(plan, coins, reserved, cfg, fees, maxAmount);
    forall selected, amounts | MaySubmit(plan, coins, selected, amounts, reserved, cfg, fees, maxAmount)
      ensures Guard(plan, coins, reserved, cfg, fees, maxAmount) == None
    {
      Decided(plan, coins, selected, amounts, reserved, cfg, fees, maxAmount);
    }
  }

  lemma GuardPasses(plan: Plan, coins: seq<Coin>, reserved: seq<Key>, cfg: Cfg, fees: Fees, maxAmount: int)
    requires cfg.dust > 0
    ensures Guard(plan, coins, reserved, cfg, fees, maxAmount) == None ==>
              exists selected, amounts :: MaySubmit(plan, coins, selected, amounts, reserved, cfg, fees, maxAmount)
  {
    var amounts := OutputAmounts(plan);
    PaysOutMeans(plan, amounts, maxAmount);
    KeysMean(coins);
    if Guard(plan, coins, reserved, cfg, fees, maxAmount) == None {
      NamedAreFound(coins, plan.inputs);
      var selected := FindAll(coins, plan.inputs).value;
      hide FindAll, Guard, MaySubmit, PaysOut, OutputAmounts, AllWithin, Fit, Keys, Distinct, NoKeyTwice;
      Decided(plan, coins, selected, amounts, reserved, cfg, fees, maxAmount);
      assert MaySubmit(plan, coins, selected, amounts, reserved, cfg, fees, maxAmount);
    }
  }

  /** The refusals before the inputs are looked at. */
  lemma GuardRefusesFirst(
    plan: Plan, coins: seq<Coin>, amounts: seq<int>, reserved: seq<Key>, cfg: Cfg, fees: Fees, maxAmount: int)
    requires PaysOut(plan, amounts)
    ensures var refusal := Guard(plan, coins, reserved, cfg, fees, maxAmount);
            && (!Fit(amounts, maxAmount) ==> refusal == Some(OutputLimitExceeded))
            && (Fit(amounts, maxAmount) && !NoKeyTwice(coins) ==> refusal == Some(DuplicateInventory))
            && (Fit(amounts, maxAmount) && NoKeyTwice(coins)
                && (exists i :: 0 <= i < |plan.inputs| && !HasKey(coins, plan.inputs[i])) ==>
                  refusal == Some(InputUnavailable))
  {
    PaysOutMeans(plan, amounts, maxAmount);
    KeysMean(coins);
    if NoKeyTwice(coins) { NamedAreFound(coins, plan.inputs); }
    hide GuardFound, FindAll, PaysOut, AllWithin, Fit, NoKeyTwice, Keys, Distinct, OutputAmounts;
  }
}
