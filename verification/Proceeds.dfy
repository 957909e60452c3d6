// packages/app/src/proceeds.ts: planning of collections and inventory splits, the plan checker,
// and the guard that recomputes everything before a plan is submitted.
//
// The SDK's fee estimator is an arbitrary function of each input and of each output amount.
// Facts that depend on the clock are fields of a coin, as read in one snapshot.
module Proceeds {
  import opened Prelude
  import opened Assets
  import opened SpendPacket
  import Canonical

  const MAX_SAFE_INTEGER := 9007199254740991
  const ATTEMPTS := 8
  const WORKING_COINS := 8

  type Key = Canonical.Text

  datatype Coin = Coin(
    key: Key, value: int, script: string,
    live: bool,        // its tree is the operator's; neither spent nor unrolled
    wellFormed: bool,  // its outpoint is a transaction id and a 32-bit index
    offchain: bool,    // spendable offchain
    renewing: bool,    // may be in a background renewal
    roomy: bool,       // expires beyond the configured headroom
    assets: seq<Holding>)

  datatype Cfg = Cfg(operatorScript: string, address: string, dust: int, minReserve: int, maxFee: int)

  datatype Fees = Fees(input: Coin -> nat, output: int -> nat)

  datatype Facts = Facts(key: Key, value: int, script: string, assets: seq<Holding>)

  datatype Plan = Plan(
    split: bool, outputs: Option<seq<int>>, inputs: seq<Key>, coins: seq<Facts>, receipts: seq<Key>, address: string,
    amount: int, plainChange: Option<int>, fee: int, maxFee: int, assets: seq<Holding>)

  datatype Error =
    | OwnershipInvalid | DuplicateInventory | InputReserved | OutputLimitExceeded | ReserveUnavailable
    | FeeAuthorizationChanged | FeeCapExceeded | AssetInvalid | PlanInvalid | InputUnavailable | InputsAged

  // ------------------------------------------------------------------- coins

  function Keys(coins: seq<Coin>): (r: seq<Key>)
    ensures |r| == |coins| && forall i :: 0 <= i < |r| ==> r[i] == coins[i].key
  {
    seq(|coins|, i requires 0 <= i < |coins| => coins[i].key)
  }

  function Total(coins: seq<Coin>): int {
    if coins == [] then 0 else Total(coins[..|coins| - 1]) + coins[|coins| - 1].value
  }

  /** `canonical`. */
  predicate Owned(c: Coin, cfg: Cfg) { c.script == cfg.operatorScript && c.live && 0 < c.value <= MAX_SAFE_INTEGER }

  function ReserveValue(c: Coin): int { if c.assets == [] && c.offchain && !c.renewing && c.roomy then c.value else 0 }

  function Reserve(coins: seq<Coin>): int {
    if coins == [] then 0 else Reserve(coins[..|coins| - 1]) + ReserveValue(coins[|coins| - 1])
  }

  predicate Within(amount: int, maxAmount: int) { maxAmount < 0 || amount <= maxAmount }

  predicate AllWithin(amounts: seq<int>, maxAmount: int) {
    forall i :: 0 <= i < |amounts| ==> Within(amounts[i], maxAmount)
  }

  function AssetLists(coins: seq<Coin>): (r: seq<seq<Holding>>)
    ensures |r| == |coins| && forall i :: 0 <= i < |r| ==> r[i] == coins[i].assets
  {
    seq(|coins|, i requires 0 <= i < |coins| => coins[i].assets)
  }

  /** `holdings` throws unless every amount is positive. */
  predicate PositiveAssets(coins: seq<Coin>) {
    forall i, j :: 0 <= i < |coins| && 0 <= j < |coins[i].assets| ==> coins[i].assets[j].units > 0
  }

  function Summed(held: seq<Holding>, ids: seq<AssetId>): (r: seq<Holding>)
    ensures |r| == |ids| && forall i :: 0 <= i < |r| ==> r[i] == Holding(ids[i], UnitsOf(held, ids[i]))
  {
    seq(|ids|, i requires 0 <= i < |ids| => Holding(ids[i], UnitsOf(held, ids[i])))
  }

  /** `holdings`: one entry for each asset id, sorted, with its units over all coins. */
  function HoldingsOf(coins: seq<Coin>): seq<Holding> {
    var all := Flat(AssetLists(coins));
    Summed(all, Canonical.Sort(NewIds(all)))
  }

  method Holdings(coins: seq<Coin>) returns (r: Option<seq<Holding>>)
    ensures r == if PositiveAssets(coins) then Some(HoldingsOf(coins)) else None
  {
    hide NewIds, Flat, UnitsOf, Names, Canonical.Sort;
    if !PositiveAssets(coins) { return None; }
    var all := FlattenSources(AssetLists(coins));
    var totals := Totals(all);
    var ids := SortedKeys(totals, all);
    var held: seq<Holding> := [];
    for i := 0 to |ids|
      invariant held == Summed(all, ids[..i])
    {
      assert ids[i] in ids;
      held := held + [Holding(ids[i], totals[ids[i]])];
      assert held == Summed(all, ids[..i + 1]);
    }
    assert ids[..|ids|] == ids;
    return Some(held);
  }

  function FactsOf(c: Coin): Facts { Facts(c.key, c.value, c.script, HoldingsOf([c])) }

  function AllFacts(coins: seq<Coin>): (r: seq<Facts>)
    ensures |r| == |coins| && forall i :: 0 <= i < |r| ==> r[i] == FactsOf(coins[i])
  {
    seq(|coins|, i requires 0 <= i < |coins| => FactsOf(coins[i]))
  }

  // -------------------------------------------------------------------- fees

  function InputFees(coins: seq<Coin>, fees: Fees): int {
    if coins == [] then 0 else InputFees(coins[..|coins| - 1], fees) + fees.input(coins[|coins| - 1])
  }

  function OutputFees(amounts: seq<int>, fees: Fees): int {
    if amounts == [] then 0 else OutputFees(amounts[..|amounts| - 1], fees) + fees.output(amounts[|amounts| - 1])
  }

  /** `proceedsFee`: without output amounts, the fee of paying everything to one output. */
  function ProceedsFee(coins: seq<Coin>, fees: Fees, outputs: Option<seq<int>>): int {
    var inputs := InputFees(coins, fees);
    inputs + if outputs.Some? then OutputFees(outputs.value, fees) else fees.output(Total(coins) - inputs)
  }

  // ------------------------------------------------------------- the checker

  function SumOf(amounts: seq<int>): int {
    if amounts == [] then 0 else SumOf(amounts[..|amounts| - 1]) + amounts[|amounts| - 1]
  }

  /** `collectionOutputAmounts`: asset carrier first, plain change second. */
  function OutputAmounts(plan: Plan): seq<int> {
    if plan.split then if plan.outputs.Some? then plan.outputs.value else []
    else if plan.plainChange.None? then [plan.amount]
    else [plan.amount - plan.plainChange.value, plan.plainChange.value]
  }

  predicate AmountsHold(amounts: seq<int>, amount: int, cfg: Cfg) {
    && 2 <= |amounts| <= 8 && (forall i :: 0 <= i < |amounts| ==> 1 <= amounts[i] <= MAX_SAFE_INTEGER)
    && amounts[0] >= cfg.minReserve + cfg.dust && amounts[0] >= 2 * cfg.dust
    && (forall i :: 1 <= i < |amounts| ==> amounts[i] >= 2 * cfg.dust)
    && SumOf(amounts) == amount
  }

  predicate SplitPlanHolds(plan: Plan, coins: seq<Coin>, cfg: Cfg) {
    && plan.address == cfg.address && |coins| == 1 && coins[0].wellFormed && 0 < coins[0].value <= MAX_SAFE_INTEGER
    && coins[0].script == cfg.operatorScript && PositiveAssets(coins) && HoldingsOf(coins) == []
    && plan.receipts == [] && plan.assets == [] && plan.plainChange.None?
    && 0 <= plan.fee <= plan.maxFee <= cfg.maxFee && plan.amount >= 1
    && plan.coins == AllFacts(coins) && plan.inputs == Keys(coins)
    && plan.outputs.Some? && AmountsHold(plan.outputs.value, plan.amount, cfg)
    && Total(coins) - plan.fee == plan.amount
  }

  predicate IsReceipt(plan: Plan, c: Coin) { c.key in plan.receipts }

  function FirstOther(plan: Plan, coins: seq<Coin>): (r: Option<Coin>)
    ensures r.Some? ==> r.value in coins && !IsReceipt(plan, r.value)
    ensures r.None? ==> forall c :: c in coins ==> IsReceipt(plan, c)
  {
    if coins == [] then None else if !IsReceipt(plan, coins[0]) then Some(coins[0]) else FirstOther(plan, coins[1..])
  }

  predicate CollectionHolds(plan: Plan, coins: seq<Coin>, cfg: Cfg) {
    && plan.outputs.None? && plan.address == cfg.address
    && 0 <= plan.fee <= plan.maxFee && plan.amount >= 1
    && Total(coins) - plan.fee == plan.amount && plan.amount >= cfg.dust
    && PositiveAssets(coins) && plan.assets == HoldingsOf(coins)
    && plan.coins == AllFacts(coins) && plan.inputs == Keys(coins)
    && plan.receipts != [] && Distinct(plan.receipts) && Distinct(Keys(coins))
    && (forall k :: k in plan.receipts ==> k in Keys(coins))
    && |coins| - |plan.receipts| <= 1
    && (plan.plainChange.Some? ==>
          var change := plan.plainChange.value;
          && plan.amount - change == cfg.dust && change >= 1 && change >= cfg.dust && change >= cfg.minReserve
          && plan.assets != []
          && FirstOther(plan, coins).Some? && FirstOther(plan, coins).value.assets == [])
  }

  /** `assertProceedsPlan`. */
  predicate PlanHolds(plan: Plan, coins: seq<Coin>, cfg: Cfg) {
    if plan.split then SplitPlanHolds(plan, coins, cfg) else CollectionHolds(plan, coins, cfg)
  }

  // ------------------------------------------------------------------ sorting

  function InsertBy(c: Coin, sorted: seq<Coin>, before: (Coin, Coin) -> bool): seq<Coin> {
    if sorted == [] || before(c, sorted[0]) then [c] + sorted else [sorted[0]] + InsertBy(c, sorted[1..], before)
  }

  function SortBy(coins: seq<Coin>, before: (Coin, Coin) -> bool): seq<Coin> {
    if coins == [] then [] else InsertBy(coins[|coins| - 1], SortBy(coins[..|coins| - 1], before), before)
  }

  /** Largest first. */
  predicate Richer(a: Coin, b: Coin) { a.value > b.value || (a.value == b.value && Canonical.Before(a.key, b.key)) }

  /** Carriers of assets first, then smallest first. */
  predicate Handier(a: Coin, b: Coin) {
    if (a.assets != []) != (b.assets != []) then a.assets != []
    else a.value < b.value || (a.value == b.value && Canonical.Before(a.key, b.key))
  }

  lemma {:induction false} InsertKeepsCoins(c: Coin, sorted: seq<Coin>, before: (Coin, Coin) -> bool)
    ensures forall x :: x in InsertBy(c, sorted, before) <==> x == c || x in sorted
    ensures Reserve(InsertBy(c, sorted, before)) == Reserve(sorted) + ReserveValue(c)
  {
    if sorted == [] || before(c, sorted[0]) {
      ReserveConcat([c], sorted);
      assert [c][..0] == [];
    } else {
      InsertKeepsCoins(c, sorted[1..], before);
      ReserveConcat([sorted[0]], InsertBy(c, sorted[1..], before));
      ReserveConcat([sorted[0]], sorted[1..]);
      assert sorted == [sorted[0]] + sorted[1..];
    }
  }

  lemma {:induction false} SortKeepsCoins(coins: seq<Coin>, before: (Coin, Coin) -> bool)
    ensures forall x :: x in SortBy(coins, before) <==> x in coins
    ensures Reserve(SortBy(coins, before)) == Reserve(coins)
  {
    if coins != [] {
      var n := |coins| - 1;
      SortKeepsCoins(coins[..n], before);
      InsertKeepsCoins(coins[n], SortBy(coins[..n], before), before);
      assert coins == coins[..n] + [coins[n]];
    }
  }

  lemma {:induction false} ReserveConcat(a: seq<Coin>, b: seq<Coin>)
    ensures Reserve(a + b) == Reserve(a) + Reserve(b)
  {
    if b == [] {
      assert a + b == a;
    } else {
      assert (a + b)[..|a + b| - 1] == a + b[..|b| - 1];
      ReserveConcat(a, b[..|b| - 1]);
    }
  }

  // ----------------------------------------------------------- inventory split

  predicate Splittable(c: Coin, reserved: seq<Key>, cfg: Cfg) {
    Owned(c, cfg) && c.key !in reserved && c.wellFormed && ReserveValue(c) > 0
  }

  function SplittableCoins(coins: seq<Coin>, reserved: seq<Key>, cfg: Cfg): (r: seq<Coin>)
    ensures forall c :: c in r <==> c in coins && Splittable(c, reserved, cfg)
  {
    if coins == [] then []
    else
      var n := |coins| - 1;
      SplittableCoins(coins[..n], reserved, cfg) + if Splittable(coins[n], reserved, cfg) then [coins[n]] else []
  }

  /** Coins worth at least two dust. */
  function Working(coins: seq<Coin>, dust: int): nat {
    if coins == [] then 0
    else Working(coins[..|coins| - 1], dust) + if coins[|coins| - 1].value >= 2 * dust then 1 else 0
  }

  function SplitReserve(cfg: Cfg): int {
    if cfg.minReserve + cfg.dust > 2 * cfg.dust then cfg.minReserve + cfg.dust else 2 * cfg.dust
  }

  /** Division of the source's big integers, towards zero. */
  function TruncDiv(a: int, b: int): int
    requires b > 0
  {
    if a >= 0 then a / b else -((-a) / b)
  }

  function Chunk(amount: int, count: int, cfg: Cfg): int
    requires count >= 2
  {
    TruncDiv(amount - SplitReserve(cfg), count - 1)
  }

  function SplitOutputs(amount: int, count: int, cfg: Cfg): (r: seq<int>)
    requires count >= 2
    ensures |r| == count && r[0] == amount - Chunk(amount, count, cfg) * (count - 1)
    ensures forall i :: 1 <= i < |r| ==> r[i] == Chunk(amount, count, cfg)
  {
    var chunk := Chunk(amount, count, cfg);
    [amount - chunk * (count - 1)] + seq(count - 1, _ => chunk)
  }

  /** The fee at which the estimate repeats itself, within the attempts left. */
  function SettledFee(
    coin: Coin, count: int, fee: int, attempts: nat, cfg: Cfg, fees: Fees, maxAmount: int): Option<int>
    requires count >= 2
    decreases attempts
  {
    var amount := coin.value - fee;
    if attempts == 0 || Chunk(amount, count, cfg) < 2 * cfg.dust then None
    else
      var outputs := SplitOutputs(amount, count, cfg);
      var estimated := ProceedsFee([coin], fees, Some(outputs));
      if !AllWithin(outputs, maxAmount) || estimated > cfg.maxFee then None
      else if estimated == fee then Some(fee)
      else SettledFee(coin, count, estimated, attempts - 1, cfg, fees, maxAmount)
  }

  function SplitPlan(coin: Coin, count: int, fee: int, cfg: Cfg): Plan
    requires count >= 2
  {
    Plan(true, Some(SplitOutputs(coin.value - fee, count, cfg)), [coin.key], [FactsOf(coin)], [], cfg.address,
         coin.value - fee, None, fee, cfg.maxFee, [])
  }

  /** The first count, going down, at which the fee settles. */
  function FirstCount(coin: Coin, count: int, cfg: Cfg, fees: Fees, maxAmount: int): Option<Plan>
    decreases count
  {
    if count < 2 then None
    else
      match SettledFee(coin, count, 0, ATTEMPTS, cfg, fees, maxAmount)
      case Some(fee) => Some(SplitPlan(coin, count, fee, cfg))
      case None => FirstCount(coin, count - 1, cfg, fees, maxAmount)
  }

  function Counts(working: nat): int { if 9 - working < 8 then 9 - working else 8 }

  function FirstSplit(candidates: seq<Coin>, count: int, cfg: Cfg, fees: Fees, maxAmount: int): Option<Plan> {
    if candidates == [] then None
    else
      match FirstCount(candidates[0], count, cfg, fees, maxAmount)
      case Some(plan) => Some(plan)
      case None => FirstSplit(candidates[1..], count, cfg, fees, maxAmount)
  }

  /** `planInventorySplit`, as a value. */
  function InventorySplit(coins: seq<Coin>, reserved: seq<Key>, cfg: Cfg, fees: Fees, address: string, maxAmount: int)
    : Result<Option<Plan>, Error>
  {
    if address != cfg.address then Err(OwnershipInvalid)
    else if !Distinct(Keys(coins)) then Err(DuplicateInventory)
    else
      var available := SplittableCoins(coins, reserved, cfg);
      var working := Working(available, cfg.dust);
      if working >= WORKING_COINS then Ok(None)
      else Ok(FirstSplit(SortBy(available, Richer), Counts(working), cfg, fees, maxAmount))
  }

  lemma TruncIsPositive(a: int, b: int)
    requires b > 0 && TruncDiv(a, b) > 0
    ensures a > 0 && TruncDiv(a, b) == a / b
  {
    if a < 0 { NaturalQuotient(-a, b); }
  }

  lemma NaturalQuotient(a: int, b: int)
    requires a >= 0 && b > 0
    ensures a / b >= 0
  {
  }

  lemma QuotientTimes(a: int, b: int)
    requires a >= 0 && b > 0
    ensures (a / b) * b <= a
  {
    assert a == b * (a / b) + a % b;
  }

  lemma TimesAtLeast(q: int, b: int)
    requires q >= 0 && b >= 1
    ensures q * b >= q
  {
  }

  lemma DivisionBounds(a: int, b: int)
    requires b > 0 && TruncDiv(a, b) > 0
    ensures TruncDiv(a, b) * b <= a && TruncDiv(a, b) <= a
  {
    TruncIsPositive(a, b);
    hide TruncDiv;
    QuotientTimes(a, b);
    TimesAtLeast(a / b, b);
  }

  lemma {:induction false} SumOfEqual(amounts: seq<int>, chunk: int)
    requires amounts != [] && forall i :: 1 <= i < |amounts| ==> amounts[i] == chunk
    ensures SumOf(amounts) == amounts[0] + chunk * (|amounts| - 1)
  {
    var n := |amounts| - 1;
    if n > 0 {
      SumOfEqual(amounts[..n], chunk);
      assert chunk * n == chunk * (n - 1) + chunk;
    } else {
      assert amounts[..0] == [];
    }
  }

  lemma NoAssetsNoHoldings(c: Coin)
    requires c.assets == []
    ensures PositiveAssets([c]) && HoldingsOf([c]) == []
  {
    assert AssetLists([c])[..0] == [];
    assert Flat(AssetLists([c])) == [];
  }

  /** A settled split conserves sats, starts with the reserve, and has chunks of at least two dust. */
  lemma SplitAmounts(amount: int, count: int, cfg: Cfg)
    requires count >= 2 && cfg.dust > 0 && Chunk(amount, count, cfg) >= 2 * cfg.dust
    ensures var outputs := SplitOutputs(amount, count, cfg);
            && SumOf(outputs) == amount && outputs[0] >= SplitReserve(cfg)
            && forall i :: 0 <= i < |outputs| ==> 2 * cfg.dust <= outputs[i] <= amount
  {
    var outputs, chunk := SplitOutputs(amount, count, cfg), Chunk(amount, count, cfg);
    DivisionBounds(amount - SplitReserve(cfg), count - 1);
    SumOfEqual(outputs, chunk);
    hide TruncDiv, SumOf, SplitOutputs;
    TimesAtLeast(chunk, count - 1);
    assert outputs[0] == amount - chunk * (count - 1);
  }

  lemma SplitPlanIsValid(coin: Coin, count: int, fee: int, reserved: seq<Key>, cfg: Cfg, fees: Fees)
    requires 2 <= count <= 8 && cfg.dust > 0 && Splittable(coin, reserved, cfg)
    requires fee == ProceedsFee([coin], fees, Some(SplitOutputs(coin.value - fee, count, cfg))) && fee <= cfg.maxFee
    requires Chunk(coin.value - fee, count, cfg) >= 2 * cfg.dust
    ensures PlanHolds(SplitPlan(coin, count, fee, cfg), [coin], cfg)
  {
    SplitAmounts(coin.value - fee, count, cfg);
    NoAssetsNoHoldings(coin);
    FeesAreNatural([coin], SplitOutputs(coin.value - fee, count, cfg), fees);
    hide Chunk, HoldingsOf, ProceedsFee, SumOf, SplitOutputs, PositiveAssets;
    assert [coin][..0] == [];
    assert Total([coin]) == coin.value;
    hide Total;
  }

  lemma {:induction false} InputFeesAreNatural(coins: seq<Coin>, fees: Fees)
    ensures InputFees(coins, fees) >= 0
  {
    if coins != [] { InputFeesAreNatural(coins[..|coins| - 1], fees); }
  }

  lemma {:induction false} OutputFeesAreNatural(amounts: seq<int>, fees: Fees)
    ensures OutputFees(amounts, fees) >= 0
  {
    if amounts != [] { OutputFeesAreNatural(amounts[..|amounts| - 1], fees); }
  }

  lemma FeesAreNatural(coins: seq<Coin>, amounts: seq<int>, fees: Fees)
    ensures ProceedsFee(coins, fees, None) >= 0 && ProceedsFee(coins, fees, Some(amounts)) >= 0
  {
    InputFeesAreNatural(coins, fees);
    OutputFeesAreNatural(amounts, fees);
  }

  /** Largest coins first, then the largest count, then at most eight attempts to settle the fee. */
  method PlanInventorySplit(coins: seq<Coin>, reserved: seq<Key>, cfg: Cfg, fees: Fees, address: string, maxAmount: int)
    returns (r: Result<Option<Plan>, Error>)
    requires cfg.dust > 0
    ensures r == InventorySplit(coins, reserved, cfg, fees, address, maxAmount)
  {
    hide Splittable, Working, SplitOutputs, ProceedsFee, PlanHolds, Chunk, SortBy, AllWithin;
    if address != cfg.address { return Err(OwnershipInvalid); }
    if !Distinct(Keys(coins)) { return Err(DuplicateInventory); }
    var available := SplittableCoins(coins, reserved, cfg);
    var working := Working(available, cfg.dust);
    if working >= WORKING_COINS { return Ok(None); }
    SortKeepsCoins(available, Richer);
    var candidates := SortBy(available, Richer);
    var i := 0;
    while i < |candidates|
      invariant 0 <= i <= |candidates|
      invariant FirstSplit(candidates, Counts(working), cfg, fees, maxAmount)
                == FirstSplit(candidates[i..], Counts(working), cfg, fees, maxAmount)
    {
      assert candidates[i] in candidates;
      var found := TryCounts(candidates[i], Counts(working), reserved, cfg, fees, maxAmount);
      if found.Some? { return Ok(found); }
      assert candidates[i..][1..] == candidates[i + 1..];
      i := i + 1;
    }
    return Ok(None);
  }

  method TryCounts(coin: Coin, most: int, reserved: seq<Key>, cfg: Cfg, fees: Fees, maxAmount: int)
    returns (r: Option<Plan>)
    requires cfg.dust > 0 && Splittable(coin, reserved, cfg) && most <= 8
    ensures r == FirstCount(coin, most, cfg, fees, maxAmount)
  {
    hide Splittable, SplitOutputs, ProceedsFee, PlanHolds, Chunk, AllWithin, SplitPlan;
    var count := most;
    while count >= 2
      invariant count <= 8
      invariant FirstCount(coin, most, cfg, fees, maxAmount) == FirstCount(coin, count, cfg, fees, maxAmount)
    {
      var fee, attempt := 0, 0;
      while attempt < ATTEMPTS
        invariant 0 <= attempt <= ATTEMPTS
        invariant SettledFee(coin, count, 0, ATTEMPTS, cfg, fees, maxAmount)
                  == SettledFee(coin, count, fee, ATTEMPTS - attempt, cfg, fees, maxAmount)
      {
        var amount := coin.value - fee;
        if Chunk(amount, count, cfg) < 2 * cfg.dust { break; }
        var outputs := SplitOutputs(amount, count, cfg);
        if !AllWithin(outputs, maxAmount) { break; }
        var estimated := ProceedsFee([coin], fees, Some(outputs));
        if estimated > cfg.maxFee { break; }
        if estimated == fee {
          SplitPlanIsValid(coin, count, fee, reserved, cfg, fees);
          var plan := SplitPlan(coin, count, fee, cfg);
          assert PlanHolds(plan, [coin], cfg);
          return Some(plan);
        }
        fee, attempt := estimated, attempt + 1;
      }
      count := count - 1;
    }
    return None;
  }

  // -------------------------------------------------------------- collection

  predicate Usable(c: Coin, reserved: seq<Key>, receipts: seq<Key>, cfg: Cfg) {
    Owned(c, cfg) && c.offchain && !c.renewing && c.key !in reserved && c.key !in receipts
  }

  function UsableCoins(coins: seq<Coin>, reserved: seq<Key>, receipts: seq<Key>, cfg: Cfg): (r: seq<Coin>)
    ensures forall c :: c in r <==> c in coins && Usable(c, reserved, receipts, cfg)
  {
    if coins == [] then []
    else
      var n := |coins| - 1;
      UsableCoins(coins[..n], reserved, receipts, cfg)
      + if Usable(coins[n], reserved, receipts, cfg) then [coins[n]] else []
  }

  /** Receipts in order, each taken only while everything taken still fits one output. */
  function Greedy(receipts: seq<Coin>, fees: Fees, maxAmount: int): seq<Coin> {
    if receipts == [] then []
    else
      var before := Greedy(receipts[..|receipts| - 1], fees, maxAmount);
      var projected := before + [receipts[|receipts| - 1]];
      if Within(Total(projected) - ProceedsFee(projected, fees, None), maxAmount) then projected else before
  }

  datatype Offer = Unfit | TooLarge | Changed | Offered(fee: int, plainChange: Option<int>)

  /** One candidate for sponsor. */
  function OfferOf(selected: seq<Coin>, c: Coin, reserve: int, cfg: Cfg, fees: Fees, maxAmount: int): Offer {
    var projected := selected + [c];
    var split := HoldingsOf(selected) != [] && c.assets == [];
    var consumed := ReserveValue(c);
    if (split || consumed > 0) && reserve - consumed < cfg.minReserve then Unfit
    else
      var rest := Total(projected) - InputFees(projected, fees) - cfg.dust;
      var quoted := ProceedsFee(projected, fees, if split then Some([cfg.dust, rest]) else None);
      var amount := Total(projected) - quoted;
      var change := amount - cfg.dust;
      if amount < cfg.dust then Unfit
      else if split && (change < cfg.dust || change < cfg.minReserve) then Unfit
      else if !Within(if split then cfg.dust else amount, maxAmount) then TooLarge
      else if split && !Within(change, maxAmount) then TooLarge
      else if split && ProceedsFee(projected, fees, Some([cfg.dust, change])) != quoted then Changed
      else Offered(quoted, if split then Some(change) else None)
  }

  datatype Sponsor = Sponsor(coin: Coin, fee: int, plainChange: Option<int>)

  function FindSponsor(
    available: seq<Coin>, selected: seq<Coin>, reserve: int, overLimit: bool, cfg: Cfg, fees: Fees, maxAmount: int)
    : Result<Sponsor, Error>
  {
    if available == [] then Err(if overLimit then OutputLimitExceeded else ReserveUnavailable)
    else
      match OfferOf(selected, available[0], reserve, cfg, fees, maxAmount)
      case Unfit => FindSponsor(available[1..], selected, reserve, overLimit, cfg, fees, maxAmount)
      case TooLarge => FindSponsor(available[1..], selected, reserve, true, cfg, fees, maxAmount)
      case Changed => Err(FeeAuthorizationChanged)
      case Offered(fee, plainChange) => Ok(Sponsor(available[0], fee, plainChange))
  }

  function Finished(
    coins: seq<Coin>, receipts: seq<Key>, fee: int, plainChange: Option<int>, cfg: Cfg): Result<Plan, Error>
  {
    if fee > cfg.maxFee then Err(FeeCapExceeded)
    else if !PositiveAssets(coins) then Err(AssetInvalid)
    else
      Ok(Plan(false, None, Keys(coins), AllFacts(coins), receipts, cfg.address,
              Total(coins) - fee, plainChange, fee, cfg.maxFee, HoldingsOf(coins)))
  }

  predicate AllOwned(coins: seq<Coin>, cfg: Cfg) { forall i :: 0 <= i < |coins| ==> Owned(coins[i], cfg) }

  predicate AnyReserved(coins: seq<Coin>, reserved: seq<Key>) {
    exists i :: 0 <= i < |coins| && coins[i].key in reserved
  }

  /** The selected coins, with their fee and change. */
  function Selection(
    receipts: seq<Coin>, ordinary: seq<Coin>, reserved: seq<Key>, cfg: Cfg, fees: Fees, maxAmount: int)
    : Result<(seq<Coin>, int, Option<int>), Error>
  {
    var selected := Greedy(receipts, fees, maxAmount);
    if selected == [] then Err(OutputLimitExceeded)
    else
      var fee := ProceedsFee(selected, fees, None);
      if Total(selected) - fee >= cfg.dust then Ok((selected, fee, None))
      else
        var available := SortBy(UsableCoins(ordinary, reserved, Keys(receipts), cfg), Handier);
        if available != [] && !PositiveAssets(selected) then Err(AssetInvalid)
        else
          match FindSponsor(available, selected, Reserve(available), false, cfg, fees, maxAmount)
          case Ok(sponsor) => Ok((selected + [sponsor.coin], sponsor.fee, sponsor.plainChange))
          case Err(error) => Err(error)
  }

  /** `planProceeds`, as a value. */
  function Collection(
    receipts: seq<Coin>, ordinary: seq<Coin>, reserved: seq<Key>, cfg: Cfg, fees: Fees, address: string, maxAmount: int)
    : Result<Plan, Error>
  {
    if address != cfg.address || receipts == [] || !AllOwned(receipts, cfg) then Err(OwnershipInvalid)
    else if !Distinct(Keys(ordinary)) then Err(DuplicateInventory)
    else if !Distinct(Keys(receipts)) || AnyReserved(receipts, reserved) then Err(InputReserved)
    else if !Within(cfg.dust, maxAmount) then Err(OutputLimitExceeded)
    else
      match Selection(receipts, ordinary, reserved, cfg, fees, maxAmount)
      case Ok(s) => Finished(s.0, Keys(Greedy(receipts, fees, maxAmount)), s.1, s.2, cfg)
      case Err(error) => Err(error)
  }

  method SelectReceipts(receipts: seq<Coin>, fees: Fees, maxAmount: int) returns (selected: seq<Coin>)
    ensures selected == Greedy(receipts, fees, maxAmount)
  {
    hide ProceedsFee, Total;
    selected := [];
    for i := 0 to |receipts|
      invariant selected == Greedy(receipts[..i], fees, maxAmount)
    {
      assert receipts[..i + 1][..i] == receipts[..i];
      var projected := selected + [receipts[i]];
      if Within(Total(projected) - ProceedsFee(projected, fees, None), maxAmount) { selected := projected; }
    }
    assert receipts[..|receipts|] == receipts;
  }

  method ChooseSponsor(available: seq<Coin>, selected: seq<Coin>, cfg: Cfg, fees: Fees, maxAmount: int)
    returns (r: Result<Sponsor, Error>)
    ensures r == FindSponsor(available, selected, Reserve(available), false, cfg, fees, maxAmount)
  {
    hide OfferOf, Reserve;
    var reserve := SumReserve(available);
    var overLimit := false;
    for i := 0 to |available|
      invariant FindSponsor(available, selected, reserve, false, cfg, fees, maxAmount)
                == FindSponsor(available[i..], selected, reserve, overLimit, cfg, fees, maxAmount)
    {
      assert available[i..][1..] == available[i + 1..];
      match OfferOf(selected, available[i], reserve, cfg, fees, maxAmount) {
        case Unfit =>
        case TooLarge => overLimit := true;
        case Changed => return Err(FeeAuthorizationChanged);
        case Offered(fee, plainChange) => return Ok(Sponsor(available[i], fee, plainChange));
      }
    }
    return Err(if overLimit then OutputLimitExceeded else ReserveUnavailable);
  }

  method SumReserve(coins: seq<Coin>) returns (sats: int)
    ensures sats == Reserve(coins)
  {
    sats := 0;
    for i := 0 to |coins|
      invariant sats == Reserve(coins[..i])
    {
      assert coins[..i + 1][..i] == coins[..i];
      sats := sats + ReserveValue(coins[i]);
    }
    assert coins[..|coins|] == coins;
  }

  method PlanProceeds(
    receipts: seq<Coin>, ordinary: seq<Coin>, reserved: seq<Key>, cfg: Cfg, fees: Fees, address: string, maxAmount: int)
    returns (r: Result<Plan, Error>)
    ensures r == Collection(receipts, ordinary, reserved, cfg, fees, address, maxAmount)
  {
    hide Distinct, AllOwned, AnyReserved, Greedy, ProceedsFee, Total, SortBy, Reserve, PositiveAssets, HoldingsOf,
      FindSponsor;
    if address != cfg.address || receipts == [] || !AllOwned(receipts, cfg) { return Err(OwnershipInvalid); }
    if !Distinct(Keys(ordinary)) { return Err(DuplicateInventory); }
    if !Distinct(Keys(receipts)) || AnyReserved(receipts, reserved) { return Err(InputReserved); }
    if !Within(cfg.dust, maxAmount) { return Err(OutputLimitExceeded); }
    var selected := SelectReceipts(receipts, fees, maxAmount);
    if selected == [] { return Err(OutputLimitExceeded); }
    var collected := Keys(selected);
    var fee := ProceedsFee(selected, fees, None);
    var plainChange: Option<int> := None;
    if Total(selected) - fee < cfg.dust {
      var available := SortBy(UsableCoins(ordinary, reserved, Keys(receipts), cfg), Handier);
      if available != [] && !PositiveAssets(selected) { return Err(AssetInvalid); }
      var sponsor := ChooseSponsor(available, selected, cfg, fees, maxAmount);
      if sponsor.Err? { return Err(sponsor.error); }
      selected, fee, plainChange := selected + [sponsor.value.coin], sponsor.value.fee, sponsor.value.plainChange;
    }
    if fee > cfg.maxFee { return Err(FeeCapExceeded); }
    var assets := Holdings(selected);
    if assets.None? { return Err(AssetInvalid); }
    return Ok(Plan(false, None, Keys(selected), AllFacts(selected), collected, cfg.address,
                   Total(selected) - fee, plainChange, fee, cfg.maxFee, assets.value));
  }

  // ------------------------------------------------------------------ guard

  function Find(coins: seq<Coin>, key: Key): (r: Option<Coin>)
    ensures r.Some? ==> r.value in coins && r.value.key == key
    ensures r.None? ==> forall c :: c in coins ==> c.key != key
  {
    if coins == [] then None else if coins[0].key == key then Some(coins[0]) else Find(coins[1..], key)
  }

  function FindAll(coins: seq<Coin>, keys: seq<Key>): Option<seq<Coin>> {
    if keys == [] then Some([])
    else
      var before, last := FindAll(coins, keys[..|keys| - 1]), Find(coins, keys[|keys| - 1]);
      if before.None? || last.None? then None else Some(before.value + [last.value])
  }

  /** Reserve left outside the locks and the plan's own inputs. */
  function FreeReserve(coins: seq<Coin>, locked: seq<Key>, cfg: Cfg): int {
    if coins == [] then 0
    else
      var last := coins[|coins| - 1];
      FreeReserve(coins[..|coins| - 1], locked, cfg)
      + if last.key !in locked && Owned(last, cfg) then ReserveValue(last) else 0
  }

  /** What the guard checks of the coins it found for the plan's inputs. */
  function GuardFound(
    plan: Plan, selected: seq<Coin>, coins: seq<Coin>, reserved: seq<Key>, cfg: Cfg, fees: Fees): Option<Error>
  {
    if !AllOwned(selected, cfg) then Some(InputUnavailable)
    else if !PositiveAssets(selected) then Some(AssetInvalid)
    else if AllFacts(selected) != plan.coins then Some(InputUnavailable)
    else
      var sponsor := FirstOther(plan, selected);
      if sponsor.Some? && !sponsor.value.offchain then Some(InputsAged)
      else if plan.split && !PlanHolds(plan, selected, cfg) then Some(PlanInvalid)
      else if plan.split && exists i :: 0 <= i < |selected| && ReserveValue(selected[i]) == 0 then Some(InputsAged)
      else if !plan.split && sponsor.Some? && (plan.plainChange.Some? || ReserveValue(sponsor.value) > 0)
              && FreeReserve(coins, reserved + plan.inputs, cfg) < cfg.minReserve then Some(ReserveUnavailable)
      else
        var outputs := if !plan.split && plan.plainChange.None? then None else Some(OutputAmounts(plan));
        var fee := ProceedsFee(selected, fees, outputs);
        if fee != plan.fee || fee > plan.maxFee then Some(FeeAuthorizationChanged) else None
  }

  /** What the guard recomputes before submission; nothing means the plan may be submitted. */
  function Guard(
    plan: Plan, coins: seq<Coin>, reserved: seq<Key>, cfg: Cfg, fees: Fees, maxAmount: int): Option<Error>
  {
    if !AllWithin(OutputAmounts(plan), maxAmount) then Some(OutputLimitExceeded)
    else if !Distinct(Keys(coins)) then Some(DuplicateInventory)
    else
      var found := FindAll(coins, plan.inputs);
      if found.None? then Some(InputUnavailable) else GuardFound(plan, found.value, coins, reserved, cfg, fees)
  }
}
