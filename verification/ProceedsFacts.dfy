// Planner, checker and guard of packages/app/src/proceeds.ts agree, and splits terminate.
module ProceedsFacts {
  import opened Prelude
  import opened Assets
  import opened SpendPacket
  import opened Proceeds
  import Canonical
  import C = FillConservation

  // ---------------------------------------------------------------- holdings

  lemma {:induction false} SomethingHeld(held: seq<Holding>)
    ensures NewIds(held) == [] <==> held == []
  {
    if held != [] { NewIdsFacts(held, held[0].assetId); assert Names(held, held[0].assetId); }
  }

  lemma HoldingsWhereHeld(coins: seq<Coin>)
    ensures HoldingsOf(coins) == [] <==> Flat(AssetLists(coins)) == []
  {
    hide NewIds, Flat, UnitsOf;
    var all := Flat(AssetLists(coins));
    SomethingHeld(all);
    Canonical.SortKeeps(NewIds(all));
    if NewIds(all) != [] { assert NewIds(all)[0] in Canonical.Sort(NewIds(all)); }
    if Canonical.Sort(NewIds(all)) != [] { assert Canonical.Sort(NewIds(all))[0] in NewIds(all); }
  }

  lemma HoldingsGrow(coins: seq<Coin>, c: Coin)
    requires HoldingsOf(coins) != []
    ensures HoldingsOf(coins + [c]) != []
  {
    HoldingsWhereHeld(coins);
    HoldingsWhereHeld(coins + [c]);
    assert AssetLists(coins + [c])[..|coins|] == AssetLists(coins);
  }

  lemma KeysSnoc(coins: seq<Coin>, c: Coin)
    ensures Keys(coins + [c]) == Keys(coins) + [c.key]
  {
  }

  lemma DistinctKeys(coins: seq<Coin>, c: Coin)
    requires Distinct(Keys(coins)) && c.key !in Keys(coins)
    ensures Distinct(Keys(coins + [c]))
  {
    var keys := Keys(coins);
    KeysSnoc(coins, c);
    assert forall i, j :: 0 <= i < j < |keys + [c.key]| ==> (keys + [c.key])[i] != (keys + [c.key])[j];
  }

  // --------------------------------------------------------- greedy selection

  /** One more receipt is taken or left. */
  lemma GreedyStep(receipts: seq<Coin>, fees: Fees, maxAmount: int)
    requires receipts != []
    ensures var n := |receipts| - 1;
            var before := Greedy(receipts[..n], fees, maxAmount);
            || Greedy(receipts, fees, maxAmount) == before
            || (var s := before + [receipts[n]];
                Greedy(receipts, fees, maxAmount) == s && Within(Total(s) - ProceedsFee(s, fees, None), maxAmount))
  {
    hide Total, ProceedsFee, Within;
  }

  lemma {:induction false} GreedyMembers(receipts: seq<Coin>, fees: Fees, maxAmount: int)
    ensures forall c :: c in Greedy(receipts, fees, maxAmount) ==> c in receipts
  {
    if receipts != [] {
      GreedyStep(receipts, fees, maxAmount);
      hide Greedy, Total, ProceedsFee, Within;
      GreedyMembers(receipts[..|receipts| - 1], fees, maxAmount);
    } else {
      assert Greedy([], fees, maxAmount) == [];
    }
  }

  lemma {:induction false} GreedyKeys(receipts: seq<Coin>, fees: Fees, maxAmount: int)
    requires Distinct(Keys(receipts))
    ensures Distinct(Keys(Greedy(receipts, fees, maxAmount)))
  {
    if receipts != [] {
      var n := |receipts| - 1;
      GreedyStep(receipts, fees, maxAmount);
      LastKeyIsNew(receipts);
      PrefixKeys(receipts, n);
      GreedyKeys(receipts[..n], fees, maxAmount);
      var s := Greedy(receipts[..n], fees, maxAmount);
      GreedyMembers(receipts[..n], fees, maxAmount);
      KeysOfMembers(s, receipts[..n]);
      hide Greedy, Total, ProceedsFee, Within, Distinct;
      DistinctKeys(s, receipts[n]);
    }
  }

  lemma PrefixKeys(coins: seq<Coin>, n: nat)
    requires n <= |coins| && Distinct(Keys(coins))
    ensures Distinct(Keys(coins[..n]))
  {
    assert forall i :: 0 <= i < n ==> Keys(coins[..n])[i] == Keys(coins)[i];
  }

  lemma KeysOfMembers(some: seq<Coin>, all: seq<Coin>)
    requires forall c :: c in some ==> c in all
    ensures forall k :: k in Keys(some) ==> k in Keys(all)
  {
    forall k | k in Keys(some) ensures k in Keys(all) {
      var i :| 0 <= i < |some| && Keys(some)[i] == k;
      assert some[i] in all;
      var j :| 0 <= j < |all| && all[j] == some[i];
      assert Keys(all)[j] == k;
    }
  }

  lemma {:induction false} GreedyWithin(receipts: seq<Coin>, fees: Fees, maxAmount: int)
    ensures var s := Greedy(receipts, fees, maxAmount);
            s != [] ==> Within(Total(s) - ProceedsFee(s, fees, None), maxAmount)
  {
    hide Total, ProceedsFee, Within;
    if receipts != [] {
      GreedyStep(receipts, fees, maxAmount);
      GreedyWithin(receipts[..|receipts| - 1], fees, maxAmount);
    }
  }

  lemma GreedyFacts(receipts: seq<Coin>, fees: Fees, maxAmount: int)
    requires Distinct(Keys(receipts))
    ensures var s := Greedy(receipts, fees, maxAmount);
            && (forall c :: c in s ==> c in receipts) && Distinct(Keys(s))
               && (forall k :: k in Keys(s) ==> k in Keys(receipts))
            && (s != [] ==> Within(Total(s) - ProceedsFee(s, fees, None), maxAmount))
  {
    hide Greedy, Total, ProceedsFee, Within, Distinct;
    GreedyMembers(receipts, fees, maxAmount);
    GreedyKeys(receipts, fees, maxAmount);
    GreedyWithin(receipts, fees, maxAmount);
    KeysOfMembers(Greedy(receipts, fees, maxAmount), receipts);
  }

  lemma LastKeyIsNew(coins: seq<Coin>)
    requires coins != [] && Distinct(Keys(coins))
    ensures coins[|coins| - 1].key !in Keys(coins[..|coins| - 1])
  {
    var n := |coins| - 1;
    assert forall i :: 0 <= i < n ==> Keys(coins)[i] != Keys(coins)[n] && Keys(coins[..n])[i] == Keys(coins)[i];
  }

  // ------------------------------------------------------------------ sponsor

  lemma {:induction false} SponsorFacts(
    available: seq<Coin>, selected: seq<Coin>, reserve: int, overLimit: bool, cfg: Cfg, fees: Fees, maxAmount: int)
    requires FindSponsor(available, selected, reserve, overLimit, cfg, fees, maxAmount).Ok?
    ensures var s := FindSponsor(available, selected, reserve, overLimit, cfg, fees, maxAmount).value;
            s.coin in available
              && OfferOf(selected, s.coin, reserve, cfg, fees, maxAmount) == Offered(s.fee, s.plainChange)
  {
    hide OfferOf;
    match OfferOf(selected, available[0], reserve, cfg, fees, maxAmount)
    case Unfit => SponsorFacts(available[1..], selected, reserve, overLimit, cfg, fees, maxAmount);
    case TooLarge => SponsorFacts(available[1..], selected, reserve, true, cfg, fees, maxAmount);
    case Offered(_, _) =>
    case Changed =>
  }

  /** The fee argument the guard will use for these amounts. */
  function FeeOutputs(amount: int, plainChange: Option<int>): Option<seq<int>> {
    if plainChange.None? then None else Some([amount - plainChange.value, plainChange.value])
  }

  /** An accepted offer pays its own fee, within every limit, and leaves the reserve. */
  lemma OfferedMeans(
    selected: seq<Coin>, c: Coin, reserve: int, cfg: Cfg, fees: Fees, maxAmount: int, fee: int,
    plainChange: Option<int>)
    requires OfferOf(selected, c, reserve, cfg, fees, maxAmount) == Offered(fee, plainChange)
    requires Within(cfg.dust, maxAmount)
    ensures var amount := Total(selected + [c]) - fee;
            && amount >= cfg.dust && fee == ProceedsFee(selected + [c], fees, FeeOutputs(amount, plainChange))
            && (plainChange.None? ==> Within(amount, maxAmount))
            && (plainChange.Some? ==>
                  && amount - plainChange.value == cfg.dust && plainChange.value >= cfg.dust
                     && plainChange.value >= cfg.minReserve
                  && Within(plainChange.value, maxAmount) && HoldingsOf(selected) != [] && c.assets == [])
            && (plainChange.Some? || ReserveValue(c) > 0 ==> reserve - ReserveValue(c) >= cfg.minReserve)
  {
    hide Total, HoldingsOf, InputFees, ProceedsFee;
  }

  // ---------------------------------------------------------------- selection

  /** The selected coins of a collection, and what is known about them. */
  ghost predicate Selected(
    coins: seq<Coin>, fee: int, plainChange: Option<int>, taken: seq<Coin>, receipts: seq<Coin>, ordinary: seq<Coin>,
    reserved: seq<Key>, cfg: Cfg, fees: Fees, maxAmount: int)
  {
    var amount := Total(coins) - fee;
    && taken != [] && (forall c :: c in taken ==> c in receipts) && Distinct(Keys(coins))
    && amount >= cfg.dust && fee == ProceedsFee(coins, fees, FeeOutputs(amount, plainChange))
    && (plainChange.None? ==> Within(amount, maxAmount))
    && (coins == taken ==> plainChange.None?)
    && (coins != taken ==>
          && |coins| == |taken| + 1 && coins[..|taken|] == taken
          && var c := coins[|taken|];
          && c in ordinary && Usable(c, reserved, Keys(receipts), cfg)
          && (plainChange.Some? ==>
                && amount - plainChange.value == cfg.dust && plainChange.value >= cfg.dust
                   && plainChange.value >= cfg.minReserve
                && Within(plainChange.value, maxAmount) && HoldingsOf(taken) != [] && c.assets == [])
          && (plainChange.Some? || ReserveValue(c) > 0 ==>
                Reserve(UsableCoins(ordinary, reserved, Keys(receipts), cfg)) - ReserveValue(c) >= cfg.minReserve))
  }

  lemma SelectionFacts(
    receipts: seq<Coin>, ordinary: seq<Coin>, reserved: seq<Key>, cfg: Cfg, fees: Fees, maxAmount: int)
    requires Distinct(Keys(receipts)) && Within(cfg.dust, maxAmount)
    requires Selection(receipts, ordinary, reserved, cfg, fees, maxAmount).Ok?
    ensures var s := Selection(receipts, ordinary, reserved, cfg, fees, maxAmount).value;
            Selected(s.0, s.1, s.2, Greedy(receipts, fees, maxAmount), receipts, ordinary, reserved, cfg, fees,
              maxAmount)
  {
    hide Total, HoldingsOf, ProceedsFee, Greedy, OfferOf, FindSponsor, SortBy, Reserve, PositiveAssets, Distinct,
      Within;
    var taken := Greedy(receipts, fees, maxAmount);
    GreedyFacts(receipts, fees, maxAmount);
    var fee := ProceedsFee(taken, fees, None);
    if Total(taken) - fee < cfg.dust {
      var usable := UsableCoins(ordinary, reserved, Keys(receipts), cfg);
      var available := SortBy(usable, Handier);
      SortKeepsCoins(usable, Handier);
      SponsorFacts(available, taken, Reserve(available), false, cfg, fees, maxAmount);
      var s := FindSponsor(available, taken, Reserve(available), false, cfg, fees, maxAmount).value;
      OfferedMeans(taken, s.coin, Reserve(available), cfg, fees, maxAmount, s.fee, s.plainChange);
      DistinctKeys(taken, s.coin);
      assert (taken + [s.coin])[..|taken|] == taken;
    }
  }

  // ----------------------------------------------------- the plan is valid

  lemma {:induction false} FirstOtherIsSponsor(plan: Plan, taken: seq<Coin>, c: Coin)
    requires c.key !in plan.receipts && forall x :: x in taken ==> x.key in plan.receipts
    ensures FirstOther(plan, taken + [c]) == Some(c)
  {
    if taken == [] {
      assert taken + [c] == [c];
    } else {
      assert (taken + [c])[1..] == taken[1..] + [c];
      FirstOtherIsSponsor(plan, taken[1..], c);
    }
  }

  lemma {:induction false} NoOther(plan: Plan, coins: seq<Coin>)
    requires forall x :: x in coins ==> x.key in plan.receipts
    ensures FirstOther(plan, coins) == None
  {
    if coins != [] { NoOther(plan, coins[1..]); }
  }

  lemma KeyOf(coins: seq<Coin>, c: Coin)
    requires c in coins
    ensures c.key in Keys(coins)
  {
    var i :| 0 <= i < |coins| && coins[i] == c;
    assert Keys(coins)[i] == c.key;
  }

  lemma SumOfPair(a: int, b: int)
    ensures SumOf([a, b]) == a + b && SumOf([a]) == a
  {
    assert [a][..0] == [];
    assert SumOf([a]) == a;
    assert [a, b][..1] == [a];
  }

  /** The sponsor is the only selected coin that is not a receipt. */
  lemma SponsorOf(plan: Plan, coins: seq<Coin>, taken: seq<Coin>)
    requires plan.receipts == Keys(taken) && Distinct(Keys(coins))
    requires coins == taken || (|coins| == |taken| + 1 && coins[..|taken|] == taken)
    ensures FirstOther(plan, coins) == if coins == taken then None else Some(coins[|taken|])
    ensures forall k :: k in plan.receipts ==> k in Keys(coins)
  {
    forall x | x in taken ensures x.key in plan.receipts { KeyOf(taken, x); }
    if coins == taken {
      NoOther(plan, coins);
    } else {
      var n := |taken|;
      assert coins == taken + [coins[n]];
      LastKeyIsNew(coins);
      KeysSnoc(taken, coins[n]);
      FirstOtherIsSponsor(plan, taken, coins[n]);
    }
  }

  lemma SelectedPlanIsValid(
    coins: seq<Coin>, taken: seq<Coin>, plan: Plan, receipts: seq<Coin>, ordinary: seq<Coin>, reserved: seq<Key>,
    cfg: Cfg, fees: Fees, maxAmount: int)
    requires cfg.dust > 0 && Within(cfg.dust, maxAmount)
    requires Selected(coins, plan.fee, plan.plainChange, taken, receipts, ordinary, reserved, cfg, fees, maxAmount)
    requires Finished(coins, Keys(taken), plan.fee, plan.plainChange, cfg) == Ok(plan)
    ensures PlanHolds(plan, coins, cfg)
  {
    hide Total, HoldingsOf, ProceedsFee, PositiveAssets, Distinct, Usable, Reserve, UsableCoins, Within;
    SponsorOf(plan, coins, taken);
    PrefixDistinct(coins, taken);
    CollectionFeeIsNatural(coins, plan, fees);
    assert |Keys(coins)| == |coins| && |Keys(taken)| == |taken|;
    if plan.plainChange.Some? {
      HoldingsGrow(taken, coins[|taken|]);
      assert coins == taken + [coins[|taken|]];
    }
    hide FirstOther;
  }

  lemma SelectedOutputs(
    coins: seq<Coin>, taken: seq<Coin>, plan: Plan, receipts: seq<Coin>, ordinary: seq<Coin>, reserved: seq<Key>,
    cfg: Cfg, fees: Fees, maxAmount: int)
    requires cfg.dust > 0 && Within(cfg.dust, maxAmount)
    requires Selected(coins, plan.fee, plan.plainChange, taken, receipts, ordinary, reserved, cfg, fees, maxAmount)
    requires Finished(coins, Keys(taken), plan.fee, plan.plainChange, cfg) == Ok(plan)
    ensures AllWithin(OutputAmounts(plan), maxAmount) && Total(coins) == SumOf(OutputAmounts(plan)) + plan.fee
  {
    hide Total, HoldingsOf, ProceedsFee, PositiveAssets, Distinct, Usable, Reserve, UsableCoins, Within;
    if plan.plainChange.Some? {
      SumOfPair(plan.amount - plan.plainChange.value, plan.plainChange.value);
    } else {
      SumOfPair(plan.amount, 0);
    }
    hide SumOf;
  }

  /**
   * Every plan `planProceeds` returns passes the separate checker on its own coins, respects the
   * provider maximum on every output, and its inputs are its outputs plus its fee.
   */
  lemma CollectionPlanIsValid(
    receipts: seq<Coin>, ordinary: seq<Coin>, reserved: seq<Key>, cfg: Cfg, fees: Fees, address: string, maxAmount: int,
    plan: Plan)
    returns (coins: seq<Coin>)
    requires cfg.dust > 0 && Collection(receipts, ordinary, reserved, cfg, fees, address, maxAmount) == Ok(plan)
    ensures PlanHolds(plan, coins, cfg) && AllWithin(OutputAmounts(plan), maxAmount)
    ensures Total(coins) == SumOf(OutputAmounts(plan)) + plan.fee
    ensures forall c :: c in coins ==> c in receipts || c in ordinary
  {
    hide Total, HoldingsOf, ProceedsFee, Selection, PositiveAssets, Distinct, Usable, AllOwned, AnyReserved, Greedy,
      Selected, PlanHolds, AllWithin, OutputAmounts, SumOf;
    coins := Selection(receipts, ordinary, reserved, cfg, fees, maxAmount).value.0;
    var taken := Greedy(receipts, fees, maxAmount);
    SelectionFacts(receipts, ordinary, reserved, cfg, fees, maxAmount);
    SelectedPlanIsValid(coins, taken, plan, receipts, ordinary, reserved, cfg, fees, maxAmount);
    SelectedOutputs(coins, taken, plan, receipts, ordinary, reserved, cfg, fees, maxAmount);
    SelectedCoins(coins, plan.fee, plan.plainChange, taken, receipts, ordinary, reserved, cfg, fees, maxAmount);
  }

  lemma SelectedCoins(
    coins: seq<Coin>, fee: int, plainChange: Option<int>, taken: seq<Coin>, receipts: seq<Coin>, ordinary: seq<Coin>,
    reserved: seq<Key>, cfg: Cfg, fees: Fees, maxAmount: int)
    requires Selected(coins, fee, plainChange, taken, receipts, ordinary, reserved, cfg, fees, maxAmount)
    ensures forall c :: c in coins ==> c in receipts || c in ordinary
  {
    hide Total, HoldingsOf, ProceedsFee, Usable, Reserve, UsableCoins, Distinct;
    if coins != taken { assert coins == taken + [coins[|taken|]]; }
  }

  lemma CollectionFeeIsNatural(coins: seq<Coin>, plan: Plan, fees: Fees)
    requires plan.fee == ProceedsFee(coins, fees, FeeOutputs(plan.amount, plan.plainChange))
    ensures plan.fee >= 0
  {
    var outputs := FeeOutputs(plan.amount, plan.plainChange);
    FeesAreNatural(coins, if outputs.Some? then outputs.value else [], fees);
  }

  lemma PrefixDistinct(coins: seq<Coin>, taken: seq<Coin>)
    requires Distinct(Keys(coins)) && (coins == taken || (|coins| == |taken| + 1 && coins[..|taken|] == taken))
    ensures Distinct(Keys(taken))
  {
    assert forall i :: 0 <= i < |taken| ==> Keys(taken)[i] == Keys(coins)[i];
  }

  // -------------------------------------------------- the guard agrees

  lemma {:induction false} FindsEach(coins: seq<Coin>, c: Coin)
    requires c in coins && Distinct(Keys(coins))
    ensures Find(coins, c.key) == Some(c)
  {
    if coins[0] != c {
      var i :| 0 <= i < |coins| && coins[i] == c;
      assert Keys(coins)[0] != Keys(coins)[i];
      assert Keys(coins[1..]) == Keys(coins)[1..];
      assert coins[1..][i - 1] == c;
      FindsEach(coins[1..], c);
    }
  }

  lemma {:induction false} FindsAll(coins: seq<Coin>, selected: seq<Coin>)
    requires Distinct(Keys(coins)) && forall c :: c in selected ==> c in coins
    ensures FindAll(coins, Keys(selected)) == Some(selected)
  {
    if selected != [] {
      var n := |selected| - 1;
      assert Keys(selected)[..n] == Keys(selected[..n]);
      FindsAll(coins, selected[..n]);
      FindsEach(coins, selected[n]);
      assert selected == selected[..n] + [selected[n]];
    }
  }

  /** What a coin adds to the guard's reserve. */
  function Free(c: Coin, locked: seq<Key>, cfg: Cfg): int {
    if c.key !in locked && Owned(c, cfg) then ReserveValue(c) else 0
  }

  lemma {:induction false} FreeWithout(coins: seq<Coin>, i: nat, locked: seq<Key>, cfg: Cfg)
    requires i < |coins|
    ensures FreeReserve(coins, locked, cfg)
            == FreeReserve(coins[..i] + coins[i + 1..], locked, cfg) + Free(coins[i], locked, cfg)
  {
    var n := |coins| - 1;
    if i == n {
      assert coins[..i] + coins[i + 1..] == coins[..n];
    } else {
      FreeWithout(coins[..n], i, locked, cfg);
      var without := coins[..i] + coins[i + 1..];
      assert without[..|without| - 1] == coins[..n][..i] + coins[..n][i + 1..];
      assert without[|without| - 1] == coins[n];
    }
  }

  lemma {:induction false} FreeIsNatural(coins: seq<Coin>, locked: seq<Key>, cfg: Cfg)
    ensures FreeReserve(coins, locked, cfg) >= 0
  {
    if coins != [] { FreeIsNatural(coins[..|coins| - 1], locked, cfg); }
  }

  function ReserveExcept(coins: seq<Coin>, key: Key): int {
    if coins == [] then 0
    else
      var last := coins[|coins| - 1];
      ReserveExcept(coins[..|coins| - 1], key) + if last.key == key then 0 else ReserveValue(last)
  }

  lemma {:induction false} ExceptOne(coins: seq<Coin>, c: Coin)
    requires Distinct(Keys(coins)) && c in coins
    ensures ReserveExcept(coins, c.key) == Reserve(coins) - ReserveValue(c)
  {
    var n := |coins| - 1;
    assert Keys(coins[..n]) == Keys(coins)[..n];
    LastKeyIsNew(coins);
    if coins[n] == c {
      ExceptNone(coins[..n], c.key);
    } else {
      var i :| 0 <= i < |coins| && coins[i] == c;
      assert coins[..n][i] == c;
      KeyOf(coins[..n], c);
      ExceptOne(coins[..n], c);
    }
  }

  lemma {:induction false} ExceptNone(coins: seq<Coin>, key: Key)
    requires key !in Keys(coins)
    ensures ReserveExcept(coins, key) == Reserve(coins)
  {
    if coins != [] {
      var n := |coins| - 1;
      assert Keys(coins[..n]) == Keys(coins)[..n];
      assert Keys(coins)[n] == coins[n].key;
      ExceptNone(coins[..n], key);
    }
  }

  /** The guard's reserve is at least the planner's, without the sponsor. */
  lemma {:induction false} GuardSeesReserve(usable: seq<Coin>, coins: seq<Coin>, key: Key, locked: seq<Key>, cfg: Cfg)
    requires Distinct(Keys(usable))
    requires forall c :: c in usable ==> c in coins && (c.key == key || (c.key !in locked && Owned(c, cfg)))
    ensures ReserveExcept(usable, key) <= FreeReserve(coins, locked, cfg)
    decreases |usable|
  {
    if usable == [] {
      FreeIsNatural(coins, locked, cfg);
    } else {
      var n := |usable| - 1;
      var last := usable[n];
      assert last in usable;
      var i :| 0 <= i < |coins| && coins[i] == last;
      var without := coins[..i] + coins[i + 1..];
      FreeWithout(coins, i, locked, cfg);
      assert Keys(usable[..n]) == Keys(usable)[..n];
      LastKeyIsNew(usable);
      forall c | c in usable[..n] ensures c in without && (c.key == key || (c.key !in locked && Owned(c, cfg))) {
        KeyOf(usable[..n], c);
        assert c in usable && c != last;
        C.StillIn(coins, i, c);
      }
      GuardSeesReserve(usable[..n], without, key, locked, cfg);
    }
  }

  lemma {:induction false} UsableKeys(coins: seq<Coin>, reserved: seq<Key>, receipts: seq<Key>, cfg: Cfg)
    requires Distinct(Keys(coins))
    ensures Distinct(Keys(UsableCoins(coins, reserved, receipts, cfg)))
    ensures forall k :: k in Keys(UsableCoins(coins, reserved, receipts, cfg)) ==> k in Keys(coins)
  {
    if coins != [] {
      var n := |coins| - 1;
      assert Keys(coins[..n]) == Keys(coins)[..n];
      UsableKeys(coins[..n], reserved, receipts, cfg);
      LastKeyIsNew(coins);
      var before := UsableCoins(coins[..n], reserved, receipts, cfg);
      DistinctKeys(before, coins[n]);
      KeysSnoc(before, coins[n]);
      KeysSnoc(coins[..n], coins[n]);
      assert coins == coins[..n] + [coins[n]];
    }
  }

  lemma GuardReserveHolds(
    plan: Plan, coins: seq<Coin>, taken: seq<Coin>, receipts: seq<Coin>, ordinary: seq<Coin>, reserved: seq<Key>,
    cfg: Cfg, fees: Fees,
    maxAmount: int, inventory: seq<Coin>)
    requires Selected(coins, plan.fee, plan.plainChange, taken, receipts, ordinary, reserved, cfg, fees, maxAmount)
    requires plan.inputs == Keys(coins) && coins != taken && Distinct(Keys(ordinary))
    requires forall k :: k in Keys(taken) ==> k in Keys(receipts)
    requires forall c :: c in ordinary ==> c in inventory
    requires plan.plainChange.Some? || ReserveValue(coins[|taken|]) > 0
    ensures FreeReserve(inventory, reserved + plan.inputs, cfg) >= cfg.minReserve
  {
    hide Total, HoldingsOf, ProceedsFee, Reserve, ReserveValue, Owned;
    var c := coins[|taken|];
    var usable := UsableCoins(ordinary, reserved, Keys(receipts), cfg);
    UsableKeys(ordinary, reserved, Keys(receipts), cfg);
    ExceptOne(usable, c);
    assert coins == taken + [c];
    KeysSnoc(taken, c);
    forall u | u in usable
      ensures u in inventory && (u.key == c.key || (u.key !in reserved + plan.inputs && Owned(u, cfg)))
    {
      assert u.key !in Keys(receipts);
    }
    GuardSeesReserve(usable, inventory, c.key, reserved + plan.inputs, cfg);
  }

  lemma SelectedOwned(
    coins: seq<Coin>, fee: int, plainChange: Option<int>, taken: seq<Coin>, receipts: seq<Coin>, ordinary: seq<Coin>,
    reserved: seq<Key>, cfg: Cfg, fees: Fees, maxAmount: int)
    requires Selected(coins, fee, plainChange, taken, receipts, ordinary, reserved, cfg, fees, maxAmount)
             && AllOwned(receipts, cfg)
    ensures AllOwned(coins, cfg)
  {
    hide Total, HoldingsOf, ProceedsFee, Reserve, UsableCoins, Distinct, Owned;
    forall i | 0 <= i < |coins| ensures Owned(coins[i], cfg) {
      if i < |taken| { assert coins[i] == taken[i] && taken[i] in receipts; }
    }
  }

  /**
   * Planner and guard agree on collections, single output or dust carrier with plain change: with
   * coins, locks, limits and fees as they were planned, the guard lets the plan through, so the fee it
   * recomputes is the plan's and the reserve it counts is enough.
   */
  lemma GuardAcceptsCollection(
    receipts: seq<Coin>, ordinary: seq<Coin>, reserved: seq<Key>, cfg: Cfg, fees: Fees, address: string, maxAmount: int,
    plan: Plan,
    inventory: seq<Coin>)
    requires cfg.dust > 0 && Collection(receipts, ordinary, reserved, cfg, fees, address, maxAmount) == Ok(plan)
    requires Distinct(Keys(inventory)) && forall c :: c in receipts || c in ordinary ==> c in inventory
    ensures Guard(plan, inventory, reserved, cfg, fees, maxAmount) == None
  {
    hide Total, HoldingsOf, ProceedsFee, Selection, PositiveAssets, Distinct, AllOwned, AnyReserved, Greedy, Selected,
      AllWithin, SumOf, FreeReserve, Reserve, ReserveValue, Usable, FindAll, FirstOther;
    var coins := Selection(receipts, ordinary, reserved, cfg, fees, maxAmount).value.0;
    var taken := Greedy(receipts, fees, maxAmount);
    SelectionFacts(receipts, ordinary, reserved, cfg, fees, maxAmount);
    SelectedOutputs(coins, taken, plan, receipts, ordinary, reserved, cfg, fees, maxAmount);
    SelectedCoins(coins, plan.fee, plan.plainChange, taken, receipts, ordinary, reserved, cfg, fees, maxAmount);
    SelectedOwned(coins, plan.fee, plan.plainChange, taken, receipts, ordinary, reserved, cfg, fees, maxAmount);
    FindsAll(inventory, coins);
    GreedyFacts(receipts, fees, maxAmount);
    CollectionGuard(plan, coins, taken, receipts, ordinary, reserved, cfg, fees, maxAmount, inventory);
  }

  lemma CollectionGuard(
    plan: Plan, coins: seq<Coin>, taken: seq<Coin>, receipts: seq<Coin>, ordinary: seq<Coin>, reserved: seq<Key>,
    cfg: Cfg, fees: Fees,
    maxAmount: int, inventory: seq<Coin>)
    requires Selected(coins, plan.fee, plan.plainChange, taken, receipts, ordinary, reserved, cfg, fees, maxAmount)
    requires Finished(coins, Keys(taken), plan.fee, plan.plainChange, cfg) == Ok(plan)
    requires AllWithin(OutputAmounts(plan), maxAmount) && AllOwned(coins, cfg)
             && FindAll(inventory, plan.inputs) == Some(coins)
    requires Distinct(Keys(inventory)) && Distinct(Keys(ordinary)) && forall c :: c in ordinary ==> c in inventory
    requires forall k :: k in Keys(taken) ==> k in Keys(receipts)
    ensures Guard(plan, inventory, reserved, cfg, fees, maxAmount) == None
  {
    hide Total, HoldingsOf, ProceedsFee, PositiveAssets, Distinct, AllOwned, AllWithin, FreeReserve, Reserve,
      ReserveValue, FindAll, Within, UsableCoins;
    SponsorOf(plan, coins, taken);
    hide FirstOther;
    if coins != taken && (plan.plainChange.Some? || ReserveValue(coins[|taken|]) > 0) {
      GuardReserveHolds(plan, coins, taken, receipts, ordinary, reserved, cfg, fees, maxAmount, inventory);
    }
  }

  // --------------------------------------------------------- inventory splits

  /** A settled fee is a fixed point: the estimate for the outputs it leaves is the fee itself. */
  lemma {:induction false} SettledMeans(
    coin: Coin, count: int, fee: int, attempts: nat, cfg: Cfg, fees: Fees, maxAmount: int)
    requires count >= 2 && SettledFee(coin, count, fee, attempts, cfg, fees, maxAmount).Some?
    ensures var settled := SettledFee(coin, count, fee, attempts, cfg, fees, maxAmount).value;
            && Chunk(coin.value - settled, count, cfg) >= 2 * cfg.dust && settled <= cfg.maxFee
            && AllWithin(SplitOutputs(coin.value - settled, count, cfg), maxAmount)
            && settled == ProceedsFee([coin], fees, Some(SplitOutputs(coin.value - settled, count, cfg)))
    decreases attempts
  {
    hide Chunk, SplitOutputs, ProceedsFee, AllWithin;
    var estimated := ProceedsFee([coin], fees, Some(SplitOutputs(coin.value - fee, count, cfg)));
    if estimated != fee { SettledMeans(coin, count, estimated, attempts - 1, cfg, fees, maxAmount); }
  }

  lemma {:induction false} CountFound(coin: Coin, most: int, cfg: Cfg, fees: Fees, maxAmount: int) returns (count: int)
    requires FirstCount(coin, most, cfg, fees, maxAmount).Some?
    ensures 2 <= count <= most
    ensures SettledFee(coin, count, 0, ATTEMPTS, cfg, fees, maxAmount).Some?
    ensures FirstCount(coin, most, cfg, fees, maxAmount)
            == Some(SplitPlan(coin, count, SettledFee(coin, count, 0, ATTEMPTS, cfg, fees, maxAmount).value, cfg))
    decreases most
  {
    hide SettledFee, SplitPlan;
    count := most;
    if SettledFee(coin, most, 0, ATTEMPTS, cfg, fees, maxAmount).None? {
      count := CountFound(coin, most - 1, cfg, fees, maxAmount);
    }
  }

  lemma {:induction false} CoinFound(candidates: seq<Coin>, most: int, cfg: Cfg, fees: Fees, maxAmount: int)
    returns (coin: Coin)
    requires FirstSplit(candidates, most, cfg, fees, maxAmount).Some?
    ensures coin in candidates
            && FirstCount(coin, most, cfg, fees, maxAmount) == FirstSplit(candidates, most, cfg, fees, maxAmount)
  {
    hide FirstCount;
    coin := candidates[0];
    if FirstCount(coin, most, cfg, fees, maxAmount).None? {
      coin := CoinFound(candidates[1..], most, cfg, fees, maxAmount);
    }
  }

  /** The coin and count behind a split plan. */
  lemma SplitFound(
    coins: seq<Coin>, reserved: seq<Key>, cfg: Cfg, fees: Fees, address: string, maxAmount: int, plan: Plan)
    returns (coin: Coin, count: int)
    requires cfg.dust > 0 && InventorySplit(coins, reserved, cfg, fees, address, maxAmount) == Ok(Some(plan))
    ensures coin in coins && Splittable(coin, reserved, cfg) && Distinct(Keys(coins))
    ensures 2 <= count <= 8 && count + Working(SplittableCoins(coins, reserved, cfg), cfg.dust) <= 9
    ensures plan == SplitPlan(coin, count, plan.fee, cfg) && Chunk(coin.value - plan.fee, count, cfg) >= 2 * cfg.dust
    ensures plan.fee <= cfg.maxFee
            && plan.fee == ProceedsFee([coin], fees, Some(SplitOutputs(coin.value - plan.fee, count, cfg)))
    ensures AllWithin(SplitOutputs(coin.value - plan.fee, count, cfg), maxAmount)
  {
    hide Splittable, Working, SplitOutputs, ProceedsFee, Chunk, SortBy, AllWithin, FirstSplit, FirstCount, SettledFee,
      Distinct;
    var available := SplittableCoins(coins, reserved, cfg);
    var most := Counts(Working(available, cfg.dust));
    SortKeepsCoins(available, Richer);
    coin := CoinFound(SortBy(available, Richer), most, cfg, fees, maxAmount);
    count := CountFound(coin, most, cfg, fees, maxAmount);
    SettledMeans(coin, count, 0, ATTEMPTS, cfg, fees, maxAmount);
  }

  /** Every split plan passes the checker, respects the maximum, and pays inputs as outputs plus fee. */
  lemma SplitIsValid(
    coins: seq<Coin>, reserved: seq<Key>, cfg: Cfg, fees: Fees, address: string, maxAmount: int, plan: Plan)
    returns (coin: Coin)
    requires cfg.dust > 0 && InventorySplit(coins, reserved, cfg, fees, address, maxAmount) == Ok(Some(plan))
    ensures coin in coins && PlanHolds(plan, [coin], cfg) && AllWithin(OutputAmounts(plan), maxAmount)
    ensures coin.value == SumOf(OutputAmounts(plan)) + plan.fee
  {
    hide Splittable, Working, SplitOutputs, ProceedsFee, Chunk, AllWithin, InventorySplit, PlanHolds;
    var count;
    coin, count := SplitFound(coins, reserved, cfg, fees, address, maxAmount, plan);
    SplitPlanIsValid(coin, count, plan.fee, reserved, cfg, fees);
    SplitAmounts(coin.value - plan.fee, count, cfg);
    hide SumOf;
  }

  /** With unchanged coins, locks and fees the guard lets a split through, fee and all. */
  lemma GuardAcceptsSplit(
    coins: seq<Coin>, reserved: seq<Key>, cfg: Cfg, fees: Fees, address: string, maxAmount: int, plan: Plan)
    requires cfg.dust > 0 && InventorySplit(coins, reserved, cfg, fees, address, maxAmount) == Ok(Some(plan))
    ensures Guard(plan, coins, reserved, cfg, fees, maxAmount) == None
  {
    hide Working, SplitOutputs, ProceedsFee, Chunk, AllWithin, InventorySplit, PlanHolds, FreeReserve, FindAll,
      HoldingsOf, Distinct;
    var coin, count := SplitFound(coins, reserved, cfg, fees, address, maxAmount, plan);
    SplitPlanIsValid(coin, count, plan.fee, reserved, cfg, fees);
    assert Keys([coin]) == [coin.key];
    FindsAll(coins, [coin]);
    assert AllFacts([coin]) == [FactsOf(coin)];
  }

  // ------------------------------------------------------------- termination

  lemma {:induction false} WorkingConcat(a: seq<Coin>, b: seq<Coin>, dust: int)
    ensures Working(a + b, dust) == Working(a, dust) + Working(b, dust)
  {
    if b == [] {
      assert a + b == a;
    } else {
      assert (a + b)[..|a + b| - 1] == a + b[..|b| - 1];
      WorkingConcat(a, b[..|b| - 1], dust);
    }
  }

  lemma {:induction false} SplittableConcat(a: seq<Coin>, b: seq<Coin>, reserved: seq<Key>, cfg: Cfg)
    ensures SplittableCoins(a + b, reserved, cfg)
            == SplittableCoins(a, reserved, cfg) + SplittableCoins(b, reserved, cfg)
  {
    hide Splittable;
    if b == [] {
      assert a + b == a;
    } else {
      assert (a + b)[..|a + b| - 1] == a + b[..|b| - 1];
      SplittableConcat(a, b[..|b| - 1], reserved, cfg);
    }
  }

  /** The count that `planInventorySplit` keeps below eight. */
  function WorkingCoins(coins: seq<Coin>, reserved: seq<Key>, cfg: Cfg): nat {
    Working(SplittableCoins(coins, reserved, cfg), cfg.dust)
  }

  lemma WorkingSum(a: seq<Coin>, b: seq<Coin>, reserved: seq<Key>, cfg: Cfg)
    ensures WorkingCoins(a + b, reserved, cfg) == WorkingCoins(a, reserved, cfg) + WorkingCoins(b, reserved, cfg)
  {
    SplittableConcat(a, b, reserved, cfg);
    WorkingConcat(SplittableCoins(a, reserved, cfg), SplittableCoins(b, reserved, cfg), cfg.dust);
  }

  lemma {:induction false} AllWork(coins: seq<Coin>, reserved: seq<Key>, cfg: Cfg)
    requires forall i :: 0 <= i < |coins| ==> Splittable(coins[i], reserved, cfg) && coins[i].value >= 2 * cfg.dust
    ensures WorkingCoins(coins, reserved, cfg) == |coins|
  {
    hide Splittable;
    if coins != [] {
      var n := |coins| - 1;
      AllWork(coins[..n], reserved, cfg);
      assert coins == coins[..n] + [coins[n]];
      WorkingSum(coins[..n], [coins[n]], reserved, cfg);
      OneWorks(coins[n], reserved, cfg);
      hide WorkingCoins;
    }
  }

  lemma OneWorks(c: Coin, reserved: seq<Key>, cfg: Cfg)
    requires Splittable(c, reserved, cfg) && c.value >= 2 * cfg.dust
    ensures WorkingCoins([c], reserved, cfg) == 1
  {
    hide Splittable, Working;
    assert [c][..0] == [];
    assert SplittableCoins([c], reserved, cfg) == SplittableCoins([], reserved, cfg) + [c] == [c];
    hide SplittableCoins;
    WorkingOne(c, cfg.dust);
  }

  lemma WorkingOne(c: Coin, dust: int)
    requires c.value >= 2 * dust
    ensures Working([c], dust) == 1
  {
    assert [c][..0] == [];
  }

  lemma WorkingReplaced(coins: seq<Coin>, i: nat, made: seq<Coin>, reserved: seq<Key>, cfg: Cfg)
    requires i < |coins|
    ensures WorkingCoins(coins[..i] + coins[i + 1..] + made, reserved, cfg)
            == WorkingCoins(coins, reserved, cfg) - WorkingCoins([coins[i]], reserved, cfg)
              + WorkingCoins(made, reserved, cfg)
  {
    hide WorkingCoins;
    assert coins == coins[..i] + ([coins[i]] + coins[i + 1..]);
    WorkingSum(coins[..i], [coins[i]] + coins[i + 1..], reserved, cfg);
    WorkingSum([coins[i]], coins[i + 1..], reserved, cfg);
    WorkingSum(coins[..i], coins[i + 1..], reserved, cfg);
    WorkingSum(coins[..i] + coins[i + 1..], made, reserved, cfg);
  }

  /** The split's coin is gone, its outputs are there and available, and nothing else changed. */
  ghost predicate Executed(before: seq<Coin>, plan: Plan, after: seq<Coin>, reserved: seq<Key>, cfg: Cfg) {
    exists i: nat, made: seq<Coin> :: ExecutedAs(before, plan, after, reserved, cfg, i, made)
  }

  ghost predicate ExecutedAs(
    before: seq<Coin>, plan: Plan, after: seq<Coin>, reserved: seq<Key>, cfg: Cfg, i: nat, made: seq<Coin>)
  {
    && i < |before| && plan.inputs == [before[i].key] && after == before[..i] + before[i + 1..] + made
    && |made| == |OutputAmounts(plan)|
    && forall k :: 0 <= k < |made| ==> made[k].value == OutputAmounts(plan)[k] && Splittable(made[k], reserved, cfg)
  }

  /** An executed split strictly raises the number of working coins and never takes it past eight. */
  lemma SplitRaisesWorking(
    before: seq<Coin>, after: seq<Coin>, reserved: seq<Key>, cfg: Cfg, fees: Fees, address: string, maxAmount: int,
    plan: Plan)
    requires cfg.dust > 0 && InventorySplit(before, reserved, cfg, fees, address, maxAmount) == Ok(Some(plan))
    requires Executed(before, plan, after, reserved, cfg)
    ensures WorkingCoins(before, reserved, cfg) >= 1
    ensures WorkingCoins(after, reserved, cfg) == WorkingCoins(before, reserved, cfg) - 1 + |OutputAmounts(plan)|
    ensures WorkingCoins(before, reserved, cfg) < WorkingCoins(after, reserved, cfg) <= 8
    ensures OutputAmounts(plan) != [] && OutputAmounts(plan)[0] >= cfg.minReserve + cfg.dust
            && OutputAmounts(plan)[0] >= 2 * cfg.dust
  {
    hide Working, SplitOutputs, ProceedsFee, Chunk, AllWithin, InventorySplit, SplittableCoins, Splittable, SumOf;
    var coin, count := SplitFound(before, reserved, cfg, fees, address, maxAmount, plan);
    WorkingCoinsAre(before, reserved, cfg);
    hide WorkingCoins;
    SplitAmounts(coin.value - plan.fee, count, cfg);
    assert |OutputAmounts(plan)| == count;
    FeesAreNatural([coin], SplitOutputs(coin.value - plan.fee, count, cfg), fees);
    hide ProceedsFee;
    var i: nat, made: seq<Coin> :| ExecutedAs(before, plan, after, reserved, cfg, i, made);
    SameCoin(before, i, coin);
    OneWorks(coin, reserved, cfg);
    AllWork(made, reserved, cfg);
    WorkingReplaced(before, i, made, reserved, cfg);
    SomeWork(before, i, reserved, cfg);
  }

  lemma WorkingCoinsAre(coins: seq<Coin>, reserved: seq<Key>, cfg: Cfg)
    ensures WorkingCoins(coins, reserved, cfg) == Working(SplittableCoins(coins, reserved, cfg), cfg.dust)
  {
  }

  lemma SomeWork(coins: seq<Coin>, i: nat, reserved: seq<Key>, cfg: Cfg)
    requires i < |coins|
    ensures WorkingCoins(coins, reserved, cfg) >= WorkingCoins([coins[i]], reserved, cfg)
  {
    WorkingReplaced(coins, i, [], reserved, cfg);
    assert WorkingCoins([], reserved, cfg) == 0;
  }

  lemma SameCoin(coins: seq<Coin>, i: nat, c: Coin)
    requires Distinct(Keys(coins)) && i < |coins| && c in coins && coins[i].key == c.key
    ensures coins[i] == c
  {
    var j :| 0 <= j < |coins| && coins[j] == c;
    assert Keys(coins)[i] == Keys(coins)[j];
  }

  /** One inventory after another, each made by executing the split planned for the one before. */
  ghost predicate Splits(
    states: seq<seq<Coin>>, plans: seq<Plan>, reserved: seq<Key>, cfg: Cfg, fees: Fees, address: string, maxAmount: int)
  {
    && |states| == |plans| + 1
    && forall i :: 0 <= i < |plans| ==>
         && InventorySplit(states[i], reserved, cfg, fees, address, maxAmount) == Ok(Some(plans[i]))
         && Executed(states[i], plans[i], states[i + 1], reserved, cfg)
  }

  lemma {:induction false} WorkingGrows(
    states: seq<seq<Coin>>, plans: seq<Plan>, n: nat, reserved: seq<Key>, cfg: Cfg, fees: Fees, address: string,
    maxAmount: int)
    requires cfg.dust > 0 && Splits(states, plans, reserved, cfg, fees, address, maxAmount) && n <= |plans|
    ensures n > 0 ==> n + 1 <= WorkingCoins(states[n], reserved, cfg) <= 8
  {
    hide WorkingCoins, InventorySplit, Executed;
    if n > 0 {
      WorkingGrows(states, plans, n - 1, reserved, cfg, fees, address, maxAmount);
      SplitRaisesWorking(states[n - 1], states[n], reserved, cfg, fees, address, maxAmount, plans[n - 1]);
    }
  }

  /** Inventory splitting terminates: at most seven splits can follow one another. */
  lemma AtMostSevenSplits(
    states: seq<seq<Coin>>, plans: seq<Plan>, reserved: seq<Key>, cfg: Cfg, fees: Fees, address: string, maxAmount: int)
    requires cfg.dust > 0 && Splits(states, plans, reserved, cfg, fees, address, maxAmount)
    ensures |plans| <= 7
  {
    WorkingGrows(states, plans, |plans|, reserved, cfg, fees, address, maxAmount);
  }
}
