// Which plan `planProceeds` and `planInventorySplit` return, on the coins they are given: the receipts
// that fit, the sponsor that must be taken, the coin and the count of a split, and every refusal.
module PlansMean {
  import opened Prelude
  import opened Assets
  import opened SpendPacket
  import opened Proceeds
  import opened GuardMeans
  import Canonical

  // ------------------------------------------------------------------ sorting

  ghost predicate WeakOrder(before: (Coin, Coin) -> bool) {
    && (forall a, b :: before(a, b) ==> !before(b, a))
    && (forall a, b, c :: !before(b, a) && !before(c, b) ==> !before(c, a))
  }

  ghost predicate SortedBy(coins: seq<Coin>, before: (Coin, Coin) -> bool) {
    forall i, j :: 0 <= i < j < |coins| ==> !before(coins[j], coins[i])
  }

  lemma {:induction false} InsertSorts(c: Coin, sorted: seq<Coin>, before: (Coin, Coin) -> bool)
    requires WeakOrder(before) && SortedBy(sorted, before)
    ensures SortedBy(InsertBy(c, sorted, before), before)
  {
    if sorted == [] {
    } else if before(c, sorted[0]) {
      var all := [c] + sorted;
      forall i, j | 0 <= i < j < |all| ensures !before(all[j], all[i]) {
        if i == 0 { assert !before(sorted[0], c) && (j > 1 ==> !before(sorted[j - 1], sorted[0])); }
      }
    } else {
      InsertSorts(c, sorted[1..], before);
      InsertKeepsCoins(c, sorted[1..], before);
      var rest := InsertBy(c, sorted[1..], before);
      forall x | x in rest ensures !before(x, sorted[0]) {
        if x != c { var i :| 0 <= i < |sorted[1..]| && sorted[1..][i] == x; assert sorted[i + 1] == x; }
      }
    }
  }

  lemma {:induction false} SortSorts(coins: seq<Coin>, before: (Coin, Coin) -> bool)
    requires WeakOrder(before)
    ensures SortedBy(SortBy(coins, before), before)
  {
    if coins != [] {
      SortSorts(coins[..|coins| - 1], before);
      InsertSorts(coins[|coins| - 1], SortBy(coins[..|coins| - 1], before), before);
    }
  }

  lemma {:induction false} InsertKeepsKeys(c: Coin, sorted: seq<Coin>, before: (Coin, Coin) -> bool)
    requires NoKeyTwice(sorted) && forall x :: x in sorted ==> x.key != c.key
    ensures NoKeyTwice(InsertBy(c, sorted, before))
  {
    if sorted != [] && !before(c, sorted[0]) {
      InsertKeepsKeys(c, sorted[1..], before);
      InsertKeepsCoins(c, sorted[1..], before);
      forall x | x in InsertBy(c, sorted[1..], before) ensures x.key != sorted[0].key {
        if x != c { var i :| 0 <= i < |sorted[1..]| && sorted[1..][i] == x; assert sorted[i + 1] == x; }
      }
    }
  }

  lemma {:induction false} SortKeepsKeys(coins: seq<Coin>, before: (Coin, Coin) -> bool)
    requires NoKeyTwice(coins)
    ensures NoKeyTwice(SortBy(coins, before))
  {
    if coins != [] {
      var n := |coins| - 1;
      SortKeepsKeys(coins[..n], before);
      SortKeepsCoins(coins[..n], before);
      InsertKeepsKeys(coins[n], SortBy(coins[..n], before), before);
    }
  }

  /** Carriers of assets before plain coins, then the smaller value, then the lower key. */
  predicate Precedes(a: Coin, b: Coin) {
    && (b.assets != [] ==> a.assets != [])
    && ((a.assets == []) == (b.assets == []) ==>
          a.value < b.value || (a.value == b.value && !Canonical.Before(b.key, a.key)))
  }

  /** The larger value first, then the lower key. */
  predicate Exceeds(a: Coin, b: Coin) {
    a.value > b.value || (a.value == b.value && !Canonical.Before(b.key, a.key))
  }

  lemma KeysCompare(a: Coin, b: Coin, c: Coin)
    ensures Canonical.Before(a.key, b.key) ==> !Canonical.Before(b.key, a.key)
    ensures !Canonical.Before(b.key, a.key) && !Canonical.Before(c.key, b.key) ==> !Canonical.Before(c.key, a.key)
  {
    Canonical.BeforeIsTotal(a.key, b.key);
    Canonical.BeforeIsTotal(b.key, c.key);
    if Canonical.Before(c.key, a.key) {
      if Canonical.Before(a.key, b.key) { Canonical.BeforeIsTransitive(c.key, a.key, b.key); }
      if a.key == b.key { assert Canonical.Before(c.key, b.key); }
    }
  }

  lemma HandierIsOrder()
    ensures WeakOrder(Handier) && forall a, b :: Precedes(a, b) <==> !Handier(b, a)
  {
    hide Canonical.Before;
    forall a, b ensures Handier(a, b) ==> !Handier(b, a) { KeysCompare(a, b, a); }
    forall a, b, c | !Handier(b, a) && !Handier(c, b) ensures !Handier(c, a) { KeysCompare(a, b, c); }
  }

  lemma RicherIsOrder()
    ensures WeakOrder(Richer) && forall a, b :: Exceeds(a, b) <==> !Richer(b, a)
  {
    hide Canonical.Before;
    forall a, b ensures Richer(a, b) ==> !Richer(b, a) { KeysCompare(a, b, a); }
    forall a, b, c | !Richer(b, a) && !Richer(c, b) ensures !Richer(c, a) { KeysCompare(a, b, c); }
  }

  // ------------------------------------------------------------ the sponsors

  /** May sponsor: the operator's, spendable offchain, not renewing, neither locked nor one of the receipts. */
  predicate MaySponsor(c: Coin, receipts: seq<Coin>, reserved: seq<Key>, cfg: Cfg) {
    Ours(c, cfg) && c.offchain && !c.renewing && c.key !in reserved && !HasKey(receipts, c.key)
  }

  /** Every coin that may sponsor, once, in the order in which they are tried. */
  ghost predicate InLine(
    line: seq<Coin>, receipts: seq<Coin>, ordinary: seq<Coin>, reserved: seq<Key>, cfg: Cfg)
  {
    && (forall c :: c in line <==> c in ordinary && MaySponsor(c, receipts, reserved, cfg)) && NoKeyTwice(line)
    && forall i, j :: 0 <= i < j < |line| ==> Precedes(line[i], line[j])
  }

  lemma {:induction false} UsableOnce(coins: seq<Coin>, reserved: seq<Key>, receipts: seq<Key>, cfg: Cfg)
    requires NoKeyTwice(coins)
    ensures NoKeyTwice(UsableCoins(coins, reserved, receipts, cfg))
  {
    if coins != [] {
      var n := |coins| - 1;
      UsableOnce(coins[..n], reserved, receipts, cfg);
      var before := UsableCoins(coins[..n], reserved, receipts, cfg);
      forall c | c in before ensures c.key != coins[n].key {
        var i :| 0 <= i < |coins[..n]| && coins[..n][i] == c;
        assert coins[i] == c;
      }
    }
  }

  lemma UsableMeans(c: Coin, receipts: seq<Coin>, reserved: seq<Key>, cfg: Cfg)
    ensures Usable(c, reserved, Keys(receipts), cfg) <==> MaySponsor(c, receipts, reserved, cfg)
  {
    KeysMean(receipts);
    hide HasKey, Keys;
  }

  lemma SponsorsLine(receipts: seq<Coin>, ordinary: seq<Coin>, reserved: seq<Key>, cfg: Cfg)
    requires NoKeyTwice(ordinary)
    ensures InLine(SortBy(UsableCoins(ordinary, reserved, Keys(receipts), cfg), Handier),
              receipts, ordinary, reserved, cfg)
  {
    hide NoKeyTwice, Handier, Precedes, SortBy, UsableCoins, WeakOrder, Usable, MaySponsor;
    forall c { UsableMeans(c, receipts, reserved, cfg); }
    var usable := UsableCoins(ordinary, reserved, Keys(receipts), cfg);
    UsableOnce(ordinary, reserved, Keys(receipts), cfg);
    HandierIsOrder();
    SortSorts(usable, Handier);
    SortKeepsKeys(usable, Handier);
    SortKeepsCoins(usable, Handier);
  }

  /** The plain sponsor's sats go to an output apart from the receipts' assets. */
  predicate SetsApart(taken: seq<Coin>, c: Coin) { !Bare(taken) && c.assets == [] }

  function Backing(): Coin -> int { (c: Coin) => if Backs(c) then c.value else 0 }

  /** Enough reserve would be left, wherever this sponsor or its change touches the reserve. */
  predicate Spares(taken: seq<Coin>, c: Coin, reserve: int, cfg: Cfg) {
    SetsApart(taken, c) || (Backs(c) && c.value > 0) ==> reserve - Backing()(c) >= cfg.minReserve
  }

  /** The fee quoted with this sponsor. */
  function Quote(taken: seq<Coin>, c: Coin, cfg: Cfg, fees: Fees): int {
    var all := taken + [c];
    if SetsApart(taken, c) then
      FeeFor(all, [cfg.dust, Sum(all, ValueOf()) - QuotedInputs(all, fees) - cfg.dust], fees)
    else FeeForOne(all, fees)
  }

  /** What is left of the coins after the quoted fee. */
  function Left(taken: seq<Coin>, c: Coin, cfg: Cfg, fees: Fees): int {
    Sum(taken + [c], ValueOf()) - Quote(taken, c, cfg, fees)
  }

  predicate Pays(taken: seq<Coin>, c: Coin, cfg: Cfg, fees: Fees) {
    var left := Left(taken, c, cfg, fees);
    left >= cfg.dust && (SetsApart(taken, c) ==> left - cfg.dust >= cfg.dust && left - cfg.dust >= cfg.minReserve)
  }

  function PaidOut(taken: seq<Coin>, c: Coin, cfg: Cfg, fees: Fees): seq<int> {
    var left := Left(taken, c, cfg, fees);
    if SetsApart(taken, c) then [cfg.dust, left - cfg.dust] else [left]
  }

  /** The quote is the fee of the outputs it leaves. */
  predicate QuoteRepeats(taken: seq<Coin>, c: Coin, cfg: Cfg, fees: Fees) {
    SetsApart(taken, c) ==> FeeFor(taken + [c], PaidOut(taken, c, cfg, fees), fees) == Quote(taken, c, cfg, fees)
  }

  /** Short of reserve or of sats. */
  predicate FallsShort(taken: seq<Coin>, c: Coin, reserve: int, cfg: Cfg, fees: Fees) {
    !Spares(taken, c, reserve, cfg) || !Pays(taken, c, cfg, fees)
  }

  function ChangeWith(taken: seq<Coin>, c: Coin, cfg: Cfg, fees: Fees): Option<int> {
    if SetsApart(taken, c) then Some(Left(taken, c, cfg, fees) - cfg.dust) else None
  }

  lemma HoldsNothing(coins: seq<Coin>)
    ensures HoldingsOf(coins) == [] <==> Bare(coins)
  {
    HoldingsMean(coins, []);
    NothingListed(coins);
    hide HoldingsOf, Lists;
  }

  lemma OfferMeans(selected: seq<Coin>, c: Coin, reserve: int, cfg: Cfg, fees: Fees, maxAmount: int)
    ensures OfferOf(selected, c, reserve, cfg, fees, maxAmount)
            == if FallsShort(selected, c, reserve, cfg, fees) then Unfit
               else if !Fit(PaidOut(selected, c, cfg, fees), maxAmount) then TooLarge
               else if !QuoteRepeats(selected, c, cfg, fees) then Changed
               else Offered(Quote(selected, c, cfg, fees), ChangeWith(selected, c, cfg, fees))
  {
    var all := selected + [c];
    HoldsNothing(selected);
    TotalIs(all);
    InputFeesAre(all, fees);
    var split := SetsApart(selected, c);
    var rest := Sum(all, ValueOf()) - QuotedInputs(all, fees) - cfg.dust;
    FeesAre(all, fees, if split then Some([cfg.dust, rest]) else None);
    var quote := Quote(selected, c, cfg, fees);
    var change := Sum(all, ValueOf()) - quote - cfg.dust;
    FeesAre(all, fees, Some([cfg.dust, change]));
    assert Fit(PaidOut(selected, c, cfg, fees), maxAmount)
      <==> if split then Within(cfg.dust, maxAmount) && Within(change, maxAmount)
           else Within(change + cfg.dust, maxAmount)
    by {
      hide Sum, FeeFor, FeeForOne, QuotedInputs, HoldingsOf, Bare, Quote;
      var paid := PaidOut(selected, c, cfg, fees);
      assert paid == if split then [cfg.dust, change] else [change + cfg.dust];
      assert paid[0] == if split then cfg.dust else change + cfg.dust;
      if split { assert paid[1] == change; }
    }
    hide Sum, FeeFor, FeeForOne, QuotedInputs, HoldingsOf, Bare, Total, InputFees, ProceedsFee, Fit;
  }

  /** The first candidate that neither falls short nor pays out too much. */
  ghost predicate FirstStanding(
    line: seq<Coin>, taken: seq<Coin>, reserve: int, cfg: Cfg, fees: Fees, maxAmount: int, i: nat)
  {
    && i < |line| && !PassedOver(line[i], taken, reserve, cfg, fees, maxAmount)
    && forall j :: 0 <= j < i ==> PassedOver(line[j], taken, reserve, cfg, fees, maxAmount)
  }

  predicate PassedOver(c: Coin, taken: seq<Coin>, reserve: int, cfg: Cfg, fees: Fees, maxAmount: int) {
    FallsShort(taken, c, reserve, cfg, fees) || !Fit(PaidOut(taken, c, cfg, fees), maxAmount)
  }

  ghost predicate NoneStands(
    line: seq<Coin>, taken: seq<Coin>, reserve: int, cfg: Cfg, fees: Fees, maxAmount: int)
  {
    forall j :: 0 <= j < |line| ==> PassedOver(line[j], taken, reserve, cfg, fees, maxAmount)
  }

  /** Some candidate only pays out too much. */
  ghost predicate SomeTooLarge(line: seq<Coin>, taken: seq<Coin>, reserve: int, cfg: Cfg, fees: Fees) {
    exists j :: 0 <= j < |line| && !FallsShort(taken, line[j], reserve, cfg, fees)
  }

  lemma {:induction false} SponsorFound(
    line: seq<Coin>, taken: seq<Coin>, reserve: int, overLimit: bool, cfg: Cfg, fees: Fees, maxAmount: int, i: nat)
    requires FirstStanding(line, taken, reserve, cfg, fees, maxAmount, i)
    ensures FindSponsor(line, taken, reserve, overLimit, cfg, fees, maxAmount)
            == if QuoteRepeats(taken, line[i], cfg, fees)
               then Ok(Sponsor(line[i], Quote(taken, line[i], cfg, fees), ChangeWith(taken, line[i], cfg, fees)))
               else Err(FeeAuthorizationChanged)
  {
    hide FallsShort, Fit, QuoteRepeats, Quote, ChangeWith, PaidOut, OfferOf;
    OfferMeans(taken, line[0], reserve, cfg, fees, maxAmount);
    if i > 0 {
      var rest := line[1..];
      var over := overLimit || !FallsShort(taken, line[0], reserve, cfg, fees);
      assert forall j :: 0 <= j < |rest| ==> rest[j] == line[j + 1];
      SponsorFound(rest, taken, reserve, over, cfg, fees, maxAmount, i - 1);
    }
  }

  lemma {:induction false} NoSponsorFound(
    line: seq<Coin>, taken: seq<Coin>, reserve: int, overLimit: bool, cfg: Cfg, fees: Fees, maxAmount: int)
    requires NoneStands(line, taken, reserve, cfg, fees, maxAmount)
    ensures FindSponsor(line, taken, reserve, overLimit, cfg, fees, maxAmount)
            == Err(if overLimit || SomeTooLarge(line, taken, reserve, cfg, fees) then OutputLimitExceeded
                   else ReserveUnavailable)
  {
    if line != [] {
      hide FallsShort, Fit, QuoteRepeats, Quote, ChangeWith, PaidOut, OfferOf;
      var rest := line[1..];
      OfferMeans(taken, line[0], reserve, cfg, fees, maxAmount);
      var over := overLimit || !FallsShort(taken, line[0], reserve, cfg, fees);
      assert forall j :: 0 <= j < |rest| ==> rest[j] == line[j + 1];
      NoSponsorFound(rest, taken, reserve, over, cfg, fees, maxAmount);
      if j :| 0 <= j < |line| && !FallsShort(taken, line[j], reserve, cfg, fees) {
        if j > 0 { assert rest[j - 1] == line[j]; }
      }
    }
  }

  /** The search takes the first candidate that stands, and fails only when none does or its quote moves. */
  lemma SponsorSearch(line: seq<Coin>, taken: seq<Coin>, reserve: int, cfg: Cfg, fees: Fees, maxAmount: int)
    ensures var found := FindSponsor(line, taken, reserve, false, cfg, fees, maxAmount);
            && (forall i: nat :: FirstStanding(line, taken, reserve, cfg, fees, maxAmount, i) ==>
                  found == if QuoteRepeats(taken, line[i], cfg, fees)
                           then Ok(Sponsor(line[i], Quote(taken, line[i], cfg, fees),
                                           ChangeWith(taken, line[i], cfg, fees)))
                           else Err(FeeAuthorizationChanged))
            && (NoneStands(line, taken, reserve, cfg, fees, maxAmount) ==>
                  found == Err(if SomeTooLarge(line, taken, reserve, cfg, fees) then OutputLimitExceeded
                               else ReserveUnavailable))
  {
    hide FindSponsor, NoneStands, SomeTooLarge, QuoteRepeats, Quote, ChangeWith, PassedOver;
    forall i: nat | FirstStanding(line, taken, reserve, cfg, fees, maxAmount, i) {
      SponsorFound(line, taken, reserve, false, cfg, fees, maxAmount, i);
    }
    if NoneStands(line, taken, reserve, cfg, fees, maxAmount) {
      NoSponsorFound(line, taken, reserve, false, cfg, fees, maxAmount);
    }
  }

  // -------------------------------------------------------------- a collection

  predicate OneOutputFits(coins: seq<Coin>, fees: Fees, maxAmount: int) {
    Fit([Sum(coins, ValueOf()) - FeeForOne(coins, fees)], maxAmount)
  }

  /** The next receipt is kept exactly when one output still fits everything kept so far and it. */
  predicate TakesNext(before: seq<Coin>, next: Coin, taken: seq<Coin>, fees: Fees, maxAmount: int) {
    taken == if OneOutputFits(before + [next], fees, maxAmount) then before + [next] else before
  }

  /** Receipt by receipt, in order. */
  ghost predicate TakenInTurn(receipts: seq<Coin>, taken: seq<Coin>, fees: Fees, maxAmount: int) {
    if receipts == [] then taken == []
    else
      var n := |receipts| - 1;
      exists before ::
        TakenInTurn(receipts[..n], before, fees, maxAmount) && TakesNext(before, receipts[n], taken, fees, maxAmount)
  }

  lemma OneFitMeans(coins: seq<Coin>, fees: Fees, maxAmount: int)
    ensures Within(Total(coins) - ProceedsFee(coins, fees, None), maxAmount) <==> OneOutputFits(coins, fees, maxAmount)
  {
    TotalIs(coins);
    FeesAre(coins, fees, None);
    var left := Sum(coins, ValueOf()) - FeeForOne(coins, fees);
    assert [left][0] == left;
    hide Total, Sum, ProceedsFee, FeeForOne;
  }

  lemma GreedyNext(receipts: seq<Coin>, taken: seq<Coin>, fees: Fees, maxAmount: int)
    requires receipts != []
    ensures var n := |receipts| - 1;
            taken == Greedy(receipts, fees, maxAmount)
            <==> TakesNext(Greedy(receipts[..n], fees, maxAmount), receipts[n], taken, fees, maxAmount)
  {
    hide OneOutputFits, Within, Total, ProceedsFee;
    var n := |receipts| - 1;
    OneFitMeans(Greedy(receipts[..n], fees, maxAmount) + [receipts[n]], fees, maxAmount);
  }

  lemma {:induction false} GreedyTakes(receipts: seq<Coin>, taken: seq<Coin>, fees: Fees, maxAmount: int)
    ensures taken == Greedy(receipts, fees, maxAmount) <==> TakenInTurn(receipts, taken, fees, maxAmount)
  {
    if receipts == [] {
      assert Greedy(receipts, fees, maxAmount) == [];
    } else {
      hide Greedy, TakesNext;
      var n := |receipts| - 1;
      var before := Greedy(receipts[..n], fees, maxAmount);
      GreedyNext(receipts, taken, fees, maxAmount);
      GreedyTakes(receipts[..n], before, fees, maxAmount);
      forall other | TakenInTurn(receipts[..n], other, fees, maxAmount) ensures other == before {
        GreedyTakes(receipts[..n], other, fees, maxAmount);
      }
    }
  }

  /** The receipts' own output is worth at least a dust unit. */
  predicate PaysForItself(taken: seq<Coin>, cfg: Cfg, fees: Fees) {
    Sum(taken, ValueOf()) - FeeForOne(taken, fees) >= cfg.dust
  }

  /** The plan spends these coins at this fee: every field of it. */
  ghost predicate CollectsInto(
    plan: Plan, coins: seq<Coin>, taken: seq<Coin>, fee: int, change: Option<int>, cfg: Cfg)
  {
    && !plan.split && plan.outputs == None && plan.address == cfg.address
    && SpendsInOrder(plan, coins) && AllRecorded(plan.coins, coins) && Lists(plan.assets, coins)
    && |plan.receipts| == |taken| && (forall i :: 0 <= i < |taken| ==> plan.receipts[i] == taken[i].key)
    && plan.amount == Sum(coins, ValueOf()) - fee && plan.plainChange == change
    && plan.fee == fee && plan.maxFee == cfg.maxFee
  }

  /** The plan for these coins, or what stops it. */
  ghost predicate EndsIn(
    r: Result<Plan, Error>, coins: seq<Coin>, taken: seq<Coin>, fee: int, change: Option<int>, cfg: Cfg)
  {
    if fee > cfg.maxFee then r == Err(FeeCapExceeded)
    else if !Positive(coins) then r == Err(AssetInvalid)
    else r.Ok? && CollectsInto(r.value, coins, taken, fee, change, cfg)
  }

  lemma FinishedMeans(coins: seq<Coin>, taken: seq<Coin>, fee: int, change: Option<int>, cfg: Cfg)
    ensures EndsIn(Finished(coins, Keys(taken), fee, change, cfg), coins, taken, fee, change, cfg)
  {
    PositiveMeans(coins);
    HoldingsMean(coins, HoldingsOf(coins));
    RecordedMeans(AllFacts(coins), coins);
    TotalIs(coins);
    hide HoldingsOf, AllFacts, Lists, AllRecorded, Total, Sum, PositiveAssets, Positive;
  }

  /** The call itself is in order. */
  predicate Admissible(
    receipts: seq<Coin>, ordinary: seq<Coin>, reserved: seq<Key>, cfg: Cfg, address: string, maxAmount: int)
  {
    && address == cfg.address && receipts != [] && AllOurs(receipts, cfg)
    && NoKeyTwice(ordinary) && NoKeyTwice(receipts)
    && (forall i :: 0 <= i < |receipts| ==> receipts[i].key !in reserved)
    && (maxAmount >= 0 ==> cfg.dust <= maxAmount)
  }

  lemma AdmissibleMeans(
    receipts: seq<Coin>, ordinary: seq<Coin>, reserved: seq<Key>, cfg: Cfg, fees: Fees, address: string, maxAmount: int)
    ensures Admissible(receipts, ordinary, reserved, cfg, address, maxAmount)
            <==> address == cfg.address && receipts != [] && AllOwned(receipts, cfg) && Distinct(Keys(ordinary))
                 && Distinct(Keys(receipts)) && !AnyReserved(receipts, reserved) && Within(cfg.dust, maxAmount)
  {
    OursMeans(receipts, cfg);
    KeysMean(receipts);
    KeysMean(ordinary);
    hide Distinct, Keys, NoKeyTwice, AllOurs, AllOwned;
  }

  /** A call that is not in order is refused, and says what is wrong with it. */
  lemma RefusesTheCall(
    receipts: seq<Coin>, ordinary: seq<Coin>, reserved: seq<Key>, cfg: Cfg, fees: Fees, address: string, maxAmount: int)
    requires !Admissible(receipts, ordinary, reserved, cfg, address, maxAmount)
    ensures Collection(receipts, ordinary, reserved, cfg, fees, address, maxAmount)
            == Err(if address != cfg.address || receipts == [] || !AllOurs(receipts, cfg) then OwnershipInvalid
                   else if !NoKeyTwice(ordinary) then DuplicateInventory
                   else if !NoKeyTwice(receipts) || exists i :: 0 <= i < |receipts| && receipts[i].key in reserved then
                     InputReserved
                   else OutputLimitExceeded)
  {
    OursMeans(receipts, cfg);
    KeysMean(receipts);
    KeysMean(ordinary);
    hide Distinct, Keys, NoKeyTwice, AllOurs, AllOwned, Selection, Finished, Greedy;
  }

  /** The reserve behind a line of sponsors. */
  function ReserveBehind(line: seq<Coin>): int { Sum(line, Backing()) }

  lemma {:induction false} ReserveIs(coins: seq<Coin>)
    ensures Reserve(coins) == ReserveBehind(coins)
  {
    if coins != [] {
      var n := |coins| - 1;
      ReserveIs(coins[..n]);
      SumSnoc(coins[..n], coins[n], Backing());
      assert coins[..n] + [coins[n]] == coins;
    }
  }

  /**
   * What `planProceeds` returns for a call in order. The receipts taken are exactly those that fit one
   * output in turn. Where they pay for themselves, the plan spends them alone. Otherwise it spends them with the
   * first coin in line that stands, so a sponsor is found whenever one stands and its quote repeats, and
   * the reserve is called unavailable only when every coin in line falls short.
   */
  lemma CollectionSays(
    receipts: seq<Coin>, ordinary: seq<Coin>, reserved: seq<Key>, cfg: Cfg, fees: Fees, address: string, maxAmount: int)
    returns (taken: seq<Coin>, line: seq<Coin>)
    requires Admissible(receipts, ordinary, reserved, cfg, address, maxAmount)
    ensures TakenInTurn(receipts, taken, fees, maxAmount) && InLine(line, receipts, ordinary, reserved, cfg)
    ensures var r := Collection(receipts, ordinary, reserved, cfg, fees, address, maxAmount);
            var reserve := ReserveBehind(line);
            && (taken == [] ==> r == Err(OutputLimitExceeded))
            && (taken != [] && PaysForItself(taken, cfg, fees) ==>
                  EndsIn(r, taken, taken, FeeForOne(taken, fees), None, cfg))
            && (taken != [] && !PaysForItself(taken, cfg, fees) && line != [] && !Positive(taken) ==>
                  r == Err(AssetInvalid))
            && (taken != [] && !PaysForItself(taken, cfg, fees) && (line == [] || Positive(taken)) ==>
                  && (NoneStands(line, taken, reserve, cfg, fees, maxAmount) ==>
                        r == Err(if SomeTooLarge(line, taken, reserve, cfg, fees) then OutputLimitExceeded
                                 else ReserveUnavailable))
                  && (forall i: nat :: FirstStanding(line, taken, reserve, cfg, fees, maxAmount, i) ==>
                        SponsoredResult(r, taken, line[i], cfg, fees)))
  {
    hide Collection, Greedy, SortBy, UsableCoins, TakenInTurn, InLine, FeeForOne, FindSponsor, FirstStanding,
      NoneStands, SomeTooLarge, QuoteRepeats, Quote, ChangeWith, EndsIn, Finished, Positive, Keys, ReserveBehind,
      PaysForItself, AllOurs;
    taken := Greedy(receipts, fees, maxAmount);
    GreedyTakes(receipts, taken, fees, maxAmount);
    line := SortBy(UsableCoins(ordinary, reserved, Keys(receipts), cfg), Handier);
    SponsorsLine(receipts, ordinary, reserved, cfg);
    SelectionIs(receipts, ordinary, reserved, cfg, fees, address, maxAmount, taken, line);
    FinishedMeans(taken, taken, FeeForOne(taken, fees), None, cfg);
    SponsorSearch(line, taken, ReserveBehind(line), cfg, fees, maxAmount);
    var r := Collection(receipts, ordinary, reserved, cfg, fees, address, maxAmount);
    forall i: nat | FirstStanding(line, taken, ReserveBehind(line), cfg, fees, maxAmount, i) ensures i < |line| {
      StandingIsInLine(line, taken, ReserveBehind(line), cfg, fees, maxAmount, i);
    }
    forall i: nat | i < |line| && FirstStanding(line, taken, ReserveBehind(line), cfg, fees, maxAmount, i)
      && taken != [] && !PaysForItself(taken, cfg, fees) && (line == [] || Positive(taken))
      ensures SponsoredResult(r, taken, line[i], cfg, fees)
    {
      var c := line[i];
      FinishedMeans(taken + [c], taken, Quote(taken, c, cfg, fees), ChangeWith(taken, c, cfg, fees), cfg);
    }
  }

  function Sponsored(found: Result<Sponsor, Error>, taken: seq<Coin>, cfg: Cfg): Result<Plan, Error> {
    match found
    case Ok(s) => Finished(taken + [s.coin], Keys(taken), s.fee, s.plainChange, cfg)
    case Err(error) => Err(error)
  }

  lemma SelectionIs(
    receipts: seq<Coin>, ordinary: seq<Coin>, reserved: seq<Key>, cfg: Cfg, fees: Fees, address: string, maxAmount: int,
    taken: seq<Coin>, line: seq<Coin>)
    requires Admissible(receipts, ordinary, reserved, cfg, address, maxAmount)
    requires taken == Greedy(receipts, fees, maxAmount)
    requires line == SortBy(UsableCoins(ordinary, reserved, Keys(receipts), cfg), Handier)
    ensures Collection(receipts, ordinary, reserved, cfg, fees, address, maxAmount)
            == if taken == [] then Err(OutputLimitExceeded)
               else if PaysForItself(taken, cfg, fees) then
                 Finished(taken, Keys(taken), FeeForOne(taken, fees), None, cfg)
               else if line != [] && !Positive(taken) then Err(AssetInvalid)
               else Sponsored(FindSponsor(line, taken, ReserveBehind(line), false, cfg, fees, maxAmount), taken, cfg)
  {
    hide Greedy, SortBy, UsableCoins, Admissible, Total, Sum, ProceedsFee, FeeForOne, FindSponsor, Finished,
      PositiveAssets, Positive, Keys, ReserveBehind, Reserve, AllOwned, AnyReserved, Distinct;
    AdmissibleMeans(receipts, ordinary, reserved, cfg, fees, address, maxAmount);
    TotalIs(taken);
    FeesAre(taken, fees, None);
    ReserveIs(line);
    PositiveMeans(taken);
  }

  lemma StandingIsInLine(
    line: seq<Coin>, taken: seq<Coin>, reserve: int, cfg: Cfg, fees: Fees, maxAmount: int, i: nat)
    requires FirstStanding(line, taken, reserve, cfg, fees, maxAmount, i)
    ensures i < |line|
  {
  }

  /** The plan with this sponsor, unless its quote moves. */
  ghost predicate SponsoredResult(r: Result<Plan, Error>, taken: seq<Coin>, c: Coin, cfg: Cfg, fees: Fees) {
    if !QuoteRepeats(taken, c, cfg, fees) then r == Err(FeeAuthorizationChanged)
    else EndsIn(r, taken + [c], taken, Quote(taken, c, cfg, fees), ChangeWith(taken, c, cfg, fees), cfg)
  }

  // ------------------------------------------------------------------ splits

  /** May be split: the operator's, not locked, well formed, and backing the reserve. */
  predicate MaySplit(c: Coin, reserved: seq<Key>, cfg: Cfg) {
    Ours(c, cfg) && c.key !in reserved && c.wellFormed && Backs(c)
  }

  /** Every coin that may be split, once, the richest first. */
  ghost predicate Richest(line: seq<Coin>, coins: seq<Coin>, reserved: seq<Key>, cfg: Cfg) {
    && (forall c :: c in line <==> c in coins && MaySplit(c, reserved, cfg)) && NoKeyTwice(line)
    && forall i, j :: 0 <= i < j < |line| ==> Exceeds(line[i], line[j])
  }

  lemma {:induction false} SplittableOnce(coins: seq<Coin>, reserved: seq<Key>, cfg: Cfg)
    requires NoKeyTwice(coins)
    ensures NoKeyTwice(SplittableCoins(coins, reserved, cfg))
  {
    if coins != [] {
      var n := |coins| - 1;
      SplittableOnce(coins[..n], reserved, cfg);
      var before := SplittableCoins(coins[..n], reserved, cfg);
      forall c | c in before ensures c.key != coins[n].key {
        var i :| 0 <= i < |coins[..n]| && coins[..n][i] == c;
        assert coins[i] == c;
      }
    }
  }

  lemma SplittableMeans(c: Coin, reserved: seq<Key>, cfg: Cfg)
    ensures Splittable(c, reserved, cfg) <==> MaySplit(c, reserved, cfg)
  {
  }

  lemma SplittersLine(coins: seq<Coin>, reserved: seq<Key>, cfg: Cfg)
    requires NoKeyTwice(coins)
    ensures Richest(SortBy(SplittableCoins(coins, reserved, cfg), Richer), coins, reserved, cfg)
  {
    hide NoKeyTwice, Richer, Exceeds, SortBy, SplittableCoins, WeakOrder, Splittable, MaySplit;
    var able := SplittableCoins(coins, reserved, cfg);
    forall c { SplittableMeans(c, reserved, cfg); }
    SplittableOnce(coins, reserved, cfg);
    RicherIsOrder();
    SortSorts(able, Richer);
    SortKeepsKeys(able, Richer);
    SortKeepsCoins(able, Richer);
  }

  /** One for a coin worth at least two dust. */
  function Works(cfg: Cfg): Coin -> int { (c: Coin) => if c.value >= 2 * cfg.dust then 1 else 0 }

  lemma {:induction false} WorkingIs(coins: seq<Coin>, cfg: Cfg)
    ensures Working(coins, cfg.dust) == Sum(coins, Works(cfg))
  {
    if coins != [] {
      var n := |coins| - 1;
      WorkingIs(coins[..n], cfg);
      SumSnoc(coins[..n], coins[n], Works(cfg));
      assert coins[..n] + [coins[n]] == coins;
    }
  }

  lemma {:induction false} SumConcat(a: seq<Coin>, b: seq<Coin>, f: Coin -> int)
    ensures Sum(a + b, f) == Sum(a, f) + Sum(b, f)
  {
    if a == [] {
      assert a + b == b;
    } else {
      assert (a + b)[1..] == a[1..] + b;
      SumConcat(a[1..], b, f);
    }
  }

  lemma {:induction false} InsertSums(c: Coin, sorted: seq<Coin>, before: (Coin, Coin) -> bool, f: Coin -> int)
    ensures Sum(InsertBy(c, sorted, before), f) == Sum(sorted, f) + f(c)
  {
    if sorted == [] || before(c, sorted[0]) {
      assert ([c] + sorted)[1..] == sorted;
    } else {
      InsertSums(c, sorted[1..], before, f);
      var rest := InsertBy(c, sorted[1..], before);
      assert ([sorted[0]] + rest)[1..] == rest;
    }
  }

  /** Sorting keeps every sum over the coins. */
  lemma {:induction false} SortSums(coins: seq<Coin>, before: (Coin, Coin) -> bool, f: Coin -> int)
    ensures Sum(SortBy(coins, before), f) == Sum(coins, f)
  {
    if coins != [] {
      var n := |coins| - 1;
      SortSums(coins[..n], before, f);
      InsertSums(coins[n], SortBy(coins[..n], before), before, f);
      SumSnoc(coins[..n], coins[n], f);
      assert coins[..n] + [coins[n]] == coins;
    }
  }

  /** The first output keeps the reserve with a dust beside it, and is worth two dust. */
  predicate KeepsReserve(first: int, cfg: Cfg) { first >= cfg.minReserve + cfg.dust && first >= 2 * cfg.dust }

  /**
   * `count` outputs of `amount` in all: one that keeps the reserve, and equal ones of at least two dust,
   * as large as the reserve lets them be.
   */
  predicate CutsInto(outputs: seq<int>, amount: int, count: int, cfg: Cfg) {
    && |outputs| == count >= 2 && Sum(outputs, Itself()) == amount
    && outputs[1] >= 2 * cfg.dust && (forall i :: 2 <= i < |outputs| ==> outputs[i] == outputs[1])
    && KeepsReserve(outputs[0], cfg) && !KeepsReserve(outputs[0] - (count - 1), cfg)
  }

  lemma QuotientsAgree(q: int, r: int, p: int, s: int, b: int)
    requires 0 <= r < b && 0 <= s < b && q * b + r == p * b + s
    ensures q == p
  {
    assert b * (p - q) == p * b - q * b && b * (q - p) == q * b - p * b;
    if q < p { TimesAtLeast(b, p - q); }
    if p < q { TimesAtLeast(b, q - p); }
  }

  lemma QuotientIs(a: int, b: int, q: int)
    requires b > 0 && a >= 0
    ensures a / b == q <==> q * b <= a && a < q * b + b
  {
    assert a == (a / b) * b + a % b;
    if q * b <= a && a < q * b + b { QuotientsAgree(a / b, a % b, q, a - q * b, b); }
  }

  lemma ChunkIs(amount: int, count: int, cfg: Cfg, chunk: int)
    requires count >= 2 && cfg.dust > 0 && chunk >= 2 * cfg.dust
    ensures Chunk(amount, count, cfg) == chunk
            <==> KeepsReserve(amount - chunk * (count - 1), cfg)
                 && !KeepsReserve(amount - chunk * (count - 1) - (count - 1), cfg)
  {
    var a, b := amount - SplitReserve(cfg), count - 1;
    TimesAtLeast(chunk, b);
    if a >= 0 {
      QuotientIs(a, b, chunk);
    } else {
      NaturalQuotient(-a, b);
    }
  }

  lemma CutMeans(outputs: seq<int>, amount: int, count: int, cfg: Cfg)
    requires count >= 2 && cfg.dust > 0
    ensures CutsInto(outputs, amount, count, cfg)
            <==> Chunk(amount, count, cfg) >= 2 * cfg.dust && outputs == SplitOutputs(amount, count, cfg)
  {
    if CutsInto(outputs, amount, count, cfg) {
      var chunk := outputs[1];
      SumOfIs(outputs);
      SumOfEqual(outputs, chunk);
      hide Sum, SumOf;
      ChunkIs(amount, count, cfg, chunk);
    }
    if Chunk(amount, count, cfg) >= 2 * cfg.dust && outputs == SplitOutputs(amount, count, cfg) {
      SplitAmounts(amount, count, cfg);
      SumOfIs(outputs);
      hide Sum, SumOf, SplitOutputs;
      ChunkIs(amount, count, cfg, outputs[1]);
    }
  }

  /** At this fee the coin can be cut into `count` outputs that fit, at an authorised estimate. */
  ghost predicate Estimates(
    coin: Coin, count: int, fee: int, estimate: int, cfg: Cfg, fees: Fees, maxAmount: int)
  {
    exists outputs ::
      && CutsInto(outputs, coin.value - fee, count, cfg) && Fit(outputs, maxAmount)
      && estimate == FeeFor([coin], outputs, fees) && estimate <= cfg.maxFee
  }

  /** Fee after fee, each estimated from the one before, until the estimate repeats, in at most `attempts`. */
  ghost predicate SettlesFrom(
    coin: Coin, count: int, start: int, fee: int, attempts: nat, cfg: Cfg, fees: Fees, maxAmount: int)
    decreases attempts
  {
    && attempts > 0
    && ((start == fee && Estimates(coin, count, fee, fee, cfg, fees, maxAmount))
        || exists next :: next != start && Estimates(coin, count, start, next, cfg, fees, maxAmount)
                          && SettlesFrom(coin, count, next, fee, attempts - 1, cfg, fees, maxAmount))
  }

  lemma EstimateMeans(coin: Coin, count: int, fee: int, estimate: int, cfg: Cfg, fees: Fees, maxAmount: int)
    requires count >= 2 && cfg.dust > 0
    ensures Estimates(coin, count, fee, estimate, cfg, fees, maxAmount)
            <==> var outputs := SplitOutputs(coin.value - fee, count, cfg);
                 && Chunk(coin.value - fee, count, cfg) >= 2 * cfg.dust && AllWithin(outputs, maxAmount)
                 && estimate == ProceedsFee([coin], fees, Some(outputs)) && estimate <= cfg.maxFee
  {
    var amount := coin.value - fee;
    var outputs := SplitOutputs(amount, count, cfg);
    FeesAre([coin], fees, Some(outputs));
    CutMeans(outputs, amount, count, cfg);
    assert AllWithin(outputs, maxAmount) <==> Fit(outputs, maxAmount);
    hide SplitOutputs, Chunk, CutsInto, FeeFor, ProceedsFee, AllWithin, Fit;
    forall other | CutsInto(other, amount, count, cfg) ensures other == outputs { CutMeans(other, amount, count, cfg); }
  }

  lemma OnlyEstimate(coin: Coin, count: int, fee: int, cfg: Cfg, fees: Fees, maxAmount: int)
    requires count >= 2 && cfg.dust > 0
    ensures var outputs := SplitOutputs(coin.value - fee, count, cfg);
            var estimate := ProceedsFee([coin], fees, Some(outputs));
            forall next :: Estimates(coin, count, fee, next, cfg, fees, maxAmount)
                           <==> next == estimate && estimate <= cfg.maxFee && AllWithin(outputs, maxAmount)
                                && Chunk(coin.value - fee, count, cfg) >= 2 * cfg.dust
  {
    forall next { EstimateMeans(coin, count, fee, next, cfg, fees, maxAmount); }
    hide SplitOutputs, Chunk, ProceedsFee, AllWithin, Estimates;
  }

  /** The fee of a split settles exactly as described. */
  lemma {:induction false} SettledExactlyWhen(
    coin: Coin, count: int, start: int, fee: int, attempts: nat, cfg: Cfg, fees: Fees, maxAmount: int)
    requires count >= 2 && cfg.dust > 0
    ensures SettledFee(coin, count, start, attempts, cfg, fees, maxAmount) == Some(fee)
            <==> SettlesFrom(coin, count, start, fee, attempts, cfg, fees, maxAmount)
    decreases attempts
  {
    hide SplitOutputs, Chunk, ProceedsFee, AllWithin, Estimates;
    if attempts > 0 {
      OnlyEstimate(coin, count, start, cfg, fees, maxAmount);
      var estimate := ProceedsFee([coin], fees, Some(SplitOutputs(coin.value - start, count, cfg)));
      SettledExactlyWhen(coin, count, estimate, fee, attempts - 1, cfg, fees, maxAmount);
      if SettledFee(coin, count, start, attempts, cfg, fees, maxAmount) == Some(fee) {
        assert Estimates(coin, count, start, estimate, cfg, fees, maxAmount);
      }
      if SettlesFrom(coin, count, start, fee, attempts, cfg, fees, maxAmount) {
        if !(start == fee && Estimates(coin, count, start, fee, cfg, fees, maxAmount)) {
          var next :| next != start && Estimates(coin, count, start, next, cfg, fees, maxAmount)
            && SettlesFrom(coin, count, next, fee, attempts - 1, cfg, fees, maxAmount);
          assert next == estimate;
        }
      }
    }
  }

  ghost predicate Settles(coin: Coin, count: int, fee: int, cfg: Cfg, fees: Fees, maxAmount: int) {
    SettlesFrom(coin, count, 0, fee, 8, cfg, fees, maxAmount)
  }

  ghost predicate CanSplit(coin: Coin, count: int, cfg: Cfg, fees: Fees, maxAmount: int) {
    exists fee :: Settles(coin, count, fee, cfg, fees, maxAmount)
  }

  /** Every field of the plan that splits this coin. */
  ghost predicate SplitsInto(plan: Plan, coin: Coin, count: int, fee: int, cfg: Cfg) {
    && plan.split && plan.inputs == [coin.key] && AllRecorded(plan.coins, [coin]) && plan.receipts == []
    && plan.address == cfg.address && plan.amount == coin.value - fee && plan.plainChange == None
    && plan.fee == fee && plan.maxFee == cfg.maxFee && plan.assets == []
    && plan.outputs.Some? && CutsInto(plan.outputs.value, coin.value - fee, count, cfg)
  }

  lemma RecordedOne(facts: seq<Facts>, c: Coin)
    ensures facts == [FactsOf(c)] <==> AllRecorded(facts, [c])
  {
    RecordedMeans(facts, [c]);
    assert AllFacts([c]) == [FactsOf(c)];
    hide AllRecorded, FactsOf;
  }

  lemma SplitPlanMeans(plan: Plan, coin: Coin, count: int, fee: int, cfg: Cfg)
    requires count >= 2 && cfg.dust > 0 && Chunk(coin.value - fee, count, cfg) >= 2 * cfg.dust
    ensures plan == SplitPlan(coin, count, fee, cfg) <==> SplitsInto(plan, coin, count, fee, cfg)
  {
    RecordedOne(plan.coins, coin);
    CutMeans(SplitOutputs(coin.value - fee, count, cfg), coin.value - fee, count, cfg);
    if plan.outputs.Some? { CutMeans(plan.outputs.value, coin.value - fee, count, cfg); }
    hide SplitOutputs, Chunk, CutsInto, AllRecorded, FactsOf;
  }

  lemma {:induction false} Settled(
    coin: Coin, count: int, start: int, fee: int, attempts: nat, cfg: Cfg, fees: Fees, maxAmount: int)
    requires count >= 2 && SettledFee(coin, count, start, attempts, cfg, fees, maxAmount) == Some(fee)
    ensures Chunk(coin.value - fee, count, cfg) >= 2 * cfg.dust
    decreases attempts
  {
    hide Chunk, SplitOutputs, ProceedsFee, AllWithin;
    var estimate := ProceedsFee([coin], fees, Some(SplitOutputs(coin.value - start, count, cfg)));
    if estimate != start { Settled(coin, count, estimate, fee, attempts - 1, cfg, fees, maxAmount); }
  }

  /** The plan splits the coin at the largest count up to `most` that settles. */
  ghost predicate LargestSplit(plan: Plan, coin: Coin, most: int, cfg: Cfg, fees: Fees, maxAmount: int) {
    exists count, fee :: LargestAt(plan, coin, most, count, fee, cfg, fees, maxAmount)
  }

  ghost predicate LargestAt(
    plan: Plan, coin: Coin, most: int, count: int, fee: int, cfg: Cfg, fees: Fees, maxAmount: int)
  {
    && 2 <= count <= most && Settles(coin, count, fee, cfg, fees, maxAmount) && SplitsInto(plan, coin, count, fee, cfg)
    && forall more :: count < more <= most ==> !CanSplit(coin, more, cfg, fees, maxAmount)
  }

  ghost predicate NeverSplits(coin: Coin, most: int, cfg: Cfg, fees: Fees, maxAmount: int) {
    forall count :: 2 <= count <= most ==> !CanSplit(coin, count, cfg, fees, maxAmount)
  }

  lemma SettlingMeans(coin: Coin, count: int, cfg: Cfg, fees: Fees, maxAmount: int)
    requires count >= 2 && cfg.dust > 0
    ensures var settled := SettledFee(coin, count, 0, ATTEMPTS, cfg, fees, maxAmount);
            && (settled.Some? <==> CanSplit(coin, count, cfg, fees, maxAmount))
            && forall fee :: Settles(coin, count, fee, cfg, fees, maxAmount) <==> settled == Some(fee)
  {
    hide SettledFee, SettlesFrom;
    forall fee ensures Settles(coin, count, fee, cfg, fees, maxAmount)
                       <==> SettledFee(coin, count, 0, ATTEMPTS, cfg, fees, maxAmount) == Some(fee)
    {
      SettledExactlyWhen(coin, count, 0, fee, ATTEMPTS, cfg, fees, maxAmount);
    }
    var settled := SettledFee(coin, count, 0, ATTEMPTS, cfg, fees, maxAmount);
    if settled.Some? { assert Settles(coin, count, settled.value, cfg, fees, maxAmount); }
  }

  lemma NoSplitAt(plan: Plan, coin: Coin, most: int, less: int, cfg: Cfg, fees: Fees, maxAmount: int)
    requires !CanSplit(coin, most, cfg, fees, maxAmount) && less == most - 1
    ensures LargestSplit(plan, coin, most, cfg, fees, maxAmount)
            <==> LargestSplit(plan, coin, less, cfg, fees, maxAmount)
  {
    hide Settles, SplitsInto;
    if count, fee :| LargestAt(plan, coin, most, count, fee, cfg, fees, maxAmount) {
      assert LargestAt(plan, coin, less, count, fee, cfg, fees, maxAmount);
    }
    if count, fee :| LargestAt(plan, coin, less, count, fee, cfg, fees, maxAmount) {
      assert LargestAt(plan, coin, most, count, fee, cfg, fees, maxAmount);
    }
  }

  lemma {:induction false} LargestIs(plan: Plan, coin: Coin, most: int, cfg: Cfg, fees: Fees, maxAmount: int)
    requires cfg.dust > 0
    ensures FirstCount(coin, most, cfg, fees, maxAmount) == Some(plan)
            <==> LargestSplit(plan, coin, most, cfg, fees, maxAmount)
    ensures FirstCount(coin, most, cfg, fees, maxAmount) == None <==> NeverSplits(coin, most, cfg, fees, maxAmount)
    decreases most
  {
    hide SettledFee, Settles, SplitsInto, CanSplit, SplitPlan, Chunk;
    if most >= 2 {
      SettlingMeans(coin, most, cfg, fees, maxAmount);
      LargestIs(plan, coin, most - 1, cfg, fees, maxAmount);
      var settled := SettledFee(coin, most, 0, ATTEMPTS, cfg, fees, maxAmount);
      if settled.Some? {
        Settled(coin, most, 0, settled.value, ATTEMPTS, cfg, fees, maxAmount);
        SplitPlanMeans(plan, coin, most, settled.value, cfg);
        if SplitsInto(plan, coin, most, settled.value, cfg) {
          assert LargestAt(plan, coin, most, most, settled.value, cfg, fees, maxAmount);
        }
        forall count, fee | LargestAt(plan, coin, most, count, fee, cfg, fees, maxAmount)
          ensures count == most && fee == settled.value {}
      } else {
        NoSplitAt(plan, coin, most, most - 1, cfg, fees, maxAmount);
      }
    }
  }

  /** The first coin in line that splits at all, at its largest count. */
  ghost predicate SplitChosen(
    plan: Plan, line: seq<Coin>, most: int, cfg: Cfg, fees: Fees, maxAmount: int, i: nat)
  {
    && i < |line| && LargestSplit(plan, line[i], most, cfg, fees, maxAmount)
    && forall j :: 0 <= j < i ==> NeverSplits(line[j], most, cfg, fees, maxAmount)
  }

  lemma {:induction false} FirstSplitIs(
    plan: Plan, line: seq<Coin>, most: int, cfg: Cfg, fees: Fees, maxAmount: int)
    requires cfg.dust > 0
    ensures FirstSplit(line, most, cfg, fees, maxAmount) == Some(plan)
            <==> exists i: nat :: SplitChosen(plan, line, most, cfg, fees, maxAmount, i)
    ensures FirstSplit(line, most, cfg, fees, maxAmount) == None
            <==> forall i :: 0 <= i < |line| ==> NeverSplits(line[i], most, cfg, fees, maxAmount)
  {
    hide FirstCount, LargestSplit, NeverSplits;
    if line != [] {
      var rest := line[1..];
      LargestIs(plan, line[0], most, cfg, fees, maxAmount);
      FirstSplitIs(plan, rest, most, cfg, fees, maxAmount);
      assert forall j :: 0 <= j < |rest| ==> rest[j] == line[j + 1];
      if NeverSplits(line[0], most, cfg, fees, maxAmount) {
        forall i: nat | SplitChosen(plan, rest, most, cfg, fees, maxAmount, i)
          ensures SplitChosen(plan, line, most, cfg, fees, maxAmount, i + 1) {}
        forall i: nat | SplitChosen(plan, line, most, cfg, fees, maxAmount, i)
          ensures i > 0 && SplitChosen(plan, rest, most, cfg, fees, maxAmount, i - 1) {}
      } else {
        if LargestSplit(plan, line[0], most, cfg, fees, maxAmount) {
          assert SplitChosen(plan, line, most, cfg, fees, maxAmount, 0);
        }
        forall i: nat | SplitChosen(plan, line, most, cfg, fees, maxAmount, i) ensures i == 0 {}
      }
    }
  }

  /**
   * Which split `planInventorySplit` returns: of the coins that may be split, the richest that settles at
   * any count, cut into the largest count that settles and leaves at most eight working coins; and no
   * plan exactly when eight coins work already or nothing settles.
   */
  lemma SplitSays(
    coins: seq<Coin>, reserved: seq<Key>, cfg: Cfg, fees: Fees, address: string, maxAmount: int, plan: Plan)
    returns (line: seq<Coin>)
    requires cfg.dust > 0 && address == cfg.address && NoKeyTwice(coins)
    ensures Richest(line, coins, reserved, cfg)
    ensures var r := InventorySplit(coins, reserved, cfg, fees, address, maxAmount);
            var working := Sum(line, Works(cfg));
            var most := if working == 0 then 8 else 9 - working;
            && (r == Ok(Some(plan))
                <==> working < 8 && exists i: nat :: SplitChosen(plan, line, most, cfg, fees, maxAmount, i))
            && (r == Ok(None)
                <==> working >= 8
                     || forall i :: 0 <= i < |line| ==> NeverSplits(line[i], most, cfg, fees, maxAmount))
  {
    var able := SplittableCoins(coins, reserved, cfg);
    line := SortBy(able, Richer);
    KeysMean(coins);
    SplittersLine(coins, reserved, cfg);
    WorkingIs(able, cfg);
    SortSums(able, Richer, Works(cfg));
    var working := Working(able, cfg.dust);
    var r := InventorySplit(coins, reserved, cfg, fees, address, maxAmount);
    assert r == if working >= 8 then Ok(None) else Ok(FirstSplit(line, Counts(working), cfg, fees, maxAmount));
    hide InventorySplit, SplittableCoins, SortBy, Richest, Sum, Working, FirstSplit, SplitChosen, NeverSplits,
      Distinct, Keys, NoKeyTwice;
    FirstSplitIs(plan, line, Counts(working), cfg, fees, maxAmount);
  }

  /** Without its own address or with a coin listed twice, no split is planned at all. */
  lemma SplitRefuses(coins: seq<Coin>, reserved: seq<Key>, cfg: Cfg, fees: Fees, address: string, maxAmount: int)
    requires address != cfg.address || !NoKeyTwice(coins)
    ensures InventorySplit(coins, reserved, cfg, fees, address, maxAmount)
            == Err(if address != cfg.address then OwnershipInvalid else DuplicateInventory)
  {
    KeysMean(coins);
    hide Distinct, NoKeyTwice, SplittableCoins, FirstSplit;
  }
}
