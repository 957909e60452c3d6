// What a read means, against one ledger: which coin, successor or transactions it stands for, and
// when it refuses. Stated on the ledger's own coins and transactions, position by position.
module ReadsMean {
  import opened Prelude
  import opened Prefetch
  import opened PrefetchReads

  function AtPoint(point: Outpoint): Coin -> bool { (c: Coin) => c.point == point }

  /** Of this script, neither spent, swept nor unrolled, under the same covenant. */
  function LiveAt(script: string, sameCovenant: Coin -> bool): Coin -> bool {
    (c: Coin) => c.script == script && !c.isSpent && !c.isSwept && !c.isUnrolled && sameCovenant(c)
  }

  /** `c` passes, at one position, and no coin at any other position does. */
  ghost predicate OnlyCoin(coins: seq<Coin>, keep: Coin -> bool, c: Coin) {
    exists i ::
      && 0 <= i < |coins| && coins[i] == c && keep(c)
      && forall j :: 0 <= j < |coins| && j != i ==> !keep(coins[j])
  }

  ghost predicate NoCoin(coins: seq<Coin>, keep: Coin -> bool) { forall i :: 0 <= i < |coins| ==> !keep(coins[i]) }

  ghost predicate SeveralCoins(coins: seq<Coin>, keep: Coin -> bool) {
    exists i, j :: 0 <= i < j < |coins| && keep(coins[i]) && keep(coins[j])
  }

  /** `kept` holds the coins that pass, as often as `coins` does. */
  ghost predicate Keeps(coins: seq<Coin>, kept: seq<Coin>, keep: Coin -> bool) {
    forall c :: multiset(kept)[c] == if keep(c) then multiset(coins)[c] else 0
  }

  /** The answer lists exactly the ledger's coins of one outpoint, as often as the ledger holds them. */
  ghost predicate ListsPoint(ledger: Ledger, point: Outpoint, answer: seq<Coin>) {
    forall c :: multiset(answer)[c] == if c.point == point then multiset(ledger.coins)[c] else 0
  }

  ghost predicate ListsScript(ledger: Ledger, script: string, answer: seq<Coin>) {
    forall c :: multiset(answer)[c] == if c.script == script then multiset(ledger.coins)[c] else 0
  }

  // ------------------------------------------------------------- positions

  lemma CountsZero(coins: seq<Coin>, kept: seq<Coin>, keep: Coin -> bool)
    requires Keeps(coins, kept, keep)
    ensures kept == [] <==> NoCoin(coins, keep)
  {
    if kept != [] {
      assert kept[0] in multiset(kept);
      assert kept[0] in multiset(coins);
      var i :| 0 <= i < |coins| && coins[i] == kept[0];
    }
    if i :| 0 <= i < |coins| && keep(coins[i]) {
      assert coins[i] in multiset(coins);
      assert coins[i] in multiset(kept);
    }
  }

  lemma WithoutOne(coins: seq<Coin>, i: nat)
    requires i < |coins|
    ensures multiset(coins) == multiset(coins[..i] + coins[i + 1..]) + multiset{coins[i]}
  {
    assert coins == coins[..i] + [coins[i]] + coins[i + 1..];
  }

  lemma OnlyCoinIsKept(coins: seq<Coin>, kept: seq<Coin>, keep: Coin -> bool, i: nat)
    requires Keeps(coins, kept, keep)
    requires i < |coins| && keep(coins[i]) && forall j :: 0 <= j < |coins| && j != i ==> !keep(coins[j])
    ensures kept == [coins[i]]
  {
    var c := coins[i];
    WithoutOne(coins, i);
    var rest := coins[..i] + coins[i + 1..];
    forall j | 0 <= j < |rest| ensures !keep(rest[j]) { assert rest[j] == coins[if j < i then j else j + 1]; }
    forall x | keep(x) ensures multiset(rest)[x] == 0 { assert x !in rest; }
    assert multiset(kept) == multiset{c};
    assert |multiset(kept)| == |kept| == 1 && kept[0] in multiset(kept);
  }

  /** The one element of a filtered list is at the one position that passes. */
  lemma CountsOne(coins: seq<Coin>, kept: seq<Coin>, keep: Coin -> bool, c: Coin)
    requires Keeps(coins, kept, keep)
    ensures kept == [c] <==> OnlyCoin(coins, keep, c)
  {
    if kept == [c] {
      assert c in multiset(kept) && c in multiset(coins);
      var i :| 0 <= i < |coins| && coins[i] == c;
      OthersFail(coins, kept, keep, i);
    }
    if OnlyCoin(coins, keep, c) {
      var i :| 0 <= i < |coins| && coins[i] == c && keep(c)
               && forall j :: 0 <= j < |coins| && j != i ==> !keep(coins[j]);
      OnlyCoinIsKept(coins, kept, keep, i);
    }
  }

  lemma OthersFail(coins: seq<Coin>, kept: seq<Coin>, keep: Coin -> bool, i: nat)
    requires Keeps(coins, kept, keep) && |kept| == 1 && i < |coins| && coins[i] == kept[0]
    ensures keep(kept[0]) && forall j :: 0 <= j < |coins| && j != i ==> !keep(coins[j])
  {
    var c := kept[0];
    assert kept == [c] && c in multiset(kept);
    WithoutOne(coins, i);
    var rest := coins[..i] + coins[i + 1..];
    forall j | 0 <= j < |coins| && j != i ensures !keep(coins[j]) {
      assert coins[j] == rest[if j < i then j else j - 1];
      assert coins[j] in multiset(rest);
      assert keep(coins[j]) ==> multiset(kept)[coins[j]] == multiset(coins)[coins[j]];
    }
  }

  lemma CountsMany(coins: seq<Coin>, kept: seq<Coin>, keep: Coin -> bool)
    requires Keeps(coins, kept, keep)
    ensures |kept| > 1 <==> SeveralCoins(coins, keep)
  {
    CountsZero(coins, kept, keep);
    if |kept| == 1 {
      assert kept == [kept[0]];
      CountsOne(coins, kept, keep, kept[0]);
    } else if |kept| > 1 {
      var i :| 0 <= i < |coins| && keep(coins[i]);
      CountsOne(coins, kept, keep, coins[i]);
    }
  }

  // --------------------------------------------------------------- theorems

  /**
   * `exactCoin` on the ledger's answer: the coin where the outpoint has exactly one, nothing where it
   * has none, a refusal where it has several; and it never finds another outpoint.
   */
  lemma ExactCoinReads(ledger: Ledger, point: Outpoint, answer: seq<Coin>, c: Coin)
    requires ListsPoint(ledger, point, answer)
    ensures ExactCoin(Some(answer), point) == Ok(Some(c)) <==> OnlyCoin(ledger.coins, AtPoint(point), c)
    ensures ExactCoin(Some(answer), point) == Ok(None) <==> NoCoin(ledger.coins, AtPoint(point))
    ensures ExactCoin(Some(answer), point) == Err(Ambiguous) <==> SeveralCoins(ledger.coins, AtPoint(point))
    ensures ExactCoin(Some(answer), point) != Err(DifferentOutpoint)
  {
    var keep := AtPoint(point);
    CountsZero(ledger.coins, answer, keep);
    CountsOne(ledger.coins, answer, keep, c);
    CountsMany(ledger.coins, answer, keep);
    if answer != [] { assert answer[0] in multiset(answer); }
    hide OnlyCoin, NoCoin, SeveralCoins;
    assert answer == [c] <==> |answer| == 1 && answer[0] == c;
  }

  /** On any answer at all: what it takes to be a coin, and which refusal names what is wrong. */
  lemma ExactCoinRefuses(answer: Option<seq<Coin>>, point: Outpoint)
    ensures ExactCoin(answer, point).Ok? <==>
            answer.Some? && |answer.value| <= 1 && forall c :: c in answer.value ==> c.point == point
    ensures ExactCoin(answer, point).Ok? ==>
            (ExactCoin(answer, point).value.Some? <==> |answer.value| == 1)
            && (|answer.value| == 1 ==> ExactCoin(answer, point).value.value == answer.value[0])
    ensures ExactCoin(answer, point) == Err(Unavailable) <==> answer.None?
    ensures ExactCoin(answer, point) == Err(DifferentOutpoint) <==>
            answer.Some? && |answer.value| == 1 && answer.value[0].point != point
  {
  }

  /** `exactSuccessor`: the one live coin of the script under the same covenant. */
  lemma ExactSuccessorReads(
    ledger: Ledger, script: string, sameCovenant: Coin -> bool, answer: seq<Coin>, c: Coin)
    requires ListsScript(ledger, script, answer)
    ensures ExactSuccessor(Some(answer), sameCovenant) == Ok(Some(c)) <==>
            OnlyCoin(ledger.coins, LiveAt(script, sameCovenant), c)
    ensures ExactSuccessor(Some(answer), sameCovenant) == Ok(None) <==>
            NoCoin(ledger.coins, LiveAt(script, sameCovenant))
    ensures ExactSuccessor(Some(answer), sameCovenant) == Err(Ambiguous) <==>
            SeveralCoins(ledger.coins, LiveAt(script, sameCovenant))
    ensures ExactSuccessor(None, sameCovenant) == Err(Unavailable)
  {
    var live := (x: Coin) => !x.isSpent && !x.isSwept && !x.isUnrolled && sameCovenant(x);
    var keep := LiveAt(script, sameCovenant);
    var kept := Where(answer, live);
    forall x ensures multiset(kept)[x] == if keep(x) then multiset(ledger.coins)[x] else 0 {
      WhereCounts(answer, live, x);
    }
    hide ListsScript, OnlyCoin, NoCoin, SeveralCoins;
    CountsZero(ledger.coins, kept, keep);
    CountsOne(ledger.coins, kept, keep, c);
    CountsMany(ledger.coins, kept, keep);
    hide Where, Keeps;
    assert kept == [c] <==> |kept| == 1 && kept[0] == c;
  }

  // ------------------------------------------------------------ transactions

  /** The ledger's transaction of one of these ids. */
  ghost predicate HeldAs(ledger: Ledger, ids: seq<Txid>, e: Psbt) {
    exists id :: id in ids && id in ledger.txs && ledger.txs[id] == e
  }

  lemma HeldAsSnoc(ledger: Ledger, before: seq<Txid>, last: Txid, e: Psbt)
    ensures HeldAs(ledger, before + [last], e)
            <==> HeldAs(ledger, before, e) || (last in ledger.txs && ledger.txs[last] == e)
  {
    if HeldAs(ledger, before, e) {
      var id :| id in before && id in ledger.txs && ledger.txs[id] == e;
      assert id in before + [last];
    }
    if last in ledger.txs && ledger.txs[last] == e { assert last in before + [last]; }
  }

  predicate AllThere(ledger: Ledger, ids: seq<Txid>) { forall id :: id in ids ==> id in ledger.txs }

  lemma AllThereSnoc(ledger: Ledger, before: seq<Txid>, last: Txid)
    ensures AllThere(ledger, before + [last]) <==> AllThere(ledger, before) && last in ledger.txs
  {
    assert forall id :: id in before + [last] <==> id in before || id == last;
  }

  lemma {:induction false} TxsInCount(ledger: Ledger, ids: seq<Txid>)
    ensures |TxsIn(ledger, ids)| <= |ids|
    ensures |TxsIn(ledger, ids)| == |ids| <==> AllThere(ledger, ids)
  {
    if ids != [] {
      hide AllThere;
      var last, before := ids[|ids| - 1], ids[..|ids| - 1];
      TxsInCount(ledger, before);
      assert ids == before + [last];
      AllThereSnoc(ledger, before, last);
    }
  }

  lemma {:induction false} TxsInSome(ledger: Ledger, ids: seq<Txid>)
    ensures forall e :: e in TxsIn(ledger, ids) <==> HeldAs(ledger, ids, e)
  {
    if ids == [] {
      assert TxsIn(ledger, ids) == [];
    } else {
      hide HeldAs;
      var last, before := ids[|ids| - 1], ids[..|ids| - 1];
      TxsInSome(ledger, before);
      assert ids == before + [last];
      var more := if last in ledger.txs then [ledger.txs[last]] else [];
      assert TxsIn(ledger, ids) == TxsIn(ledger, before) + more;
      hide TxsIn;
      forall e ensures e in TxsIn(ledger, before) + more <==> HeldAs(ledger, ids, e) {
        HeldAsSnoc(ledger, before, last, e);
      }
    }
  }

  /** One undecodable text is met before anything else can be wrong. */
  lemma {:induction false} MalformedIsMet(ledger: Ledger, ids: seq<Txid>, all: seq<Psbt>, i: nat, txs: map<Txid, Tx>)
    requires i <= |all| && forall k :: 0 <= k < |all| && all[k].decoded.Some? ==> all[k].decoded.value.id in ids
    requires forall j, k :: 0 <= j < k < |all| && all[j].decoded.Some? && all[k].decoded.Some? ==>
               all[j].decoded.value.id != all[k].decoded.value.id
    requires forall id :: id in txs ==> exists k :: 0 <= k < i && all[k].decoded.Some? && all[k].decoded.value.id == id
    requires exists k :: i <= k < |all| && all[k].decoded.None?
    ensures Collect(all, ids, i, txs) == Err(Malformed)
    decreases |all| - i
  {
    if all[i].decoded.Some? {
      var tx := all[i].decoded.value;
      assert tx.id !in txs;
      forall id: Txid | id == tx.id || id in txs
        ensures exists k :: 0 <= k < i + 1 && all[k].decoded.Some? && all[k].decoded.value.id == id
      {
        if id != tx.id { var k :| 0 <= k < i && all[k].decoded.Some? && all[k].decoded.value.id == id; }
      }
      MalformedIsMet(ledger, ids, all, i + 1, txs[tx.id := tx]);
    }
  }

  /** Decoded entries of a truthful answer about distinct ids carry distinct ids. */
  lemma AnsweredIdsDiffer(ledger: Ledger, ids: seq<Txid>, answer: seq<Psbt>)
    requires ledger.Valid() && Distinct(ids) && NarrowTxs(ledger, ids, answer)
    requires forall id :: id in ids ==> id in ledger.txs
    ensures forall k :: 0 <= k < |answer| && answer[k].decoded.Some? ==> answer[k].decoded.value.id in ids
    ensures forall j, k :: 0 <= j < k < |answer| && answer[j].decoded.Some? && answer[k].decoded.Some? ==>
              answer[j].decoded.value.id != answer[k].decoded.value.id
  {
    TxsInSome(ledger, ids);
    TxsInCount(ledger, ids);
    var inOrder := TxsIn(ledger, ids);
    forall k | 0 <= k < |answer| && answer[k].decoded.Some? ensures answer[k].decoded.value.id in ids {
      InOrderToo(answer, inOrder, answer[k]);
    }
    forall j, k | 0 <= j < k < |answer| && answer[j].decoded.Some? && answer[k].decoded.Some?
      ensures answer[j].decoded.value.id != answer[k].decoded.value.id
    {
      if answer[j].decoded.value.id == answer[k].decoded.value.id {
        InOrderToo(answer, inOrder, answer[j]);
        InOrderToo(answer, inOrder, answer[k]);
        assert answer[j] == answer[k];
        TwiceCountsTwice(answer, j, k);
        OneEntryPerId(ledger, ids, answer[j]);
      }
    }
  }

  lemma InOrderToo(answer: seq<Psbt>, inOrder: seq<Psbt>, e: Psbt)
    requires multiset(answer) == multiset(inOrder) && e in answer
    ensures e in inOrder
  {
    assert e in multiset(answer);
  }

  lemma {:induction false} OneEntryPerId(ledger: Ledger, ids: seq<Txid>, e: Psbt)
    requires ledger.Valid() && Distinct(ids) && e.decoded.Some?
    ensures multiset(TxsIn(ledger, ids))[e] <= (if e.decoded.value.id in ids then 1 else 0)
  {
    if ids != [] {
      var before, last := ids[..|ids| - 1], ids[|ids| - 1];
      assert ids == before + [last];
      OneEntryPerId(ledger, before, e);
      assert forall i :: 0 <= i < |before| ==> before[i] != last;
    }
  }

  /**
   * `rawTransactions` on the ledger's answer to distinct ids: every id with the ledger's transaction
   * of that id and nothing else, exactly where the ledger has them all and each decodes; otherwise a
   * missing one is an omission, and an undecodable one malformed.
   */
  lemma RawTransactionsRead(ledger: Ledger, ids: seq<Txid>, answer: seq<Psbt>)
    requires ledger.Valid() && Distinct(ids) && NarrowTxs(ledger, ids, answer)
    ensures RawResult(Some(answer), ids).Ok? <==>
            forall id :: id in ids ==> id in ledger.txs && ledger.txs[id].decoded.Some?
    ensures RawResult(Some(answer), ids).Ok? ==>
            var txs := RawResult(Some(answer), ids).value;
            (forall id :: id in txs <==> id in ids)
            && forall id :: id in ids ==> txs[id] == ledger.txs[id].decoded.value && txs[id].id == id
    ensures RawResult(Some(answer), ids) == Err(Omitted) <==> exists id :: id in ids && id !in ledger.txs
    ensures RawResult(Some(answer), ids) == Err(Malformed) <==>
            && (forall id :: id in ids ==> id in ledger.txs)
            && exists id :: id in ids && ledger.txs[id].decoded.None?
  {
    TxsInSome(ledger, ids);
    TxsInCount(ledger, ids);
    assert |answer| == |TxsIn(ledger, ids)| by {
      assert |multiset(answer)| == |answer| && |multiset(TxsIn(ledger, ids))| == |TxsIn(ledger, ids)|;
    }
    if forall id :: id in ids ==> id in ledger.txs && ledger.txs[id].decoded.Some? {
      AnyOrderIsHeld(ledger, ids, answer);
    } else if forall id :: id in ids ==> id in ledger.txs {
      AnsweredIdsDiffer(ledger, ids, answer);
      var id :| id in ids && ledger.txs[id].decoded.None?;
      InOrderToo(TxsIn(ledger, ids), answer, ledger.txs[id]);
      MalformedIsMet(ledger, ids, answer, 0, map[]);
    }
  }

  /** Entry `k` decodes to a transaction that was asked for. */
  predicate Entry(all: seq<Psbt>, k: nat, ids: seq<Txid>) {
    k < |all| && all[k].decoded.Some? && all[k].decoded.value.id in ids
  }

  /** The id of the transaction that entry `k` decodes to. */
  function IdAt(all: seq<Psbt>, k: nat): Option<Txid>
    requires k < |all|
  {
    if all[k].decoded.Some? then Some(all[k].decoded.value.id) else None
  }

  lemma {:induction false} CollectMeans(all: seq<Psbt>, ids: seq<Txid>, i: nat, txs: map<Txid, Tx>)
    requires i <= |all|
    ensures Collect(all, ids, i, txs).Ok? <==>
            && (forall k :: i <= k < |all| ==> Entry(all, k, ids))
            && (forall k :: i <= k < |all| ==> IdAt(all, k).Some? ==> IdAt(all, k).value !in txs)
            && (forall j, k :: i <= j < k < |all| ==> IdAt(all, j) != IdAt(all, k))
    ensures Collect(all, ids, i, txs).Ok? ==>
              var r := Collect(all, ids, i, txs).value;
              && (forall id :: id in txs ==> id in r && r[id] == txs[id])
              && (forall k :: i <= k < |all| && IdAt(all, k).Some? ==>
                    IdAt(all, k).value in r && r[IdAt(all, k).value] == all[k].decoded.value)
              && (forall id :: id in r ==> id in txs || exists k :: i <= k < |all| && IdAt(all, k) == Some(id))
    decreases |all| - i
  {
    if i < |all| {
      assert Entry(all, i, ids) <==> IdAt(all, i).Some? && IdAt(all, i).value in ids;
      if Entry(all, i, ids) && IdAt(all, i).value !in txs {
        var tx := all[i].decoded.value;
        CollectMeans(all, ids, i + 1, txs[tx.id := tx]);
      }
    }
  }

  /**
   * Of any answer: it is taken exactly when it has one entry for each id asked, all of them decodable,
   * asked for and of different ids; then each id is read as the entry that carries it, and no other is.
   */
  lemma RawTransactionsExactlyWhen(answer: Option<seq<Psbt>>, ids: seq<Txid>)
    ensures var r := RawResult(answer, ids);
            && (r.Ok? <==>
                  && answer.Some? && |answer.value| == |ids|
                  && (forall k :: 0 <= k < |answer.value| ==> Entry(answer.value, k, ids))
                  && (forall j, k :: 0 <= j < k < |answer.value| ==> IdAt(answer.value, j) != IdAt(answer.value, k)))
            && (r.Ok? ==>
                  && (forall k :: 0 <= k < |answer.value| && IdAt(answer.value, k).Some? ==>
                        && IdAt(answer.value, k).value in r.value
                        && r.value[IdAt(answer.value, k).value] == answer.value[k].decoded.value)
                  && forall id :: id in r.value ==>
                       exists k :: 0 <= k < |answer.value| && IdAt(answer.value, k) == Some(id))
  {
    if answer.Some? {
      CollectMeans(answer.value, ids, 0, map[]);
    }
    hide Collect;
  }

  /** A batch is used exactly when it answers, and with no coin of a key that was not asked for. */
  lemma UsableMeans<K>(asked: seq<K>, keyOf: Coin -> K, answer: Option<seq<Coin>>)
    ensures Usable(asked, keyOf, answer) <==>
            answer.Some? && !exists i :: 0 <= i < |answer.value| && keyOf(answer.value[i]) !in asked
  {
    if answer.Some? && !exists i :: 0 <= i < |answer.value| && keyOf(answer.value[i]) !in asked {
      forall c | c in answer.value ensures keyOf(c) in asked {
        var i :| 0 <= i < |answer.value| && answer.value[i] == c;
      }
    }
  }
}
