// The reads a row makes, and why the prefetched indexer cannot be told from the provider.
module PrefetchReads {
  import opened Prelude
  import opened Prefetch

  datatype Evidence = Unavailable | Ambiguous | DifferentOutpoint | Omitted | Malformed | Unrelated

  // ------------------------------------------------------------ narrow reads

  /** `exactCoin`, given the answer to its one-outpoint query. */
  function ExactCoin(answer: Option<seq<Coin>>, point: Outpoint): Result<Option<Coin>, Evidence> {
    if answer.None? then Err(Unavailable)
    else if |answer.value| > 1 then Err(Ambiguous)
    else if answer.value == [] then Ok(None)
    else if answer.value[0].point != point then Err(DifferentOutpoint)
    else Ok(Some(answer.value[0]))
  }

  function Where(coins: seq<Coin>, keep: Coin -> bool): seq<Coin> {
    if coins == [] then []
    else Where(coins[..|coins| - 1], keep) + (if keep(coins[|coins| - 1]) then [coins[|coins| - 1]] else [])
  }

  /** `exactSuccessor`, given the answer to its one-script query; `sameCovenant` is the row's facts. */
  function ExactSuccessor(answer: Option<seq<Coin>>, sameCovenant: Coin -> bool): Result<Option<Coin>, Evidence> {
    if answer.None? then Err(Unavailable)
    else
      var live := Where(answer.value, (c: Coin) => !c.isSpent && !c.isSwept && !c.isUnrolled && sameCovenant(c));
      if |live| > 1 then Err(Ambiguous) else Ok(if live == [] then None else Some(live[0]))
  }

  /** `rawTransactions`, given the answer to its query. */
  method RawTransactions(answer: Option<seq<Psbt>>, ids: seq<Txid>) returns (r: Result<map<Txid, Tx>, Evidence>)
    ensures r == RawResult(answer, ids)
  {
    if answer.None? { return Err(Unavailable); }
    if |answer.value| != |ids| { return Err(Omitted); }
    var all := answer.value;
    var txs: map<Txid, Tx> := map[];
    for i := 0 to |all|
      invariant Collect(all, ids, 0, map[]) == Collect(all, ids, i, txs)
    {
      if all[i].decoded.None? { return Err(Malformed); }
      var tx := all[i].decoded.value;
      if tx.id !in ids || tx.id in txs { return Err(Unrelated); }
      txs := txs[tx.id := tx];
    }
    return Ok(txs);
  }

  function RawResult(answer: Option<seq<Psbt>>, ids: seq<Txid>): Result<map<Txid, Tx>, Evidence> {
    if answer.None? then Err(Unavailable)
    else if |answer.value| != |ids| then Err(Omitted)
    else Collect(answer.value, ids, 0, map[])
  }

  function Collect(all: seq<Psbt>, ids: seq<Txid>, i: nat, txs: map<Txid, Tx>): Result<map<Txid, Tx>, Evidence>
    requires i <= |all|
    decreases |all| - i
  {
    if i == |all| then Ok(txs)
    else if all[i].decoded.None? then Err(Malformed)
    else
      var tx := all[i].decoded.value;
      if tx.id !in ids || tx.id in txs then Err(Unrelated)
      else Collect(all, ids, i + 1, txs[tx.id := tx])
  }

  // ------------------------------------------------------- a fixed ledger

  function TxsIn(ledger: Ledger, ids: seq<Txid>): seq<Psbt> {
    if ids == [] then []
    else TxsIn(ledger, ids[..|ids| - 1])
         + (if ids[|ids| - 1] in ledger.txs then [ledger.txs[ids[|ids| - 1]]] else [])
  }

  /** Batches may throw, carry extra entries or reorder, but do not contradict the ledger. */
  ghost predicate TruthfulBatches(provider: Provider, ledger: Ledger) {
    && (forall call: nat, asked: seq<Outpoint> :: provider.byPoint(call, asked).Some? ==>
          TruthfulCoins(ledger, PointOf, asked, provider.byPoint(call, asked).value))
    && (forall call: nat, asked: seq<string> :: provider.byScript(call, asked).Some? ==>
          TruthfulCoins(ledger, ScriptOf, asked, provider.byScript(call, asked).value))
    && (forall call: nat, asked: seq<Txid> :: provider.virtualTxs(call, asked).Some? ==>
          TruthfulTxs(ledger, provider.virtualTxs(call, asked).value))
  }

  /** A narrow answer about one key: the ledger's coins of that key and nothing else. */
  ghost predicate NarrowCoins<K(!new)>(ledger: Ledger, keyOf: Coin -> K, key: K, answer: seq<Coin>) {
    multiset(answer) == multiset(With(ledger.coins, keyOf, key))
  }

  ghost predicate NarrowTxs(ledger: Ledger, ids: seq<Txid>, answer: seq<Psbt>) {
    multiset(answer) == multiset(TxsIn(ledger, ids))
  }

  // -------------------------------------------------------- equal readings

  lemma SingleOrMany<T>(a: seq<T>, b: seq<T>)
    requires multiset(a) == multiset(b)
    ensures |a| == |b| && (|a| <= 1 ==> a == b)
  {
    assert |multiset(a)| == |a| && |multiset(b)| == |b|;
    if |a| == 1 {
      assert a == [a[0]] && b == [b[0]];
      assert a[0] in multiset(a) && a[0] in multiset(b);
    }
  }

  lemma {:induction false} WhereCounts(coins: seq<Coin>, keep: Coin -> bool, c: Coin)
    ensures multiset(Where(coins, keep))[c] == if keep(c) then multiset(coins)[c] else 0
  {
    if coins != [] {
      var before, last := coins[..|coins| - 1], coins[|coins| - 1];
      WhereCounts(before, keep, c);
      assert coins == before + [last];
    }
  }

  lemma WhereIgnoresOrder(a: seq<Coin>, b: seq<Coin>, keep: Coin -> bool)
    requires multiset(a) == multiset(b)
    ensures multiset(Where(a, keep)) == multiset(Where(b, keep))
  {
    forall c ensures multiset(Where(a, keep))[c] == multiset(Where(b, keep))[c] {
      WhereCounts(a, keep, c);
      WhereCounts(b, keep, c);
    }
  }

  /** A cached outpoint reads as any truthful narrow answer does. */
  lemma CachedCoinIsNarrowCoin(
    provider: Provider, ledger: Ledger, calls: nat, hits: seq<Coin>, point: Outpoint, origin: (nat, seq<Outpoint>),
    narrow: seq<Coin>)
    requires TruthfulBatches(provider, ledger)
    requires Answered(provider.byPoint, PointOf, calls, hits, point, origin)
    requires NarrowCoins(ledger, PointOf, point, narrow)
    ensures ExactCoin(Some(hits), point) == ExactCoin(Some(narrow), point)
  {
    SingleOrMany(hits, narrow);
  }

  lemma CachedSuccessorIsNarrowSuccessor(
    provider: Provider, ledger: Ledger, calls: nat, hits: seq<Coin>, script: string, origin: (nat, seq<string>),
    narrow: seq<Coin>, sameCovenant: Coin -> bool)
    requires TruthfulBatches(provider, ledger)
    requires Answered(provider.byScript, ScriptOf, calls, hits, script, origin)
    requires NarrowCoins(ledger, ScriptOf, script, narrow)
    ensures ExactSuccessor(Some(hits), sameCovenant) == ExactSuccessor(Some(narrow), sameCovenant)
  {
    var live := (c: Coin) => !c.isSpent && !c.isSwept && !c.isUnrolled && sameCovenant(c);
    WhereIgnoresOrder(hits, narrow, live);
    SingleOrMany(Where(hits, live), Where(narrow, live));
  }

  /** The transactions of `ids`, all decodable, as a map. */
  ghost function TxMap(ledger: Ledger, ids: set<Txid>): map<Txid, Tx>
    requires forall id :: id in ids ==> id in ledger.txs && ledger.txs[id].decoded.Some?
  {
    map id | id in ids :: ledger.txs[id].decoded.value
  }

  ghost predicate AllHeld(ledger: Ledger, ids: seq<Txid>) {
    forall id :: id in ids ==> id in ledger.txs && ledger.txs[id].decoded.Some?
  }

  lemma {:induction false} TxsInAll(ledger: Ledger, ids: seq<Txid>)
    requires AllHeld(ledger, ids)
    ensures |TxsIn(ledger, ids)| == |ids|
    ensures forall i :: 0 <= i < |ids| ==> TxsIn(ledger, ids)[i] == ledger.txs[ids[i]]
  {
    if ids != [] {
      assert forall id :: id in ids[..|ids| - 1] ==> id in ids;
      assert ids[|ids| - 1] in ids;
      TxsInAll(ledger, ids[..|ids| - 1]);
    }
  }

  /** `all` lists the ledger's transactions for `ids`, each once, in any order. */
  ghost predicate HeldList(ledger: Ledger, ids: seq<Txid>, all: seq<Psbt>) {
    && AllHeld(ledger, ids)
    && (forall k :: 0 <= k < |all| ==>
          all[k].decoded.Some? && all[k].decoded.value.id in ids && ledger.txs[all[k].decoded.value.id] == all[k])
    && (forall j, k :: 0 <= j < k < |all| ==> all[j].decoded.value.id != all[k].decoded.value.id)
    && (forall id :: id in ids ==> exists k :: 0 <= k < |all| && all[k].decoded.value.id == id)
  }

  /** Reading a list of distinct held transactions gives their map, whatever their order. */
  lemma {:induction false} CollectHeld(ledger: Ledger, ids: seq<Txid>, all: seq<Psbt>, i: nat, done: set<Txid>)
    requires HeldList(ledger, ids, all) && i <= |all|
    requires forall id :: id in done <==> exists k :: 0 <= k < i && all[k].decoded.value.id == id
    ensures Collect(all, ids, i, TxMap(ledger, done)) == Ok(TxMap(ledger, set id | id in ids))
    decreases |all| - i
  {
    if i < |all| {
      var tx := all[i].decoded.value;
      assert tx.id !in done;
      assert TxMap(ledger, done)[tx.id := tx] == TxMap(ledger, done + {tx.id});
      CollectHeld(ledger, ids, all, i + 1, done + {tx.id});
    } else {
      assert done == set id | id in ids;
    }
  }

  lemma ReorderingKeepsDistinct<T>(a: seq<T>, b: seq<T>)
    requires multiset(a) == multiset(b)
    requires forall i, j :: 0 <= i < j < |b| ==> b[i] != b[j]
    ensures forall i, j :: 0 <= i < j < |a| ==> a[i] != a[j]
    ensures forall x :: x in a <==> x in b
  {
    forall i, j | 0 <= i < j < |a| ensures a[i] != a[j] {
      if a[i] == a[j] {
        TwiceCountsTwice(a, i, j);
        OnceCountsOnce(b, a[i]);
      }
    }
    forall x ensures x in a <==> x in b { assert x in a <==> x in multiset(a); assert x in b <==> x in multiset(b); }
  }

  lemma HeldInOrder(ledger: Ledger, ids: seq<Txid>)
    requires ledger.Valid() && AllHeld(ledger, ids) && Distinct(ids)
    ensures forall e :: e in TxsIn(ledger, ids) ==>
      e.decoded.Some? && e.decoded.value.id in ids && ledger.txs[e.decoded.value.id] == e
    ensures forall id :: id in ids ==> ledger.txs[id] in TxsIn(ledger, ids)
    ensures forall i, j :: 0 <= i < j < |TxsIn(ledger, ids)| ==> TxsIn(ledger, ids)[i] != TxsIn(ledger, ids)[j]
  {
    var inOrder := TxsIn(ledger, ids);
    TxsInAll(ledger, ids);
    forall e | e in inOrder
      ensures e.decoded.Some? && e.decoded.value.id in ids && ledger.txs[e.decoded.value.id] == e
    {
      var i :| 0 <= i < |inOrder| && inOrder[i] == e;
      assert ids[i] in ids;
    }
    forall id | id in ids ensures ledger.txs[id] in inOrder {
      var i :| 0 <= i < |ids| && ids[i] == id;
      assert inOrder[i] == ledger.txs[id];
    }
    forall i, j | 0 <= i < j < |inOrder| ensures inOrder[i] != inOrder[j] {
      assert ids[i] in ids && ids[j] in ids;
      assert inOrder[i].decoded.value.id == ids[i] && inOrder[j].decoded.value.id == ids[j];
    }
  }

  lemma AnyOrderIsHeldList(ledger: Ledger, ids: seq<Txid>, answer: seq<Psbt>)
    requires ledger.Valid() && AllHeld(ledger, ids) && Distinct(ids) && NarrowTxs(ledger, ids, answer)
    ensures HeldList(ledger, ids, answer)
  {
    HeldInOrder(ledger, ids);
    ReorderingKeepsDistinct(answer, TxsIn(ledger, ids));
    hide TxsIn, AllHeld, Distinct, NarrowTxs;
    forall k | 0 <= k < |answer|
      ensures answer[k].decoded.Some? && answer[k].decoded.value.id in ids
              && ledger.txs[answer[k].decoded.value.id] == answer[k]
    {
      assert answer[k] in answer;
    }
    forall id | id in ids ensures exists k :: 0 <= k < |answer| && answer[k].decoded.value.id == id {
      assert ledger.txs[id] in answer;
      var k :| 0 <= k < |answer| && answer[k] == ledger.txs[id];
    }
  }

  lemma AnyOrderIsHeld(ledger: Ledger, ids: seq<Txid>, answer: seq<Psbt>)
    requires ledger.Valid() && AllHeld(ledger, ids) && Distinct(ids) && NarrowTxs(ledger, ids, answer)
    ensures RawResult(Some(answer), ids) == Ok(TxMap(ledger, set id | id in ids))
  {
    TxsInAll(ledger, ids);
    SingleOrMany(answer, TxsIn(ledger, ids));
    AnyOrderIsHeldList(ledger, ids, answer);
    assert TxMap(ledger, {}) == map[];
    hide HeldList, NarrowTxs, TxsIn, Collect;
    CollectHeld(ledger, ids, answer, 0, {});
  }

  lemma TwiceCountsTwice<T>(s: seq<T>, j: nat, k: nat)
    requires j < k < |s| && s[j] == s[k]
    ensures multiset(s)[s[j]] >= 2
  {
    assert s == s[..j] + [s[j]] + s[j + 1..k] + [s[k]] + s[k + 1..];
  }

  lemma {:induction false} OnceCountsOnce<T>(s: seq<T>, x: T)
    requires forall i, j :: 0 <= i < j < |s| ==> s[i] != s[j]
    ensures multiset(s)[x] <= 1
  {
    if s != [] {
      var before := s[..|s| - 1];
      assert s == before + [s[|s| - 1]];
      OnceCountsOnce(before, x);
      if s[|s| - 1] == x { assert x !in before; assert multiset(before)[x] == 0; }
    }
  }

  /** The cached answer for `ids`. */
  function CachedTxs(txs: map<Txid, Psbt>, ids: seq<Txid>): seq<Psbt>
    requires forall id :: id in ids ==> id in txs
  {
    seq(|ids|, i requires 0 <= i < |ids| => txs[ids[i]])
  }

  /** A cached transaction is the ledger's. */
  lemma CachedIsHeld(
    provider: Provider, ledger: Ledger, calls: nat, txs: map<Txid, Psbt>, origins: map<Txid, (nat, seq<Txid>)>,
    id: Txid)
    requires TruthfulBatches(provider, ledger) && TxsSourced(provider.virtualTxs, calls, txs, origins) && id in txs
    ensures id in ledger.txs && ledger.txs[id] == txs[id] && txs[id].decoded.Some?
  {
    hide UsableTxs, TruthfulCoins;
    var (call, asked) := origins[id];
    assert TruthfulTxs(ledger, provider.virtualTxs(call, asked).value);
    assert txs[id] in provider.virtualTxs(call, asked).value;
  }

  /** Transactions answered out of the cache read as any truthful narrow answer does. */
  lemma CachedTxsAreNarrowTxs(
    provider: Provider, ledger: Ledger, calls: nat, txs: map<Txid, Psbt>, origins: map<Txid, (nat, seq<Txid>)>,
    ids: seq<Txid>, narrow: seq<Psbt>)
    requires TruthfulBatches(provider, ledger) && ledger.Valid()
    requires TxsSourced(provider.virtualTxs, calls, txs, origins)
    requires Distinct(ids) && forall id :: id in ids ==> id in txs
    requires NarrowTxs(ledger, ids, narrow)
    ensures RawResult(Some(CachedTxs(txs, ids)), ids) == RawResult(Some(narrow), ids)
  {
    hide TruthfulBatches, TxsSourced, RawResult, TxsIn, Distinct;
    forall id | id in ids ensures id in ledger.txs && ledger.txs[id] == txs[id] && txs[id].decoded.Some? {
      CachedIsHeld(provider, ledger, calls, txs, origins, id);
    }
    TxsInAll(ledger, ids);
    assert CachedTxs(txs, ids) == TxsIn(ledger, ids);
    AnyOrderIsHeld(ledger, ids, CachedTxs(txs, ids));
    AnyOrderIsHeld(ledger, ids, narrow);
  }

  // ------------------------------------------------------------- whole scans

  datatype Query =
    | CoinAt(point: Outpoint)
    | SuccessorAt(script: string, sameCovenant: Coin -> bool)
    | TxsOf(ids: seq<Txid>)

  datatype Reply =
    | CoinReply(coin: Result<Option<Coin>, Evidence>)
    | TxReply(txs: Result<map<Txid, Tx>, Evidence>)

  /** What the provider answers to narrow reads; it may throw. */
  datatype Narrow = Narrow(
    point: Outpoint -> Option<seq<Coin>>, script: string -> Option<seq<Coin>>, txs: seq<Txid> -> Option<seq<Psbt>>)

  function ReadNarrowly(narrow: Narrow, q: Query): Reply {
    match q
    case CoinAt(point) => CoinReply(ExactCoin(narrow.point(point), point))
    case SuccessorAt(script, sameCovenant) => CoinReply(ExactSuccessor(narrow.script(script), sameCovenant))
    case TxsOf(ids) => TxReply(RawResult(narrow.txs(ids), ids))
  }

  /** The prefetched indexer: the cache where it holds every key asked, else the provider. */
  function ReadPrefetched(
    resolved: set<Outpoint>, coins: map<Outpoint, seq<Coin>>, resolvedScripts: set<string>,
    byScript: map<string, seq<Coin>>,
    txs: map<Txid, Psbt>, narrow: Narrow, q: Query): Reply
  {
    match q
    case CoinAt(point) =>
      CoinReply(ExactCoin(if point in resolved then Some(HitsIn(coins, point)) else narrow.point(point), point))
    case SuccessorAt(script, sameCovenant) =>
      var hits := if script in resolvedScripts then Some(HitsIn(byScript, script)) else narrow.script(script);
      CoinReply(ExactSuccessor(hits, sameCovenant))
    case TxsOf(ids) =>
      var cached := forall id :: id in ids ==> id in txs;
      TxReply(RawResult(if cached then Some(CachedTxs(txs, ids)) else narrow.txs(ids), ids))
  }

  ghost predicate TruthfulNarrow(narrow: Narrow, ledger: Ledger) {
    && (forall p :: narrow.point(p).Some? && NarrowCoins(ledger, PointOf, p, narrow.point(p).value))
    && (forall s :: narrow.script(s).Some? && NarrowCoins(ledger, ScriptOf, s, narrow.script(s).value))
    && (forall ids :: narrow.txs(ids).Some? && NarrowTxs(ledger, ids, narrow.txs(ids).value))
  }

  /** Against one ledger snapshot, a prefetched read and a narrow read give the same reply. */
  lemma PrefetchedReadIsNarrowRead(cache: Cache, narrow: Narrow, ledger: Ledger, q: Query)
    requires cache.Sourced() && TruthfulBatches(cache.provider, ledger) && ledger.Valid()
             && TruthfulNarrow(narrow, ledger)
    requires q.TxsOf? ==> Distinct(q.ids)
    ensures ReadPrefetched(cache.resolved, cache.coins, cache.resolvedScripts, cache.byScript, cache.txs, narrow, q)
            == ReadNarrowly(narrow, q)
  {
    hide TruthfulBatches, ExactCoin, ExactSuccessor, RawResult, TxsSourced, Answered, NarrowCoins, NarrowTxs;
    match q
    case CoinAt(point) =>
      if point in cache.resolved {
        CachedCoinIsNarrowCoin(cache.provider, ledger, cache.calls, HitsIn(cache.coins, point), point,
                               cache.pointOrigins[point], narrow.point(point).value);
      }
    case SuccessorAt(script, sameCovenant) =>
      if script in cache.resolvedScripts {
        CachedSuccessorIsNarrowSuccessor(cache.provider, ledger, cache.calls, HitsIn(cache.byScript, script), script,
                                         cache.scriptOrigins[script], narrow.script(script).value, sameCovenant);
      }
    case TxsOf(ids) =>
      if forall id :: id in ids ==> id in cache.txs {
        CachedTxsAreNarrowTxs(cache.provider, ledger, cache.calls, cache.txs, cache.txOrigins, ids,
          narrow.txs(ids).value);
      }
  }

  /** What a row does next, given the replies so far: another read, or its verdict. */
  datatype Move<V> = Done(verdict: V) | Ask(query: Query)

  /** The verdict after at most `limit` reads. */
  function Scan<V>(row: seq<Reply> -> Move<V>, read: Query -> Reply, replies: seq<Reply>, limit: nat): Option<V>
    decreases limit
  {
    match row(replies)
    case Done(verdict) => Some(verdict)
    case Ask(query) => if limit == 0 then None else Scan(row, read, replies + [read(query)], limit - 1)
  }

  /** A row only asks for distinct transactions, as `classifySpend` and `secondInput` do. */
  ghost predicate AsksDistinct<V(!new)>(row: seq<Reply> -> Move<V>) {
    forall replies :: row(replies).Ask? && row(replies).query.TxsOf? ==> Distinct(row(replies).query.ids)
  }

  /** Whatever a row computes from its reads, a prefetched scan gives it the row-by-row verdict. */
  lemma {:induction false} PrefetchedScanSameVerdict<V(!new)>(
    cache: Cache, narrow: Narrow, ledger: Ledger, row: seq<Reply> -> Move<V>, prefetched: Query -> Reply,
    replies: seq<Reply>, limit: nat)
    requires cache.Sourced() && TruthfulBatches(cache.provider, ledger) && ledger.Valid()
             && TruthfulNarrow(narrow, ledger)
    requires AsksDistinct(row)
    requires forall q :: prefetched(q) == ReadPrefetched(
                             cache.resolved, cache.coins, cache.resolvedScripts, cache.byScript, cache.txs, narrow, q)
    ensures Scan(row, prefetched, replies, limit) == Scan(row, q => ReadNarrowly(narrow, q), replies, limit)
    decreases limit
  {
    if row(replies).Ask? && limit > 0 {
      var q := row(replies).query;
      PrefetchedReadIsNarrowRead(cache, narrow, ledger, q);
      PrefetchedScanSameVerdict(cache, narrow, ledger, row, prefetched, replies + [prefetched(q)], limit - 1);
    }
  }
}
