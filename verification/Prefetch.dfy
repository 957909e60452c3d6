// packages/app/src/watcher.ts: the batched cache of one scan (`prefetch`) and the narrow
// reads it stands in for (`exactCoin`, `exactSuccessor`, `rawTransactions`).
module Prefetch {
  import opened Prelude
  import opened Assets

  type Txid = string

  datatype Outpoint = Outpoint(txid: Txid, vout: nat)

  datatype Coin = Coin(
    point: Outpoint, script: string, value: nat, assets: seq<Holding>,
    isSpent: bool, isSwept: bool, isUnrolled: bool,
    arkTxId: Option<Txid>, spentBy: Option<Txid>, settledBy: Option<Txid>)

  datatype TxInput = TxInput(txid: Option<Txid>, index: Option<nat>)

  datatype Tx = Tx(id: Txid, inputs: seq<TxInput>)

  /** An encoded transaction with what its text decodes to, if it decodes at all. */
  datatype Psbt = Psbt(text: string, decoded: Option<Tx>)

  /**
   * A provider as an oracle: its answer may depend on how many calls went before. None is a
   * call that throws or an answer of the wrong shape. Nothing else is assumed of it.
   */
  datatype Provider = Provider(
    byPoint: (nat, seq<Outpoint>) -> Option<seq<Coin>>,
    byScript: (nat, seq<string>) -> Option<seq<Coin>>,
    virtualTxs: (nat, seq<Txid>) -> Option<seq<Psbt>>)

  const CHUNK_KEYS := 100

  function ChunkCount(n: nat): nat { (n + CHUNK_KEYS - 1) / CHUNK_KEYS }

  /** Chunk `index` of `items`. */
  function Chunk<T>(items: seq<T>, index: nat): seq<T>
    requires index < ChunkCount(|items|)
  {
    var start := index * CHUNK_KEYS;
    if start + CHUNK_KEYS <= |items| then items[start..start + CHUNK_KEYS] else items[start..]
  }

  /** `[...new Set(items)]`. */
  function Unique<T(==, !new)>(items: seq<T>): (r: seq<T>)
    ensures |r| <= |items|
    ensures forall x :: x in r <==> x in items
    ensures forall i, j :: 0 <= i < j < |r| ==> r[i] != r[j]
  {
    if items == [] then []
    else
      var last := items[|items| - 1];
      var rest := Unique(items[..|items| - 1]);
      assert items == items[..|items| - 1] + [last];
      if last in rest then rest else rest + [last]
  }

  function PointOf(coin: Coin): Outpoint { coin.point }

  function ScriptOf(coin: Coin): string { coin.script }

  /** The coins of an answer that carry one key, in order. */
  function With<K(==)>(coins: seq<Coin>, keyOf: Coin -> K, key: K): (r: seq<Coin>)
    ensures forall c :: c in r ==> c in coins && keyOf(c) == key
  {
    if coins == [] then []
    else With(coins[..|coins| - 1], keyOf, key)
         + (if keyOf(coins[|coins| - 1]) == key then [coins[|coins| - 1]] else [])
  }

  /** An answer that only carries keys that were asked for. */
  predicate Usable<K(==)>(asked: seq<K>, keyOf: Coin -> K, answer: Option<seq<Coin>>) {
    answer.Some? && forall c :: c in answer.value ==> keyOf(c) in asked
  }

  function Ids(answer: seq<Psbt>): set<Txid> {
    if answer == [] then {}
    else
      var last := answer[|answer| - 1].decoded;
      Ids(answer[..|answer| - 1]) + (if last.Some? then {last.value.id} else {})
  }

  /** Every decodable transaction was asked for, and none comes twice. */
  predicate UsableTxs(asked: seq<Txid>, answer: seq<Psbt>) {
    answer == [] ||
    var before, last := answer[..|answer| - 1], answer[|answer| - 1].decoded;
    UsableTxs(asked, before) && (last.Some? ==> last.value.id in asked && last.value.id !in Ids(before))
  }

  predicate IsTxid(id: Txid) {
    |id| == 64 && forall i :: 0 <= i < 64 ==> '0' <= id[i] <= '9' || 'a' <= id[i] <= 'f'
  }

  function OnlyTxids(ids: seq<Txid>): (r: seq<Txid>)
    ensures |r| <= |ids|
    ensures forall id :: id in r <==> id in ids && IsTxid(id)
  {
    if ids == [] then [] else (if IsTxid(ids[0]) then [ids[0]] else []) + OnlyTxids(ids[1..])
  }

  /** `renewalCommitment`. */
  predicate Renewed(coin: Coin) {
    coin.settledBy.Some? && IsTxid(coin.settledBy.value) && coin.arkTxId.None?
  }

  function OrEmpty(id: Option<Txid>): Txid { if id.Some? then id.value else "" }

  function HitsIn<K>(hits: map<K, seq<Coin>>, key: K): seq<Coin> {
    if key in hits then hits[key] else []
  }

  /** The cached coins of `key` are all of one usable answer that was asked for it. */
  ghost predicate Answered<K(!new)>(
    answers: (nat, seq<K>) -> Option<seq<Coin>>, keyOf: Coin -> K, calls: nat, hits: seq<Coin>, key: K,
    origin: (nat, seq<K>))
  {
    && origin.0 < calls && key in origin.1
    && Usable(origin.1, keyOf, answers(origin.0, origin.1))
    && hits == With(answers(origin.0, origin.1).value, keyOf, key)
  }

  ghost predicate CoinsSourced<K(!new)>(
    answers: (nat, seq<K>) -> Option<seq<Coin>>, keyOf: Coin -> K, calls: nat,
    hits: map<K, seq<Coin>>, resolved: set<K>, origins: map<K, (nat, seq<K>)>)
  {
    && hits.Keys <= resolved <= origins.Keys
    && forall key :: key in resolved ==> Answered(answers, keyOf, calls, HitsIn(hits, key), key, origins[key])
  }

  ghost predicate TxsSourced(
    answers: (nat, seq<Txid>) -> Option<seq<Psbt>>, calls: nat, txs: map<Txid, Psbt>,
    origins: map<Txid, (nat, seq<Txid>)>)
  {
    && txs.Keys <= origins.Keys
    && forall id :: id in txs ==>
         && origins[id].0 < calls && id in origins[id].1
         && answers(origins[id].0, origins[id].1).Some?
         && UsableTxs(origins[id].1, answers(origins[id].0, origins[id].1).value)
         && txs[id] in answers(origins[id].0, origins[id].1).value
         && txs[id].decoded.Some? && txs[id].decoded.value.id == id
  }

  // ---------------------------------------------------------- a fixed ledger

  /** What the provider reads from. A transaction is stored under its own id. */
  datatype Ledger = Ledger(coins: seq<Coin>, txs: map<Txid, Psbt>) {
    predicate Valid() {
      forall id :: id in txs && txs[id].decoded.Some? ==> txs[id].decoded.value.id == id
    }
  }

  /** Any answer that gives, for each key asked, exactly the ledger's coins, in some order. */
  ghost predicate TruthfulCoins<K(!new)>(ledger: Ledger, keyOf: Coin -> K, asked: seq<K>, answer: seq<Coin>) {
    forall key :: key in asked ==> multiset(With(answer, keyOf, key)) == multiset(With(ledger.coins, keyOf, key))
  }

  /** A decodable transaction that an answer carries is the ledger's. */
  ghost predicate TruthfulTxs(ledger: Ledger, answer: seq<Psbt>) {
    forall e :: e in answer && e.decoded.Some? ==>
      e.decoded.value.id in ledger.txs && ledger.txs[e.decoded.value.id] == e
  }

  /** A provider that answers every batch, with the ledger's entries of what was asked and nothing else. */
  ghost predicate Honest(provider: Provider, ledger: Ledger) {
    && ledger.Valid()
    && (forall call: nat, asked: seq<Outpoint> ::
          HonestCoins(ledger, PointOf, asked, provider.byPoint(call, asked)))
    && (forall call: nat, asked: seq<string> ::
          HonestCoins(ledger, ScriptOf, asked, provider.byScript(call, asked)))
    && (forall call: nat, asked: seq<Txid> :: HonestTxs(ledger, asked, provider.virtualTxs(call, asked)))
  }

  ghost predicate HonestCoins<K(!new)>(ledger: Ledger, keyOf: Coin -> K, asked: seq<K>, answer: Option<seq<Coin>>) {
    && answer.Some? && (forall c :: c in answer.value ==> keyOf(c) in asked)
    && TruthfulCoins(ledger, keyOf, asked, answer.value)
  }

  ghost predicate HonestTxs(ledger: Ledger, asked: seq<Txid>, answer: Option<seq<Psbt>>) {
    && answer.Some? && TruthfulTxs(ledger, answer.value)
    && (forall k :: 0 <= k < |answer.value| && answer.value[k].decoded.Some? ==>
          answer.value[k].decoded.value.id in asked)
    && (forall j, k :: 0 <= j < k < |answer.value| && answer.value[j].decoded.Some? && answer.value[k].decoded.Some? ==>
          answer.value[j].decoded.value.id != answer.value[k].decoded.value.id)
    && (forall id :: id in asked && Readable(ledger, id) ==> ledger.txs[id] in answer.value)
  }

  /** The ledger has a transaction of this id that decodes. */
  predicate Readable(ledger: Ledger, id: Txid) { id in ledger.txs && ledger.txs[id].decoded.Some? }

  /** A scan can ask for this id, and the ledger has its transaction. */
  predicate Fetchable(ledger: Ledger, id: Option<Txid>) { id.Some? && IsTxid(id.value) && Readable(ledger, id.value) }

  /** The transaction at input 1 of a two-input one. */
  function SecondInput(tx: Tx): Option<Txid> { if |tx.inputs| == 2 then tx.inputs[1].txid else None }

  /** The coin at input 0. */
  function FundedBy(tx: Tx): Option<Outpoint> {
    if tx.inputs != [] && tx.inputs[0].txid.Some? && tx.inputs[0].index.Some?
    then Some(Outpoint(tx.inputs[0].txid.value, tx.inputs[0].index.value)) else None
  }

  lemma {:induction false} IdsMean(answer: seq<Psbt>, id: Txid)
    ensures id in Ids(answer) <==>
            exists k :: 0 <= k < |answer| && answer[k].decoded.Some? && answer[k].decoded.value.id == id
  {
    if answer != [] {
      var n := |answer| - 1;
      IdsMean(answer[..n], id);
      if k :| 0 <= k < |answer| && answer[k].decoded.Some? && answer[k].decoded.value.id == id {
        if k < n { assert answer[..n][k] == answer[k]; }
      }
      if k :| 0 <= k < n && answer[..n][k].decoded.Some? && answer[..n][k].decoded.value.id == id {
        assert answer[k] == answer[..n][k];
      }
    }
  }

  /** An answer is usable exactly when every decodable entry was asked for and no two carry one id. */
  lemma {:induction false} UsableTxsMeans(asked: seq<Txid>, answer: seq<Psbt>)
    ensures UsableTxs(asked, answer) <==>
            && (forall k :: 0 <= k < |answer| && answer[k].decoded.Some? ==> answer[k].decoded.value.id in asked)
            && forall j, k :: 0 <= j < k < |answer| && answer[j].decoded.Some? && answer[k].decoded.Some? ==>
                 answer[j].decoded.value.id != answer[k].decoded.value.id
  {
    if answer != [] {
      var n := |answer| - 1;
      var before, last := answer[..n], answer[n].decoded;
      UsableTxsMeans(asked, before);
      assert forall k :: 0 <= k < n ==> before[k] == answer[k];
      if last.Some? { IdsMean(before, last.value.id); }
      hide Ids;
    }
  }

  predicate Serves(asked: seq<Txid>, answer: Option<seq<Psbt>>, id: Txid) {
    answer.Some? && UsableTxs(asked, answer.value) && id in Ids(answer.value)
  }

  /** Where the coins of each key come from once a usable answer has been entered. */
  ghost function Origins<K(!new)>(
    origins: map<K, (nat, seq<K>)>, hits: map<K, seq<Coin>>, found: map<K, seq<Coin>>, call: nat, group: seq<K>)
    : map<K, (nat, seq<K>)>
  {
    map key | key in origins.Keys + (set k | k in group) ::
      if key in origins && (key !in group || (key in hits && key !in found)) then origins[key] else (call, group)
  }

  ghost function TxOrigins(
    origins: map<Txid, (nat, seq<Txid>)>, found: map<Txid, Psbt>, call: nat, group: seq<Txid>)
    : map<Txid, (nat, seq<Txid>)>
  {
    origins + map id | id in found :: (call, group)
  }

  lemma EnteringKeepsSourced<K(!new)>(
    answers: (nat, seq<K>) -> Option<seq<Coin>>, keyOf: Coin -> K, call: nat, hits: map<K, seq<Coin>>,
    resolved: set<K>, origins: map<K, (nat, seq<K>)>, group: seq<K>, found: map<K, seq<Coin>>)
    requires CoinsSourced(answers, keyOf, call, hits, resolved, origins)
    requires Usable(group, keyOf, answers(call, group))
    requires forall key :: key in found ==> key in group
    requires forall key :: HitsIn(found, key) == With(answers(call, group).value, keyOf, key)
    ensures CoinsSourced(answers, keyOf, call + 1, hits + found, resolved + (set k | k in group),
                         Origins(origins, hits, found, call, group))
  {
    var origins' := Origins(origins, hits, found, call, group);
    forall key | key in resolved + (set k | k in group)
      ensures Answered(answers, keyOf, call + 1, HitsIn(hits + found, key), key, origins'[key])
    {
      if key in origins && (key !in group || (key in hits && key !in found)) {
        assert key in resolved && Answered(answers, keyOf, call, HitsIn(hits, key), key, origins[key]);
      } else {
        assert HitsIn(hits + found, key) == HitsIn(found, key);
      }
    }
  }

  lemma SourcedLater<K(!new)>(
    answers: (nat, seq<K>) -> Option<seq<Coin>>, keyOf: Coin -> K, calls: nat, later: nat,
    hits: map<K, seq<Coin>>, resolved: set<K>, origins: map<K, (nat, seq<K>)>)
    requires calls <= later && CoinsSourced(answers, keyOf, calls, hits, resolved, origins)
    ensures CoinsSourced(answers, keyOf, later, hits, resolved, origins)
  {
    forall key | key in resolved ensures Answered(answers, keyOf, later, HitsIn(hits, key), key, origins[key]) {
      assert Answered(answers, keyOf, calls, HitsIn(hits, key), key, origins[key]);
    }
  }

  /** One scan's cache. The origins record which call each cached answer came from. */
  class Cache {
    const provider: Provider
    var calls: nat
    var coins: map<Outpoint, seq<Coin>>
    var resolved: set<Outpoint>
    var byScript: map<string, seq<Coin>>
    var resolvedScripts: set<string>
    var txs: map<Txid, Psbt>
    ghost var pointOrigins: map<Outpoint, (nat, seq<Outpoint>)>
    ghost var scriptOrigins: map<string, (nat, seq<string>)>
    ghost var txOrigins: map<Txid, (nat, seq<Txid>)>

    constructor (provider: Provider)
      ensures this.provider == provider && calls == 0
      ensures Sourced() && resolved == {} && resolvedScripts == {} && txs == map[]
    {
      this.provider := provider;
      calls, coins, resolved, byScript, resolvedScripts, txs := 0, map[], {}, map[], {}, map[];
      pointOrigins, scriptOrigins, txOrigins := map[], map[], map[];
    }

    ghost predicate PointsSourced()
      reads this
    {
      CoinsSourced(provider.byPoint, PointOf, calls, coins, resolved, pointOrigins)
    }

    ghost predicate ScriptsSourced()
      reads this
    {
      CoinsSourced(provider.byScript, ScriptOf, calls, byScript, resolvedScripts, scriptOrigins)
    }

    /** What holds of the cache whatever the provider answers. */
    ghost predicate Sourced()
      reads this
    {
      PointsSourced() && ScriptsSourced() && TxsSourced(provider.virtualTxs, calls, txs, txOrigins)
    }

    /** A provider whose batched coin answers are always usable. */
    ghost predicate AlwaysUsable() {
      forall call: nat, asked: seq<Outpoint> :: Usable(asked, PointOf, provider.byPoint(call, asked))
    }

    ghost predicate AlwaysUsableScripts() {
      forall call: nat, asked: seq<string> :: Usable(asked, ScriptOf, provider.byScript(call, asked))
    }

    /** Every usable answer carries this transaction where it was asked for. */
    ghost predicate AlwaysServed(id: Txid) {
      forall call: nat, asked: seq<Txid> :: id in asked ==> Serves(asked, provider.virtualTxs(call, asked), id)
    }

    method LoadCoins(wanted: seq<Outpoint>)
      requires Sourced()
      modifies this`calls, this`coins, this`resolved, this`pointOrigins
      ensures Sourced() && calls <= old(calls) + ChunkCount(|wanted|)
      ensures old(resolved) <= resolved
      ensures AlwaysUsable() ==> forall point :: point in wanted ==> point in resolved
    {
      hide CoinsSourced, TxsSourced, Answered, With, Origins, Chunk;
      var unique := Unique(wanted);
      for index := 0 to ChunkCount(|unique|)
        invariant Sourced() && calls == old(calls) + index && old(resolved) <= resolved
        invariant AlwaysUsable() ==> forall i :: 0 <= i < index * CHUNK_KEYS && i < |unique| ==> unique[i] in resolved
      {
        var group := Chunk(unique, index);
        var answer := provider.byPoint(calls, group);
        var found, usable := Group(group, PointOf, answer);
        SourcedLater(provider.byScript, ScriptOf, calls, calls + 1, byScript, resolvedScripts, scriptOrigins);
        TxsLater(provider.virtualTxs, calls, calls + 1, txs, txOrigins);
        if usable {
          EnteringKeepsSourced(provider.byPoint, PointOf, calls, coins, resolved, pointOrigins, group, found);
          pointOrigins := Origins(pointOrigins, coins, found, calls, group);
          coins := coins + found;
          resolved := resolved + (set point | point in group);
          ChunkCovers(unique, index);
        } else {
          SourcedLater(provider.byPoint, PointOf, calls, calls + 1, coins, resolved, pointOrigins);
        }
        calls := calls + 1;
      }
      ChunkCountGrows(|unique|, |wanted|);
    }

    method LoadScripts(wanted: seq<string>)
      requires Sourced()
      modifies this`calls, this`byScript, this`resolvedScripts, this`scriptOrigins
      ensures Sourced() && calls <= old(calls) + ChunkCount(|wanted|)
      ensures AlwaysUsableScripts() ==> forall script :: script in wanted ==> script in resolvedScripts
    {
      hide CoinsSourced, TxsSourced, Answered, With, Origins, Chunk;
      var unique := Unique(wanted);
      for index := 0 to ChunkCount(|unique|)
        invariant Sourced() && calls == old(calls) + index
        invariant AlwaysUsableScripts() ==>
                    forall i :: 0 <= i < index * CHUNK_KEYS && i < |unique| ==> unique[i] in resolvedScripts
      {
        var group := Chunk(unique, index);
        var answer := provider.byScript(calls, group);
        var found, usable := Group(group, ScriptOf, answer);
        SourcedLater(provider.byPoint, PointOf, calls, calls + 1, coins, resolved, pointOrigins);
        TxsLater(provider.virtualTxs, calls, calls + 1, txs, txOrigins);
        if usable {
          EnteringKeepsSourced(provider.byScript, ScriptOf, calls, byScript, resolvedScripts, scriptOrigins, group,
            found);
          scriptOrigins := Origins(scriptOrigins, byScript, found, calls, group);
          byScript := byScript + found;
          resolvedScripts := resolvedScripts + (set script | script in group);
          ChunkCovers(unique, index);
        } else {
          SourcedLater(provider.byScript, ScriptOf, calls, calls + 1, byScript, resolvedScripts, scriptOrigins);
        }
        calls := calls + 1;
      }
      ChunkCountGrows(|unique|, |wanted|);
    }

    method LoadTxs(ids: seq<Txid>)
      requires Sourced()
      modifies this`calls, this`txs, this`txOrigins
      ensures Sourced() && calls <= old(calls) + ChunkCount(|ids|)
      ensures old(txs).Keys <= txs.Keys
      ensures forall id :: id in ids && IsTxid(id) && AlwaysServed(id) ==> id in txs
    {
      hide CoinsSourced, TxsSourced, Answered, With, TxOrigins, UsableTxs, Ids, OnlyTxids, Chunk, IsTxid;
      var unique := OnlyTxids(Unique(ids));
      for index := 0 to ChunkCount(|unique|)
        invariant Sourced() && calls == old(calls) + index && old(txs).Keys <= txs.Keys
        invariant forall i :: 0 <= i < index * CHUNK_KEYS && i < |unique| && AlwaysServed(unique[i]) ==>
                  unique[i] in txs
      {
        var group := Chunk(unique, index);
        var answer := provider.virtualTxs(calls, group);
        var found, usable := GroupTxs(group, answer);
        SourcedLater(provider.byPoint, PointOf, calls, calls + 1, coins, resolved, pointOrigins);
        SourcedLater(provider.byScript, ScriptOf, calls, calls + 1, byScript, resolvedScripts, scriptOrigins);
        TxsLater(provider.virtualTxs, calls, calls + 1, txs, txOrigins);
        if usable {
          EnteringTxsKeepsSourced(provider.virtualTxs, calls, txs, txOrigins, group, found);
          txOrigins := TxOrigins(txOrigins, found, calls, group);
          txs := txs + found;
        }
        ChunkCovers(unique, index);
        calls := calls + 1;
      }
      ChunkCountGrows(|unique|, |ids|);
    }

    /** `parse`: the cached transaction, where there is one. */
    function Parse(id: Option<Txid>): Option<Tx>
      reads this
    {
      if id.Some? && id.value in txs then txs[id.value].decoded else None
    }

    /** The ledger's transaction of this id is cached, if a scan can ask for it at all. */
    ghost predicate HasTx(ledger: Ledger, id: Option<Txid>)
      reads this
    {
      Fetchable(ledger, id) ==> id.value in txs
    }

    /** What a two-input spend was funded by is cached: the checkpoint at input 1, and its own coin. */
    ghost predicate HasFunding(ledger: Ledger, arkTx: Tx)
      reads this
    {
      Fetchable(ledger, SecondInput(arkTx)) ==>
        && SecondInput(arkTx).value in txs
        && var coin := FundedBy(ledger.txs[SecondInput(arkTx).value].decoded.value);
           coin.Some? ==> coin.value in resolved
    }

    /** Both transactions of a spend are cached, and what it was funded by. */
    ghost predicate HasSpend(ledger: Ledger, coin: Coin)
      reads this
    {
      && HasTx(ledger, coin.arkTxId) && HasTx(ledger, coin.spentBy)
      && (Fetchable(ledger, coin.arkTxId) ==>
            HasFunding(ledger, ledger.txs[coin.arkTxId.value].decoded.value))
    }

    /** Everything that classifying a row with this coin reads is cached. */
    ghost predicate HasRow(ledger: Ledger, coin: Coin, renewable: bool)
      reads this
    {
      && (renewable && Renewed(coin) ==> coin.script in resolvedScripts)
      && (coin.isSpent ==> HasSpend(ledger, coin))
    }

    /** Of the coins wave A found, the renewed ones' scripts and the spent ones. */
    method FollowUps(outpoints: seq<Outpoint>, renewable: set<Outpoint>)
      returns (scripts: seq<string>, spent: seq<Coin>)
      ensures |scripts| <= |outpoints| && |spent| <= |outpoints|
      ensures forall o, c :: o in outpoints && HitsIn(coins, o) == [c] ==>
                (o in renewable && Renewed(c) ==> c.script in scripts) && (c.isSpent ==> c in spent)
    {
      scripts, spent := [], [];
      for i := 0 to |outpoints|
        invariant |scripts| <= i && |spent| <= i
        invariant forall k, c :: 0 <= k < i && HitsIn(coins, outpoints[k]) == [c] ==>
                    (outpoints[k] in renewable && Renewed(c) ==> c.script in scripts) && (c.isSpent ==> c in spent)
      {
        var hits := HitsIn(coins, outpoints[i]);
        if outpoints[i] in renewable && |hits| == 1 && Renewed(hits[0]) { scripts := scripts + [hits[0].script]; }
        if |hits| == 1 && hits[0].isSpent { spent := spent + [hits[0]]; }
      }
    }

    /** The transactions at input 1 of the two-input spends. */
    method Checkpoints(spent: seq<Coin>) returns (checkpoints: seq<Txid>)
      ensures |checkpoints| <= |spent|
      ensures forall c :: c in spent && Parse(c.arkTxId).Some? && SecondInput(Parse(c.arkTxId).value).Some? ==>
                SecondInput(Parse(c.arkTxId).value).value in checkpoints
    {
      checkpoints := [];
      for i := 0 to |spent|
        invariant |checkpoints| <= i
        invariant forall k :: 0 <= k < i && Parse(spent[k].arkTxId).Some?
                              && SecondInput(Parse(spent[k].arkTxId).value).Some? ==>
                    SecondInput(Parse(spent[k].arkTxId).value).value in checkpoints
      {
        var arkTx := Parse(spent[i].arkTxId);
        if arkTx.Some? && |arkTx.value.inputs| == 2 && arkTx.value.inputs[1].txid.Some? {
          checkpoints := checkpoints + [arkTx.value.inputs[1].txid.value];
        }
      }
    }

    /** The coins those checkpoints spend. */
    method FundingCoins(checkpoints: seq<Txid>) returns (funding: seq<Outpoint>)
      ensures |funding| <= |checkpoints|
      ensures forall id :: id in checkpoints && Parse(Some(id)).Some? && FundedBy(Parse(Some(id)).value).Some? ==>
                FundedBy(Parse(Some(id)).value).value in funding
    {
      funding := [];
      for i := 0 to |checkpoints|
        invariant |funding| <= i
        invariant forall k :: 0 <= k < i && Parse(Some(checkpoints[k])).Some?
                              && FundedBy(Parse(Some(checkpoints[k])).value).Some? ==>
                    FundedBy(Parse(Some(checkpoints[k])).value).value in funding
      {
        var checkpoint := Parse(Some(checkpoints[i]));
        if checkpoint.Some? && |checkpoint.value.inputs| > 0 {
          var input := checkpoint.value.inputs[0];
          if input.index.Some? && input.txid.Some? {
            funding := funding + [Outpoint(input.txid.value, input.index.value)];
          }
        }
      }
    }

    /** The transactions cached are the ledger's. */
    ghost predicate TxsAreLedgers(ledger: Ledger)
      reads this
    {
      forall id :: id in txs ==> Readable(ledger, id) && txs[id] == ledger.txs[id]
    }

    /** `loadTxs` on a scan's ids: with an honest provider each transaction the ledger has is then cached. */
    method LoadLedgerTxs(ids: seq<Txid>, ghost ledger: Ledger)
      requires Sourced()
      modifies this`calls, this`txs, this`txOrigins
      ensures Sourced() && calls <= old(calls) + ChunkCount(|ids|) && old(txs).Keys <= txs.Keys
      ensures Honest(provider, ledger) ==>
                TxsAreLedgers(ledger) && forall id :: id in ids ==> HasTx(ledger, Some(id))
    {
      hide CoinsSourced, TxsSourced, Honest, IsTxid, ChunkCount, UsableTxs, Ids, Serves;
      LoadTxs(ids);
      if Honest(provider, ledger) {
        HonestIsUsable(provider, ledger);
        HonestTransactions(provider, ledger, calls, txs, txOrigins);
      }
    }

    /** The last three waves: both transactions of each spend, its second checkpoint, and that one's coin. */
    method LoadSpends(spent: seq<Coin>, ghost ledger: Ledger)
      requires Sourced()
      modifies this`calls, this`coins, this`resolved, this`pointOrigins, this`txs, this`txOrigins
      ensures Sourced() && old(resolved) <= resolved
      ensures calls <= old(calls) + ChunkCount(2 * |spent|) + 2 * ChunkCount(|spent|)
      ensures Honest(provider, ledger) ==> forall c :: c in spent ==> HasSpend(ledger, c)
    {
      hide CoinsSourced, TxsSourced, Honest, With, IsTxid, ChunkCount, Usable;
      ghost var honest := Honest(provider, ledger);
      if honest { HonestIsUsable(provider, ledger); }
      var ids: seq<Txid> := [];
      for i := 0 to |spent|
        invariant |ids| == 2 * i
        invariant forall k :: 0 <= k < i ==> OrEmpty(spent[k].arkTxId) in ids && OrEmpty(spent[k].spentBy) in ids
      {
        ids := ids + [OrEmpty(spent[i].arkTxId), OrEmpty(spent[i].spentBy)];
      }
      LoadLedgerTxs(ids, ledger);
      var checkpoints := Checkpoints(spent);
      LoadLedgerTxs(checkpoints, ledger);
      var funding := FundingCoins(checkpoints);
      LoadCoins(funding);
      ChunkCountGrows(|checkpoints|, |spent|);
      ChunkCountGrows(|funding|, |spent|);
    }

    /**
     * The five waves of one scan. Whatever the provider answers, the calls stay within the bound. A provider
     * that answers honestly leaves nothing to be read row by row: all coins are resolved, and so is all that
     * classifying each row goes on to read.
     */
    method Fill(outpoints: seq<Outpoint>, coinOnly: seq<Outpoint>, renewable: set<Outpoint>, ghost ledger: Ledger)
      requires Sourced()
      modifies this
      ensures Sourced()
      ensures calls <= old(calls) + ChunkCount(|outpoints| + |coinOnly|) + ChunkCount(2 * |outpoints|)
                       + 3 * ChunkCount(|outpoints|)
      ensures AlwaysUsable() ==> forall point :: point in outpoints || point in coinOnly ==> point in resolved
      ensures Honest(provider, ledger) ==>
                forall o, c :: o in outpoints && With(ledger.coins, PointOf, o) == [c] ==>
                  HasRow(ledger, c, o in renewable)
    {
      hide CoinsSourced, TxsSourced, Honest, With, ChunkCount, Renewed, HasSpend, Usable;
      ghost var honest := Honest(provider, ledger);
      if honest { HonestIsUsable(provider, ledger); }
      LoadCoins(outpoints + coinOnly);
      var scripts, spent := FollowUps(outpoints, renewable);
      if honest {
        forall o, c | o in outpoints && With(ledger.coins, PointOf, o) == [c] ensures HitsIn(coins, o) == [c] {
          HonestHits(provider, ledger, calls, coins, resolved, pointOrigins, o, c);
        }
      }
      LoadScripts(scripts);
      LoadSpends(spent, ledger);
      ChunkCountGrows(|scripts|, |outpoints|);
      ChunkCountGrows(2 * |spent|, 2 * |outpoints|);
      ChunkCountGrows(|spent|, |outpoints|);
    }
  }

  lemma HonestIsUsable(provider: Provider, ledger: Ledger)
    requires Honest(provider, ledger)
    ensures forall call: nat, asked: seq<Outpoint> :: Usable(asked, PointOf, provider.byPoint(call, asked))
    ensures forall call: nat, asked: seq<string> :: Usable(asked, ScriptOf, provider.byScript(call, asked))
    ensures forall id, call: nat, asked: seq<Txid> :: Readable(ledger, id) && id in asked ==>
              Serves(asked, provider.virtualTxs(call, asked), id)
  {
    forall call: nat, asked: seq<Outpoint> ensures Usable(asked, PointOf, provider.byPoint(call, asked)) {
      assert HonestCoins(ledger, PointOf, asked, provider.byPoint(call, asked));
    }
    forall call: nat, asked: seq<string> ensures Usable(asked, ScriptOf, provider.byScript(call, asked)) {
      assert HonestCoins(ledger, ScriptOf, asked, provider.byScript(call, asked));
    }
    forall id, call: nat, asked: seq<Txid> | Readable(ledger, id) && id in asked
      ensures Serves(asked, provider.virtualTxs(call, asked), id)
    {
      HonestServes(ledger, asked, provider.virtualTxs(call, asked), id);
    }
  }

  lemma HonestServes(ledger: Ledger, asked: seq<Txid>, answer: Option<seq<Psbt>>, id: Txid)
    requires ledger.Valid() && HonestTxs(ledger, asked, answer) && id in asked && Readable(ledger, id)
    ensures Serves(asked, answer, id)
  {
    UsableTxsMeans(asked, answer.value);
    IdsMean(answer.value, id);
    hide UsableTxs, Ids;
  }

  /** A resolved outpoint with one coin in the ledger is cached with that coin. */
  lemma HonestHits(
    provider: Provider, ledger: Ledger, calls: nat, hits: map<Outpoint, seq<Coin>>, resolved: set<Outpoint>,
    origins: map<Outpoint, (nat, seq<Outpoint>)>, point: Outpoint, c: Coin)
    requires Honest(provider, ledger) && CoinsSourced(provider.byPoint, PointOf, calls, hits, resolved, origins)
    requires point in resolved && With(ledger.coins, PointOf, point) == [c]
    ensures HitsIn(hits, point) == [c]
  {
    hide With;
    var (call, asked) := origins[point];
    assert Answered(provider.byPoint, PointOf, calls, HitsIn(hits, point), point, origins[point]);
    assert HonestCoins(ledger, PointOf, asked, provider.byPoint(call, asked));
    var found := With(provider.byPoint(call, asked).value, PointOf, point);
    assert multiset(found) == multiset([c]);
    assert |multiset(found)| == |found|;
    assert found[0] in multiset(found);
  }

  /** Every cached transaction is the ledger's. */
  lemma HonestTransactions(
    provider: Provider, ledger: Ledger, calls: nat, txs: map<Txid, Psbt>, origins: map<Txid, (nat, seq<Txid>)>)
    requires Honest(provider, ledger) && TxsSourced(provider.virtualTxs, calls, txs, origins)
    ensures forall id :: id in txs ==> Readable(ledger, id) && txs[id] == ledger.txs[id]
  {
    forall id | id in txs ensures Readable(ledger, id) && txs[id] == ledger.txs[id] {
      var (call, asked) := origins[id];
      assert HonestTxs(ledger, asked, provider.virtualTxs(call, asked));
    }
  }

  lemma ChunkCovers<T>(items: seq<T>, index: nat)
    requires index < ChunkCount(|items|)
    ensures forall i :: index * CHUNK_KEYS <= i < (index + 1) * CHUNK_KEYS && i < |items| ==>
            items[i] in Chunk(items, index)
  {
    forall i | index * CHUNK_KEYS <= i < (index + 1) * CHUNK_KEYS && i < |items|
      ensures items[i] in Chunk(items, index)
    {
      assert Chunk(items, index)[i - index * CHUNK_KEYS] == items[i];
    }
  }

  lemma ChunkCountGrows(a: nat, b: nat)
    requires a <= b
    ensures ChunkCount(a) <= ChunkCount(b)
  {
  }

  lemma TxsLater(
    answers: (nat, seq<Txid>) -> Option<seq<Psbt>>, calls: nat, later: nat, txs: map<Txid, Psbt>,
    origins: map<Txid, (nat, seq<Txid>)>)
    requires calls <= later && TxsSourced(answers, calls, txs, origins)
    ensures TxsSourced(answers, later, txs, origins)
  {
  }

  lemma EnteringTxsKeepsSourced(
    answers: (nat, seq<Txid>) -> Option<seq<Psbt>>, call: nat, txs: map<Txid, Psbt>,
    origins: map<Txid, (nat, seq<Txid>)>,
    group: seq<Txid>, found: map<Txid, Psbt>)
    requires TxsSourced(answers, call, txs, origins)
    requires answers(call, group).Some? && UsableTxs(group, answers(call, group).value)
    requires forall id :: id in found ==>
      id in group && found[id] in answers(call, group).value && found[id].decoded.Some?
        && found[id].decoded.value.id == id
    ensures TxsSourced(answers, call + 1, txs + found, TxOrigins(origins, found, call, group))
  {
  }

  lemma WithNone<K(!new)>(keyOf: Coin -> K)
    ensures forall key :: With([], keyOf, key) == []
  {
  }

  lemma WithOneMore<K(!new)>(coins: seq<Coin>, coin: Coin, keyOf: Coin -> K)
    ensures forall key :: With(coins + [coin], keyOf, key)
                          == With(coins, keyOf, key) + (if keyOf(coin) == key then [coin] else [])
  {
    var next := coins + [coin];
    assert next[..|next| - 1] == coins && next[|next| - 1] == coin;
  }

  method Group<K(==, !new)>(group: seq<K>, keyOf: Coin -> K, answer: Option<seq<Coin>>)
    returns (found: map<K, seq<Coin>>, usable: bool)
    ensures usable == Usable(group, keyOf, answer)
    ensures usable ==> forall key :: key in found ==> key in group
    ensures usable ==> forall key :: HitsIn(found, key) == With(answer.value, keyOf, key)
  {
    hide With;
    found, usable := map[], true;
    if answer.None? { return map[], false; }
    var coins := answer.value;
    WithNone(keyOf);
    for i := 0 to |coins|
      invariant usable == forall c :: c in coins[..i] ==> keyOf(c) in group
      invariant forall key :: key in found ==> key in group
      invariant usable ==> forall key :: HitsIn(found, key) == With(coins[..i], keyOf, key)
    {
      var coin := coins[i];
      var key := keyOf(coin);
      ghost var next := coins[..i + 1];
      WithOneMore(coins[..i], coin, keyOf);
      assert next == coins[..i] + [coin];
      if key !in group {
        usable := false;
      } else {
        found := found[key := HitsIn(found, key) + [coin]];
      }
    }
    assert coins[..|coins|] == coins;
  }

  method GroupTxs(group: seq<Txid>, answer: Option<seq<Psbt>>) returns (found: map<Txid, Psbt>, usable: bool)
    ensures usable == (answer.Some? && UsableTxs(group, answer.value))
    ensures usable ==> found.Keys == Ids(answer.value)
    ensures usable ==> forall id :: id in found ==>
      id in group && found[id] in answer.value && found[id].decoded.Some? && found[id].decoded.value.id == id
  {
    found, usable := map[], true;
    if answer.None? { return map[], false; }
    var all := answer.value;
    for i := 0 to |all|
      invariant usable == UsableTxs(group, all[..i])
      invariant usable ==> found.Keys == Ids(all[..i])
      invariant forall id :: id in found ==>
        id in group && found[id] in all && found[id].decoded.Some? && found[id].decoded.value.id == id
    {
      var encoded := all[i];
      ghost var next := all[..i + 1];
      assert next[..i] == all[..i] && next[i] == encoded;
      if encoded.decoded.Some? {
        var id := encoded.decoded.value.id;
        if id !in group || id in found {
          usable := false;
        } else {
          found := found[id := encoded];
        }
      }
    }
    assert all[..|all|] == all;
  }
}
