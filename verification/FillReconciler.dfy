// packages/app/src/fillReconciler.ts: what one reconcile pass concludes from ledger
// reads, the marks it keeps in memory, and the status it reports. The fill row and its
// compare-and-set updates follow packages/db/src/fills.ts.
module FillReconciler {
  import opened Prelude
  import opened Assets

  type Id = string

  datatype Point = Point(txid: Id, vout: nat)

  /** One Ark input: the coin it moves, through a checkpoint of its own. */
  datatype GraphInput = GraphInput(point: Point, checkpoint: Id, taxi: bool)

  datatype GraphOutput = GraphOutput(vout: nat, script: string, sats: nat, assets: seq<Holding>)

  datatype Graph = Graph(
    txid: Id, inputs: seq<GraphInput>, outputs: seq<GraphOutput>,
    covenantVout: nat, operatorScript: string)

  datatype FillState = Submitting | Settled | Expired | Cancelled

  datatype Fill = Fill(
    id: Id,
    quoteId: Id,
    locktime: nat,   // the quoted covenant's; its leaf is part of the graph
    graph: Graph,
    state: FillState,
    submitInvoked: bool,
    leaseToken: Option<Id>,
    leaseUntil: Option<nat>,
    nextAttemptAt: Option<nat>,
    updatedAt: nat,
    expiresAt: nat,
    txid: Option<Id>,
    spentTxid: Option<Id>)

  // ------------------------------------------------------------ first read

  /** A coin as the indexer reports it; ids that are not transaction ids are already dropped. */
  datatype CoinView = CoinView(isSpent: bool, arkTxId: Option<Id>, spentBy: Option<Id>)

  type View = map<Point, CoinView>

  /** `spenders`. */
  function Hints(coin: CoinView): seq<Id> {
    (if coin.arkTxId.Some? then [coin.arkTxId.value] else [])
    + (if coin.spentBy.Some? then [coin.spentBy.value] else [])
  }

  predicate IsOwn(graph: Graph, input: GraphInput, id: Id) {
    id == graph.txid || id == input.checkpoint
  }

  function FirstForeign(graph: Graph, input: GraphInput, ids: seq<Id>): (r: Option<Id>)
    ensures r.Some? ==> r.value in ids && !IsOwn(graph, input, r.value)
    ensures r.None? ==> forall id :: id in ids ==> IsOwn(graph, input, id)
  {
    if ids == [] then None
    else if !IsOwn(graph, input, ids[0]) then Some(ids[0])
    else FirstForeign(graph, input, ids[1..])
  }

  datatype Observation = Observation(
    taxi: bool, seen: bool, own: bool, ownHint: bool, unknownSpend: bool, conflict: Option<Id>)

  function Observe(graph: Graph, input: GraphInput, view: View): Observation {
    var hints := if input.point in view then Hints(view[input.point]) else [];
    var isSpent := input.point in view && view[input.point].isSpent;
    var ids := if isSpent then hints else [];
    Observation(
      input.taxi,
      input.point in view,
      exists id :: id in ids && IsOwn(graph, input, id),
      exists id :: id in hints && IsOwn(graph, input, id),
      isSpent && ids == [],
      FirstForeign(graph, input, ids))
  }

  function Observations(graph: Graph, view: View): (obs: seq<Observation>)
    ensures |obs| == |graph.inputs|
    ensures forall i :: 0 <= i < |obs| ==> obs[i] == Observe(graph, graph.inputs[i], view)
  {
    seq(|graph.inputs|, i requires 0 <= i < |graph.inputs| => Observe(graph, graph.inputs[i], view))
  }

  datatype Verdict =
    | Unexpected
    | Cancel(spentTxid: Option<Id>)
    | Proceed(everySeen: bool, taxiSpent: bool)

  predicate OwnsAnySpend(obs: seq<Observation>) { exists i :: 0 <= i < |obs| && obs[i].own }

  predicate HintsWithoutSpend(obs: seq<Observation>) { exists i :: 0 <= i < |obs| && obs[i].ownHint && !obs[i].own }

  predicate HasUnknownSpend(obs: seq<Observation>) { exists i :: 0 <= i < |obs| && obs[i].unknownSpend }

  predicate EverySeen(obs: seq<Observation>) { forall i :: 0 <= i < |obs| ==> obs[i].seen }

  predicate TaxiSpent(obs: seq<Observation>) { forall i :: 0 <= i < |obs| && obs[i].taxi ==> obs[i].own }

  predicate HasConflict(obs: seq<Observation>) { exists i :: 0 <= i < |obs| && obs[i].conflict.Some? }

  function FirstConflict(obs: seq<Observation>): (r: Option<Id>)
    ensures r.Some? <==> HasConflict(obs)
    ensures r.Some? ==> exists i :: 0 <= i < |obs| && obs[i].conflict == r
  {
    if obs == [] then None
    else if obs[0].conflict.Some? then obs[0].conflict
    else
      var r := FirstConflict(obs[1..]);
      assert HasConflict(obs[1..]) ==> HasConflict(obs) by {
        if HasConflict(obs[1..]) {
          var i :| 0 <= i < |obs[1..]| && obs[1..][i].conflict.Some?;
          assert obs[i + 1].conflict.Some?;
        }
      }
      assert HasConflict(obs) ==> HasConflict(obs[1..]) by {
        if HasConflict(obs) { var i :| 0 <= i < |obs| && obs[i].conflict.Some?; assert obs[1..][i - 1].conflict.Some?; }
      }
      assert r.Some? ==> exists i :: 0 <= i < |obs| && obs[i].conflict == r by {
        if r.Some? { var i :| 0 <= i < |obs[1..]| && obs[1..][i].conflict == r; assert obs[i + 1].conflict == r; }
      }
      r
  }

  /** What `reconcile` concludes from its read of the input coins. */
  function FirstRead(submitInvoked: bool, obs: seq<Observation>): Verdict {
    if HintsWithoutSpend(obs) then Unexpected
    else if HasUnknownSpend(obs) then Unexpected
    else if !submitInvoked then
      if OwnsAnySpend(obs) then Unexpected else Cancel(None)
    else if HasConflict(obs) then
      if OwnsAnySpend(obs) then Unexpected else Cancel(FirstConflict(obs))
    else
      Proceed(EverySeen(obs), TaxiSpent(obs))
  }

  /** A read that saw every input, with no conflicting or unidentified spend. */
  predicate Clean(obs: seq<Observation>) {
    forall i :: 0 <= i < |obs| ==> obs[i].seen && obs[i].conflict.None? && !obs[i].unknownSpend
  }

  /** Mixed evidence: the graph's own transaction and another one both appear as spenders. */
  predicate Mixed(obs: seq<Observation>) { OwnsAnySpend(obs) && HasConflict(obs) }

  /** Own and foreign spend evidence together never cancel and never proceed to settlement. */
  lemma MixedEvidenceIsNeverResolved(submitInvoked: bool, obs: seq<Observation>)
    requires Mixed(obs)
    ensures FirstRead(submitInvoked, obs) == Unexpected
  {
  }

  // ----------------------------------------------------------- second read

  datatype OutputCoin = OutputCoin(point: Point, script: string, sats: nat, assets: seq<Holding>)

  /** `outputMatches`: the same coin, with the same asset ids and the same units of each. */
  ghost predicate OutputMatches(coin: OutputCoin, txid: Id, output: GraphOutput) {
    && coin.point == Point(txid, output.vout)
    && coin.script == output.script
    && coin.sats == output.sats
    && forall id :: (Names(coin.assets, id) <==> Names(output.assets, id))
                    && UnitsOf(coin.assets, id) == UnitsOf(output.assets, id)
  }

  method CheckOutput(coin: OutputCoin, txid: Id, output: GraphOutput) returns (matches: bool)
    ensures matches == OutputMatches(coin, txid, output)
  {
    var got := Totals(coin.assets);
    var want := Totals(output.assets);
    forall id | !Names(coin.assets, id) ensures UnitsOf(coin.assets, id) == 0 { UnnamedHasNone(coin.assets, id); }
    forall id | !Names(output.assets, id) ensures UnitsOf(output.assets, id) == 0 { UnnamedHasNone(output.assets, id); }
    if got == want {
      assert forall id :: id in got <==> id in want;
    } else if got.Keys == want.Keys {
      var id :| id in got && got[id] != want[id];
    }
    matches :=
      coin.point == Point(txid, output.vout) && coin.script == output.script && coin.sats == output.sats && got == want;
  }

  /** The covenant output, then every other output that pays the operator. */
  function Expected(graph: Graph): seq<GraphOutput> {
    var covenant := CovenantOutputs(graph, graph.outputs);
    if covenant == [] then [] else [covenant[0]] + OperatorOutputs(graph, graph.outputs)
  }

  function CovenantOutputs(graph: Graph, outputs: seq<GraphOutput>): (r: seq<GraphOutput>)
    ensures forall o :: o in r ==> o in outputs && o.vout == graph.covenantVout
  {
    if outputs == [] then []
    else (if outputs[0].vout == graph.covenantVout then [outputs[0]] else [])
         + CovenantOutputs(graph, outputs[1..])
  }

  function OperatorOutputs(graph: Graph, outputs: seq<GraphOutput>): (r: seq<GraphOutput>)
    ensures forall o :: o in r ==> o in outputs && o.vout != graph.covenantVout && o.script == graph.operatorScript
  {
    if outputs == [] then []
    else
      var paid := outputs[0].vout != graph.covenantVout && outputs[0].script == graph.operatorScript;
      (if paid then [outputs[0]] else []) + OperatorOutputs(graph, outputs[1..])
  }

  ghost predicate SecondRead(graph: Graph, coins: map<Point, OutputCoin>) {
    && Expected(graph) != []
    && forall o :: o in Expected(graph) ==>
         Point(graph.txid, o.vout) in coins && OutputMatches(coins[Point(graph.txid, o.vout)], graph.txid, o)
  }

  // ------------------------------------------------- compare-and-set on rows

  predicate LeaseOver(fill: Fill, now: nat) { fill.leaseUntil.None? || fill.leaseUntil.value <= now }

  /** `#matches`: the row is still the one that was read, and its lease is over. */
  predicate Matches(row: Fill, snapshot: Fill, now: nat) {
    && row.state == Submitting
    && row.submitInvoked == snapshot.submitInvoked
    && row.leaseToken == snapshot.leaseToken
    && row.leaseUntil == snapshot.leaseUntil
    && row.updatedAt == snapshot.updatedAt
    && LeaseOver(row, now)
  }

  function Max(a: nat, b: nat): nat { if a < b then b else a }

  function Terminated(row: Fill, state: FillState, now: nat): Fill {
    row.(state := state, leaseToken := None, leaseUntil := None, nextAttemptAt := None,
         updatedAt := Max(row.updatedAt, now))
  }

  /** `reconcileCancelled`, with the row unchanged where it returns false. */
  function ReconcileCancelled(row: Fill, snapshot: Fill, spent: Option<Id>, now: nat): Fill {
    if !Matches(row, snapshot, now) then row
    else if snapshot.submitInvoked && spent.None? then row
    else Terminated(row, Cancelled, now).(spentTxid := spent)
  }

  /** `reconcileSettled`. */
  function ReconcileSettled(row: Fill, snapshot: Fill, txid: Id, now: nat): Fill {
    if !snapshot.submitInvoked || !Matches(row, snapshot, now) then row
    else Terminated(row, Settled, now).(txid := Some(txid))
  }

  // ----------------------------------------------------------------- marks

  datatype Marks = Marks(unexpected: set<Id>, quarantined: set<Id>)

  /** The pass starts by forgetting what an earlier read saw. */
  function Restarted(marks: Marks, id: Id): Marks { marks.(quarantined := marks.quarantined - {id}) }

  function Judged(marks: Marks, id: Id, verdict: Verdict): Marks {
    match verdict
    case Unexpected => marks.(unexpected := marks.unexpected + {id})
    case Cancel(_) => marks
    case Proceed(everySeen, _) => if everySeen then marks.(quarantined := marks.quarantined + {id}) else marks
  }

  function Pruned(marks: Marks, active: set<Id>): Marks {
    Marks(marks.unexpected * active, marks.quarantined * active)
  }

  /** The closure state of `createFillReconciler`. */
  class Reconciler {
    var unexpected: set<Id>
    var quarantineObserved: set<Id>
    var lastTickAt: Option<nat>

    constructor ()
      ensures Current() == Marks({}, {}) && lastTickAt == None
    {
      unexpected, quarantineObserved, lastTickAt := {}, {}, None;
    }

    function Current(): Marks
      reads this
    {
      Marks(unexpected, quarantineObserved)
    }

    /** Whether `reconcile` goes on to read the ledger for this row. */
    method Begin(fill: Fill, linked: bool, now: nat) returns (goesOn: bool)
      modifies this
      ensures goesOn == (fill.state == Submitting && LeaseOver(fill, now) && linked)
      ensures Current() == if fill.state == Submitting && LeaseOver(fill, now)
                           then Restarted(old(Current()), fill.id) else old(Current())
      ensures lastTickAt == old(lastTickAt)
    {
      if fill.state != Submitting || (fill.leaseUntil.Some? && fill.leaseUntil.value > now) {
        return false;
      }
      quarantineObserved := quarantineObserved - {fill.id};
      return linked;
    }

    /** The first response, handled up to the next await. */
    method OnInputs(fill: Fill, view: View) returns (verdict: Verdict)
      modifies this
      ensures verdict == FirstRead(fill.submitInvoked, Observations(fill.graph, view))
      ensures Current() == Judged(old(Current()), fill.id, verdict)
      ensures lastTickAt == old(lastTickAt)
    {
      var own, ownHintOnly, unknown, everySeen, taxiSpent := false, false, false, true, true;
      var conflict: Option<Id> := None;
      ghost var obs := Observations(fill.graph, view);
      for i := 0 to |fill.graph.inputs|
        invariant own == OwnsAnySpend(obs[..i]) && ownHintOnly == HintsWithoutSpend(obs[..i])
        invariant unknown == HasUnknownSpend(obs[..i])
        invariant everySeen == EverySeen(obs[..i]) && taxiSpent == TaxiSpent(obs[..i])
        invariant conflict == FirstConflict(obs[..i])
        invariant Current() == old(Current()) && lastTickAt == old(lastTickAt)
      {
        var o := Observe(fill.graph, fill.graph.inputs[i], view);
        OneMore(obs[..i], o);
        assert obs[..i + 1] == obs[..i] + [o];
        own := own || o.own;
        ownHintOnly := ownHintOnly || (o.ownHint && !o.own);
        unknown := unknown || o.unknownSpend;
        everySeen := everySeen && o.seen;
        taxiSpent := taxiSpent && (o.taxi ==> o.own);
        if conflict.None? { conflict := o.conflict; }
      }
      assert obs[..|obs|] == obs;
      if ownHintOnly || unknown {
        verdict := Unexpected;
      } else if !fill.submitInvoked {
        verdict := if own then Unexpected else Cancel(None);
      } else if conflict.Some? {
        verdict := if own then Unexpected else Cancel(conflict);
      } else {
        verdict := Proceed(everySeen, taxiSpent);
      }
      if verdict.Unexpected? {
        unexpected := unexpected + {fill.id};
      } else if verdict.Proceed? && everySeen {
        quarantineObserved := quarantineObserved + {fill.id};
      }
    }

    /** The end of a tick: marks of fills that are no longer submitting are dropped. */
    method EndTick(active: set<Id>, now: nat)
      modifies this
      ensures Current() == Pruned(old(Current()), active)
      ensures lastTickAt == Some(now)
    {
      var rest := unexpected;
      while rest != {}
        invariant rest <= old(unexpected)
        invariant unexpected == rest + old(unexpected) * active
        invariant quarantineObserved == old(quarantineObserved)
        decreases rest
      {
        var id :| id in rest;
        if id !in active { unexpected := unexpected - {id}; }
        rest := rest - {id};
      }
      rest := quarantineObserved;
      while rest != {}
        invariant rest <= old(quarantineObserved)
        invariant quarantineObserved == rest + old(quarantineObserved) * active
        invariant unexpected == old(unexpected) * active
        decreases rest
      {
        var id :| id in rest;
        if id !in active { quarantineObserved := quarantineObserved - {id}; }
        rest := rest - {id};
      }
      lastTickAt := Some(now);
    }
  }

  /** Each summary of the observations, one observation further. */
  lemma OneMore(obs: seq<Observation>, o: Observation)
    ensures OwnsAnySpend(obs + [o]) == (OwnsAnySpend(obs) || o.own)
    ensures HintsWithoutSpend(obs + [o]) == (HintsWithoutSpend(obs) || (o.ownHint && !o.own))
    ensures HasUnknownSpend(obs + [o]) == (HasUnknownSpend(obs) || o.unknownSpend)
    ensures EverySeen(obs + [o]) == (EverySeen(obs) && o.seen)
    ensures TaxiSpent(obs + [o]) == (TaxiSpent(obs) && (o.taxi ==> o.own))
    ensures FirstConflict(obs + [o]) == if FirstConflict(obs).Some? then FirstConflict(obs) else o.conflict
  {
    var all := obs + [o];
    assert all[|obs|] == o && forall i :: 0 <= i < |obs| ==> all[i] == obs[i];
    FirstConflictSnoc(obs, o);
  }

  lemma {:induction false} FirstConflictSnoc(obs: seq<Observation>, o: Observation)
    ensures FirstConflict(obs + [o]) == if FirstConflict(obs).Some? then FirstConflict(obs) else o.conflict
  {
    if obs == [] {
      assert obs + [o] == [o] && [o][1..] == [];
    } else {
      assert (obs + [o])[1..] == obs[1..] + [o];
      FirstConflictSnoc(obs[1..], o);
    }
  }
}
