// When a reconcile pass cancels, settles, marks or waits, said on what the ledger reads report:
// the ids at each coin, the row that was read, and the coins indexed for the graph's outputs.
module FillOutcomes {
  import opened Prelude
  import opened Assets
  import opened FillReconciler
  import opened FillProtocol
  import opened FillSafety

  // ------------------------------------------------------- what a read reports

  /** Either id of the coin at this point is `id`, spent or not. */
  predicate Reports(view: View, p: Point, id: Id) {
    p in view && (view[p].arkTxId == Some(id) || view[p].spentBy == Some(id))
  }

  predicate OwnId(graph: Graph, i: nat, id: Id)
    requires i < |graph.inputs|
  {
    id == graph.txid || id == graph.inputs[i].checkpoint
  }

  ghost predicate SpentByOwn(graph: Graph, view: View, i: nat)
    requires i < |graph.inputs|
  {
    var p := graph.inputs[i].point;
    p in view && view[p].isSpent && exists id :: Reports(view, p, id) && OwnId(graph, i, id)
  }

  /** Spent through `id`, which is neither the graph's transaction nor this input's checkpoint. */
  predicate SpentByOther(graph: Graph, view: View, i: nat, id: Id)
    requires i < |graph.inputs|
  {
    var p := graph.inputs[i].point;
    p in view && view[p].isSpent && Reports(view, p, id) && !OwnId(graph, i, id)
  }

  ghost predicate AnySpentByOwn(graph: Graph, view: View) {
    exists i :: 0 <= i < |graph.inputs| && SpentByOwn(graph, view, i)
  }

  ghost predicate AnySpentByOther(graph: Graph, view: View) {
    exists i :: 0 <= i < |graph.inputs| && OtherAt(graph, view, i)
  }

  ghost predicate OtherAt(graph: Graph, view: View, i: nat)
    requires i < |graph.inputs|
  {
    exists id :: SpentByOther(graph, view, i, id)
  }

  /** An own id at a coin that is not reported spent. */
  ghost predicate AnyOwnUnspent(graph: Graph, view: View) {
    exists i :: 0 <= i < |graph.inputs| && OwnUnspentAt(graph, view, i)
  }

  ghost predicate OwnUnspentAt(graph: Graph, view: View, i: nat)
    requires i < |graph.inputs|
  {
    var p := graph.inputs[i].point;
    p in view && !view[p].isSpent && exists id :: Reports(view, p, id) && OwnId(graph, i, id)
  }

  /** `id` is another's, and some input is spent through it. */
  ghost predicate SpendsSome(graph: Graph, view: View, id: Id) {
    exists i :: 0 <= i < |graph.inputs| && SpentByOther(graph, view, i, id)
  }

  /** A coin reported spent without any id. */
  predicate AnySpentByNobody(graph: Graph, view: View) {
    exists i :: 0 <= i < |graph.inputs| && SpentByNobody(view, graph.inputs[i].point)
  }

  predicate SpentByNobody(view: View, p: Point) {
    p in view && view[p].isSpent && view[p].arkTxId.None? && view[p].spentBy.None?
  }

  ghost predicate TaxiInputsSpentByOwn(graph: Graph, view: View) {
    forall i :: 0 <= i < |graph.inputs| && graph.inputs[i].taxi ==> SpentByOwn(graph, view, i)
  }

  predicate AllReported(graph: Graph, view: View) {
    forall i :: 0 <= i < |graph.inputs| ==> graph.inputs[i].point in view
  }

  /** The row is the one that was read, field by field, and its lease is over. */
  predicate StillAsRead(row: Fill, snapshot: Fill, now: nat) {
    && row.state == Submitting && row.submitInvoked == snapshot.submitInvoked
    && row.leaseToken == snapshot.leaseToken && row.leaseUntil == snapshot.leaseUntil
    && row.updatedAt == snapshot.updatedAt
    && (row.leaseUntil.Some? ==> row.leaseUntil.value <= now)
  }

  // ------------------------------------------------------- observations mean it

  lemma ObservedInput(graph: Graph, view: View, i: nat)
    requires i < |graph.inputs|
    ensures var o := Observations(graph, view)[i];
            && o.taxi == graph.inputs[i].taxi && o.seen == (graph.inputs[i].point in view)
            && (o.own <==> SpentByOwn(graph, view, i))
            && (o.ownHint && !o.own <==> OwnUnspentAt(graph, view, i))
            && (o.unknownSpend <==> SpentByNobody(view, graph.inputs[i].point))
            && (o.conflict.Some? <==> OtherAt(graph, view, i))
            && (o.conflict.Some? ==> SpentByOther(graph, view, i, o.conflict.value))
  {
    var p := graph.inputs[i].point;
    if p in view {
      var hints := Hints(view[p]);
      assert forall id :: id in hints <==> Reports(view, p, id);
      assert forall id :: IsOwn(graph, graph.inputs[i], id) <==> OwnId(graph, i, id);
      if view[p].isSpent {
        assert FirstForeign(graph, graph.inputs[i], hints) == Observations(graph, view)[i].conflict;
        assert OtherAt(graph, view, i) <==> exists id :: id in hints && !IsOwn(graph, graph.inputs[i], id) by {
          forall id ensures SpentByOther(graph, view, i, id) <==> id in hints && !IsOwn(graph, graph.inputs[i], id) {}
        }
      }
    }
  }

  lemma EvidenceMeans(graph: Graph, view: View)
    ensures var obs := Observations(graph, view);
            && (OwnsAnySpend(obs) <==> AnySpentByOwn(graph, view))
            && (HintsWithoutSpend(obs) <==> AnyOwnUnspent(graph, view))
            && (HasUnknownSpend(obs) <==> AnySpentByNobody(graph, view))
            && (HasConflict(obs) <==> AnySpentByOther(graph, view))
  {
    hide Observe, SpentByOwn, OtherAt, OwnUnspentAt, SpentByNobody;
    forall i | 0 <= i < |graph.inputs|
      ensures var o := Observations(graph, view)[i];
              && (o.own <==> SpentByOwn(graph, view, i))
              && (o.ownHint && !o.own <==> OwnUnspentAt(graph, view, i))
              && (o.unknownSpend <==> SpentByNobody(view, graph.inputs[i].point))
              && (o.conflict.Some? <==> OtherAt(graph, view, i))
    {
      ObservedInput(graph, view, i);
    }
  }

  lemma CoverageMeans(graph: Graph, view: View)
    ensures var obs := Observations(graph, view);
            && (TaxiSpent(obs) <==> TaxiInputsSpentByOwn(graph, view)) && (EverySeen(obs) <==> AllReported(graph, view))
  {
    hide Observe, SpentByOwn;
    forall i | 0 <= i < |graph.inputs|
      ensures var o := Observations(graph, view)[i];
              && o.taxi == graph.inputs[i].taxi && o.seen == (graph.inputs[i].point in view)
              && (o.own <==> SpentByOwn(graph, view, i))
    {
      ObservedInput(graph, view, i);
    }
  }

  lemma ConflictNames(graph: Graph, view: View)
    requires AnySpentByOther(graph, view)
    ensures FirstConflict(Observations(graph, view)).Some?
    ensures SpendsSome(graph, view, FirstConflict(Observations(graph, view)).value)
  {
    EvidenceMeans(graph, view);
    var obs := Observations(graph, view);
    var found := FirstConflict(obs);
    var i :| 0 <= i < |obs| && obs[i].conflict == found;
    ObservedInput(graph, view, i);
  }

  // ----------------------------------------------------- when the fill cancels

  /** What a first read must report for the fill to be cancelled. */
  ghost predicate Cancels(snapshot: Fill, view: View) {
    && !AnySpentByOwn(snapshot.graph, view) && !AnyOwnUnspent(snapshot.graph, view)
    && !AnySpentByNobody(snapshot.graph, view)
    && (snapshot.submitInvoked ==> AnySpentByOther(snapshot.graph, view))
  }

  /** What makes it neither cancel nor go on. */
  ghost predicate Unclear(snapshot: Fill, view: View) {
    || AnyOwnUnspent(snapshot.graph, view) || AnySpentByNobody(snapshot.graph, view)
    || (AnySpentByOwn(snapshot.graph, view) && (!snapshot.submitInvoked || AnySpentByOther(snapshot.graph, view)))
  }

  lemma VerdictMeans(snapshot: Fill, view: View)
    ensures var verdict := FirstRead(snapshot.submitInvoked, Observations(snapshot.graph, view));
            && (verdict.Cancel? <==> Cancels(snapshot, view))
            && (verdict.Unexpected? <==> Unclear(snapshot, view))
            && (verdict.Cancel? && !snapshot.submitInvoked ==> verdict.spentTxid == None)
            && (verdict.Cancel? && snapshot.submitInvoked ==>
                  verdict.spentTxid.Some? && SpendsSome(snapshot.graph, view, verdict.spentTxid.value))
            && (verdict.Proceed? ==>
                  (verdict.everySeen <==> AllReported(snapshot.graph, view))
                  && (verdict.taxiSpent <==> TaxiInputsSpentByOwn(snapshot.graph, view)))
  {
    EvidenceMeans(snapshot.graph, view);
    CoverageMeans(snapshot.graph, view);
    if AnySpentByOther(snapshot.graph, view) { ConflictNames(snapshot.graph, view); }
    hide Observations, OwnsAnySpend, HintsWithoutSpend, HasUnknownSpend, HasConflict, TaxiSpent, EverySeen,
      AnySpentByOwn, AnySpentByOther, AnyOwnUnspent, AnySpentByNobody, SpendsSome, TaxiInputsSpentByOwn, AllReported;
  }

  function Latest(a: nat, b: nat): nat { if a >= b then a else b }

  /**
   * A first read cancels the fill exactly when no own id is reported at any input, every spent coin
   * has an id, and the fill was never invoked or some input is spent through another id. The row then
   * records such an id (none for a fill never invoked), drops its lease, and nothing else changes.
   */
  lemma CancelsExactlyWhen(w: World, view: View)
    requires Enabled(w, ReadInputs(view, true)) && w.pending.snapshot.id in w.rows
    requires StillAsRead(w.rows[w.pending.snapshot.id], w.pending.snapshot, w.now)
    ensures var snapshot, after := w.pending.snapshot, Apply(w, ReadInputs(view, true));
            var row := w.rows[snapshot.id];
            && after.rows.Keys == w.rows.Keys
            && (forall id :: id in w.rows && id != snapshot.id ==> after.rows[id] == w.rows[id])
            && (after.rows[snapshot.id].state == Cancelled <==> Cancels(snapshot, view))
            && (!Cancels(snapshot, view) ==> after.rows == w.rows)
            && (Cancels(snapshot, view) ==>
                  var spent := after.rows[snapshot.id].spentTxid;
                  && after.pending == Idle
                  && after.rows[snapshot.id] == row.(state := Cancelled, leaseToken := None, leaseUntil := None,
                       nextAttemptAt := None, updatedAt := Latest(row.updatedAt, w.now), spentTxid := spent)
                  && (!snapshot.submitInvoked ==> spent == None)
                  && (snapshot.submitInvoked ==>
                        spent.Some? && SpendsSome(snapshot.graph, view, spent.value)))
  {
    var snapshot := w.pending.snapshot;
    assert Apply(w, ReadInputs(view, true)) == AfterInputs(w, view, true);
    VerdictMeans(snapshot, view);
    hide Enabled, Apply, FirstRead, Observations, Judged, Cancels, Unclear, SpendsSome, AllReported,
      TaxiInputsSpentByOwn, ReconcileCancelled;
    var verdict := FirstRead(snapshot.submitInvoked, Observations(snapshot.graph, view));
    if verdict.Cancel? { CancelledRow(w.rows[snapshot.id], snapshot, verdict.spentTxid, w.now); }
  }

  lemma CancelledRow(row: Fill, snapshot: Fill, spent: Option<Id>, now: nat)
    requires StillAsRead(row, snapshot, now) && (snapshot.submitInvoked ==> spent.Some?)
    ensures ReconcileCancelled(row, snapshot, spent, now)
            == row.(state := Cancelled, leaseToken := None, leaseUntil := None, nextAttemptAt := None,
                 updatedAt := Latest(row.updatedAt, now), spentTxid := spent)
  {
  }

  /** A read of a row that changed meanwhile, or whose links disagree, changes no row. */
  lemma StaleReadChangesNothing(w: World, view: View, rowsAgree: bool)
    requires Enabled(w, ReadInputs(view, rowsAgree))
    requires var id := w.pending.snapshot.id;
             !rowsAgree || id !in w.rows || !StillAsRead(w.rows[id], w.pending.snapshot, w.now)
    ensures Apply(w, ReadInputs(view, rowsAgree)).rows == w.rows
  {
    hide FirstRead, Observations, Truthful, Judged;
  }

  /**
   * A first read leads to the second exactly when the fill was invoked, every Taxi input is spent
   * through an own id, nothing is unclear and no input is spent through another id; it marks the fill
   * exactly on unclear reports, and quarantines it exactly when it is neither and all is reported.
   */
  lemma GoesOnExactlyWhen(w: World, view: View)
    requires Enabled(w, ReadInputs(view, true))
    ensures var snapshot, after := w.pending.snapshot, Apply(w, ReadInputs(view, true));
            var graph := snapshot.graph;
            && (after.pending == AwaitOutputs(snapshot) <==>
                  snapshot.submitInvoked && TaxiInputsSpentByOwn(graph, view) && !Unclear(snapshot, view)
                  && !AnySpentByOther(graph, view))
            && (after.pending == AwaitOutputs(snapshot) || after.pending == Idle)
            && after.marks.unexpected == w.marks.unexpected + (if Unclear(snapshot, view) then {snapshot.id} else {})
            && after.marks.quarantined == w.marks.quarantined
               + (if !Unclear(snapshot, view) && !Cancels(snapshot, view) && AllReported(graph, view)
                  then {snapshot.id} else {})
  {
    var snapshot := w.pending.snapshot;
    assert Apply(w, ReadInputs(view, true)) == AfterInputs(w, view, true);
    VerdictMeans(snapshot, view);
    ProceedsExactlyWhen(snapshot, view);
    hide Enabled, Apply, FirstRead, Observations, ReconcileCancelled, Cancels, Unclear, AllReported,
      TaxiInputsSpentByOwn, AnySpentByOther, Judged;
    var verdict := FirstRead(snapshot.submitInvoked, Observations(snapshot.graph, view));
    JudgedMeans(w.marks, snapshot.id, verdict);
  }

  lemma JudgedMeans(marks: Marks, id: Id, verdict: Verdict)
    ensures Judged(marks, id, verdict).unexpected == marks.unexpected + (if verdict.Unexpected? then {id} else {})
    ensures Judged(marks, id, verdict).quarantined
            == marks.quarantined + (if verdict.Proceed? && verdict.everySeen then {id} else {})
  {
  }

  lemma ProceedsExactlyWhen(snapshot: Fill, view: View)
    ensures var verdict := FirstRead(snapshot.submitInvoked, Observations(snapshot.graph, view));
            && (verdict.Proceed? <==> !Cancels(snapshot, view) && !Unclear(snapshot, view))
            && (verdict.Proceed? <==>
                  snapshot.submitInvoked && !Unclear(snapshot, view) && !AnySpentByOther(snapshot.graph, view))
  {
    VerdictMeans(snapshot, view);
    hide FirstRead, AnySpentByOther, AnySpentByOwn, AnyOwnUnspent, AnySpentByNobody;
  }

  // ----------------------------------------------------- when the fill settles

  /** The indexer holds this output of the graph as it was built. */
  ghost predicate IndexedAsBuilt(graph: Graph, indexed: map<Point, OutputCoin>, o: GraphOutput) {
    var p := Point(graph.txid, o.vout);
    && p in indexed && indexed[p].point == p && indexed[p].script == o.script && indexed[p].sats == o.sats
    && (forall id :: Names(indexed[p].assets, id) <==> Names(o.assets, id))
    && (forall id :: UnitsOf(indexed[p].assets, id) == UnitsOf(o.assets, id))
  }

  /** The first output at the covenant's place. */
  predicate CovenantAt(graph: Graph, k: int) {
    && 0 <= k < |graph.outputs| && graph.outputs[k].vout == graph.covenantVout
    && forall j :: 0 <= j < k ==> graph.outputs[j].vout != graph.covenantVout
  }

  predicate PaysOperator(graph: Graph, o: GraphOutput) {
    o.script == graph.operatorScript && o.vout != graph.covenantVout
  }

  /** The covenant and every other output that pays the operator are indexed as built. */
  ghost predicate OutputsIndexed(graph: Graph, indexed: map<Point, OutputCoin>) {
    && (exists k :: CovenantAt(graph, k) && IndexedAsBuilt(graph, indexed, graph.outputs[k]))
    && forall k :: 0 <= k < |graph.outputs| && PaysOperator(graph, graph.outputs[k]) ==>
         IndexedAsBuilt(graph, indexed, graph.outputs[k])
  }

  lemma {:induction false} FirstCovenant(graph: Graph, outputs: seq<GraphOutput>)
    ensures CovenantOutputs(graph, outputs) == [] <==> forall k :: 0 <= k < |outputs| ==>
            outputs[k].vout != graph.covenantVout
    ensures forall k :: 0 <= k < |outputs| && outputs[k].vout == graph.covenantVout
                        && (forall j :: 0 <= j < k ==> outputs[j].vout != graph.covenantVout) ==>
              CovenantOutputs(graph, outputs) != [] && CovenantOutputs(graph, outputs)[0] == outputs[k]
  {
    if outputs != [] {
      FirstCovenant(graph, outputs[1..]);
      assert forall k :: 0 < k < |outputs| ==> outputs[k] == outputs[1..][k - 1];
      assert forall k :: 0 <= k < |outputs[1..]| ==> outputs[1..][k] == outputs[k + 1];
      forall k | 0 <= k < |outputs| && outputs[k].vout == graph.covenantVout
                 && (forall j :: 0 <= j < k ==> outputs[j].vout != graph.covenantVout)
        ensures CovenantOutputs(graph, outputs) != [] && CovenantOutputs(graph, outputs)[0] == outputs[k]
      {
        if k > 0 {
          assert outputs[0].vout != graph.covenantVout;
          forall j | 0 <= j < k - 1 ensures outputs[1..][j].vout != graph.covenantVout {
            assert outputs[j + 1] == outputs[1..][j];
          }
          assert outputs[1..][k - 1].vout == graph.covenantVout;
        }
      }
    }
  }

  lemma {:induction false} OperatorOutputsAre(graph: Graph, outputs: seq<GraphOutput>, o: GraphOutput)
    ensures o in OperatorOutputs(graph, outputs) <==> o in outputs && PaysOperator(graph, o)
  {
    if outputs != [] {
      assert outputs == [outputs[0]] + outputs[1..];
      OperatorOutputsAre(graph, outputs[1..], o);
    }
  }

  lemma LeastCovenant(graph: Graph, k: nat) returns (first: nat)
    requires k < |graph.outputs| && graph.outputs[k].vout == graph.covenantVout
    ensures CovenantAt(graph, first)
  {
    if j: nat :| j < k && graph.outputs[j].vout == graph.covenantVout {
      first := LeastCovenant(graph, j);
    } else {
      first := k;
    }
  }

  lemma ExpectedMeans(graph: Graph, o: GraphOutput)
    ensures Expected(graph) != [] <==> exists k :: CovenantAt(graph, k)
    ensures Expected(graph) != [] ==>
              (o in Expected(graph) <==>
               (exists k :: CovenantAt(graph, k) && graph.outputs[k] == o)
                 || (o in graph.outputs && PaysOperator(graph, o)))
  {
    FirstCovenant(graph, graph.outputs);
    OperatorOutputsAre(graph, graph.outputs, o);
    hide CovenantOutputs, OperatorOutputs;
    if CovenantOutputs(graph, graph.outputs) != [] {
      var k :| 0 <= k < |graph.outputs| && graph.outputs[k].vout == graph.covenantVout;
      var first := LeastCovenant(graph, k);
      assert CovenantOutputs(graph, graph.outputs)[0] == graph.outputs[first];
      assert forall j :: CovenantAt(graph, j) ==> j == first;
    }
  }

  lemma MatchMeans(graph: Graph, indexed: map<Point, OutputCoin>, o: GraphOutput)
    ensures IndexedAsBuilt(graph, indexed, o) <==>
            Point(graph.txid, o.vout) in indexed
            && OutputMatches(indexed[Point(graph.txid, o.vout)], graph.txid, o)
  {
  }

  lemma SecondReadMeans(graph: Graph, indexed: map<Point, OutputCoin>)
    ensures SecondRead(graph, indexed) <==> OutputsIndexed(graph, indexed)
  {
    forall o
      ensures IndexedAsBuilt(graph, indexed, o) <==>
              Point(graph.txid, o.vout) in indexed && OutputMatches(indexed[Point(graph.txid, o.vout)], graph.txid, o)
      ensures Expected(graph) != [] <==> exists k :: CovenantAt(graph, k)
      ensures Expected(graph) != [] ==>
                (o in Expected(graph) <==>
                 (exists k :: CovenantAt(graph, k) && graph.outputs[k] == o)
                 || (o in graph.outputs && PaysOperator(graph, o)))
    {
      MatchMeans(graph, indexed, o);
      ExpectedMeans(graph, o);
    }
    hide OutputMatches, IndexedAsBuilt, Expected, PaysOperator;
    if SecondRead(graph, indexed) {
      var k :| CovenantAt(graph, k);
      assert graph.outputs[k] in Expected(graph);
    }
    if OutputsIndexed(graph, indexed) {
      var k :| CovenantAt(graph, k) && IndexedAsBuilt(graph, indexed, graph.outputs[k]);
      assert forall j :: CovenantAt(graph, j) ==> j == k;
    }
  }

  /**
   * A second read settles the fill exactly when it was invoked and the covenant and every operator
   * output are indexed as built. The row then records the graph's transaction, drops its lease, and
   * nothing else changes.
   */
  lemma SettlesExactlyWhen(w: World, indexed: map<Point, OutputCoin>)
    requires Enabled(w, ReadOutputs(indexed, true)) && w.pending.snapshot.id in w.rows
    requires StillAsRead(w.rows[w.pending.snapshot.id], w.pending.snapshot, w.now)
    ensures var snapshot, after := w.pending.snapshot, Apply(w, ReadOutputs(indexed, true));
            var row := w.rows[snapshot.id];
            && after.rows.Keys == w.rows.Keys && after.pending == Idle
            && (forall id :: id in w.rows && id != snapshot.id ==> after.rows[id] == w.rows[id])
            && (after.rows[snapshot.id].state == Settled <==>
                  snapshot.submitInvoked && OutputsIndexed(snapshot.graph, indexed))
            && (after.rows[snapshot.id].state == Settled ==>
                  after.rows[snapshot.id] == row.(state := Settled, leaseToken := None, leaseUntil := None,
                    nextAttemptAt := None, updatedAt := Latest(row.updatedAt, w.now),
                      txid := Some(snapshot.graph.txid)))
            && (after.rows[snapshot.id].state != Settled ==> after.rows == w.rows)
  {
    var snapshot := w.pending.snapshot;
    assert Apply(w, ReadOutputs(indexed, true)) == AfterOutputs(w, indexed, true);
    SecondReadMeans(snapshot.graph, indexed);
    hide Enabled, Apply, SecondRead, OutputsIndexed, ReconcileSettled;
    SettledRow(w.rows[snapshot.id], snapshot, w.now);
  }

  lemma SettledRow(row: Fill, snapshot: Fill, now: nat)
    requires StillAsRead(row, snapshot, now)
    ensures var after := ReconcileSettled(row, snapshot, snapshot.graph.txid, now);
            && (after.state == Settled <==> snapshot.submitInvoked)
            && (after.state == Settled ==>
                  after == row.(state := Settled, leaseToken := None, leaseUntil := None, nextAttemptAt := None,
                    updatedAt := Latest(row.updatedAt, now), txid := Some(snapshot.graph.txid)))
            && (after.state != Settled ==> after == row)
  {
  }

  // ------------------------------------------------------- a full tick decides

  /** An answer that leaves nothing out: every input, with every id the ledger recorded. */
  predicate FullView(ledger: Ledger, graph: Graph, view: View) {
    forall i :: 0 <= i < |graph.inputs| ==> FullyReported(ledger, view, graph.inputs[i].point)
  }

  predicate FullyReported(ledger: Ledger, view: View, p: Point) {
    && p in view && (view[p].isSpent <==> p in ledger.spends)
    && view[p].arkTxId == (if p in ledger.spends then ledger.spends[p].ark else None)
    && view[p].spentBy == (if p in ledger.spends then ledger.spends[p].checkpoint else None)
  }

  /** The graph's own spends show as such, once it was accepted. */
  lemma AcceptedShows(ledger: Ledger, graph: Graph, view: View)
    requires GraphOk(ledger, graph) && graph.txid in ledger.accepted && FullView(ledger, graph, view)
    ensures forall i :: 0 <= i < |graph.inputs| ==> SpentByOwn(graph, view, i) && !OtherAt(graph, view, i)
    ensures !AnyOwnUnspent(graph, view) && !AnySpentByNobody(graph, view) && AllReported(graph, view)
  {
    forall i | 0 <= i < |graph.inputs|
      ensures SpentByOwn(graph, view, i) && !OtherAt(graph, view, i) && !OwnUnspentAt(graph, view, i)
      ensures !SpentByNobody(view, graph.inputs[i].point) && graph.inputs[i].point in view
    {
      assert OwnSpend(ledger, graph, i) && FullyReported(ledger, view, graph.inputs[i].point);
      assert Reports(view, graph.inputs[i].point, graph.txid);
    }
  }

  lemma UnspentShows(ledger: Ledger, graph: Graph, view: View)
    requires Unspent(ledger, graph) && FullView(ledger, graph, view)
    ensures forall i :: 0 <= i < |graph.inputs| ==> !SpentByOwn(graph, view, i)
    ensures !AnySpentByOther(graph, view) && !AnyOwnUnspent(graph, view) && !AnySpentByNobody(graph, view)
    ensures AllReported(graph, view)
  {
    forall i | 0 <= i < |graph.inputs|
      ensures !SpentByOwn(graph, view, i) && !OtherAt(graph, view, i) && !OwnUnspentAt(graph, view, i)
      ensures !SpentByNobody(view, graph.inputs[i].point) && graph.inputs[i].point in view
    {
      assert FullyReported(ledger, view, graph.inputs[i].point);
    }
  }

  /** A reconcile pass over one due fill, up to its first read. */
  function Tick(id: Id, view: View): seq<Step> { [BeginTick, BeginPass(id, true), ReadInputs(view, true)] }

  predicate Due(row: Fill, now: nat) {
    && row.state == Submitting && (row.leaseUntil.Some? ==> row.leaseUntil.value <= now)
    && (row.nextAttemptAt.Some? ==> row.nextAttemptAt.value <= now)
  }

  /** The world in which the pass has asked about the fill's inputs. */
  lemma PassAsks(w: World, id: Id) returns (asking: World)
    requires w.pending == Idle && id in w.rows && w.rows[id].id == id && Due(w.rows[id], w.now)
    ensures asking.pending == AwaitInputs(w.rows[id])
    ensures asking.rows == w.rows && asking.ledger == w.ledger && asking.now == w.now
    ensures asking.marks.unexpected == w.marks.unexpected
    ensures Run(w, [BeginTick, BeginPass(id, true)], asking)
  {
    var ticking := Apply(w, BeginTick);
    var s := BeginPass(id, true);
    assert id in ticking.candidates && ticking.candidates[id] == w.rows[id] && Enabled(ticking, s);
    asking := Apply(ticking, s);
    assert Enabled(w, BeginTick);
    assert asking.rows == w.rows && asking.ledger == w.ledger && asking.now == w.now;
    assert asking.pending == AwaitInputs(w.rows[id]) && asking.marks.unexpected == w.marks.unexpected;
    hide Enabled, Apply;
    assert Run(asking, [], asking);
    assert [BeginTick, s][1..] == [s] && [s][1..] == [];
    assert Run(ticking, [s], asking);
  }

  lemma FullViewIsTruthful(w: World, view: View, graph: Graph)
    requires FullView(w.ledger, graph, view)
    requires forall p :: p in view ==> exists i :: 0 <= i < |graph.inputs| && graph.inputs[i].point == p
    ensures Truthful(w.ledger, view)
  {
    forall p | p in view && view[p].isSpent
      ensures && p in w.ledger.spends
              && (view[p].arkTxId.Some? ==> view[p].arkTxId == w.ledger.spends[p].ark)
              && (view[p].spentBy.Some? ==> view[p].spentBy == w.ledger.spends[p].checkpoint)
    {
      var i :| 0 <= i < |graph.inputs| && graph.inputs[i].point == p;
      assert FullyReported(w.ledger, view, graph.inputs[i].point);
    }
  }

  /** What a read of everything makes of a fill. */
  ghost predicate Decided(ledger: Ledger, row: Fill, view: View, after: World) {
    && row.id in after.rows
    && (!row.submitInvoked && Unspent(ledger, row.graph) ==> after.rows[row.id].state == Cancelled)
    && (row.submitInvoked && row.graph.txid in ledger.accepted ==> after.pending == AwaitOutputs(row))
    && (row.submitInvoked && Unspent(ledger, row.graph) ==>
          after.rows[row.id] == row && row.id in after.marks.quarantined)
    && (AnySpentByOther(row.graph, view) && !AnySpentByOwn(row.graph, view) && !AnySpentByNobody(row.graph, view) ==>
          after.rows[row.id].state == Cancelled)
  }

  lemma FullReadDecides(asking: World, row: Fill, view: View)
    requires asking.pending == AwaitInputs(row) && row.id in asking.rows && asking.rows[row.id] == row
    requires Due(row, asking.now) && GraphOk(asking.ledger, row.graph)
    requires FullView(asking.ledger, row.graph, view) && Enabled(asking, ReadInputs(view, true))
    ensures Decided(asking.ledger, row, view, Apply(asking, ReadInputs(view, true)))
  {
    CancelsExactlyWhen(asking, view);
    GoesOnExactlyWhen(asking, view);
    hide Enabled, Apply;
    OwnUnspentNever(asking.ledger, row.graph, view);
    if row.graph.txid in asking.ledger.accepted { AcceptedShows(asking.ledger, row.graph, view); }
    if Unspent(asking.ledger, row.graph) { UnspentShows(asking.ledger, row.graph, view); }
    hide GraphOk, FullView, SpentByOwn, AnySpentByNobody, AllReported, AnyOwnUnspent, Unspent, OtherAt, SpendsSome;
  }

  predicate OnlyInputs(graph: Graph, view: View) {
    forall p :: p in view ==> exists i :: 0 <= i < |graph.inputs| && graph.inputs[i].point == p
  }

  /**
   * In every reachable world, a pass over a due fill that sees all there is to see decides it. A fill
   * never invoked with its inputs unspent is cancelled. An invoked one goes on to settlement where its
   * graph was accepted, and is quarantined as it is where its inputs are unspent. Where some input is
   * spent through another id, none through an own id and none without an id, the fill is cancelled.
   */
  lemma FullTickDecides(past: seq<Step>, w: World, id: Id, view: View) returns (after: World)
    requires Run(GENESIS, past, w) && w.pending == Idle && id in w.rows && Due(w.rows[id], w.now)
    requires FullView(w.ledger, w.rows[id].graph, view) && OnlyInputs(w.rows[id].graph, view)
    ensures Run(w, Tick(id, view), after) && Decided(w.ledger, w.rows[id], view, after)
  {
    var row := w.rows[id];
    assert Inv(GENESIS);
    hide Inv, Run, Enabled, Apply, Decided, Due;
    RunKeepsInv(GENESIS, past, w);
    RowFacts(w, id);
    var asking := PassAsks(w, id);
    FullViewIsTruthful(w, view, row.graph);
    after := ReadEverything(w, asking, row, view);
  }

  lemma ReadEverything(w: World, asking: World, row: Fill, view: View) returns (after: World)
    requires Run(w, [BeginTick, BeginPass(row.id, true)], asking)
    requires asking.pending == AwaitInputs(row) && row.id in asking.rows && asking.rows[row.id] == row
    requires Due(row, asking.now) && GraphOk(asking.ledger, row.graph)
    requires FullView(asking.ledger, row.graph, view) && Truthful(asking.ledger, view)
    ensures Run(w, Tick(row.id, view), after) && Decided(asking.ledger, row, view, after)
  {
    var s := ReadInputs(view, true);
    assert Enabled(asking, s);
    after := Apply(asking, s);
    FullReadDecides(asking, row, view);
    hide Enabled, Apply, Decided, GraphOk, FullView, Truthful;
    assert Run(after, [], after);
    assert [s][1..] == [];
    assert Run(asking, [s], after);
    RunsCompose(w, [BeginTick, BeginPass(row.id, true)], asking, [s], after);
    assert [BeginTick, BeginPass(row.id, true)] + [s] == Tick(row.id, view);
  }

  lemma OwnUnspentNever(ledger: Ledger, graph: Graph, view: View)
    requires FullView(ledger, graph, view)
    ensures !AnyOwnUnspent(graph, view)
  {
    forall i | 0 <= i < |graph.inputs| ensures !OwnUnspentAt(graph, view, i) {
      assert FullyReported(ledger, view, graph.inputs[i].point);
    }
  }
}
