// Safety of the fill protocol over every run.
module FillSafety {
  import opened Prelude
  import opened FillReconciler
  import opened FillProtocol

  /** Input i is recorded as spent by the graph itself, through its own checkpoint. */
  ghost predicate OwnSpend(ledger: Ledger, graph: Graph, i: nat)
    requires i < |graph.inputs|
  {
    var input := graph.inputs[i];
    input.point in ledger.spends
    && ledger.spends[input.point] == Spend(graph.txid, Some(graph.txid), Some(input.checkpoint))
  }

  /** Input i went to another transaction, so the graph can never be accepted. */
  ghost predicate LostInput(ledger: Ledger, graph: Graph, i: nat)
    requires i < |graph.inputs|
  {
    var p := graph.inputs[i].point;
    p in ledger.spends && ledger.spends[p].spender != graph.txid
  }

  ghost predicate Contradicted(ledger: Ledger, graph: Graph) {
    exists i :: 0 <= i < |graph.inputs| && LostInput(ledger, graph, i)
  }

  ghost predicate GraphOk(ledger: Ledger, graph: Graph) {
    && DistinctInputs(graph)
    && graph.txid !in ledger.foreign
    && (graph.txid in ledger.accepted ==> forall i :: 0 <= i < |graph.inputs| ==> OwnSpend(ledger, graph, i))
  }

  ghost predicate VerdictHolds(ledger: Ledger, row: Fill) {
    && (row.state == Settled ==> row.graph.txid in ledger.accepted)
    && (row.state == Cancelled || row.state == Expired ==> !row.submitInvoked || Contradicted(ledger, row.graph))
  }

  /** Taxi signatures leave the process only after the invocation was recorded. */
  ghost predicate WorkerOk(worker: Worker, row: Fill) {
    worker.phase == Sending || worker.phase == Waiting ==> row.submitInvoked
  }

  ghost predicate RowsOk(ledger: Ledger, rows: map<Id, Fill>, workers: map<Id, Worker>) {
    && workers.Keys == rows.Keys
    && (forall id :: id in rows ==> rows[id].id == id && GraphOk(ledger, rows[id].graph))
    && (forall id :: id in rows ==> VerdictHolds(ledger, rows[id]))
    && (forall id :: id in rows ==> WorkerOk(workers[id], rows[id]))
  }

  ghost predicate ReleasedOk(rows: map<Id, Fill>, released: set<Id>) {
    forall id :: id in released ==> id in rows && rows[id].submitInvoked
  }

  ghost predicate SameTerms(row: Fill, other: Fill) { row.graph == other.graph && row.locktime == other.locktime }

  /** A txid commits to one graph, and with it to the covenant's locktime. */
  ghost predicate TxidsOk(rows: map<Id, Fill>) {
    forall id, other :: id in rows && other in rows && rows[id].graph.txid == rows[other].graph.txid ==>
      SameTerms(rows[id], rows[other])
  }

  ghost predicate HasReleased(rows: map<Id, Fill>, released: set<Id>, txid: Id) {
    exists id :: id in released && id in rows && rows[id].graph.txid == txid
  }

  ghost predicate AcceptedOk(accepted: set<Id>, rows: map<Id, Fill>, released: set<Id>) {
    forall t :: t in accepted ==> HasReleased(rows, released, t)
  }

  ghost predicate SpendersKnown(ledger: Ledger) {
    forall p :: p in ledger.spends ==>
      ledger.spends[p].spender in ledger.foreign || ledger.spends[p].spender in ledger.accepted
  }

  ghost predicate SnapshotOk(rows: map<Id, Fill>, snapshot: Fill) {
    snapshot.id in rows && snapshot.graph == rows[snapshot.id].graph
  }

  ghost predicate PassOk(rows: map<Id, Fill>, pending: Pending, candidates: map<Id, Fill>) {
    && (pending != Idle ==> SnapshotOk(rows, pending.snapshot))
    && (pending.AwaitOutputs? ==> pending.snapshot.submitInvoked)
    && (forall id :: id in candidates ==> candidates[id].id == id && SnapshotOk(rows, candidates[id]))
  }

  /** A quarantined mark stands for a latest read that was clean; a pass drops it before reading. */
  ghost predicate MarksOk(marks: Marks, lastRead: map<Id, seq<Observation>>, pending: Pending) {
    && (forall id :: id in marks.quarantined ==> id in lastRead && Clean(lastRead[id]))
    && (pending.AwaitInputs? ==> pending.snapshot.id !in marks.quarantined)
  }

  ghost predicate Inv(w: World) {
    && RowsOk(w.ledger, w.rows, w.workers)
    && ReleasedOk(w.rows, w.released)
    && TxidsOk(w.rows)
    && AcceptedOk(w.ledger.accepted, w.rows, w.released)
    && SpendersKnown(w.ledger)
    && PassOk(w.rows, w.pending, w.candidates)
    && MarksOk(w.marks, w.lastRead, w.pending)
  }

  // ------------------------------------------------------------ preservation

  lemma {:induction false} CheckpointOfInput(inputs: seq<GraphInput>, i: nat)
    requires i < |inputs|
    requires forall j, k :: 0 <= j < k < |inputs| ==> inputs[j].point != inputs[k].point
    ensures CheckpointFrom(inputs, inputs[i].point) == Some(inputs[i].checkpoint)
  {
    if i > 0 {
      assert inputs[0].point != inputs[i].point;
      CheckpointOfInput(inputs[1..], i - 1);
    }
  }

  lemma RowReplaced(w: World, id: Id, row: Fill)
    requires Inv(w) && id in w.rows
    requires row.id == id && SameTerms(row, w.rows[id]) && (w.rows[id].submitInvoked ==> row.submitInvoked)
    requires VerdictHolds(w.ledger, row)
    ensures RowsOk(w.ledger, w.rows[id := row], w.workers)
  {
    hide GraphOk, VerdictHolds, MarksOk, SpendersKnown, AcceptedOk, PassOk, TxidsOk, ReleasedOk;
  }

  lemma SameGraphsSuffice(w: World, rows: map<Id, Fill>)
    requires Inv(w) && rows.Keys == w.rows.Keys
    requires forall id :: id in rows ==> SameTerms(rows[id], w.rows[id])
    requires forall id :: id in rows && w.rows[id].submitInvoked ==> rows[id].submitInvoked
    ensures ReleasedOk(rows, w.released) && TxidsOk(rows) && AcceptedOk(w.ledger.accepted, rows, w.released)
    ensures PassOk(rows, w.pending, w.candidates)
  {
    hide RowsOk, MarksOk, SpendersKnown;
    forall t | t in w.ledger.accepted ensures HasReleased(rows, w.released, t) {
      assert HasReleased(w.rows, w.released, t);
      var k :| k in w.released && k in w.rows && w.rows[k].graph.txid == t;
      assert k in rows && rows[k].graph.txid == t;
    }
  }

  /** A row may be replaced by one with the same graph that is still invoked if it was. */
  lemma RowMoves(w: World, id: Id, row: Fill)
    requires Inv(w) && id in w.rows
    requires row.id == id && SameTerms(row, w.rows[id]) && (w.rows[id].submitInvoked ==> row.submitInvoked)
    requires VerdictHolds(w.ledger, row)
    ensures Inv(WithRow(w, id, row))
  {
    RowReplaced(w, id, row);
    SameGraphsSuffice(w, w.rows[id := row]);
    hide RowsOk, ReleasedOk, TxidsOk, AcceptedOk, PassOk, VerdictHolds, MarksOk, SpendersKnown;
  }

  lemma PhaseMoves(w: World, id: Id, phase: Phase)
    requires Inv(w) && id in w.rows && (phase == Sending || phase == Waiting ==> w.rows[id].submitInvoked)
    ensures Inv(WithPhase(w, id, phase))
  {
    hide GraphOk, VerdictHolds, MarksOk, SpendersKnown, AcceptedOk, PassOk, TxidsOk;
  }

  lemma WorkerMoves(w: World, id: Id, row: Fill, next: Phase)
    requires Inv(w) && id in w.rows && id in w.workers
    requires row.id == id && SameTerms(row, w.rows[id]) && (w.rows[id].submitInvoked ==> row.submitInvoked)
    requires Holds(w, id) ==> VerdictHolds(w.ledger, row)
    requires next == Sending || next == Waiting ==> row.submitInvoked
    ensures Inv(Move(w, id, row, next))
  {
    hide Inv, VerdictHolds;
    if Holds(w, id) {
      RowMoves(w, id, row);
      PhaseMoves(WithRow(w, id, row), id, next);
    } else {
      PhaseMoves(w, id, Done);
    }
  }

  /** A row that stays submitting owes no verdict. */
  lemma SubmittingMoves(w: World, id: Id, row: Fill, next: Phase)
    requires Inv(w) && id in w.rows && id in w.workers
    requires row.id == w.rows[id].id && SameTerms(row, w.rows[id]) && row.state == w.rows[id].state
    requires w.rows[id].submitInvoked ==> row.submitInvoked
    requires next == Sending || next == Waiting ==> row.submitInvoked
    ensures Inv(Move(w, id, row, next))
  {
    RowFacts(w, id);
    hide Inv, GraphOk;
    WorkerMoves(w, id, row, next);
  }

  lemma SigningFailedKeepsInv(w: World, id: Id)
    requires Inv(w) && Enabled(w, SigningFailed(id))
    ensures Inv(Apply(w, SigningFailed(id)))
  {
    RowFacts(w, id);
    var row := if w.rows[id].submitInvoked then w.rows[id] else Terminated(w.rows[id], Cancelled, w.now);
    assert VerdictHolds(w.ledger, row) && SameTerms(row, w.rows[id]);
    hide Inv, GraphOk, VerdictHolds, Move, Holds, Terminated;
    WorkerMoves(w, id, row, Done);
  }

  lemma WorkerStepKeepsInv(w: World, s: Step)
    requires Inv(w) && Enabled(w, s)
    requires s.RecordPrepared? || s.RecordSubmitInvoked? || s.RecordSubmitted? || s.RecordAmbiguous?
    ensures Inv(Apply(w, s))
  {
    hide Inv, Move;
    var id := s.id;
    var row := w.rows[id];
    if s.RecordPrepared? {
      SubmittingMoves(w, id, Touched(row, w.workers[id].started), Ready);
    } else if s.RecordSubmitInvoked? {
      SubmittingMoves(w, id, Touched(row.(submitInvoked := true), w.workers[id].started), Sending);
    } else if s.RecordSubmitted? {
      SubmittingMoves(w, id, Touched(row.(txid := Some(row.graph.txid)), w.workers[id].started), Done);
    } else {
      var released := row.(leaseToken := None, leaseUntil := None, nextAttemptAt := Some(s.retryAt));
      SubmittingMoves(w, id, Touched(released, w.workers[id].started), Done);
    }
  }

  lemma SendKeepsInv(w: World, id: Id)
    requires Inv(w) && Enabled(w, Send(id))
    ensures Inv(Apply(w, Send(id)))
  {
    var sent := w.(released := w.released + {id});
    assert WorkerOk(w.workers[id], w.rows[id]);
    assert AcceptedOk(w.ledger.accepted, w.rows, sent.released) by {
      forall t | t in w.ledger.accepted ensures HasReleased(w.rows, sent.released, t) {
        assert HasReleased(w.rows, w.released, t);
      }
    }
    hide RowsOk, AcceptedOk, TxidsOk, SpendersKnown, PassOk, MarksOk;
    assert Inv(sent);
    PhaseMoves(sent, id, Waiting);
  }

  lemma CrashKeepsInv(w: World)
    requires Inv(w)
    ensures Inv(Apply(w, Crash))
  {
    hide GraphOk, VerdictHolds, ReleasedOk, TxidsOk, AcceptedOk, SpendersKnown;
  }

  lemma ExpireKeepsInv(w: World, id: Id)
    requires Inv(w) && Enabled(w, Expire(id))
    ensures Inv(Apply(w, Expire(id)))
  {
    RowFacts(w, id);
    hide Inv, Contradicted, GraphOk;
    var row := Terminated(w.rows[id], Expired, w.now);
    assert VerdictHolds(w.ledger, row);
    hide VerdictHolds;
    RowMoves(w, id, row);
  }

  lemma NewGraphOk(w: World, fill: Fill, token: Id, started: nat)
    requires Inv(w) && Enabled(w, Create(fill, token, started))
    ensures GraphOk(w.ledger, fill.graph) && VerdictHolds(w.ledger, fill)
  {
    hide WorkerOk, SpendersKnown, MarksOk, PassOk;
    var graph := fill.graph;
    if graph.txid in w.ledger.accepted {
      assert HasReleased(w.rows, w.released, graph.txid);
      var id :| id in w.released && id in w.rows && w.rows[id].graph.txid == graph.txid;
      assert GraphOk(w.ledger, w.rows[id].graph);
    }
  }

  /** What the other parts of the invariant say about old rows is still true beside a new one. */
  lemma RowsGrow(w: World, fill: Fill)
    requires Inv(w) && fill.id !in w.rows
    requires forall id :: id in w.rows && w.rows[id].graph.txid == fill.graph.txid ==> SameTerms(w.rows[id], fill)
    ensures ReleasedOk(w.rows[fill.id := fill], w.released) && TxidsOk(w.rows[fill.id := fill])
    ensures AcceptedOk(w.ledger.accepted, w.rows[fill.id := fill], w.released)
    ensures PassOk(w.rows[fill.id := fill], w.pending, w.candidates)
  {
    hide RowsOk, SpendersKnown, MarksOk;
    var rows := w.rows[fill.id := fill];
    forall t | t in w.ledger.accepted ensures HasReleased(rows, w.released, t) {
      assert HasReleased(w.rows, w.released, t);
      var k :| k in w.released && k in w.rows && w.rows[k].graph.txid == t;
      assert k in rows && rows[k] == w.rows[k];
    }
  }

  lemma CreateKeepsInv(w: World, fill: Fill, token: Id, started: nat)
    requires Inv(w) && Enabled(w, Create(fill, token, started))
    ensures Inv(Apply(w, Create(fill, token, started)))
  {
    var after := Apply(w, Create(fill, token, started));
    NewGraphOk(w, fill, token, started);
    RowsGrow(w, fill);
    assert WorkerOk(after.workers[fill.id], fill);
    hide GraphOk, VerdictHolds, WorkerOk, SpendersKnown, MarksOk, ReleasedOk, TxidsOk, AcceptedOk, PassOk;
    assert RowsOk(after.ledger, after.rows, after.workers);
  }

  /** Spends are never rewritten. */
  lemma AcceptOnlyAdds(w: World, id: Id)
    requires Enabled(w, Accept(id))
    ensures forall p :: p in w.ledger.spends ==>
              p in Apply(w, Accept(id)).ledger.spends && Apply(w, Accept(id)).ledger.spends[p] == w.ledger.spends[p]
  {
    var graph := w.rows[id].graph;
    forall p | p in Points(graph) ensures p !in w.ledger.spends {
      var i :| 0 <= i < |graph.inputs| && graph.inputs[i].point == p;
    }
  }

  lemma ContradictionStays(before: Ledger, after: Ledger, graph: Graph)
    requires forall p :: p in before.spends ==> p in after.spends && after.spends[p] == before.spends[p]
    requires Contradicted(before, graph)
    ensures Contradicted(after, graph)
  {
    var i :| 0 <= i < |graph.inputs| && LostInput(before, graph, i);
    assert LostInput(after, graph, i);
  }

  lemma AcceptedGraphOk(w: World, id: Id, other: Id)
    requires Inv(w) && Enabled(w, Accept(id)) && other in w.rows
    ensures GraphOk(Apply(w, Accept(id)).ledger, w.rows[other].graph)
  {
    var after := Apply(w, Accept(id)).ledger;
    var graph := w.rows[other].graph;
    AcceptOnlyAdds(w, id);
    assert GraphOk(w.ledger, graph);
    if graph.txid in after.accepted {
      forall i | 0 <= i < |graph.inputs| ensures OwnSpend(after, graph, i) {
        if graph.txid == w.rows[id].graph.txid {
          CheckpointOfInput(graph.inputs, i);
        } else {
          assert OwnSpend(w.ledger, graph, i);
        }
      }
    }
  }

  lemma VerdictsStay(before: Ledger, after: Ledger, row: Fill)
    requires forall p :: p in before.spends ==> p in after.spends && after.spends[p] == before.spends[p]
    requires before.accepted <= after.accepted
    requires VerdictHolds(before, row)
    ensures VerdictHolds(after, row)
  {
    if Contradicted(before, row.graph) { ContradictionStays(before, after, row.graph); }
  }

  lemma AcceptKeepsInv(w: World, id: Id)
    requires Inv(w) && Enabled(w, Accept(id))
    ensures Inv(Apply(w, Accept(id)))
  {
    var after := Apply(w, Accept(id));
    AcceptOnlyAdds(w, id);
    forall other | other in w.rows ensures GraphOk(after.ledger, w.rows[other].graph) { AcceptedGraphOk(w, id, other); }
    forall other | other in w.rows ensures VerdictHolds(after.ledger, w.rows[other]) {
      VerdictsStay(w.ledger, after.ledger, w.rows[other]);
    }
    assert AcceptedOk(after.ledger.accepted, w.rows, w.released) by {
      forall t | t in after.ledger.accepted ensures HasReleased(w.rows, w.released, t) {
        if t in w.ledger.accepted { assert HasReleased(w.rows, w.released, t); }
      }
    }
    assert SpendersKnown(after.ledger);
    hide GraphOk, VerdictHolds, Points, ReleasedOk, TxidsOk, AcceptedOk, SpendersKnown, PassOk, MarksOk, AcceptedSpends;
    assert RowsOk(after.ledger, after.rows, after.workers);
  }

  lemma ForeignGraphOk(before: Ledger, after: Ledger, graph: Graph)
    requires forall p :: p in before.spends ==> p in after.spends && after.spends[p] == before.spends[p]
    requires before.accepted == after.accepted && graph.txid !in after.foreign
    requires GraphOk(before, graph)
    ensures GraphOk(after, graph)
  {
    forall i | 0 <= i < |graph.inputs| && OwnSpend(before, graph, i) ensures OwnSpend(after, graph, i) {}
  }

  lemma ForeignKeepsInv(w: World, spender: Id, ark: Option<Id>, coins: map<Point, Option<Id>>)
    requires Inv(w)
    requires forall id :: id in w.rows ==> w.rows[id].graph.txid != spender
    requires forall p :: p in coins ==> p !in w.ledger.spends
    ensures Inv(AfterForeign(w, spender, ark, coins))
  {
    var after := AfterForeign(w, spender, ark, coins);
    assert forall p :: p in w.ledger.spends ==>
      p in after.ledger.spends && after.ledger.spends[p] == w.ledger.spends[p];
    forall id | id in w.rows
      ensures GraphOk(after.ledger, w.rows[id].graph) && VerdictHolds(after.ledger, w.rows[id])
    {
      RowFacts(w, id);
      ForeignGraphOk(w.ledger, after.ledger, w.rows[id].graph);
      VerdictsStay(w.ledger, after.ledger, w.rows[id]);
    }
    assert SpendersKnown(after.ledger);
    hide GraphOk, VerdictHolds, ReleasedOk, TxidsOk, AcceptedOk, SpendersKnown, PassOk, MarksOk;
    assert RowsOk(after.ledger, after.rows, after.workers);
  }

  /** A truthful conflict means an input is lost. */
  lemma ConflictContradicts(w: World, snapshot: Fill, view: View)
    requires Inv(w) && Truthful(w.ledger, view)
    requires snapshot.id in w.rows && w.rows[snapshot.id].graph == snapshot.graph
    requires HasConflict(Observations(snapshot.graph, view))
    ensures Contradicted(w.ledger, snapshot.graph)
  {
    var graph := snapshot.graph;
    var obs := Observations(graph, view);
    var i :| 0 <= i < |obs| && obs[i].conflict.Some?;
    var p := graph.inputs[i].point;
    var id := obs[i].conflict.value;
    assert view[p].isSpent && id in Hints(view[p]) && !IsOwn(graph, graph.inputs[i], id);
    var spend := w.ledger.spends[p];
    assert Some(id) == spend.ark || Some(id) == spend.checkpoint;
    assert GraphOk(w.ledger, graph);
    assert !OwnSpend(w.ledger, graph, i);
    assert LostInput(w.ledger, graph, i);
  }

  lemma JudgedMarksOk(w: World, snapshot: Fill, obs: seq<Observation>, verdict: Verdict)
    requires MarksOk(w.marks, w.lastRead, AwaitInputs(snapshot))
    requires verdict == FirstRead(snapshot.submitInvoked, obs)
    ensures MarksOk(Judged(w.marks, snapshot.id, verdict), w.lastRead[snapshot.id := obs], Idle)
    ensures MarksOk(Judged(w.marks, snapshot.id, verdict), w.lastRead[snapshot.id := obs], AwaitOutputs(snapshot))
    ensures verdict.Proceed? ==> snapshot.submitInvoked
  {
    assert verdict.Proceed? && verdict.everySeen ==> Clean(obs);
    hide Clean, FirstRead;
  }

  lemma CancellationHolds(w: World, snapshot: Fill, view: View, spent: Option<Id>)
    requires Inv(w) && Truthful(w.ledger, view) && SnapshotOk(w.rows, snapshot)
    requires FirstRead(snapshot.submitInvoked, Observations(snapshot.graph, view)) == Cancel(spent)
    ensures VerdictHolds(w.ledger, ReconcileCancelled(w.rows[snapshot.id], snapshot, spent, w.now))
    ensures w.rows[snapshot.id].id == snapshot.id
  {
    if snapshot.submitInvoked { ConflictContradicts(w, snapshot, view); }
    RowFacts(w, snapshot.id);
    hide Inv, Observations, Contradicted, GraphOk, Truthful;
  }

  lemma ReadInputsKeepsInv(w: World, view: View, rowsAgree: bool)
    requires Inv(w) && w.pending.AwaitInputs? && Truthful(w.ledger, view)
    ensures Inv(AfterInputs(w, view, rowsAgree))
  {
    var snapshot := w.pending.snapshot;
    var obs := Observations(snapshot.graph, view);
    var verdict := FirstRead(snapshot.submitInvoked, obs);
    var judged := w.(marks := Judged(w.marks, snapshot.id, verdict),
                     lastRead := w.lastRead[snapshot.id := obs], pending := Idle);
    JudgedMarksOk(w, snapshot, obs, verdict);
    if verdict.Cancel? { CancellationHolds(w, snapshot, view, verdict.spentTxid); }
    hide RowsOk, ReleasedOk, TxidsOk, AcceptedOk, SpendersKnown, MarksOk, FirstRead, Observations, Judged, VerdictHolds;
    assert Inv(judged) && (verdict.Proceed? ==> Inv(judged.(pending := AwaitOutputs(snapshot))));
    if verdict.Cancel? {
      hide Inv, Truthful;
      RowMoves(judged, snapshot.id, ReconcileCancelled(w.rows[snapshot.id], snapshot, verdict.spentTxid, w.now));
    }
  }

  lemma IdleKeepsInv(w: World)
    requires Inv(w)
    ensures Inv(w.(pending := Idle))
  {
    hide RowsOk, ReleasedOk, TxidsOk, AcceptedOk, SpendersKnown, Clean;
  }

  lemma ReadOutputsKeepsInv(w: World, indexed: map<Point, OutputCoin>, rowsAgree: bool)
    requires Inv(w) && w.pending.AwaitOutputs? && TruthfulOutputs(w, indexed)
    ensures Inv(AfterOutputs(w, indexed, rowsAgree))
  {
    var snapshot := w.pending.snapshot;
    var idle := w.(pending := Idle);
    IdleKeepsInv(w);
    if rowsAgree && SecondRead(snapshot.graph, indexed) {
      OutputsProveAcceptance(w, snapshot, indexed);
      RowFacts(w, snapshot.id);
      hide Inv, SecondRead, GraphOk, Contradicted;
      var row := ReconcileSettled(w.rows[snapshot.id], snapshot, snapshot.graph.txid, w.now);
      assert VerdictHolds(w.ledger, row);
      hide VerdictHolds, ReconcileSettled;
      RowMoves(idle, snapshot.id, row);
    }
  }

  lemma RowFacts(w: World, id: Id)
    requires Inv(w) && id in w.rows
    ensures VerdictHolds(w.ledger, w.rows[id]) && w.rows[id].id == id && GraphOk(w.ledger, w.rows[id].graph)
  {
  }

  lemma BeginTickKeepsInv(w: World)
    requires Inv(w) && Enabled(w, BeginTick)
    ensures Inv(Apply(w, BeginTick))
  {
    forall id | id in w.rows ensures w.rows[id].id == id { RowFacts(w, id); }
    hide RowsOk, ReleasedOk, TxidsOk, AcceptedOk, SpendersKnown, MarksOk;
  }

  lemma BeginPassKeepsInv(w: World, id: Id, linked: bool)
    requires Inv(w) && Enabled(w, BeginPass(id, linked))
    ensures Inv(Apply(w, BeginPass(id, linked)))
  {
    var after := Apply(w, BeginPass(id, linked));
    hide RowsOk, ReleasedOk, TxidsOk, AcceptedOk, SpendersKnown, Clean;
    assert PassOk(after.rows, after.pending, after.candidates);
    assert MarksOk(after.marks, after.lastRead, after.pending);
  }

  lemma EndTickKeepsInv(w: World)
    requires Inv(w) && Enabled(w, EndTick)
    ensures Inv(Apply(w, EndTick))
  {
    hide RowsOk, ReleasedOk, TxidsOk, AcceptedOk, SpendersKnown, Clean;
  }

  lemma OutputsProveAcceptance(w: World, snapshot: Fill, indexed: map<Point, OutputCoin>)
    requires Inv(w) && TruthfulOutputs(w, indexed) && SecondRead(snapshot.graph, indexed)
    requires snapshot.id in w.rows && w.rows[snapshot.id].graph == snapshot.graph
    ensures snapshot.graph.txid in w.ledger.accepted
  {
    var o := Expected(snapshot.graph)[0];
    assert o in Expected(snapshot.graph);
    assert Point(snapshot.graph.txid, o.vout) in indexed;
  }

  lemma ReadStepKeepsInv(w: World, s: Step)
    requires Inv(w) && Enabled(w, s)
    requires s.ReadInputs? || s.ReadOutputs? || s.PassFails? || s.Foreign?
    ensures Inv(Apply(w, s))
  {
    hide Inv, AfterInputs, AfterOutputs, AfterForeign, Truthful, TruthfulOutputs;
    if s.ReadInputs? { ReadInputsKeepsInv(w, s.view, s.rowsAgree); }
    else if s.ReadOutputs? { ReadOutputsKeepsInv(w, s.indexed, s.rowsAgree); }
    else if s.PassFails? { IdleKeepsInv(w); }
    else { ForeignKeepsInv(w, s.spender, s.ark, s.coins); }
  }

  lemma ClockKeepsInv(w: World, s: Step)
    requires Inv(w) && Enabled(w, s) && (s.Clock? || s.DraftQuote? || s.ReserveQuote? || s.LapseQuote?)
    ensures Inv(Apply(w, s))
  {
    hide RowsOk, ReleasedOk, TxidsOk, AcceptedOk, SpendersKnown, PassOk, MarksOk;
  }

  /** Every step keeps the invariant. */
  lemma StepKeepsInv(w: World, s: Step)
    requires Inv(w) && Enabled(w, s)
    ensures Inv(Apply(w, s))
  {
    hide Inv, Enabled, Apply;
    match s
    case Clock(_) => ClockKeepsInv(w, s);
    case DraftQuote(_, _, _) => ClockKeepsInv(w, s);
    case ReserveQuote(_) => ClockKeepsInv(w, s);
    case LapseQuote(_) => ClockKeepsInv(w, s);
    case Create(fill, token, started) => CreateKeepsInv(w, fill, token, started);
    case Send(id) => SendKeepsInv(w, id);
    case Expire(id) => ExpireKeepsInv(w, id);
    case Crash => CrashKeepsInv(w);
    case Accept(id) => AcceptKeepsInv(w, id);
    case SigningFailed(id) => SigningFailedKeepsInv(w, id);
    case RecordPrepared(_) => WorkerStepKeepsInv(w, s);
    case RecordSubmitInvoked(_) => WorkerStepKeepsInv(w, s);
    case RecordSubmitted(_) => WorkerStepKeepsInv(w, s);
    case RecordAmbiguous(_, _) => WorkerStepKeepsInv(w, s);
    case BeginTick => BeginTickKeepsInv(w);
    case BeginPass(id, linked) => BeginPassKeepsInv(w, id, linked);
    case EndTick => EndTickKeepsInv(w);
    case _ => ReadStepKeepsInv(w, s);
  }

  // ---------------------------------------------------------------- theorems

  lemma {:induction false} RunKeepsInv(start: World, steps: seq<Step>, end: World)
    requires Inv(start) && Run(start, steps, end)
    ensures Inv(end)
    decreases |steps|
  {
    hide Inv, Enabled, Apply;
    if steps != [] {
      StepKeepsInv(start, steps[0]);
      RunKeepsInv(Apply(start, steps[0]), steps[1..], end);
    }
  }

  /** Another fill with the same graph, quoted in the same second, was invoked. */
  ghost predicate OtherInvoked(w: World, id: Id)
    requires id in w.rows
  {
    exists other :: other in w.rows && other != id && SameTerms(w.rows[other], w.rows[id])
      && w.rows[other].submitInvoked
  }

  lemma AcceptedKeepsEveryInput(ledger: Ledger, graph: Graph)
    requires GraphOk(ledger, graph) && graph.txid in ledger.accepted
    ensures !Contradicted(ledger, graph)
  {
    forall i | 0 <= i < |graph.inputs| ensures !LostInput(ledger, graph, i) { assert OwnSpend(ledger, graph, i); }
  }

  /**
   * In every reachable world a settled fill's transaction was accepted. A cancelled or expired
   * fill's was accepted only if that fill was never invoked and another one with the same graph
   * and the same covenant locktime was.
   */
  lemma VerdictsAreTrue(steps: seq<Step>, w: World, id: Id)
    requires Run(GENESIS, steps, w) && id in w.rows
    ensures w.rows[id].state == Settled ==> w.rows[id].graph.txid in w.ledger.accepted
    ensures w.rows[id].state in {Cancelled, Expired} && w.rows[id].graph.txid in w.ledger.accepted ==>
              !w.rows[id].submitInvoked && OtherInvoked(w, id)
  {
    hide Run, Enabled, Apply;
    assert Inv(GENESIS);
    RunKeepsInv(GENESIS, steps, w);
    RowFacts(w, id);
    var row := w.rows[id];
    if row.state in {Cancelled, Expired} && row.graph.txid in w.ledger.accepted {
      AcceptedKeepsEveryInput(w.ledger, row.graph);
      assert HasReleased(w.rows, w.released, row.graph.txid);
    }
  }

  // ----------------------------------------------- what a step does to a row

  predicate Terminal(state: FillState) { state == Settled || state == Cancelled || state == Expired }

  /** Terms never change, an invocation stays recorded, and a verdict stays for good. */
  ghost predicate Evolves(before: Fill, after: Fill) {
    SameTerms(before, after) && (before.submitInvoked ==> after.submitInvoked)
      && (Terminal(before.state) ==> after == before)
  }

  ghost predicate RowEvolves(before: map<Id, Fill>, after: map<Id, Fill>, id: Id) {
    id in before ==> id in after && Evolves(before[id], after[id])
  }

  lemma MoveEvolves(w: World, id: Id, row: Fill, next: Phase, other: Id)
    requires id in w.rows && id in w.workers && (Holds(w, id) ==> Evolves(w.rows[id], row))
    ensures RowEvolves(w.rows, Move(w, id, row, next).rows, other)
  {
    hide Evolves;
    if other in w.rows { ItEvolves(w.rows[other]); }
  }

  lemma ItEvolves(row: Fill)
    ensures Evolves(row, row)
  {
  }

  /** A worker writes only to a row that is submitting under its lease. */
  lemma WorkerRowEvolves(w: World, s: Step, other: Id)
    requires Enabled(w, s)
    requires s.RecordPrepared? || s.RecordSubmitInvoked? || s.RecordSubmitted? || s.RecordAmbiguous?
    ensures RowEvolves(w.rows, Apply(w, s).rows, other)
  {
    hide Move, RowEvolves;
    var id := s.id;
    var row, started := w.rows[id], w.workers[id].started;
    if s.RecordPrepared? {
      MoveEvolves(w, id, Touched(row, started), Ready, other);
    } else if s.RecordSubmitInvoked? {
      MoveEvolves(w, id, Touched(row.(submitInvoked := true), started), Sending, other);
    } else if s.RecordSubmitted? {
      MoveEvolves(w, id, Touched(row.(txid := Some(row.graph.txid)), started), Done, other);
    } else {
      var released := row.(leaseToken := None, leaseUntil := None, nextAttemptAt := Some(s.retryAt));
      MoveEvolves(w, id, Touched(released, started), Done, other);
    }
  }

  lemma SigningFailedEvolves(w: World, id: Id, other: Id)
    requires Enabled(w, SigningFailed(id))
    ensures RowEvolves(w.rows, Apply(w, SigningFailed(id)).rows, other)
  {
    var row := w.rows[id];
    var after := if row.submitInvoked then row else Terminated(row, Cancelled, w.now);
    if Holds(w, id) {
      assert row.state == Submitting;
      hide Move, Holds;
      MoveEvolves(w, id, after, Done, other);
    } else if other in w.rows {
      ItEvolves(w.rows[other]);
    }
  }

  lemma ReconciledEvolves(row: Fill, snapshot: Fill, spent: Option<Id>, txid: Id, now: nat)
    ensures Evolves(row, ReconcileCancelled(row, snapshot, spent, now))
    ensures Evolves(row, ReconcileSettled(row, snapshot, txid, now))
  {
  }

  lemma ReadRowEvolves(w: World, s: Step, id: Id)
    requires Enabled(w, s) && (s.ReadInputs? || s.ReadOutputs?)
    ensures RowEvolves(w.rows, Apply(w, s).rows, id)
  {
    hide FirstRead, SecondRead, Observations, Truthful, TruthfulOutputs, ReconcileCancelled, ReconcileSettled, Judged,
      Evolves;
    if id in w.rows {
      ItEvolves(w.rows[id]);
      forall spent ensures Evolves(w.rows[id], ReconcileCancelled(w.rows[id], w.pending.snapshot, spent, w.now)) {
        ReconciledEvolves(w.rows[id], w.pending.snapshot, spent, "", w.now);
      }
      ReconciledEvolves(w.rows[id], w.pending.snapshot, None, w.pending.snapshot.graph.txid, w.now);
    }
  }

  lemma ExpiredEvolves(w: World, expired: Id, id: Id)
    requires Enabled(w, Expire(expired))
    ensures RowEvolves(w.rows, Apply(w, Expire(expired)).rows, id)
  {
    if id in w.rows { ItEvolves(w.rows[id]); }
  }

  predicate LeavesRows(s: Step) {
    || s.Clock? || s.DraftQuote? || s.ReserveQuote? || s.LapseQuote? || s.Create? || s.Send? || s.Crash? || s.Accept?
    || s.Foreign? || s.BeginTick? || s.BeginPass? || s.PassFails? || s.EndTick?
  }

  lemma OldRowStays(w: World, s: Step, id: Id)
    requires Enabled(w, s) && LeavesRows(s) && id in w.rows
    ensures id in Apply(w, s).rows && Apply(w, s).rows[id] == w.rows[id]
  {
    hide Unspent, DistinctInputs, AcceptedSpends, Restarted, Pruned, Active, IsCandidate, Free;
  }

  lemma StepEvolves(w: World, s: Step, id: Id)
    requires Enabled(w, s)
    ensures RowEvolves(w.rows, Apply(w, s).rows, id)
  {
    hide Enabled, Apply, Evolves;
    match s
    case ReadInputs(_, _) => ReadRowEvolves(w, s, id);
    case ReadOutputs(_, _) => ReadRowEvolves(w, s, id);
    case RecordPrepared(_) => WorkerRowEvolves(w, s, id);
    case RecordSubmitInvoked(_) => WorkerRowEvolves(w, s, id);
    case RecordSubmitted(_) => WorkerRowEvolves(w, s, id);
    case RecordAmbiguous(_, _) => WorkerRowEvolves(w, s, id);
    case SigningFailed(failed) => SigningFailedEvolves(w, failed, id);
    case Expire(expired) => ExpiredEvolves(w, expired, id);
    case _ =>
      if id in w.rows {
        OldRowStays(w, s, id);
        ItEvolves(w.rows[id]);
      }
  }

  lemma TerminalStepStays(w: World, s: Step, id: Id)
    requires Enabled(w, s) && id in w.rows && Terminal(w.rows[id].state)
    ensures id in Apply(w, s).rows && Apply(w, s).rows[id] == w.rows[id]
  {
    hide Enabled, Apply;
    StepEvolves(w, s, id);
  }

  /** A verdict is final: after it no run changes the row, so no two ticks disagree. */
  lemma {:induction false} VerdictIsFinal(start: World, steps: seq<Step>, end: World, id: Id)
    requires Inv(start) && Run(start, steps, end)
    requires id in start.rows && Terminal(start.rows[id].state)
    ensures id in end.rows && end.rows[id] == start.rows[id]
    decreases |steps|
  {
    hide Inv, Enabled, Apply;
    if steps != [] {
      StepKeepsInv(start, steps[0]);
      TerminalStepStays(start, steps[0], id);
      VerdictIsFinal(Apply(start, steps[0]), steps[1..], end, id);
    }
  }

  lemma {:induction false} RunsCompose(start: World, first: seq<Step>, middle: World, second: seq<Step>, end: World)
    requires Run(start, first, middle) && Run(middle, second, end)
    ensures Run(start, first + second, end)
    decreases |first|
  {
    hide Enabled, Apply;
    if first == [] {
      assert first + second == second;
    } else {
      assert (first + second)[1..] == first[1..] + second;
      RunsCompose(Apply(start, first[0]), first[1..], middle, second, end);
    }
  }
}
