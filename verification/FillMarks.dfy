// The unexpected mark: which reads set it, what clears it, and what it stands for over whole runs.
module FillMarks {
  import opened Prelude
  import opened FillReconciler
  import opened FillProtocol
  import opened FillSafety

  /** Evidence that `reconcile` marks instead of resolving. */
  predicate Unresolvable(submitInvoked: bool, obs: seq<Observation>) {
    HintsWithoutSpend(obs) || HasUnknownSpend(obs) || (OwnsAnySpend(obs) && (!submitInvoked || HasConflict(obs)))
  }

  lemma UnexpectedExactlyWhen(submitInvoked: bool, obs: seq<Observation>)
    ensures FirstRead(submitInvoked, obs) == Unexpected <==> Unresolvable(submitInvoked, obs)
  {
    hide HintsWithoutSpend, HasUnknownSpend, OwnsAnySpend, EverySeen, TaxiSpent, HasConflict;
  }

  /** This step is a first read of the fill's inputs, and it shows such evidence. */
  predicate ReadMarks(w: World, s: Step, id: Id) {
    && s.ReadInputs? && w.pending.AwaitInputs? && w.pending.snapshot.id == id
    && Unresolvable(w.pending.snapshot.submitInvoked, Observations(w.pending.snapshot.graph, s.view))
  }

  /** Such a read marks the fill, marked before or not, ends the pass, and changes no row. */
  lemma EvidenceMarks(w: World, s: Step, id: Id)
    requires Enabled(w, s) && ReadMarks(w, s, id)
    ensures id in Apply(w, s).marks.unexpected && Apply(w, s).pending == Idle && Apply(w, s).rows == w.rows
  {
    UnexpectedExactlyWhen(w.pending.snapshot.submitInvoked, Observations(w.pending.snapshot.graph, s.view));
    hide FirstRead, Unresolvable, Observations, Truthful, HintsWithoutSpend, HasUnknownSpend, OwnsAnySpend, HasConflict;
  }

  /** A read with mixed evidence marks the fill and leaves every row as it was. */
  lemma MixedReadResolvesNothing(w: World, view: View, rowsAgree: bool)
    requires w.pending.AwaitInputs?
    requires Mixed(Observations(w.pending.snapshot.graph, view))
    ensures var after := AfterInputs(w, view, rowsAgree);
            after.rows == w.rows && after.pending == Idle && w.pending.snapshot.id in after.marks.unexpected
  {
    MixedEvidenceIsNeverResolved(w.pending.snapshot.submitInvoked, Observations(w.pending.snapshot.graph, view));
  }

  /**
   * A foreign transaction that spends an input through the fill's own checkpoint shows one own
   * id and one foreign id, so every full read of that input ends in a mark.
   */
  lemma SharedCheckpointIsNeverResolved(w: World, view: View, rowsAgree: bool, i: nat)
    requires w.pending.AwaitInputs? && i < |w.pending.snapshot.graph.inputs| && Truthful(w.ledger, view)
    requires var graph := w.pending.snapshot.graph;
             var input := graph.inputs[i];
             && input.point in view && view[input.point].isSpent
             && view[input.point].arkTxId.Some? && view[input.point].spentBy.Some?
             && w.ledger.spends[input.point].checkpoint == Some(input.checkpoint)
             && w.ledger.spends[input.point].ark != Some(graph.txid)
             && w.ledger.spends[input.point].ark != Some(input.checkpoint)
    ensures AfterInputs(w, view, rowsAgree).rows == w.rows
    ensures w.pending.snapshot.id in AfterInputs(w, view, rowsAgree).marks.unexpected
  {
    var graph := w.pending.snapshot.graph;
    var obs := Observations(graph, view);
    var p := graph.inputs[i].point;
    var hints := Hints(view[p]);
    assert hints == [view[p].arkTxId.value, view[p].spentBy.value];
    assert hints[0] in hints && hints[1] in hints;
    assert IsOwn(graph, graph.inputs[i], hints[1]) && !IsOwn(graph, graph.inputs[i], hints[0]);
    assert obs[i].own && obs[i].conflict.Some?;
    MixedReadResolvesNothing(w, view, rowsAgree);
  }

  lemma ReadsMarkExactly(w: World, s: Step, id: Id)
    requires Enabled(w, s) && s.ReadInputs?
    ensures id in Apply(w, s).marks.unexpected <==> id in w.marks.unexpected || ReadMarks(w, s, id)
  {
    UnexpectedExactlyWhen(w.pending.snapshot.submitInvoked, Observations(w.pending.snapshot.graph, s.view));
    hide FirstRead, Unresolvable, Observations, Truthful, HintsWithoutSpend, HasUnknownSpend, OwnsAnySpend,
      HasConflict, ReconcileCancelled, EverySeen, TaxiSpent;
  }

  lemma QuietStepsKeepMarks(w: World, s: Step, id: Id)
    requires Enabled(w, s) && LeavesRows(s) && !s.Crash? && !s.EndTick?
    ensures id in Apply(w, s).marks.unexpected <==> id in w.marks.unexpected
  {
    hide Truthful, TruthfulOutputs, Unspent, DistinctInputs, AcceptedSpends, Free, IsCandidate, AtPhase, Binds, Points;
  }

  lemma WorkersKeepMarks(w: World, s: Step)
    requires Enabled(w, s)
    requires s.RecordPrepared? || s.RecordSubmitInvoked? || s.RecordSubmitted? || s.RecordAmbiguous? || s.SigningFailed?
    ensures Apply(w, s).marks == w.marks
  {
    hide Holds, Touched, Terminated, AtPhase;
  }

  lemma VerdictsKeepMarks(w: World, s: Step)
    requires Enabled(w, s) && (s.Expire? || s.ReadOutputs?)
    ensures Apply(w, s).marks == w.marks
  {
    hide SecondRead, TruthfulOutputs, ReconcileSettled, Terminated, LeaseOver;
  }

  lemma ATickKeepsActiveMarks(w: World, id: Id)
    requires Enabled(w, EndTick) && id in w.rows && w.rows[id].state == Submitting
    ensures id in Apply(w, EndTick).marks.unexpected <==> id in w.marks.unexpected
  {
  }

  /**
   * After any step, a submitting fill is marked exactly when it was and the step is no crash, or
   * when the step is a read that shows evidence against it.
   */
  lemma MarkAfterStep(w: World, s: Step, id: Id)
    requires Enabled(w, s) && id in w.rows
    requires id in Apply(w, s).rows && Apply(w, s).rows[id].state == Submitting
    ensures id in Apply(w, s).marks.unexpected <==> (id in w.marks.unexpected && !s.Crash?) || ReadMarks(w, s, id)
  {
    if s.ReadInputs? {
      hide Enabled, Apply, ReadMarks;
      ReadsMarkExactly(w, s, id);
    } else if s.EndTick? {
      OldRowStays(w, s, id);
      hide Enabled, Apply;
      ATickKeepsActiveMarks(w, id);
    } else if !s.Crash? {
      hide Enabled, Apply;
      if LeavesRows(s) { QuietStepsKeepMarks(w, s, id); }
      else if s.Expire? || s.ReadOutputs? { VerdictsKeepMarks(w, s); }
      else { WorkersKeepMarks(w, s); }
    }
  }

  /** A crash is the only step that takes the mark from a fill that is still submitting. */
  lemma UnexpectedPersists(w: World, s: Step, id: Id)
    requires Enabled(w, s) && id in w.rows && id in w.marks.unexpected
    requires id in Apply(w, s).rows && Apply(w, s).rows[id].state == Submitting
    ensures id in Apply(w, s).marks.unexpected <==> !s.Crash?
  {
    hide Enabled, Apply;
    MarkAfterStep(w, s, id);
  }

  /** Somewhere in the run a read shows evidence against the fill, and no crash follows. */
  ghost predicate MarkedDuring(w: World, steps: seq<Step>, id: Id)
    decreases |steps|
  {
    steps != [] && Enabled(w, steps[0])
    && ((ReadMarks(w, steps[0], id) && Crash !in steps[1..]) || MarkedDuring(Apply(w, steps[0]), steps[1..], id))
  }

  lemma {:induction false} MarkedAlong(start: World, steps: seq<Step>, end: World, id: Id)
    requires Inv(start) && Run(start, steps, end)
    requires id in start.rows && id in end.rows && end.rows[id].state == Submitting
    ensures id in end.marks.unexpected <==>
            (id in start.marks.unexpected && Crash !in steps) || MarkedDuring(start, steps, id)
    decreases |steps|
  {
    hide Inv, Enabled, Apply, ReadMarks;
    if steps != [] {
      var next := Apply(start, steps[0]);
      StepKeepsInv(start, steps[0]);
      StepEvolves(start, steps[0], id);
      assert id in next.rows;
      if next.rows[id].state != Submitting { VerdictIsFinal(next, steps[1..], end, id); }
      assert Crash in steps <==> steps[0] == Crash || Crash in steps[1..];
      MarkAfterStep(start, steps[0], id);
      MarkedAlong(next, steps[1..], end, id);
    }
  }

  /**
   * Over any run between reachable worlds a fill that is still submitting is marked at the end
   * exactly when it was at the start and nothing crashed, or when some read showed evidence and
   * nothing crashed since. So a crash loses the mark, and the next read that still sees the
   * evidence sets it again.
   */
  lemma MarkedExactlyWhen(past: seq<Step>, start: World, steps: seq<Step>, end: World, id: Id)
    requires Run(GENESIS, past, start) && Run(start, steps, end)
    requires id in start.rows && id in end.rows && end.rows[id].state == Submitting
    ensures id in end.marks.unexpected <==>
            (id in start.marks.unexpected && Crash !in steps) || MarkedDuring(start, steps, id)
  {
    assert Inv(GENESIS);
    hide Inv, Run, MarkedDuring;
    RunKeepsInv(GENESIS, past, start);
    MarkedAlong(start, steps, end, id);
  }
}
