// What a cancelled or expired verdict is worth: exactly when the fill's transaction can still be
// accepted afterwards. The coins of a fill are held for it until its verdict, and its graph commits
// to a covenant whose locktime names the second of its quote.
module FillVerdicts {
  import opened Prelude
  import opened FillReconciler
  import opened FillProtocol
  import opened FillSafety

  // ------------------------------------------------------ coins are held once

  /** No coin is held by two open quotes, by two submitting fills, or by one of each. */
  ghost predicate HeldOnce(quotes: map<Id, Quote>, rows: map<Id, Fill>) {
    && (forall q, r :: q in quotes && r in quotes && q != r && quotes[q].state == Open == quotes[r].state ==>
          quotes[q].coins !! quotes[r].coins)
    && (forall q, id :: q in quotes && id in rows && quotes[q].state == Open && rows[id].state == Submitting ==>
          quotes[q].coins !! TaxiPoints(rows[id].graph))
    && (forall a, b :: a in rows && b in rows && a != b && rows[a].state == Submitting == rows[b].state ==>
          TaxiPoints(rows[a].graph) !! TaxiPoints(rows[b].graph))
  }

  /** Every covenant was quoted by now, and every fill spends some coin of the Taxi's. */
  ghost predicate Quoted(now: nat, quotes: map<Id, Quote>, rows: map<Id, Fill>) {
    && (forall q :: q in quotes ==> quotes[q].locktime <= now + COVENANT_DEADLINE && quotes[q].coins != {})
    && (forall id :: id in rows ==> rows[id].locktime <= now + COVENANT_DEADLINE && TaxiPoints(rows[id].graph) != {})
  }

  ghost predicate Reserved(w: World) { HeldOnce(w.quotes, w.rows) && Quoted(w.now, w.quotes, w.rows) }

  /** Open quotes and submitting fills afterwards were so before, with the same coins. */
  ghost predicate NothingNewHeld(
    quotes: map<Id, Quote>, rows: map<Id, Fill>, laterQuotes: map<Id, Quote>, laterRows: map<Id, Fill>)
  {
    && (forall q :: q in laterQuotes && laterQuotes[q].state == Open ==>
          q in quotes && quotes[q].state == Open && quotes[q].coins == laterQuotes[q].coins)
    && (forall id :: id in laterRows && laterRows[id].state == Submitting ==>
          id in rows && rows[id].state == Submitting && rows[id].graph == laterRows[id].graph)
  }

  lemma HeldOnceShrinks(
    quotes: map<Id, Quote>, rows: map<Id, Fill>, laterQuotes: map<Id, Quote>, laterRows: map<Id, Fill>)
    requires HeldOnce(quotes, rows) && NothingNewHeld(quotes, rows, laterQuotes, laterRows)
    ensures HeldOnce(laterQuotes, laterRows)
  {
    hide TaxiPoints;
  }

  /** A step that touches no quote and only moves rows on keeps the reservations. */
  lemma MovedRowsKeepReserved(w: World, s: Step)
    requires Reserved(w) && Enabled(w, s)
    requires LeavesQuotes(w, s)
    ensures Reserved(Apply(w, s))
  {
    hide Enabled, Apply, HeldOnce, TaxiPoints;
    var after := Apply(w, s);
    forall id | id in w.rows ensures RowEvolves(w.rows, after.rows, id) { StepEvolves(w, s, id); }
    assert NothingNewHeld(w.quotes, w.rows, after.quotes, after.rows);
    assert Quoted(after.now, after.quotes, after.rows);
    HeldOnceShrinks(w.quotes, w.rows, after.quotes, after.rows);
  }

  /** A fill takes over the coins of the quote it binds. */
  lemma BindingKeepsHeldOnce(quotes: map<Id, Quote>, rows: map<Id, Fill>, q: Id, fill: Fill)
    requires HeldOnce(quotes, rows) && q in quotes && quotes[q].state == Open && fill.id !in rows
    requires TaxiPoints(fill.graph) == quotes[q].coins
    ensures HeldOnce(quotes[q := quotes[q].(state := Bound)], rows[fill.id := fill])
  {
    hide TaxiPoints;
  }

  lemma CreateKeepsReserved(w: World, fill: Fill, token: Id, started: nat)
    requires Reserved(w) && Enabled(w, Create(fill, token, started))
    ensures Reserved(Apply(w, Create(fill, token, started)))
  {
    hide TaxiPoints, HeldOnce;
    BindingKeepsHeldOnce(w.quotes, w.rows, fill.quoteId, fill);
  }

  lemma ReserveKeepsReserved(w: World, q: Id)
    requires Reserved(w) && Enabled(w, ReserveQuote(q))
    ensures Reserved(Apply(w, ReserveQuote(q)))
  {
    hide TaxiPoints;
    assert HeldOnce(Apply(w, ReserveQuote(q)).quotes, w.rows);
  }

  lemma DraftKeepsReserved(w: World, q: Id, coins: set<Point>, expiresAt: nat)
    requires Reserved(w) && Enabled(w, DraftQuote(q, coins, expiresAt))
    ensures Reserved(Apply(w, DraftQuote(q, coins, expiresAt)))
  {
    hide TaxiPoints, HeldOnce, Free;
    HeldOnceShrinks(w.quotes, w.rows, Apply(w, DraftQuote(q, coins, expiresAt)).quotes, w.rows);
  }

  lemma LapseKeepsReserved(w: World, q: Id)
    requires Reserved(w) && Enabled(w, LapseQuote(q))
    ensures Reserved(Apply(w, LapseQuote(q)))
  {
    hide TaxiPoints, HeldOnce;
    HeldOnceShrinks(w.quotes, w.rows, Apply(w, LapseQuote(q)).quotes, w.rows);
  }

  lemma CrashKeepsReserved(w: World)
    requires Reserved(w)
    ensures Reserved(Apply(w, Crash))
  {
    hide TaxiPoints, HeldOnce;
    HeldOnceShrinks(w.quotes, w.rows, Apply(w, Crash).quotes, w.rows);
  }

  lemma ClockKeepsReserved(w: World, elapsed: nat)
    requires Reserved(w)
    ensures Reserved(Apply(w, Clock(elapsed)))
  {
    hide TaxiPoints, HeldOnce;
  }

  predicate TouchesQuotes(s: Step) {
    s.Clock? || s.DraftQuote? || s.ReserveQuote? || s.LapseQuote? || s.Create? || s.Crash?
  }

  /** Same quotes, same clock, no new row, and the ledger is only the concern of its own steps. */
  ghost predicate LeavesQuotes(w: World, s: Step)
    requires Enabled(w, s)
  {
    var after := Apply(w, s);
    && after.quotes == w.quotes && after.now == w.now && (forall id :: id in after.rows ==> id in w.rows)
    && (s.Accept? || s.Foreign? || after.ledger == w.ledger)
  }

  lemma QuietStepsLeaveQuotes(w: World, s: Step)
    requires Enabled(w, s) && LeavesRows(s) && !TouchesQuotes(s)
    ensures LeavesQuotes(w, s)
  {
    hide Truthful, TruthfulOutputs, Unspent, DistinctInputs, AcceptedSpends, Free, IsCandidate, AtPhase, Points;
  }

  lemma WorkersLeaveQuotes(w: World, s: Step)
    requires Enabled(w, s)
    requires s.RecordPrepared? || s.RecordSubmitInvoked? || s.RecordSubmitted? || s.RecordAmbiguous? || s.SigningFailed?
    ensures LeavesQuotes(w, s)
  {
    hide Terminated, Holds, Touched;
  }

  lemma VerdictsLeaveQuotes(w: World, s: Step)
    requires Enabled(w, s) && (s.Expire? || s.ReadInputs? || s.ReadOutputs?)
    ensures LeavesQuotes(w, s)
  {
    hide FirstRead, Observations, Truthful, ReconcileCancelled, SecondRead, TruthfulOutputs, ReconcileSettled,
      Terminated, LeaseOver, Judged;
  }

  lemma OtherStepsLeaveQuotes(w: World, s: Step)
    requires Enabled(w, s) && !TouchesQuotes(s)
    ensures LeavesQuotes(w, s)
  {
    hide Enabled, Apply;
    if LeavesRows(s) { QuietStepsLeaveQuotes(w, s); }
    else if s.Expire? || s.ReadInputs? || s.ReadOutputs? { VerdictsLeaveQuotes(w, s); }
    else { WorkersLeaveQuotes(w, s); }
  }

  lemma StepKeepsReserved(w: World, s: Step)
    requires Reserved(w) && Enabled(w, s)
    ensures Reserved(Apply(w, s))
  {
    hide Reserved, Enabled, Apply;
    match s
    case Clock(elapsed) => ClockKeepsReserved(w, elapsed);
    case DraftQuote(q, coins, expiresAt) => DraftKeepsReserved(w, q, coins, expiresAt);
    case ReserveQuote(q) => ReserveKeepsReserved(w, q);
    case LapseQuote(q) => LapseKeepsReserved(w, q);
    case Create(fill, token, started) => CreateKeepsReserved(w, fill, token, started);
    case Crash => CrashKeepsReserved(w);
    case _ =>
      OtherStepsLeaveQuotes(w, s);
      MovedRowsKeepReserved(w, s);
  }

  lemma {:induction false} RunKeepsReserved(start: World, steps: seq<Step>, end: World)
    requires Reserved(start) && Run(start, steps, end)
    ensures Reserved(end)
    decreases |steps|
  {
    hide Reserved, Enabled, Apply;
    if steps != [] {
      StepKeepsReserved(start, steps[0]);
      RunKeepsReserved(Apply(start, steps[0]), steps[1..], end);
    }
  }

  // ----------------------------------------------------- no way back for a fill

  predicate SameCovenant(quote: Quote, row: Fill) {
    quote.locktime == row.locktime && quote.coins == TaxiPoints(row.graph)
  }

  /** A row that never was and never will be invoked: ended, or too late for its worker to submit. */
  ghost predicate Harmless(w: World, id: Id)
    requires id in w.rows && id in w.workers
  {
    !w.rows[id].submitInvoked && (Terminal(w.rows[id].state) || w.workers[id].expiresAt <= w.now)
  }

  ghost predicate FillsHarmless(w: World, txid: Id) {
    forall id :: id in w.rows && id in w.workers && w.rows[id].graph.txid == txid ==> Harmless(w, id)
  }

  /** No quote that could still bring the graph back can be bound in time. */
  ghost predicate QuotesHarmless(w: World, row: Fill) {
    forall q :: q in w.quotes && w.quotes[q].state in {Draft, Open} && SameCovenant(w.quotes[q], row) ==>
      w.quotes[q].expiresAt <= w.now
  }

  /** The transaction of this row was not accepted, and nothing in this world can lead there. */
  ghost predicate Stranded(w: World, row: Fill) {
    && row.graph.txid !in w.ledger.accepted
    && (Unspent(w.ledger, row.graph) ==>
          w.now + COVENANT_DEADLINE > row.locktime && QuotesHarmless(w, row) && FillsHarmless(w, row.graph.txid))
  }

  lemma AcceptsAnother(w: World, id: Id, row: Fill, known: Id)
    requires Inv(w) && Enabled(w, Accept(id)) && Stranded(w, row)
    requires known in w.rows && SameTerms(w.rows[known], row)
    ensures w.rows[id].graph.txid != row.graph.txid
  {
    hide AcceptedOk, SpendersKnown, PassOk, MarksOk, QuotesHarmless;
    assert w.rows[id].graph.txid == row.graph.txid ==> SameTerms(w.rows[id], w.rows[known]);
  }

  lemma AcceptKeepsStranded(w: World, id: Id, row: Fill, known: Id)
    requires Inv(w) && Enabled(w, Accept(id)) && Stranded(w, row)
    requires known in w.rows && SameTerms(w.rows[known], row)
    ensures Stranded(Apply(w, Accept(id)), row)
  {
    AcceptsAnother(w, id, row, known);
    AcceptOnlyAdds(w, id);
    hide Inv, AcceptedSpends;
  }

  lemma ForeignKeepsStranded(w: World, s: Step, row: Fill)
    requires Enabled(w, s) && s.Foreign? && Stranded(w, row)
    ensures Stranded(Apply(w, s), row)
  {
  }

  lemma CreateKeepsStranded(w: World, fill: Fill, token: Id, started: nat, row: Fill, known: Id)
    requires Enabled(w, Create(fill, token, started)) && Stranded(w, row)
    requires known in w.rows && SameTerms(w.rows[known], row)
    ensures Stranded(Apply(w, Create(fill, token, started)), row)
  {
    hide TaxiPoints, DistinctInputs;
    var after := Apply(w, Create(fill, token, started));
    if Unspent(w.ledger, row.graph) && fill.graph.txid == row.graph.txid {
      assert fill.graph == w.rows[known].graph && fill.locktime == row.locktime;
      assert SameCovenant(w.quotes[fill.quoteId], row);
    }
  }

  lemma QuoteStepKeepsStranded(w: World, s: Step, row: Fill)
    requires Enabled(w, s) && Stranded(w, row) && (s.DraftQuote? || s.ReserveQuote? || s.LapseQuote?)
    ensures Stranded(Apply(w, s), row)
  {
    hide TaxiPoints, Free, Unspent;
  }

  lemma ClockOrCrashKeepsStranded(w: World, s: Step, row: Fill)
    requires Enabled(w, s) && Stranded(w, row) && (s.Clock? || s.Crash?)
    ensures Stranded(Apply(w, s), row)
  {
    hide TaxiPoints, Unspent;
  }

  lemma MoveStaysHarmless(w: World, moved: Id, row: Fill, next: Phase, id: Id)
    requires moved in w.rows && moved in w.workers && id in w.rows && id in w.workers && Harmless(w, id)
    requires moved == id && Holds(w, id) ==> !row.submitInvoked
    ensures Harmless(Move(w, moved, row, next), id)
  {
  }

  lemma SigningFailedStaysHarmless(w: World, failed: Id, id: Id)
    requires Enabled(w, SigningFailed(failed)) && id in w.rows && id in w.workers && Harmless(w, id)
    ensures var after := Apply(w, SigningFailed(failed));
            id in after.rows && id in after.workers && Harmless(after, id)
  {
    var row := w.rows[failed];
    hide Move;
    MoveStaysHarmless(w, failed, if row.submitInvoked then row else Terminated(row, Cancelled, w.now), Done, id);
  }

  /** A worker that cannot submit any more leaves its row uninvoked. */
  lemma WorkersStayHarmless(w: World, s: Step, id: Id)
    requires Enabled(w, s) && id in w.rows && id in w.workers && Harmless(w, id)
    requires s.RecordPrepared? || s.RecordSubmitInvoked? || s.RecordSubmitted? || s.RecordAmbiguous?
    ensures var after := Apply(w, s);
            id in after.rows && id in after.workers && Harmless(after, id)
  {
    var moved := s.id;
    var row, started := w.rows[moved], w.workers[moved].started;
    hide Move;
    if s.RecordPrepared? {
      MoveStaysHarmless(w, moved, Touched(row, started), Ready, id);
    } else if s.RecordSubmitInvoked? {
      MoveStaysHarmless(w, moved, Touched(row.(submitInvoked := true), started), Sending, id);
    } else if s.RecordSubmitted? {
      MoveStaysHarmless(w, moved, Touched(row.(txid := Some(row.graph.txid)), started), Done, id);
    } else {
      var released := row.(leaseToken := None, leaseUntil := None, nextAttemptAt := Some(s.retryAt));
      MoveStaysHarmless(w, moved, Touched(released, started), Done, id);
    }
  }

  lemma VerdictsStayHarmless(w: World, s: Step, id: Id)
    requires Enabled(w, s) && id in w.rows && id in w.workers && Harmless(w, id)
    requires s.Expire? || s.ReadInputs? || s.ReadOutputs?
    ensures var after := Apply(w, s);
            id in after.rows && id in after.workers && Harmless(after, id)
  {
    StepEvolves(w, s, id);
    hide FirstRead, Observations, Truthful, SecondRead, TruthfulOutputs, LeaseOver, Judged, Matches;
  }

  lemma QuietStepsStayHarmless(w: World, s: Step, id: Id)
    requires Enabled(w, s) && LeavesRows(s) && !TouchesQuotes(s)
    requires id in w.rows && id in w.workers && Harmless(w, id)
    ensures var after := Apply(w, s);
            id in after.rows && id in after.workers && Harmless(after, id)
  {
    OldRowStays(w, s, id);
    hide Truthful, TruthfulOutputs, Unspent, DistinctInputs, AcceptedSpends, Free, IsCandidate, AtPhase, Points,
      Terminal;
  }

  lemma OtherStepsStayHarmless(w: World, s: Step, id: Id)
    requires Enabled(w, s) && !TouchesQuotes(s)
    requires id in w.rows && id in w.workers && Harmless(w, id)
    ensures var after := Apply(w, s);
            id in after.rows && id in after.workers && Harmless(after, id)
  {
    hide Enabled, Apply, Harmless;
    if LeavesRows(s) { QuietStepsStayHarmless(w, s, id); }
    else if s.Expire? || s.ReadInputs? || s.ReadOutputs? { VerdictsStayHarmless(w, s, id); }
    else if s.SigningFailed? { SigningFailedStaysHarmless(w, s.id, id); }
    else { WorkersStayHarmless(w, s, id); }
  }

  lemma OtherStepsKeepStranded(w: World, s: Step, row: Fill)
    requires Inv(w) && Enabled(w, s) && Stranded(w, row)
    requires !TouchesQuotes(s) && !s.Accept? && !s.Foreign?
    ensures Stranded(Apply(w, s), row)
  {
    hide Enabled, Apply, Inv, Harmless, TaxiPoints, Unspent, Evolves;
    var after := Apply(w, s);
    OtherStepsLeaveQuotes(w, s);
    if Unspent(w.ledger, row.graph) {
      forall id | id in after.rows && id in after.workers && after.rows[id].graph.txid == row.graph.txid
        ensures Harmless(after, id)
      {
        StepEvolves(w, s, id);
        SameGraph(w.rows[id], after.rows[id]);
        WorkerOf(w, id);
        OtherStepsStayHarmless(w, s, id);
      }
    }
  }

  lemma SubmittingBefore(before: Fill, after: Fill)
    requires Evolves(before, after) && after.state == Submitting
    ensures before.state == Submitting && before.graph == after.graph
  {
  }

  lemma SameGraph(before: Fill, after: Fill)
    requires Evolves(before, after)
    ensures before.graph == after.graph
  {
  }

  lemma WorkerOf(w: World, id: Id)
    requires Inv(w) && id in w.rows
    ensures id in w.workers
  {
  }

  lemma StepKeepsStranded(w: World, s: Step, row: Fill, known: Id)
    requires Inv(w) && Enabled(w, s) && Stranded(w, row)
    requires known in w.rows && SameTerms(w.rows[known], row)
    ensures Stranded(Apply(w, s), row)
  {
    hide Inv, Enabled, Apply, Stranded, SameTerms;
    match s
    case Clock(_) => ClockOrCrashKeepsStranded(w, s, row);
    case Crash => ClockOrCrashKeepsStranded(w, s, row);
    case DraftQuote(_, _, _) => QuoteStepKeepsStranded(w, s, row);
    case ReserveQuote(_) => QuoteStepKeepsStranded(w, s, row);
    case LapseQuote(_) => QuoteStepKeepsStranded(w, s, row);
    case Create(fill, token, started) => CreateKeepsStranded(w, fill, token, started, row, known);
    case Accept(id) => AcceptKeepsStranded(w, id, row, known);
    case Foreign(_, _, _) => ForeignKeepsStranded(w, s, row);
    case _ => OtherStepsKeepStranded(w, s, row);
  }

  /** A stranded transaction is not accepted in any later world. */
  lemma {:induction false} StrandedForever(start: World, steps: seq<Step>, end: World, row: Fill, known: Id)
    requires Inv(start) && Run(start, steps, end) && Stranded(start, row)
    requires known in start.rows && SameTerms(start.rows[known], row)
    ensures row.graph.txid !in end.ledger.accepted
    decreases |steps|
  {
    hide Inv, Enabled, Apply, SameTerms, QuotesHarmless, FillsHarmless, Unspent;
    if steps != [] {
      var next := Apply(start, steps[0]);
      StepKeepsInv(start, steps[0]);
      StepKeepsStranded(start, steps[0], row, known);
      StepEvolves(start, steps[0], known);
      TermsStay(start.rows[known], next.rows[known], row);
      StrandedForever(next, steps[1..], end, row, known);
    }
  }

  lemma TermsStay(before: Fill, after: Fill, row: Fill)
    requires Evolves(before, after) && SameTerms(before, row)
    ensures SameTerms(after, row)
  {
  }

  // ------------------------------------------------------------ after a verdict

  ghost predicate AcceptedLater(w: World, txid: Id) {
    exists steps, later :: Run(w, steps, later) && txid in later.ledger.accepted
  }

  /** A quote under construction since the second of the fill's own, for the same coins. */
  ghost predicate DraftPending(w: World, row: Fill) {
    exists q :: q in w.quotes && w.quotes[q].state == Draft && SameCovenant(w.quotes[q], row)
      && w.now < w.quotes[q].expiresAt
  }

  /** No input is spent, and the clock still shows the second of the fill's quote, or showed it to a draft. */
  ghost predicate Overtakable(w: World, row: Fill) {
    Unspent(w.ledger, row.graph) && (w.now + COVENANT_DEADLINE == row.locktime || DraftPending(w, row))
  }

  /** This step ends the fill without settling it. */
  ghost predicate EndsUnsettled(v: World, s: Step, id: Id) {
    && id in v.rows && v.rows[id].state == Submitting
    && Enabled(v, s) && id in Apply(v, s).rows && Apply(v, s).rows[id].state in {Cancelled, Expired}
  }

  lemma LostMeansSpent(ledger: Ledger, graph: Graph)
    requires Contradicted(ledger, graph)
    ensures !Unspent(ledger, graph)
  {
  }

  /** Whatever ends a fill unsettled moves no quote, no clock and no ledger. */
  lemma VerdictTouchesNothingElse(v: World, s: Step, id: Id)
    requires EndsUnsettled(v, s, id)
    ensures !LeavesRows(s) && LeavesQuotes(v, s) && SameTerms(v.rows[id], Apply(v, s).rows[id])
  {
    hide Enabled, Apply;
    if LeavesRows(s) { OldRowStays(v, s, id); }
    OtherStepsLeaveQuotes(v, s);
    StepEvolves(v, s, id);
  }

  lemma OtherRowHarmless(v: World, s: Step, id: Id, other: Id)
    requires Inv(v) && Reserved(v) && EndsUnsettled(v, s, id)
    requires other in v.rows && other != id && v.rows[other].graph.txid == v.rows[id].graph.txid
    requires v.rows[id].graph.txid !in Apply(v, s).ledger.accepted && Unspent(Apply(v, s).ledger, v.rows[id].graph)
    ensures other in Apply(v, s).rows && Apply(v, s).rows[other] == v.rows[other]
    ensures Terminal(v.rows[other].state) && !v.rows[other].submitInvoked
  {
    assert SameTerms(v.rows[other], v.rows[id]) by { hide RowsOk, Enabled, Apply; }
    assert v.rows[other].state != Submitting by {
      hide Inv, Enabled, Apply, TaxiPoints;
      assert TaxiPoints(v.rows[id].graph) != {};
    }
    hide Inv, Enabled, Apply, Reserved, Unspent;
    StepKeepsInv(v, s);
    TerminalStepStays(v, s, other);
    RowFacts(Apply(v, s), other);
    if Contradicted(Apply(v, s).ledger, v.rows[other].graph) {
      LostMeansSpent(Apply(v, s).ledger, v.rows[other].graph);
    }
  }

  lemma QuotesHarmlessAfter(v: World, s: Step, id: Id)
    requires Reserved(v) && EndsUnsettled(v, s, id)
    requires !DraftPending(Apply(v, s), Apply(v, s).rows[id])
    ensures QuotesHarmless(Apply(v, s), Apply(v, s).rows[id])
  {
    VerdictTouchesNothingElse(v, s, id);
    hide Enabled, Apply, TaxiPoints;
  }

  /** Where a verdict cannot be overtaken, the transaction is stranded. */
  lemma VerdictStrands(v: World, s: Step, id: Id)
    requires Inv(v) && Reserved(v) && EndsUnsettled(v, s, id)
    requires Apply(v, s).rows[id].graph.txid !in Apply(v, s).ledger.accepted
    requires !Overtakable(Apply(v, s), Apply(v, s).rows[id])
    ensures Stranded(Apply(v, s), Apply(v, s).rows[id])
  {
    hide Enabled, Apply;
    var w := Apply(v, s);
    var row := w.rows[id];
    VerdictTouchesNothingElse(v, s, id);
    StepKeepsInv(v, s);
    RowFacts(w, id);
    if Unspent(w.ledger, row.graph) {
      if Contradicted(w.ledger, row.graph) { LostMeansSpent(w.ledger, row.graph); }
      assert !row.submitInvoked;
      QuotesHarmlessAfter(v, s, id);
      assert w.now + COVENANT_DEADLINE > row.locktime by { hide Inv, HeldOnce; }
      hide Inv, Reserved, Unspent, DraftPending, QuotesHarmless, Contradicted, GraphOk;
      forall x | x in w.rows && x in w.workers && w.rows[x].graph.txid == row.graph.txid ensures Harmless(w, x) {
        if x != id {
          StepEvolves(v, s, x);
          SameGraph(v.rows[x], w.rows[x]);
          OtherRowHarmless(v, s, id, x);
        }
      }
    }
  }

  // ------------------------------------------------ the run that overtakes it

  lemma StepThen(w: World, s: Step, txid: Id)
    requires Enabled(w, s) && AcceptedLater(Apply(w, s), txid)
    ensures AcceptedLater(w, txid)
  {
    hide Enabled, Apply;
    var steps, later :| Run(Apply(w, s), steps, later) && txid in later.ledger.accepted;
    assert ([s] + steps)[0] == s && ([s] + steps)[1..] == steps;
    assert Run(w, [s] + steps, later);
  }

  lemma AcceptedNow(w: World, txid: Id)
    requires txid in w.ledger.accepted
    ensures AcceptedLater(w, txid)
  {
    assert Run(w, [], w);
  }

  lemma SendingLeads(w: World, id: Id)
    requires AtPhase(w, id, {Sending}) && Unspent(w.ledger, w.rows[id].graph)
    ensures AcceptedLater(w, w.rows[id].graph.txid)
  {
    var sent := Apply(w, Send(id));
    var after := Apply(sent, Accept(id));
    var txid := w.rows[id].graph.txid;
    assert Enabled(w, Send(id)) && Enabled(sent, Accept(id)) && txid in after.ledger.accepted;
    hide Apply, Enabled, AcceptedLater, Unspent;
    AcceptedNow(after, txid);
    StepThen(sent, Accept(id), txid);
    StepThen(w, Send(id), txid);
  }

  /** A worker under its own lease, early enough to submit, on a graph that is still whole. */
  ghost predicate OnTime(w: World, id: Id, phase: Phase) {
    AtPhase(w, id, {phase}) && Holds(w, id) && w.now < w.workers[id].expiresAt && Unspent(w.ledger, w.rows[id].graph)
  }

  lemma ReadyLeads(w: World, id: Id)
    requires OnTime(w, id, Ready)
    ensures AcceptedLater(w, w.rows[id].graph.txid)
  {
    var s := RecordSubmitInvoked(id);
    assert Enabled(w, s) && AtPhase(Apply(w, s), id, {Sending});
    assert Apply(w, s).rows[id].graph == w.rows[id].graph && Apply(w, s).ledger == w.ledger;
    hide Apply, Enabled, AcceptedLater, Unspent;
    SendingLeads(Apply(w, s), id);
    StepThen(w, s, w.rows[id].graph.txid);
  }

  lemma SigningLeads(w: World, id: Id)
    requires OnTime(w, id, Signing)
    ensures AcceptedLater(w, w.rows[id].graph.txid)
  {
    var s := RecordPrepared(id);
    assert Enabled(w, s) && OnTime(Apply(w, s), id, Ready) && Apply(w, s).rows[id].graph == w.rows[id].graph;
    hide Apply, Enabled, AcceptedLater, OnTime;
    ReadyLeads(Apply(w, s), id);
    StepThen(w, s, w.rows[id].graph.txid);
  }

  /** The fill that takes up the graph of `row` again, under another quote. */
  function Again(row: Fill, id: Id, quoteId: Id, expiresAt: nat, now: nat): Fill {
    row.(id := id, quoteId := quoteId, state := Submitting, submitInvoked := false, leaseToken := Some(id),
      leaseUntil := Some(now),
         nextAttemptAt := None, updatedAt := now, expiresAt := expiresAt, txid := None, spentTxid := None)
  }

  lemma CreatedAgain(w: World, q: Id, id: Id, row: Fill)
    requires TxidsOk(w.rows) && GraphOk(w.ledger, row.graph) && q in w.quotes && w.quotes[q].state == Open
    requires SameCovenant(w.quotes[q], row) && w.now < w.quotes[q].expiresAt && id !in w.rows
             && Unspent(w.ledger, row.graph)
    requires row.id in w.rows && w.rows[row.id] == row
    ensures var s := Create(Again(row, id, q, w.quotes[q].expiresAt, w.now), id, w.now);
            && Enabled(w, s) && OnTime(Apply(w, s), id, Signing) && Apply(w, s).rows[id].graph == row.graph
  {
    hide TaxiPoints, Unspent, DistinctInputs;
    forall other | other in w.rows && w.rows[other].graph.txid == row.graph.txid ensures SameTerms(w.rows[other], row) {
      assert SameTerms(w.rows[other], w.rows[row.id]);
    }
  }

  lemma OpenQuoteLeads(w: World, q: Id, id: Id, row: Fill)
    requires Inv(w) && q in w.quotes && w.quotes[q].state == Open && SameCovenant(w.quotes[q], row)
    requires w.now < w.quotes[q].expiresAt && id !in w.rows && Unspent(w.ledger, row.graph)
    requires row.id in w.rows && w.rows[row.id] == row
    ensures AcceptedLater(w, row.graph.txid)
  {
    var fill := Again(row, id, q, w.quotes[q].expiresAt, w.now);
    var s := Create(fill, id, w.now);
    RowFacts(w, row.id);
    CreatedAgain(w, q, id, row);
    hide Inv, Apply, Enabled, AcceptedLater, OnTime, TaxiPoints, Unspent;
    SigningLeads(Apply(w, s), id);
    StepThen(w, s, row.graph.txid);
  }

  lemma DraftLeads(w: World, q: Id, id: Id, row: Fill)
    requires Inv(w) && q in w.quotes && w.quotes[q].state == Draft && SameCovenant(w.quotes[q], row)
    requires Free(w, TaxiPoints(row.graph))
    requires w.now < w.quotes[q].expiresAt && id !in w.rows && Unspent(w.ledger, row.graph)
    requires row.id in w.rows && w.rows[row.id] == row
    ensures AcceptedLater(w, row.graph.txid)
  {
    var s := ReserveQuote(q);
    var after := Apply(w, s);
    assert Enabled(w, s);
    assert after.ledger == w.ledger && after.rows == w.rows && after.now == w.now
      && after.quotes == w.quotes[q := w.quotes[q].(state := Open)];
    StepKeepsInv(w, s);
    hide Inv, Apply, Enabled, AcceptedLater, Unspent, Free, TaxiPoints;
    OpenQuoteLeads(after, q, id, row);
    StepThen(w, s, row.graph.txid);
  }

  lemma QuotedAgain(w: World, q: Id, coins: set<Point>)
    requires q !in w.quotes && coins != {} && Free(w, coins)
    ensures var s := DraftQuote(q, coins, w.now + 1);
            && Enabled(w, s)
            && Apply(w, s) == w.(quotes := w.quotes[q := Quote(w.now + COVENANT_DEADLINE, w.now + 1, coins, Draft)])
            && Free(Apply(w, s), coins)
  {
    hide TaxiPoints;
  }

  lemma SameSecondLeads(w: World, q: Id, id: Id, row: Fill)
    requires Inv(w) && q !in w.quotes && w.now + COVENANT_DEADLINE == row.locktime
    requires TaxiPoints(row.graph) != {} && Free(w, TaxiPoints(row.graph))
    requires id !in w.rows && Unspent(w.ledger, row.graph)
    requires row.id in w.rows && w.rows[row.id] == row
    ensures AcceptedLater(w, row.graph.txid)
  {
    hide Inv, Apply, Enabled, AcceptedLater, Unspent, Free, TaxiPoints;
    var s := DraftQuote(q, TaxiPoints(row.graph), w.now + 1);
    QuotedAgain(w, q, TaxiPoints(row.graph));
    StepKeepsInv(w, s);
    DraftLeads(Apply(w, s), q, id, row);
    StepThen(w, s, row.graph.txid);
  }

  // ------------------------------------------------------------------ theorem

  lemma {:induction false} LongerThanAll(used: set<Id>) returns (bound: nat)
    ensures forall id :: id in used ==> |id| < bound
  {
    if used == {} { return 0; }
    var id :| id in used;
    bound := LongerThanAll(used - {id});
    if bound <= |id| { bound := |id| + 1; }
  }

  lemma FreshId(used: set<Id>) returns (id: Id)
    ensures id !in used
  {
    var bound := LongerThanAll(used);
    id := seq(bound, _ => 'x');
  }

  /** When a verdict falls, the fill's coins are free again. */
  lemma CoinsAreFreed(v: World, s: Step, id: Id)
    requires Reserved(v) && EndsUnsettled(v, s, id)
    ensures Free(Apply(v, s), TaxiPoints(Apply(v, s).rows[id].graph)) && TaxiPoints(Apply(v, s).rows[id].graph) != {}
  {
    VerdictTouchesNothingElse(v, s, id);
    hide Enabled, Apply, TaxiPoints, Evolves;
    var w := Apply(v, s);
    forall other | other in w.rows && w.rows[other].state == Submitting
      ensures TaxiPoints(w.rows[other].graph) !! TaxiPoints(w.rows[id].graph)
    {
      StepEvolves(v, s, other);
      SubmittingBefore(v.rows[other], w.rows[other]);
      assert other != id;
    }
  }

  lemma VerdictIsOvertaken(v: World, s: Step, id: Id)
    requires Inv(v) && Reserved(v) && EndsUnsettled(v, s, id) && Overtakable(Apply(v, s), Apply(v, s).rows[id])
    ensures AcceptedLater(Apply(v, s), Apply(v, s).rows[id].graph.txid)
  {
    var w := Apply(v, s);
    var row := w.rows[id];
    StepKeepsInv(v, s);
    CoinsAreFreed(v, s, id);
    RowFacts(w, id);
    hide Inv, Reserved, Enabled, Apply, Unspent, Free, TaxiPoints, AcceptedLater;
    var next := FreshId(w.rows.Keys);
    if DraftPending(w, row) {
      var q :| q in w.quotes && w.quotes[q].state == Draft && SameCovenant(w.quotes[q], row)
        && w.now < w.quotes[q].expiresAt;
      DraftLeads(w, q, next, row);
    } else {
      var q := FreshId(w.quotes.Keys);
      SameSecondLeads(w, q, next, row);
    }
  }

  lemma ReachableHolds(past: seq<Step>, v: World)
    requires Run(GENESIS, past, v)
    ensures Inv(v) && Reserved(v)
  {
    assert Inv(GENESIS) && Reserved(GENESIS);
    hide Inv, Reserved, Run, Enabled, Apply;
    RunKeepsInv(GENESIS, past, v);
    RunKeepsReserved(GENESIS, past, v);
  }

  lemma VerdictDecides(v: World, s: Step, id: Id)
    requires Inv(v) && Reserved(v) && EndsUnsettled(v, s, id)
    ensures var w := Apply(v, s);
            AcceptedLater(w, w.rows[id].graph.txid) <==>
            w.rows[id].graph.txid in w.ledger.accepted || Overtakable(w, w.rows[id])
  {
    var w := Apply(v, s);
    var row := w.rows[id];
    StepKeepsInv(v, s);
    hide Inv, Reserved, Run, Enabled, Apply, Overtakable, Stranded;
    if row.graph.txid in w.ledger.accepted {
      AcceptedNow(w, row.graph.txid);
    } else if Overtakable(w, row) {
      VerdictIsOvertaken(v, s, id);
    } else {
      VerdictStrands(v, s, id);
      forall steps, later | Run(w, steps, later) ensures row.graph.txid !in later.ledger.accepted {
        StrandedForever(w, steps, later, row, id);
      }
    }
  }

  /**
   * When a fill is cancelled or expires, its transaction is accepted then or in some later world
   * exactly when it was already, or no input is spent and the second of its quote is not over, or a
   * quote under construction has read that second. A caller can check all three at the verdict; a
   * fill that was invoked is only ever cancelled with an input spent.
   */
  lemma AcceptedAfterVerdictExactlyWhen(past: seq<Step>, v: World, s: Step, id: Id)
    requires Run(GENESIS, past, v) && EndsUnsettled(v, s, id)
    ensures var w := Apply(v, s);
            AcceptedLater(w, w.rows[id].graph.txid) <==>
            w.rows[id].graph.txid in w.ledger.accepted || Overtakable(w, w.rows[id])
  {
    ReachableHolds(past, v);
    hide Inv, Reserved, Run, Enabled, Apply, Overtakable, AcceptedLater, EndsUnsettled;
    VerdictDecides(v, s, id);
  }

  /**
   * In whatever later world: an invoked fill that was cancelled is never accepted, and any other
   * cancelled or expired one only through another invoked fill with its graph and its locktime.
   */
  lemma CancelledNeverAccepted(past: seq<Step>, w: World, future: seq<Step>, later: World, id: Id)
    requires Run(GENESIS, past, w) && Run(w, future, later)
    requires id in w.rows && w.rows[id].state in {Cancelled, Expired}
    ensures id in later.rows && later.rows[id] == w.rows[id]
    ensures w.rows[id].submitInvoked || !OtherInvoked(later, id) ==> w.rows[id].graph.txid !in later.ledger.accepted
  {
    ReachableHolds(past, w);
    hide Inv, Run, Enabled, Apply;
    VerdictIsFinal(w, future, later, id);
    RunsCompose(GENESIS, past, w, future, later);
    VerdictsAreTrue(past + future, later, id);
  }

  // ------------------------------------------------ the condition is not idle

  const SHARED_GRAPH := Graph("tx", [GraphInput(Point("coin", 0), "checkpoint", true)], [], 0, "operator")
  const FIRST_FILL :=
    Fill("a", "q", COVENANT_DEADLINE, SHARED_GRAPH, Submitting, false, Some("token"), Some(60), None, 0, 60, None, None)
  const FIRST_STEPS := [DraftQuote("q", {Point("coin", 0)}, 60), ReserveQuote("q"), Create(FIRST_FILL, "token", 0)]

  lemma RunOf(start: World, s: Step, rest: seq<Step>, end: World)
    requires Enabled(start, s) && Run(Apply(start, s), rest, end)
    ensures Run(start, [s] + rest, end)
  {
    hide Enabled, Apply;
    assert ([s] + rest)[0] == s && ([s] + rest)[1..] == rest;
  }

  lemma FirstFillRuns() returns (v: World)
    ensures Run(GENESIS, FIRST_STEPS, v)
    ensures v.now == 0 && v.ledger == GENESIS.ledger && v.rows == map["a" := FIRST_FILL]
    ensures AtPhase(v, "a", {Signing}) && Holds(v, "a")
  {
    var drafted := Apply(GENESIS, FIRST_STEPS[0]);
    var reserved := Apply(drafted, FIRST_STEPS[1]);
    assert Enabled(drafted, FIRST_STEPS[1]);
    assert TaxiPoints(SHARED_GRAPH) == {Point("coin", 0)} by { assert SHARED_GRAPH.inputs[0].taxi; }
    v := Apply(reserved, FIRST_STEPS[2]);
    assert Enabled(reserved, FIRST_STEPS[2]);
    hide Enabled, Apply;
    assert Run(v, [], v);
    RunOf(reserved, FIRST_STEPS[2], [], v);
    RunOf(drafted, FIRST_STEPS[1], [FIRST_STEPS[2]], v);
    RunOf(GENESIS, FIRST_STEPS[0], [FIRST_STEPS[1]] + [FIRST_STEPS[2]], v);
    assert [FIRST_STEPS[0]] + ([FIRST_STEPS[1]] + [FIRST_STEPS[2]]) == FIRST_STEPS;
  }

  /**
   * Signing fails in the second of the quote, so the first fill is cancelled; the same coins are
   * quoted again within that second, and the graph is accepted through a second fill.
   */
  lemma CancelledFillIsAccepted() returns (v: World)
    ensures Run(GENESIS, FIRST_STEPS, v) && EndsUnsettled(v, SigningFailed("a"), "a")
    ensures Apply(v, SigningFailed("a")).rows["a"].state == Cancelled
    ensures AcceptedLater(Apply(v, SigningFailed("a")), "tx")
  {
    v := FirstFillRuns();
    var w := Apply(v, SigningFailed("a"));
    assert EndsUnsettled(v, SigningFailed("a"), "a") && w.rows["a"].graph == SHARED_GRAPH
      && w.rows["a"].state == Cancelled;
    assert Overtakable(w, w.rows["a"]);
    hide Run, Enabled, Apply, EndsUnsettled, AcceptedLater, Overtakable;
    AcceptedAfterVerdictExactlyWhen(FIRST_STEPS, v, SigningFailed("a"), "a");
  }
}
