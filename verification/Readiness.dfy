// The status the fill reconciler reports and the quarantine-aware readiness gate of
// packages/app/src/routes.ts (`operationalSnapshot`).
module Readiness {
  import opened Prelude
  import opened FillReconciler
  import opened FillProtocol
  import opened FillSafety

  datatype Status = Status(lastTickAt: Option<nat>, submitting: nat, quarantined: nat, blockers: seq<string>)

  const UNEXPECTED_SPEND := "fill_unexpected_spend"
  const LIABILITY_UNRESOLVED := "fill_liability_unresolved"
  const NOT_STARTED := "fill_reconciler_not_started"

  /** `isQuarantined`; `bound` says the linked quote and advance still carry this fill's facts. */
  predicate IsQuarantined(fill: Fill, marks: Marks, bound: set<Id>) {
    fill.id !in marks.unexpected && fill.id in marks.quarantined && fill.id in bound
  }

  function CountQuarantined(rows: seq<Fill>, marks: Marks, bound: set<Id>): nat {
    if rows == [] then 0
    else (if IsQuarantined(rows[0], marks, bound) then 1 else 0) + CountQuarantined(rows[1..], marks, bound)
  }

  predicate SomeUnexpected(rows: seq<Fill>, marks: Marks) {
    exists i :: 0 <= i < |rows| && rows[i].id in marks.unexpected
  }

  predicate SomeLapsed(rows: seq<Fill>, now: nat) {
    exists i :: 0 <= i < |rows| && LeaseOver(rows[i], now)
  }

  predicate EveryQuarantined(rows: seq<Fill>, marks: Marks, bound: set<Id>) {
    forall i :: 0 <= i < |rows| ==> IsQuarantined(rows[i], marks, bound)
  }

  function StatusOf(rows: seq<Fill>, marks: Marks, bound: set<Id>, lastTickAt: Option<nat>, now: nat): Status {
    Status(lastTickAt, |rows|, CountQuarantined(rows, marks, bound),
           (if SomeUnexpected(rows, marks) then [UNEXPECTED_SPEND] else [])
           + (if SomeLapsed(rows, now) then [LIABILITY_UNRESOLVED] else []))
  }

  function Without(codes: seq<string>, dropped: string): seq<string> {
    if codes == [] then []
    else (if codes[0] == dropped then [] else [codes[0]]) + Without(codes[1..], dropped)
  }

  /** The blockers the gate collects; `others` are those of every other subsystem. */
  function Blockers(others: seq<string>, fills: Status, allowQuarantinedFills: bool): seq<string> {
    var quarantined := allowQuarantinedFills && fills.submitting > 0 && fills.quarantined == fills.submitting;
    others
    + (if quarantined then Without(fills.blockers, LIABILITY_UNRESOLVED) else fills.blockers)
    + (if fills.lastTickAt.None? then [NOT_STARTED] else [])
  }

  predicate Ready(others: seq<string>, fills: Status, allowQuarantinedFills: bool) {
    Blockers(others, fills, allowQuarantinedFills) == []
  }

  lemma {:induction false} CountIsFull(rows: seq<Fill>, marks: Marks, bound: set<Id>)
    ensures CountQuarantined(rows, marks, bound) <= |rows|
    ensures CountQuarantined(rows, marks, bound) == |rows| <==> EveryQuarantined(rows, marks, bound)
  {
    if rows != [] {
      CountIsFull(rows[1..], marks, bound);
      assert EveryQuarantined(rows, marks, bound) <==>
             IsQuarantined(rows[0], marks, bound) && EveryQuarantined(rows[1..], marks, bound) by {
        assert forall i :: 0 < i < |rows| ==> rows[i] == rows[1..][i - 1];
        assert forall i :: 0 <= i < |rows[1..]| ==> rows[1..][i] == rows[i + 1];
      }
    }
  }

  /** Exactly when the gate lets the service be ready. */
  lemma ReadyExactlyWhen(
    others: seq<string>, rows: seq<Fill>, marks: Marks, bound: set<Id>, lastTickAt: Option<nat>, now: nat, allow: bool)
    ensures Ready(others, StatusOf(rows, marks, bound, lastTickAt, now), allow) <==>
            && others == []
            && lastTickAt.Some?
            && (forall i :: 0 <= i < |rows| ==> rows[i].id !in marks.unexpected)
            && ((forall i :: 0 <= i < |rows| ==> rows[i].leaseUntil.Some? && rows[i].leaseUntil.value > now)
                || (allow && rows != []
                    && forall i :: 0 <= i < |rows| ==> rows[i].id in marks.quarantined && rows[i].id in bound))
  {
    CountIsFull(rows, marks, bound);
    var status := StatusOf(rows, marks, bound, lastTickAt, now);
    if SomeUnexpected(rows, marks) {
      assert status.blockers[0] == UNEXPECTED_SPEND != LIABILITY_UNRESOLVED;
      assert Without(status.blockers, LIABILITY_UNRESOLVED) != [];
      assert Blockers(others, status, allow) != [];
    } else if SomeLapsed(rows, now) {
      assert status.blockers == [LIABILITY_UNRESOLVED];
      assert Without(status.blockers, LIABILITY_UNRESOLVED) == [];
    } else {
      assert status.blockers == [] && Without(status.blockers, LIABILITY_UNRESOLVED) == [];
    }
  }

  /** `rows` is what `listByState("submitting")` returns in world `w`. */
  ghost predicate Lists(w: World, rows: seq<Fill>) {
    && (forall i :: 0 <= i < |rows| ==>
       rows[i].id in w.rows && w.rows[rows[i].id] == rows[i] && rows[i].state == Submitting)
    && (forall id :: id in w.rows && w.rows[id].state == Submitting ==> w.rows[id] in rows)
  }

  /**
   * In every reachable world, readiness under the quarantine allowance means that no
   * submitting fill is marked unexpected, and that either no submitting lease has lapsed or
   * the latest read of every submitting fill saw all its inputs without conflict or unknown spend.
   */
  lemma ReadyMeansNoOpenQuestion(
    steps: seq<Step>, w: World, others: seq<string>, rows: seq<Fill>, bound: set<Id>, lastTickAt: Option<nat>,
    allow: bool)
    requires Run(GENESIS, steps, w) && Lists(w, rows)
    requires Ready(others, StatusOf(rows, w.marks, bound, lastTickAt, w.now), allow)
    ensures forall id :: id in w.rows && w.rows[id].state == Submitting ==> id !in w.marks.unexpected
    ensures (forall id :: id in w.rows && w.rows[id].state == Submitting ==> !LeaseOver(w.rows[id], w.now))
            || (forall id :: id in w.rows && w.rows[id].state == Submitting ==>
                  id in w.lastRead && Clean(w.lastRead[id]))
  {
    assert Inv(GENESIS);
    RunKeepsInv(GENESIS, steps, w);
    ReadyExactlyWhen(others, rows, w.marks, bound, lastTickAt, w.now, allow);
    hide Run, Ready, StatusOf, RowsOk, Clean;
    forall id | id in w.rows ensures w.rows[id].id == id { RowFacts(w, id); }
    forall id | id in w.rows && w.rows[id].state == Submitting
      ensures exists i :: 0 <= i < |rows| && rows[i] == w.rows[id]
    {
      assert w.rows[id] in rows;
    }
  }
}
