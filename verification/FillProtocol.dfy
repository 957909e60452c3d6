// The fill protocol as steps over durable rows and an append-only, atomic ledger:
// the worker of packages/app/src/fills.ts (createFill, signAndSubmit), the row updates of
// packages/db/src/fills.ts, the reconciler of packages/app/src/fillReconciler.ts, other
// parties' transactions, lease expiry, and crashes at any point. A fill binds a receive quote
// of packages/app/src/receiveQuotes.ts, which holds the Taxi's coins until then.
module FillProtocol {
  import opened Prelude
  import opened FillReconciler

  /** Who spent a coin, and the two ids the indexer may report for that spend. */
  datatype Spend = Spend(spender: Id, ark: Option<Id>, checkpoint: Option<Id>)

  /** Spends are only ever added; `accepted` holds the txids of accepted fill graphs. */
  datatype Ledger = Ledger(spends: map<Point, Spend>, accepted: set<Id>, foreign: set<Id>)

  /** Where `signAndSubmit` has got to. `Sending` follows a successful recordSubmitInvoked. */
  datatype Phase = Signing | Ready | Sending | Waiting | Done

  /** `started` is the clock read when the request came in; row updates carry it, not the clock. */
  datatype Worker = Worker(phase: Phase, token: Id, expiresAt: nat, started: nat)

  /** `Draft` is a quote still under construction; only `Open` and bound ones hold coins. */
  datatype QuoteState = Draft | Open | Bound | Lapsed

  datatype Quote = Quote(locktime: nat, expiresAt: nat, coins: set<Point>, state: QuoteState)

  /** `covenantDeadlineSeconds`, a configuration value; no proof depends on which. */
  const COVENANT_DEADLINE: nat := 8640000

  /** A reconcile pass between its awaits. */
  datatype Pending = Idle | AwaitInputs(snapshot: Fill) | AwaitOutputs(snapshot: Fill)

  datatype World = World(
    now: nat,
    ledger: Ledger,
    quotes: map<Id, Quote>,
    rows: map<Id, Fill>,
    workers: map<Id, Worker>,
    released: set<Id>,                          // fills whose signed graph has left the process
    marks: Marks,
    lastRead: map<Id, seq<Observation>>,        // what the latest post-lease read observed
    candidates: map<Id, Fill>,                  // rows as read when the tick started
    pending: Pending)

  datatype Step =
    | Clock(elapsed: nat)
    | DraftQuote(id: Id, reserve: set<Point>, expiresAt: nat)
    | ReserveQuote(id: Id)
    | LapseQuote(id: Id)
    | Create(fill: Fill, token: Id, started: nat)
    | RecordPrepared(id: Id)
    | SigningFailed(id: Id)
    | RecordSubmitInvoked(id: Id)
    | Send(id: Id)
    | RecordSubmitted(id: Id)
    | RecordAmbiguous(id: Id, retryAt: nat)
    | Expire(id: Id)
    | Crash
    | Accept(id: Id)
    | Foreign(spender: Id, ark: Option<Id>, coins: map<Point, Option<Id>>)
    | BeginTick
    | BeginPass(id: Id, linked: bool)
    | ReadInputs(view: View, rowsAgree: bool)
    | ReadOutputs(indexed: map<Point, OutputCoin>, rowsAgree: bool)
    | PassFails
    | EndTick

  predicate Unspent(ledger: Ledger, graph: Graph) {
    forall i :: 0 <= i < |graph.inputs| ==> graph.inputs[i].point !in ledger.spends
  }

  predicate DistinctInputs(graph: Graph) {
    forall i, j :: 0 <= i < j < |graph.inputs| ==> graph.inputs[i].point != graph.inputs[j].point
  }

  function Points(graph: Graph): (r: set<Point>)
    ensures forall i :: 0 <= i < |graph.inputs| ==> graph.inputs[i].point in r
  {
    set i | 0 <= i < |graph.inputs| :: graph.inputs[i].point
  }

  function TaxiPoints(graph: Graph): set<Point> {
    set i | 0 <= i < |graph.inputs| && graph.inputs[i].taxi :: graph.inputs[i].point
  }

  /** No open quote and no submitting fill holds any of these coins. */
  predicate Free(w: World, coins: set<Point>) {
    && (forall q :: q in w.quotes && w.quotes[q].state == Open ==> w.quotes[q].coins !! coins)
    && (forall id :: id in w.rows && w.rows[id].state == Submitting ==> TaxiPoints(w.rows[id].graph) !! coins)
  }

  function CheckpointFrom(inputs: seq<GraphInput>, point: Point): Option<Id> {
    if inputs == [] then None
    else if inputs[0].point == point then Some(inputs[0].checkpoint)
    else CheckpointFrom(inputs[1..], point)
  }

  /** The spends an accepted graph adds: every input, by its txid, through its own checkpoint. */
  function AcceptedSpends(graph: Graph): map<Point, Spend> {
    map p | p in Points(graph) :: Spend(graph.txid, Some(graph.txid), CheckpointFrom(graph.inputs, p))
  }

  /**
   * A truthful answer about coins. It may omit coins, omit ids and lag behind the ledger;
   * what it says about a spent coin is what the ledger recorded.
   */
  predicate Truthful(ledger: Ledger, view: View) {
    forall p :: p in view && view[p].isSpent ==>
      && p in ledger.spends
      && (view[p].arkTxId.Some? ==> view[p].arkTxId == ledger.spends[p].ark)
      && (view[p].spentBy.Some? ==> view[p].spentBy == ledger.spends[p].checkpoint)
  }

  /** A fill graph's own outputs are only indexed once it was accepted. */
  predicate TruthfulOutputs(w: World, coins: map<Point, OutputCoin>) {
    forall p :: p in coins && (exists id :: id in w.rows && w.rows[id].graph.txid == p.txid) ==>
      p.txid in w.ledger.accepted
  }

  /** The worker's compare-and-set: the row is submitting under the worker's own lease. */
  predicate Holds(w: World, id: Id)
    requires id in w.rows && id in w.workers
  {
    w.rows[id].state == Submitting && w.rows[id].leaseToken == Some(w.workers[id].token)
  }

  function Touched(row: Fill, now: nat): Fill { row.(updatedAt := Max(row.updatedAt, now)) }

  /** `reconcileCandidates`. */
  predicate IsCandidate(row: Fill, now: nat) {
    row.state == Submitting && LeaseOver(row, now) && (row.nextAttemptAt.None? || row.nextAttemptAt.value <= now)
  }

  predicate AtPhase(w: World, id: Id, phases: set<Phase>) {
    id in w.rows && id in w.workers && w.workers[id].phase in phases
  }

  /** `bindFill`: the quote is still open, and the graph spends its coins under its covenant. */
  predicate Binds(w: World, fill: Fill, started: nat) {
    && fill.quoteId in w.quotes
    && var quote := w.quotes[fill.quoteId];
    && quote.state == Open && fill.locktime == quote.locktime && TaxiPoints(fill.graph) == quote.coins
    && fill.updatedAt == started <= w.now && started < fill.expiresAt <= quote.expiresAt
  }

  predicate Enabled(w: World, s: Step) {
    match s
    case Clock(_) => true
    // The clock is read once the coins are seen to be free; inserting the quote checks them again.
    case DraftQuote(id, coins, expiresAt) => id !in w.quotes && coins != {} && Free(w, coins) && w.now < expiresAt
    case ReserveQuote(id) => id in w.quotes && w.quotes[id].state == Draft && Free(w, w.quotes[id].coins)
    case LapseQuote(id) => id in w.quotes && w.quotes[id].state == Open && w.quotes[id].expiresAt <= w.now
    case Create(fill, token, started) =>
      && fill.id !in w.rows
      && fill.state == Submitting && !fill.submitInvoked && fill.leaseToken == Some(token)
      && fill.leaseUntil.Some? && fill.txid == None && fill.spentTxid == None
      && Binds(w, fill, started) && DistinctInputs(fill.graph)
      // A txid commits to the whole graph, and a graph that spends Taxi coins needs Taxi signatures.
      && fill.graph.txid !in w.ledger.foreign
      && (forall id :: id in w.rows && w.rows[id].graph.txid == fill.graph.txid ==>
            w.rows[id].graph == fill.graph && w.rows[id].locktime == fill.locktime)
    case RecordPrepared(id) => AtPhase(w, id, {Signing})
    case SigningFailed(id) =>
      // While signing, or after it because the quote has expired.
      AtPhase(w, id, {Signing, Ready}) && (w.workers[id].phase == Ready ==> w.workers[id].expiresAt <= w.now)
    case RecordSubmitInvoked(id) => AtPhase(w, id, {Ready}) && w.workers[id].expiresAt > w.now
    case Send(id) => AtPhase(w, id, {Sending})
    case RecordSubmitted(id) => AtPhase(w, id, {Waiting})
    case RecordAmbiguous(id, _) => AtPhase(w, id, {Sending, Waiting})
    case Expire(id) =>
      && id in w.rows && w.rows[id].state == Submitting && !w.rows[id].submitInvoked
      && w.rows[id].expiresAt <= w.now && LeaseOver(w.rows[id], w.now)
    case Crash => true
    case Accept(id) => id in w.rows && id in w.released && Unspent(w.ledger, w.rows[id].graph)
    case Foreign(spender, ark, coins) =>
      && (forall id :: id in w.rows ==> w.rows[id].graph.txid != spender)
      && (ark == None || ark == Some(spender))
      && (forall p :: p in coins ==> p !in w.ledger.spends)
    case BeginTick => w.pending == Idle
    case BeginPass(id, _) => w.pending == Idle && id in w.candidates
    case ReadInputs(view, _) => w.pending.AwaitInputs? && Truthful(w.ledger, view)
    case ReadOutputs(indexed, _) => w.pending.AwaitOutputs? && TruthfulOutputs(w, indexed)
    case PassFails => w.pending != Idle
    case EndTick => w.pending == Idle
  }

  function WithQuote(w: World, id: Id, state: QuoteState): World
    requires id in w.quotes
  {
    w.(quotes := w.quotes[id := w.quotes[id].(state := state)])
  }

  function WithRow(w: World, id: Id, row: Fill): World { w.(rows := w.rows[id := row]) }

  function WithPhase(w: World, id: Id, phase: Phase): World
    requires id in w.workers
  {
    w.(workers := w.workers[id := w.workers[id].(phase := phase)])
  }

  /** A worker's update of its row: `row` where the compare-and-set succeeds, nothing otherwise. */
  function Move(w: World, id: Id, row: Fill, next: Phase): World
    requires id in w.rows && id in w.workers
  {
    if Holds(w, id) then WithPhase(WithRow(w, id, row), id, next) else WithPhase(w, id, Done)
  }

  function Active(w: World): set<Id> { set id | id in w.rows && w.rows[id].state == Submitting }

  /** A pass after its first read: the marks, and at most one row update or a second read. */
  function AfterInputs(w: World, view: View, rowsAgree: bool): World
    requires w.pending.AwaitInputs?
  {
    var snapshot := w.pending.snapshot;
    var obs := Observations(snapshot.graph, view);
    var verdict := FirstRead(snapshot.submitInvoked, obs);
    var judged := w.(marks := Judged(w.marks, snapshot.id, verdict),
                     lastRead := w.lastRead[snapshot.id := obs], pending := Idle);
    match verdict
    case Unexpected => judged
    case Cancel(spent) =>
      if rowsAgree && snapshot.id in w.rows
      then WithRow(judged, snapshot.id, ReconcileCancelled(w.rows[snapshot.id], snapshot, spent, w.now))
      else judged
    case Proceed(_, taxiSpent) => if taxiSpent then judged.(pending := AwaitOutputs(snapshot)) else judged
  }

  /** A pass after its second read: settled when every expected output is indexed as built. */
  ghost function AfterOutputs(w: World, indexed: map<Point, OutputCoin>, rowsAgree: bool): World
    requires w.pending.AwaitOutputs?
  {
    var snapshot := w.pending.snapshot;
    if rowsAgree && snapshot.id in w.rows && SecondRead(snapshot.graph, indexed)
    then WithRow(w.(pending := Idle), snapshot.id,
                 ReconcileSettled(w.rows[snapshot.id], snapshot, snapshot.graph.txid, w.now))
    else w.(pending := Idle)
  }

  function AfterForeign(w: World, spender: Id, ark: Option<Id>, coins: map<Point, Option<Id>>): World {
    w.(ledger := w.ledger.(spends := w.ledger.spends + map p | p in coins :: Spend(spender, ark, coins[p]),
                           foreign := w.ledger.foreign + {spender}))
  }

  /**
   * `rowsAgree` is false when the linked quote or advance disagrees: the update then throws
   * inside its transaction, the pass is abandoned and nothing changes.
   */
  ghost function Apply(w: World, s: Step): World
    requires Enabled(w, s)
  {
    match s
    case Clock(elapsed) => w.(now := w.now + elapsed)
    case DraftQuote(id, coins, expiresAt) =>
      w.(quotes := w.quotes[id := Quote(w.now + COVENANT_DEADLINE, expiresAt, coins, Draft)])
    case ReserveQuote(id) => WithQuote(w, id, Open)
    case LapseQuote(id) => WithQuote(w, id, Lapsed)
    case Create(fill, token, started) =>
      WithQuote(w, fill.quoteId, Bound)
      .(rows := w.rows[fill.id := fill],
        workers := w.workers[fill.id := Worker(Signing, token, fill.expiresAt, started)])
    case RecordPrepared(id) => Move(w, id, Touched(w.rows[id], w.workers[id].started), Ready)
    case SigningFailed(id) =>
      Move(w, id, if w.rows[id].submitInvoked then w.rows[id] else Terminated(w.rows[id], Cancelled, w.now), Done)
    case RecordSubmitInvoked(id) =>
      Move(w, id, Touched(w.rows[id].(submitInvoked := true), w.workers[id].started), Sending)
    case Send(id) => WithPhase(w.(released := w.released + {id}), id, Waiting)
    case RecordSubmitted(id) =>
      Move(w, id, Touched(w.rows[id].(txid := Some(w.rows[id].graph.txid)), w.workers[id].started), Done)
    case RecordAmbiguous(id, retryAt) =>
      var released := w.rows[id].(leaseToken := None, leaseUntil := None, nextAttemptAt := Some(retryAt));
      Move(w, id, Touched(released, w.workers[id].started), Done)
    case Expire(id) => WithRow(w, id, Terminated(w.rows[id], Expired, w.now))
    case Crash =>
      w.(quotes := map id | id in w.quotes && w.quotes[id].state != Draft :: w.quotes[id],
         workers := map id | id in w.workers :: w.workers[id].(phase := Done),
         marks := Marks({}, {}), lastRead := map[], candidates := map[], pending := Idle)
    case Accept(id) =>
      var graph := w.rows[id].graph;
      w.(ledger := w.ledger.(spends := w.ledger.spends + AcceptedSpends(graph),
                             accepted := w.ledger.accepted + {graph.txid}))
    case Foreign(spender, ark, coins) => AfterForeign(w, spender, ark, coins)
    case BeginTick => w.(candidates := map id | id in w.rows && IsCandidate(w.rows[id], w.now) :: w.rows[id])
    case BeginPass(id, linked) =>
      w.(marks := Restarted(w.marks, id), lastRead := w.lastRead - {id}, candidates := w.candidates - {id},
         pending := if linked then AwaitInputs(w.candidates[id]) else Idle)
    case ReadInputs(view, rowsAgree) => AfterInputs(w, view, rowsAgree)
    case ReadOutputs(indexed, rowsAgree) => AfterOutputs(w, indexed, rowsAgree)
    case PassFails => w.(pending := Idle)
    case EndTick => w.(marks := Pruned(w.marks, Active(w)))
  }

  const GENESIS := World(0, Ledger(map[], {}, {}), map[], map[], map[], {}, Marks({}, {}), map[], map[], Idle)

  /** The worlds a run of steps passes through. */
  ghost predicate Run(from: World, steps: seq<Step>, to: World)
    decreases |steps|
  {
    if steps == [] then from == to
    else Enabled(from, steps[0]) && Run(Apply(from, steps[0]), steps[1..], to)
  }
}
