# Verified model of Arkade Taxi

Arkade Taxi moves other people's money through joint transactions. This project models the code whose mistakes
would lose some of it, and proves what that code is there for. `dafny verify dfyconfig.toml` checks everything.

Six parts of the repository are modelled, each in the form the source has: classes where an object's fields are
updated, methods with loops where a loop fills a map or a list, functions where the source computes by
expressions.

- **Exact comparison** (`Canonical`, `CanonicalRoundTrip`, `Fingerprint`). The serialisers `canonical` and
  `canonicalJson`, on which every exact check and every claim fingerprint rests, and a parser that inverts the
  first in front of any delimiter. Strings are UTF-16 code units with JSON escaping (section 7 of RFC 8259, and
  JavaScript's escaping of lone surrogates).
- **Fill protocol** (`FillReconciler`, `FillProtocol`, `FillSafety`, `FillOutcomes`, `FillVerdicts`,
  `FillMarks`, `Readiness`). Receive quotes and the coins they hold, workers, crashes, lease expiry, other
  parties' transactions and reconciler ticks as steps over durable rows and an append-only, atomic ledger. A
  database update is one step: compare-and-set on the row read or on the lease token, and without effect when
  stale. A provider answer is truthful but may omit coins and ids and may lag.
- **Fill graphs** (`FillGraph`, `FillGraphMeans`, `FillConservation`, `DirectFill`, `DirectFillMeans`,
  `DirectFillAccepted`). The validator of caller-built graphs with its rules V1 to V10 and sats conservation,
  what acceptance means up to the coins that settle the fill, and the reference builder whose graphs the
  validator accepts.
- **Covenant spends** (`SpendPacket`, `CovenantSpend`, `SpendWatcher`, `SpendMeans`) and **the scan cache**
  (`Prefetch`, `PrefetchReads`, `ReadsMean`). The transactions `purchase`, `recycle` and `refund` build, the
  watcher's independent recogniser of them, and the batched cache that must be indistinguishable from narrow
  reads. The provider of the cache is an oracle about which nothing is assumed, except where a theorem says so.
- **Proceeds** (`Proceeds`, `ProceedsFacts`, `GuardMeans`, `PlansMean`). Greedy selection, the fee fixed point,
  inventory splits, the plan checker and the submit-time guard, under an arbitrary fee function of each input
  and output.
- **Joint layout** (`JointLayout`, `LayoutMeans`), **claim feed** (`ClaimFeed`) and **one-shot capabilities**
  (`Lifecycle`).

Where a method is proved against a specification function, a second statement says what that function means on
raw fields, ids, sums and places, without naming it (`FillOutcomes`, `FillGraphMeans`, `DirectFillMeans`,
`ReadsMean`, `SpendMeans`, `GuardMeans`, `PlansMean`, `LayoutMeans`): mostly as an equivalence, so that neither
direction is left open.

Signatures, tap trees, address and PSBT encodings, checkpoint evidence and spendability are opaque: either a
boolean verdict, or equality of values that stand for encoded bytes. Network answers, clocks and ledger reads
are parameters. Code between two awaits is one atomic step.

## What the proofs found

- "A cancelled fill's transaction can never be accepted" is false of the code, and `FillVerdicts` says exactly
  when. A fill that was invoked is only cancelled with an input lost, so it is never accepted. One that was not
  invoked can be overtaken: the same graph comes back through a second fill. That takes more than a txid that is
  not unique in the database. The coins are held for the first fill until its verdict, and the graph commits to
  a covenant whose locktime is the second of the quote plus a constant (packages/app/src/quotes.ts:445-460), so
  the second fill needs a second quote that read the clock in that same second with the coins free. Right after
  the verdict the transaction can still be accepted if and only if no input is spent and that second is not
  over, or a live quote under construction for its coins has read it (`AcceptedAfterVerdictExactlyWhen`); a
  failed signature and a new quote within one second is a case (`CancelledFillIsAccepted`).
- The mark of an unexpected spend lives in memory only. Over any run a submitting fill is marked if and only if
  some read showed evidence and nothing crashed since (`MarkedExactlyWhen`): a crash loses the mark, and the
  next read that still sees the evidence sets it again and changes no row. `reconcile` itself never consults the
  mark; what keeps mixed evidence from being resolved is the evidence.
- The three-OP_RETURN placement of `execute` cannot be reached by any of the three plans: a funding coin must be
  a witness program, and so must a payout of at least one dust unit (`PlacementIsNeverNeeded`).
- A joint layout balances by construction except for a negative sats fare, whose hosting no output carries
  (`SatsBalance` is an equivalence, `NegativeFareDoesNotBalance` a concrete case). No negative fare comes off
  the wire (packages/protocol/src/codec.ts:259-264), and `validateLockup` is internal to its package; only a
  direct caller of the exported `validateSponsoredPayment` (packages/client/src/sponsored.ts:166) can supply
  one.
- The spend guard of a transfer lasts as long as somebody holds a capability of its key
  (`GuardEndsWithItsHolders`); while anyone does, at most one activation succeeds.

## Model

| member | source | states |
|---|---|---|
| `CanonicalRoundTrip.ParseInvertsPrint` | packages/client/src/lockup.ts:129-140 | printed plain data, followed by a delimiter or the end, parses back to its normal form (records sorted by key) and leaves exactly the rest |
| `CanonicalRoundTrip.ExactComparison` | packages/client/src/lockup.ts:224-226 | on plain data an exact check passes if and only if the values are the same up to record key order |
| `CanonicalRoundTrip.PrintsAreSelfDelimiting` | packages/client/src/lockup.ts:129-140 | two printed values inside longer texts agree only if the values are the same and so is what follows |
| `CanonicalRoundTrip.SameHaveOneNormalForm` | packages/client/src/lockup.ts:129-140 | values that differ only in key order have one normal form |
| `CanonicalRoundTrip.OneNormalFormMeansSame` | packages/client/src/lockup.ts:129-140 | and only those |
| `CanonicalRoundTrip.PrintDependsOnNormal` | packages/client/src/lockup.ts:129-140 | the printed text depends on nothing but the normal form |
| `Fingerprint.PrintsDefined` | packages/app/src/claimFeed.ts:26-35 | the sibling printer prints a JSON value as `canonical` prints it without its undefined fields |
| `Fingerprint.FingerprintComparison` | packages/app/src/claimFeed.ts:26-35 | two fingerprints agree if and only if the values agree once undefined fields are dropped |
| `Assets.Totals` | packages/app/src/watcher.ts:258-261 | the summing loop over a local map holds, for every id named and no other, the units of all its holdings |
| `FillReconciler.MixedEvidenceIsNeverResolved` | packages/app/src/fillReconciler.ts:150-182 | own and foreign spend evidence in one read neither cancels nor proceeds to settlement, invoked or not |
| `FillReconciler.CheckOutput` | packages/app/src/fillReconciler.ts:41-56 | an indexed coin passes if and only if it is the output's coin with its script, sats and exactly its units of every asset id |
| `FillReconciler.Reconciler.constructor` | packages/app/src/fillReconciler.ts:59-62 | no mark and no tick at the start |
| `FillReconciler.Reconciler.Begin` | packages/app/src/fillReconciler.ts:119-127 | a pass goes on only for a submitting row past its lease with linked funding, and first forgets what an earlier read saw |
| `FillReconciler.Reconciler.OnInputs` | packages/app/src/fillReconciler.ts:137-188 | the verdict is the specified function of all inputs' observations, and the marks change exactly as that verdict says |
| `FillReconciler.Reconciler.EndTick` | packages/app/src/fillReconciler.ts:225-231 | marks are kept exactly for fills still submitting, and the tick time is set |
| `FillSafety.StepKeepsInv` | packages/app/src/fills.ts:899-1008 | every step of worker, ledger, reconciler, expiry or crash keeps the protocol invariant |
| `FillSafety.RunKeepsInv` | packages/app/src/fills.ts:899-1008 | hence it holds in every reachable world |
| `FillSafety.VerdictsAreTrue` | packages/app/src/fillReconciler.ts:119-213 | in every reachable world a settled fill's transaction was accepted, and a cancelled or expired fill's only if that fill was never invoked and another one with its graph and locktime was |
| `FillSafety.VerdictIsFinal` | packages/db/src/fills.ts:304-357 | after a verdict no run changes the row, so no two ticks reach opposite verdicts |
| `FillSafety.ConflictContradicts` | packages/app/src/fillReconciler.ts:169-182 | a truthful foreign spender at one input means the ledger rules the graph out for good |
| `FillSafety.OutputsProveAcceptance` | packages/app/src/fillReconciler.ts:189-212 | a second read that matches means the graph was accepted |
| `FillSafety.StepEvolves` | packages/db/src/fills.ts:304-357 | no step changes a row's terms, withdraws an invocation or touches a row after its verdict |
| `FillVerdicts.StepKeepsReserved` | packages/db/src/receiveQuotes.ts:520-561 | no coin is ever held by two open quotes, two submitting fills, or one of each: quoting, binding, lapsing, verdicts and crashes hand it over |
| `FillVerdicts.AcceptedAfterVerdictExactlyWhen` | packages/app/src/receiveQuotes.ts:356-363 | when a fill is cancelled or expires, its transaction is accepted then or in a later world if and only if it was already, or no input is spent and the second of its quote is not over or was read by a quote under construction |
| `FillVerdicts.CancelledNeverAccepted` | packages/app/src/fillReconciler.ts:154-182 | in every later world an invoked fill that was cancelled is not accepted, whatever other fills carry its graph, and another one only through an invoked fill with its graph and locktime |
| `FillVerdicts.StrandedForever` | packages/app/src/fills.ts:899-1008 | a transaction that nothing can bring back is not accepted over any run |
| `FillVerdicts.CancelledFillIsAccepted` | packages/db/src/fills.ts:511-535 | a run from a quote to a failed signature in one second, after which the cancelled fill's transaction is accepted |
| `FillMarks.MarkAfterStep` | packages/app/src/fillReconciler.ts:119-231 | after any step a submitting fill is marked if and only if it was and the step is no crash, or the step is a read that shows evidence |
| `FillMarks.UnexpectedPersists` | packages/app/src/fillReconciler.ts:225-231 | a mark on a fill that stays submitting survives a step if and only if the step is no crash |
| `FillMarks.EvidenceMarks` | packages/app/src/fillReconciler.ts:150-182 | a read with a hint without spend, an unknown spend, or own and foreign evidence marks the fill, marked before or not, and changes no row |
| `FillMarks.MarkedExactlyWhen` | packages/app/src/fillReconciler.ts:59-231 | over any run between reachable worlds a submitting fill ends marked if and only if it began so without a crash since, or a read showed evidence without a crash since |
| `FillMarks.MixedReadResolvesNothing` | packages/app/src/fillReconciler.ts:150-182 | a read with own and foreign evidence leaves every row as it was and marks the fill |
| `FillMarks.SharedCheckpointIsNeverResolved` | packages/app/src/fillReconciler.ts:130-153 | a foreign transaction through the fill's own checkpoint shows one own and one foreign id, and is never resolved |
| `FillOutcomes.CancelsExactlyWhen` | packages/app/src/fillReconciler.ts:144-181 | a first read of an unchanged row cancels it if and only if no own id is reported at any input, every spent coin has an id, and the fill was never invoked or some input is spent through an id that is neither the graph's nor that input's checkpoint; the row then records such an id, none where it was never invoked, and nothing else changes |
| `FillOutcomes.GoesOnExactlyWhen` | packages/app/src/fillReconciler.ts:156-188 | it asks for the outputs if and only if the fill was invoked, every Taxi input is spent through an own id, nothing is unclear and no input is spent through another id; it marks exactly on unclear reports, and quarantines exactly where it neither marks nor cancels and every input is reported |
| `FillOutcomes.StaleReadChangesNothing` | packages/db/src/fills.ts:304-357 | a read of a row that changed meanwhile, or whose links disagree, changes no row |
| `FillOutcomes.SecondReadMeans` | packages/app/src/fillReconciler.ts:189-212 | the second read matches if and only if the covenant output and every other output to the operator's script is indexed with its script, sats and units |
| `FillOutcomes.SettlesExactlyWhen` | packages/app/src/fillReconciler.ts:189-212 | a second read of an unchanged row settles it if and only if it was invoked and its outputs are so indexed; the row then records the graph's transaction |
| `FillOutcomes.FullTickDecides` | packages/app/src/fillReconciler.ts:119-188 | in every reachable world a pass over a due fill that sees all there is to see decides it: never invoked and unspent, it is cancelled; accepted, it goes on to settlement; lost to another transaction, it is cancelled; still unspent, it is quarantined as it is |
| `Readiness.ReadyExactlyWhen` | packages/app/src/routes.ts:165-201 | the gate opens if and only if nothing else blocks, a tick has run, no submitting fill is marked, and no lease has lapsed unless every submitting fill is quarantined and the allowance is on |
| `Readiness.ReadyMeansNoOpenQuestion` | packages/app/src/fillReconciler.ts:99-118 | in every reachable world readiness means no submitting fill is marked, and no lease lapsed or every submitting fill's latest read saw all inputs without conflict or unknown spend |
| `Prefetch.Cache.constructor` | packages/app/src/watcher.ts:949-953 | an empty cache holds nothing unsourced |
| `Prefetch.Cache.LoadCoins` | packages/app/src/watcher.ts:977-1003 | whatever the provider answers, a cached outpoint holds only coins of that outpoint, all from one usable response that asked for it; one call for each 100 distinct keys |
| `Prefetch.Cache.LoadScripts` | packages/app/src/watcher.ts:955-975 | the same for scripts |
| `Prefetch.Cache.LoadTxs` | packages/app/src/watcher.ts:1005-1032 | a cached transaction was asked for, decodes to its own id and came once in a usable response |
| `Prefetch.Cache.Fill` | packages/app/src/watcher.ts:1044-1081 | for n classified and m coin-only rows a scan makes at most ceil((n+m)/100) + ceil(2n/100) + 3 ceil(n/100) calls, and resolves every row when answers are usable; with an honest provider everything that classifying a row reads is cached: its coin, the script of a renewal, both transactions of a spend and its second input's checkpoint and coin |
| `Prefetch.Group` | packages/app/src/watcher.ts:977-1003 | a response is usable if and only if it carries nothing unrequested, and then every coin of each key is kept in order |
| `Prefetch.GroupTxs` | packages/app/src/watcher.ts:1005-1032 | a response is usable if and only if no transaction is unrequested or repeated, malformed ones aside |
| `Prefetch.UsableTxsMeans` | packages/app/src/watcher.ts:1015-1027 | a transaction batch is used if and only if every decodable entry was asked for and no two carry one id |
| `Prefetch.Cache.LoadSpends` | packages/app/src/watcher.ts:1058-1080 | with an honest provider both transactions of every spend are then cached, and for a two-input one the checkpoint at input 1 and the coin behind it |
| `PrefetchReads.RawTransactions` | packages/app/src/watcher.ts:363-388 | the loop gives the specified result: each transaction asked for, once each, or a refusal |
| `PrefetchReads.CachedCoinIsNarrowCoin` | packages/app/src/watcher.ts:390-405 | a coin read out of the cache is the coin read narrowly |
| `PrefetchReads.CachedSuccessorIsNarrowSuccessor` | packages/app/src/watcher.ts:501-525 | so is a renewal successor, although the batch may list coins in another order |
| `PrefetchReads.CachedTxsAreNarrowTxs` | packages/app/src/watcher.ts:363-388 | so are transactions |
| `PrefetchReads.PrefetchedReadIsNarrowRead` | packages/app/src/watcher.ts:1083-1104 | against one ledger snapshot, where any batch may throw or carry extra entries, every prefetched read equals the narrow read |
| `PrefetchReads.PrefetchedScanSameVerdict` | packages/app/src/watcher.ts:933-948 | so a row that computes its verdict from reads, in whatever way, gets the row-by-row verdict from a prefetched scan |
| `ReadsMean.ExactCoinReads` | packages/app/src/watcher.ts:390-405 | of an answer that lists exactly the ledger's coins of an outpoint, the read returns the coin if and only if it is the only one there, nothing if and only if there is none, and a refusal if and only if there are several |
| `ReadsMean.ExactCoinRefuses` | packages/app/src/watcher.ts:390-405 | of any answer: no answer, several coins and another outpoint's coin are each refused, and only they |
| `ReadsMean.ExactSuccessorReads` | packages/app/src/watcher.ts:501-525 | of an answer that lists exactly the ledger's coins of a script, the successor is the one coin that is neither spent, swept nor unrolled and carries the same covenant, if there is exactly one; none or several are told apart |
| `ReadsMean.RawTransactionsRead` | packages/app/src/watcher.ts:363-388 | of an honest answer, every id asked for maps to the ledger's transaction of that id, and no other id maps to anything; a missing or malformed one is refused |
| `ReadsMean.RawTransactionsExactlyWhen` | packages/app/src/watcher.ts:363-388 | any answer is taken if and only if it has one entry for each id asked, every one decodable, asked for and of another id; each id is then read as the entry that carries it |
| `ReadsMean.UsableMeans` | packages/app/src/watcher.ts:984-998 | a batch is used if and only if it answers, and with no coin of a key that was not asked for |
| `FillGraph.TaxiSet` | packages/app/src/fills.ts:119-123 | the set of Taxi indexes has as many elements as the list exactly when the list repeats none |
| `FillGraph.MatchReservation` | packages/app/src/fills.ts:147-179 | V2: snapshots are returned if and only if there are as many Taxi inputs as reserved coins and each spends an undisturbed reserved coin |
| `FillGraph.CheckCovenant` | packages/app/src/fills.ts:255-273 | V6: units positive and above an asset fare, and the covenant carries exactly the quoted id with exactly the declared units; each refusal names a rule that is broken |
| `FillGraph.Payout` | packages/app/src/fills.ts:286-293 | V7: the loop refuses exactly when an operator output carries an asset, and otherwise sums what the operator is paid |
| `FillGraph.CheckOutputs` | packages/app/src/fills.ts:301-317 | V8: limit and floor of every output, the floor depending on assets |
| `FillGraph.DeclareInputs` | packages/app/src/fills.ts:331-347 | V9: one group's inputs pass exactly when local, in range, positive, not repeated and not the Taxi's, and are then all declared |
| `FillGraph.DeclareGroups` | packages/app/src/fills.ts:324-359 | V9: all groups pass exactly when each is identified, unrepeated, balanced and lands on value outputs |
| `FillGraph.CheckHoldings` | packages/app/src/fills.ts:360-382 | V9: matching and deleting declarations leaves none if and only if the packet declares exactly what the inputs are observed to hold |
| `FillGraph.CheckExpiries` | packages/app/src/fills.ts:384-413 | V10: every input spendable, with a known expiry that reaches the quote floor |
| `FillGraph.CheckSpends` | packages/app/src/fills.ts:119-224 | V1 to V4 hold, or the refusal names one that does not |
| `FillGraph.CheckPays` | packages/app/src/fills.ts:237-317 | V5 to V8 hold, or the refusal names one that does not |
| `FillGraph.CheckMoves` | packages/app/src/fills.ts:319-429 | V9, V10, header and sats conservation hold, or the refusal names one that does not |
| `FillGraph.AssertFillGraph` | packages/app/src/fills.ts:113-463 | a graph is accepted if and only if every rule holds, and a refusal names a broken rule |
| `FillGraphMeans.AcceptedExactlyWhen` | packages/app/src/fills.ts:113-463 | the validator's rules hold if and only if the graph is sound on its own raw figures: which coins it spends, whom each output pays and how much, what each group moves, when its inputs expire |
| `FillGraphMeans.TaxiInputsMeans` | packages/app/src/fills.ts:147-179 | V2: the Taxi inputs spend each reserved coin once and nothing else, every one as it was reserved |
| `FillGraphMeans.DeliveryMeans` | packages/app/src/fills.ts:237-273 | V5, V6: the packet gives the covenant the quoted asset in exactly the declared units, and no other |
| `FillGraphMeans.OperatorPayoutMeans` | packages/app/src/fills.ts:275-299 | V7: no output to the operator carries an asset, and their sats are the reserved ones less the loan plus the fare |
| `FillGraphMeans.LimitsMean` | packages/app/src/fills.ts:301-317 | V8: every value output is within the provider maximum and at or above its floor |
| `FillGraphMeans.PacketMeans` | packages/app/src/fills.ts:329-382 | V9: no asset has two groups, each group gives no more and no less than it takes, and input by input the packet takes exactly what the coin is seen to hold |
| `FillGraphMeans.ExpiryMeans` | packages/app/src/fills.ts:384-413 | V10: every input is observed spendable, with a known expiry of the floor's kind and no earlier than the floor |
| `FillConservation.AcceptedGraphConservesAssets` | packages/app/src/fills.ts:319-382 | for every id, what all inputs are observed to hold equals what the value outputs are allocated |
| `FillConservation.TaxiInputsHoldNoAssets` | packages/app/src/fills.ts:331-333 | no Taxi input holds or contributes units |
| `FillConservation.AcceptedCovenant` | packages/app/src/fills.ts:237-273 | the covenant output pays the lockup to the quoted script, carries the delivery and nothing else, and is never an operator output |
| `FillConservation.AcceptedGraphPaysTheTaxi` | packages/app/src/fills.ts:285-299 | the outputs settlement will look for are the covenant and, apart from it, operator outputs worth what the Taxi contributed less the loan plus the fare |
| `FillConservation.TaxiInputsAreTheReservation` | packages/app/src/fills.ts:147-179 | the Taxi's inputs are exactly the reserved coins, so the contribution is the whole reservation |
| `FillConservation.SettledFillPaysTheTaxi` | packages/app/src/fillReconciler.ts:189-212 | settlement of an accepted graph: indexed operator coins total reservation less loan plus fare, and the covenant coin holds the lockup with exactly the delivery |
| `FillConservation.SettlingStepPaysTheTaxi` | packages/app/src/fillReconciler.ts:189-212 | so the protocol step that settles such a fill shows the Taxi paid back |
| `FillConservation.RecordedPayoutsAreReconciled` | packages/app/src/fills.ts:825-836 | the payouts recorded when a fill is bound are the operator outputs the reconciler derives |
| `FillConservation.AcceptedGraphCanBeBound` | packages/app/src/arkade/jointGraphDerivation.ts:49-71 | an accepted graph repeats no outpoint, as the protocol needs |
| `DirectFill.CollectAssets` | e2e/directFillGraph.ts:75-84 | the map of packet inputs by asset, in first-seen order, unless a holding is not positive |
| `DirectFill.PlanGroups` | e2e/directFillGraph.ts:88-110 | one group for each asset with delivery and leftovers, and whether the caller keeps any units |
| `DirectFill.BuildDirectFillGraph` | e2e/directFillGraph.ts:48-128 | a graph is built if and only if every guard holds, and it is the one specified |
| `DirectFillAccepted.Allocations` | e2e/directFillGraph.ts:97-110 | the covenant carries exactly the delivery, caller change carries units exactly when some are left, nothing else carries any |
| `DirectFillAccepted.BuiltAssetsConserved` | e2e/directFillGraph.ts:97-110 | built packets meet V9 against what the coins hold |
| `DirectFillAccepted.BuiltGraphIsAccepted` | packages/app/src/fills.ts:113-463 | every built graph is accepted under a quote with the same terms, a matching reservation, scripts of its owners distinct from the operator's, unique asset ids per coin, and amounts within the provider maximum |
| `DirectFillMeans.BuildsExactlyWhen` | e2e/directFillGraph.ts:48-96 | the builder builds if and only if both sides bring coins, no outpoint comes twice, values and units are positive, the Taxi's coins are bare, the callers hold the delivery, the caller's change meets dust, or the provider minimum where assets are left, and covenant and payout meet theirs |
| `DirectFillMeans.BuiltGraphPays` | e2e/directFillGraph.ts:97-128 | input by input the graph moves the callers' coins, then the Taxi's, and pays the covenant, the caller and the Taxi in this order, each in raw sums |
| `SpendPacket.PacketForSpend` | packages/client/src/spend.ts:1144-1181 | the packet, totalled in a map and sorted, is the specified one whatever order the map lists its keys in |
| `SpendWatcher.ExpectedAssetPacket` | packages/app/src/watcher.ts:253-290 | the watcher's own summing and grouping loops give the same packet as the builder's |
| `SpendPacket.PacketForgetsOrder` | packages/app/src/watcher.ts:253-290 | builder and watcher expect the same packet, in whatever order each lists the same holdings |
| `SpendPacket.PacketConserves` | packages/app/src/watcher.ts:253-290 | the packet takes at each input exactly the units held there and allocates their sum to the destination, less the fare at its own output |
| `CovenantSpend.CountOpReturns` | packages/client/src/spend.ts:1280-1282 | the number of OP_RETURN outputs |
| `CovenantSpend.PlaceOutputs` | packages/client/src/spend.ts:1279-1311 | overwriting the anchor and appending a new one yields the same order as the plain path, and only the shapes refused by the source are refused |
| `CovenantSpend.PlacementIsNeverNeeded` | packages/client/src/spend.ts:1471-1594 | a purchase, recycle or refund has exactly one OP_RETURN output, so it is placeable unless the provider allows none |
| `SpendMeans.PlacedExactlyWhen` | packages/client/src/spend.ts:1279-1311 | a plan is placed if and only if the provider takes its OP_RETURN outputs and the extension, and beyond two of them only for a refund with two such outputs and a stated capacity |
| `SpendMeans.PacketMeans` | packages/client/src/spend.ts:1144-1181 | the packet is the only list of groups that has one group for each asset held, in order, takes all of it input by input, and gives all of it to the destination but for a fare in that asset |
| `SpendMeans.PurchaseBuilds` | packages/client/src/spend.ts:1471-1492 | `purchase` builds a plan if and only if it goes to the receiver's own key and meets the minimum, and then pays dust plus any payment in sats there, with every unit |
| `SpendMeans.RecycleBuilds` | packages/client/src/spend.ts:1494-1552 | `recycle` pays the operator its top-up plus a fare in sats, the receiver what is left of lockup and funding with every unit but a fare in units, or refuses what falls below dust or the minimum |
| `SpendMeans.RefundBuilds` | packages/client/src/spend.ts:1554-1594 | `refund` pays the operator its top-up and the funding coin's own script the rest with every unit, or refuses |
| `SpendWatcher.PurchaseIsClassified` | packages/app/src/watcher.ts:787-802 | what `purchase` builds is classified as purchased |
| `SpendWatcher.RecycleIsClassified` | packages/app/src/watcher.ts:804-844 | what `recycle` builds is classified as recycled |
| `SpendWatcher.RefundIsClassified` | packages/app/src/watcher.ts:860-901 | what `refund` builds is classified as refunded |
| `SpendWatcher.PurchasedMeans` | packages/app/src/watcher.ts:787-802 | purchased: the receiver gets the whole lockup and every unit, and sats balance |
| `SpendWatcher.RecycledMeans` | packages/app/src/watcher.ts:804-844 | recycled: the operator gets exactly `operatorSats`, the receiver covenant plus funding less that, sats balance, and every unit of both inputs goes to the receiver but for the asset fare at output 0 |
| `SpendWatcher.RefundedMeans` | packages/app/src/watcher.ts:860-901 | refunded: the operator gets the loan, input 1's script the exact remainder and every unit, in the only extension there is |
| `SpendWatcher.RecoveredMeans` | packages/app/src/watcher.ts:847-898 | recovered: the operator gets the whole lockup and every unit, not before the locktime carried and not above the persisted one |
| `SpendMeans.PurchasedExactlyWhen` | packages/app/src/watcher.ts:724-802 | a spend is classified as purchased if and only if it runs the purchase leaf under standard headers with one input and its three outputs are the receiver's, the packet and the anchor, in raw amounts |
| `SpendMeans.RecycledExactlyWhen` | packages/app/src/watcher.ts:724-844 | as recycled if and only if it runs that leaf with two inputs and its four outputs are the operator's, the receiver's, the packet and the anchor |
| `SpendMeans.RefundedExactlyWhen` | packages/app/src/watcher.ts:724-901 | as refunded if and only if it runs that leaf with two inputs, repays the top-up, sends input 1's script the rest, and carries one packet and one anchor; further outputs are free |
| `SpendMeans.RecoveredExactlyWhen` | packages/app/src/watcher.ts:724-898 | as recovered if and only if it runs the recovery leaf, pays the operator the whole lockup, carries one packet and one anchor, and its locktime is the checkpoint's, no later than the persisted one, and matured |
| `SpendMeans.RecoveryToleratesChange` | packages/app/src/watcher.ts:847-859 | a recovery with a further input and a further output, neither packet nor anchor, is still one |
| `Proceeds.Holdings` | packages/app/src/proceeds.ts:60-70 | one entry for each asset id with its units over all coins, or a refusal where an amount is not positive |
| `Proceeds.PlanInventorySplit` | packages/app/src/proceeds.ts:279-343 | the nested loops find the specified plan: largest coin first, largest count first, first fee that repeats itself within eight attempts; the checker never refuses it |
| `Proceeds.SplitAmounts` | packages/app/src/proceeds.ts:304-319 | with division towards zero a chunk of two dust or more leaves a first output of at least the reserve, and the outputs sum to the amount |
| `Proceeds.PlanProceeds` | packages/app/src/proceeds.ts:345-452 | the loops find the specified plan or its refusal: greedy receipts, then the first sponsor whose offer stands |
| `ProceedsFacts.CollectionPlanIsValid` | packages/app/src/proceeds.ts:135-235 | every plan `planProceeds` returns passes the checker on its own coins, respects the maximum on every output, and its inputs are its outputs plus its fee |
| `ProceedsFacts.SplitIsValid` | packages/app/src/proceeds.ts:143-196 | so does every split plan |
| `ProceedsFacts.GuardAcceptsCollection` | packages/app/src/proceeds.ts:852-951 | with unchanged coins, locks, limits and fees the guard lets a collection through: its fee is the plan's, in both output shapes, and the reserve it counts suffices |
| `ProceedsFacts.GuardAcceptsSplit` | packages/app/src/proceeds.ts:852-951 | and a split |
| `ProceedsFacts.SettledMeans` | packages/app/src/proceeds.ts:311-339 | a settled split fee is a true fixed point of the estimate |
| `ProceedsFacts.GuardSeesReserve` | packages/app/src/proceeds.ts:908-918 | the guard's reserve over the whole inventory is at least the planner's over its candidates without the sponsor |
| `ProceedsFacts.SplitRaisesWorking` | packages/app/src/proceeds.ts:302-319 | an executed split strictly raises the number of coins worth two dust, never past eight, and its first output is at least the reserve plus dust |
| `ProceedsFacts.AtMostSevenSplits` | packages/app/src/proceeds.ts:302-310 | so at most seven splits can follow one another |
| `GuardMeans.HoldingsMean` | packages/app/src/proceeds.ts:60-70 | `holdings` is the only list that names every asset carried, sorted and once, with its units over all coins |
| `GuardMeans.SplitMeans` | packages/app/src/proceeds.ts:143-196 | the checker accepts a split if and only if one bare coin of the operator is paid out whole, less the fee, in two to eight outputs of two dust or more, the first with the reserve beside a dust |
| `GuardMeans.CollectionMeans` | packages/app/src/proceeds.ts:197-235 | and a collection if and only if amounts, facts and assets are those of its coins, every receipt is one of them, at most one coin is a sponsor, and any change leaves a dust carrier and meets the reserve |
| `GuardMeans.GuardPassesExactlyWhen` | packages/app/src/proceeds.ts:852-951 | the guard lets a plan through if and only if, on raw facts: amounts are within the maximum, no coin is listed twice, the inputs are coins of the inventory, the operator's and as recorded, the sponsor is spendable, a split keeps its terms on backing coins, enough reserve is left outside locks and inputs where it counts, and the inputs' and outputs' fees are the plan's and at most its cap |
| `GuardMeans.GuardRefusesFirst` | packages/app/src/proceeds.ts:860-906 | an amount above the maximum, a coin listed twice and a missing input are refused in this order, each under its own code |
| `GuardMeans.FoundDecides` | packages/app/src/proceeds.ts:899-947 | of the coins found, the refusal and its code for each condition that fails, in order |
| `PlansMean.CollectionSays` | packages/app/src/proceeds.ts:365-452 | receipts are taken in turn exactly where one output still fits; they are collected alone where they pay a dust unit; otherwise the first spare coin in line that stands becomes the sponsor, so one is found whenever one stands and its quote repeats, and the reserve is called unavailable only when each falls short; the plan returned has exactly these coins, fee, change and assets |
| `PlansMean.OfferMeans` | packages/app/src/proceeds.ts:388-436 | which candidates fall short, pay out too much, move their quote or stand, in raw sums and quotes |
| `PlansMean.RefusesTheCall` | packages/app/src/proceeds.ts:355-380 | what is wrong with a call that is not in order, in order |
| `PlansMean.SettledExactlyWhen` | packages/app/src/proceeds.ts:311-339 | the fee of a split settles if and only if estimates, each for the outputs the one before leaves, come to repeat within the attempts, every one within the cap and every cut within the maximum |
| `PlansMean.SplitSays` | packages/app/src/proceeds.ts:288-343 | the split returned is of the richest coin that settles at any count, at its largest count that settles and leaves at most eight working coins, and cut as evenly as the reserve allows; none is returned if and only if eight coins work already or nothing settles |
| `PlansMean.SplitRefuses` | packages/app/src/proceeds.ts:288-290 | another address or a coin listed twice is refused |
| `JointLayout.Allocate` | packages/client/src/lockup.ts:783-795 | the loop refuses exactly when some asset's fare or payment does not fit, and otherwise allocates both and tells whether change is needed |
| `JointLayout.AddChange` | packages/client/src/lockup.ts:811-816 | what is left of each asset goes to the sender's output |
| `JointLayout.PushOutputs` | packages/client/src/lockup.ts:723-822 | the outputs, in order, in every branch of fare payer and merged change |
| `JointLayout.BuildGroups` | packages/client/src/lockup.ts:835-852 | the packet groups, unless an allocation does not sum to its total |
| `JointLayout.CheckTerms` | packages/client/src/lockup.ts:735-798 | funding, fare payer and quantities are refused in the source's order |
| `JointLayout.ValidateLayout` | packages/client/src/lockup.ts:718-853 | the layout or first refusal is the specified one |
| `JointLayout.SatsBalance` | packages/client/src/lockup.ts:829-833 | output sats equal input sats if and only if the fare hosting is not negative |
| `JointLayout.AllocationBalances` | packages/client/src/lockup.ts:783-817 | each allocation sums to its total and names only existing outputs |
| `JointLayout.FinalRejectionsAreUnreachable` | packages/client/src/lockup.ts:829-840 | with positive asset hosting the asset rejection never fires, and the sats rejection only for a negative fare |
| `JointLayout.LockupAlwaysBalances` | packages/client/src/lockup.ts:723-840 | so neither fires for a lockup with valid parameters |
| `JointLayout.SponsoredAlwaysBalances` | packages/client/src/sponsored.ts:213-331 | nor for a sponsored payment |
| `JointLayout.AcceptedLayoutPays` | packages/client/src/sponsored.ts:213-324 | sats balance, and the operator's outputs are worth its inputs less its contribution plus a fare the sender pays |
| `LayoutMeans.AcceptedIsLaidOut` | packages/client/src/lockup.ts:748-822 | place by place, an accepted layout pays the first output, the fare to the operator's key, the sender's change to the sender's tree key and the operator's change to the operator's tree key, each in its raw amount, and nobody else |
| `LayoutMeans.LaidOutIsUnique` | packages/client/src/lockup.ts:748-822 | only one list of outputs is laid out so |
| `LayoutMeans.OperatorIsPaidBack` | packages/client/src/sponsored.ts:213-324 | the outputs to the operator's keys are worth its coins less its contribution, plus the fare where the sender pays it |
| `LayoutMeans.AcceptedExactlyWhen` | packages/client/src/lockup.ts:723-853 | with positive asset hosting a layout is accepted if and only if both sides fund it, the quantities agree with the inputs, and the outputs so laid out meet the floor under distinct scripts |
| `LayoutMeans.LockupPays` | packages/client/src/lockup.ts:718-781 | an accepted lockup pays the covenant the dust and any payment in sats, hosts an asset fare on a dust unit to the operator's key, and puts no output below dust |
| `LayoutMeans.SponsoredPays` | packages/client/src/sponsored.ts:208-262 | an accepted sponsored payment pays the receiver likewise, hosts an asset fare on the provider minimum, and puts no output below it |
| `JointLayout.AcceptedLayoutConserves` | packages/client/src/lockup.ts:835-853 | the packet takes what each input holds and allocates the same units, fare at output 1 and payment at output 0, nothing past the value outputs |
| `JointLayout.EveryAssetHasAGroup` | packages/client/src/lockup.ts:835-837 | every asset held at an input has its group |
| `JointLayout.NegativeFareDoesNotBalance` | packages/client/src/lockup.ts:729-746 | concrete terms with a negative sats fare that only the final balance check refuses |
| `ClaimFeed.FeedConverges` | packages/app/src/claimFeed.ts:106-176 | over any schedule an open subscription's baseline, overlaid with delivered batches, the one in flight and the pending one, equals the latest sample on every transfer in it; nothing pends unless a write is running |
| `ClaimFeed.DeliveriesNeverGoBack` | packages/app/src/claimFeed.ts:162-176 | no older version of a transfer is delivered after a newer one |
| `ClaimFeed.OpenUntilEnded` | packages/app/src/claimFeed.ts:64-104 | over any schedule a subscription is open exactly until the first refusal or removal, and a batch is in flight exactly while its writer runs |
| `ClaimFeed.SampleHandsOver` | packages/app/src/claimFeed.ts:150-170 | a sample hands an idle listener exactly the claims whose fingerprint differs from the last sample's, at once; behind a running write they wait, over what waits already |
| `ClaimFeed.AcknowledgementGoesOn` | packages/app/src/claimFeed.ts:162-176 | an acknowledged batch counts as delivered, and what waited behind it is in flight at once |
| `ClaimFeed.NothingAfterTheEnd` | packages/app/src/claimFeed.ts:87-104 | whatever follows a removal, only the write under way can still arrive, and after a refusal nothing does |
| `ClaimFeed.EventKeepsGood` | packages/app/src/claimFeed.ts:87-176 | samples, acknowledgements, refusals and removals keep the feed's invariant |
| `ClaimFeed.SampleConverges` | packages/app/src/claimFeed.ts:150-158 | a sample moves convergence to the new sample, although unchanged claims are not resent |
| `ClaimFeed.SameFingerprintSameClaim` | packages/app/src/claimFeed.ts:152-155 | a claim is skipped only if its defined fields are those already sent |
| `ClaimFeed.Compare` | packages/app/src/claimFeed.ts:150-157 | the loop computes the new fingerprints and adds exactly the changed claims to what is pending |
| `ClaimFeed.Subscription.constructor` | packages/app/src/claimFeed.ts:70-76 | a subscription starts from its snapshot |
| `ClaimFeed.Subscription.Sample` | packages/app/src/claimFeed.ts:150-158 | one sample takes the subscription to the specified state |
| `ClaimFeed.Subscription.Delivered` | packages/app/src/claimFeed.ts:162-176 | so does an acknowledgement: the writer goes on with what became pending, or ends |
| `ClaimFeed.Subscription.Remove` | packages/app/src/claimFeed.ts:87-94 | so does a removal: what is pending is dropped |
| `ClaimFeed.Subscription.Refused` | packages/app/src/claimFeed.ts:171-175 | so does a listener's refusal, which ends the subscription |
| `ClaimFeed.Feed.constructor` | packages/app/src/claimFeed.ts:40-49 | an open feed without listeners and without a timer |
| `ClaimFeed.Feed.Subscribe` | packages/app/src/claimFeed.ts:64-80 | a closed feed refuses; otherwise exactly one fresh subscription is added and the timer runs |
| `ClaimFeed.Feed.Drop` | packages/app/src/claimFeed.ts:87-104 | removes exactly one subscription, once, and stops the timer with the last |
| `ClaimFeed.Feed.Hear` | packages/app/src/claimFeed.ts:143-159 | one subscription fails or takes the sample |
| `ClaimFeed.Feed.Tick` | packages/app/src/claimFeed.ts:106-160 | exactly the subscriptions whose claims could not be projected are dropped, and every other sees the sample |
| `ClaimFeed.Feed.Close` | packages/app/src/claimFeed.ts:82-85 | every subscription fails and the timer stops |
| `Lifecycle.WeakValueRegistry.constructor` | packages/client/src/lifecycle.ts:25-35 | an empty registry |
| `Lifecycle.WeakValueRegistry.Sweep` | packages/client/src/lifecycle.ts:57-61 | drops exactly the entries whose target is gone |
| `Lifecycle.WeakValueRegistry.GetOrCreate` | packages/client/src/lifecycle.ts:41-50 | the retained target while it lives, else the new one under a new generation |
| `Lifecycle.WeakValueRegistry.Finalize` | packages/client/src/lifecycle.ts:63-67 | removes an entry only for its own generation and only once its target is gone |
| `Lifecycle.RunKeepsInv` | packages/client/src/lifecycle.ts:25-68 | under any schedule of verification, activation, collection, finalizers and sweeps the registry keeps every held lifecycle, generations number the objects created, and a due callback belongs to a collected one |
| `Lifecycle.LiveTransfersShareLifecycle` | packages/client/src/spend.ts:934-961 | capabilities held by the program or by a spend in flight share a lifecycle object if and only if they have one key |
| `Lifecycle.AtMostOneActivation` | packages/client/src/spend.ts:551-571 | among capabilities of one key that are held together, by the program or by a spend in flight, at most one activation ever succeeds |
| `Lifecycle.ActivatedOnce` | packages/client/src/spend.ts:551-571 | no capability is activated twice |
| `Lifecycle.StaleFinalizerIsHarmless` | packages/client/src/lifecycle.ts:63-67 | a late finalizer never takes the entry of a capability so held |
| `Lifecycle.FinalizerRemovesOnlyItsOwn` | packages/client/src/lifecycle.ts:63-67 | in every reachable world a due callback belongs to one collected object and removes that object's own entry if it is still there, and no other: none of a newer generation, under any key |
| `Lifecycle.WrongLeavesChangeNothing` | packages/client/src/spend.ts:559-562 | leaving every call for a disabled leaf out of a schedule leads to the very same world |
| `Lifecycle.ActivationSucceedsExactlyWhen` | packages/client/src/spend.ts:559-571 | in every reachable world an activation succeeds if and only if its leaf is permitted and no capability that shares the lifecycle was ever activated |
| `Lifecycle.GuardEndsWithItsHolders` | packages/client/src/lifecycle.ts:41-50 | once a key's target is collected, a new transfer of the key can be activated again |

## Left out

- Signatures, signer sets, tap trees, checkpoint trees, addresses, PSBT and packet encodings: opaque verdicts or injective values.
- Repository transactions beyond their compare-and-set effect; the lease token and the lease deadline always move together, so one stands for both.
- Conditions that link a fill to its quote and advance (`linkedFunding`, the bound quote of `isQuarantined`): booleans supplied to each pass.
- `fillSource` beyond the operator payouts: it copies accepted facts into the recovery record.
- `reconcileProceeds` and the job loop around the guard (leases, heartbeat, SDK locks, split reservations): single-branch decisions on status fields.
- Wire decoding of plans and envelopes: decimal strings are integers and key sets are record types.
- `localeCompare` of keys and asset ids in the planner: modelled as code-unit order; no theorem depends on which order it is.
- Numbers in `canonical` other than integers printed in plain decimal.
- Order of claims inside one delivered batch, listener callbacks that call back into the feed, and diagnostics.
- ClaimFeed.Feed.Tick: needs transfer ids to be distinct within one subscription's sample, because two claims of one transfer would make "the sampled version" ambiguous.
- `extraPacket` of a sponsored payment, receiver address decoding, funding evidence and outpoint uniqueness in the joint validators, and the rebuilt checkpoints.
- FillVerdicts.AcceptedAfterVerdictExactlyWhen: takes the clock to be monotone and the covenant deadline to be one constant, and lets a quote or a fill pass every guard outside the model (policy revision, exposure limits, other flows' reservations, the unchanged set of reserved coins), so "can be accepted" means that no modelled guard forbids it.
- Coins of a settled fill's advance, which stay reserved: they are spent.
- SpendWatcher.RefundedMeans: says nothing of outputs past the second, because neither the leaf nor the classifier limits them.
- SpendWatcher.RecoveredMeans: says nothing of other inputs and outputs, for the same reason.
- Quote construction, admission, custody, sweeping, HTTP, streaming, configuration, tracing: guards and plumbing around the parts modelled.
