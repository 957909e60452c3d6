// packages/app/src/claimFeed.ts: sampling, coalescing and single-writer delivery of claims.
//
// Code between two awaits is one method. The ghost fields of a subscription record what its
// listener holds and in which sample each version was taken.
module ClaimFeed {
  import opened Prelude
  import Canonical
  import Fingerprint

  type Id = string

  /** A claim's fingerprint. */
  datatype Print = Print(text: Canonical.Text)

  datatype Claim = Claim(transferId: Id, wire: Canonical.Value)

  function FingerprintOf(claim: Claim): Print { Print(Fingerprint.PrintJson(claim.wire)) }

  predicate DistinctIds(claims: seq<Claim>) {
    forall i, j :: 0 <= i < j < |claims| ==> claims[i].transferId != claims[j].transferId
  }

  // --------------------------------------------------- one sample, as values

  /** The fingerprints of a sample. */
  function Sampled(claims: seq<Claim>): map<Id, Print> {
    if claims == [] then map[]
    else Sampled(claims[..|claims| - 1])[claims[|claims| - 1].transferId := FingerprintOf(claims[|claims| - 1])]
  }

  /** The claims of a sample that differ from the previous one. */
  function Changed(previous: map<Id, Print>, claims: seq<Claim>): map<Id, Claim> {
    if claims == [] then map[]
    else
      var before, last := Changed(previous, claims[..|claims| - 1]), claims[|claims| - 1];
      if last.transferId in previous && previous[last.transferId] == FingerprintOf(last) then before
      else before[last.transferId := last]
  }

  function Prints(claims: map<Id, Claim>): map<Id, Print> { map id | id in claims :: FingerprintOf(claims[id]) }

  /** What the listener will hold once everything in flight and everything pending is delivered. */
  function View(held: map<Id, Print>, inFlight: map<Id, Claim>, pending: map<Id, Claim>): map<Id, Print> {
    held + Prints(inFlight) + Prints(pending)
  }

  /** Every transfer of the latest sample will be held in the version sampled. */
  ghost predicate Converges(sample: map<Id, Print>, view: map<Id, Print>) {
    forall id :: id in sample ==> id in view && view[id] == sample[id]
  }

  lemma {:induction false} SampledAt(claims: seq<Claim>, i: nat)
    requires DistinctIds(claims) && i < |claims|
    ensures claims[i].transferId in Sampled(claims)
    ensures Sampled(claims)[claims[i].transferId] == FingerprintOf(claims[i])
  {
    hide FingerprintOf;
    var before := claims[..|claims| - 1];
    if i < |before| {
      SampledAt(before, i);
      assert before[i] == claims[i];
    }
  }

  lemma {:induction false} SampledOnly(claims: seq<Claim>, id: Id) returns (i: nat)
    requires id in Sampled(claims)
    ensures i < |claims| && claims[i].transferId == id
  {
    hide FingerprintOf;
    i := |claims| - 1;
    if claims[i].transferId != id { i := SampledOnly(claims[..i], id); }
  }

  lemma {:induction false} ChangedOnly(previous: map<Id, Print>, claims: seq<Claim>, id: Id) returns (i: nat)
    requires id in Changed(previous, claims)
    ensures i < |claims| && claims[i].transferId == id
  {
    hide FingerprintOf;
    i := |claims| - 1;
    if claims[i].transferId != id || id in Changed(previous, claims[..i]) {
      i := ChangedOnly(previous, claims[..i], id);
    }
  }

  lemma {:induction false} ChangedAt(previous: map<Id, Print>, claims: seq<Claim>, i: nat)
    requires DistinctIds(claims) && i < |claims|
    ensures var id := claims[i].transferId;
            && (id in Changed(previous, claims) <==> !(id in previous && previous[id] == FingerprintOf(claims[i])))
            && (id in Changed(previous, claims) ==> Changed(previous, claims)[id] == claims[i])
  {
    hide FingerprintOf;
    var before := claims[..|claims| - 1];
    if i < |before| {
      ChangedAt(previous, before, i);
      assert before[i] == claims[i] && claims[i].transferId != claims[|before|].transferId;
    } else if claims[i].transferId in Changed(previous, before) {
      var k := ChangedOnly(previous, before, claims[i].transferId);
      assert false;
    }
  }

  /** Taking a sample keeps convergence, now towards the new sample. */
  lemma SampleConverges(
    previous: map<Id, Print>, held: map<Id, Print>, inFlight: map<Id, Claim>, pending: map<Id, Claim>,
    claims: seq<Claim>)
    requires DistinctIds(claims) && Converges(previous, View(held, inFlight, pending))
    ensures Converges(Sampled(claims), View(held, inFlight, pending + Changed(previous, claims)))
  {
    hide FingerprintOf;
    var after := View(held, inFlight, pending + Changed(previous, claims));
    forall id | id in Sampled(claims) ensures id in after && after[id] == Sampled(claims)[id] {
      var i := SampledOnly(claims, id);
      SampledAt(claims, i);
      ChangedAt(previous, claims, i);
      hide Sampled, Changed;
      if id !in Changed(previous, claims) {
        assert after[id] == View(held, inFlight, pending)[id];
      }
    }
  }

  /** Starting a batch changes nothing the listener will end up with. */
  lemma StartingKeepsView(held: map<Id, Print>, pending: map<Id, Claim>)
    ensures View(held, pending, map[]) == View(held, map[], pending)
  {
    hide FingerprintOf;
  }

  lemma ViewOfNothing(held: map<Id, Print>)
    ensures View(held, map[], map[]) == held
  {
  }

  /** Nor does its delivery. */
  lemma DeliveryKeepsView(held: map<Id, Print>, inFlight: map<Id, Claim>, pending: map<Id, Claim>)
    ensures View(held + Prints(inFlight), map[], pending) == View(held, inFlight, pending)
  {
    hide FingerprintOf;
    assert Prints(map[]) == map[];
    assert held + Prints(inFlight) + map[] == held + Prints(inFlight);
  }

  // ------------------------------------------------ a subscription over time

  /** The sample in which each version was taken. */
  type Stamps = map<Id, nat>

  datatype Batch = Batch(claims: map<Id, Claim>, at: Stamps)

  const NO_BATCH := Batch(map[], map[])

  /** A subscription, with what its listener was given so far. */
  datatype Sub = Sub(
    previous: map<Id, Print>, pending: Batch, writing: bool, open: bool,
    inFlight: Batch,               // handed to the listener and not yet acknowledged
    delivered: seq<Batch>,
    baseline: map<Id, Print>,      // what the listener held when it subscribed
    samples: nat)

  /** The baseline overlaid with the first `n` delivered batches. */
  function Held(baseline: map<Id, Print>, delivered: seq<Batch>): map<Id, Print> {
    if delivered == [] then baseline
    else Held(baseline, delivered[..|delivered| - 1]) + Prints(delivered[|delivered| - 1].claims)
  }

  function Start(snapshot: seq<Claim>): Sub {
    Sub(Sampled(snapshot), NO_BATCH, false, true, NO_BATCH, [], Sampled(snapshot), 0)
  }

  function Stamped(changed: map<Id, Claim>, sample: nat): Stamps { map id | id in changed :: sample }

  /** The head of the write loop: the next batch, or the end of the writer. */
  function AfterNext(s: Sub): Sub {
    if s.open && s.pending.claims != map[] then s.(writing := true, inFlight := s.pending, pending := NO_BATCH)
    else s.(writing := false)
  }

  /** The loop over the sampled claims, before `flush`. */
  function Taken(s: Sub, claims: seq<Claim>): Sub {
    var changed := Changed(s.previous, claims);
    s.(previous := Sampled(claims), samples := s.samples + 1,
       pending := Batch(s.pending.claims + changed, s.pending.at + Stamped(changed, s.samples + 1)))
  }

  function AfterSample(s: Sub, claims: seq<Claim>): Sub {
    if s.writing then Taken(s, claims) else AfterNext(Taken(s, claims))
  }

  function AfterDelivery(s: Sub): Sub {
    AfterNext(s.(delivered := s.delivered + [s.inFlight], inFlight := NO_BATCH))
  }

  function AfterRemoval(s: Sub): Sub { s.(open := false, pending := NO_BATCH) }

  /** The listener refused the batch: the subscription fails and the writer ends. */
  function AfterRefusal(s: Sub): Sub { AfterRemoval(s).(inFlight := NO_BATCH, writing := false) }

  /** What a tick does to a subscription; no claims means that their projection failed. */
  function Heard(s: Sub, projected: Option<seq<Claim>>): Sub {
    match projected
    case None => AfterRemoval(s)
    case Some(claims) => AfterSample(s, claims)
  }

  datatype Event = TakeSample(claims: seq<Claim>) | Acknowledge | Refuse | Unsubscribe

  predicate Enabled(s: Sub, e: Event) {
    match e
    case TakeSample(claims) => s.open && DistinctIds(claims)
    case Acknowledge => s.writing
    case Refuse => s.writing
    case Unsubscribe => true
  }

  function Apply(s: Sub, e: Event): Sub {
    match e
    case TakeSample(claims) => AfterSample(s, claims)
    case Acknowledge => AfterDelivery(s)
    case Refuse => AfterRefusal(s)
    case Unsubscribe => AfterRemoval(s)
  }

  ghost predicate Run(start: Sub, events: seq<Event>, end: Sub)
    decreases |events|
  {
    if events == [] then start == end
    else Enabled(start, events[0]) && Run(Apply(start, events[0]), events[1..], end)
  }

  // -------------------------------------------------------------- invariant

  ghost predicate Earlier(a: Stamps, b: Stamps) { forall id :: id in a && id in b ==> a[id] < b[id] }

  ghost predicate UpTo(a: Stamps, samples: nat) { forall id :: id in a ==> a[id] <= samples }

  /** Delivered, in flight and pending versions of a transfer are in the order they were sampled. */
  ghost predicate InOrder(delivered: seq<Batch>, inFlight: Stamps, pending: Stamps, samples: nat) {
    && UpTo(inFlight, samples) && UpTo(pending, samples) && Earlier(inFlight, pending)
    && (forall i :: 0 <= i < |delivered| ==>
          UpTo(delivered[i].at, samples) && Earlier(delivered[i].at, inFlight) && Earlier(delivered[i].at, pending))
    && (forall i, j :: 0 <= i < j < |delivered| ==> Earlier(delivered[i].at, delivered[j].at))
  }

  ghost predicate Good(s: Sub) {
    && (s.open ==> Converges(s.previous, View(Held(s.baseline, s.delivered), s.inFlight.claims, s.pending.claims)))
    && (s.pending.claims != map[] ==> s.writing && s.open)
    && (!s.writing ==> s.inFlight == NO_BATCH)
    && s.pending.at.Keys == s.pending.claims.Keys && s.inFlight.at.Keys == s.inFlight.claims.Keys
    && InOrder(s.delivered, s.inFlight.at, s.pending.at, s.samples)
  }

  lemma NextStep(s: Sub)
    ensures var n := AfterNext(s);
            && n.previous == s.previous && n.open == s.open && n.writing == (s.open && s.pending.claims != map[])
            && n.pending.claims == (if n.writing then map[] else s.pending.claims)
  {
  }

  lemma SampleStep(s: Sub, claims: seq<Claim>)
    requires s.open
    ensures var n, waiting := AfterSample(s, claims), s.pending.claims + Changed(s.previous, claims);
            && n.previous == Sampled(claims) && n.open && n.writing == (s.writing || waiting != map[])
            && n.pending.claims == (if n.writing && !s.writing then map[] else waiting)
  {
    hide Changed, Sampled, AfterNext, Stamped;
    NextStep(Taken(s, claims));
  }

  lemma NextKeepsGood(s: Sub)
    requires s.open ==> Converges(s.previous, View(Held(s.baseline, s.delivered), map[], s.pending.claims))
    requires s.inFlight == NO_BATCH && s.pending.at.Keys == s.pending.claims.Keys
    requires !s.open ==> s.pending == NO_BATCH
    requires InOrder(s.delivered, map[], s.pending.at, s.samples)
    ensures Good(AfterNext(s))
  {
    StartingKeepsView(Held(s.baseline, s.delivered), s.pending.claims);
    assert InOrder(s.delivered, s.pending.at, map[], s.samples);
    hide InOrder, View, Converges, Held;
  }

  lemma SampleKeepsOrder(
    delivered: seq<Batch>, inFlight: Stamps, pending: Stamps, changed: map<Id, Claim>, samples: nat)
    requires InOrder(delivered, inFlight, pending, samples)
    ensures InOrder(delivered, inFlight, pending + Stamped(changed, samples + 1), samples + 1)
  {
    var after := pending + Stamped(changed, samples + 1);
    LaterStamps(inFlight, pending, changed, samples);
    forall i | 0 <= i < |delivered|
      ensures UpTo(delivered[i].at, samples + 1) && Earlier(delivered[i].at, after)
    {
      LaterStamps(delivered[i].at, pending, changed, samples);
    }
    hide Earlier, UpTo, Stamped;
  }

  lemma LaterStamps(a: Stamps, pending: Stamps, changed: map<Id, Claim>, samples: nat)
    requires UpTo(a, samples) && UpTo(pending, samples) && Earlier(a, pending)
    ensures UpTo(a, samples + 1) && UpTo(pending + Stamped(changed, samples + 1), samples + 1)
    ensures Earlier(a, pending + Stamped(changed, samples + 1))
  {
  }

  lemma SampleKeepsGood(s: Sub, claims: seq<Claim>)
    requires Good(s) && s.open && DistinctIds(claims)
    ensures Good(AfterSample(s, claims))
  {
    hide Changed, Sampled, View, Converges, Held, InOrder, AfterNext, Prints, DistinctIds, Stamped, Earlier, UpTo;
    var held := Held(s.baseline, s.delivered);
    SampleConverges(s.previous, held, s.inFlight.claims, s.pending.claims, claims);
    SampleKeepsOrder(s.delivered, s.inFlight.at, s.pending.at, Changed(s.previous, claims), s.samples);
    TakenKeepsKeys(s, claims);
    if s.writing { TakenKeepsGood(s, claims); } else { NextKeepsGood(Taken(s, claims)); }
  }

  lemma TakenKeepsKeys(s: Sub, claims: seq<Claim>)
    requires s.pending.at.Keys == s.pending.claims.Keys
    ensures Taken(s, claims).pending.at.Keys == Taken(s, claims).pending.claims.Keys
  {
    hide Changed, Sampled;
  }

  /** While a write is running the sampled changes simply wait. */
  lemma TakenKeepsGood(s: Sub, claims: seq<Claim>)
    requires Good(s) && s.open && s.writing
    requires Taken(s, claims).pending.at.Keys == Taken(s, claims).pending.claims.Keys
    requires Converges(Taken(s, claims).previous,
             View(Held(s.baseline, s.delivered), s.inFlight.claims, Taken(s, claims).pending.claims))
    requires InOrder(s.delivered, s.inFlight.at, Taken(s, claims).pending.at, s.samples + 1)
    ensures Good(Taken(s, claims))
  {
    hide Changed, Sampled, View, Converges, Held, InOrder, Stamped;
  }

  lemma DeliveryKeepsOrder(delivered: seq<Batch>, batch: Batch, pending: Stamps, samples: nat)
    requires InOrder(delivered, batch.at, pending, samples)
    ensures InOrder(delivered + [batch], map[], pending, samples)
  {
    var after := delivered + [batch];
    assert forall i :: 0 <= i < |delivered| ==> after[i] == delivered[i];
    assert after[|delivered|] == batch;
    hide Earlier, UpTo;
    assert UpTo(map[], samples) && Earlier(map[], pending) by { NothingIsEarlier(pending, samples); }
    forall i | 0 <= i < |after| ensures Earlier(after[i].at, map[]) { NothingIsLater(after[i].at); }
  }

  lemma NothingIsEarlier(b: Stamps, samples: nat)
    ensures UpTo(map[], samples) && Earlier(map[], b)
  {
  }

  lemma NothingIsLater(a: Stamps)
    ensures Earlier(a, map[])
  {
  }

  lemma DeliveryKeepsGood(s: Sub)
    requires Good(s) && s.writing
    ensures Good(AfterDelivery(s))
  {
    var after := s.(delivered := s.delivered + [s.inFlight], inFlight := NO_BATCH);
    DeliveryKeepsOrder(s.delivered, s.inFlight, s.pending.at, s.samples);
    assert after.delivered[..|s.delivered|] == s.delivered;
    assert Held(after.baseline, after.delivered) == Held(s.baseline, s.delivered) + Prints(s.inFlight.claims);
    DeliveryKeepsView(Held(s.baseline, s.delivered), s.inFlight.claims, s.pending.claims);
    hide View, Converges, Held, InOrder, Prints;
    NextKeepsGood(after);
  }

  lemma RemovalKeepsGood(s: Sub)
    requires Good(s)
    ensures Good(AfterRemoval(s)) && Good(AfterRefusal(s))
  {
    assert InOrder(s.delivered, s.inFlight.at, map[], s.samples) && InOrder(s.delivered, map[], map[], s.samples);
    hide InOrder, View, Converges, Held;
  }

  lemma EventKeepsGood(s: Sub, e: Event)
    requires Good(s) && Enabled(s, e)
    ensures Good(Apply(s, e))
  {
    hide Good, AfterSample, AfterDelivery, AfterRemoval, AfterRefusal;
    match e
    case TakeSample(claims) => SampleKeepsGood(s, claims);
    case Acknowledge => DeliveryKeepsGood(s);
    case Refuse => RemovalKeepsGood(s);
    case Unsubscribe => RemovalKeepsGood(s);
  }

  // --------------------------------------------------------------- theorems

  lemma {:induction false} RunKeepsGood(start: Sub, events: seq<Event>, end: Sub)
    requires Good(start) && Run(start, events, end)
    ensures Good(end)
    decreases |events|
  {
    hide Good, Enabled, Apply;
    if events != [] {
      EventKeepsGood(start, events[0]);
      RunKeepsGood(Apply(start, events[0]), events[1..], end);
    }
  }

  lemma StartIsGood(snapshot: seq<Claim>)
    ensures Good(Start(snapshot))
  {
    hide FingerprintOf;
    assert View(Sampled(snapshot), map[], map[]) == Sampled(snapshot);
  }

  /**
   * Whatever the schedule of samples, acknowledgements, refusals and removals, an open
   * subscription converges to the latest sample: baseline, then delivered batches, then the
   * batch in flight, then what is pending. Pending claims only wait behind a running write.
   */
  lemma FeedConverges(snapshot: seq<Claim>, events: seq<Event>, s: Sub)
    requires Run(Start(snapshot), events, s) && s.open
    ensures Converges(s.previous, View(Held(s.baseline, s.delivered), s.inFlight.claims, s.pending.claims))
    ensures s.pending.claims != map[] ==> s.writing
    ensures !s.writing ==> Converges(s.previous, Held(s.baseline, s.delivered))
  {
    StartIsGood(snapshot);
    RunKeepsGood(Start(snapshot), events, s);
    hide Run, Converges, Held, InOrder, Start;
    ViewOfNothing(Held(s.baseline, s.delivered));
    hide View;
  }

  /** No older version of a transfer is delivered after a newer one. */
  lemma DeliveriesNeverGoBack(snapshot: seq<Claim>, events: seq<Event>, s: Sub, i: nat, j: nat, id: Id)
    requires Run(Start(snapshot), events, s) && i < j < |s.delivered|
    requires id in s.delivered[i].at && id in s.delivered[j].at
    ensures s.delivered[i].at[id] < s.delivered[j].at[id]
  {
    StartIsGood(snapshot);
    RunKeepsGood(Start(snapshot), events, s);
    assert Earlier(s.delivered[i].at, s.delivered[j].at);
  }

  // --------------------------------------------- how a subscription runs and ends

  predicate Continues(e: Event) { e.TakeSample? || e.Acknowledge? }

  /** A batch is in flight exactly while a write runs. */
  ghost predicate Busy(s: Sub) { s.writing <==> s.inFlight.claims != map[] }

  /** A closed one can take no further sample, and nothing opens it again. */
  lemma EventContinues(s: Sub, e: Event)
    requires Good(s) && Busy(s) && Enabled(s, e)
    ensures Busy(Apply(s, e)) && (Apply(s, e).open <==> s.open && Continues(e))
  {
    hide Changed, Sampled, Stamped, Converges, InOrder, View, Held, FingerprintOf, DistinctIds;
    assert (s.pending.claims != map[] ==> s.open) && (!s.writing ==> s.inFlight == NO_BATCH);
    hide Good;
  }

  lemma {:induction false} RunContinues(start: Sub, events: seq<Event>, end: Sub)
    requires Good(start) && Busy(start) && Run(start, events, end)
    ensures Good(end) && Busy(end)
    ensures end.open <==> start.open && forall i :: 0 <= i < |events| ==> Continues(events[i])
    decreases |events|
  {
    hide Good, Enabled, Apply, Busy, Continues;
    if events != [] {
      EventKeepsGood(start, events[0]);
      EventContinues(start, events[0]);
      RunContinues(Apply(start, events[0]), events[1..], end);
      assert forall i :: 0 <= i < |events[1..]| ==> events[1..][i] == events[i + 1];
      assert forall i :: 0 < i < |events| ==> events[i] == events[1..][i - 1];
    }
  }

  /**
   * A subscription is open exactly until the first refusal or removal, and a batch is in flight
   * exactly while its writer runs.
   */
  lemma OpenUntilEnded(snapshot: seq<Claim>, events: seq<Event>, s: Sub)
    requires Run(Start(snapshot), events, s)
    ensures s.open <==> forall i :: 0 <= i < |events| ==> events[i].TakeSample? || events[i].Acknowledge?
    ensures s.writing <==> s.inFlight.claims != map[]
  {
    StartIsGood(snapshot);
    assert Start(snapshot).open && Busy(Start(snapshot));
    hide Good, Run, Start;
    RunContinues(Start(snapshot), events, s);
  }

  /** The claim is new, or its fingerprint is not the one sampled last. */
  predicate Differs(s: Sub, claim: Claim) {
    claim.transferId in s.previous ==> s.previous[claim.transferId] != FingerprintOf(claim)
  }

  /**
   * A sample hands an idle listener exactly the claims that differ, at once; behind a running write
   * they wait, over what already waits. Either way the sample is what the next one is compared with.
   */
  lemma SampleHandsOver(snapshot: seq<Claim>, events: seq<Event>, s: Sub, claims: seq<Claim>, i: nat)
    requires Run(Start(snapshot), events, s) && s.open && DistinctIds(claims) && i < |claims|
    ensures var n, id := Apply(s, TakeSample(claims)), claims[i].transferId;
            && id in n.previous && n.previous[id] == FingerprintOf(claims[i]) && n.delivered == s.delivered
            && (Differs(s, claims[i]) ==>
                  if s.writing then id in n.pending.claims && n.pending.claims[id] == claims[i]
                  else n.writing && id in n.inFlight.claims && n.inFlight.claims[id] == claims[i])
            && (!s.writing ==> n.pending.claims == map[] && (id in n.inFlight.claims ==> Differs(s, claims[i])))
            && (s.writing ==>
                  && n.writing && n.inFlight == s.inFlight
                  && (!Differs(s, claims[i]) ==>
                        && (id in n.pending.claims <==> id in s.pending.claims)
                        && (id in s.pending.claims ==> n.pending.claims[id] == s.pending.claims[id])))
  {
    StartIsGood(snapshot);
    RunKeepsGood(Start(snapshot), events, s);
    ChangedAt(s.previous, claims, i);
    SampledAt(claims, i);
    hide Run, Start, Changed, Sampled, Converges, InOrder, View, Held, FingerprintOf, DistinctIds;
  }

  /** An acknowledged batch is delivered, and what waited behind it is in flight at once. */
  lemma AcknowledgementGoesOn(snapshot: seq<Claim>, events: seq<Event>, s: Sub)
    requires Run(Start(snapshot), events, s) && s.writing
    ensures var n := Apply(s, Acknowledge);
            && n.delivered == s.delivered + [s.inFlight] && n.inFlight.claims == s.pending.claims
            && n.pending.claims == map[] && n.open == s.open && n.previous == s.previous
  {
    hide Run, Start, Converges, InOrder, View, Held;
    StartIsGood(snapshot);
    RunKeepsGood(Start(snapshot), events, s);
  }

  lemma {:induction false} ClosedStays(s: Sub, events: seq<Event>, end: Sub)
    requires !s.open && s.pending.claims == map[] && Run(s, events, end)
    ensures end.delivered == s.delivered || (s.writing && end.delivered == s.delivered + [s.inFlight])
    decreases |events|
  {
    if events != [] {
      var next := Apply(s, events[0]);
      assert Enabled(s, events[0]) && Run(next, events[1..], end);
      hide Run;
      ClosedStays(next, events[1..], end);
    }
  }

  /** After a removal only a write under way can still arrive, and after a refusal nothing does. */
  lemma NothingAfterTheEnd(snapshot: seq<Claim>, past: seq<Event>, s: Sub, e: Event, future: seq<Event>, later: Sub)
    requires Run(Start(snapshot), past, s) && Enabled(s, e) && !Continues(e) && Run(Apply(s, e), future, later)
    ensures later.delivered == s.delivered
            || (e == Unsubscribe && s.writing && later.delivered == s.delivered + [s.inFlight])
  {
    hide Run, Start;
    ClosedStays(Apply(s, e), future, later);
  }

  /** A held fingerprint that agrees with the sample means the defined fields agree. */
  lemma SameFingerprintSameClaim(a: Claim, b: Claim)
    requires Canonical.Plain(a.wire) && Canonical.Plain(b.wire) && Fingerprint.Json(a.wire) && Fingerprint.Json(b.wire)
    ensures FingerprintOf(a) == FingerprintOf(b) <==>
            Canonical.Same(Fingerprint.Defined(a.wire), Fingerprint.Defined(b.wire))
  {
    Fingerprint.FingerprintComparison(a.wire, b.wire);
  }

  // ------------------------------------------------------------ the feed

  /** The comparison of one sample with the previous one: new fingerprints, and what must be sent. */
  method Compare(previous: map<Id, Print>, waiting: map<Id, Claim>, claims: seq<Claim>)
    returns (next: map<Id, Print>, pending: map<Id, Claim>)
    ensures next == Sampled(claims) && pending == waiting + Changed(previous, claims)
  {
    hide FingerprintOf;
    next, pending := map[], waiting;
    for i := 0 to |claims|
      invariant next == Sampled(claims[..i])
      invariant pending == waiting + Changed(previous, claims[..i])
    {
      var claim := claims[i];
      assert claims[..i + 1][..i] == claims[..i] && claims[..i + 1][i] == claim;
      var fingerprint := FingerprintOf(claim);
      next := next[claim.transferId := fingerprint];
      if !(claim.transferId in previous && previous[claim.transferId] == fingerprint) {
        pending := pending[claim.transferId := claim];
      }
    }
    assert claims[..|claims|] == claims;
  }

  /** One subscription record; `model` is its history, whose current part the fields repeat. */
  class Subscription {
    const keys: seq<Id>
    var previous: map<Id, Print>
    var pending: map<Id, Claim>
    var writing: bool
    var open: bool               // whether the feed still has the subscription
    ghost var model: Sub

    ghost predicate Agrees()
      reads this
    {
      && Good(model)
      && previous == model.previous && pending == model.pending.claims && writing == model.writing && open == model.open
    }

    constructor (keys: seq<Id>, snapshot: seq<Claim>)
      requires DistinctIds(snapshot)
      ensures Agrees() && model == Start(snapshot) && this.keys == keys
    {
      StartIsGood(snapshot);
      this.keys := keys;
      previous, pending, writing, open := Sampled(snapshot), map[], false, true;
      model := Start(snapshot);
    }

    /** The part of `sample` that concerns this subscription, up to the first await of `flush`. */
    method Sample(claims: seq<Claim>)
      requires Agrees() && open && DistinctIds(claims)
      modifies this
      ensures Agrees() && open && model == AfterSample(old(model), claims)
    {
      hide FingerprintOf, Good, AfterSample, Changed, Sampled, DistinctIds;
      SampleKeepsGood(model, claims);
      SampleStep(model, claims);
      previous, pending := Compare(previous, pending, claims);
      if !writing {
        writing := true;
        if pending == map[] { writing := false; } else { pending := map[]; }
      }
      model := AfterSample(model, claims);
    }

    /** The listener has taken the batch; the write loop goes on with what became pending. */
    method Delivered()
      requires Agrees() && writing
      modifies this
      ensures Agrees() && model == AfterDelivery(old(model))
    {
      hide Good, AfterNext;
      DeliveryKeepsGood(model);
      NextStep(model.(delivered := model.delivered + [model.inFlight], inFlight := NO_BATCH));
      if open && pending != map[] { pending := map[]; } else { writing := false; }
      model := AfterDelivery(model);
    }

    /** `remove`: nothing more is sent. A write under way runs to its end. */
    method Remove()
      requires Agrees()
      modifies this
      ensures Agrees() && model == AfterRemoval(old(model))
    {
      RemovalKeepsGood(model);
      hide Good;
      pending, open := map[], false;
      model := AfterRemoval(model);
    }

    method Refused()
      requires Agrees() && writing
      modifies this
      ensures Agrees() && model == AfterRefusal(old(model))
    {
      RemovalKeepsGood(model);
      hide Good;
      pending, writing, open := map[], false, false;
      model := AfterRefusal(model);
    }
  }

  /** `ReceiverClaimFeed`: the live subscriptions and the sampling timer. */
  class Feed {
    var subscriptions: set<Subscription>
    var timer: bool
    var closed: bool

    /** The timer runs exactly while somebody listens. */
    ghost predicate Valid()
      reads this, subscriptions
    {
      && (timer <==> subscriptions != {})
      && (closed ==> subscriptions == {})
      && forall s :: s in subscriptions ==> s.Agrees() && s.open
    }

    constructor ()
      ensures Valid() && subscriptions == {} && !closed
    {
      subscriptions, timer, closed := {}, false, false;
    }

    method Subscribe(keys: seq<Id>, snapshot: seq<Claim>) returns (r: Option<Subscription>)
      requires Valid() && DistinctIds(snapshot)
      modifies this`subscriptions, this`timer
      ensures Valid() && (r.None? <==> closed)
      ensures r.None? ==> subscriptions == old(subscriptions)
      ensures r.Some? ==>
              fresh(r.value) && subscriptions == old(subscriptions) + {r.value} && r.value.model == Start(snapshot)
    {
      if closed { return None; }
      var subscription := new Subscription(keys, snapshot);
      subscriptions, timer := subscriptions + {subscription}, true;
      r := Some(subscription);
    }

    /** `remove`, and `fail` but for its callback: a no-op unless subscribed. */
    method Drop(subscription: Subscription)
      requires Valid()
      modifies this`subscriptions, this`timer, subscription
      ensures Valid() && subscriptions == old(subscriptions) - {subscription}
      ensures subscription in old(subscriptions) ==>
                subscription.Agrees() && subscription.model == AfterRemoval(old(subscription.model))
      ensures subscription !in old(subscriptions) ==> subscription.model == old(subscription.model)
    {
      if subscription in subscriptions {
        subscription.Remove();
        subscriptions := subscriptions - {subscription};
        if subscriptions == {} { timer := false; }
      }
    }

    /** One turn of the loop over subscriptions: fail, or take the sample. */
    method Hear(subscription: Subscription, projected: Option<seq<Claim>>)
      requires Valid() && subscription in subscriptions
      requires projected.Some? ==> DistinctIds(projected.value)
      modifies this`subscriptions, this`timer, subscription
      ensures Valid()
      ensures subscriptions == if projected.Some? then old(subscriptions) else old(subscriptions) - {subscription}
      ensures subscription.Agrees() && subscription.model == Heard(old(subscription.model), projected)
    {
      hide AfterSample, AfterRemoval, DistinctIds, Subscription.Agrees;
      match projected {
        case None => Drop(subscription);
        case Some(claims) => subscription.Sample(claims);
      }
    }

    /** One tick. A subscription whose claims could not be projected fails; the others see the sample. */
    method Tick(projected: map<Subscription, Option<seq<Claim>>>)
      requires Valid() && subscriptions <= projected.Keys
      requires forall s :: s in projected && projected[s].Some? ==> DistinctIds(projected[s].value)
      modifies this`subscriptions, this`timer, subscriptions
      ensures Valid()
      ensures subscriptions == set s | s in old(subscriptions) && projected[s].Some?
      ensures forall s :: s in old(subscriptions) ==> s.Agrees() && s.model == Heard(old(s.model), projected[s])
    {
      hide Heard, DistinctIds, Subscription.Agrees;
      ghost var all := subscriptions;
      var rest := subscriptions;
      while rest != {}
        invariant Valid() && rest <= subscriptions <= all
        invariant subscriptions == set s | s in all && (s in rest || projected[s].Some?)
        invariant forall s :: s in rest ==> s.model == old(s.model)
        invariant forall s :: s in all - rest ==> s.Agrees() && s.model == Heard(old(s.model), projected[s])
        decreases |rest|
      {
        var s :| s in rest;
        rest := rest - {s};
        Hear(s, projected[s]);
      }
    }

    /** `close`: every listener fails and the timer stops for good. */
    method Close()
      requires Valid()
      modifies this, subscriptions
      ensures Valid() && closed && subscriptions == {} && !timer
      ensures forall s :: s in old(subscriptions) ==> s.Agrees() && s.model == AfterRemoval(old(s.model))
    {
      hide Good, AfterRemoval, Subscription.Agrees;
      ghost var all := subscriptions;
      while subscriptions != {}
        invariant Valid() && subscriptions <= all && closed == old(closed)
        invariant forall s :: s in subscriptions ==> s.model == old(s.model)
        invariant forall s :: s in all - subscriptions ==> s.Agrees() && s.model == AfterRemoval(old(s.model))
        decreases |subscriptions|
      {
        var s :| s in subscriptions;
        Drop(s);
      }
      closed := true;
    }
  }
}
