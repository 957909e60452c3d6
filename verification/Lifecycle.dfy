// One-shot spend capabilities under garbage collection: the weak registry of
// packages/client/src/lifecycle.ts and its use by packages/client/src/spend.ts
// (`verifyObservedClaim`, `activeState`).
//
// A lifecycle object is an identity (`Obj`). What the collector has not yet taken is the
// set `alive`; dereferencing a weak reference tells whether its target is in it.
module Lifecycle {
  type Key = string
  type Obj = nat

  datatype Entry = Entry(generation: nat, target: Obj)

  type Entries = map<Key, Entry>

  // ------------------------------------------------------------ the registry

  /** `sweep`: entries whose target is gone are dropped. */
  function Swept(entries: Entries, alive: set<Obj>): Entries {
    map key | key in entries && entries[key].target in alive :: entries[key]
  }

  /** `#finalize`: only the registration that created the entry, and only once its target is gone. */
  function Finalized(entries: Entries, alive: set<Obj>, key: Key, generation: nat): Entries {
    if key in entries && entries[key].generation == generation && entries[key].target !in alive
    then entries - {key} else entries
  }

  class WeakValueRegistry {
    var entries: Entries
    var generation: nat

    constructor ()
      ensures entries == map[] && generation == 0
    {
      entries, generation := map[], 0;
    }

    method Sweep(alive: set<Obj>)
      modifies this`entries
      ensures entries == Swept(old(entries), alive)
    {
      var rest := entries.Keys;
      while rest != {}
        invariant rest <= old(entries).Keys
        invariant entries == map key | key in old(entries)
                  && (key in rest || old(entries)[key].target in alive) :: old(entries)[key]
        decreases rest
      {
        var key :| key in rest;
        if entries[key].target !in alive { entries := entries - {key}; }
        rest := rest - {key};
      }
    }

    /** The retained target, or `made` under a new generation. */
    method GetOrCreate(alive: set<Obj>, key: Key, made: Obj) returns (value: Obj, created: bool)
      modifies this
      ensures created == !(key in old(entries) && old(entries)[key].target in alive)
      ensures value == if created then made else old(entries)[key].target
      ensures generation == old(generation) + (if created then 1 else 0)
      ensures entries == if created then Swept(old(entries), alive)[key := Entry(generation, made)]
                         else Swept(old(entries), alive)
    {
      Sweep(alive);
      if key in entries && entries[key].target in alive {
        return entries[key].target, false;
      }
      generation := generation + 1;
      entries := entries[key := Entry(generation, made)];
      return made, true;
    }

    method Finalize(alive: set<Obj>, key: Key, held: nat)
      modifies this`entries
      ensures entries == Finalized(old(entries), alive, key, held)
    {
      if key in entries && entries[key].generation == held && entries[key].target !in alive {
        entries := entries - {key};
      }
    }
  }

  // ---------------------------------------------------- capabilities over time

  type Transfer = nat

  datatype Leaf = Purchase | Recycle | RefundSender

  /** `claimMode`; `Either` where the parameters name none. */
  datatype Mode = Either | RecycleOnly | PurchaseOnly

  /** `claimLeafDisabled`. */
  predicate Disabled(mode: Mode, leaf: Leaf) {
    (mode == RecycleOnly && leaf == Purchase) || (mode == PurchaseOnly && leaf == Recycle)
  }

  /** What a transfer capability retains. Collecting it is only possible once nobody holds it. */
  datatype Capability = Capability(key: Key, lifecycle: Obj, mode: Mode)

  datatype Registration = Registration(key: Key, generation: nat)

  datatype World = World(
    entries: Entries,
    generation: nat,
    created: nat,                            // lifecycle objects are numbered in order of creation
    alive: set<Obj>,
    consumed: set<Obj>,
    live: map<Transfer, Capability>,         // transfers the program can still reach
    running: map<Transfer, Capability>,      // spends in flight, which retain the lifecycle too
    issued: map<Transfer, Capability>,       // every transfer ever made
    registered: map<Obj, Registration>,
    due: set<Registration>,                  // finalizer callbacks not yet run
    activations: seq<Transfer>)

  const START := World(map[], 0, 0, {}, {}, map[], map[], map[], map[], {}, [])

  datatype Step =
    | Verify(transfer: Transfer, key: Key, mode: Mode)
    | Activate(transfer: Transfer, leaf: Leaf)
    | FinishSpend(transfer: Transfer)
    | Drop(transfer: Transfer)
    | Collect(obj: Obj, finalizers: bool)
    | Callback(held: Registration)
    | SweepNow

  predicate Enabled(w: World, s: Step) {
    match s
    case Verify(transfer, _, _) => transfer !in w.issued
    case Activate(transfer, _) => transfer in w.live
    case FinishSpend(transfer) => transfer in w.running
    case Drop(transfer) => transfer in w.live
    case Collect(obj, _) =>
      && obj in w.alive
      && (forall t :: t in w.live ==> w.live[t].lifecycle != obj)
      && (forall t :: t in w.running ==> w.running[t].lifecycle != obj)
    case Callback(held) => held in w.due
    case SweepNow => true
  }

  function Issued(w: World, transfer: Transfer, capability: Capability): World {
    w.(live := w.live[transfer := capability], issued := w.issued[transfer := capability])
  }

  function WithNewLifecycle(w: World, key: Key): World {
    var obj, generation := w.created, w.generation + 1;
    w.(entries := Swept(w.entries, w.alive)[key := Entry(generation, obj)], generation := generation,
       created := w.created + 1, alive := w.alive + {obj},
       registered := w.registered[obj := Registration(key, generation)])
  }

  function Apply(w: World, s: Step): World
    requires Enabled(w, s)
  {
    match s
    case Verify(transfer, key, mode) =>
      if key in w.entries && w.entries[key].target in w.alive
      then Issued(w.(entries := Swept(w.entries, w.alive)), transfer, Capability(key, w.entries[key].target, mode))
      else Issued(WithNewLifecycle(w, key), transfer, Capability(key, w.created, mode))
    case Activate(transfer, leaf) =>
      // The leaf is checked before the one-shot lifecycle is touched, and before the sweep.
      if Disabled(w.live[transfer].mode, leaf) then w
      else
        var swept := w.(entries := Swept(w.entries, w.alive));
        var obj := w.live[transfer].lifecycle;
        if obj in w.consumed then swept
        else swept.(consumed := w.consumed + {obj}, running := w.running[transfer := w.live[transfer]],
                    activations := w.activations + [transfer])
    case FinishSpend(transfer) => w.(running := w.running - {transfer})
    case Drop(transfer) => w.(live := w.live - {transfer})
    case Collect(obj, finalizers) =>
      w.(alive := w.alive - {obj},
         due := if finalizers && obj in w.registered then w.due + {w.registered[obj]} else w.due)
    case Callback(held) =>
      w.(entries := Finalized(w.entries, w.alive, held.key, held.generation), due := w.due - {held})
    case SweepNow => w.(entries := Swept(w.entries, w.alive))
  }

  ghost predicate Run(start: World, steps: seq<Step>, end: World)
    decreases |steps|
  {
    if steps == [] then start == end
    else Enabled(start, steps[0]) && Run(Apply(start, steps[0]), steps[1..], end)
  }

  // -------------------------------------------------------------- invariant

  /** A held capability's lifecycle is alive and is the registry's target for its key. */
  ghost predicate Retained(entries: Entries, alive: set<Obj>, c: Capability) {
    c.lifecycle in alive && c.key in entries && entries[c.key].target == c.lifecycle
  }

  ghost predicate AllRetained(entries: Entries, alive: set<Obj>, held: map<Transfer, Capability>) {
    forall t :: t in held ==> Retained(entries, alive, held[t])
  }

  ghost predicate AllIssued(held: map<Transfer, Capability>, issued: map<Transfer, Capability>) {
    forall t :: t in held ==> t in issued && issued[t] == held[t]
  }

  /** Every object in use was created, so a new one is in nobody's hands. */
  ghost predicate Numbered(w: World) {
    && (forall o :: o in w.alive || o in w.consumed ==> o < w.created)
    && (forall t :: t in w.issued ==> w.issued[t].lifecycle < w.created)
  }

  /** An object in consumption was activated through one of its transfers. */
  ghost predicate ConsumedBy(issued: map<Transfer, Capability>, activations: seq<Transfer>, obj: Obj) {
    exists i :: 0 <= i < |activations| && activations[i] in issued && issued[activations[i]].lifecycle == obj
  }

  /** An activated transfer consumed its lifecycle, and no two consumed the same one. */
  ghost predicate Once(issued: map<Transfer, Capability>, consumed: set<Obj>, activations: seq<Transfer>) {
    && (forall i :: 0 <= i < |activations| ==> activations[i] in issued && issued[activations[i]].lifecycle in consumed)
    && (forall i, j :: 0 <= i < j < |activations| ==>
          issued[activations[i]].lifecycle != issued[activations[j]].lifecycle)
    && (forall o :: o in consumed ==> ConsumedBy(issued, activations, o))
  }

  /** The registration of an object carries the generation it was created under. */
  ghost predicate Registrations(registered: map<Obj, Registration>, created: nat) {
    forall o :: o in registered ==> o < created && registered[o].generation == o + 1
  }

  /** An entry stands for its own object's registration. */
  ghost predicate EntriesRegistered(entries: Entries, registered: map<Obj, Registration>) {
    forall k :: k in entries ==>
      entries[k].target in registered && registered[entries[k].target] == Registration(k, entries[k].generation)
  }

  /** A callback falls due for an object that was collected. */
  ghost predicate DueAreGone(due: set<Registration>, registered: map<Obj, Registration>, alive: set<Obj>) {
    forall d :: d in due ==> d.generation > 0 && d.generation - 1 in registered && registered[d.generation - 1] == d
                             && d.generation - 1 !in alive
  }

  ghost predicate Bookkeeping(w: World) {
    && w.generation == w.created && Registrations(w.registered, w.created)
    && EntriesRegistered(w.entries, w.registered) && DueAreGone(w.due, w.registered, w.alive)
  }

  ghost predicate Inv(w: World) {
    && AllRetained(w.entries, w.alive, w.live) && AllRetained(w.entries, w.alive, w.running)
    && AllIssued(w.live, w.issued) && AllIssued(w.running, w.issued)
    && Numbered(w) && Once(w.issued, w.consumed, w.activations) && Bookkeeping(w)
  }

  lemma SweepRetains(entries: Entries, alive: set<Obj>, held: map<Transfer, Capability>)
    requires AllRetained(entries, alive, held)
    ensures AllRetained(Swept(entries, alive), alive, held)
  {
    forall t | t in held ensures Retained(Swept(entries, alive), alive, held[t]) {
      assert Retained(entries, alive, held[t]);
    }
  }

  /** A new object under a key whose old target is gone takes nothing from a holder. */
  lemma CreationRetains(entries: Entries, alive: set<Obj>, held: map<Transfer, Capability>, key: Key, entry: Entry)
    requires AllRetained(entries, alive, held)
    requires !(key in entries && entries[key].target in alive)
    ensures AllRetained(Swept(entries, alive)[key := entry], alive + {entry.target}, held)
  {
    forall t | t in held ensures Retained(Swept(entries, alive)[key := entry], alive + {entry.target}, held[t]) {
      assert Retained(entries, alive, held[t]);
    }
  }

  lemma IssueKeepsOnce(w: World, t: Transfer, c: Capability)
    requires Once(w.issued, w.consumed, w.activations) && t !in w.issued
    ensures Once(w.issued[t := c], w.consumed, w.activations)
  {
    forall o | o in w.consumed ensures ConsumedBy(w.issued[t := c], w.activations, o) {
      assert ConsumedBy(w.issued, w.activations, o);
      var i :| 0 <= i < |w.activations| && w.activations[i] in w.issued && w.issued[w.activations[i]].lifecycle == o;
      assert w.issued[t := c][w.activations[i]] == w.issued[w.activations[i]];
    }
  }

  lemma IssueKeepsInv(w: World, t: Transfer, c: Capability)
    requires Inv(w) && t !in w.issued && Retained(w.entries, w.alive, c)
    ensures Inv(Issued(w, t, c))
  {
    var after := Issued(w, t, c);
    assert Numbered(after) && AllIssued(after.live, after.issued) && AllIssued(after.running, after.issued);
    IssueKeepsOnce(w, t, c);
    hide Retained, Numbered, Once, AllIssued;
  }

  lemma NewLifecycleKeepsInv(w: World, key: Key)
    requires Inv(w) && !(key in w.entries && w.entries[key].target in w.alive)
    ensures Inv(WithNewLifecycle(w, key))
  {
    var after := WithNewLifecycle(w, key);
    CreationRetains(w.entries, w.alive, w.live, key, after.entries[key]);
    CreationRetains(w.entries, w.alive, w.running, key, after.entries[key]);
    assert Numbered(after);
    assert Bookkeeping(after);
    hide AllRetained, Once, AllIssued, Numbered, Bookkeeping;
  }

  lemma VerifyKeepsInv(w: World, t: Transfer, key: Key, mode: Mode)
    requires Inv(w) && t !in w.issued
    ensures Inv(Apply(w, Verify(t, key, mode)))
  {
    if key in w.entries && w.entries[key].target in w.alive {
      var swept := w.(entries := Swept(w.entries, w.alive));
      SweepKeepsInv(w);
      assert Inv(swept);
      hide Inv;
      IssueKeepsInv(swept, t, Capability(key, w.entries[key].target, mode));
    } else {
      NewLifecycleKeepsInv(w, key);
      hide Inv;
      IssueKeepsInv(WithNewLifecycle(w, key), t, Capability(key, w.created, mode));
    }
  }

  /** One more activation, of an object nobody has activated. */
  lemma ActivationKeepsOnce(w: World, t: Transfer)
    requires Once(w.issued, w.consumed, w.activations) && t in w.issued && w.issued[t].lifecycle !in w.consumed
    ensures Once(w.issued, w.consumed + {w.issued[t].lifecycle}, w.activations + [t])
  {
    var activations := w.activations + [t];
    assert activations[|w.activations|] == t && forall i :: 0 <= i < |w.activations| ==>
      activations[i] == w.activations[i];
    forall o | o in w.consumed + {w.issued[t].lifecycle} ensures ConsumedBy(w.issued, activations, o) {
      if o in w.consumed {
        assert ConsumedBy(w.issued, w.activations, o);
        var i :| 0 <= i < |w.activations| && w.activations[i] in w.issued && w.issued[w.activations[i]].lifecycle == o;
        assert activations[i] == w.activations[i];
      }
    }
  }

  lemma ActivateKeepsInv(w: World, t: Transfer, leaf: Leaf)
    requires Inv(w) && t in w.live
    ensures Inv(Apply(w, Activate(t, leaf)))
  {
    var after := Apply(w, Activate(t, leaf));
    SweepRetains(w.entries, w.alive, w.live);
    SweepRetains(w.entries, w.alive, w.running);
    assert Numbered(after) && AllIssued(after.running, after.issued);
    assert Bookkeeping(after) by {
      assert forall k :: k in after.entries ==> k in w.entries && after.entries[k] == w.entries[k];
    }
    assert AllRetained(after.entries, after.alive, after.running) by { hide Swept; }
    if after.activations != w.activations { ActivationKeepsOnce(w, t); }
    hide Swept, AllRetained, Numbered, Bookkeeping, Once, AllIssued;
  }

  lemma SweepKeepsInv(w: World)
    requires Inv(w)
    ensures Inv(Apply(w, SweepNow))
  {
    SweepRetains(w.entries, w.alive, w.live);
    SweepRetains(w.entries, w.alive, w.running);
    hide AllRetained, Once, AllIssued, Registrations, DueAreGone;
  }

  /** Collection only takes what nobody holds. */
  lemma CollectionRetains(entries: Entries, alive: set<Obj>, held: map<Transfer, Capability>, obj: Obj)
    requires AllRetained(entries, alive, held) && forall t :: t in held ==> held[t].lifecycle != obj
    ensures AllRetained(entries, alive - {obj}, held)
  {
    forall t | t in held ensures Retained(entries, alive - {obj}, held[t]) { assert Retained(entries, alive, held[t]); }
  }

  lemma CollectKeepsInv(w: World, obj: Obj, finalizers: bool)
    requires Inv(w) && Enabled(w, Collect(obj, finalizers))
    ensures Inv(Apply(w, Collect(obj, finalizers)))
  {
    CollectionRetains(w.entries, w.alive, w.live, obj);
    CollectionRetains(w.entries, w.alive, w.running, obj);
    hide AllRetained, Once, AllIssued, EntriesRegistered;
  }

  /** A callback only removes an entry whose target is gone. */
  lemma FinalizingRetains(entries: Entries, alive: set<Obj>, held: map<Transfer, Capability>, gone: Registration)
    requires AllRetained(entries, alive, held)
    ensures AllRetained(Finalized(entries, alive, gone.key, gone.generation), alive, held)
  {
    forall t | t in held ensures Retained(Finalized(entries, alive, gone.key, gone.generation), alive, held[t]) {
      assert Retained(entries, alive, held[t]);
    }
  }

  lemma CallbackKeepsInv(w: World, held: Registration)
    requires Inv(w) && Enabled(w, Callback(held))
    ensures Inv(Apply(w, Callback(held)))
  {
    FinalizingRetains(w.entries, w.alive, w.live, held);
    FinalizingRetains(w.entries, w.alive, w.running, held);
    hide AllRetained, Once, AllIssued, Registrations;
  }

  lemma ReleaseKeepsInv(w: World, s: Step)
    requires Inv(w) && Enabled(w, s) && (s.Drop? || s.FinishSpend?)
    ensures Inv(Apply(w, s))
  {
    hide Once, Retained, Registrations, EntriesRegistered, DueAreGone;
  }

  lemma StepKeepsInv(w: World, s: Step)
    requires Inv(w) && Enabled(w, s)
    ensures Inv(Apply(w, s))
  {
    hide Inv;
    match s
    case Verify(t, key, mode) => VerifyKeepsInv(w, t, key, mode);
    case Activate(t, leaf) => ActivateKeepsInv(w, t, leaf);
    case FinishSpend(_) => ReleaseKeepsInv(w, s);
    case Drop(_) => ReleaseKeepsInv(w, s);
    case Collect(obj, finalizers) => CollectKeepsInv(w, obj, finalizers);
    case Callback(held) => CallbackKeepsInv(w, held);
    case SweepNow => SweepKeepsInv(w);
  }

  lemma StepKeepsHistory(w: World, s: Step)
    requires Enabled(w, s)
    ensures forall t :: t in w.issued ==> t in Apply(w, s).issued && Apply(w, s).issued[t] == w.issued[t]
    ensures w.activations <= Apply(w, s).activations
  {
  }

  lemma {:induction false} RunKeepsInv(start: World, steps: seq<Step>, end: World)
    requires Inv(start) && Run(start, steps, end)
    ensures Inv(end)
    ensures forall t :: t in start.issued ==> t in end.issued && end.issued[t] == start.issued[t]
    ensures start.activations <= end.activations
    decreases |steps|
  {
    hide Inv, Enabled, Apply;
    if steps != [] {
      StepKeepsInv(start, steps[0]);
      StepKeepsHistory(start, steps[0]);
      RunKeepsInv(Apply(start, steps[0]), steps[1..], end);
    }
  }

  // --------------------------------------------------------------- theorems

  /** Held by the program, or by a spend in flight after the program let go of it. */
  predicate Held(w: World, t: Transfer) { t in w.live || t in w.running }

  lemma HeldIsRetained(w: World, t: Transfer)
    requires Inv(w) && Held(w, t)
    ensures t in w.issued && Retained(w.entries, w.alive, w.issued[t])
  {
    if t in w.live {
      assert Retained(w.entries, w.alive, w.live[t]);
    } else {
      assert Retained(w.entries, w.alive, w.running[t]);
    }
  }

  /** All held transfers of one key share one lifecycle object. */
  lemma LiveTransfersShareLifecycle(steps: seq<Step>, w: World, a: Transfer, b: Transfer)
    requires Run(START, steps, w) && Held(w, a) && Held(w, b)
    ensures a in w.issued && b in w.issued
    ensures w.issued[a].key == w.issued[b].key <==> w.issued[a].lifecycle == w.issued[b].lifecycle
  {
    RunKeepsInv(START, steps, w);
    hide Run;
    HeldIsRetained(w, a);
    HeldIsRetained(w, b);
  }

  /**
   * Among transfers of one key that are held together, at most one activation ever succeeds,
   * before or after that moment, whatever is verified, dropped, collected, finalized or swept.
   */
  lemma AtMostOneActivation(past: seq<Step>, w: World, future: seq<Step>, later: World, i: nat, j: nat)
    requires Run(START, past, w) && Run(w, future, later)
    requires i < j < |later.activations| && Held(w, later.activations[i]) && Held(w, later.activations[j])
    ensures later.activations[i] in w.issued && later.activations[j] in w.issued
    ensures w.issued[later.activations[i]].key != w.issued[later.activations[j]].key
  {
    var a, b := later.activations[i], later.activations[j];
    RunKeepsInv(START, past, w);
    RunKeepsInv(w, future, later);
    LiveTransfersShareLifecycle(past, w, a, b);
    hide Run;
    assert later.issued[a].lifecycle != later.issued[b].lifecycle;
  }

  /** No transfer is activated twice. */
  lemma ActivatedOnce(steps: seq<Step>, w: World, i: nat, j: nat)
    requires Run(START, steps, w) && i < j < |w.activations|
    ensures w.activations[i] != w.activations[j]
  {
    RunKeepsInv(START, steps, w);
  }

  /** A finalizer callback, however late, leaves the entry of every held capability in place. */
  lemma StaleFinalizerIsHarmless(steps: seq<Step>, w: World, held: Registration, t: Transfer)
    requires Run(START, steps, w) && held in w.due && Held(w, t)
    ensures t in w.issued
    ensures var key, after := w.issued[t].key, Apply(w, Callback(held)).entries;
            key in w.entries && key in after && after[key] == w.entries[key]
              && after[key].target == w.issued[t].lifecycle
  {
    RunKeepsInv(START, steps, w);
    hide Run;
    HeldIsRetained(w, t);
  }

  /** Finalizing for a collected object removes exactly the entries that stand for it. */
  lemma FinalizedExactly(
    entries: Entries, alive: set<Obj>, registered: map<Obj, Registration>, created: nat, obj: Obj, key: Key)
    requires Registrations(registered, created) && EntriesRegistered(entries, registered)
    requires obj in registered && obj !in alive
    ensures var held := registered[obj];
            key in Finalized(entries, alive, held.key, held.generation) <==>
              key in entries && entries[key].target != obj
  {
    var held := registered[obj];
    if key in entries {
      assert registered[entries[key].target] == Registration(key, entries[key].generation);
    }
  }

  lemma DueObject(w: World, held: Registration) returns (obj: Obj)
    requires Inv(w) && held in w.due
    ensures obj in w.registered && w.registered[obj] == held && obj !in w.alive
    ensures Registrations(w.registered, w.created) && EntriesRegistered(w.entries, w.registered)
  {
    hide AllRetained, Once, AllIssued, Numbered;
    obj := held.generation - 1;
  }

  /**
   * A callback that is due belongs to one collected object. It removes that object's own entry if
   * the sweep has left it, and nothing else: no live entry, and no newer one under the same key.
   */
  lemma FinalizerRemovesOnlyItsOwn(steps: seq<Step>, w: World, held: Registration, key: Key) returns (obj: Obj)
    requires Run(START, steps, w) && held in w.due
    ensures obj in w.registered && w.registered[obj] == held && obj !in w.alive
    ensures forall other :: other in w.registered && w.registered[other] == held ==> other == obj
    ensures var after := Apply(w, Callback(held)).entries;
            && (key in after <==> key in w.entries && w.entries[key].target != obj)
            && (key in after ==> after[key] == w.entries[key])
            && (key in w.entries && w.entries[key].generation > held.generation ==> key in after)
    ensures Apply(w, Callback(held)).due == w.due - {held}
  {
    RunKeepsInv(START, steps, w);
    hide Run, Inv;
    obj := DueObject(w, held);
    FinalizedExactly(w.entries, w.alive, w.registered, w.created, obj, key);
  }

  // ------------------------------------------------------------- wrong leaves

  /** A call for a leaf the covenant's mode disables. */
  predicate WrongLeaf(w: World, s: Step) {
    s.Activate? && s.transfer in w.live && Disabled(w.live[s.transfer].mode, s.leaf)
  }

  /** The schedule without its calls for disabled leaves. */
  ghost function Permitted(w: World, steps: seq<Step>): seq<Step>
    decreases |steps|
  {
    if steps == [] || !Enabled(w, steps[0]) then []
    else (if WrongLeaf(w, steps[0]) then [] else [steps[0]]) + Permitted(Apply(w, steps[0]), steps[1..])
  }

  ghost predicate NoWrongLeaf(w: World, steps: seq<Step>)
    decreases |steps|
  {
    steps != [] && Enabled(w, steps[0]) ==> !WrongLeaf(w, steps[0]) && NoWrongLeaf(Apply(w, steps[0]), steps[1..])
  }

  /** Leaving out every call for a disabled leaf leads to the very same world. */
  lemma {:induction false} WrongLeavesChangeNothing(start: World, steps: seq<Step>, end: World)
    requires Run(start, steps, end)
    ensures Run(start, Permitted(start, steps), end) && NoWrongLeaf(start, Permitted(start, steps))
    decreases |steps|
  {
    if steps != [] {
      var next := Apply(start, steps[0]);
      var rest := Permitted(next, steps[1..]);
      assert WrongLeaf(start, steps[0]) ==> next == start;
      hide Enabled, Apply, WrongLeaf;
      WrongLeavesChangeNothing(next, steps[1..], end);
      if !WrongLeaf(start, steps[0]) {
        assert ([steps[0]] + rest)[0] == steps[0] && ([steps[0]] + rest)[1..] == rest;
      } else {
        assert [] + rest == rest;
      }
    }
  }

  /**
   * An activation succeeds exactly when its leaf is permitted and none of the transfers that share
   * the lifecycle was ever activated.
   */
  lemma ActivationSucceedsExactlyWhen(steps: seq<Step>, w: World, t: Transfer, leaf: Leaf)
    requires Run(START, steps, w) && t in w.live
    ensures Apply(w, Activate(t, leaf)).activations == w.activations + [t] <==>
            && (leaf == Purchase ==> w.live[t].mode != RecycleOnly)
               && (leaf == Recycle ==> w.live[t].mode != PurchaseOnly)
            && forall i :: 0 <= i < |w.activations| ==>
                 w.activations[i] in w.issued && w.issued[w.activations[i]].lifecycle != w.live[t].lifecycle
  {
    RunKeepsInv(START, steps, w);
    hide Run, AllRetained, Bookkeeping, Numbered;
    assert w.activations + [t] != w.activations;
    if w.live[t].lifecycle in w.consumed { assert ConsumedBy(w.issued, w.activations, w.live[t].lifecycle); }
  }

  /**
   * The guard lasts as long as somebody holds it: once the target of a key was collected, a new
   * transfer of that key can be activated again.
   */
  lemma GuardEndsWithItsHolders(steps: seq<Step>, w: World, t: Transfer, key: Key, mode: Mode, leaf: Leaf)
    requires Run(START, steps, w) && t !in w.issued && !Disabled(mode, leaf)
    requires key in w.entries && w.entries[key].target !in w.alive
    ensures var verified := Apply(w, Verify(t, key, mode));
            Apply(verified, Activate(t, leaf)).activations == w.activations + [t]
  {
    RunKeepsInv(START, steps, w);
  }
}
