// The asset packet of a covenant spend: `packetForSpend` of packages/client/src/spend.ts, which
// builds it, and `expectedAssetPacket` of packages/app/src/watcher.ts, which expects it.
module SpendPacket {
  import opened Prelude
  import opened Assets
  import Canonical
  import F = FillGraph
  import C = FillConservation

  /** Units of one asset that go to an output of their own. */
  datatype AssetFare = AssetFare(id: AssetId, vout: nat, units: int)

  // ---------------------------------------------------------- specification

  /** `holdings.find(...)!.amount`. */
  function FirstUnits(held: seq<Holding>, id: AssetId): int {
    if held == [] then 0 else if held[0].assetId == id then held[0].units else FirstUnits(held[1..], id)
  }

  function Flat(sources: seq<seq<Holding>>): seq<Holding> {
    if sources == [] then [] else Flat(sources[..|sources| - 1]) + sources[|sources| - 1]
  }

  function NewIds(held: seq<Holding>): seq<AssetId> {
    if held == [] then []
    else
      var before, id := NewIds(held[..|held| - 1]), held[|held| - 1].assetId;
      if id in before then before else before + [id]
  }

  function InputsFor(sources: seq<seq<Holding>>, id: AssetId): seq<F.AssetInput> {
    if sources == [] then []
    else
      var vin := |sources| - 1;
      InputsFor(sources[..vin], id)
      + (if Names(sources[vin], id) then [F.AssetInput(vin, FirstUnits(sources[vin], id), true)] else [])
  }

  function OutputsFor(total: int, id: AssetId, destination: nat, fare: Option<AssetFare>): seq<F.AssetOutput> {
    if fare.Some? && fare.value.id == id then
      [F.AssetOutput(fare.value.vout, fare.value.units), F.AssetOutput(destination, total - fare.value.units)]
    else
      [F.AssetOutput(destination, total)]
  }

  function GroupFor(sources: seq<seq<Holding>>, id: AssetId, destination: nat, fare: Option<AssetFare>): F.Group {
    F.Group(Some(id), InputsFor(sources, id), OutputsFor(UnitsOf(Flat(sources), id), id, destination, fare))
  }

  function GroupsFor(
    sources: seq<seq<Holding>>, ids: seq<AssetId>, destination: nat, fare: Option<AssetFare>): (r: seq<F.Group>)
    ensures |r| == |ids| && forall i :: 0 <= i < |r| ==> r[i] == GroupFor(sources, ids[i], destination, fare)
  {
    seq(|ids|, i requires 0 <= i < |ids| => GroupFor(sources, ids[i], destination, fare))
  }

  /** The packet's groups, sorted by asset id; no groups stand for no packet. */
  function PacketOf(sources: seq<seq<Holding>>, destination: nat, fare: Option<AssetFare>): seq<F.Group> {
    GroupsFor(sources, Canonical.Sort(NewIds(Flat(sources))), destination, fare)
  }

  // -------------------------------------------------------------- the builder

  lemma {:induction false} NewIdsFacts(held: seq<Holding>, id: AssetId)
    ensures id in NewIds(held) <==> Names(held, id)
    ensures Distinct(NewIds(held))
  {
    if held != [] {
      var n := |held| - 1;
      NewIdsFacts(held[..n], id);
      if Names(held, id) && held[n].assetId != id {
        var i :| 0 <= i < |held| && held[i].assetId == id;
        assert held[..n][i].assetId == id;
      }
      if Names(held[..n], id) {
        var i :| 0 <= i < n && held[..n][i].assetId == id;
        assert held[i].assetId == id;
      }
    }
  }

  /** Sorting forgets the order in which distinct keys came. */
  lemma SortForgetsOrder(a: seq<AssetId>, b: seq<AssetId>)
    requires Distinct(a) && Distinct(b) && forall id :: id in a <==> id in b
    ensures Canonical.Sort(a) == Canonical.Sort(b)
  {
    Canonical.SortAscends(a);
    Canonical.SortAscends(b);
    Canonical.SortKeeps(a);
    Canonical.SortKeeps(b);
    Canonical.AscendingIsUnique(Canonical.Sort(a), Canonical.Sort(b));
  }

  method FlattenSources(sources: seq<seq<Holding>>) returns (all: seq<Holding>)
    ensures all == Flat(sources)
  {
    all := [];
    for vin := 0 to |sources|
      invariant all == Flat(sources[..vin])
    {
      assert sources[..vin + 1][..vin] == sources[..vin];
      all := all + sources[vin];
    }
    assert sources[..|sources|] == sources;
  }

  method InputsOf(sources: seq<seq<Holding>>, id: AssetId) returns (inputs: seq<F.AssetInput>)
    ensures inputs == InputsFor(sources, id)
  {
    inputs := [];
    for vin := 0 to |sources|
      invariant inputs == InputsFor(sources[..vin], id)
    {
      assert sources[..vin + 1][..vin] == sources[..vin] && sources[..vin + 1][vin] == sources[vin];
      if Names(sources[vin], id) {
        inputs := inputs + [F.AssetInput(vin, FirstUnits(sources[vin], id), true)];
      }
    }
    assert sources[..|sources|] == sources;
  }

  /** `[...totals].sort(...)`: the keys of the map, sorted. */
  method SortedKeys(totals: map<AssetId, int>, ghost all: seq<Holding>) returns (ids: seq<AssetId>)
    requires forall id :: id in totals <==> Names(all, id)
    ensures ids == Canonical.Sort(NewIds(all)) && forall id :: id in ids ==> id in totals
  {
    hide Names, NewIds, Canonical.Sort;
    var keys: seq<AssetId> := [];
    var rest := totals.Keys;
    while rest != {}
      invariant rest <= totals.Keys
      invariant forall id :: id in keys <==> id in totals && id !in rest
      invariant Distinct(keys)
    {
      var id :| id in rest;
      assert id !in keys;
      rest := rest - {id};
      keys := keys + [id];
    }
    forall id ensures id in keys <==> id in NewIds(all) { NewIdsFacts(all, id); }
    NewIdsFacts(all, []);
    SortForgetsOrder(keys, NewIds(all));
    Canonical.SortKeeps(keys);
    ids := Canonical.Sort(keys);
  }

  /** Totals by asset in a local map, then one group for each id in sorted order. */
  method PacketForSpend(sources: seq<seq<Holding>>, destination: nat, fare: Option<AssetFare>)
    returns (groups: seq<F.Group>)
    ensures groups == PacketOf(sources, destination, fare)
  {
    hide NewIds, Flat, InputsFor, UnitsOf, Names, Canonical.Sort;
    var all := FlattenSources(sources);
    var totals := Totals(all);
    var ids := SortedKeys(totals, all);
    groups := [];
    for i := 0 to |ids|
      invariant groups == GroupsFor(sources, ids[..i], destination, fare)
    {
      assert ids[i] in ids;
      var inputs := InputsOf(sources, ids[i]);
      groups := groups + [F.Group(Some(ids[i]), inputs, OutputsFor(totals[ids[i]], ids[i], destination, fare))];
      assert groups == GroupsFor(sources, ids[..i + 1], destination, fare);
    }
    assert ids[..|ids|] == ids;
  }

  // --------------------------------------------------------------- agreement

  /** The same holdings, in any order. */
  ghost predicate SameHoldings(a: seq<Holding>, b: seq<Holding>) {
    && UniqueNames(a) && UniqueNames(b)
    && forall id :: (Names(a, id) <==> Names(b, id)) && UnitsOf(a, id) == UnitsOf(b, id)
  }

  lemma {:induction false} FirstIsOnly(held: seq<Holding>, id: AssetId)
    requires UniqueNames(held)
    ensures FirstUnits(held, id) == UnitsOf(held, id)
  {
    if held != [] {
      if held[0].assetId == id {
        forall i | 0 <= i < |held[1..]| ensures held[1..][i].assetId != id { assert held[1..][i] == held[i + 1]; }
        UnnamedHasNone(held[1..], id);
      } else {
        FirstIsOnly(held[1..], id);
      }
    }
  }

  lemma {:induction false} FlatUnits(sources: seq<seq<Holding>>, id: AssetId)
    ensures UnitsOf(Flat(sources), id) == C.UnitsIn(sources, id)
    ensures Names(Flat(sources), id) <==> exists v :: 0 <= v < |sources| && Names(sources[v], id)
  {
    if sources != [] {
      var n := |sources| - 1;
      FlatUnits(sources[..n], id);
      UnitsOfConcat(Flat(sources[..n]), sources[n], id);
      UnitsInSnoc(sources[..n], sources[n], id);
      assert sources[..n] + [sources[n]] == sources;
      NamesConcat(Flat(sources[..n]), sources[n], id);
      hide Names;
      if exists v :: 0 <= v < |sources| && Names(sources[v], id) {
        var v :| 0 <= v < |sources| && Names(sources[v], id);
        if v < n { assert Names(sources[..n][v], id); }
      }
      if exists v :: 0 <= v < n && Names(sources[..n][v], id) {
        var v :| 0 <= v < n && Names(sources[..n][v], id);
        assert Names(sources[v], id);
      }
    }
  }

  lemma NamesConcat(a: seq<Holding>, b: seq<Holding>, id: AssetId)
    ensures Names(a + b, id) <==> Names(a, id) || Names(b, id)
  {
    if Names(a, id) { var i :| 0 <= i < |a| && a[i].assetId == id; assert (a + b)[i].assetId == id; }
    if Names(b, id) { var i :| 0 <= i < |b| && b[i].assetId == id; assert (a + b)[|a| + i].assetId == id; }
  }

  lemma {:induction false} UnitsInSnoc(lists: seq<seq<Holding>>, last: seq<Holding>, id: AssetId)
    ensures C.UnitsIn(lists + [last], id) == C.UnitsIn(lists, id) + UnitsOf(last, id)
  {
    if lists == [] {
      assert lists + [last] == [last] && [last][1..] == [];
    } else {
      assert (lists + [last])[1..] == lists[1..] + [last];
      UnitsInSnoc(lists[1..], last, id);
    }
  }

  lemma {:induction false} SameInputs(a: seq<seq<Holding>>, b: seq<seq<Holding>>, id: AssetId)
    requires |a| == |b| && forall v :: 0 <= v < |a| ==> SameHoldings(a[v], b[v])
    ensures InputsFor(a, id) == InputsFor(b, id) && C.UnitsIn(a, id) == C.UnitsIn(b, id)
  {
    if a != [] {
      var n := |a| - 1;
      SameInputs(a[..n], b[..n], id);
      FirstIsOnly(a[n], id);
      FirstIsOnly(b[n], id);
      UnitsInSnoc(a[..n], a[n], id);
      UnitsInSnoc(b[..n], b[n], id);
      assert a[..n] + [a[n]] == a && b[..n] + [b[n]] == b;
    }
  }

  /** Builder and watcher expect the same packet, whatever order each lists the holdings in. */
  lemma PacketForgetsOrder(a: seq<seq<Holding>>, b: seq<seq<Holding>>, destination: nat, fare: Option<AssetFare>)
    requires |a| == |b| && forall v :: 0 <= v < |a| ==> SameHoldings(a[v], b[v])
    ensures PacketOf(a, destination, fare) == PacketOf(b, destination, fare)
  {
    hide NewIds, Names, UnitsOf, UniqueNames, Flat, InputsFor, Canonical.Sort, C.UnitsIn;
    forall id ensures id in NewIds(Flat(a)) <==> id in NewIds(Flat(b)) {
      NewIdsFacts(Flat(a), id);
      NewIdsFacts(Flat(b), id);
      FlatUnits(a, id);
      FlatUnits(b, id);
    }
    NewIdsFacts(Flat(a), []);
    NewIdsFacts(Flat(b), []);
    SortForgetsOrder(NewIds(Flat(a)), NewIds(Flat(b)));
    forall id ensures GroupFor(a, id, destination, fare) == GroupFor(b, id, destination, fare) {
      SameInputs(a, b, id);
      FlatUnits(a, id);
      FlatUnits(b, id);
    }
    assert PacketOf(a, destination, fare) == PacketOf(b, destination, fare);
  }

  // ------------------------------------------------------------ conservation

  predicate DistinctGroupIds(groups: seq<F.Group>) {
    forall i, j :: 0 <= i < j < |groups| ==> F.IdOf(groups[i]) != F.IdOf(groups[j])
  }

  lemma OtherGroup(group: F.Group, id: AssetId, at: nat)
    requires F.IdOf(group) != id
    ensures C.UnitsAtPlace(C.InLegs(group), id, at) == 0 && C.UnitsAtPlace(C.OutLegs(group), id, at) == 0
  {
    C.NowhereThere(C.InLegs(group), id, at);
    C.NowhereThere(C.OutLegs(group), id, at);
  }

  lemma {:induction false} NoGroup(groups: seq<F.Group>, id: AssetId, at: nat)
    requires forall i :: 0 <= i < |groups| ==> F.IdOf(groups[i]) != id
    ensures C.UnitsAtPlace(C.AllIn(groups), id, at) == 0 && C.UnitsAtPlace(C.AllOut(groups), id, at) == 0
  {
    if groups != [] {
      var before, last := groups[..|groups| - 1], groups[|groups| - 1];
      NoGroup(before, id, at);
      OtherGroup(last, id, at);
      C.PlacesOfConcat(C.AllIn(before), C.InLegs(last), id, at);
      C.PlacesOfConcat(C.AllOut(before), C.OutLegs(last), id, at);
    }
  }

  lemma {:induction false} OneGroup(groups: seq<F.Group>, i: nat, at: nat)
    requires DistinctGroupIds(groups) && i < |groups|
    ensures var id := F.IdOf(groups[i]);
            && C.UnitsAtPlace(C.AllIn(groups), id, at) == C.UnitsAtPlace(C.InLegs(groups[i]), id, at)
            && C.UnitsAtPlace(C.AllOut(groups), id, at) == C.UnitsAtPlace(C.OutLegs(groups[i]), id, at)
  {
    var n := |groups| - 1;
    var before, last, id := groups[..n], groups[n], F.IdOf(groups[i]);
    C.PlacesOfConcat(C.AllIn(before), C.InLegs(last), id, at);
    C.PlacesOfConcat(C.AllOut(before), C.OutLegs(last), id, at);
    if i < n {
      OneGroup(before, i, at);
      OtherGroup(last, id, at);
    } else {
      NoGroup(before, id, at);
    }
  }

  lemma {:induction false} InputLegs(sources: seq<seq<Holding>>, id: AssetId, outputs: seq<F.AssetOutput>, at: nat)
    requires forall v :: 0 <= v < |sources| ==> UniqueNames(sources[v])
    ensures C.UnitsAtPlace(C.InLegs(F.Group(Some(id), InputsFor(sources, id), outputs)), id, at)
            == if at < |sources| then UnitsOf(sources[at], id) else 0
  {
    if sources != [] {
      var n := |sources| - 1;
      var before := F.Group(Some(id), InputsFor(sources[..n], id), outputs);
      InputLegs(sources[..n], id, outputs, at);
      FirstIsOnly(sources[n], id);
      var more := if Names(sources[n], id) then [C.Leg(id, n, UnitsOf(sources[n], id))] else [];
      assert C.InLegs(F.Group(Some(id), InputsFor(sources, id), outputs)) == C.InLegs(before) + more;
      C.PlacesOfConcat(C.InLegs(before), more, id, at);
      if Names(sources[n], id) { C.OnePlace(more[0], id, at); } else { UnnamedHasNone(sources[n], id); }
      hide C.UnitsAtPlace, InputsFor, Names, UnitsOf, UniqueNames, C.InLegs;
    }
  }

  function AllocatedTo(at: nat, id: AssetId, total: int, destination: nat, fare: Option<AssetFare>): int {
    var taken := if fare.Some? && fare.value.id == id then fare.value.units else 0;
    (if fare.Some? && fare.value.id == id && at == fare.value.vout then taken else 0)
    + (if at == destination then total - taken else 0)
  }

  lemma OutputLegs(group: F.Group, id: AssetId, total: int, destination: nat, fare: Option<AssetFare>, at: nat)
    requires group.assetId == Some(id) && group.outputs == OutputsFor(total, id, destination, fare)
    ensures C.UnitsAtPlace(C.OutLegs(group), id, at) == AllocatedTo(at, id, total, destination, fare)
  {
    var legs := C.OutLegs(group);
    C.OnePlace(legs[0], id, at);
    if |legs| == 2 {
      assert legs == [legs[0]] + [legs[1]];
      C.PlacesOfConcat([legs[0]], [legs[1]], id, at);
      C.OnePlace(legs[1], id, at);
    } else {
      assert legs == [legs[0]];
    }
  }

  lemma PacketIds(sources: seq<seq<Holding>>, destination: nat, fare: Option<AssetFare>, id: AssetId)
    ensures DistinctGroupIds(PacketOf(sources, destination, fare))
    ensures var packet := PacketOf(sources, destination, fare);
            (exists i :: 0 <= i < |packet| && F.IdOf(packet[i]) == id) <==> Names(Flat(sources), id)
  {
    hide InputsFor, NewIds, Flat, Names;
    var keys := NewIds(Flat(sources));
    var ids := Canonical.Sort(keys);
    NewIdsFacts(Flat(sources), id);
    Canonical.SortKeeps(keys);
    Canonical.SortAscends(keys);
    var groups := PacketOf(sources, destination, fare);
    forall i, j | 0 <= i < j < |groups| ensures F.IdOf(groups[i]) != F.IdOf(groups[j]) {
      Canonical.BeforeIsTotal(ids[i], ids[j]);
      assert Canonical.Before(ids[i], ids[j]);
    }
    assert forall i :: 0 <= i < |groups| ==> F.IdOf(groups[i]) == ids[i];
    if id in ids { var i :| 0 <= i < |ids| && ids[i] == id; assert F.IdOf(groups[i]) == id; }
  }

  lemma PacketGroup(sources: seq<seq<Holding>>, destination: nat, fare: Option<AssetFare>, i: nat)
    requires i < |PacketOf(sources, destination, fare)|
    ensures var packet := PacketOf(sources, destination, fare);
            packet[i] == GroupFor(sources, F.IdOf(packet[i]), destination, fare)
  {
  }

  /**
   * The packet takes at each input exactly the units held there, and allocates the sum to the
   * destination, less what the fare sends to its own output.
   */
  lemma PacketConserves(sources: seq<seq<Holding>>, destination: nat, fare: Option<AssetFare>, id: AssetId, at: nat)
    requires forall v :: 0 <= v < |sources| ==> UniqueNames(sources[v])
    requires fare.Some? && fare.value.id == id ==> Names(Flat(sources), id)
    ensures var packet := PacketOf(sources, destination, fare);
            && C.UnitsAtPlace(C.AllIn(packet), id, at) == (if at < |sources| then UnitsOf(sources[at], id) else 0)
            && C.UnitsAtPlace(C.AllOut(packet), id, at)
               == AllocatedTo(at, id, C.UnitsIn(sources, id), destination, fare)
  {
    var packet := PacketOf(sources, destination, fare);
    PacketIds(sources, destination, fare, id);
    FlatUnits(sources, id);
    hide PacketOf, C.UnitsAtPlace, C.AllIn, C.AllOut, NewIds, Flat, InputsFor, UniqueNames, C.UnitsIn;
    if Names(Flat(sources), id) {
      var i :| 0 <= i < |packet| && F.IdOf(packet[i]) == id;
      PacketGroup(sources, destination, fare, i);
      OneGroup(packet, i, at);
      InputLegs(sources, id, packet[i].outputs, at);
      OutputLegs(packet[i], id, UnitsOf(Flat(sources), id), destination, fare, at);
    } else {
      NoGroup(packet, id, at);
      UnnamedHasNone(Flat(sources), id);
      if at < |sources| {
        assert !Names(sources[at], id);
        UnnamedHasNone(sources[at], id);
      }
    }
  }
}
