/** The flat graph of a whole scope tree, scope by scope. */
module FlattenZones {
  import opened Common
  import opened Definition
  import opened BpmnModel
  import opened Flatten
  import opened FlattenPlaces

  ghost function SelfId(s: Scope, role: Role): set<Id> { if role.Embedded? then {s.id} else {} }

  ghost predicate AgreeOn(nodes: Nodes, other: Nodes, ids: set<Id>) {
    forall x | x in ids :: (x in nodes <==> x in other) && (x in nodes ==> nodes[x] == other[x])
  }

  // ----- maps with disjoint zones

  function Union(maps: seq<Nodes>, n: nat): Nodes
    requires n <= |maps|
  {
    if n == 0 then map[] else Union(maps, n - 1) + maps[n - 1]
  }

  /** The `k`-th map keeps its keys in the `k`-th zone, and zones are disjoint. */
  ghost predicate Zoned(maps: seq<Nodes>, zones: seq<set<Id>>) {
    && |maps| == |zones|
    && (forall i | 0 <= i < |maps| :: maps[i].Keys <= zones[i])
    && (forall i, j | 0 <= i < |zones| && 0 <= j < |zones| && i != j :: zones[i] !! zones[j])
  }

  lemma {:induction false} UnionMisses(maps: seq<Nodes>, zones: seq<set<Id>>, ids: set<Id>, n: nat)
    requires |maps| == |zones| && n <= |maps| && forall i | 0 <= i < n :: maps[i].Keys <= zones[i] && zones[i] !! ids
    ensures Union(maps, n).Keys !! ids
  {
    if n > 0 { UnionMisses(maps, zones, ids, n - 1); }
  }

  lemma {:induction false} UnionAgrees(maps: seq<Nodes>, zones: seq<set<Id>>, i: nat, n: nat)
    requires Zoned(maps, zones) && i < n <= |maps|
    ensures AgreeOn(Union(maps, n), maps[i], zones[i])
    decreases n
  {
    if i < n - 1 {
      UnionAgrees(maps, zones, i, n - 1);
    } else {
      UnionMisses(maps, zones, zones[i], n - 1);
    }
  }

  // ----- the nodes of the embedded scopes

  function SubMaps(s: Scope, role: Role): seq<Nodes> {
    seq(|s.subs|, i requires 0 <= i < |s.subs| =>
      if IsNested(s, role, i) then NodesOf(Items(s.subs[i], Embedded)) else map[])
  }

  ghost function SubZones(s: Scope, role: Role): seq<set<Id>> {
    seq(|s.subs|, i requires 0 <= i < |s.subs| => if IsNested(s, role, i) then Zone(s.subs[i]) else {})
  }

  lemma {:induction false} ConcatUnion(lists: seq<seq<Item>>, maps: seq<Nodes>, n: nat)
    requires |lists| == |maps| && n <= |lists| && forall i | 0 <= i < |lists| :: maps[i] == NodesOf(lists[i])
    ensures NodesOf(Concat(lists, n)) == Union(maps, n)
  {
    if n > 0 {
      ConcatUnion(lists, maps, n - 1);
      NodesOfAppend(Concat(lists, n - 1), lists[n - 1]);
    }
  }

  lemma SubItemsUnion(s: Scope, role: Role)
    ensures NodesOf(SubItems(s, role)) == Union(SubMaps(s, role), |s.subs|)
  {
    ConcatUnion(SubLists(s, role), SubMaps(s, role), |s.subs|);
  }

  lemma ZoneIsInRegion(s: Scope, role: Role, i: nat)
    requires i < |s.subs| && IsNested(s, role, i)
    ensures Zone(s.subs[i]) <= Region(s, role)
  {
    RegionHas(s, role, i, |s.subs|);
    assert s.subs[i].id in SubIds(s);
  }

  lemma SubKeysInZone(s: Scope, role: Role, i: nat)
    requires i < |s.subs| && (IsNested(s, role, i) ==> NodesOf(Items(s.subs[i], Embedded)).Keys <= Zone(s.subs[i]))
    ensures SubMaps(s, role)[i].Keys <= SubZones(s, role)[i] && SubZones(s, role)[i] <= Region(s, role)
  {
    if IsNested(s, role, i) { ZoneIsInRegion(s, role, i); }
  }

  /** A scope's nodes are in its region, and an embedded scope is one itself. */
  lemma {:induction false} NodeKeys(s: Scope, role: Role)
    ensures NodesOf(Items(s, role)).Keys <= Region(s, role) + SelfId(s, role)
    decreases s
  {
    var maps, zones := SubMaps(s, role), SubZones(s, role);
    var outside := Union(maps, |s.subs|).Keys - Region(s, role);
    forall i | 0 <= i < |s.subs| ensures maps[i].Keys <= zones[i] && zones[i] !! outside {
      if IsNested(s, role, i) { NodeKeys(s.subs[i], Embedded); }
      SubKeysInZone(s, role, i);
    }
    UnionMisses(maps, zones, outside, |s.subs|);
    NodesOfAppend(OwnItems(s, role), SubItems(s, role));
    SubItemsUnion(s, role);
    OwnNodesAreOwn(s, role);
  }

  // ----- the ids a scope places itself

  ghost function OwnIds(s: Scope, role: Role): set<Id> {
    StartIds(s) + EndIds(s) + PartIds(s) + CatchIds(s) + ThrowIds(s) + SelfId(s, role)
  }

  lemma OwnNodesAreOwn(s: Scope, role: Role)
    ensures NodesOf(OwnItems(s, role)).Keys <= OwnIds(s, role)
  {
    OwnKeys(s, role);
    assert StartNodeIds(s, role) <= StartIds(s) + SelfId(s, role);
  }

  /** A scope and the ids inside it are different things. */
  ghost predicate SelfIsOutside(s: Scope, role: Role) { role.Embedded? ==> s.id !in Region(s, role) }

  lemma ZonesAreApart(s: Scope, role: Role, i: nat, j: nat)
    requires WellScoped(s, role) && i < j < |s.subs| && IsNested(s, role, i) && IsNested(s, role, j)
    ensures Zone(s.subs[j]) !! Zone(s.subs[i])
  {
    assert s.subs[j].id in SubIds(s) && s.subs[i].id in SubIds(s);
    assert Region(s.subs[i], Embedded) !! Declared(s);
    assert Region(s.subs[j], Embedded) !! Declared(s);
    assert Region(s.subs[i], Embedded) !! Region(s.subs[j], Embedded);
  }

  lemma SubZonesAreApart(s: Scope, role: Role, i: nat, j: nat)
    requires WellScoped(s, role) && i < |s.subs| && j < |s.subs| && i != j
    ensures SubZones(s, role)[i] !! SubZones(s, role)[j]
  {
    if IsNested(s, role, i) && IsNested(s, role, j) {
      if i < j { ZonesAreApart(s, role, i, j); } else { ZonesAreApart(s, role, j, i); }
    }
  }

  lemma SubsAreZoned(s: Scope, role: Role)
    requires WellScoped(s, role)
    ensures Zoned(SubMaps(s, role), SubZones(s, role))
  {
    forall i | 0 <= i < |s.subs| ensures SubMaps(s, role)[i].Keys <= SubZones(s, role)[i] {
      NodeKeys(s.subs[i], Embedded);
      SubKeysInZone(s, role, i);
    }
    forall i, j | 0 <= i < |s.subs| && 0 <= j < |s.subs| && i != j
      ensures SubZones(s, role)[i] !! SubZones(s, role)[j]
    {
      SubZonesAreApart(s, role, i, j);
    }
  }

  lemma SubIsNotOwn(s: Scope, role: Role, i: nat)
    requires WellScoped(s, role) && SelfIsOutside(s, role) && i < |s.subs|
    ensures s.subs[i].id !in OwnIds(s, role)
  {
    assert s.subs[i].id in SubIds(s);
    assert s.subs[i].id in Region(s, role);
  }

  lemma OwnIdsMissZone(s: Scope, role: Role, i: nat)
    requires WellScoped(s, role) && SelfIsOutside(s, role) && i < |s.subs| && IsNested(s, role, i)
    ensures Zone(s.subs[i]) !! OwnIds(s, role)
  {
    SubIsNotOwn(s, role, i);
    assert Region(s.subs[i], Embedded) !! Declared(s);
    RegionHas(s, role, i, |s.subs|);
    assert OwnIds(s, role) <= Declared(s) + SelfId(s, role);
  }

  /** In the zone of an embedded scope, only that scope places nodes. */
  lemma ZoneOfSub(s: Scope, role: Role, i: nat)
    requires WellScoped(s, role) && SelfIsOutside(s, role) && i < |s.subs| && IsNested(s, role, i)
    ensures AgreeOn(NodesOf(Items(s, role)), NodesOf(Items(s.subs[i], Embedded)), Zone(s.subs[i]))
  {
    NodesOfAppend(OwnItems(s, role), SubItems(s, role));
    SubItemsUnion(s, role);
    SubsAreZoned(s, role);
    UnionAgrees(SubMaps(s, role), SubZones(s, role), i, |s.subs|);
    OwnNodesAreOwn(s, role);
    OwnIdsMissZone(s, role, i);
  }

  /** Its own nodes nobody else places. */
  lemma ZoneOfSelf(s: Scope, role: Role)
    requires WellScoped(s, role) && SelfIsOutside(s, role)
    ensures AgreeOn(NodesOf(Items(s, role)), NodesOf(OwnItems(s, role)), OwnIds(s, role))
  {
    NodesOfAppend(OwnItems(s, role), SubItems(s, role));
    SubItemsUnion(s, role);
    SubsAreZoned(s, role);
    forall i | 0 <= i < |s.subs| ensures SubZones(s, role)[i] !! OwnIds(s, role) {
      if IsNested(s, role, i) { OwnIdsMissZone(s, role, i); }
    }
    UnionMisses(SubMaps(s, role), SubZones(s, role), OwnIds(s, role), |s.subs|);
  }
}
