/** The flows of the flat graph, scope by scope, and the placement theorem. */
module FlattenEdges {
  import opened Common
  import opened Definition
  import opened BpmnModel
  import opened Flatten
  import opened FlattenPlaces
  import opened FlattenZones

  // ----- own flows

  lemma {:induction false} NoEdges(items: seq<Item>, x: Id)
    requires forall i | 0 <= i < |items| :: items[i].Node?
    ensures EdgesFrom(items, x) == []
  {
    if items != [] { NoEdges(items[..|items| - 1], x); }
  }

  lemma {:induction false} NoThrowEdge(s: Scope, x: Id, n: nat)
    requires n <= |s.throws| && forall i | 0 <= i < n :: s.throws[i].id != x
    ensures EdgesFrom(ThrowItems(s, n), x) == []
  {
    if n > 0 {
      NoThrowEdge(s, x, n - 1);
      LastThrowEdge(ThrowItems(s, n - 1), s.throws[n - 1].id, LinkTarget(s, s.throws[n - 1]), x);
    }
  }

  lemma {:induction false} ThrowEdge(s: Scope, i: nat, n: nat)
    requires i < n <= |s.throws| && DistinctLinks(s.throws)
    ensures EdgesFrom(ThrowItems(s, n), s.throws[i].id) == [SequenceFlow(LinkTarget(s, s.throws[i]), None)]
    decreases n
  {
    var x := s.throws[i].id;
    LastThrowEdge(ThrowItems(s, n - 1), s.throws[n - 1].id, LinkTarget(s, s.throws[n - 1]), x);
    if i < n - 1 {
      ThrowEdge(s, i, n - 1);
    } else {
      NoThrowEdge(s, x, n - 1);
    }
  }

  lemma LastThrowEdge(before: seq<Item>, id: Id, target: Id, x: Id)
    ensures EdgesFrom(before + [Node(id, LinkThrowEvent(target)), Edge(id, SequenceFlow(target, None))], x) ==
            EdgesFrom(before, x) + if id == x then [SequenceFlow(target, None)] else []
  {
    var node, edge := Node(id, LinkThrowEvent(target)), Edge(id, SequenceFlow(target, None));
    assert (before + [node, edge])[..|before| + 1] == before + [node];
    assert (before + [node])[..|before|] == before;
  }

  predicate SourceIsErased(s: Scope, role: Role, x: Id) { StartIsErased(s, role, x) || IsCatch(s, x) }

  lemma LastEdge(xs: seq<Item>, item: Item, x: Id)
    ensures EdgesFrom(xs + [item], x) ==
            if item.Edge? && item.source == x then EdgesFrom(xs, x) + [item.flow] else EdgesFrom(xs, x)
  {
    assert (xs + [item])[..|xs|] == xs;
  }

  lemma FlowEdge(s: Scope, role: Role, x: Id, n: nat)
    requires 0 < n <= |s.flows|
    ensures var f, before := s.flows[n - 1], EdgesFrom(FlowItems(s, role, n - 1), x);
            EdgesFrom(FlowItems(s, role, n), x) ==
            if IsKept(s, role, f) && f.source == x then before + [SequenceFlow(f.target, f.condition)] else before
  {
    var f, before := s.flows[n - 1], FlowItems(s, role, n - 1);
    LastEdge(before, Edge(f.source, SequenceFlow(f.target, f.condition)), x);
    assert before + [] == before;
  }

  lemma LastOutFlow(flows: seq<Flow>, x: Id, n: nat)
    requires 0 < n <= |flows|
    ensures var f, before := flows[n - 1], OutFlows(flows[..n - 1], x);
            OutFlows(flows[..n], x) == if f.source == x then before + [SequenceFlow(f.target, f.condition)] else before
  {
    assert flows[..n][..n - 1] == flows[..n - 1];
  }

  lemma {:induction false} FlowEdges(s: Scope, role: Role, x: Id, n: nat)
    requires n <= |s.flows|
    ensures EdgesFrom(FlowItems(s, role, n), x) ==
            if SourceIsErased(s, role, x) then [] else OutFlows(s.flows[..n], x)
  {
    if n > 0 {
      FlowEdges(s, role, x, n - 1);
      FlowEdge(s, role, x, n);
      LastOutFlow(s.flows, x, n);
    }
  }

  /** The flows the definition keeps for a node of `s`: its own, in document order, and
      for a link throw the synthetic one. */
  ghost function KeptFlows(s: Scope, role: Role, x: Id): seq<SequenceFlow> {
    EdgesFrom(ThrowItems(s, |s.throws|), x) + if SourceIsErased(s, role, x) then [] else OutFlows(s.flows, x)
  }

  lemma NodeItemsHaveNoEdges(s: Scope, role: Role, x: Id)
    ensures EdgesFrom(StartItems(s, role) + EndItems(s, role, |s.ends|) + PartItems(s, |s.parts|), x) == []
  {
    NoEdges(StartItems(s, role) + EndItems(s, role, |s.ends|) + PartItems(s, |s.parts|), x);
  }

  lemma OwnEdges(s: Scope, role: Role, x: Id)
    ensures EdgesFrom(OwnItems(s, role), x) == KeptFlows(s, role, x)
  {
    var nodes := StartItems(s, role) + EndItems(s, role, |s.ends|) + PartItems(s, |s.parts|);
    var throws, flows := ThrowItems(s, |s.throws|), FlowItems(s, role, |s.flows|);
    NodeItemsHaveNoEdges(s, role, x);
    JoinEmpty(EdgesFrom(throws, x));
    EdgesFromAppend(nodes, throws, x);
    EdgesFromAppend(nodes + throws, flows, x);
    AllFlowEdges(s, role, x);
  }

  lemma AllFlowEdges(s: Scope, role: Role, x: Id)
    ensures EdgesFrom(FlowItems(s, role, |s.flows|), x) == if SourceIsErased(s, role, x) then [] else OutFlows(s.flows, x)
  {
    FlowEdges(s, role, x, |s.flows|);
    assert s.flows[..|s.flows|] == s.flows;
  }

  lemma {:induction false} NoFlowsFromOutside(flows: seq<Flow>, x: Id)
    requires forall i | 0 <= i < |flows| :: flows[i].source != x
    ensures OutFlows(flows, x) == []
  {
    if flows != [] { NoFlowsFromOutside(flows[..|flows| - 1], x); }
  }

  lemma UndeclaredHasNoFlows(s: Scope, role: Role, x: Id)
    requires OwnIdsAreDistinct(s) && FlowsAreLocal(s) && x !in Declared(s)
    ensures KeptFlows(s, role, x) == []
  {
    assert forall i | 0 <= i < |s.throws| :: s.throws[i].id in ThrowIds(s);
    NoThrowEdge(s, x, |s.throws|);
    NoFlowsFromOutside(s.flows, x);
  }

  // ----- flows of the embedded scopes

  function Joined(lists: seq<seq<SequenceFlow>>, n: nat): seq<SequenceFlow>
    requires n <= |lists|
  {
    if n == 0 then [] else Joined(lists, n - 1) + lists[n - 1]
  }

  lemma {:induction false} JoinedNone(lists: seq<seq<SequenceFlow>>, n: nat)
    requires n <= |lists| && forall j | 0 <= j < n :: lists[j] == []
    ensures Joined(lists, n) == []
  {
    if n > 0 { JoinedNone(lists, n - 1); }
  }

  lemma {:induction false} JoinedOnly(lists: seq<seq<SequenceFlow>>, i: nat, n: nat)
    requires i < n <= |lists| && forall j | 0 <= j < |lists| && j != i :: lists[j] == []
    ensures Joined(lists, n) == lists[i]
  {
    if n - 1 == i {
      JoinedNone(lists, i);
      JoinEmpty(lists[i]);
    } else {
      JoinedOnly(lists, i, n - 1);
      JoinEmpty(Joined(lists, n - 1));
    }
  }

  lemma JoinEmpty(flows: seq<SequenceFlow>)
    ensures [] + flows == flows && flows + [] == flows
  {
  }

  lemma {:induction false} ConcatJoined(lists: seq<seq<Item>>, edges: seq<seq<SequenceFlow>>, x: Id, n: nat)
    requires |lists| == |edges| && n <= |lists| && forall i | 0 <= i < |lists| :: edges[i] == EdgesFrom(lists[i], x)
    ensures EdgesFrom(Concat(lists, n), x) == Joined(edges, n)
  {
    if n > 0 {
      ConcatJoined(lists, edges, x, n - 1);
      EdgesFromAppend(Concat(lists, n - 1), lists[n - 1], x);
    }
  }

  /** What each embedded scope contributes to the flows of `x`. */
  function SubEdges(s: Scope, role: Role, x: Id): seq<seq<SequenceFlow>> {
    seq(|s.subs|, i requires 0 <= i < |s.subs| => EdgesFrom(SubLists(s, role)[i], x))
  }

  lemma SubItemsJoin(s: Scope, role: Role, x: Id)
    ensures EdgesFrom(Items(s, role), x) == KeptFlows(s, role, x) + Joined(SubEdges(s, role, x), |s.subs|)
  {
    ConcatJoined(SubLists(s, role), SubEdges(s, role, x), x, |s.subs|);
    EdgesFromAppend(OwnItems(s, role), SubItems(s, role), x);
    OwnEdges(s, role, x);
  }

  lemma {:induction false} OutsideHasNoFlows(s: Scope, role: Role, x: Id)
    requires WellScoped(s, role) && x !in Region(s, role)
    ensures EdgesFrom(Items(s, role), x) == []
    decreases s
  {
    SubItemsJoin(s, role, x);
    UndeclaredHasNoFlows(s, role, x);
    forall i | 0 <= i < |s.subs| ensures SubEdges(s, role, x)[i] == [] {
      if IsNested(s, role, i) {
        RegionHas(s, role, i, |s.subs|);
        OutsideHasNoFlows(s.subs[i], Embedded, x);
      }
    }
    JoinedNone(SubEdges(s, role, x), |s.subs|);
  }

  lemma OtherSubsHaveNoFlows(s: Scope, role: Role, x: Id, i: nat, j: nat)
    requires WellScoped(s, role) && i < |s.subs| && j < |s.subs| && i != j
    requires IsNested(s, role, i) && IsNested(s, role, j) && x in Region(s.subs[i], Embedded)
    ensures EdgesFrom(Items(s.subs[j], Embedded), x) == []
  {
    if i < j {
      assert Region(s.subs[i], Embedded) !! Region(s.subs[j], Embedded);
    } else {
      assert Region(s.subs[j], Embedded) !! Region(s.subs[i], Embedded);
    }
    OutsideHasNoFlows(s.subs[j], Embedded, x);
  }

  lemma EdgesOfSub(s: Scope, role: Role, x: Id, i: nat)
    requires WellScoped(s, role) && i < |s.subs| && IsNested(s, role, i) && x in Region(s.subs[i], Embedded)
    ensures EdgesFrom(Items(s, role), x) == EdgesFrom(Items(s.subs[i], Embedded), x)
  {
    assert x !in Declared(s) by { assert Region(s.subs[i], Embedded) !! Declared(s); }
    UndeclaredHasNoFlows(s, role, x);
    SubItemsJoin(s, role, x);
    forall j | 0 <= j < |s.subs| && j != i ensures SubEdges(s, role, x)[j] == [] {
      if IsNested(s, role, j) { OtherSubsHaveNoFlows(s, role, x, i, j); }
    }
    JoinedOnly(SubEdges(s, role, x), i, |s.subs|);
    JoinEmpty(SubEdges(s, role, x)[i]);
  }

  lemma EdgesOfSelf(s: Scope, role: Role, x: Id)
    requires WellScoped(s, role) && x in Declared(s)
    ensures EdgesFrom(Items(s, role), x) == KeptFlows(s, role, x)
  {
    SubItemsJoin(s, role, x);
    forall i | 0 <= i < |s.subs| ensures SubEdges(s, role, x)[i] == [] {
      if IsNested(s, role, i) {
        assert Region(s.subs[i], Embedded) !! Declared(s);
        OutsideHasNoFlows(s.subs[i], Embedded, x);
      }
    }
    JoinedNone(SubEdges(s, role, x), |s.subs|);
    JoinEmpty(KeptFlows(s, role, x));
  }

  // ----- placement

  /** A graph that holds the nodes and flows of `s` and of every scope embedded in it. */
  ghost predicate Placed(s: Scope, role: Role, g: Builder)
    decreases s
  {
    && OwnPlaced(s, role, g.nodes)
    && (forall i | 0 <= i < |s.subs| && !IsNested(s, role, i) :: s.subs[i].id !in g.nodes)
    && (forall x | x in Declared(s) :: Outgoing(g.flows, x) == KeptFlows(s, role, x))
    && (forall i | 0 <= i < |s.subs| && IsNested(s, role, i) :: Placed(s.subs[i], Embedded, g))
  }

  /** The graph `g` is, on the region of `s`, what `s` contributes. */
  ghost predicate Shows(s: Scope, role: Role, g: Builder) {
    && AgreeOn(g.nodes, NodesOf(Items(s, role)), Region(s, role) + SelfId(s, role))
    && forall x | x in Region(s, role) :: Outgoing(g.flows, x) == EdgesFrom(Items(s, role), x)
  }

  lemma ShowsSub(s: Scope, role: Role, g: Builder, i: nat)
    requires WellScoped(s, role) && SelfIsOutside(s, role) && Shows(s, role, g)
    requires i < |s.subs| && IsNested(s, role, i)
    ensures Shows(s.subs[i], Embedded, g)
  {
    ZoneOfSub(s, role, i);
    ZoneIsInRegion(s, role, i);
    forall x | x in Region(s.subs[i], Embedded)
      ensures Outgoing(g.flows, x) == EdgesFrom(Items(s.subs[i], Embedded), x)
    {
      EdgesOfSub(s, role, x, i);
    }
  }

  lemma AgreementPlaces(s: Scope, role: Role, nodes: Nodes, other: Nodes)
    requires OwnPlaced(s, role, other) && AgreeOn(nodes, other, OwnIds(s, role))
    ensures OwnPlaced(s, role, nodes)
  {
    assert forall i | 0 <= i < |s.parts| :: s.parts[i].id in PartIds(s);
    assert forall i | 0 <= i < |s.throws| :: s.throws[i].id in ThrowIds(s);
    assert forall i | 0 <= i < |s.starts| :: s.starts[i].id in StartIds(s);
  }

  lemma ShowsOwn(s: Scope, role: Role, g: Builder)
    requires WellScoped(s, role) && SelfIsOutside(s, role) && StartsAreProper(s, role) && Shows(s, role, g)
    ensures OwnPlaced(s, role, g.nodes)
    ensures forall x | x in Declared(s) :: Outgoing(g.flows, x) == KeptFlows(s, role, x)
  {
    ZoneOfSelf(s, role);
    OwnIsPlaced(s, role);
    AgreementPlaces(s, role, g.nodes, NodesOf(OwnItems(s, role)));
    forall x | x in Declared(s) ensures Outgoing(g.flows, x) == KeptFlows(s, role, x) {
      EdgesOfSelf(s, role, x);
    }
  }

  /** The event sub-processes of a process are not nodes. */
  lemma EventSubsAreNoNodes(s: Scope, role: Role, i: nat)
    requires WellScoped(s, role) && SelfIsOutside(s, role) && i < |s.subs| && !IsNested(s, role, i)
    ensures s.subs[i].id !in NodesOf(Items(s, role))
  {
    var x := s.subs[i].id;
    assert x in SubIds(s) && x !in OwnIds(s, role);
    SubsMiss(s, role, i);
    NodesOfAppend(OwnItems(s, role), SubItems(s, role));
    SubItemsUnion(s, role);
    OwnNodesAreOwn(s, role);
  }

  lemma SubsMiss(s: Scope, role: Role, i: nat)
    requires WellScoped(s, role) && i < |s.subs| && !IsNested(s, role, i)
    ensures s.subs[i].id !in Union(SubMaps(s, role), |s.subs|)
  {
    var x, zones := s.subs[i].id, SubZones(s, role);
    assert x in SubIds(s);
    SubsAreZoned(s, role);
    forall j | 0 <= j < |s.subs| ensures zones[j] !! {x} {
      if IsNested(s, role, j) { ZoneMissesEvent(s, role, i, j); }
    }
    UnionMisses(SubMaps(s, role), zones, {x}, |s.subs|);
  }

  lemma ZoneMissesEvent(s: Scope, role: Role, i: nat, j: nat)
    requires WellScoped(s, role) && i < |s.subs| && j < |s.subs| && !IsNested(s, role, i) && IsNested(s, role, j)
    ensures s.subs[i].id !in Zone(s.subs[j])
  {
    assert s.subs[i].id in SubIds(s) && Region(s.subs[j], Embedded) !! Declared(s);
  }

  lemma ShowsEvents(s: Scope, role: Role, g: Builder, i: nat)
    requires WellScoped(s, role) && SelfIsOutside(s, role) && Shows(s, role, g)
    requires i < |s.subs| && !IsNested(s, role, i)
    ensures s.subs[i].id !in g.nodes
  {
    EventSubsAreNoNodes(s, role, i);
    assert s.subs[i].id in SubIds(s);
  }

  lemma {:induction false} ShowsPlaces(s: Scope, role: Role, g: Builder)
    requires WellScoped(s, role) && SelfIsOutside(s, role) && Accepts(s, role) && Shows(s, role, g)
    ensures Placed(s, role, g)
    decreases s
  {
    ShowsOwn(s, role, g);
    forall i | 0 <= i < |s.subs| && !IsNested(s, role, i) ensures s.subs[i].id !in g.nodes {
      ShowsEvents(s, role, g, i);
    }
    forall i | 0 <= i < |s.subs| && IsNested(s, role, i) ensures Placed(s.subs[i], Embedded, g) {
      EachSubAccepts(s, role, i);
      ShowsSub(s, role, g, i);
      assert s.subs[i].id in SubIds(s) && Region(s.subs[i], Embedded) !! Declared(s);
      ShowsPlaces(s.subs[i], Embedded, g);
    }
  }

  lemma EachSubAccepts(s: Scope, role: Role, i: nat)
    requires i < |s.subs| && Accepts(s, role) && IsNested(s, role, i)
    ensures Accepts(s.subs[i], Embedded)
  {
    EachHolds(SubVerdicts(s, role), i, |s.subs|);
  }

  /** Every scope of a compiled process finds its own nodes and flows in the graph,
      flows in document order with their conditions, and nothing else is in it. */
  lemma GraphPlacesEverything(s: Scope, role: Role)
    requires !role.Embedded? && WellScoped(s, role) && Accepts(s, role)
    ensures Placed(s, role, Graph(s, role))
    ensures Graph(s, role).nodes.Keys <= Region(s, role)
  {
    var empty := Builder(map[], map[]);
    BuildGives(empty, Items(s, role), BLANK);
    NodeKeys(s, role);
    assert Graph(s, role).nodes == NodesOf(Items(s, role));
    forall x | x in Region(s, role) ensures Outgoing(Graph(s, role).flows, x) == EdgesFrom(Items(s, role), x) {
      BuildGives(empty, Items(s, role), x);
    }
    ShowsPlaces(s, role, Graph(s, role));
  }
}
