/** A nested process that deploys: start, a sub-process with a start and an end, end. The inner start leads to
    the inner end, or to itself. */
module FlattenExample {
  import opened Common
  import opened Definition
  import opened BpmnModel
  import opened Flatten
  import opened FlattenPlaces
  import opened FlattenPaths

  function Inner(to: Id): Scope {
    Scope(3, false, false, [Start(4, PlainStart, false)], [End(5, false)], [], [], [], [Flow(4, to, None)], [])
  }

  function Outer(to: Id): Scope {
    Scope(9, false, false, [Start(1, PlainStart, false)], [End(2, false)], [], [], [],
          [Flow(1, 3, None), Flow(3, 2, None)], [Inner(to)])
  }

  // ----- the inner scope

  lemma InnerFlows(to: Id)
    ensures OutFlows(Inner(to).flows, 4) == [SequenceFlow(to, None)] && Entry(Inner(to)) == to && !Forks(Inner(to))
  {
    assert Inner(to).flows[..0] == [];
  }

  lemma InnerIsAccepted(to: Id)
    ensures Accepts(Inner(to), Embedded)
  {
    InnerFlows(to);
  }

  lemma InnerItems(to: Id)
    ensures Items(Inner(to), Embedded) == [Node(3, EmbeddedSubProcess(to)), Node(5, SubProcessEndEvent(3))]
  {
    InnerFlows(to);
    var s := Inner(to);
    assert StartItems(s, Embedded) == [Node(3, EmbeddedSubProcess(to))];
    assert EndItems(s, Embedded, 1) == [Node(5, SubProcessEndEvent(3))];
    assert FlowItems(s, Embedded, 1) == [];
    assert SubItems(s, Embedded) == [];
  }

  // ----- the process

  lemma OuterIsAccepted(to: Id)
    ensures Accepts(Outer(to), Process)
  {
    InnerIsAccepted(to);
    var verdicts := SubVerdicts(Outer(to), Process);
    assert verdicts[0] && AllHold(verdicts, 0);
    assert EventSubsAreApart(Outer(to), 0);
  }

  function Graphed(to: Id): Builder {
    Builder(
      map[1 := StartEvent(PlainStart), 2 := EndEvent, 3 := EmbeddedSubProcess(to), 5 := SubProcessEndEvent(3)],
      map[1 := [SequenceFlow(3, None)], 3 := [SequenceFlow(2, None)]])
  }

  function OwnNodes(): seq<Item> { [Node(1, StartEvent(PlainStart)), Node(2, EndEvent)] }

  function OwnEdges(): seq<Item> { [Edge(1, SequenceFlow(3, None)), Edge(3, SequenceFlow(2, None))] }

  function SubNodes(to: Id): seq<Item> { [Node(3, EmbeddedSubProcess(to)), Node(5, SubProcessEndEvent(3))] }

  lemma OuterFlowItems(to: Id)
    ensures FlowItems(Outer(to), Process, 2) == OwnEdges()
  {
    assert FlowItems(Outer(to), Process, 1) == [Edge(1, SequenceFlow(3, None))];
  }

  lemma OuterSubItems(to: Id)
    ensures SubItems(Outer(to), Process) == SubNodes(to)
  {
    InnerItems(to);
    var lists := SubLists(Outer(to), Process);
    assert lists[0] == SubNodes(to);
    assert Concat(lists, 0) == [] && Concat(lists, 1) == [] + lists[0];
  }

  lemma OuterOwnItems(to: Id)
    ensures OwnItems(Outer(to), Process) == OwnNodes() + OwnEdges()
  {
    OuterFlowItems(to);
    assert StartItems(Outer(to), Process) + EndItems(Outer(to), Process, 1) == OwnNodes();
    assert ThrowItems(Outer(to), 0) == [] && PartItems(Outer(to), 0) == [];
  }

  lemma BuiltInTwoSteps(b: Builder, x: Item, y: Item)
    ensures Build(b, [x, y]) == Add(Add(b, x), y)
  {
    BuildOne(b, [], x);
    BuildOne(b, [x], y);
    assert [] + [x] == [x] && [x] + [y] == [x, y];
  }

  lemma OuterGraph(to: Id)
    ensures Graph(Outer(to), Process) == Graphed(to)
  {
    OuterOwnItems(to);
    OuterSubItems(to);
    var empty := Builder(map[], map[]);
    BuildTwice(empty, OwnNodes() + OwnEdges(), SubNodes(to));
    BuildTwice(empty, OwnNodes(), OwnEdges());
    BuiltInTwoSteps(empty, OwnNodes()[0], OwnNodes()[1]);
    BuiltInTwoSteps(Build(empty, OwnNodes()), OwnEdges()[0], OwnEdges()[1]);
    BuiltInTwoSteps(Build(empty, OwnNodes() + OwnEdges()), SubNodes(to)[0], SubNodes(to)[1]);
    assert [] + [SequenceFlow(3, None)] == [SequenceFlow(3, None)];
    assert [] + [SequenceFlow(2, None)] == [SequenceFlow(2, None)];
  }

  lemma GraphIsWellFormed(to: Id)
    ensures WellFormed(Graphed(to).nodes, Graphed(to).flows)
  {
    var nodes := Graphed(to).nodes;
    assert Starts(nodes) == {1};
    assert 2 in nodes && IsEnd(nodes[2]);
  }

  lemma InnerIsScoped(to: Id)
    requires to == 4 || to == 5
    ensures WellScoped(Inner(to), Embedded) && Region(Inner(to), Embedded) == {4, 5}
  {
    var s := Inner(to);
    assert s.starts[0].id == 4 && s.ends[0].id == 5;
    assert Declared(s) == {4, 5};
    assert SubRegion(s, Embedded, 0) == {};
  }

  lemma OuterIds(to: Id)
    ensures OwnIdsAreDistinct(Outer(to)) && FlowsAreLocal(Outer(to)) && Declared(Outer(to)) == {1, 2, 3}
  {
    var s := Outer(to);
    assert s.starts[0].id == 1 && s.ends[0].id == 2 && s.subs[0].id == 3;
  }

  lemma OuterIsScoped(to: Id)
    requires to == 4 || to == 5
    ensures WellScoped(Outer(to), Process)
  {
    InnerIsScoped(to);
    OuterIds(to);
  }

  /** The path theorems apply to it. */
  lemma ExampleIsDeployable(to: Id)
    requires to == 4 || to == 5
    ensures Deployable(Outer(to), Process)
  {
    OuterIsAccepted(to);
    OuterGraph(to);
    GraphIsWellFormed(to);
    OuterIsScoped(to);
  }

  /** With an inner start that leads to itself it deploys as well, though a token entering the sub-process
      has no node to go to. */
  lemma SelfLoopLeavesNoEntry()
    ensures Deployable(Outer(4), Process)
    ensures Graph(Outer(4), Process) == Graphed(4)
    ensures Entry(Inner(4)) !in Graphed(4).nodes && Graphed(4).nodes[3] == EmbeddedSubProcess(Entry(Inner(4)))
  {
    ExampleIsDeployable(4);
    OuterGraph(4);
    InnerFlows(4);
  }
}
