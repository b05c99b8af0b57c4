/** A process that deploys with an event handler, and in which a token can get stuck: its sub-process leads nowhere,
    which the definition's checks allow. */
module DeployedExample {
  import opened Common
  import opened Definition
  import opened BpmnModel
  import opened Flatten
  import opened FlattenPlaces
  import opened FlattenPaths
  import opened FlattenProgress
  import opened FlattenExample
  import ES = EventSubProcesses
  import opened HandlerRegions
  import opened Deployment
  import opened DeployedPaths

  /** An event sub-process: start, end. */
  const ON_EVENT := Scope(6, true, false, [Start(7, PlainStart, false)], [End(8, false)], [], [], [], [Flow(7, 8, None)], [])

  /** A start that leads to a sub-process, which leads nowhere; an end; and the event sub-process. */
  const MAIN := Scope(9, false, false, [Start(1, PlainStart, false)], [End(2, false)], [], [], [],
                      [Flow(1, 3, None)], [Inner(5), ON_EVENT])

  const STARTS := [HandlerStart(None, true), HandlerStart(Some(ES.Timer), true)]

  // ----- the event sub-process

  const HANDLER_GRAPH := Builder(map[7 := StartEvent(PlainStart), 8 := EndEvent], map[7 := [SequenceFlow(8, None)]])

  lemma BuiltInThreeSteps(x: Item, y: Item, z: Item)
    ensures Build(Builder(map[], map[]), [x, y, z]) == Add(Add(Add(Builder(map[], map[]), x), y), z)
  {
    BuiltInTwoSteps(Builder(map[], map[]), x, y);
    BuildOne(Builder(map[], map[]), [x, y], z);
    assert [x, y] + [z] == [x, y, z];
  }

  lemma HandlerItems()
    ensures Items(ON_EVENT, Handler) ==
            [Node(7, StartEvent(PlainStart)), Node(8, EndEvent), Edge(7, SequenceFlow(8, None))]
  {
    assert StartItems(ON_EVENT, Handler) == [Node(7, StartEvent(PlainStart))];
    assert EndItems(ON_EVENT, Handler, 1) == [Node(8, EndEvent)];
    assert FlowItems(ON_EVENT, Handler, 0) == [];
    assert FlowItems(ON_EVENT, Handler, 1) == [Edge(7, SequenceFlow(8, None))];
    assert ThrowItems(ON_EVENT, 0) == [] && PartItems(ON_EVENT, 0) == [];
    assert SubItems(ON_EVENT, Handler) == [];
  }

  lemma HandlerGraph()
    ensures Graph(ON_EVENT, Handler) == HANDLER_GRAPH
  {
    HandlerItems();
    BuiltInThreeSteps(Node(7, StartEvent(PlainStart)), Node(8, EndEvent), Edge(7, SequenceFlow(8, None)));
    assert [] + [SequenceFlow(8, None)] == [SequenceFlow(8, None)];
  }

  lemma HandlerFlows()
    ensures OutFlows(ON_EVENT.flows, 7) == [SequenceFlow(8, None)]
  {
    assert ON_EVENT.flows[..0] == [];
  }

  lemma HandlerIsWellFormed()
    ensures WellFormed(HANDLER_GRAPH.nodes, HANDLER_GRAPH.flows)
  {
    assert Starts(HANDLER_GRAPH.nodes) == {7};
    assert 8 in HANDLER_GRAPH.nodes && IsEnd(HANDLER_GRAPH.nodes[8]);
  }

  lemma HandlerIsCompiled()
    ensures HandlerCompiles(ON_EVENT, STARTS[1])
  {
    HandlerGraph();
    HandlerFlows();
    HandlerIsWellFormed();
  }

  lemma HandlerIsScoped()
    ensures WellScoped(ON_EVENT, Handler) && Region(ON_EVENT, Handler) == {7, 8}
  {
    assert ON_EVENT.starts[0].id == 7 && ON_EVENT.ends[0].id == 8;
    assert Declared(ON_EVENT) == {7, 8};
    assert SubRegion(ON_EVENT, Handler, 0) == {};
  }

  // ----- the process

  const MAIN_GRAPH := Builder(
    map[1 := StartEvent(PlainStart), 2 := EndEvent, 3 := EmbeddedSubProcess(5), 5 := SubProcessEndEvent(3)],
    map[1 := [SequenceFlow(3, None)]])

  lemma MainSubItems()
    ensures SubItems(MAIN, Process) == SubNodes(5)
  {
    InnerItems(5);
    var lists := SubLists(MAIN, Process);
    assert lists[0] == SubNodes(5) && lists[1] == [];
    assert Concat(lists, 0) == [] && Concat(lists, 1) == [] + lists[0] && Concat(lists, 2) == Concat(lists, 1) + [];
  }

  lemma MainOwnItems()
    ensures OwnItems(MAIN, Process) == [Node(1, StartEvent(PlainStart)), Node(2, EndEvent), Edge(1, SequenceFlow(3, None))]
  {
    assert StartItems(MAIN, Process) == [Node(1, StartEvent(PlainStart))];
    assert EndItems(MAIN, Process, 1) == [Node(2, EndEvent)];
    assert FlowItems(MAIN, Process, 0) == [];
    assert FlowItems(MAIN, Process, 1) == [Edge(1, SequenceFlow(3, None))];
    assert ThrowItems(MAIN, 0) == [] && PartItems(MAIN, 0) == [];
  }

  lemma MainGraph()
    ensures Graph(MAIN, Process) == MAIN_GRAPH
  {
    var own := [Node(1, StartEvent(PlainStart)), Node(2, EndEvent), Edge(1, SequenceFlow(3, None))];
    MainOwnItems();
    MainSubItems();
    BuildTwice(Builder(map[], map[]), own, SubNodes(5));
    BuiltInThreeSteps(own[0], own[1], own[2]);
    BuiltInTwoSteps(Build(Builder(map[], map[]), own), SubNodes(5)[0], SubNodes(5)[1]);
    assert [] + [SequenceFlow(3, None)] == [SequenceFlow(3, None)];
  }

  lemma MainIsAccepted()
    ensures Accepts(MAIN, Process)
  {
    InnerIsAccepted(5);
    var verdicts := SubVerdicts(MAIN, Process);
    assert verdicts[0] && verdicts[1];
    assert AllHold(verdicts, 0) && AllHold(verdicts, 1);
    assert EventSubsAreApart(MAIN, 0) && EventSubsAreApart(MAIN, 1);
  }

  lemma MainIsWellFormed()
    ensures WellFormed(MAIN_GRAPH.nodes, MAIN_GRAPH.flows)
  {
    assert Starts(MAIN_GRAPH.nodes) == {1};
    assert 2 in MAIN_GRAPH.nodes && IsEnd(MAIN_GRAPH.nodes[2]);
  }

  lemma MainIds()
    ensures OwnIdsAreDistinct(MAIN) && FlowsAreLocal(MAIN) && Declared(MAIN) == {1, 2, 3, 6}
  {
    assert MAIN.starts[0].id == 1 && MAIN.ends[0].id == 2 && MAIN.subs[0].id == 3 && MAIN.subs[1].id == 6;
  }

  lemma MainRegion()
    ensures Region(MAIN, Process) == {1, 2, 3, 4, 5, 6}
  {
    InnerIsScoped(5);
    MainIds();
    assert SubRegion(MAIN, Process, 0) == {} && SubRegion(MAIN, Process, 1) == {4, 5};
  }

  lemma MainIsScoped()
    ensures WellScoped(MAIN, Process) && Region(MAIN, Process) == {1, 2, 3, 4, 5, 6}
  {
    InnerIsScoped(5);
    MainIds();
    MainRegion();
  }

  // ----- both together

  lemma CollectSecond(results: seq<Result<Option<Attachment>>>, a: Attachment)
    requires |results| == 2 && results[0] == Ok(None) && results[1] == Ok(Some(a))
    ensures Collect(results, 2) == Ok([a])
  {
    assert Collect(results, 0) == Ok([]) && Collect(results, 1) == Ok([]);
    assert [] + [a] == [a];
  }

  lemma SecondIsHandler(s: Scope, starts: seq<HandlerStart>)
    requires |s.subs| == 2 == |starts| && !s.subs[0].triggeredByEvent && s.subs[1].triggeredByEvent
    requires HandlerCompiles(s.subs[1], starts[1])
    ensures Handlers(s, starts) == Ok([AttachmentOf(s.subs[1], starts[1])])
  {
    var results := Results(s, starts);
    assert results[0] == HandlerAt(s, starts, 0) && results[1] == HandlerAt(s, starts, 1);
    CollectSecond(results, AttachmentOf(s.subs[1], starts[1]));
  }

  lemma FitsAlone(p: ES.Process, a: Attachment)
    requires p.handlers == [] && p.nodes.Keys !! a.body.nodes.Keys
    ensures AllFit(p, [a])
  {
    assert [a][1..] == [];
  }

  lemma FitsByNodes(s: Scope, h: Scope, start: HandlerStart)
    requires HandlerCompiles(h, start) && Graph(s, Process).nodes.Keys !! Graph(h, Handler).nodes.Keys
    ensures AllFit(MainProcess(s), [AttachmentOf(h, start)])
  {
    FitsAlone(MainProcess(s), AttachmentOf(h, start));
  }

  lemma NodesAreApart()
    ensures Graph(MAIN, Process).nodes.Keys !! Graph(ON_EVENT, Handler).nodes.Keys
  {
    MainGraph();
    HandlerGraph();
  }

  lemma HandlerFits()
    ensures HandlerCompiles(ON_EVENT, STARTS[1]) && AllFit(MainProcess(MAIN), [AttachmentOf(ON_EVENT, STARTS[1])])
  {
    HandlerIsCompiled();
    NodesAreApart();
    FitsByNodes(MAIN, ON_EVENT, STARTS[1]);
  }

  lemma MainDeploys()
    ensures Deploys(MAIN, STARTS)
  {
    MainIsAccepted();
    MainGraph();
    MainIsWellFormed();
    HandlerFits();
    SecondIsHandler(MAIN, STARTS);
  }

  lemma TwoParts(s: Scope)
    requires |s.subs| == 2 && !s.subs[0].triggeredByEvent && s.subs[1].triggeredByEvent
    requires WellScoped(s, Process) && WellScoped(s.subs[1], Handler) && Region(s, Process) !! Region(s.subs[1], Handler)
    ensures IdsAreDistinct(s)
  {
    forall part | IsPartOf(s, part) ensures part == None || part == Some(1) { }
  }

  lemma MainIdsAreDistinct()
    ensures IdsAreDistinct(MAIN)
  {
    MainIsScoped();
    HandlerIsScoped();
    TwoParts(MAIN);
  }

  /** The theorems on deployed paths apply to it, for the process and for its handler. */
  lemma HandlerExampleDeploys()
    ensures Deploys(MAIN, STARTS) && IdsAreDistinct(MAIN) && IsPartOf(MAIN, None) && IsPartOf(MAIN, Some(1))
    ensures 1 in GraphOf(MAIN, None).nodes && 7 in GraphOf(MAIN, Some(1)).nodes
  {
    MainDeploys();
    MainIdsAreDistinct();
    MainGraph();
    HandlerGraph();
  }

  lemma InnerEndStops()
    ensures Stops(MAIN, Process, [], 5)
  {
    assert Inner(5).ends[0].id == 5;
    assert OutFlows(MAIN.flows, 3) == [] by { assert MAIN.flows[..0] == []; }
    assert StopsHere(Inner(5), Embedded, OutFlows(MAIN.flows, 3), 5);
    assert StopsIn(MAIN, 0, 5);
  }

  /** A token at the end inside its sub-process stops there, though that is no end of the process. */
  lemma TokenGetsStuck()
    ensures Deploys(MAIN, STARTS) && Stops(MAIN, Process, [], 5)
    ensures FlatStep(Graph(MAIN, Process), 1, 3) && FlatStep(Graph(MAIN, Process), 3, 5)
    ensures !exists y :: FlatStep(Graph(MAIN, Process), 5, y)
  {
    MainDeploys();
    MainGraph();
    MainIsScoped();
    InnerEndStops();
    ProgressIsExact(MAIN, Process, 5);
    assert MAIN_GRAPH.flows[1][0].target == 3;
  }
}
