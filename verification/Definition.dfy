/** Process definitions: the flat node graph the engine runs, and its validation. */
module Definition {
  import opened Common

  datatype SequenceFlow = SequenceFlow(target: Id, condition: Option<string>)

  datatype StartKind = PlainStart | TimerStart | MessageStart | SignalStart

  datatype GatewayKind = Exclusive | Inclusive | Parallel | EventBased | Complex

  /** Intermediate catch events; the first three may follow an event-based gateway. */
  datatype CatchKind = MessageCatch | TimerCatch | SignalCatch | ConditionalCatch

  /** Elements as far as graph validation and token routing tell them apart. */
  datatype Element =
    | StartEvent(start: StartKind)
    | EndEvent
    | SubProcessEndEvent(subProcessId: Id)
    | Activity
    | CatchEvent(catch: CatchKind)
    | Gateway(gateway: GatewayKind)
    | BoundaryEvent(attachedTo: Id, compensation: bool)
    | LinkThrowEvent(target: Id)
    | EmbeddedSubProcess(startNodeId: Id)

  type Nodes = map<Id, Element>
  type Flows = map<Id, seq<SequenceFlow>>

  predicate IsEnd(e: Element) { e.EndEvent? || e.SubProcessEndEvent? }

  predicate NeedsOutgoing(e: Element) {
    !IsEnd(e) && !e.EmbeddedSubProcess? && !(e.BoundaryEvent? && e.compensation)
  }

  /** Event-based gateways lead to events that can race. */
  predicate MayFollowEventGateway(e: Element) { e.CatchEvent? && !e.catch.ConditionalCatch? }

  function Outgoing(flows: Flows, id: Id): seq<SequenceFlow> { if id in flows then flows[id] else [] }

  /** The flows into `id`, by source and position, from the given sources. */
  ghost function Incoming(flows: Flows, id: Id, sources: set<Id>): set<(Id, int)> {
    set s, i | s in sources && s in flows && 0 <= i < |flows[s]| && flows[s][i].target == id :: (s, i)
  }

  /** The flows into `id` from one source. */
  ghost function Hits(flows: Flows, id: Id, s: Id, n: nat): set<(Id, int)>
    requires s in flows && n <= |flows[s]|
  {
    set i | 0 <= i < n && flows[s][i].target == id :: (s, i)
  }

  method CountHits(flows: Flows, id: Id, s: Id) returns (count: nat)
    requires s in flows
    ensures count == |Hits(flows, id, s, |flows[s]|)|
  {
    count := 0;
    for i := 0 to |flows[s]|
      invariant count == |Hits(flows, id, s, i)|
    {
      if flows[s][i].target == id {
        assert Hits(flows, id, s, i + 1) == Hits(flows, id, s, i) + {(s, i)};
        count := count + 1;
      } else {
        assert Hits(flows, id, s, i + 1) == Hits(flows, id, s, i);
      }
    }
  }

  lemma OneMoreSource(flows: Flows, id: Id, sources: set<Id>, s: Id)
    requires s in flows && s !in sources
    ensures |Incoming(flows, id, sources + {s})| == |Incoming(flows, id, sources)| + |Hits(flows, id, s, |flows[s]|)|
  {
    var before, hits := Incoming(flows, id, sources), Hits(flows, id, s, |flows[s]|);
    assert Incoming(flows, id, sources + {s}) == before + hits;
    assert before !! hits;
  }

  method IncomingFlowCount(flows: Flows, id: Id) returns (count: nat)
    ensures count == |Incoming(flows, id, flows.Keys)|
  {
    count := 0;
    var todo := flows.Keys;
    while todo != {}
      invariant todo <= flows.Keys
      invariant count == |Incoming(flows, id, flows.Keys - todo)|
      decreases |todo|
    {
      var s: Id :| s in todo;
      var hits := CountHits(flows, id, s);
      OneMoreSource(flows, id, flows.Keys - todo, s);
      assert flows.Keys - (todo - {s}) == (flows.Keys - todo) + {s};
      count := count + hits;
      todo := todo - {s};
    }
    assert flows.Keys - {} == flows.Keys;
  }

  ghost function Starts(nodes: Nodes): set<Id> { set id | id in nodes && nodes[id].StartEvent? }

  ghost predicate FlowsStayInside(nodes: Nodes, flows: Flows) {
    forall s | s in flows :: s in nodes && forall i | 0 <= i < |flows[s]| :: flows[s][i].target in nodes
  }

  ghost predicate NodeIsConnected(nodes: Nodes, flows: Flows, id: Id)
    requires id in nodes
  {
    var e, out := nodes[id], Outgoing(flows, id);
    && (e.BoundaryEvent? ==> e.attachedTo in nodes)
    && (NeedsOutgoing(e) ==> out != [])
    && (e.Gateway? ==> |out| >= 2 || |Incoming(flows, id, flows.Keys)| >= 2)
    && (e.Gateway? && e.gateway.EventBased? ==>
          forall i | 0 <= i < |out| :: out[i].target in nodes ==> MayFollowEventGateway(nodes[out[i].target]))
  }

  /** What a process definition guarantees about its graph. */
  ghost predicate WellFormed(nodes: Nodes, flows: Flows) {
    && |Starts(nodes)| == 1
    && (exists id :: id in nodes && IsEnd(nodes[id]))
    && FlowsStayInside(nodes, flows)
    && forall id | id in nodes :: NodeIsConnected(nodes, flows, id)
  }

  method CountStarts(nodes: Nodes) returns (starts: nat)
    ensures starts == |Starts(nodes)|
  {
    starts := 0;
    var todo := nodes.Keys;
    while todo != {}
      invariant todo <= nodes.Keys
      invariant starts == |Starts(nodes) - todo|
      decreases |todo|
    {
      var id: Id :| id in todo;
      if nodes[id].StartEvent? {
        assert Starts(nodes) - (todo - {id}) == (Starts(nodes) - todo) + {id};
        starts := starts + 1;
      } else {
        assert Starts(nodes) - (todo - {id}) == Starts(nodes) - todo;
      }
      todo := todo - {id};
    }
    assert Starts(nodes) - {} == Starts(nodes);
  }

  method HasEnd(nodes: Nodes) returns (found: bool)
    ensures found <==> exists id :: id in nodes && IsEnd(nodes[id])
  {
    var todo := nodes.Keys;
    while todo != {}
      invariant todo <= nodes.Keys
      invariant forall id | id in nodes && id !in todo :: !IsEnd(nodes[id])
      decreases |todo|
    {
      var id: Id :| id in todo;
      if IsEnd(nodes[id]) {
        return true;
      }
      todo := todo - {id};
    }
    found := false;
  }

  method CheckFlows(nodes: Nodes, flows: Flows) returns (ok: bool)
    ensures ok == FlowsStayInside(nodes, flows)
  {
    var todo := flows.Keys;
    while todo != {}
      invariant todo <= flows.Keys
      invariant forall s | s in flows && s !in todo :: s in nodes && forall i | 0 <= i < |flows[s]| :: flows[s][i].target in nodes
      decreases |todo|
    {
      var s: Id :| s in todo;
      if s !in nodes {
        return false;
      }
      for i := 0 to |flows[s]|
        invariant forall k | 0 <= k < i :: flows[s][k].target in nodes
      {
        if flows[s][i].target !in nodes {
          return false;
        }
      }
      todo := todo - {s};
    }
    ok := true;
  }

  method CheckNode(nodes: Nodes, flows: Flows, id: Id) returns (ok: bool)
    requires id in nodes
    ensures ok == NodeIsConnected(nodes, flows, id)
  {
    var e, out := nodes[id], Outgoing(flows, id);
    if e.BoundaryEvent? && e.attachedTo !in nodes {
      return false;
    }
    if NeedsOutgoing(e) && out == [] {
      return false;
    }
    if e.Gateway? {
      var incoming := IncomingFlowCount(flows, id);
      if |out| < 2 && incoming < 2 {
        return false;
      }
      if e.gateway.EventBased? {
        for i := 0 to |out|
          invariant forall k | 0 <= k < i :: out[k].target in nodes ==> MayFollowEventGateway(nodes[out[k].target])
        {
          if out[i].target in nodes && !MayFollowEventGateway(nodes[out[i].target]) {
            return false;
          }
        }
      }
    }
    ok := true;
  }

  /** Validation accepts exactly the well-formed graphs. */
  method Validate(nodes: Nodes, flows: Flows) returns (ok: bool)
    ensures ok <==> WellFormed(nodes, flows)
  {
    var starts := CountStarts(nodes);
    if starts != 1 {
      return false;
    }
    ok := HasEnd(nodes);
    if !ok {
      return;
    }
    ok := CheckFlows(nodes, flows);
    if !ok {
      return;
    }
    var todo := nodes.Keys;
    while todo != {}
      invariant todo <= nodes.Keys
      invariant forall id | id in nodes && id !in todo :: NodeIsConnected(nodes, flows, id)
      decreases |todo|
    {
      var id: Id :| id in todo;
      ok := CheckNode(nodes, flows, id);
      if !ok {
        return;
      }
      todo := todo - {id};
    }
    ok := true;
  }

  // ----- what a well-formed graph is, node by node

  predicate HasFlow(flows: Flows, id: Id) { id in flows && |flows[id]| > 0 }

  predicate LeadsTo(flows: Flows, s: Id, i: int, id: Id) { s in flows && 0 <= i < |flows[s]| && flows[s][i].target == id }

  /** Two flows lead to `id`, from two nodes or from two positions at one. */
  ghost predicate HasTwoIncoming(flows: Flows, id: Id) {
    exists s, i, r, j :: LeadsTo(flows, s, i, id) && LeadsTo(flows, r, j, id) && (s, i) != (r, j)
  }

  predicate IsRacingCatch(e: Element) {
    e in {CatchEvent(MessageCatch), CatchEvent(TimerCatch), CatchEvent(SignalCatch)}
  }

  ghost predicate IsInPlace(nodes: Nodes, flows: Flows, id: Id)
    requires id in nodes
  {
    match nodes[id]
    case EndEvent => true
    case SubProcessEndEvent(_) => true
    case EmbeddedSubProcess(_) => true
    case BoundaryEvent(at, compensation) => at in nodes && (compensation || HasFlow(flows, id))
    case Gateway(kind) =>
      && HasFlow(flows, id) && (|flows[id]| >= 2 || HasTwoIncoming(flows, id))
      && (kind == EventBased ==>
            forall i | 0 <= i < |flows[id]| && flows[id][i].target in nodes :: IsRacingCatch(nodes[flows[id][i].target]))
    case StartEvent(_) => HasFlow(flows, id)
    case Activity => HasFlow(flows, id)
    case CatchEvent(_) => HasFlow(flows, id)
    case LinkThrowEvent(_) => HasFlow(flows, id)
  }

  lemma TwoAreMany<T>(s: set<T>, a: T, b: T)
    requires a in s && b in s && a != b
    ensures |s| >= 2
  {
    assert {a, b} <= s && s == {a, b} + (s - {a, b});
    assert |s| == |{a, b}| + |s - {a, b}|;
  }

  lemma ManyHaveTwo<T>(s: set<T>) returns (a: T, b: T)
    requires |s| >= 2
    ensures a in s && b in s && a != b
  {
    a :| a in s;
    assert |s - {a}| >= 1;
    b :| b in s - {a};
  }

  lemma IncomingIs(flows: Flows, id: Id)
    ensures |Incoming(flows, id, flows.Keys)| >= 2 <==> HasTwoIncoming(flows, id)
  {
    var all := Incoming(flows, id, flows.Keys);
    if |all| >= 2 {
      var a, b := ManyHaveTwo(all);
      assert LeadsTo(flows, a.0, a.1, id) && LeadsTo(flows, b.0, b.1, id) && (a.0, a.1) != (b.0, b.1);
    }
    if s, i, r, j :| LeadsTo(flows, s, i, id) && LeadsTo(flows, r, j, id) && (s, i) != (r, j) {
      TwoAreMany(all, (s, i), (r, j));
    }
  }

  lemma ConnectedIs(nodes: Nodes, flows: Flows, id: Id)
    requires id in nodes
    ensures NodeIsConnected(nodes, flows, id) <==> IsInPlace(nodes, flows, id)
  {
    IncomingIs(flows, id);
    forall e: Element ensures MayFollowEventGateway(e) <==> IsRacingCatch(e) {}
  }

  ghost predicate IsOnlyStart(nodes: Nodes, id: Id) {
    id in nodes && nodes[id].StartEvent? && forall x | x in nodes && nodes[x].StartEvent? :: x == id
  }

  lemma OneStartIs(nodes: Nodes)
    ensures |Starts(nodes)| == 1 <==> exists id: Id :: IsOnlyStart(nodes, id)
  {
    var all := Starts(nodes);
    if |all| == 1 {
      var id :| id in all;
      forall x | x in nodes && nodes[x].StartEvent? ensures x == id {
        if x != id { TwoAreMany(all, x, id); }
      }
      assert IsOnlyStart(nodes, id);
    }
    if id: Id :| IsOnlyStart(nodes, id) {
      assert all == {id};
    }
  }

  /** A graph is well formed just if it has one start, some end, flows between its nodes only, and every node is in place. */
  lemma WellFormedMeans(nodes: Nodes, flows: Flows)
    ensures WellFormed(nodes, flows) <==>
            && (exists id: Id :: IsOnlyStart(nodes, id))
            && (exists id :: id in nodes && (nodes[id].EndEvent? || nodes[id].SubProcessEndEvent?))
            && (forall s | s in flows :: s in nodes && forall i | 0 <= i < |flows[s]| :: flows[s][i].target in nodes)
            && (forall id | id in nodes :: IsInPlace(nodes, flows, id))
  {
    OneStartIs(nodes);
    forall id | id in nodes ensures NodeIsConnected(nodes, flows, id) <==> IsInPlace(nodes, flows, id) {
      ConnectedIs(nodes, flows, id);
    }
  }
}
