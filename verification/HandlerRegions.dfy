/** What any number of attached event sub-processes leaves intact. */
module HandlerRegions {
  import opened Common
  import opened Definition
  import opened EventSubProcesses

  // ----- the invariant

  /** Handlers own disjoint sets of nodes. */
  ghost predicate HandlersAreDisjoint(p: Process) {
    && (forall i | 0 <= i < |p.handlers| :: p.handlers[i].nodeIds <= p.nodes.Keys)
    && (forall i, j | 0 <= i < j < |p.handlers| :: p.handlers[i].nodeIds !! p.handlers[j].nodeIds)
  }

  ghost predicate TriggersAreDistinct(p: Process) {
    forall i, j | 0 <= i < j < |p.handlers| ::
      p.handlers[i].id != p.handlers[j].id && !SameTrigger(p.handlers[i].trigger, p.handlers[j].trigger)
  }

  /** Where a node belongs: the main process, or the handler at a position. */
  ghost predicate InRegion(p: Process, id: Id, region: Option<nat>) {
    && id in p.nodes
    && match region
       case None => !IsHandlerNode(p, id)
       case Some(i) => i < |p.handlers| && id in p.handlers[i].nodeIds
  }

  /** A flow stays where it starts. */
  ghost predicate FlowsStayPut(p: Process) {
    forall s, k, region | s in p.flows && 0 <= k < |p.flows[s]| && InRegion(p, s, region) ::
      InRegion(p, p.flows[s][k].target, region)
  }

  /** The main process has one start. */
  ghost predicate OneMainStart(p: Process) {
    (exists id :: IsMainStart(p, id)) && forall a, b | IsMainStart(p, a) && IsMainStart(p, b) :: a == b
  }

  ghost predicate Connected(p: Process) {
    FlowsStayInside(p.nodes, p.flows) && forall id | id in p.nodes :: NodeIsConnected(p.nodes, p.flows, id)
  }

  ghost predicate Sound(p: Process) {
    HandlersAreDisjoint(p) && TriggersAreDistinct(p) && FlowsStayPut(p) && OneMainStart(p) && Connected(p)
  }

  /** What compiling an event sub-process delivers. */
  ghost predicate IsCompiled(h: Handler, body: Body) {
    h.nodeIds == body.nodes.Keys && WellFormed(body.nodes, body.flows)
  }

  // ----- a validated definition starts out sound

  lemma SingleStart(nodes: Nodes)
    requires |Starts(nodes)| == 1
    ensures exists id :: id in nodes && nodes[id].StartEvent?
    ensures forall a, b | a in nodes && b in nodes && nodes[a].StartEvent? && nodes[b].StartEvent? :: a == b
  {
    var starts := Starts(nodes);
    var id :| id in starts;
    assert starts == {id} by {
      assert |starts - {id}| == 0;
    }
    forall a | a in nodes && nodes[a].StartEvent? ensures a == id { assert a in starts; }
  }

  lemma ValidatedHasOneStart(p: Process)
    requires p.handlers == [] && |Starts(p.nodes)| == 1
    ensures OneMainStart(p)
  {
    SingleStart(p.nodes);
    var id :| id in p.nodes && p.nodes[id].StartEvent?;
    assert IsMainStart(p, id);
  }

  lemma ValidatedIsSound(nodes: Nodes, flows: Flows)
    requires WellFormed(nodes, flows)
    ensures Sound(Process(nodes, flows, []))
  {
    ValidatedHasOneStart(Process(nodes, flows, []));
  }

  // ----- attaching keeps it

  lemma HandlerNodesAfter(p: Process, h: Handler, body: Body, id: Id)
    ensures IsHandlerNode(Attached(p, h, body), id) <==> IsHandlerNode(p, id) || id in h.nodeIds
  {
    var q, n := Attached(p, h, body), |p.handlers|;
    assert q.handlers[n] == h && forall i | 0 <= i < n :: q.handlers[i] == p.handlers[i];
  }

  /** Old nodes stay where they were, and new ones belong to the new handler. */
  lemma RegionsAfter(p: Process, h: Handler, body: Body, id: Id, region: Option<nat>)
    requires HandlersAreDisjoint(p) && h.nodeIds == body.nodes.Keys && p.nodes.Keys !! body.nodes.Keys
    ensures InRegion(Attached(p, h, body), id, region) <==>
            if id in body.nodes then region == Some(|p.handlers|) else InRegion(p, id, region)
  {
    var q, n := Attached(p, h, body), |p.handlers|;
    HandlerNodesAfter(p, h, body, id);
    if region.Some? && region.value < n {
      assert q.handlers[region.value] == p.handlers[region.value];
      assert p.handlers[region.value].nodeIds <= p.nodes.Keys;
    }
  }

  lemma FlowsAfter(p: Process, h: Handler, body: Body, s: Id)
    requires FlowsStayInside(p.nodes, p.flows) && FlowsStayInside(body.nodes, body.flows) && p.nodes.Keys !! body.nodes.Keys
    ensures var flows := Attached(p, h, body).flows;
            && (s in flows <==> s in p.flows || s in body.flows)
            && (s in p.flows ==> s !in body.nodes && flows[s] == p.flows[s])
            && (s in body.flows ==> s !in p.nodes && flows[s] == body.flows[s])
  {
    assert Outgoing(p.flows, s) + [] == Outgoing(p.flows, s);
    assert [] + Outgoing(body.flows, s) == Outgoing(body.flows, s);
  }

  lemma FlowsStillStayPut(p: Process, h: Handler, body: Body)
    requires Sound(p) && IsCompiled(h, body) && !Clashes(p, h, body)
    ensures FlowsStayPut(Attached(p, h, body))
  {
    var q := Attached(p, h, body);
    forall s, k, region | s in q.flows && 0 <= k < |q.flows[s]| && InRegion(q, s, region)
      ensures InRegion(q, q.flows[s][k].target, region)
    {
      FlowsAfter(p, h, body, s);
      RegionsAfter(p, h, body, s, region);
      RegionsAfter(p, h, body, q.flows[s][k].target, region);
    }
  }

  lemma StillOneMainStart(p: Process, h: Handler, body: Body)
    requires Sound(p) && IsCompiled(h, body) && !Clashes(p, h, body)
    ensures OneMainStart(Attached(p, h, body))
  {
    var q := Attached(p, h, body);
    forall id ensures IsMainStart(q, id) <==> IsMainStart(p, id) {
      RegionsAfter(p, h, body, id, None);
    }
  }

  lemma StillDistinct(p: Process, h: Handler, body: Body)
    requires Sound(p) && IsCompiled(h, body) && !Clashes(p, h, body)
    ensures HandlersAreDisjoint(Attached(p, h, body)) && TriggersAreDistinct(Attached(p, h, body))
  {
    forall i | 0 <= i < |p.handlers| ensures !SameTrigger(p.handlers[i].trigger, h.trigger) {
      if !h.trigger.Timer? && !p.handlers[i].trigger.Timer? {
        IdentityIsExact(p.handlers[i].trigger, h.trigger);
      }
    }
  }

  lemma IncomingAfter(a: Flows, b: Flows, id: Id)
    requires forall s | s in b && s in a :: a[s] == b[s]
    requires a.Keys <= b.Keys && forall s, k | s in b && s !in a && 0 <= k < |b[s]| :: b[s][k].target != id
    ensures Incoming(b, id, b.Keys) == Incoming(a, id, a.Keys)
  {
  }

  lemma NodeStaysConnected(nodes: Nodes, flows: Flows, more: Nodes, all: Flows, id: Id)
    requires FlowsStayInside(nodes, flows) && id in nodes && NodeIsConnected(nodes, flows, id)
    requires (forall x | x in nodes :: x in more && more[x] == nodes[x]) && flows.Keys <= all.Keys
    requires forall s | s in flows :: all[s] == flows[s]
    requires forall s | s in all && s !in flows :: s !in nodes && forall k | 0 <= k < |all[s]| :: all[s][k].target !in nodes
    ensures NodeIsConnected(more, all, id)
  {
    IncomingAfter(flows, all, id);
    assert Outgoing(all, id) == Outgoing(flows, id);
  }

  lemma StillConnected(p: Process, h: Handler, body: Body)
    requires Sound(p) && IsCompiled(h, body) && !Clashes(p, h, body)
    ensures Connected(Attached(p, h, body))
  {
    var q := Attached(p, h, body);
    forall s ensures
      && (s in q.flows <==> s in p.flows || s in body.flows)
      && (s in p.flows ==> s !in body.nodes && q.flows[s] == p.flows[s])
      && (s in body.flows ==> s !in p.nodes && q.flows[s] == body.flows[s])
    {
      FlowsAfter(p, h, body, s);
    }
    forall id | id in q.nodes ensures NodeIsConnected(q.nodes, q.flows, id) {
      if id in body.nodes {
        NodeStaysConnected(body.nodes, body.flows, q.nodes, q.flows, id);
      } else {
        NodeStaysConnected(p.nodes, p.flows, q.nodes, q.flows, id);
      }
    }
  }

  lemma AttachKeepsSound(p: Process, h: Handler, body: Body)
    requires Sound(p) && IsCompiled(h, body) && !Clashes(p, h, body)
    ensures Sound(Attached(p, h, body))
  {
    FlowsStillStayPut(p, h, body);
    StillOneMainStart(p, h, body);
    StillDistinct(p, h, body);
    StillConnected(p, h, body);
  }

  // ----- any number of attachments

  datatype Attachment = Attachment(handler: Handler, body: Body)

  /** Attachments one after the other; those that clash are refused. */
  ghost function AttachAll(p: Process, more: seq<Attachment>): Process
    decreases |more|
  {
    if more == [] then p
    else
      var first := more[0];
      AttachAll(if Clashes(p, first.handler, first.body) then p else Attached(p, first.handler, first.body), more[1..])
  }

  /** Whatever is attached to a validated definition, main process and handlers stay apart and complete. */
  lemma {:induction false} AttachAllKeepsSound(p: Process, more: seq<Attachment>)
    requires Sound(p) && forall i | 0 <= i < |more| :: IsCompiled(more[i].handler, more[i].body)
    ensures Sound(AttachAll(p, more))
    decreases |more|
  {
    if more != [] {
      var first := more[0];
      if Clashes(p, first.handler, first.body) {
        AttachAllKeepsSound(p, more[1..]);
      } else {
        AttachKeepsSound(p, first.handler, first.body);
        AttachAllKeepsSound(Attached(p, first.handler, first.body), more[1..]);
      }
    }
  }

  /** The start of the main process never changes. */
  lemma {:induction false} StartIsStable(p: Process, more: seq<Attachment>, id: Id)
    requires Sound(p) && forall i | 0 <= i < |more| :: IsCompiled(more[i].handler, more[i].body)
    ensures IsMainStart(AttachAll(p, more), id) <==> IsMainStart(p, id)
    decreases |more|
  {
    if more != [] {
      var first := more[0];
      if Clashes(p, first.handler, first.body) {
        StartIsStable(p, more[1..], id);
      } else {
        AttachKeepsSound(p, first.handler, first.body);
        RegionsAfter(p, first.handler, first.body, id, None);
        StartIsStable(Attached(p, first.handler, first.body), more[1..], id);
      }
    }
  }

  // ----- walks

  ghost predicate IsWalk(p: Process, path: seq<Id>) {
    forall i | 0 <= i < |path| - 1 :: path[i] in p.flows &&
      exists k :: 0 <= k < |p.flows[path[i]]| && p.flows[path[i]][k].target == path[i + 1]
  }

  lemma StepStaysInRegion(p: Process, path: seq<Id>, i: nat, region: Option<nat>)
    requires FlowsStayPut(p) && IsWalk(p, path) && i < |path| - 1 && InRegion(p, path[i], region)
    ensures InRegion(p, path[i + 1], region)
  {
    var s := path[i];
    var k :| 0 <= k < |p.flows[s]| && p.flows[s][k].target == path[i + 1];
    assert InRegion(p, p.flows[s][k].target, region);
  }

  /** No walk along sequence flows crosses between the main process and a handler, or leaves the nodes. */
  lemma {:induction false} WalkStaysInRegion(p: Process, path: seq<Id>, region: Option<nat>, i: nat)
    requires FlowsStayPut(p) && IsWalk(p, path) && i < |path| && InRegion(p, path[0], region)
    ensures InRegion(p, path[i], region)
  {
    if i > 0 {
      WalkStaysInRegion(p, path, region, i - 1);
      StepStaysInRegion(p, path, i - 1, region);
    }
  }

  /** Every node is in exactly one region. */
  lemma RegionIsUnique(p: Process, id: Id)
    requires Sound(p) && id in p.nodes
    ensures exists region :: InRegion(p, id, region)
    ensures forall a, b | InRegion(p, id, a) && InRegion(p, id, b) :: a == b
  {
    if IsHandlerNode(p, id) {
      var i :| 0 <= i < |p.handlers| && id in p.handlers[i].nodeIds;
      assert InRegion(p, id, Some(i));
    } else {
      assert InRegion(p, id, None);
    }
  }
}
