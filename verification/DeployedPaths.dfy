/** Paths through a deployed definition are paths through its parts: the process, or one of its handlers. */
module DeployedPaths {
  import opened Common
  import opened Definition
  import opened BpmnModel
  import opened Erasure
  import opened Flatten
  import opened FlattenPlaces
  import opened FlattenZones
  import opened FlattenEdges
  import opened FlattenPaths
  import opened FlattenProgress
  import ES = EventSubProcesses
  import opened HandlerRegions
  import opened Deployment

  /** The whole definition as one graph. */
  function Whole(p: ES.Process): Builder { Builder(p.nodes, p.flows) }

  // ----- parts of a definition

  /** The definition has the nodes of the part, with the same flows out of them. */
  ghost predicate IsPart(g: Builder, p: ES.Process) {
    forall x | x in g.nodes :: x in p.nodes && p.nodes[x] == g.nodes[x] && Outgoing(p.flows, x) == Outgoing(g.flows, x)
  }

  /** The node a sub-process, its end, or a link throw refers to. */
  function Reference(e: Element): Option<Id> {
    match e
    case EmbeddedSubProcess(entry) => Some(entry)
    case SubProcessEndEvent(id) => Some(id)
    case LinkThrowEvent(target) => Some(target)
    case _ => None
  }

  /** What nodes refer to is in `ids`. */
  ghost predicate RefersTo(nodes: Nodes, ids: set<Id>) {
    forall x | x in nodes && Reference(nodes[x]).Some? :: Reference(nodes[x]).value in ids
  }

  /** Of the identifiers that belong to the part, the definition has only the part's own nodes. */
  ghost predicate IsClosed(g: Builder, p: ES.Process, ids: set<Id>) {
    && IsPart(g, p) && RefersTo(g.nodes, ids) && FlowsStayInside(g.nodes, g.flows) && FlowsStayInside(p.nodes, p.flows)
    && forall x | x in ids && x in p.nodes :: x in g.nodes
  }

  lemma LeadsToNodes(g: Builder, x: Id, y: Id)
    requires FlowsStayInside(g.nodes, g.flows) && Leads(Outgoing(g.flows, x), y)
    ensures y in g.nodes
  {
  }

  /** From a node of the part, the definition steps as the part does. */
  lemma StepOfPart(g: Builder, p: ES.Process, ids: set<Id>, x: Id, y: Id)
    requires IsClosed(g, p, ids) && x in g.nodes
    ensures FlatStep(Whole(p), x, y) <==> FlatStep(g, x, y)
  {
    var e := g.nodes[x];
    if e.SubProcessEndEvent? {
      assert Outgoing(p.flows, e.subProcessId) == Outgoing(g.flows, e.subProcessId);
      if Leads(Outgoing(g.flows, e.subProcessId), y) { LeadsToNodes(g, e.subProcessId, y); }
    } else if Leads(Outgoing(g.flows, x), y) {
      LeadsToNodes(g, x, y);
    }
  }

  ghost function Steps(g: Builder): (Id, Id) -> bool { (x: Id, y: Id) => FlatStep(g, x, y) }

  /** So a path that begins in the part stays in it. */
  lemma {:induction false} PathOfPart(g: Builder, p: ES.Process, ids: set<Id>, q: seq<Id>)
    requires IsClosed(g, p, ids) && q != [] && q[0] in g.nodes
    ensures Path(Steps(Whole(p)), q) <==> Path(Steps(g), q)
    ensures Path(Steps(g), q) ==> q[|q| - 1] in g.nodes
    decreases |q|
  {
    var n := |q| - 1;
    if n > 0 {
      var before := q[..n];
      PathOfPart(g, p, ids, before);
      assert forall i | 0 <= i < n :: before[i] == q[i];
      if before[n - 1] in g.nodes {
        StepOfPart(g, p, ids, q[n - 1], q[n]);
      }
      PathGrows(Steps(g), q);
      PathGrows(Steps(Whole(p)), q);
    }
  }

  lemma PathGrows(step: (Id, Id) -> bool, q: seq<Id>)
    requires |q| > 1
    ensures Path(step, q) <==> Path(step, q[..|q| - 1]) && step(q[|q| - 2], q[|q| - 1])
  {
    var before := q[..|q| - 1];
    assert forall i | 0 <= i < |before| :: before[i] == q[i];
  }

  // ----- a compiled scope refers to what it declares

  ghost predicate ItemsReferTo(items: seq<Item>, ids: set<Id>) {
    forall i | 0 <= i < |items| && items[i].Node? && Reference(items[i].element).Some? ::
      Reference(items[i].element).value in ids
  }

  lemma ItemsReferJoin(xs: seq<Item>, ys: seq<Item>, ids: set<Id>)
    requires ItemsReferTo(xs, ids) && ItemsReferTo(ys, ids)
    ensures ItemsReferTo(xs + ys, ids)
  {
  }

  lemma {:induction false} NodesReferTo(items: seq<Item>, ids: set<Id>)
    requires ItemsReferTo(items, ids)
    ensures RefersTo(NodesOf(items), ids)
  {
    if items != [] {
      NodesReferTo(items[..|items| - 1], ids);
    }
  }

  lemma TargetIsDeclared(s: Scope, x: Id)
    requires FlowsAreLocal(s) && OutFlows(s.flows, x) != []
    ensures OutFlows(s.flows, x)[0].target in Declared(s)
  {
    var y := OutFlows(s.flows, x)[0].target;
    OutFlowsConnect(s.flows, x, y);
    assert Leads(OutFlows(s.flows, x), y);
    var k :| 0 <= k < |s.flows| && s.flows[k].source == x && s.flows[k].target == y;
  }

  lemma EntryIsDeclared(s: Scope)
    requires FlowsAreLocal(s) && |s.starts| == 1
    ensures Entry(s) in Declared(s)
  {
    assert s.starts[0].id in StartIds(s);
    if |OutFlows(s.flows, s.starts[0].id)| == 1 { TargetIsDeclared(s, s.starts[0].id); }
  }

  lemma LinkTargetIsDeclared(s: Scope, t: Link)
    requires FlowsAreLocal(s) && LinksAreProper(s) && ThrowIsProper(s, t)
    ensures LinkTarget(s, t) in Declared(s)
  {
    var j := CatchOf(s, t);
    assert CatchIsProper(s.flows, s.catches[j]);
    TargetIsDeclared(s, s.catches[j].id);
  }

  lemma StartItemsRefer(s: Scope, role: Role)
    requires FlowsAreLocal(s) && OwnIsProper(s, role)
    ensures ItemsReferTo(StartItems(s, role), Declared(s))
  {
    if role.Embedded? { EntryIsDeclared(s); }
  }

  lemma ThrowRefers(id: Id, target: Id, ids: set<Id>)
    requires target in ids
    ensures ItemsReferTo([Node(id, LinkThrowEvent(target)), Edge(id, SequenceFlow(target, None))], ids)
  {
  }

  lemma {:induction false} ThrowItemsReferTo(s: Scope, n: nat, ids: set<Id>)
    requires n <= |s.throws| && forall i | 0 <= i < n :: LinkTarget(s, s.throws[i]) in ids
    ensures ItemsReferTo(ThrowItems(s, n), ids)
  {
    if n > 0 {
      var id, target := s.throws[n - 1].id, LinkTarget(s, s.throws[n - 1]);
      ThrowItemsReferTo(s, n - 1, ids);
      ThrowRefers(id, target, ids);
      ItemsReferJoin(ThrowItems(s, n - 1), [Node(id, LinkThrowEvent(target)), Edge(id, SequenceFlow(target, None))], ids);
    }
  }

  lemma ThrowItemsRefer(s: Scope)
    requires FlowsAreLocal(s) && LinksAreProper(s) && ThrowsAreProper(s, |s.throws|)
    ensures ItemsReferTo(ThrowItems(s, |s.throws|), Declared(s))
  {
    forall i | 0 <= i < |s.throws| ensures LinkTarget(s, s.throws[i]) in Declared(s) {
      EachThrowIsProper(s, i, |s.throws|);
      LinkTargetIsDeclared(s, s.throws[i]);
    }
    ThrowItemsReferTo(s, |s.throws|, Declared(s));
  }

  lemma {:induction false} FlowItemsRefer(s: Scope, role: Role, n: nat, ids: set<Id>)
    requires n <= |s.flows|
    ensures ItemsReferTo(FlowItems(s, role, n), ids)
  {
    if n > 0 { FlowItemsRefer(s, role, n - 1, ids); }
  }

  lemma OwnItemsRefer(s: Scope, role: Role)
    requires FlowsAreLocal(s) && OwnIsProper(s, role)
    ensures ItemsReferTo(OwnItems(s, role), Declared(s) + SelfId(s, role))
  {
    var ids := Declared(s) + SelfId(s, role);
    var a, b, c := StartItems(s, role), EndItems(s, role, |s.ends|), PartItems(s, |s.parts|);
    var d, e := ThrowItems(s, |s.throws|), FlowItems(s, role, |s.flows|);
    StartItemsRefer(s, role);
    ThrowItemsRefer(s);
    FlowItemsRefer(s, role, |s.flows|, ids);
    assert ItemsReferTo(a, ids) && ItemsReferTo(d, ids);
    ItemsReferJoin(a, b, ids);
    ItemsReferJoin(a + b, c, ids);
    ItemsReferJoin(a + b + c, d, ids);
    ItemsReferJoin(a + b + c + d, e, ids);
  }

  lemma {:induction false} UnionRefers(maps: seq<Nodes>, ids: set<Id>, n: nat)
    requires n <= |maps| && forall i | 0 <= i < n :: RefersTo(maps[i], ids)
    ensures RefersTo(Union(maps, n), ids)
  {
    if n > 0 { UnionRefers(maps, ids, n - 1); }
  }

  lemma SubRefers(s: Scope, role: Role, i: nat)
    requires i < |s.subs| && IsNested(s, role, i)
    requires RefersTo(NodesOf(Items(s.subs[i], Embedded)), Region(s.subs[i], Embedded) + SelfId(s.subs[i], Embedded))
    ensures RefersTo(SubMaps(s, role)[i], Region(s, role) + SelfId(s, role))
  {
    ZoneIsInRegion(s, role, i);
  }

  /** What the nodes of a scope refer to is in its region. */
  lemma {:induction false} ScopeRefers(s: Scope, role: Role)
    requires WellScoped(s, role) && Accepts(s, role)
    ensures RefersTo(NodesOf(Items(s, role)), Region(s, role) + SelfId(s, role))
    decreases s
  {
    var maps, ids := SubMaps(s, role), Region(s, role) + SelfId(s, role);
    forall i | 0 <= i < |s.subs| ensures RefersTo(maps[i], ids) {
      if IsNested(s, role, i) {
        EachSubAccepts(s, role, i);
        ScopeRefers(s.subs[i], Embedded);
        SubRefers(s, role, i);
      }
    }
    UnionRefers(maps, ids, |s.subs|);
    SubItemsUnion(s, role);
    OwnItemsRefer(s, role);
    NodesReferTo(OwnItems(s, role), Declared(s) + SelfId(s, role));
    NodesOfAppend(OwnItems(s, role), SubItems(s, role));
  }

  lemma GraphRefers(s: Scope, role: Role)
    requires !role.Embedded? && WellScoped(s, role) && Accepts(s, role)
    ensures RefersTo(Graph(s, role).nodes, Region(s, role)) && Graph(s, role).nodes.Keys <= Region(s, role)
  {
    ScopeRefers(s, role);
    NodeKeys(s, role);
    BuildGives(Builder(map[], map[]), Items(s, role), BLANK);
  }

  // ----- the process and its handlers are parts of the definition

  lemma PartStays(g: Builder, p: ES.Process, h: ES.Handler, body: ES.Body)
    requires Sound(p) && IsPart(g, p) && IsCompiled(h, body) && !ES.Clashes(p, h, body)
    ensures IsPart(g, ES.Attached(p, h, body))
  {
    var q := ES.Attached(p, h, body);
    forall x | x in g.nodes ensures x in q.nodes && q.nodes[x] == g.nodes[x] && Outgoing(q.flows, x) == Outgoing(g.flows, x) {
      FlowsAfter(p, h, body, x);
    }
  }

  lemma BodyIsPart(p: ES.Process, h: ES.Handler, body: ES.Body)
    requires Sound(p) && IsCompiled(h, body) && !ES.Clashes(p, h, body)
    ensures IsPart(Builder(body.nodes, body.flows), ES.Attached(p, h, body))
  {
    var q := ES.Attached(p, h, body);
    forall x | x in body.nodes
      ensures x in q.nodes && q.nodes[x] == body.nodes[x] && Outgoing(q.flows, x) == Outgoing(body.flows, x)
    {
      FlowsAfter(p, h, body, x);
    }
  }

  ghost predicate AllAreCompiled(more: seq<Attachment>) {
    forall i | 0 <= i < |more| :: IsCompiled(more[i].handler, more[i].body)
  }

  lemma {:induction false} PartStaysInAll(g: Builder, p: ES.Process, more: seq<Attachment>)
    requires Sound(p) && IsPart(g, p) && AllAreCompiled(more) && AllFit(p, more)
    ensures IsPart(g, AttachAll(p, more))
    decreases |more|
  {
    if more != [] {
      var h, body := more[0].handler, more[0].body;
      PartStays(g, p, h, body);
      AttachKeepsSound(p, h, body);
      PartStaysInAll(g, ES.Attached(p, h, body), more[1..]);
    }
  }

  function BodyOf(a: Attachment): Builder { Builder(a.body.nodes, a.body.flows) }

  lemma FirstHandlerIsPart(p: ES.Process, more: seq<Attachment>)
    requires Sound(p) && AllAreCompiled(more) && AllFit(p, more) && more != []
    ensures IsPart(BodyOf(more[0]), AttachAll(p, more))
    ensures var q := ES.Attached(p, more[0].handler, more[0].body);
            && Sound(q) && AllAreCompiled(more[1..]) && AllFit(q, more[1..])
            && AttachAll(p, more) == AttachAll(q, more[1..])
  {
    var h, body := more[0].handler, more[0].body;
    AttachKeepsSound(p, h, body);
    BodyIsPart(p, h, body);
    PartStaysInAll(BodyOf(more[0]), ES.Attached(p, h, body), more[1..]);
  }

  lemma {:induction false} HandlerIsPart(p: ES.Process, more: seq<Attachment>, k: nat)
    requires Sound(p) && AllAreCompiled(more) && AllFit(p, more) && k < |more|
    ensures IsPart(BodyOf(more[k]), AttachAll(p, more))
    decreases |more|
  {
    FirstHandlerIsPart(p, more);
    if k > 0 {
      HandlerIsPart(ES.Attached(p, more[0].handler, more[0].body), more[1..], k - 1);
      assert more[1..][k - 1] == more[k];
    }
  }

  /** Every node is one of the process or of a handler. */
  lemma {:induction false} WhoseNode(p: ES.Process, more: seq<Attachment>, x: Id)
    requires AllFit(p, more) && x in AttachAll(p, more).nodes && x !in p.nodes
    ensures exists k :: 0 <= k < |more| && x in more[k].body.nodes
    decreases |more|
  {
    var q := ES.Attached(p, more[0].handler, more[0].body);
    if x in q.nodes {
      assert x in more[0].body.nodes;
    } else {
      WhoseNode(q, more[1..], x);
      var k :| 0 <= k < |more[1..]| && x in more[1..][k].body.nodes;
      assert x in more[k + 1].body.nodes;
    }
  }

  // ----- which scope each handler comes from

  ghost predicate ComesFrom(s: Scope, starts: seq<HandlerStart>, a: Attachment, i: nat)
    requires |starts| == |s.subs|
  {
    i < |s.subs| && s.subs[i].triggeredByEvent && HandlerCompiles(s.subs[i], starts[i]) && a == AttachmentOf(s.subs[i], starts[i])
  }

  lemma {:induction false} Source(results: seq<Result<Option<Attachment>>>, n: nat, k: nat) returns (i: nat)
    requires n <= |results| && Collect(results, n).Ok? && k < |Collect(results, n).value|
    ensures i < n && results[i] == Ok(Some(Collect(results, n).value[k]))
    decreases n
  {
    if k < |Collect(results, n - 1).value| {
      i := Source(results, n - 1, k);
    } else {
      i := n - 1;
    }
  }

  lemma {:induction false} Place(results: seq<Result<Option<Attachment>>>, n: nat, i: nat) returns (k: nat)
    requires i < n <= |results| && Collect(results, n).Ok? && results[i] != Ok(None)
    ensures k < |Collect(results, n).value| && results[i] == Ok(Some(Collect(results, n).value[k]))
    decreases n
  {
    if i == n - 1 {
      k := |Collect(results, n - 1).value|;
    } else {
      k := Place(results, n - 1, i);
    }
  }

  lemma EachComesFrom(s: Scope, starts: seq<HandlerStart>, k: nat) returns (i: nat)
    requires |starts| == |s.subs| && Handlers(s, starts).Ok? && k < |Handlers(s, starts).value|
    ensures ComesFrom(s, starts, Handlers(s, starts).value[k], i)
  {
    i := Source(Results(s, starts), |s.subs|, k);
    assert Results(s, starts)[i] == HandlerAt(s, starts, i);
  }

  lemma EachIsCollected(s: Scope, starts: seq<HandlerStart>, i: nat) returns (k: nat)
    requires |starts| == |s.subs| && Handlers(s, starts).Ok? && i < |s.subs| && s.subs[i].triggeredByEvent
    ensures k < |Handlers(s, starts).value| && ComesFrom(s, starts, Handlers(s, starts).value[k], i)
  {
    assert Results(s, starts)[i] == HandlerAt(s, starts, i);
    k := Place(Results(s, starts), |s.subs|, i);
  }

  // ----- the paths of what is deployed

  /** A part of a process: the process itself, or one of its event sub-processes. */
  function Part(s: Scope, part: Option<nat>): Scope
    requires part.Some? ==> part.value < |s.subs|
  {
    if part.None? then s else s.subs[part.value]
  }

  function RoleOf(part: Option<nat>): Role { if part.None? then Process else Handler }

  predicate IsPartOf(s: Scope, part: Option<nat>) {
    part.Some? ==> part.value < |s.subs| && s.subs[part.value].triggeredByEvent
  }

  ghost function RegionOf(s: Scope, part: Option<nat>): set<Id>
    requires IsPartOf(s, part)
  {
    Region(Part(s, part), RoleOf(part))
  }

  /** Identifiers are distinct in the whole document. */
  ghost predicate IdsAreDistinct(s: Scope) {
    && (forall part | IsPartOf(s, part) :: WellScoped(Part(s, part), RoleOf(part)))
    && (forall a, b | IsPartOf(s, a) && IsPartOf(s, b) && a != b :: RegionOf(s, a) !! RegionOf(s, b))
  }

  ghost function Deployed(s: Scope, starts: seq<HandlerStart>): ES.Process
    requires |starts| == |s.subs| && Deploys(s, starts)
  {
    AttachAll(MainProcess(s), Handlers(s, starts).value)
  }

  ghost function GraphOf(s: Scope, part: Option<nat>): Builder
    requires IsPartOf(s, part)
  {
    Graph(Part(s, part), RoleOf(part))
  }

  lemma HandlersAreCompiled(s: Scope, starts: seq<HandlerStart>)
    requires |starts| == |s.subs| && Deploys(s, starts)
    ensures AllAreCompiled(Handlers(s, starts).value)
  {
    var more := Handlers(s, starts).value;
    forall k | 0 <= k < |more| ensures IsCompiled(more[k].handler, more[k].body) {
      var i := EachComesFrom(s, starts, k);
    }
  }

  lemma MainIsPart(s: Scope, starts: seq<HandlerStart>)
    requires |starts| == |s.subs| && Deploys(s, starts)
    ensures IsPart(Graph(s, Process), Deployed(s, starts)) && Sound(Deployed(s, starts))
  {
    var main, more := MainProcess(s), Handlers(s, starts).value;
    ValidatedIsSound(main.nodes, main.flows);
    HandlersAreCompiled(s, starts);
    PartStaysInAll(Graph(s, Process), main, more);
    AttachAllKeepsSound(main, more);
  }

  lemma SubIsPart(s: Scope, starts: seq<HandlerStart>, i: nat)
    requires |starts| == |s.subs| && Deploys(s, starts) && i < |s.subs| && s.subs[i].triggeredByEvent
    ensures HandlerCompiles(s.subs[i], starts[i]) && IsPart(Graph(s.subs[i], Handler), Deployed(s, starts))
  {
    var main, more := MainProcess(s), Handlers(s, starts).value;
    ValidatedIsSound(main.nodes, main.flows);
    HandlersAreCompiled(s, starts);
    var k := EachIsCollected(s, starts, i);
    HandlerIsPart(main, more, k);
    assert BodyOf(more[k]) == Graph(s.subs[i], Handler);
  }

  lemma PartIsDeployed(s: Scope, starts: seq<HandlerStart>, part: Option<nat>)
    requires |starts| == |s.subs| && Deploys(s, starts) && IdsAreDistinct(s) && IsPartOf(s, part)
    ensures Deployable(Part(s, part), RoleOf(part)) && IsPart(GraphOf(s, part), Deployed(s, starts))
  {
    if part.None? {
      MainIsPart(s, starts);
    } else {
      SubIsPart(s, starts, part.value);
    }
  }

  lemma NodeIsOfPart(s: Scope, starts: seq<HandlerStart>, x: Id) returns (part: Option<nat>)
    requires |starts| == |s.subs| && Deploys(s, starts) && x in Deployed(s, starts).nodes
    ensures IsPartOf(s, part) && x in GraphOf(s, part).nodes
  {
    var main, more := MainProcess(s), Handlers(s, starts).value;
    if x in main.nodes {
      part := None;
    } else {
      WhoseNode(main, more, x);
      var k :| 0 <= k < |more| && x in more[k].body.nodes;
      var i := EachComesFrom(s, starts, k);
      part := Some(i);
    }
  }

  lemma NodesAreInRegion(s: Scope, starts: seq<HandlerStart>, part: Option<nat>)
    requires |starts| == |s.subs| && Deploys(s, starts) && IdsAreDistinct(s) && IsPartOf(s, part)
    ensures RefersTo(GraphOf(s, part).nodes, RegionOf(s, part)) && GraphOf(s, part).nodes.Keys <= RegionOf(s, part)
  {
    PartIsDeployed(s, starts, part);
    GraphRefers(Part(s, part), RoleOf(part));
  }

  lemma RegionsAreApart(s: Scope, starts: seq<HandlerStart>, part: Option<nat>, x: Id)
    requires |starts| == |s.subs| && Deploys(s, starts) && IdsAreDistinct(s) && IsPartOf(s, part)
    requires x in RegionOf(s, part) && x in Deployed(s, starts).nodes
    ensures x in GraphOf(s, part).nodes
  {
    var other := NodeIsOfPart(s, starts, x);
    NodesAreInRegion(s, starts, other);
  }

  /** Each part is closed in what is deployed. */
  lemma PartIsClosed(s: Scope, starts: seq<HandlerStart>, part: Option<nat>)
    requires |starts| == |s.subs| && Deploys(s, starts) && IdsAreDistinct(s) && IsPartOf(s, part)
    ensures IsClosed(GraphOf(s, part), Deployed(s, starts), RegionOf(s, part))
  {
    var g, p := GraphOf(s, part), Deployed(s, starts);
    PartIsDeployed(s, starts, part);
    MainIsPart(s, starts);
    NodesAreInRegion(s, starts, part);
    forall x | x in RegionOf(s, part) && x in p.nodes ensures x in g.nodes {
      RegionsAreApart(s, starts, part, x);
    }
  }

  /** From a node of the process, or of a handler, what is deployed steps as that part alone does. */
  lemma DeployedStep(s: Scope, starts: seq<HandlerStart>, part: Option<nat>, x: Id, y: Id)
    requires |starts| == |s.subs| && Deploys(s, starts) && IdsAreDistinct(s) && IsPartOf(s, part)
    requires x in GraphOf(s, part).nodes
    ensures FlatStep(Whole(Deployed(s, starts)), x, y) <==> FlatStep(GraphOf(s, part), x, y)
  {
    PartIsClosed(s, starts, part);
    StepOfPart(GraphOf(s, part), Deployed(s, starts), RegionOf(s, part), x, y);
  }

  lemma SamePaths(step: (Id, Id) -> bool, other: (Id, Id) -> bool, q: seq<Id>)
    requires forall x, y :: step(x, y) <==> other(x, y)
    ensures Path(step, q) <==> Path(other, q)
  {
  }

  /** Every path through what is deployed, with entries, returns and link jumps, is a path through the nested
      process or handler it begins in, with the erased nodes left out. */
  lemma DeployedPathIsNested(s: Scope, starts: seq<HandlerStart>, part: Option<nat>, q: seq<Id>) returns (p: seq<Id>)
    requires |starts| == |s.subs| && Deploys(s, starts) && IdsAreDistinct(s) && IsPartOf(s, part)
    requires Path(Steps(Whole(Deployed(s, starts))), q) && q != [] && q[0] in GraphOf(s, part).nodes
    ensures Path(Nested(Part(s, part), RoleOf(part)), p) && p != [] && p[0] == q[0]
    ensures Erase(NodeIds(Part(s, part), RoleOf(part)), p) == q
  {
    PartIsClosed(s, starts, part);
    PartIsDeployed(s, starts, part);
    PathOfPart(GraphOf(s, part), Deployed(s, starts), RegionOf(s, part), q);
    SamePaths(Steps(GraphOf(s, part)), Flat(Part(s, part), RoleOf(part)), q);
    p := FlatPathIsNested(Part(s, part), RoleOf(part), q);
  }

  /** And every path through the nested process or a handler is, without the erased nodes, one through what is
      deployed. */
  lemma NestedPathIsDeployed(s: Scope, starts: seq<HandlerStart>, part: Option<nat>, p: seq<Id>)
    requires |starts| == |s.subs| && Deploys(s, starts) && IdsAreDistinct(s) && IsPartOf(s, part)
    requires Path(Nested(Part(s, part), RoleOf(part)), p) && p != [] && p[0] in GraphOf(s, part).nodes
    ensures Path(Steps(Whole(Deployed(s, starts))), Erase(NodeIds(Part(s, part), RoleOf(part)), p))
  {
    var q := Erase(NodeIds(Part(s, part), RoleOf(part)), p);
    PartIsClosed(s, starts, part);
    PartIsDeployed(s, starts, part);
    NestedPathIsFlat(Part(s, part), RoleOf(part), p);
    SamePaths(Steps(GraphOf(s, part)), Flat(Part(s, part), RoleOf(part)), q);
    PathOfPart(GraphOf(s, part), Deployed(s, starts), RegionOf(s, part), q);
  }

  /** A token in what is deployed can go on if and only if it is not where its part stops. */
  lemma DeployedProgress(s: Scope, starts: seq<HandlerStart>, part: Option<nat>, x: Id)
    requires |starts| == |s.subs| && Deploys(s, starts) && IdsAreDistinct(s) && IsPartOf(s, part)
    requires x in GraphOf(s, part).nodes
    ensures (exists y :: FlatStep(Whole(Deployed(s, starts)), x, y)) <==> !Stops(Part(s, part), RoleOf(part), [], x)
  {
    PartIsDeployed(s, starts, part);
    ProgressIsExact(Part(s, part), RoleOf(part), x);
    forall y ensures FlatStep(Whole(Deployed(s, starts)), x, y) <==> FlatStep(GraphOf(s, part), x, y) {
      DeployedStep(s, starts, part, x, y);
    }
  }
}
