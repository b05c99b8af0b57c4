/** Where a scope's elements end up: with document-wide distinct IDs and scope-local
    flows, the flat graph holds each scope's nodes and flows untouched by the others. */
module FlattenPlaces {
  import opened Common
  import opened Definition
  import opened BpmnModel
  import opened Flatten

  // ----- the ids of a scope

  ghost function StartIds(s: Scope): set<Id> { set i | 0 <= i < |s.starts| :: s.starts[i].id }

  ghost function EndIds(s: Scope): set<Id> { set i | 0 <= i < |s.ends| :: s.ends[i].id }

  ghost function PartIds(s: Scope): set<Id> { set i | 0 <= i < |s.parts| :: s.parts[i].id }

  ghost function CatchIds(s: Scope): set<Id> { set i | 0 <= i < |s.catches| :: s.catches[i].id }

  ghost function ThrowIds(s: Scope): set<Id> { set i | 0 <= i < |s.throws| :: s.throws[i].id }

  ghost function SubIds(s: Scope): set<Id> { set i | 0 <= i < |s.subs| :: s.subs[i].id }

  /** The flow nodes declared directly in `s`, its sub-processes among them. */
  ghost function Declared(s: Scope): set<Id> {
    StartIds(s) + EndIds(s) + PartIds(s) + CatchIds(s) + ThrowIds(s) + SubIds(s)
  }

  /** Everything declared in `s` and in the scopes embedded in it. */
  ghost function Region(s: Scope, role: Role): set<Id>
    decreases s, 1
  {
    Declared(s) + SubRegion(s, role, |s.subs|)
  }

  ghost function SubRegion(s: Scope, role: Role, n: nat): set<Id>
    requires n <= |s.subs|
    decreases s, 0, n
  {
    if n == 0 then {}
    else SubRegion(s, role, n - 1) + if IsNested(s, role, n - 1) then Region(s.subs[n - 1], Embedded) else {}
  }

  /** The nodes an embedded scope brings: its region and itself. */
  ghost function Zone(s: Scope): set<Id> { Region(s, Embedded) + {s.id} }

  ghost predicate DistinctLinks(links: seq<Link>) {
    forall i, j | 0 <= i < j < |links| :: links[i].id != links[j].id
  }

  ghost predicate DistinctParts(parts: seq<Part>) {
    forall i, j | 0 <= i < j < |parts| :: parts[i].id != parts[j].id
  }

  ghost predicate OwnIdsAreDistinct(s: Scope) {
    && (forall i, j | 0 <= i < j < |s.starts| :: s.starts[i].id != s.starts[j].id)
    && DistinctParts(s.parts)
    && DistinctLinks(s.catches) && DistinctLinks(s.throws)
    && (forall i, j | 0 <= i < j < |s.subs| :: s.subs[i].id != s.subs[j].id)
    && StartIds(s) !! EndIds(s) !! PartIds(s) !! CatchIds(s) !! ThrowIds(s) !! SubIds(s)
  }

  ghost predicate FlowsAreLocal(s: Scope) {
    forall i | 0 <= i < |s.flows| :: s.flows[i].source in Declared(s) && s.flows[i].target in Declared(s)
  }

  /** Document-wide distinct IDs, and flows that stay in their scope. */
  ghost predicate WellScoped(s: Scope, role: Role)
    decreases s
  {
    && OwnIdsAreDistinct(s)
    && FlowsAreLocal(s)
    && (forall i | 0 <= i < |s.subs| && IsNested(s, role, i) ::
          WellScoped(s.subs[i], Embedded) && Region(s.subs[i], Embedded) !! Declared(s))
    && (forall i, j | 0 <= i < j < |s.subs| && IsNested(s, role, i) && IsNested(s, role, j) ::
          Region(s.subs[i], Embedded) !! Region(s.subs[j], Embedded))
  }

  lemma {:induction false} RegionHas(s: Scope, role: Role, i: nat, n: nat)
    requires i < n <= |s.subs| && IsNested(s, role, i)
    ensures Region(s.subs[i], Embedded) <= SubRegion(s, role, n)
    decreases n
  {
    if i < n - 1 { RegionHas(s, role, i, n - 1); }
  }

  lemma {:induction false} RegionFinds(s: Scope, role: Role, x: Id, n: nat) returns (i: nat)
    requires n <= |s.subs| && x in SubRegion(s, role, n)
    ensures i < n && IsNested(s, role, i) && x in Region(s.subs[i], Embedded)
    decreases n
  {
    if IsNested(s, role, n - 1) && x in Region(s.subs[n - 1], Embedded) {
      i := n - 1;
    } else {
      i := RegionFinds(s, role, x, n - 1);
    }
  }

  // ----- the nodes and edges of an item list

  function NodesOf(items: seq<Item>): Nodes {
    if items == [] then map[]
    else
      var rest, last := NodesOf(items[..|items| - 1]), items[|items| - 1];
      if last.Node? then rest[last.id := last.element] else rest
  }

  function EdgesFrom(items: seq<Item>, x: Id): seq<SequenceFlow> {
    if items == [] then []
    else
      var rest, last := EdgesFrom(items[..|items| - 1], x), items[|items| - 1];
      if last.Edge? && last.source == x then rest + [last.flow] else rest
  }

  lemma {:induction false} BuildGives(b: Builder, items: seq<Item>, x: Id)
    ensures Build(b, items).nodes == b.nodes + NodesOf(items)
    ensures Outgoing(Build(b, items).flows, x) == Outgoing(b.flows, x) + EdgesFrom(items, x)
  {
    if items != [] {
      BuildGives(b, items[..|items| - 1], x);
    }
  }

  lemma {:induction false} NodesOfAppend(xs: seq<Item>, ys: seq<Item>)
    ensures NodesOf(xs + ys) == NodesOf(xs) + NodesOf(ys)
    decreases |ys|
  {
    if ys == [] {
      assert xs + ys == xs;
    } else {
      var n := |ys| - 1;
      assert (xs + ys)[..|xs + ys| - 1] == xs + ys[..n];
      NodesOfAppend(xs, ys[..n]);
    }
  }

  lemma {:induction false} EdgesFromAppend(xs: seq<Item>, ys: seq<Item>, x: Id)
    ensures EdgesFrom(xs + ys, x) == EdgesFrom(xs, x) + EdgesFrom(ys, x)
    decreases |ys|
  {
    if ys == [] {
      assert xs + ys == xs;
    } else {
      var n := |ys| - 1;
      assert (xs + ys)[..|xs + ys| - 1] == xs + ys[..n];
      EdgesFromAppend(xs, ys[..n], x);
    }
  }

  // ----- own nodes

  lemma {:induction false} EndNodes(s: Scope, role: Role, n: nat)
    requires n <= |s.ends|
    ensures NodesOf(EndItems(s, role, n)).Keys == set i | 0 <= i < n :: s.ends[i].id
    ensures forall x | x in NodesOf(EndItems(s, role, n)) :: NodesOf(EndItems(s, role, n))[x] == EndElement(s, role)
  {
    if n > 0 {
      EndNodes(s, role, n - 1);
      assert EndItems(s, role, n)[..n - 1] == EndItems(s, role, n - 1);
    }
  }

  lemma {:induction false} PartKeys(s: Scope, n: nat)
    requires n <= |s.parts|
    ensures NodesOf(PartItems(s, n)).Keys == set i | 0 <= i < n :: s.parts[i].id
  {
    if n > 0 {
      PartKeys(s, n - 1);
      assert PartItems(s, n)[..n - 1] == PartItems(s, n - 1);
    }
  }

  lemma {:induction false} PartNode(s: Scope, i: nat, n: nat)
    requires i < n <= |s.parts| && DistinctParts(s.parts) && s.parts[i].element.Some?
    ensures s.parts[i].id in NodesOf(PartItems(s, n))
    ensures NodesOf(PartItems(s, n))[s.parts[i].id] == s.parts[i].element.value
    decreases n
  {
    assert PartItems(s, n)[..n - 1] == PartItems(s, n - 1);
    if i < n - 1 {
      PartNode(s, i, n - 1);
    }
  }

  lemma LastItem(xs: seq<Item>, item: Item)
    ensures NodesOf(xs + [item]) == if item.Node? then NodesOf(xs)[item.id := item.element] else NodesOf(xs)
  {
    assert (xs + [item])[..|xs|] == xs;
  }

  lemma LastThrow(s: Scope, n: nat)
    requires 0 < n <= |s.throws|
    ensures NodesOf(ThrowItems(s, n)) ==
            NodesOf(ThrowItems(s, n - 1))[s.throws[n - 1].id := LinkThrowEvent(LinkTarget(s, s.throws[n - 1]))]
  {
    var before, target := ThrowItems(s, n - 1), LinkTarget(s, s.throws[n - 1]);
    var node, edge := Node(s.throws[n - 1].id, LinkThrowEvent(target)), Edge(s.throws[n - 1].id, SequenceFlow(target, None));
    LastItem(before, node);
    LastItem(before + [node], edge);
    assert before + [node, edge] == before + [node] + [edge];
  }

  lemma {:induction false} ThrowKeys(s: Scope, n: nat)
    requires n <= |s.throws|
    ensures NodesOf(ThrowItems(s, n)).Keys == set i | 0 <= i < n :: s.throws[i].id
  {
    if n > 0 {
      ThrowKeys(s, n - 1);
      LastThrow(s, n);
    }
  }

  lemma {:induction false} ThrowNode(s: Scope, i: nat, n: nat)
    requires i < n <= |s.throws| && DistinctLinks(s.throws)
    ensures s.throws[i].id in NodesOf(ThrowItems(s, n))
    ensures NodesOf(ThrowItems(s, n))[s.throws[i].id] == LinkThrowEvent(LinkTarget(s, s.throws[i]))
    decreases n
  {
    LastThrow(s, n);
    if i < n - 1 {
      ThrowNode(s, i, n - 1);
    }
  }

  lemma {:induction false} FlowNodes(s: Scope, role: Role, n: nat)
    requires n <= |s.flows|
    ensures NodesOf(FlowItems(s, role, n)) == map[]
  {
    if n > 0 {
      FlowNodes(s, role, n - 1);
      var f, before := s.flows[n - 1], FlowItems(s, role, n - 1);
      if IsKept(s, role, f) {
        LastItem(before, Edge(f.source, SequenceFlow(f.target, f.condition)));
      } else {
        assert before + [] == before;
      }
    }
  }

  lemma NodesOfFive(a: seq<Item>, b: seq<Item>, c: seq<Item>, d: seq<Item>, e: seq<Item>)
    ensures NodesOf(a + b + c + d + e) == NodesOf(a) + NodesOf(b) + NodesOf(c) + NodesOf(d) + NodesOf(e)
  {
    NodesOfAppend(a, b);
    NodesOfAppend(a + b, c);
    NodesOfAppend(a + b + c, d);
    NodesOfAppend(a + b + c + d, e);
  }

  lemma SplitOwn(s: Scope, role: Role)
    ensures NodesOf(OwnItems(s, role)) ==
            NodesOf(StartItems(s, role)) + NodesOf(EndItems(s, role, |s.ends|))
            + NodesOf(PartItems(s, |s.parts|)) + NodesOf(ThrowItems(s, |s.throws|))
  {
    NodesOfFive(StartItems(s, role), EndItems(s, role, |s.ends|), PartItems(s, |s.parts|), ThrowItems(s, |s.throws|),
                FlowItems(s, role, |s.flows|));
    FlowNodes(s, role, |s.flows|);
  }

  /** The starts of `s` that become nodes. */
  ghost function StartNodeIds(s: Scope, role: Role): set<Id> {
    match role
    case Process => StartIds(s)
    case Handler => if s.starts == [] then {} else {s.starts[0].id}
    case Embedded => {s.id} + if Forks(s) then {s.starts[0].id} else {}
  }

  lemma StartNodes(s: Scope, role: Role)
    ensures NodesOf(StartItems(s, role)).Keys == StartNodeIds(s, role)
    ensures !role.Embedded? ==> forall x | x in NodesOf(StartItems(s, role)) :: NodesOf(StartItems(s, role))[x].StartEvent?
    ensures role.Embedded? && s.starts != [] && s.starts[0].id != s.id ==>
              && NodesOf(StartItems(s, role))[s.id] == EmbeddedSubProcess(Entry(s))
              && (Forks(s) ==> NodesOf(StartItems(s, role))[s.starts[0].id] == Gateway(Parallel))
  {
    match role
    case Process => ProcessStartNodes(s, |s.starts|);
      assert StartItems(s, Process)[..|s.starts|] == StartItems(s, Process);
    case Handler =>
      if s.starts != [] { LastItem([], Node(s.starts[0].id, StartEvent(PlainStart))); }
    case Embedded =>
      var node := Node(s.id, EmbeddedSubProcess(Entry(s)));
      LastItem([], node);
      assert [] + [node] == [node];
      if Forks(s) {
        LastItem([node], Node(s.starts[0].id, Gateway(Parallel)));
      } else {
        assert [node] + [] == [node];
      }
  }

  lemma {:induction false} ProcessStartNodes(s: Scope, n: nat)
    requires n <= |s.starts|
    ensures NodesOf(StartItems(s, Process)[..n]).Keys == set i | 0 <= i < n :: s.starts[i].id
    ensures forall x | x in NodesOf(StartItems(s, Process)[..n]) :: NodesOf(StartItems(s, Process)[..n])[x].StartEvent?
  {
    if n > 0 {
      ProcessStartNodes(s, n - 1);
      var items := StartItems(s, Process);
      assert items[..n] == items[..n - 1] + [items[n - 1]];
      LastItem(items[..n - 1], items[n - 1]);
    }
  }

  lemma {:induction false} ProcessStartNode(s: Scope, i: nat, n: nat)
    requires i < n <= |s.starts| && forall i, j | 0 <= i < j < |s.starts| :: s.starts[i].id != s.starts[j].id
    ensures var nodes := NodesOf(StartItems(s, Process)[..n]);
            s.starts[i].id in nodes && nodes[s.starts[i].id] == StartEvent(s.starts[i].kind)
    decreases n
  {
    var items := StartItems(s, Process);
    assert items[..n] == items[..n - 1] + [items[n - 1]];
    LastItem(items[..n - 1], items[n - 1]);
    if i < n - 1 { ProcessStartNode(s, i, n - 1); }
  }

  lemma StartNodeKind(s: Scope, role: Role, i: nat)
    requires OwnIdsAreDistinct(s) && StartsAreProper(s, role) && i < |s.starts| && (role.Embedded? ==> s.id !in Declared(s))
    requires s.starts[i].id in NodesOf(StartItems(s, role))
    ensures NodesOf(StartItems(s, role))[s.starts[i].id] ==
            match role
            case Process => StartEvent(s.starts[i].kind)
            case Handler => StartEvent(PlainStart)
            case Embedded => Gateway(Parallel)
  {
    match role
    case Process =>
      ProcessStartNode(s, i, |s.starts|);
      assert StartItems(s, Process)[..|s.starts|] == StartItems(s, Process);
    case Handler => LastItem([], Node(s.starts[0].id, StartEvent(PlainStart)));
    case Embedded =>
      assert s.starts[0].id in StartIds(s);
      StartNodes(s, role);
  }

  ghost predicate EndsPlaced(s: Scope, role: Role, nodes: Nodes) {
    forall x | x in EndIds(s) :: x in nodes && nodes[x] == EndElement(s, role)
  }

  ghost predicate PartsPlaced(s: Scope, nodes: Nodes) {
    forall i | 0 <= i < |s.parts| && s.parts[i].element.Some? ::
      s.parts[i].id in nodes && nodes[s.parts[i].id] == s.parts[i].element.value
  }

  ghost predicate ThrowsPlaced(s: Scope, nodes: Nodes) {
    forall i | 0 <= i < |s.throws| ::
      s.throws[i].id in nodes && nodes[s.throws[i].id] == LinkThrowEvent(LinkTarget(s, s.throws[i]))
  }

  /** Catches and passed-through starts are no nodes; an embedded scope is one. */
  ghost predicate StartsPlaced(s: Scope, role: Role, nodes: Nodes) {
    && (forall x | x in CatchIds(s) :: x !in nodes)
    && (forall x | x in StartIds(s) :: x in nodes <==> !StartIsErased(s, role, x))
    && (forall x | x in StartIds(s) && x in nodes :: nodes[x].StartEvent? || nodes[x].Gateway?)
    && (role.Embedded? ==> s.id in nodes && nodes[s.id] == EmbeddedSubProcess(Entry(s)))
  }

  /** A start of a process keeps its kind, that of a handler is plain, and that of an embedded scope, if it is a node,
      a parallel gateway. */
  ghost predicate StartKindsPlaced(s: Scope, role: Role, nodes: Nodes) {
    forall i | 0 <= i < |s.starts| && s.starts[i].id in nodes ::
      match role
      case Process => nodes[s.starts[i].id] == StartEvent(s.starts[i].kind)
      case Handler => nodes[s.starts[i].id] == StartEvent(PlainStart)
      case Embedded => nodes[s.starts[i].id] == Gateway(Parallel)
  }

  /** The own nodes of `s`, as the scope declares them. */
  ghost predicate OwnPlaced(s: Scope, role: Role, nodes: Nodes) {
    && EndsPlaced(s, role, nodes) && PartsPlaced(s, nodes) && ThrowsPlaced(s, nodes)
    && StartsPlaced(s, role, nodes) && StartKindsPlaced(s, role, nodes)
  }

  lemma OwnKeys(s: Scope, role: Role)
    ensures NodesOf(OwnItems(s, role)).Keys == StartNodeIds(s, role) + EndIds(s) + PartIds(s) + ThrowIds(s)
  {
    SplitOwn(s, role);
    StartNodes(s, role);
    EndNodes(s, role, |s.ends|);
    PartKeys(s, |s.parts|);
    ThrowKeys(s, |s.throws|);
  }

  /** Each own node comes from the list of its kind. */
  lemma OwnLookup(s: Scope, role: Role, x: Id)
    requires EndIds(s) !! PartIds(s) !! ThrowIds(s)
    ensures var own := NodesOf(OwnItems(s, role));
            && (x in EndIds(s) ==> x in own && x in NodesOf(EndItems(s, role, |s.ends|))
                                   && own[x] == NodesOf(EndItems(s, role, |s.ends|))[x])
            && (x in PartIds(s) ==> x in own && x in NodesOf(PartItems(s, |s.parts|))
                                    && own[x] == NodesOf(PartItems(s, |s.parts|))[x])
            && (x in ThrowIds(s) ==> x in own && x in NodesOf(ThrowItems(s, |s.throws|))
                                     && own[x] == NodesOf(ThrowItems(s, |s.throws|))[x])
            && (x in own && x !in EndIds(s) + PartIds(s) + ThrowIds(s) ==>
                  x in NodesOf(StartItems(s, role)) && own[x] == NodesOf(StartItems(s, role))[x])
  {
    SplitOwn(s, role);
    StartNodes(s, role);
    EndNodes(s, role, |s.ends|);
    PartKeys(s, |s.parts|);
    ThrowKeys(s, |s.throws|);
  }

  lemma OwnPartsPlaced(s: Scope, role: Role)
    requires OwnIdsAreDistinct(s)
    ensures PartsPlaced(s, NodesOf(OwnItems(s, role)))
  {
    forall i | 0 <= i < |s.parts| && s.parts[i].element.Some?
      ensures s.parts[i].id in NodesOf(OwnItems(s, role))
      ensures NodesOf(OwnItems(s, role))[s.parts[i].id] == s.parts[i].element.value
    {
      assert s.parts[i].id in PartIds(s);
      PartNode(s, i, |s.parts|);
      OwnLookup(s, role, s.parts[i].id);
    }
  }

  lemma OwnThrowsPlaced(s: Scope, role: Role)
    requires OwnIdsAreDistinct(s)
    ensures ThrowsPlaced(s, NodesOf(OwnItems(s, role)))
  {
    forall i | 0 <= i < |s.throws|
      ensures s.throws[i].id in NodesOf(OwnItems(s, role))
      ensures NodesOf(OwnItems(s, role))[s.throws[i].id] == LinkThrowEvent(LinkTarget(s, s.throws[i]))
    {
      assert s.throws[i].id in ThrowIds(s);
      ThrowNode(s, i, |s.throws|);
      OwnLookup(s, role, s.throws[i].id);
    }
  }

  lemma OwnEndsPlaced(s: Scope, role: Role)
    requires OwnIdsAreDistinct(s)
    ensures EndsPlaced(s, role, NodesOf(OwnItems(s, role)))
  {
    EndNodes(s, role, |s.ends|);
    forall x | x in EndIds(s)
      ensures x in NodesOf(OwnItems(s, role)) && NodesOf(OwnItems(s, role))[x] == EndElement(s, role)
    {
      OwnLookup(s, role, x);
    }
  }

  lemma OwnStartsPlaced(s: Scope, role: Role)
    requires OwnIdsAreDistinct(s) && StartsAreProper(s, role) && (role.Embedded? ==> s.id !in Declared(s))
    ensures StartsPlaced(s, role, NodesOf(OwnItems(s, role)))
  {
    OwnKeys(s, role);
    StartNodes(s, role);
    forall x | x in StartIds(s) + {s.id} && x in NodesOf(OwnItems(s, role))
      ensures x !in Declared(s) || x in StartIds(s) ==>
                x in NodesOf(StartItems(s, role)) && NodesOf(OwnItems(s, role))[x] == NodesOf(StartItems(s, role))[x]
    {
      OwnLookup(s, role, x);
    }
  }

  lemma OwnStartKindsPlaced(s: Scope, role: Role)
    requires OwnIdsAreDistinct(s) && StartsAreProper(s, role) && (role.Embedded? ==> s.id !in Declared(s))
    ensures StartKindsPlaced(s, role, NodesOf(OwnItems(s, role)))
  {
    forall i | 0 <= i < |s.starts| && s.starts[i].id in NodesOf(OwnItems(s, role))
      ensures s.starts[i].id in NodesOf(StartItems(s, role))
      ensures NodesOf(OwnItems(s, role))[s.starts[i].id] == NodesOf(StartItems(s, role))[s.starts[i].id]
    {
      assert s.starts[i].id in StartIds(s);
      OwnLookup(s, role, s.starts[i].id);
    }
    forall i | 0 <= i < |s.starts| && s.starts[i].id in NodesOf(StartItems(s, role)) {
      StartNodeKind(s, role, i);
    }
  }

  lemma OwnIsPlaced(s: Scope, role: Role)
    requires OwnIdsAreDistinct(s) && StartsAreProper(s, role) && (role.Embedded? ==> s.id !in Declared(s))
    ensures OwnPlaced(s, role, NodesOf(OwnItems(s, role)))
  {
    OwnEndsPlaced(s, role);
    OwnPartsPlaced(s, role);
    OwnThrowsPlaced(s, role);
    OwnStartsPlaced(s, role);
    OwnStartKindsPlaced(s, role);
  }
}
