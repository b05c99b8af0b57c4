/** Compiling a nested process into one flat graph: the builder's operations as a
    list per scope, and the methods that carry them out. */
module Flatten {
  import opened Common
  import opened Definition
  import opened BpmnModel

  // ----- the builder

  datatype Builder = Builder(nodes: Nodes, flows: Flows)

  datatype Item = Node(id: Id, element: Element) | Edge(source: Id, flow: SequenceFlow)

  function Add(b: Builder, item: Item): Builder {
    match item
    case Node(id, element) => b.(nodes := b.nodes[id := element])
    case Edge(source, flow) => b.(flows := b.flows[source := Outgoing(b.flows, source) + [flow]])
  }

  function Build(b: Builder, items: seq<Item>): Builder {
    if items == [] then b else Add(Build(b, items[..|items| - 1]), items[|items| - 1])
  }

  lemma {:induction false} BuildTwice(b: Builder, xs: seq<Item>, ys: seq<Item>)
    ensures Build(b, xs + ys) == Build(Build(b, xs), ys)
    decreases |ys|
  {
    if ys == [] {
      assert xs + ys == xs;
    } else {
      var n := |ys| - 1;
      assert (xs + ys)[..|xs + ys| - 1] == xs + ys[..n];
      BuildTwice(b, xs, ys[..n]);
    }
  }

  lemma BuildOne(b: Builder, xs: seq<Item>, x: Item)
    ensures Build(b, xs + [x]) == Add(Build(b, xs), x)
  {
    assert (xs + [x])[..|xs|] == xs;
  }

  // ----- what each scope contributes

  predicate Forks(s: Scope) { s.starts != [] && |OutFlows(s.flows, s.starts[0].id)| > 1 }

  /** Where a token entering an embedded scope continues. */
  function Entry(s: Scope): Id {
    var out := if s.starts == [] then [] else OutFlows(s.flows, s.starts[0].id);
    if |out| == 1 then out[0].target else if s.starts == [] then BLANK else s.starts[0].id
  }

  /** An embedded scope's single-exit start is passed through and gets no node. */
  predicate StartIsErased(s: Scope, role: Role, id: Id) {
    role.Embedded? && s.starts != [] && id == s.starts[0].id && !Forks(s)
  }

  function StartItems(s: Scope, role: Role): seq<Item> {
    match role
    case Process => seq(|s.starts|, i requires 0 <= i < |s.starts| => Node(s.starts[i].id, StartEvent(s.starts[i].kind)))
    case Handler => if s.starts == [] then [] else [Node(s.starts[0].id, StartEvent(PlainStart))]
    case Embedded =>
      [Node(s.id, EmbeddedSubProcess(Entry(s)))]
      + if Forks(s) then [Node(s.starts[0].id, Gateway(Parallel))] else []
  }

  function EndElement(s: Scope, role: Role): Element {
    if role.Embedded? then SubProcessEndEvent(s.id) else EndEvent
  }

  function EndItems(s: Scope, role: Role, n: nat): seq<Item>
    requires n <= |s.ends|
  {
    seq(n, i requires 0 <= i < n => Node(s.ends[i].id, EndElement(s, role)))
  }

  function PartItems(s: Scope, n: nat): seq<Item>
    requires n <= |s.parts|
  {
    seq(n, i requires 0 <= i < n =>
      Node(s.parts[i].id, if s.parts[i].element.Some? then s.parts[i].element.value else Activity))
  }

  /** A throw is a node and a synthetic flow to where its link continues. */
  function ThrowItems(s: Scope, n: nat): seq<Item>
    requires n <= |s.throws|
  {
    if n == 0 then []
    else
      var target := LinkTarget(s, s.throws[n - 1]);
      ThrowItems(s, n - 1)
      + [Node(s.throws[n - 1].id, LinkThrowEvent(target)), Edge(s.throws[n - 1].id, SequenceFlow(target, None))]
  }

  predicate IsKept(s: Scope, role: Role, f: Flow) {
    !StartIsErased(s, role, f.source) && !IsCatch(s, f.source)
  }

  function FlowItems(s: Scope, role: Role, n: nat): seq<Item>
    requires n <= |s.flows|
  {
    if n == 0 then []
    else
      var f := s.flows[n - 1];
      FlowItems(s, role, n - 1)
      + if IsKept(s, role, f) then [Edge(f.source, SequenceFlow(f.target, f.condition))] else []
  }

  function OwnItems(s: Scope, role: Role): seq<Item> {
    StartItems(s, role) + EndItems(s, role, |s.ends|) + PartItems(s, |s.parts|)
    + ThrowItems(s, |s.throws|) + FlowItems(s, role, |s.flows|)
  }

  function Concat(lists: seq<seq<Item>>, n: nat): seq<Item>
    requires n <= |lists|
  {
    if n == 0 then [] else Concat(lists, n - 1) + lists[n - 1]
  }

  /** Everything `s` and the scopes embedded in it contribute. Event sub-processes
      of a process are handlers of their own. */
  function Items(s: Scope, role: Role): seq<Item>
    decreases s, 1
  {
    OwnItems(s, role) + SubItems(s, role)
  }

  function SubItems(s: Scope, role: Role): seq<Item>
    decreases s, 0, 1
  {
    Concat(SubLists(s, role), |s.subs|)
  }

  function SubLists(s: Scope, role: Role): (lists: seq<seq<Item>>)
    ensures |lists| == |s.subs|
    decreases s, 0, 0
  {
    seq(|s.subs|, i requires 0 <= i < |s.subs| => if IsNested(s, role, i) then Items(s.subs[i], Embedded) else [])
  }

  predicate IsNested(s: Scope, role: Role, i: nat)
    requires i < |s.subs|
  {
    !(role.Process? && s.subs[i].triggeredByEvent)
  }

  // ----- which scopes compile

  predicate StartsAreProper(s: Scope, role: Role) {
    && (!role.Process? ==> |s.starts| == 1)
    && (forall i | 0 <= i < |s.starts| :: !s.starts[i].conditional)
    && (role.Embedded? ==> OutFlows(s.flows, s.starts[0].id) != [])
    && (role.Handler? ==> |OutFlows(s.flows, s.starts[0].id)| == 1)
  }

  predicate ThrowsAreProper(s: Scope, n: nat)
    requires n <= |s.throws|
  {
    n == 0 || (ThrowsAreProper(s, n - 1) && ThrowIsProper(s, s.throws[n - 1]))
  }

  /** The event sub-processes among the first `n` scopes are not connected by flows. */
  predicate EventSubsAreApart(s: Scope, n: nat)
    requires n <= |s.subs|
  {
    n == 0 ||
    (&& EventSubsAreApart(s, n - 1)
     && (s.subs[n - 1].triggeredByEvent ==>
           !HasIncoming(s.flows, s.subs[n - 1].id) && OutFlows(s.flows, s.subs[n - 1].id) == []))
  }

  /** Which of the scopes inside `s` compile, in order. */
  function SubVerdicts(s: Scope, role: Role): (verdicts: seq<bool>)
    ensures |verdicts| == |s.subs|
    decreases s, 0
  {
    seq(|s.subs|, i requires 0 <= i < |s.subs| => IsNested(s, role, i) ==> Accepts(s.subs[i], Embedded))
  }

  predicate AllHold(verdicts: seq<bool>, n: nat)
    requires n <= |verdicts|
  {
    n == 0 || (AllHold(verdicts, n - 1) && verdicts[n - 1])
  }

  /** What each scope inside `s` contributes, and whether it compiles. */
  ghost predicate Describes(s: Scope, role: Role, lists: seq<seq<Item>>, verdicts: seq<bool>) {
    && |lists| == |verdicts| == |s.subs|
    && (forall i {:trigger IsNested(s, role, i)} | 0 <= i < |s.subs| ::
          && (verdicts[i] <==> IsNested(s, role, i) ==> Accepts(s.subs[i], Embedded))
          && lists[i] == if IsNested(s, role, i) then Items(s.subs[i], Embedded) else [])
  }

  predicate OwnIsProper(s: Scope, role: Role) {
    && LinksAreProper(s)
    && StartsAreProper(s, role)
    && (forall i | 0 <= i < |s.ends| :: !s.ends[i].cancel)
    && (forall i | 0 <= i < |s.parts| :: s.parts[i].element.Some?)
    && ThrowsAreProper(s, |s.throws|)
  }

  predicate Accepts(s: Scope, role: Role)
    decreases s, 1
  {
    && !(role.Embedded? && s.triggeredByEvent) && !s.transaction
    && OwnIsProper(s, role)
    && (role.Process? ==> EventSubsAreApart(s, |s.subs|))
    && AllHold(SubVerdicts(s, role), |s.subs|)
  }

  // ----- the compiler

  lemma HandlerStart(s: Scope, b: Builder)
    requires s.starts != []
    ensures Build(b, StartItems(s, Handler)) == Add(b, Node(s.starts[0].id, StartEvent(PlainStart)))
  {
    BuildOne(b, [], Node(s.starts[0].id, StartEvent(PlainStart)));
  }

  lemma EmbeddedStart(s: Scope, b: Builder)
    requires s.starts != []
    ensures Build(b, StartItems(s, Embedded)) ==
            var entered := Add(b, Node(s.id, EmbeddedSubProcess(Entry(s))));
            if Forks(s) then Add(entered, Node(s.starts[0].id, Gateway(Parallel))) else entered
  {
    var node, fork := Node(s.id, EmbeddedSubProcess(Entry(s))), Node(s.starts[0].id, Gateway(Parallel));
    BuildOne(b, [], node);
    BuildOne(b, [node], fork);
    assert [] + [node] == [node] && [node] + [] == [node];
  }

  method AddStart(s: Scope, role: Role, b: Builder) returns (r: Result<Builder>)
    requires !role.Process?
    ensures r.Ok? <==> StartsAreProper(s, role)
    ensures r.Ok? ==> r.value == Build(b, StartItems(s, role))
  {
    if |s.starts| != 1 || s.starts[0].conditional {
      return Err;
    }
    var start := s.starts[0].id;
    var out := CollectOutFlows(s.flows, start);
    if |out| == 0 || (role.Handler? && |out| > 1) {
      return Err;
    }
    if role.Handler? {
      HandlerStart(s, b);
      r := Ok(Add(b, Node(start, StartEvent(PlainStart))));
    } else {
      EmbeddedStart(s, b);
      var forks := |out| > 1;
      var entered := Add(b, Node(s.id, EmbeddedSubProcess(if forks then start else out[0].target)));
      r := Ok(if forks then Add(entered, Node(start, Gateway(Parallel))) else entered);
    }
  }

  method AddProcessStarts(s: Scope, b: Builder) returns (r: Result<Builder>)
    ensures r.Ok? <==> StartsAreProper(s, Process)
    ensures r.Ok? ==> r.value == Build(b, StartItems(s, Process))
  {
    ghost var items := StartItems(s, Process);
    var builder := b;
    for i := 0 to |s.starts|
      invariant forall k | 0 <= k < i :: !s.starts[k].conditional
      invariant builder == Build(b, items[..i])
    {
      if s.starts[i].conditional {
        return Err;
      }
      var node := Node(s.starts[i].id, StartEvent(s.starts[i].kind));
      assert items[..i + 1] == items[..i] + [node];
      BuildOne(b, items[..i], node);
      builder := Add(builder, node);
    }
    assert items[..|s.starts|] == items;
    r := Ok(builder);
  }

  method AddEnds(s: Scope, role: Role, b: Builder) returns (r: Result<Builder>)
    ensures r.Ok? <==> forall i | 0 <= i < |s.ends| :: !s.ends[i].cancel
    ensures r.Ok? ==> r.value == Build(b, EndItems(s, role, |s.ends|))
  {
    var builder := b;
    for i := 0 to |s.ends|
      invariant forall k | 0 <= k < i :: !s.ends[k].cancel
      invariant builder == Build(b, EndItems(s, role, i))
    {
      if s.ends[i].cancel {
        return Err;
      }
      var node := Node(s.ends[i].id, EndElement(s, role));
      assert EndItems(s, role, i + 1) == EndItems(s, role, i) + [node];
      BuildOne(b, EndItems(s, role, i), node);
      builder := Add(builder, node);
    }
    r := Ok(builder);
  }

  method AddParts(s: Scope, b: Builder) returns (r: Result<Builder>)
    ensures r.Ok? <==> forall i | 0 <= i < |s.parts| :: s.parts[i].element.Some?
    ensures r.Ok? ==> r.value == Build(b, PartItems(s, |s.parts|))
  {
    var builder := b;
    for i := 0 to |s.parts|
      invariant forall k | 0 <= k < i :: s.parts[k].element.Some?
      invariant builder == Build(b, PartItems(s, i))
    {
      if s.parts[i].element.None? {
        return Err;
      }
      var node := Node(s.parts[i].id, s.parts[i].element.value);
      assert PartItems(s, i + 1) == PartItems(s, i) + [node];
      BuildOne(b, PartItems(s, i), node);
      builder := Add(builder, node);
    }
    r := Ok(builder);
  }

  lemma LinksAgree(s: Scope, links: LinkScope, t: Link)
    requires Resolves(s.catches, s.flows, links)
    ensures t.name in links.targets <==> FindCatch(s.catches, t.name).Some?
    ensures t.name in links.targets ==> links.targets[t.name] == LinkTarget(s, t)
    ensures IsCatch(s, t.id) <==> t.id in links.catchIds
  {
  }

  lemma TwoMoreItems(b: Builder, xs: seq<Item>, x: Item, y: Item)
    ensures Build(b, xs + [x, y]) == Add(Add(Build(b, xs), x), y)
  {
    BuildOne(b, xs, x);
    BuildOne(b, xs + [x], y);
    assert xs + [x, y] == xs + [x] + [y];
  }

  lemma {:induction false} EachThrowIsProper(s: Scope, i: nat, n: nat)
    requires i < n <= |s.throws|
    ensures ThrowsAreProper(s, n) ==> ThrowIsProper(s, s.throws[i])
    decreases n
  {
    if i < n - 1 { EachThrowIsProper(s, i, n - 1); }
  }

  lemma {:induction false} StayApart(s: Scope, m: nat, n: nat)
    requires m <= n <= |s.subs|
    ensures EventSubsAreApart(s, n) ==> EventSubsAreApart(s, m)
    decreases n
  {
    if m < n { StayApart(s, m, n - 1); }
  }

  lemma ThrowResolves(s: Scope, links: LinkScope, t: Link)
    requires Resolves(s.catches, s.flows, links)
    ensures ThrowIsProper(s, t) <==> t.name != BLANK && OutFlows(s.flows, t.id) == [] && t.name in links.targets
    ensures t.name in links.targets ==> links.targets[t.name] == LinkTarget(s, t)
  {
    LinksAgree(s, links, t);
  }

  function ThrowAdded(s: Scope, t: Link, b: Builder): Builder {
    var target := LinkTarget(s, t);
    Add(Add(b, Node(t.id, LinkThrowEvent(target))), Edge(t.id, SequenceFlow(target, None)))
  }

  lemma OneMoreThrow(s: Scope, b: Builder, i: nat)
    requires i < |s.throws|
    ensures Build(b, ThrowItems(s, i + 1)) == ThrowAdded(s, s.throws[i], Build(b, ThrowItems(s, i)))
  {
    var t, target := s.throws[i], LinkTarget(s, s.throws[i]);
    TwoMoreItems(b, ThrowItems(s, i), Node(t.id, LinkThrowEvent(target)), Edge(t.id, SequenceFlow(target, None)));
  }

  method AddThrow(s: Scope, links: LinkScope, t: Link, b: Builder) returns (r: Result<Builder>)
    requires Resolves(s.catches, s.flows, links)
    ensures r.Ok? <==> ThrowIsProper(s, t)
    ensures r.Ok? ==> r.value == ThrowAdded(s, t, b)
  {
    var out := CollectOutFlows(s.flows, t.id);
    ThrowResolves(s, links, t);
    if t.name == BLANK || out != [] || t.name !in links.targets {
      return Err;
    }
    var target := links.targets[t.name];
    r := Ok(Add(Add(b, Node(t.id, LinkThrowEvent(target))), Edge(t.id, SequenceFlow(target, None))));
  }

  method AddThrows(s: Scope, links: LinkScope, b: Builder) returns (r: Result<Builder>)
    requires Resolves(s.catches, s.flows, links)
    ensures r.Ok? <==> ThrowsAreProper(s, |s.throws|)
    ensures r.Ok? ==> r.value == Build(b, ThrowItems(s, |s.throws|))
  {
    var builder := b;
    for i := 0 to |s.throws|
      invariant ThrowsAreProper(s, i)
      invariant builder == Build(b, ThrowItems(s, i))
    {
      OneMoreThrow(s, b, i);
      var next := AddThrow(s, links, s.throws[i], builder);
      if next.Err? {
        EachThrowIsProper(s, i, |s.throws|);
        return Err;
      }
      builder := next.value;
    }
    r := Ok(builder);
  }

  lemma OneMoreFlow(s: Scope, role: Role, b: Builder, i: nat)
    requires i < |s.flows|
    ensures var f, before := s.flows[i], Build(b, FlowItems(s, role, i));
            Build(b, FlowItems(s, role, i + 1)) ==
            if IsKept(s, role, f) then Add(before, Edge(f.source, SequenceFlow(f.target, f.condition))) else before
  {
    var f, items := s.flows[i], FlowItems(s, role, i);
    BuildOne(b, items, Edge(f.source, SequenceFlow(f.target, f.condition)));
    assert items + [] == items;
  }

  method AddFlows(s: Scope, role: Role, links: LinkScope, b: Builder) returns (r: Builder)
    requires Resolves(s.catches, s.flows, links)
    ensures r == Build(b, FlowItems(s, role, |s.flows|))
  {
    r := b;
    var startOut := [];
    if s.starts != [] {
      startOut := CollectOutFlows(s.flows, s.starts[0].id);
    }
    for i := 0 to |s.flows|
      invariant r == Build(b, FlowItems(s, role, i))
    {
      var f := s.flows[i];
      LinksAgree(s, links, Link(f.source, BLANK));
      OneMoreFlow(s, role, b, i);
      if role.Embedded? && s.starts != [] && f.source == s.starts[0].id && |startOut| <= 1 {
        continue;
      }
      if f.source in links.catchIds {
        continue;
      }
      r := Add(r, Edge(f.source, SequenceFlow(f.target, f.condition)));
    }
  }

  lemma BuildInFive(b: Builder, v: seq<Item>, w: seq<Item>, x: seq<Item>, y: seq<Item>, z: seq<Item>)
    ensures Build(b, v + w + x + y + z) == Build(Build(Build(Build(Build(b, v), w), x), y), z)
  {
    BuildTwice(b, v, w);
    BuildTwice(b, v + w, x);
    BuildTwice(b, v + w + x, y);
    BuildTwice(b, v + w + x + y, z);
  }

  /** Everything of `s` but the scopes inside it. */
  method AddOwn(s: Scope, role: Role, b: Builder) returns (r: Result<Builder>)
    ensures r.Ok? <==> OwnIsProper(s, role)
    ensures r.Ok? ==> r.value == Build(b, OwnItems(s, role))
  {
    var links :- ResolveLinkScope(s);
    var b1;
    if role.Process? {
      b1 :- AddProcessStarts(s, b);
    } else {
      b1 :- AddStart(s, role, b);
    }
    var b2 :- AddEnds(s, role, b1);
    var b3 :- AddParts(s, b2);
    var b4 :- AddThrows(s, links, b3);
    var b5 := AddFlows(s, role, links, b4);
    BuildInFive(b, StartItems(s, role), EndItems(s, role, |s.ends|), PartItems(s, |s.parts|),
                ThrowItems(s, |s.throws|), FlowItems(s, role, |s.flows|));
    r := Ok(b5);
  }

  method CheckEventSubs(s: Scope) returns (apart: bool)
    ensures apart <==> EventSubsAreApart(s, |s.subs|)
  {
    for i := 0 to |s.subs|
      invariant EventSubsAreApart(s, i)
    {
      var out := CollectOutFlows(s.flows, s.subs[i].id);
      if s.subs[i].triggeredByEvent && (HasIncoming(s.flows, s.subs[i].id) || out != []) {
        StayApart(s, i + 1, |s.subs|);
        return false;
      }
    }
    apart := true;
  }

  lemma OneMoreList(own: Builder, lists: seq<seq<Item>>, i: nat)
    requires i < |lists|
    ensures Build(own, Concat(lists, i + 1)) == Build(Build(own, Concat(lists, i)), lists[i])
  {
    BuildTwice(own, Concat(lists, i), lists[i]);
  }

  lemma {:induction false} EachHolds(verdicts: seq<bool>, i: nat, n: nat)
    requires i < n <= |verdicts| && AllHold(verdicts, n)
    ensures verdicts[i]
  {
    if i < n - 1 { EachHolds(verdicts, i, n - 1); }
  }

  /** `flatten_subprocess`, and with the role of a process the main part of `compile_process`. */
  method FlattenScope(s: Scope, role: Role, b: Builder) returns (r: Result<Builder>)
    ensures r.Ok? <==> Accepts(s, role)
    ensures r.Ok? ==> r.value == Build(b, Items(s, role))
    decreases s, 1
  {
    if (role.Embedded? && s.triggeredByEvent) || s.transaction {
      return Err;
    }
    var own :- AddOwn(s, role, b);
    if role.Process? {
      var apart := CheckEventSubs(s);
      if !apart {
        return Err;
      }
    }
    r := FlattenSubs(s, role, SubLists(s, role), SubVerdicts(s, role), own);
    BuildTwice(b, OwnItems(s, role), SubItems(s, role));
  }

  method FlattenSubs(s: Scope, role: Role, ghost lists: seq<seq<Item>>, ghost verdicts: seq<bool>, own: Builder)
    returns (r: Result<Builder>)
    requires Describes(s, role, lists, verdicts)
    ensures r.Ok? <==> AllHold(verdicts, |verdicts|)
    ensures r.Ok? ==> r.value == Build(own, Concat(lists, |lists|))
    decreases s, 0, 1
  {
    r := Ok(own);
    for i := 0 to |s.subs|
      invariant AllHold(verdicts, i)
      invariant r == Ok(Build(own, Concat(lists, i)))
    {
      OneMoreList(own, lists, i);
      r := FlattenSub(s, role, lists, verdicts, i, r.value);
      if r.Err? {
        if AllHold(verdicts, |verdicts|) { EachHolds(verdicts, i, |verdicts|); }
        return;
      }
    }
  }

  method FlattenSub(s: Scope, role: Role, ghost lists: seq<seq<Item>>, ghost verdicts: seq<bool>, i: nat, b: Builder)
    returns (r: Result<Builder>)
    requires i < |s.subs| && Describes(s, role, lists, verdicts)
    ensures r.Ok? <==> verdicts[i]
    ensures r.Ok? ==> r.value == Build(b, lists[i])
    decreases s, 0, 0
  {
    assert IsNested(s, role, i) <==> !(role.Process? && s.subs[i].triggeredByEvent);
    if role.Process? && s.subs[i].triggeredByEvent {
      return Ok(b);
    }
    r := FlattenScope(s.subs[i], Embedded, b);
  }

  /** The graph a process or handler compiles to, if the definition's checks accept it. */
  method Compile(s: Scope, role: Role) returns (r: Result<Builder>)
    ensures r.Ok? <==> Accepts(s, role) && WellFormed(Graph(s, role).nodes, Graph(s, role).flows)
    ensures r.Ok? ==> r.value == Graph(s, role)
  {
    var builder :- FlattenScope(s, role, Builder(map[], map[]));
    var ok := Validate(builder.nodes, builder.flows);
    r := if ok then Ok(builder) else Err;
  }

  function Graph(s: Scope, role: Role): Builder { Build(Builder(map[], map[]), Items(s, role)) }
}
