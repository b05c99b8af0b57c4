/** The flat graph of a process holds its document: every node with its kind, every flow with its target and condition. */
module FlattenDocument {
  import opened Common
  import opened Definition
  import opened BpmnModel
  import opened Flatten
  import opened FlattenPlaces
  import opened FlattenEdges
  import opened FlattenPaths

  // ----- the flows of a document

  /** `picked` are, in order, the positions of the flows out of `x`. */
  ghost predicate ArePositions(flows: seq<Flow>, x: Id, picked: seq<nat>) {
    && (forall k | 0 <= k < |picked| :: picked[k] < |flows| && flows[picked[k]].source == x)
    && (forall k, l | 0 <= k < l < |picked| :: picked[k] < picked[l])
    && forall i | 0 <= i < |flows| && flows[i].source == x :: i in picked
  }

  /** `out` are the flows out of `x`, in document order, with their targets and conditions. */
  ghost predicate AreFlowsOf(flows: seq<Flow>, x: Id, picked: seq<nat>, out: seq<SequenceFlow>) {
    && ArePositions(flows, x, picked) && |out| == |picked|
    && forall k | 0 <= k < |picked| ::
         out[k].target == flows[picked[k]].target && out[k].condition == flows[picked[k]].condition
  }

  lemma PositionStays(flows: seq<Flow>, f: Flow, x: Id, picked: seq<nat>)
    requires ArePositions(flows, x, picked) && f.source != x
    ensures ArePositions(flows + [f], x, picked)
  {
    forall i | 0 <= i < |flows + [f]| && (flows + [f])[i].source == x ensures i in picked { assert flows[i].source == x; }
  }

  lemma PositionIsAdded(flows: seq<Flow>, f: Flow, x: Id, picked: seq<nat>)
    requires ArePositions(flows, x, picked) && f.source == x
    ensures ArePositions(flows + [f], x, picked + [|flows|])
  {
    var all := picked + [|flows|];
    forall i | 0 <= i < |flows + [f]| && (flows + [f])[i].source == x ensures i in all {
      if i < |flows| { assert flows[i].source == x; } else { assert all[|picked|] == i; }
    }
  }

  lemma FlowsGrow(flows: seq<Flow>, f: Flow, x: Id, picked: seq<nat>, out: seq<SequenceFlow>)
    requires AreFlowsOf(flows, x, picked, out)
    ensures if f.source == x
            then AreFlowsOf(flows + [f], x, picked + [|flows|], out + [SequenceFlow(f.target, f.condition)])
            else AreFlowsOf(flows + [f], x, picked, out)
  {
    if f.source == x { PositionIsAdded(flows, f, x, picked); } else { PositionStays(flows, f, x, picked); }
  }

  lemma {:induction false} OutFlowsAre(flows: seq<Flow>, x: Id) returns (picked: seq<nat>)
    ensures AreFlowsOf(flows, x, picked, OutFlows(flows, x))
  {
    if flows == [] {
      picked := [];
    } else {
      var n := |flows| - 1;
      var before := OutFlowsAre(flows[..n], x);
      assert flows == flows[..n] + [flows[n]];
      FlowsGrow(flows[..n], flows[n], x, before, OutFlows(flows[..n], x));
      picked := if flows[n].source == x then before + [n] else before;
    }
  }

  /** Two flows lead out of `x`. */
  ghost predicate HasTwo(flows: seq<Flow>, x: Id) {
    exists a, b :: 0 <= a < b < |flows| && flows[a].source == x && flows[b].source == x
  }

  lemma TwoFlows(flows: seq<Flow>, x: Id)
    ensures HasTwo(flows, x) <==> |OutFlows(flows, x)| > 1
  {
    var picked := OutFlowsAre(flows, x);
    if |picked| > 1 {
      assert picked[0] < picked[1] && flows[picked[0]].source == x && flows[picked[1]].source == x;
    }
    if a, b :| 0 <= a < b < |flows| && flows[a].source == x && flows[b].source == x {
      assert a in picked && b in picked;
      var k :| 0 <= k < |picked| && picked[k] == a;
      var l :| 0 <= l < |picked| && picked[l] == b;
    }
  }

  lemma OnlyFlow(flows: seq<Flow>, x: Id) returns (k: nat)
    requires OutFlows(flows, x) != []
    ensures k < |flows| && flows[k].source == x && flows[k].target == OutFlows(flows, x)[0].target
    ensures !HasTwo(flows, x) ==> forall i | 0 <= i < |flows| && flows[i].source == x :: i == k
  {
    var picked := OutFlowsAre(flows, x);
    k := picked[0];
    TwoFlows(flows, x);
    if !HasTwo(flows, x) {
      assert picked == [k];
    }
  }

  // ----- one scope in the graph

  /** A start of a process keeps its kind, that of a handler is plain, and that of an embedded scope is a parallel
      gateway if it forks and no node at all if it does not. */
  ghost predicate StartMirrors(s: Scope, role: Role, start: Start, nodes: Nodes) {
    match role
    case Process => start.id in nodes && nodes[start.id] == StartEvent(start.kind)
    case Handler => start.id in nodes && nodes[start.id] == StartEvent(PlainStart)
    case Embedded =>
      if HasTwo(s.flows, start.id) then start.id in nodes && nodes[start.id] == Gateway(Parallel) else start.id !in nodes
  }

  ghost predicate StartsMirror(s: Scope, role: Role, nodes: Nodes) {
    forall i | 0 <= i < |s.starts| :: StartMirrors(s, role, s.starts[i], nodes)
  }

  /** An embedded scope is entered at its start if that forks, and else where the only flow out of it leads. */
  ghost predicate SelfMirrors(s: Scope, nodes: Nodes) {
    && |s.starts| == 1 && s.id in nodes && nodes[s.id].EmbeddedSubProcess?
    && if HasTwo(s.flows, s.starts[0].id) then nodes[s.id].startNodeId == s.starts[0].id
       else exists k :: 0 <= k < |s.flows| && s.flows[k].source == s.starts[0].id && s.flows[k].target == nodes[s.id].startNodeId
  }

  ghost predicate EndsMirror(s: Scope, role: Role, nodes: Nodes) {
    forall i | 0 <= i < |s.ends| ::
      s.ends[i].id in nodes && nodes[s.ends[i].id] == if role == Embedded then SubProcessEndEvent(s.id) else EndEvent
  }

  ghost predicate PartsMirror(s: Scope, nodes: Nodes) {
    forall i | 0 <= i < |s.parts| ::
      s.parts[i].element.Some? && s.parts[i].id in nodes && nodes[s.parts[i].id] == s.parts[i].element.value
  }

  /** The throw leads to where the flow out of the catch of its name does. */
  ghost predicate ThrowMirrors(s: Scope, t: Link, nodes: Nodes) {
    t.id in nodes &&
    exists j, k :: 0 <= j < |s.catches| && 0 <= k < |s.flows| && s.catches[j].name == t.name
      && s.flows[k].source == s.catches[j].id && nodes[t.id] == LinkThrowEvent(s.flows[k].target)
  }

  ghost predicate LinksMirror(s: Scope, nodes: Nodes) {
    && (forall i | 0 <= i < |s.catches| :: s.catches[i].id !in nodes)
    && (forall i | 0 <= i < |s.throws| :: ThrowMirrors(s, s.throws[i], nodes))
  }

  /** Nothing leads out of a catch or of the start of an embedded scope that is passed through, a throw leads to its
      target, and every other flow is there. */
  ghost predicate FlowsMirror(s: Scope, role: Role, g: Builder, x: Id) {
    if x in CatchIds(s) || (role == Embedded && |s.starts| == 1 && x == s.starts[0].id && !HasTwo(s.flows, x)) then
      Outgoing(g.flows, x) == []
    else if x in ThrowIds(s) then
      x in g.nodes && g.nodes[x].LinkThrowEvent? && Outgoing(g.flows, x) == [SequenceFlow(g.nodes[x].target, None)]
    else exists picked :: AreFlowsOf(s.flows, x, picked, Outgoing(g.flows, x))
  }

  ghost predicate OwnMirrors(s: Scope, role: Role, g: Builder) {
    && StartsMirror(s, role, g.nodes) && EndsMirror(s, role, g.nodes) && PartsMirror(s, g.nodes)
    && LinksMirror(s, g.nodes) && (role == Embedded ==> SelfMirrors(s, g.nodes))
    && forall x | x in Declared(s) :: FlowsMirror(s, role, g, x)
  }

  /** The graph holds `s` and every scope embedded in it; event sub-processes of a process are not in it. */
  ghost predicate Mirrors(s: Scope, role: Role, g: Builder)
    decreases s, 1
  {
    && OwnMirrors(s, role, g)
    && forall i | 0 <= i < |s.subs| :: SubMirrors(s, role, i, g)
  }

  ghost predicate SubMirrors(s: Scope, role: Role, i: nat, g: Builder)
    requires i < |s.subs|
    decreases s, 0
  {
    if role == Process && s.subs[i].triggeredByEvent then s.subs[i].id !in g.nodes else Mirrors(s.subs[i], Embedded, g)
  }

  // ----- compiled scopes are mirrored

  lemma StartsAreMirrored(s: Scope, role: Role, out: seq<SequenceFlow>, g: Builder)
    requires Compiled(s, role, out, g)
    ensures StartsMirror(s, role, g.nodes)
  {
    forall i | 0 <= i < |s.starts| ensures StartMirrors(s, role, s.starts[i], g.nodes) {
      assert s.starts[i].id in StartIds(s);
      TwoFlows(s.flows, s.starts[i].id);
    }
  }

  lemma SelfIsMirrored(s: Scope, out: seq<SequenceFlow>, g: Builder)
    requires Compiled(s, Embedded, out, g)
    ensures SelfMirrors(s, g.nodes)
  {
    TwoFlows(s.flows, s.starts[0].id);
    var k := OnlyFlow(s.flows, s.starts[0].id);
    assert g.nodes[s.id] == EmbeddedSubProcess(Entry(s));
  }

  lemma EndsAreMirrored(s: Scope, role: Role, out: seq<SequenceFlow>, g: Builder)
    requires Compiled(s, role, out, g)
    ensures EndsMirror(s, role, g.nodes)
  {
    forall i | 0 <= i < |s.ends| ensures s.ends[i].id in EndIds(s) { }
  }

  lemma ThrowIsMirrored(s: Scope, role: Role, out: seq<SequenceFlow>, g: Builder, i: nat)
    requires Compiled(s, role, out, g) && i < |s.throws|
    ensures ThrowMirrors(s, s.throws[i], g.nodes)
  {
    EachThrowIsProper(s, i, |s.throws|);
    var j := CatchOf(s, s.throws[i]);
    assert CatchIsProper(s.flows, s.catches[j]);
    var k := OnlyFlow(s.flows, s.catches[j].id);
    assert s.throws[i].id in g.nodes && g.nodes[s.throws[i].id] == LinkThrowEvent(LinkTarget(s, s.throws[i]));
  }

  lemma PartsAreMirrored(s: Scope, role: Role, out: seq<SequenceFlow>, g: Builder)
    requires Compiled(s, role, out, g)
    ensures PartsMirror(s, g.nodes)
  {
    forall i | 0 <= i < |s.parts| ensures s.parts[i].id in PartIds(s) { }
  }

  lemma LinksAreMirrored(s: Scope, role: Role, out: seq<SequenceFlow>, g: Builder)
    requires Compiled(s, role, out, g)
    ensures LinksMirror(s, g.nodes)
  {
    forall i | 0 <= i < |s.catches| ensures s.catches[i].id in CatchIds(s) { }
    forall i | 0 <= i < |s.throws| ensures ThrowMirrors(s, s.throws[i], g.nodes) {
      ThrowIsMirrored(s, role, out, g, i);
    }
  }

  lemma ErasedFlows(s: Scope, role: Role, out: seq<SequenceFlow>, g: Builder, x: Id)
    requires Compiled(s, role, out, g) && x in Declared(s) && SourceIsErased(s, role, x)
    ensures Outgoing(g.flows, x) == []
  {
    assert x !in ThrowIds(s) by {
      if IsCatch(s, x) { assert x in CatchIds(s); } else { assert x in StartIds(s); }
    }
    assert forall i | 0 <= i < |s.throws| :: s.throws[i].id in ThrowIds(s);
    NoThrowEdge(s, x, |s.throws|);
  }

  lemma ThrowFlows(s: Scope, role: Role, out: seq<SequenceFlow>, g: Builder, i: nat)
    requires Compiled(s, role, out, g) && i < |s.throws|
    ensures var x := s.throws[i].id;
            x in g.nodes && g.nodes[x].LinkThrowEvent? && Outgoing(g.flows, x) == [SequenceFlow(g.nodes[x].target, None)]
  {
    var x := s.throws[i].id;
    EachThrowIsProper(s, i, |s.throws|);
    ThrowEdge(s, i, |s.throws|);
    assert x in ThrowIds(s) && x in Declared(s);
    assert OutFlows(s.flows, x) == [];
    assert g.nodes[x] == LinkThrowEvent(LinkTarget(s, s.throws[i]));
  }

  lemma PlainFlowsAre(s: Scope, role: Role, out: seq<SequenceFlow>, g: Builder, x: Id)
    requires Compiled(s, role, out, g) && x in Declared(s) && x !in ThrowIds(s) && !SourceIsErased(s, role, x)
    ensures exists picked :: AreFlowsOf(s.flows, x, picked, Outgoing(g.flows, x))
  {
    PlainFlows(s, role, x);
    var picked := OutFlowsAre(s.flows, x);
  }

  lemma ErasedIs(s: Scope, role: Role, x: Id)
    requires StartsAreProper(s, role)
    ensures SourceIsErased(s, role, x) <==>
            x in CatchIds(s) || (role == Embedded && |s.starts| == 1 && x == s.starts[0].id && !HasTwo(s.flows, x))
  {
    TwoFlows(s.flows, x);
  }

  lemma FlowsAreMirrored(s: Scope, role: Role, out: seq<SequenceFlow>, g: Builder, x: Id)
    requires Compiled(s, role, out, g) && x in Declared(s)
    ensures FlowsMirror(s, role, g, x)
  {
    ErasedIs(s, role, x);
    if SourceIsErased(s, role, x) {
      ErasedFlows(s, role, out, g, x);
    } else if x in ThrowIds(s) {
      var i :| 0 <= i < |s.throws| && s.throws[i].id == x;
      ThrowFlows(s, role, out, g, i);
    } else {
      PlainFlowsAre(s, role, out, g, x);
    }
  }

  lemma OwnIsMirrored(s: Scope, role: Role, out: seq<SequenceFlow>, g: Builder)
    requires Compiled(s, role, out, g)
    ensures OwnMirrors(s, role, g)
  {
    StartsAreMirrored(s, role, out, g);
    EndsAreMirrored(s, role, out, g);
    PartsAreMirrored(s, role, out, g);
    LinksAreMirrored(s, role, out, g);
    if role.Embedded? { SelfIsMirrored(s, out, g); }
    AllFlowsAreMirrored(s, role, out, g);
  }

  lemma AllFlowsAreMirrored(s: Scope, role: Role, out: seq<SequenceFlow>, g: Builder)
    requires Compiled(s, role, out, g)
    ensures forall x | x in Declared(s) :: FlowsMirror(s, role, g, x)
  {
    forall x | x in Declared(s) ensures FlowsMirror(s, role, g, x) { FlowsAreMirrored(s, role, out, g, x); }
  }

  lemma {:induction false} CompiledIsMirrored(s: Scope, role: Role, out: seq<SequenceFlow>, g: Builder)
    requires Compiled(s, role, out, g)
    ensures Mirrors(s, role, g)
    decreases s
  {
    OwnIsMirrored(s, role, out, g);
    forall i | 0 <= i < |s.subs| ensures SubMirrors(s, role, i, g) {
      if IsNested(s, role, i) {
        SubIsCompiled(s, role, out, g, i);
        CompiledIsMirrored(s.subs[i], Embedded, OutFlows(s.flows, s.subs[i].id), g);
      }
    }
  }

  /** The graph of a deployable process or handler holds its whole document, at any depth. */
  lemma GraphMirrorsDocument(s: Scope, role: Role)
    requires Deployable(s, role)
    ensures Mirrors(s, role, Graph(s, role)) && Graph(s, role).nodes.Keys <= Region(s, role)
  {
    GraphPlacesEverything(s, role);
    CompiledIsMirrored(s, role, [], Graph(s, role));
  }

  // ----- which documents are accepted

  ghost predicate HasSome(flows: seq<Flow>, x: Id) { exists i :: 0 <= i < |flows| && flows[i].source == x }

  ghost predicate HasOne(flows: seq<Flow>, x: Id) { HasSome(flows, x) && !HasTwo(flows, x) }

  ghost predicate IsReached(flows: seq<Flow>, x: Id) { exists i :: 0 <= i < |flows| && flows[i].target == x }

  /** A process may have any number of starts; a sub-process has one that leads somewhere, and an event sub-process one
      with a single flow. Conditional starts are refused. */
  ghost predicate StartsAreAllowed(s: Scope, role: Role) {
    && (forall i | 0 <= i < |s.starts| :: !s.starts[i].conditional)
    && match role
       case Process => true
       case Embedded => |s.starts| == 1 && HasSome(s.flows, s.starts[0].id)
       case Handler => |s.starts| == 1 && HasOne(s.flows, s.starts[0].id)
  }

  /** Link catches have names of their own, nothing leads to them, and one flow leads on. A link throw has the name of a
      catch, and nothing leads on. */
  ghost predicate LinksAreAllowed(s: Scope) {
    && (forall i | 0 <= i < |s.catches| ::
          s.catches[i].name != 0 && !IsReached(s.flows, s.catches[i].id) && HasOne(s.flows, s.catches[i].id))
    && (forall i, j | 0 <= i < j < |s.catches| :: s.catches[i].name != s.catches[j].name)
    && (forall i | 0 <= i < |s.throws| ::
          && s.throws[i].name != 0 && !HasSome(s.flows, s.throws[i].id)
          && exists j :: 0 <= j < |s.catches| && s.catches[j].name == s.throws[i].name)
  }

  ghost predicate OwnIsAllowed(s: Scope, role: Role) {
    && !s.transaction && !(role == Embedded && s.triggeredByEvent)
    && StartsAreAllowed(s, role) && LinksAreAllowed(s)
    && (forall i | 0 <= i < |s.ends| :: !s.ends[i].cancel)
    && (forall i | 0 <= i < |s.parts| :: s.parts[i].element.Some?)
  }

  /** What the compiler demands of a document, at any depth. Event sub-processes of a process have no flows. */
  ghost predicate IsAllowed(s: Scope, role: Role)
    decreases s, 1
  {
    OwnIsAllowed(s, role) && forall i | 0 <= i < |s.subs| :: SubIsAllowed(s, role, i)
  }

  ghost predicate SubIsAllowed(s: Scope, role: Role, i: nat)
    requires i < |s.subs|
    decreases s, 0
  {
    if role == Process && s.subs[i].triggeredByEvent then
      !IsReached(s.flows, s.subs[i].id) && !HasSome(s.flows, s.subs[i].id)
    else IsAllowed(s.subs[i], Embedded)
  }

  lemma SomeFlow(flows: seq<Flow>, x: Id)
    ensures HasSome(flows, x) <==> OutFlows(flows, x) != []
    ensures HasOne(flows, x) <==> |OutFlows(flows, x)| == 1
  {
    var picked := OutFlowsAre(flows, x);
    TwoFlows(flows, x);
    if picked != [] { assert flows[picked[0]].source == x; }
    if i :| 0 <= i < |flows| && flows[i].source == x { assert i in picked; }
  }

  lemma StartsAgree(s: Scope, role: Role)
    ensures StartsAreProper(s, role) <==> StartsAreAllowed(s, role)
  {
    if s.starts != [] { SomeFlow(s.flows, s.starts[0].id); }
  }

  lemma CatchesAgree(s: Scope)
    ensures LinksAreProper(s) <==>
            && (forall i | 0 <= i < |s.catches| ::
                  s.catches[i].name != 0 && !IsReached(s.flows, s.catches[i].id) && HasOne(s.flows, s.catches[i].id))
            && (forall i, j | 0 <= i < j < |s.catches| :: s.catches[i].name != s.catches[j].name)
  {
    forall i | 0 <= i < |s.catches|
      ensures CatchIsProper(s.flows, s.catches[i]) <==>
              s.catches[i].name != 0 && !IsReached(s.flows, s.catches[i].id) && HasOne(s.flows, s.catches[i].id)
    {
      SomeFlow(s.flows, s.catches[i].id);
    }
  }

  lemma ThrowAgrees(s: Scope, t: Link)
    ensures ThrowIsProper(s, t) <==>
            && t.name != 0 && !HasSome(s.flows, t.id)
            && exists j :: 0 <= j < |s.catches| && s.catches[j].name == t.name
  {
    SomeFlow(s.flows, t.id);
    FindCatchIs(s.catches, t.name);
    if FindCatch(s.catches, t.name).Some? { var j := CatchOf(s, t); }
  }

  lemma {:induction false} ThrowsAgree(s: Scope, n: nat)
    requires n <= |s.throws|
    ensures ThrowsAreProper(s, n) <==> forall i | 0 <= i < n :: ThrowIsProper(s, s.throws[i])
  {
    if n > 0 { ThrowsAgree(s, n - 1); }
  }

  lemma LinksAgree(s: Scope)
    ensures LinksAreProper(s) && ThrowsAreProper(s, |s.throws|) <==> LinksAreAllowed(s)
  {
    CatchesAgree(s);
    ThrowsAgree(s, |s.throws|);
    forall i | 0 <= i < |s.throws|
      ensures ThrowIsProper(s, s.throws[i]) <==>
              && s.throws[i].name != 0 && !HasSome(s.flows, s.throws[i].id)
              && exists j :: 0 <= j < |s.catches| && s.catches[j].name == s.throws[i].name
    {
      ThrowAgrees(s, s.throws[i]);
    }
  }

  lemma {:induction false} EventSubsAgree(s: Scope, n: nat)
    requires n <= |s.subs|
    ensures EventSubsAreApart(s, n) <==>
            forall i | 0 <= i < n && s.subs[i].triggeredByEvent ::
              !IsReached(s.flows, s.subs[i].id) && !HasSome(s.flows, s.subs[i].id)
  {
    if n > 0 {
      EventSubsAgree(s, n - 1);
      SomeFlow(s.flows, s.subs[n - 1].id);
    }
  }

  lemma {:induction false} AllAgree(verdicts: seq<bool>, n: nat)
    requires n <= |verdicts|
    ensures AllHold(verdicts, n) <==> forall i | 0 <= i < n :: verdicts[i]
  {
    if n > 0 { AllAgree(verdicts, n - 1); }
  }

  lemma OwnAgrees(s: Scope, role: Role)
    ensures !(role.Embedded? && s.triggeredByEvent) && !s.transaction && OwnIsProper(s, role) <==> OwnIsAllowed(s, role)
  {
    StartsAgree(s, role);
    LinksAgree(s);
  }

  lemma AcceptsIs(s: Scope, role: Role)
    ensures Accepts(s, role) <==>
            && OwnIsAllowed(s, role)
            && (role == Process ==> forall i | 0 <= i < |s.subs| && s.subs[i].triggeredByEvent ::
                                      !IsReached(s.flows, s.subs[i].id) && !HasSome(s.flows, s.subs[i].id))
            && forall i | 0 <= i < |s.subs| && IsNested(s, role, i) :: Accepts(s.subs[i], Embedded)
  {
    OwnAgrees(s, role);
    EventSubsAgree(s, |s.subs|);
    AllAgree(SubVerdicts(s, role), |s.subs|);
    assert forall i | 0 <= i < |s.subs| :: SubVerdicts(s, role)[i] == (IsNested(s, role, i) ==> Accepts(s.subs[i], Embedded));
  }

  /** The compiler accepts exactly the documents that meet its demands. */
  lemma {:induction false} AcceptsExactly(s: Scope, role: Role)
    ensures Accepts(s, role) <==> IsAllowed(s, role)
    decreases s
  {
    AcceptsIs(s, role);
    forall i | 0 <= i < |s.subs| && IsNested(s, role, i)
      ensures Accepts(s.subs[i], Embedded) <==> SubIsAllowed(s, role, i)
    {
      AcceptsExactly(s.subs[i], Embedded);
    }
    if Accepts(s, role) {
      forall i | 0 <= i < |s.subs| ensures SubIsAllowed(s, role, i) {
        assert IsNested(s, role, i) || (role == Process && s.subs[i].triggeredByEvent);
      }
    }
    if IsAllowed(s, role) {
      forall i | 0 <= i < |s.subs| && IsNested(s, role, i) ensures Accepts(s.subs[i], Embedded) {
        assert SubIsAllowed(s, role, i);
      }
      forall i | 0 <= i < |s.subs| && role == Process && s.subs[i].triggeredByEvent
        ensures !IsReached(s.flows, s.subs[i].id) && !HasSome(s.flows, s.subs[i].id)
      {
        assert SubIsAllowed(s, role, i);
      }
    }
  }
}
