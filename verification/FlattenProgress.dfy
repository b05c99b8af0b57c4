/** Where a token in a deployed process can go on, and where it stops. */
module FlattenProgress {
  import opened Common
  import opened Definition
  import opened BpmnModel
  import opened Flatten
  import opened FlattenPlaces
  import opened FlattenEdges
  import opened FlattenPaths

  predicate LeadsToItself(s: Scope) {
    s.starts != [] && |OutFlows(s.flows, s.starts[0].id)| == 1 && OutFlows(s.flows, s.starts[0].id)[0].target == s.starts[0].id
  }

  /** A compensation boundary event without flows. */
  predicate IsLoose(s: Scope, p: Part) {
    p.element.Some? && p.element.value.BoundaryEvent? && p.element.value.compensation && OutFlows(s.flows, p.id) == []
  }

  /** A token stops at an end of the process, at an end of a sub-process that leads nowhere, at a compensation boundary
      event without flows, and at a sub-process whose start leads to itself. */
  ghost predicate StopsHere(s: Scope, role: Role, out: seq<SequenceFlow>, x: Id) {
    || (x in EndIds(s) && (!role.Embedded? || out == []))
    || (exists i | 0 <= i < |s.parts| :: s.parts[i].id == x && IsLoose(s, s.parts[i]))
    || (exists i | 0 <= i < |s.subs| :: IsNested(s, role, i) && s.subs[i].id == x && LeadsToItself(s.subs[i]))
  }

  /** The same in `s` or any scope embedded in it; `out` is where `s` itself leads. */
  ghost predicate Stops(s: Scope, role: Role, out: seq<SequenceFlow>, x: Id)
    decreases s, 1
  {
    || StopsHere(s, role, out, x)
    || exists i | 0 <= i < |s.subs| :: IsNested(s, role, i) && StopsIn(s, i, x)
  }

  ghost predicate StopsIn(s: Scope, i: nat, x: Id)
    requires i < |s.subs|
    decreases s, 0
  {
    Stops(s.subs[i], Embedded, OutFlows(s.flows, s.subs[i].id), x)
  }

  ghost predicate GoesOn(g: Builder, x: Id) { exists y :: FlatStep(g, x, y) }

  ghost predicate IsConnected(g: Builder) { forall id | id in g.nodes :: NodeIsConnected(g.nodes, g.flows, id) }

  // ----- stops are where their node is declared

  lemma StopIsDeclared(s: Scope, role: Role, out: seq<SequenceFlow>, x: Id)
    requires StopsHere(s, role, out, x)
    ensures x in Declared(s)
  {
  }

  lemma {:induction false} StopIsInRegion(s: Scope, role: Role, out: seq<SequenceFlow>, x: Id)
    requires Stops(s, role, out, x)
    ensures x in Region(s, role)
    decreases s
  {
    if StopsHere(s, role, out, x) {
      StopIsDeclared(s, role, out, x);
    } else {
      var i :| 0 <= i < |s.subs| && IsNested(s, role, i) && StopsIn(s, i, x);
      StopIsInRegion(s.subs[i], Embedded, OutFlows(s.flows, s.subs[i].id), x);
      RegionHas(s, role, i, |s.subs|);
    }
  }

  lemma StopOfDeclared(s: Scope, role: Role, out: seq<SequenceFlow>, x: Id)
    requires WellScoped(s, role) && x in Declared(s)
    ensures Stops(s, role, out, x) <==> StopsHere(s, role, out, x)
  {
    if i :| 0 <= i < |s.subs| && IsNested(s, role, i) && StopsIn(s, i, x) {
      assert Region(s.subs[i], Embedded) !! Declared(s);
      StopIsInRegion(s.subs[i], Embedded, OutFlows(s.flows, s.subs[i].id), x);
    }
  }

  lemma StopOfSub(s: Scope, role: Role, out: seq<SequenceFlow>, i: nat, x: Id)
    requires WellScoped(s, role) && i < |s.subs| && IsNested(s, role, i) && x in Region(s.subs[i], Embedded)
    ensures Stops(s, role, out, x) <==> StopsIn(s, i, x)
  {
    assert Region(s.subs[i], Embedded) !! Declared(s);
    if StopsHere(s, role, out, x) { StopIsDeclared(s, role, out, x); }
    if j :| 0 <= j < |s.subs| && j != i && IsNested(s, role, j) && StopsIn(s, j, x) {
      StopIsInRegion(s.subs[j], Embedded, OutFlows(s.flows, s.subs[j].id), x);
    }
  }

  lemma EndStops(s: Scope, role: Role, out: seq<SequenceFlow>, x: Id)
    requires OwnIdsAreDistinct(s) && x in EndIds(s)
    ensures StopsHere(s, role, out, x) <==> !role.Embedded? || out == []
  {
    assert x !in PartIds(s) && x !in SubIds(s);
  }

  lemma PartStops(s: Scope, role: Role, out: seq<SequenceFlow>, i: nat)
    requires OwnIdsAreDistinct(s) && i < |s.parts|
    ensures StopsHere(s, role, out, s.parts[i].id) <==> IsLoose(s, s.parts[i])
  {
    var x := s.parts[i].id;
    assert x in PartIds(s) && x !in EndIds(s) && x !in SubIds(s);
    assert forall j | 0 <= j < |s.parts| && s.parts[j].id == x :: j == i;
  }

  lemma SubStops(s: Scope, role: Role, out: seq<SequenceFlow>, i: nat)
    requires OwnIdsAreDistinct(s) && i < |s.subs| && IsNested(s, role, i)
    ensures StopsHere(s, role, out, s.subs[i].id) <==> LeadsToItself(s.subs[i])
  {
    var x := s.subs[i].id;
    assert x in SubIds(s) && x !in EndIds(s) && x !in PartIds(s);
    assert forall j | 0 <= j < |s.subs| && s.subs[j].id == x :: j == i;
  }

  lemma OthersDoNotStop(s: Scope, role: Role, out: seq<SequenceFlow>, x: Id)
    requires OwnIdsAreDistinct(s) && x in StartIds(s) + ThrowIds(s)
    ensures !StopsHere(s, role, out, x)
  {
    assert x !in EndIds(s) && x !in PartIds(s) && x !in SubIds(s);
  }

  // ----- one node

  /** Elements that are left along their flows. */
  predicate IsPlain(e: Element) { !IsEnd(e) && !e.EmbeddedSubProcess? && !e.LinkThrowEvent? }

  /** Such a node goes on unless it is a compensation boundary event without flows. */
  lemma PlainGoesOn(g: Builder, x: Id)
    requires FlowsStayInside(g.nodes, g.flows) && IsConnected(g) && x in g.nodes && IsPlain(g.nodes[x])
    ensures GoesOn(g, x) <==>
            !(g.nodes[x].BoundaryEvent? && g.nodes[x].compensation && Outgoing(g.flows, x) == [])
  {
    assert NodeIsConnected(g.nodes, g.flows, x);
    if Outgoing(g.flows, x) != [] {
      var y := Outgoing(g.flows, x)[0].target;
      LeadsInside(g, x, y);
      assert FlatStep(g, x, y);
    }
  }

  lemma EndGoesOn(s: Scope, role: Role, out: seq<SequenceFlow>, g: Builder, x: Id)
    requires Compiled(s, role, out, g) && x in EndIds(s)
    ensures GoesOn(g, x) <==> role.Embedded? && out != []
  {
    var i :| 0 <= i < |s.ends| && s.ends[i].id == x;
    assert x in g.nodes && g.nodes[x] == EndElement(s, role);
    if role.Embedded? && out != [] {
      var y := out[0].target;
      assert Leads(out, y);
      LeadsInside(g, s.id, y);
      assert FlatStep(g, x, y);
    }
  }

  lemma PartIsPlaced(s: Scope, role: Role, out: seq<SequenceFlow>, g: Builder, i: nat)
    requires Compiled(s, role, out, g) && i < |s.parts|
    ensures var p := s.parts[i];
            && p.element.Some? && p.id in g.nodes && g.nodes[p.id] == p.element.value
            && Outgoing(g.flows, p.id) == OutFlows(s.flows, p.id)
  {
    var x := s.parts[i].id;
    assert x in PartIds(s) && x in Declared(s);
    assert x !in ThrowIds(s) && x !in CatchIds(s) && x !in StartIds(s);
    PlainFlows(s, role, x);
  }

  lemma PartGoesOn(s: Scope, role: Role, out: seq<SequenceFlow>, g: Builder, i: nat)
    requires Compiled(s, role, out, g) && IsConnected(g) && i < |s.parts|
    ensures GoesOn(g, s.parts[i].id) <==> !IsLoose(s, s.parts[i])
  {
    PartIsPlaced(s, role, out, g, i);
    PlainGoesOn(g, s.parts[i].id);
  }

  lemma EntryGoesOn(s: Scope, out: seq<SequenceFlow>, g: Builder)
    requires Compiled(s, Embedded, out, g)
    ensures GoesOn(g, s.id) <==> !LeadsToItself(s)
  {
    EntryIsNode(s, out, g);
    assert s.id in g.nodes && g.nodes[s.id] == EmbeddedSubProcess(Entry(s));
    if !LeadsToItself(s) { assert FlatStep(g, s.id, Entry(s)); }
  }

  lemma SubGoesOn(s: Scope, role: Role, out: seq<SequenceFlow>, g: Builder, i: nat)
    requires Compiled(s, role, out, g) && i < |s.subs| && IsNested(s, role, i)
    ensures GoesOn(g, s.subs[i].id) <==> !LeadsToItself(s.subs[i])
  {
    SubIsCompiled(s, role, out, g, i);
    EntryGoesOn(s.subs[i], OutFlows(s.flows, s.subs[i].id), g);
  }

  lemma StartNodeIs(s: Scope, role: Role, nodes: Nodes, x: Id)
    requires OwnPlaced(s, role, nodes) && StartsAreProper(s, role) && x in StartIds(s) && x in nodes
    ensures nodes[x].StartEvent? || nodes[x].Gateway?
  {
    var i :| 0 <= i < |s.starts| && s.starts[i].id == x;
  }

  lemma StartGoesOn(s: Scope, role: Role, out: seq<SequenceFlow>, g: Builder, x: Id)
    requires Compiled(s, role, out, g) && IsConnected(g) && x in StartIds(s) && x in g.nodes
    ensures GoesOn(g, x)
  {
    StartNodeIs(s, role, g.nodes, x);
    PlainGoesOn(g, x);
  }

  lemma ThrowGoesOn(s: Scope, role: Role, out: seq<SequenceFlow>, g: Builder, x: Id)
    requires Compiled(s, role, out, g) && x in ThrowIds(s)
    ensures GoesOn(g, x)
  {
    var i :| 0 <= i < |s.throws| && s.throws[i].id == x;
    ThrowIsFlat(s, role, out, g, i);
  }

  lemma NodeIsNested(s: Scope, role: Role, out: seq<SequenceFlow>, g: Builder, x: Id) returns (i: nat)
    requires Compiled(s, role, out, g) && x in SubIds(s) && x in g.nodes
    ensures i < |s.subs| && s.subs[i].id == x && IsNested(s, role, i)
  {
    i :| 0 <= i < |s.subs| && s.subs[i].id == x;
  }

  lemma CatchIsNoNode(s: Scope, role: Role, out: seq<SequenceFlow>, g: Builder, x: Id)
    requires Compiled(s, role, out, g) && x in CatchIds(s)
    ensures x !in g.nodes
  {
  }

  lemma DeclaredGoesOn(s: Scope, role: Role, out: seq<SequenceFlow>, g: Builder, x: Id)
    requires Compiled(s, role, out, g) && IsConnected(g) && x in Declared(s) && x in g.nodes
    ensures GoesOn(g, x) <==> !StopsHere(s, role, out, x)
  {
    if x in EndIds(s) {
      EndGoesOn(s, role, out, g, x);
      EndStops(s, role, out, x);
    } else if x in PartIds(s) {
      var i :| 0 <= i < |s.parts| && s.parts[i].id == x;
      PartGoesOn(s, role, out, g, i);
      PartStops(s, role, out, i);
    } else if x in SubIds(s) {
      var i := NodeIsNested(s, role, out, g, x);
      SubGoesOn(s, role, out, g, i);
      SubStops(s, role, out, i);
    } else {
      if x in CatchIds(s) { CatchIsNoNode(s, role, out, g, x); }
      OthersDoNotStop(s, role, out, x);
      if x in ThrowIds(s) {
        ThrowGoesOn(s, role, out, g, x);
      } else {
        StartGoesOn(s, role, out, g, x);
      }
    }
  }

  lemma {:induction false} NodeGoesOn(s: Scope, role: Role, out: seq<SequenceFlow>, g: Builder, x: Id)
    requires Compiled(s, role, out, g) && IsConnected(g) && x in Region(s, role) && x in g.nodes
    ensures GoesOn(g, x) <==> !Stops(s, role, out, x)
    decreases s
  {
    if x in Declared(s) {
      DeclaredGoesOn(s, role, out, g, x);
      StopOfDeclared(s, role, out, x);
    } else {
      var i := RegionFinds(s, role, x, |s.subs|);
      SubIsCompiled(s, role, out, g, i);
      NodeGoesOn(s.subs[i], Embedded, OutFlows(s.flows, s.subs[i].id), g, x);
      StopOfSub(s, role, out, i, x);
    }
  }

  /** A token at a node of a deployed process, or of a deployed handler, can go on if and only if it is not at one of
      the places where the nested process stops. */
  lemma ProgressIsExact(s: Scope, role: Role, x: Id)
    requires Deployable(s, role) && x in NodeIds(s, role)
    ensures (exists y :: FlatStep(Graph(s, role), x, y)) <==> !Stops(s, role, [], x)
  {
    GraphPlacesEverything(s, role);
    NodeGoesOn(s, role, [], Graph(s, role), x);
  }
}
