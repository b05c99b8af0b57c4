/** Flattening preserves paths: a token moves through the flat graph exactly as it
    moves through the nested process, with passed-through starts and link catches left out. */
module FlattenPaths {
  import opened Common
  import opened Erasure
  import opened Definition
  import opened BpmnModel
  import opened Flatten
  import opened FlattenPlaces
  import opened FlattenEdges

  // ----- moving through the nested process

  /** A token at a sub-process enters at its start. */
  ghost predicate Enters(s: Scope, role: Role, x: Id, y: Id) {
    exists i | 0 <= i < |s.subs| ::
      IsNested(s, role, i) && s.subs[i].id == x && s.subs[i].starts != [] && s.subs[i].starts[0].id == y
  }

  /** A token at an end of an embedded scope goes on where its sub-process leads. */
  ghost predicate Leaves(s: Scope, role: Role, out: seq<SequenceFlow>, x: Id, y: Id) {
    role.Embedded? && x in EndIds(s) && Leads(out, y)
  }

  /** A link throw continues at the catch of the same name. */
  ghost predicate Jumps(s: Scope, x: Id, y: Id) {
    exists i, j | 0 <= i < |s.throws| && 0 <= j < |s.catches| ::
      s.throws[i].id == x && s.catches[j].id == y && s.throws[i].name == s.catches[j].name
  }

  /** Every other node is left along its sequence flows. */
  ghost predicate Moves(s: Scope, x: Id, y: Id) {
    x !in EndIds(s) && x !in SubIds(s) && x !in ThrowIds(s) && Connects(s.flows, x, y)
  }

  ghost predicate LocalStep(s: Scope, role: Role, out: seq<SequenceFlow>, x: Id, y: Id) {
    Enters(s, role, x, y) || Leaves(s, role, out, x, y) || Jumps(s, x, y) || Moves(s, x, y)
  }

  /** One move of a token in `s` or any scope embedded in it; `out` is where `s` itself leads. */
  ghost predicate NestedStep(s: Scope, role: Role, out: seq<SequenceFlow>, x: Id, y: Id)
    decreases s
  {
    || LocalStep(s, role, out, x, y)
    || exists i | 0 <= i < |s.subs| :: IsNested(s, role, i) && StepIn(s, role, i, x, y)
  }

  ghost predicate StepIn(s: Scope, role: Role, i: nat, x: Id, y: Id)
    requires i < |s.subs|
    decreases s, 0
  {
    NestedStep(s.subs[i], Embedded, OutFlows(s.flows, s.subs[i].id), x, y)
  }

  // ----- moving through the flat graph, as the engine's handlers do

  ghost predicate FlatStep(g: Builder, x: Id, y: Id) {
    && x in g.nodes && y in g.nodes
    && match g.nodes[x]
       case EmbeddedSubProcess(entry) => y == entry
       case SubProcessEndEvent(id) => Leads(Outgoing(g.flows, id), y)
       case LinkThrowEvent(target) => y == target
       case EndEvent => false
       case _ => Leads(Outgoing(g.flows, x), y)
  }

  // ----- steps happen where their node is declared

  lemma LocalStepIsDeclared(s: Scope, role: Role, out: seq<SequenceFlow>, x: Id, y: Id)
    requires FlowsAreLocal(s) && LocalStep(s, role, out, x, y)
    ensures x in Declared(s)
  {
  }

  lemma {:induction false} StepIsInRegion(s: Scope, role: Role, out: seq<SequenceFlow>, x: Id, y: Id)
    requires WellScoped(s, role) && NestedStep(s, role, out, x, y)
    ensures x in Region(s, role)
    decreases s
  {
    if LocalStep(s, role, out, x, y) {
      LocalStepIsDeclared(s, role, out, x, y);
    } else {
      var i :| 0 <= i < |s.subs| && IsNested(s, role, i) && StepIn(s, role, i, x, y);
      StepIsInRegion(s.subs[i], Embedded, OutFlows(s.flows, s.subs[i].id), x, y);
      RegionHas(s, role, i, |s.subs|);
    }
  }

  lemma StepOfDeclared(s: Scope, role: Role, out: seq<SequenceFlow>, x: Id, y: Id)
    requires WellScoped(s, role) && x in Declared(s) && NestedStep(s, role, out, x, y)
    ensures LocalStep(s, role, out, x, y)
  {
    if i :| 0 <= i < |s.subs| && IsNested(s, role, i) && StepIn(s, role, i, x, y) {
      StepIsInRegion(s.subs[i], Embedded, OutFlows(s.flows, s.subs[i].id), x, y);
      assert Region(s.subs[i], Embedded) !! Declared(s);
    }
  }

  lemma StepOfSub(s: Scope, role: Role, out: seq<SequenceFlow>, i: nat, x: Id, y: Id)
    requires WellScoped(s, role) && i < |s.subs| && IsNested(s, role, i) && x in Region(s.subs[i], Embedded)
    ensures NestedStep(s, role, out, x, y) <==> StepIn(s, role, i, x, y)
  {
    assert Region(s.subs[i], Embedded) !! Declared(s);
    if LocalStep(s, role, out, x, y) {
      LocalStepIsDeclared(s, role, out, x, y);
    }
    if j :| 0 <= j < |s.subs| && j != i && IsNested(s, role, j) && StepIn(s, role, j, x, y) {
      StepIsInRegion(s.subs[j], Embedded, OutFlows(s.flows, s.subs[j].id), x, y);
    }
  }

  // ----- what the graph says about a scope's nodes

  /** A scope of the compiled tree, in its graph. */
  ghost predicate Compiled(s: Scope, role: Role, out: seq<SequenceFlow>, g: Builder) {
    && WellScoped(s, role) && Accepts(s, role) && Placed(s, role, g)
    && FlowsStayInside(g.nodes, g.flows)
    && (role.Embedded? ==> Outgoing(g.flows, s.id) == out)
  }

  lemma PlainFlows(s: Scope, role: Role, x: Id)
    requires x !in ThrowIds(s) && !SourceIsErased(s, role, x)
    ensures KeptFlows(s, role, x) == OutFlows(s.flows, x)
  {
    assert forall i | 0 <= i < |s.throws| :: s.throws[i].id in ThrowIds(s);
    NoThrowEdge(s, x, |s.throws|);
  }

  lemma SubIsCompiled(s: Scope, role: Role, out: seq<SequenceFlow>, g: Builder, i: nat)
    requires Compiled(s, role, out, g) && i < |s.subs| && IsNested(s, role, i)
    ensures Compiled(s.subs[i], Embedded, OutFlows(s.flows, s.subs[i].id), g)
  {
    var x := s.subs[i].id;
    EachSubAccepts(s, role, i);
    assert x in SubIds(s);
    assert !IsCatch(s, x) by { assert x !in CatchIds(s); }
    assert !StartIsErased(s, role, x) by { assert x !in StartIds(s); }
    PlainFlows(s, role, x);
  }

  lemma LeadsInside(g: Builder, x: Id, y: Id)
    requires FlowsStayInside(g.nodes, g.flows) && Leads(Outgoing(g.flows, x), y)
    ensures y in g.nodes
  {
  }

  /** A node that is left along its flows is left the same way in the graph. */
  lemma MovesAreFlat(s: Scope, role: Role, out: seq<SequenceFlow>, g: Builder, x: Id, y: Id)
    requires Compiled(s, role, out, g) && x in g.nodes && Moves(s, x, y)
    ensures FlatStep(g, x, y)
  {
    assert x in Declared(s);
    assert x !in CatchIds(s);
    assert !IsCatch(s, x);
    PlainFlows(s, role, x);
    OutFlowsConnect(s.flows, x, y);
    LeadsInside(g, x, y);
    if x in PartIds(s) {
      var i :| 0 <= i < |s.parts| && s.parts[i].id == x;
      assert g.nodes[x] == s.parts[i].element.value;
    } else {
      assert x in StartIds(s);
    }
  }

  lemma LeavesAreFlat(s: Scope, role: Role, out: seq<SequenceFlow>, g: Builder, x: Id, y: Id)
    requires Compiled(s, role, out, g) && Leaves(s, role, out, x, y)
    ensures FlatStep(g, x, y)
  {
    LeadsInside(g, s.id, y);
  }

  // ----- entering a sub-process

  lemma LocalStepOfStart(s: Scope, out: seq<SequenceFlow>, z: Id)
    requires OwnIdsAreDistinct(s) && StartsAreProper(s, Embedded) && !Forks(s)
    ensures LocalStep(s, Embedded, out, s.starts[0].id, z) <==> z == Entry(s)
  {
    var m := s.starts[0].id;
    assert m in StartIds(s) && m !in SubIds(s) && m !in ThrowIds(s);
    OutFlowsConnect(s.flows, m, z);
    assert OutFlows(s.flows, m)[0].target == Entry(s);
    assert Moves(s, m, z) <==> z == Entry(s);
    assert !Enters(s, Embedded, m, z) && !Jumps(s, m, z);
  }

  /** A passed-through start leads to the entry only. */
  lemma ErasedStartLeadsToEntry(s: Scope, out: seq<SequenceFlow>, z: Id)
    requires WellScoped(s, Embedded) && StartsAreProper(s, Embedded) && !Forks(s)
    ensures NestedStep(s, Embedded, out, s.starts[0].id, z) <==> z == Entry(s)
  {
    assert s.starts[0].id in StartIds(s);
    LocalStepOfStart(s, out, z);
    if NestedStep(s, Embedded, out, s.starts[0].id, z) {
      StepOfDeclared(s, Embedded, out, s.starts[0].id, z);
    }
  }

  /** Everything an embedded scope declares is a node, except catches and a passed-through start. */
  lemma DeclaredIsNode(s: Scope, out: seq<SequenceFlow>, g: Builder, z: Id)
    requires Compiled(s, Embedded, out, g) && z in Declared(s) && z !in CatchIds(s) && z != s.starts[0].id
    ensures z in g.nodes
  {
    assert StartIds(s) == {s.starts[0].id};
    if z in PartIds(s) {
      var i :| 0 <= i < |s.parts| && s.parts[i].id == z;
      assert s.parts[i].element.Some?;
    } else if z in SubIds(s) {
      var i :| 0 <= i < |s.subs| && s.subs[i].id == z;
      assert Placed(s.subs[i], Embedded, g);
    }
  }

  lemma EntryIsNodeOrStart(s: Scope, out: seq<SequenceFlow>, g: Builder)
    requires Compiled(s, Embedded, out, g) && !Forks(s)
    ensures Entry(s) in g.nodes || Entry(s) == s.starts[0].id
  {
    var m := s.starts[0].id;
    OutFlowsConnect(s.flows, m, Entry(s));
    assert OutFlows(s.flows, m)[0].target == Entry(s);
    var k :| 0 <= k < |s.flows| && s.flows[k].source == m && s.flows[k].target == Entry(s);
    assert HasIncoming(s.flows, Entry(s));
    assert Entry(s) !in CatchIds(s);
    if Entry(s) != m { DeclaredIsNode(s, out, g, Entry(s)); }
  }

  /** Going on from the erased node `m`, reached from `x`, is a flat step from `x`, or goes nowhere. */
  ghost predicate Pending(s: Scope, role: Role, out: seq<SequenceFlow>, g: Builder, x: Id, m: Id) {
    forall z :: NestedStep(s, role, out, m, z) ==> if z in g.nodes then FlatStep(g, x, z) else z == m
  }

  /** Entering a sub-process whose start forks is a flat step. */
  lemma EnterFork(s: Scope, out: seq<SequenceFlow>, g: Builder)
    requires Compiled(s, Embedded, out, g) && s.starts != [] && s.starts[0].id in g.nodes
    ensures FlatStep(g, s.id, s.starts[0].id)
  {
    assert s.starts[0].id in StartIds(s);
  }

  /** Past a passed-through start, the step from the sub-process is flat. */
  lemma EnterEntry(s: Scope, out: seq<SequenceFlow>, g: Builder, z: Id)
    requires Compiled(s, Embedded, out, g) && s.starts != [] && s.starts[0].id !in g.nodes
    requires NestedStep(s, Embedded, out, s.starts[0].id, z)
    ensures if z in g.nodes then FlatStep(g, s.id, z) else z == s.starts[0].id
  {
    assert s.starts[0].id in StartIds(s);
    ErasedStartLeadsToEntry(s, out, z);
    EntryIsNodeOrStart(s, out, g);
  }

  lemma EntersIsPending(s: Scope, role: Role, out: seq<SequenceFlow>, g: Builder, i: nat)
    requires Compiled(s, role, out, g) && i < |s.subs| && IsNested(s, role, i)
    requires s.subs[i].starts != [] && s.subs[i].starts[0].id !in g.nodes
    ensures Pending(s, role, out, g, s.subs[i].id, s.subs[i].starts[0].id)
  {
    var sub, y := s.subs[i], s.subs[i].starts[0].id;
    SubIsCompiled(s, role, out, g, i);
    assert y in StartIds(sub);
    forall z | NestedStep(s, role, out, y, z)
      ensures if z in g.nodes then FlatStep(g, sub.id, z) else z == y
    {
      StepOfSub(s, role, out, i, y, z);
      EnterEntry(sub, OutFlows(s.flows, sub.id), g, z);
    }
  }

  // ----- following a link

  lemma UniqueCatch(s: Scope, i: nat, j: nat)
    requires LinksAreProper(s) && i < |s.throws| && j < |s.catches| && s.throws[i].name == s.catches[j].name
    ensures FindCatch(s.catches, s.throws[i].name) == Some(s.catches[j])
  {
    FindCatchIs(s.catches, s.throws[i].name);
    var k := CatchOf(s, s.throws[i]);
    assert k == j;
  }

  /** A catch leads to its one target only. */
  lemma CatchMoves(s: Scope, i: nat, j: nat, z: Id)
    requires LinksAreProper(s) && i < |s.throws| && j < |s.catches| && s.throws[i].name == s.catches[j].name
    ensures Connects(s.flows, s.catches[j].id, z) <==> z == LinkTarget(s, s.throws[i])
  {
    UniqueCatch(s, i, j);
    assert CatchIsProper(s.flows, s.catches[j]);
    OutFlowsConnect(s.flows, s.catches[j].id, z);
  }

  lemma CatchLeadsToTarget(s: Scope, role: Role, out: seq<SequenceFlow>, i: nat, j: nat, z: Id)
    requires WellScoped(s, role) && LinksAreProper(s) && i < |s.throws| && j < |s.catches|
    requires s.throws[i].name == s.catches[j].name
    ensures NestedStep(s, role, out, s.catches[j].id, z) <==> z == LinkTarget(s, s.throws[i])
  {
    var m := s.catches[j].id;
    CatchMoves(s, i, j, z);
    assert m in CatchIds(s);
    if NestedStep(s, role, out, m, z) {
      StepOfDeclared(s, role, out, m, z);
      assert !Enters(s, role, m, z) && !Jumps(s, m, z) by {
        assert m !in SubIds(s) && m !in ThrowIds(s);
      }
    } else {
      assert !Moves(s, m, z);
    }
  }

  lemma ThrowIsFlat(s: Scope, role: Role, out: seq<SequenceFlow>, g: Builder, i: nat)
    requires Compiled(s, role, out, g) && i < |s.throws|
    ensures FlatStep(g, s.throws[i].id, LinkTarget(s, s.throws[i]))
  {
    var x, target := s.throws[i].id, LinkTarget(s, s.throws[i]);
    assert x in ThrowIds(s);
    ThrowEdge(s, i, |s.throws|);
    assert KeptFlows(s, role, x)[0].target == target;
    LeadsInside(g, x, target);
  }

  lemma JumpsIsPending(s: Scope, role: Role, out: seq<SequenceFlow>, g: Builder, x: Id, y: Id)
    requires Compiled(s, role, out, g) && Jumps(s, x, y)
    ensures y !in g.nodes && y in Region(s, role) && Pending(s, role, out, g, x, y)
  {
    var i, j :| 0 <= i < |s.throws| && 0 <= j < |s.catches|
             && s.throws[i].id == x && s.catches[j].id == y && s.throws[i].name == s.catches[j].name;
    assert y in CatchIds(s);
    ThrowIsFlat(s, role, out, g, i);
    forall z | NestedStep(s, role, out, y, z)
      ensures if z in g.nodes then FlatStep(g, x, z) else z == y
    {
      CatchLeadsToTarget(s, role, out, i, j, z);
    }
  }

  // ----- nested steps are flat, up to erased nodes

  /** A nested step from a node is a flat step, or reaches an erased node that only passes on. */
  ghost predicate Matched(s: Scope, role: Role, out: seq<SequenceFlow>, g: Builder, x: Id, y: Id) {
    if y in g.nodes then FlatStep(g, x, y) else y in Region(s, role) && Pending(s, role, out, g, x, y)
  }

  lemma LocalStepIsMatched(s: Scope, role: Role, out: seq<SequenceFlow>, g: Builder, x: Id, y: Id)
    requires Compiled(s, role, out, g) && x in g.nodes && LocalStep(s, role, out, x, y)
    ensures Matched(s, role, out, g, x, y)
  {
    if Moves(s, x, y) {
      MovesAreFlat(s, role, out, g, x, y);
    } else if Leaves(s, role, out, x, y) {
      LeavesAreFlat(s, role, out, g, x, y);
    } else if Jumps(s, x, y) {
      JumpsIsPending(s, role, out, g, x, y);
    } else {
      EntersIsMatched(s, role, out, g, x, y);
    }
  }

  lemma EntersIsMatched(s: Scope, role: Role, out: seq<SequenceFlow>, g: Builder, x: Id, y: Id)
    requires Compiled(s, role, out, g) && Enters(s, role, x, y)
    ensures Matched(s, role, out, g, x, y)
  {
    var i :| 0 <= i < |s.subs| && IsNested(s, role, i) && s.subs[i].id == x && s.subs[i].starts != [] && s.subs[i].starts[0].id == y;
    SubIsCompiled(s, role, out, g, i);
    if y in g.nodes {
      EnterFork(s.subs[i], OutFlows(s.flows, x), g);
    } else {
      EntersIsPending(s, role, out, g, i);
      assert y in StartIds(s.subs[i]);
      RegionHas(s, role, i, |s.subs|);
    }
  }

  lemma MatchedInSub(s: Scope, role: Role, out: seq<SequenceFlow>, g: Builder, i: nat, x: Id, y: Id)
    requires WellScoped(s, role) && i < |s.subs| && IsNested(s, role, i)
    requires Matched(s.subs[i], Embedded, OutFlows(s.flows, s.subs[i].id), g, x, y)
    ensures Matched(s, role, out, g, x, y)
  {
    if y !in g.nodes {
      RegionHas(s, role, i, |s.subs|);
      forall z | NestedStep(s, role, out, y, z)
        ensures if z in g.nodes then FlatStep(g, x, z) else z == y
      {
        StepOfSub(s, role, out, i, y, z);
      }
    }
  }

  lemma {:induction false} StepIsMatched(s: Scope, role: Role, out: seq<SequenceFlow>, g: Builder, x: Id, y: Id)
    requires Compiled(s, role, out, g) && x in g.nodes && NestedStep(s, role, out, x, y)
    ensures Matched(s, role, out, g, x, y)
    decreases s
  {
    if LocalStep(s, role, out, x, y) {
      LocalStepIsMatched(s, role, out, g, x, y);
    } else {
      var i :| 0 <= i < |s.subs| && IsNested(s, role, i) && StepIn(s, role, i, x, y);
      SubIsCompiled(s, role, out, g, i);
      StepIsMatched(s.subs[i], Embedded, OutFlows(s.flows, s.subs[i].id), g, x, y);
      MatchedInSub(s, role, out, g, i, x, y);
    }
  }

  // ----- flat steps are nested, through at most one erased node

  /** A nested step from `x` to `y`, or two through the erased node `via`. */
  ghost predicate Bridged(s: Scope, role: Role, out: seq<SequenceFlow>, g: Builder, x: Id, y: Id, via: Option<Id>) {
    match via
    case None => NestedStep(s, role, out, x, y)
    case Some(m) => m !in g.nodes && NestedStep(s, role, out, x, m) && NestedStep(s, role, out, m, y)
  }

  lemma MovesBack(s: Scope, role: Role, out: seq<SequenceFlow>, g: Builder, x: Id, y: Id)
    requires Compiled(s, role, out, g) && FlatStep(g, x, y) && x in StartIds(s) + PartIds(s)
    ensures Moves(s, x, y)
  {
    assert x in Declared(s) && x !in ThrowIds(s) && x !in CatchIds(s);
    assert !IsCatch(s, x);
    if x in PartIds(s) {
      var i :| 0 <= i < |s.parts| && s.parts[i].id == x;
      assert g.nodes[x] == s.parts[i].element.value;
    }
    PlainFlows(s, role, x);
    OutFlowsConnect(s.flows, x, y);
  }

  lemma JumpsBack(s: Scope, role: Role, out: seq<SequenceFlow>, g: Builder, x: Id, y: Id) returns (m: Id)
    requires Compiled(s, role, out, g) && FlatStep(g, x, y) && x in ThrowIds(s)
    ensures Bridged(s, role, out, g, x, y, Some(m))
  {
    var i :| 0 <= i < |s.throws| && s.throws[i].id == x;
    EachThrowIsProper(s, i, |s.throws|);
    var j := CatchOf(s, s.throws[i]);
    m := s.catches[j].id;
    assert m in CatchIds(s);
    assert g.nodes[x] == LinkThrowEvent(LinkTarget(s, s.throws[i]));
    assert Jumps(s, x, m);
    CatchLeadsToTarget(s, role, out, i, j, y);
  }

  lemma FlatEntry(s: Scope, role: Role, out: seq<SequenceFlow>, g: Builder, i: nat, y: Id)
    requires Compiled(s, role, out, g) && i < |s.subs| && IsNested(s, role, i) && FlatStep(g, s.subs[i].id, y)
    ensures |s.subs[i].starts| == 1 && s.subs[i].starts[0].id in StartIds(s.subs[i]) && y == Entry(s.subs[i])
  {
    SubIsCompiled(s, role, out, g, i);
    assert s.subs[i].starts[0].id in StartIds(s.subs[i]);
  }

  lemma EntersBack(s: Scope, role: Role, out: seq<SequenceFlow>, g: Builder, i: nat, y: Id) returns (via: Option<Id>)
    requires Compiled(s, role, out, g) && i < |s.subs| && IsNested(s, role, i) && FlatStep(g, s.subs[i].id, y)
    ensures Bridged(s, role, out, g, s.subs[i].id, y, via)
  {
    var sub, subOut := s.subs[i], OutFlows(s.flows, s.subs[i].id);
    SubIsCompiled(s, role, out, g, i);
    FlatEntry(s, role, out, g, i, y);
    var start := sub.starts[0].id;
    assert Enters(s, role, sub.id, start);
    if Forks(sub) {
      via := None;
    } else {
      via := Some(start);
      ErasedStartLeadsToEntry(sub, subOut, y);
      assert StepIn(s, role, i, start, y);
    }
  }

  lemma LocalFlatStepIsBridged(s: Scope, role: Role, out: seq<SequenceFlow>, g: Builder, x: Id, y: Id)
    returns (via: Option<Id>)
    requires Compiled(s, role, out, g) && FlatStep(g, x, y) && x in Declared(s)
    ensures Bridged(s, role, out, g, x, y, via)
  {
    if x in StartIds(s) + PartIds(s) {
      MovesBack(s, role, out, g, x, y);
      via := None;
    } else if x in EndIds(s) {
      assert Leaves(s, role, out, x, y);
      via := None;
    } else if x in ThrowIds(s) {
      var m := JumpsBack(s, role, out, g, x, y);
      via := Some(m);
    } else {
      assert x in SubIds(s);
      var i :| 0 <= i < |s.subs| && s.subs[i].id == x;
      via := EntersBack(s, role, out, g, i, y);
    }
  }

  lemma BridgedInSub(s: Scope, role: Role, out: seq<SequenceFlow>, g: Builder, i: nat, x: Id, y: Id, via: Option<Id>)
    requires i < |s.subs| && IsNested(s, role, i)
    requires Bridged(s.subs[i], Embedded, OutFlows(s.flows, s.subs[i].id), g, x, y, via)
    ensures Bridged(s, role, out, g, x, y, via)
  {
    match via
    case None => assert StepIn(s, role, i, x, y);
    case Some(m) => assert StepIn(s, role, i, x, m) && StepIn(s, role, i, m, y);
  }

  lemma {:induction false} FlatStepIsBridged(s: Scope, role: Role, out: seq<SequenceFlow>, g: Builder, x: Id, y: Id)
    returns (via: Option<Id>)
    requires Compiled(s, role, out, g) && FlatStep(g, x, y) && x in Region(s, role)
    ensures Bridged(s, role, out, g, x, y, via)
    decreases s
  {
    if x in Declared(s) {
      via := LocalFlatStepIsBridged(s, role, out, g, x, y);
    } else {
      var i := RegionFinds(s, role, x, |s.subs|);
      SubIsCompiled(s, role, out, g, i);
      via := FlatStepIsBridged(s.subs[i], Embedded, OutFlows(s.flows, s.subs[i].id), g, x, y);
      BridgedInSub(s, role, out, g, i, x, y, via);
    }
  }

  // ----- paths

  /** A process, or an event handler, whose graph the definition's checks accept. */
  ghost predicate Deployable(s: Scope, role: Role) {
    && !role.Embedded? && WellScoped(s, role)
    && Accepts(s, role) && WellFormed(Graph(s, role).nodes, Graph(s, role).flows)
  }

  /** The moves of a token through the nested process. */
  ghost function Nested(s: Scope, role: Role): (Id, Id) -> bool { (x: Id, y: Id) => NestedStep(s, role, [], x, y) }

  /** The moves of a token through the flat graph. */
  ghost function Flat(s: Scope, role: Role): (Id, Id) -> bool { (x: Id, y: Id) => FlatStep(Graph(s, role), x, y) }

  ghost function NodeIds(s: Scope, role: Role): set<Id> { Graph(s, role).nodes.Keys }

  lemma GraphSimulates(s: Scope, role: Role)
    requires Deployable(s, role)
    ensures Simulates(Nested(s, role), Flat(s, role), NodeIds(s, role))
  {
    var g := Graph(s, role);
    GraphPlacesEverything(s, role);
    forall x, y | x in g.nodes && NestedStep(s, role, [], x, y)
      ensures if y in g.nodes then FlatStep(g, x, y)
              else Erasure.Pending(Nested(s, role), Flat(s, role), NodeIds(s, role), x, y)
    {
      StepIsMatched(s, role, [], g, x, y);
    }
  }

  lemma GraphCovers(s: Scope, role: Role)
    requires Deployable(s, role)
    ensures Covers(Nested(s, role), Flat(s, role), NodeIds(s, role))
  {
    var g, step := Graph(s, role), Nested(s, role);
    GraphPlacesEverything(s, role);
    forall x, y | FlatStep(g, x, y)
      ensures step(x, y) || exists m :: m !in NodeIds(s, role) && step(x, m) && step(m, y)
    {
      var via := FlatStepIsBridged(s, role, [], g, x, y);
      if via.Some? {
        assert via.value !in NodeIds(s, role) && step(x, via.value) && step(via.value, y);
      }
    }
  }

  /** Every path through the nested process that starts at a node is, with the erased
      nodes left out, a path through the flat graph. */
  lemma NestedPathIsFlat(s: Scope, role: Role, p: seq<Id>)
    requires Deployable(s, role) && Path(Nested(s, role), p) && p != [] && p[0] in NodeIds(s, role)
    ensures Path(Flat(s, role), Erase(NodeIds(s, role), p))
  {
    GraphSimulates(s, role);
    ErasedPathIsFlat(Nested(s, role), Flat(s, role), NodeIds(s, role), p);
  }

  /** Every path through the flat graph that starts at a node is some path through the
      nested process, with the erased nodes left out. */
  lemma FlatPathIsNested(s: Scope, role: Role, q: seq<Id>) returns (p: seq<Id>)
    requires Deployable(s, role) && Path(Flat(s, role), q) && q != [] && q[0] in NodeIds(s, role)
    ensures Path(Nested(s, role), p) && p != [] && p[0] == q[0] && p[|p| - 1] == q[|q| - 1]
    ensures Erase(NodeIds(s, role), p) == q
  {
    GraphCovers(s, role);
    p := FlatPathIsErased(Nested(s, role), Flat(s, role), NodeIds(s, role), q);
  }

  // ----- the entry point

  /** The definition's checks do not look at an embedded scope's entry. Inside a compiled
      process it is a node unless the scope's start leads to itself. */
  lemma EntryIsNode(s: Scope, out: seq<SequenceFlow>, g: Builder)
    requires Compiled(s, Embedded, out, g)
    ensures Entry(s) in g.nodes <==> !(s.starts != [] && |OutFlows(s.flows, s.starts[0].id)| == 1
                                       && OutFlows(s.flows, s.starts[0].id)[0].target == s.starts[0].id)
  {
    var start := s.starts[0].id;
    assert start in StartIds(s);
    if !Forks(s) {
      EntryIsNodeOrStart(s, out, g);
    }
  }
}
