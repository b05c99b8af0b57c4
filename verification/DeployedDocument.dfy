/** What is deployed holds the document of the process and of every event sub-process, and one handler for each. */
module DeployedDocument {
  import opened Common
  import opened Definition
  import opened BpmnModel
  import opened Flatten
  import opened FlattenPlaces
  import opened FlattenPaths
  import opened FlattenDocument
  import ES = EventSubProcesses
  import opened HandlerRegions
  import opened Deployment
  import opened DeployedPaths

  // ----- graphs that agree on a region

  ghost predicate AgreeAt(g: Builder, h: Builder, x: Id) {
    && (x in g.nodes <==> x in h.nodes) && (x in g.nodes ==> g.nodes[x] == h.nodes[x])
    && Outgoing(g.flows, x) == Outgoing(h.flows, x)
  }

  ghost predicate AgreeIn(g: Builder, h: Builder, ids: set<Id>) { forall x | x in ids :: AgreeAt(g, h, x) }

  lemma OwnAgrees(s: Scope, role: Role, g: Builder, h: Builder)
    requires OwnMirrors(s, role, g) && AgreeIn(g, h, Declared(s)) && (role.Embedded? ==> AgreeAt(g, h, s.id))
    ensures OwnMirrors(s, role, h)
  {
    forall i | 0 <= i < |s.starts| ensures StartMirrors(s, role, s.starts[i], h.nodes) {
      assert s.starts[i].id in StartIds(s) && AgreeAt(g, h, s.starts[i].id);
    }
    forall i | 0 <= i < |s.ends| ensures AgreeAt(g, h, s.ends[i].id) { assert s.ends[i].id in EndIds(s); }
    forall i | 0 <= i < |s.parts| ensures AgreeAt(g, h, s.parts[i].id) { assert s.parts[i].id in PartIds(s); }
    LinksAgree(s, g, h);
    forall x | x in Declared(s) ensures FlowsMirror(s, role, h, x) {
      assert FlowsMirror(s, role, g, x) && AgreeAt(g, h, x);
    }
  }

  lemma LinksAgree(s: Scope, g: Builder, h: Builder)
    requires LinksMirror(s, g.nodes) && AgreeIn(g, h, Declared(s))
    ensures LinksMirror(s, h.nodes)
  {
    forall i | 0 <= i < |s.catches| ensures s.catches[i].id !in h.nodes {
      assert s.catches[i].id in CatchIds(s) && AgreeAt(g, h, s.catches[i].id);
    }
    forall i | 0 <= i < |s.throws| ensures ThrowMirrors(s, s.throws[i], h.nodes) {
      assert s.throws[i].id in ThrowIds(s) && AgreeAt(g, h, s.throws[i].id);
      assert ThrowMirrors(s, s.throws[i], g.nodes);
    }
  }

  lemma {:induction false} MirrorsAgree(s: Scope, role: Role, g: Builder, h: Builder)
    requires Mirrors(s, role, g) && AgreeIn(g, h, Region(s, role)) && (role.Embedded? ==> AgreeAt(g, h, s.id))
    ensures Mirrors(s, role, h)
    decreases s
  {
    OwnAgrees(s, role, g, h);
    forall i | 0 <= i < |s.subs| ensures SubMirrors(s, role, i, h) {
      assert SubMirrors(s, role, i, g);
      assert s.subs[i].id in SubIds(s) && AgreeAt(g, h, s.subs[i].id);
      if IsNested(s, role, i) {
        RegionHas(s, role, i, |s.subs|);
        MirrorsAgree(s.subs[i], Embedded, g, h);
      }
    }
  }

  lemma NoFlowsOutside(nodes: Nodes, flows: Flows, x: Id)
    requires FlowsStayInside(nodes, flows) && x !in nodes
    ensures Outgoing(flows, x) == []
  {
  }

  lemma PartAgrees(s: Scope, starts: seq<HandlerStart>, part: Option<nat>)
    requires |starts| == |s.subs| && Deploys(s, starts) && IdsAreDistinct(s) && IsPartOf(s, part)
    ensures AgreeIn(GraphOf(s, part), Whole(Deployed(s, starts)), RegionOf(s, part))
  {
    var g, p := GraphOf(s, part), Deployed(s, starts);
    PartIsDeployed(s, starts, part);
    MainIsPart(s, starts);
    forall x | x in RegionOf(s, part) ensures AgreeAt(g, Whole(p), x) {
      if x in p.nodes { RegionsAreApart(s, starts, part, x); }
      if x !in g.nodes {
        NoFlowsOutside(g.nodes, g.flows, x);
        NoFlowsOutside(p.nodes, p.flows, x);
      }
    }
  }

  /** What is deployed holds every part of the document, at any depth. */
  lemma DeployedMirrorsDocument(s: Scope, starts: seq<HandlerStart>, part: Option<nat>)
    requires |starts| == |s.subs| && Deploys(s, starts) && IdsAreDistinct(s) && IsPartOf(s, part)
    ensures Mirrors(DeployedPaths.Part(s, part), RoleOf(part), Whole(Deployed(s, starts)))
  {
    PartIsDeployed(s, starts, part);
    GraphMirrorsDocument(DeployedPaths.Part(s, part), RoleOf(part));
    PartAgrees(s, starts, part);
    MirrorsAgree(DeployedPaths.Part(s, part), RoleOf(part), GraphOf(s, part), Whole(Deployed(s, starts)));
  }

  // ----- handlers

  lemma {:induction false} HandlersInOrder(p: ES.Process, more: seq<Attachment>)
    requires AllFit(p, more)
    ensures AttachAll(p, more).handlers == p.handlers + seq(|more|, k requires 0 <= k < |more| => more[k].handler)
    decreases |more|
  {
    if more == [] {
      assert p.handlers + [] == p.handlers;
    } else {
      HandlersInOrder(ES.Attached(p, more[0].handler, more[0].body), more[1..]);
    }
  }

  lemma HandlersAreDeployed(s: Scope, starts: seq<HandlerStart>)
    requires |starts| == |s.subs| && Deploys(s, starts)
    ensures var handlers, list := Deployed(s, starts).handlers, Handlers(s, starts).value;
            |handlers| == |list| && forall k | 0 <= k < |list| :: handlers[k] == list[k].handler
  {
    HandlersInOrder(MainProcess(s), Handlers(s, starts).value);
  }

  /** Every event sub-process is deployed as a handler with its identifier, its start, its nodes, its trigger, and
      whether it interrupts. */
  lemma HandlerIsDeployed(s: Scope, starts: seq<HandlerStart>, i: nat) returns (k: nat)
    requires |starts| == |s.subs| && Deploys(s, starts) && i < |s.subs| && s.subs[i].triggeredByEvent
    ensures var handlers := Deployed(s, starts).handlers;
            && k < |handlers| && |s.subs[i].starts| == 1 && starts[i].trigger.Some?
            && handlers[k].id == s.subs[i].id && handlers[k].startNode == s.subs[i].starts[0].id
            && handlers[k].nodeIds == GraphOf(s, Some(i)).nodes.Keys
            && handlers[k].trigger == starts[i].trigger.value && handlers[k].isInterrupting == starts[i].isInterrupting
  {
    k := EachIsCollected(s, starts, i);
    HandlersAreDeployed(s, starts);
  }

  /** And there is no other handler. */
  lemma HandlerComesFrom(s: Scope, starts: seq<HandlerStart>, k: nat) returns (i: nat)
    requires |starts| == |s.subs| && Deploys(s, starts) && k < |Deployed(s, starts).handlers|
    ensures i < |s.subs| && s.subs[i].triggeredByEvent && Deployed(s, starts).handlers[k].id == s.subs[i].id
  {
    HandlersAreDeployed(s, starts);
    i := EachComesFrom(s, starts, k);
    assert Deployed(s, starts).handlers[k] == AttachmentOf(s.subs[i], starts[i]).handler;
  }

  // ----- what deploys

  /** One start, with one flow and a trigger; errors interrupt; and its graph compiles. */
  ghost predicate HandlerIsAllowed(s: Scope, start: HandlerStart) {
    && |s.starts| == 1 && HasOne(s.flows, s.starts[0].id)
    && start.trigger.Some? && (start.trigger.value.Error? ==> start.isInterrupting)
    && IsAllowed(s, Role.Handler) && WellFormed(Graph(s, Role.Handler).nodes, Graph(s, Role.Handler).flows)
  }

  ghost predicate AreApart(s: Scope, starts: seq<HandlerStart>, i: nat, j: nat)
    requires i < j < |s.subs| == |starts|
  {
    var a, b := starts[i].trigger, starts[j].trigger;
    && s.subs[i].id != s.subs[j].id && (a.Some? && b.Some? ==> !ES.SameTrigger(b.value, a.value))
    && Graph(s.subs[i], Role.Handler).nodes.Keys !! Graph(s.subs[j], Role.Handler).nodes.Keys
  }

  lemma HandlerCompilesIs(s: Scope, start: HandlerStart)
    ensures HandlerCompiles(s, start) <==> HandlerIsAllowed(s, start)
  {
    AcceptsExactly(s, Role.Handler);
    if |s.starts| == 1 { SomeFlow(s.flows, s.starts[0].id); }
  }

  ghost predicate TwoFit(a: Attachment, b: Attachment) {
    && a.handler.id != b.handler.id && !ES.SameTrigger(b.handler.trigger, a.handler.trigger)
    && a.body.nodes.Keys !! b.body.nodes.Keys
  }

  lemma ClashAfter(p: ES.Process, a: Attachment, b: Attachment)
    ensures ES.Clashes(ES.Attached(p, a.handler, a.body), b.handler, b.body) <==>
            ES.Clashes(p, b.handler, b.body) || !TwoFit(a, b)
  {
    var q := ES.Attached(p, a.handler, a.body);
    assert q.handlers[|p.handlers|] == a.handler && forall i | 0 <= i < |p.handlers| :: q.handlers[i] == p.handlers[i];
    if !(a.body.nodes.Keys !! b.body.nodes.Keys) {
      var id :| id in a.body.nodes && id in b.body.nodes;
      assert id in q.nodes;
    }
  }

  /** Attachments fit one after the other just if each fits what was there at first, and any two fit each other. */
  lemma {:induction false} AllFitIs(p: ES.Process, more: seq<Attachment>)
    ensures AllFit(p, more) <==>
            && (forall i | 0 <= i < |more| :: !ES.Clashes(p, more[i].handler, more[i].body))
            && (forall i, j | 0 <= i < j < |more| :: TwoFit(more[i], more[j]))
    decreases |more|
  {
    if more != [] {
      var a, rest := more[0], more[1..];
      AllFitIs(ES.Attached(p, a.handler, a.body), rest);
      forall i | 0 <= i < |rest|
        ensures ES.Clashes(ES.Attached(p, a.handler, a.body), rest[i].handler, rest[i].body) <==>
                ES.Clashes(p, rest[i].handler, rest[i].body) || !TwoFit(a, rest[i])
      {
        ClashAfter(p, a, rest[i]);
      }
      assert forall i | 0 < i < |more| :: more[i] == rest[i - 1];
    }
  }

  /** The positions of the handlers among the results, in order. */
  ghost predicate AreHandlers(results: seq<Result<Option<Attachment>>>, n: nat, at: seq<nat>, list: seq<Attachment>)
    requires n <= |results|
  {
    && |at| == |list|
    && (forall k | 0 <= k < |at| :: at[k] < n && results[at[k]] == Ok(Some(list[k])))
    && (forall k, l | 0 <= k < l < |at| :: at[k] < at[l])
    && (forall i | 0 <= i < n :: results[i].Ok? && (results[i].value.Some? ==> i in at))
  }

  lemma HandlersMore(results: seq<Result<Option<Attachment>>>, n: nat, at: seq<nat>, list: seq<Attachment>)
    requires n < |results| && AreHandlers(results, n, at, list) && results[n].Ok?
    ensures results[n].value.Some? ==> AreHandlers(results, n + 1, at + [n], list + [results[n].value.value])
    ensures results[n].value.None? ==> AreHandlers(results, n + 1, at, list)
  {
    forall i | 0 <= i <= n && results[i].value.Some? ensures i in at + [n] {
      if i == n { assert (at + [n])[|at|] == n; }
    }
  }

  lemma {:induction false} CollectIs(results: seq<Result<Option<Attachment>>>, n: nat) returns (at: seq<nat>)
    requires n <= |results| && Collect(results, n).Ok?
    ensures AreHandlers(results, n, at, Collect(results, n).value)
  {
    at := [];
    if n > 0 {
      at := CollectIs(results, n - 1);
      HandlersMore(results, n - 1, at, Collect(results, n - 1).value);
      if results[n - 1].value.Some? { at := at + [n - 1]; }
    }
  }

  lemma {:induction false} CollectSucceeds(results: seq<Result<Option<Attachment>>>, n: nat)
    requires n <= |results| && forall i | 0 <= i < n :: results[i].Ok?
    ensures Collect(results, n).Ok?
  {
    if n > 0 { CollectSucceeds(results, n - 1); }
  }

  lemma HandlersSucceed(s: Scope, starts: seq<HandlerStart>)
    requires |starts| == |s.subs|
    ensures Handlers(s, starts).Ok? <==>
            forall i | 0 <= i < |s.subs| && s.subs[i].triggeredByEvent :: HandlerIsAllowed(s.subs[i], starts[i])
  {
    var results := Results(s, starts);
    forall i | 0 <= i < |s.subs|
      ensures results[i].Ok? <==> (s.subs[i].triggeredByEvent ==> HandlerIsAllowed(s.subs[i], starts[i]))
    {
      assert results[i] == HandlerAt(s, starts, i);
      HandlerCompilesIs(s.subs[i], starts[i]);
    }
    if Handlers(s, starts).Ok? {
      var at := CollectIs(results, |s.subs|);
    }
    if forall i | 0 <= i < |s.subs| && s.subs[i].triggeredByEvent :: HandlerIsAllowed(s.subs[i], starts[i]) {
      CollectSucceeds(results, |s.subs|);
    }
  }

  /** Handlers in the order of their positions: all pairs of one are pairs of the other. */
  lemma PairsAt(at: seq<nat>, handlers: set<nat>, apart: set<(nat, nat)>)
    requires forall k | 0 <= k < |at| :: at[k] in handlers
    requires forall k, l | 0 <= k < l < |at| :: at[k] < at[l]
    requires forall i | i in handlers :: i in at
    ensures (forall k, l | 0 <= k < l < |at| :: (at[k], at[l]) in apart) <==>
            (forall i, j | i in handlers && j in handlers && i < j :: (i, j) in apart)
  {
    if forall k, l | 0 <= k < l < |at| :: (at[k], at[l]) in apart {
      forall i, j | i in handlers && j in handlers && i < j ensures (i, j) in apart {
        var k :| 0 <= k < |at| && at[k] == i;
        var l :| 0 <= l < |at| && at[l] == j;
        assert k < l;
      }
    }
  }

  ghost function HandlerPositions(s: Scope): set<nat> { set i: nat | i < |s.subs| && s.subs[i].triggeredByEvent }

  ghost function ApartPairs(s: Scope, starts: seq<HandlerStart>): set<(nat, nat)>
    requires |s.subs| == |starts|
  {
    set i: nat, j: nat | i < |s.subs| && j < |s.subs| && i < j && AreApart(s, starts, i, j) :: (i, j)
  }

  ghost predicate IsApart(s: Scope, i: nat)
    requires i < |s.subs|
  {
    Graph(s.subs[i], Role.Handler).nodes.Keys !! Graph(s, Process).nodes.Keys
  }

  ghost predicate EachIsApart(s: Scope) { forall i | 0 <= i < |s.subs| && s.subs[i].triggeredByEvent :: IsApart(s, i) }

  ghost predicate AnyTwoAreApart(s: Scope, starts: seq<HandlerStart>)
    requires |s.subs| == |starts|
  {
    forall i, j | 0 <= i < j < |s.subs| && s.subs[i].triggeredByEvent && s.subs[j].triggeredByEvent :: AreApart(s, starts, i, j)
  }

  lemma OneFits(s: Scope, starts: seq<HandlerStart>, i: nat, a: Attachment)
    requires |starts| == |s.subs| && ComesFrom(s, starts, a, i)
    ensures ES.Clashes(MainProcess(s), a.handler, a.body) <==> !IsApart(s, i)
  {
  }

  lemma TwoFitApart(s: Scope, starts: seq<HandlerStart>, i: nat, a: Attachment, j: nat, b: Attachment)
    requires |starts| == |s.subs| && ComesFrom(s, starts, a, i) && ComesFrom(s, starts, b, j) && i < j
    ensures TwoFit(a, b) <==> (i, j) in ApartPairs(s, starts)
  {
  }

  lemma EachIsHandler(s: Scope, starts: seq<HandlerStart>, at: seq<nat>, list: seq<Attachment>)
    requires |s.subs| == |starts| && AreHandlers(Results(s, starts), |s.subs|, at, list)
    ensures forall k | 0 <= k < |at| :: ComesFrom(s, starts, list[k], at[k])
    ensures forall i | i in HandlerPositions(s) :: i in at
  {
    var results := Results(s, starts);
    forall k | 0 <= k < |at| ensures ComesFrom(s, starts, list[k], at[k]) {
      assert results[at[k]] == HandlerAt(s, starts, at[k]);
    }
    forall i | i in HandlerPositions(s) ensures i in at {
      assert results[i] == HandlerAt(s, starts, i);
    }
  }

  lemma OnesFit(s: Scope, starts: seq<HandlerStart>, at: seq<nat>, list: seq<Attachment>)
    requires |s.subs| == |starts| && AreHandlers(Results(s, starts), |s.subs|, at, list)
    ensures (forall k | 0 <= k < |list| :: !ES.Clashes(MainProcess(s), list[k].handler, list[k].body)) <==> EachIsApart(s)
  {
    EachIsHandler(s, starts, at, list);
    forall k | 0 <= k < |list| ensures ES.Clashes(MainProcess(s), list[k].handler, list[k].body) <==> !IsApart(s, at[k]) {
      OneFits(s, starts, at[k], list[k]);
    }
    assert forall i: nat | i < |s.subs| && s.subs[i].triggeredByEvent :: i in HandlerPositions(s) && i in at;
  }

  lemma PairsFit(s: Scope, starts: seq<HandlerStart>, at: seq<nat>, list: seq<Attachment>)
    requires |s.subs| == |starts| && AreHandlers(Results(s, starts), |s.subs|, at, list)
    ensures (forall k, l | 0 <= k < l < |list| :: TwoFit(list[k], list[l])) <==>
            (forall i, j | i in HandlerPositions(s) && j in HandlerPositions(s) && i < j :: (i, j) in ApartPairs(s, starts))
  {
    EachIsHandler(s, starts, at, list);
    forall k, l | 0 <= k < l < |list| ensures TwoFit(list[k], list[l]) <==> (at[k], at[l]) in ApartPairs(s, starts) {
      TwoFitApart(s, starts, at[k], list[k], at[l], list[l]);
    }
    PairsAt(at, HandlerPositions(s), ApartPairs(s, starts));
  }

  lemma PairsAre(s: Scope, starts: seq<HandlerStart>)
    requires |s.subs| == |starts|
    ensures AnyTwoAreApart(s, starts) <==>
            (forall i, j | i in HandlerPositions(s) && j in HandlerPositions(s) && i < j :: (i, j) in ApartPairs(s, starts))
  {
    forall i: nat, j: nat | i < j < |s.subs| ensures (i, j) in ApartPairs(s, starts) <==> AreApart(s, starts, i, j) {}
    assert forall i: nat | i < |s.subs| :: i in HandlerPositions(s) <==> s.subs[i].triggeredByEvent;
  }

  lemma HandlersFit(s: Scope, starts: seq<HandlerStart>)
    requires |starts| == |s.subs| && Handlers(s, starts).Ok?
    ensures AllFit(MainProcess(s), Handlers(s, starts).value) <==> EachIsApart(s) && AnyTwoAreApart(s, starts)
  {
    var list := Handlers(s, starts).value;
    var at := CollectIs(Results(s, starts), |s.subs|);
    AllFitIs(MainProcess(s), list);
    OnesFit(s, starts, at, list);
    PairsFit(s, starts, at, list);
    PairsAre(s, starts);
  }

  /** A process deploys just if it and its event sub-processes are allowed and well formed, and the event sub-processes
      are apart from it and from each other: in identifiers, triggers and nodes. */
  lemma DeploysExactly(s: Scope, starts: seq<HandlerStart>)
    requires |starts| == |s.subs|
    ensures Deploys(s, starts) <==>
            && IsAllowed(s, Process) && WellFormed(Graph(s, Process).nodes, Graph(s, Process).flows)
            && (forall i | 0 <= i < |s.subs| && s.subs[i].triggeredByEvent :: HandlerIsAllowed(s.subs[i], starts[i]))
            && EachIsApart(s) && AnyTwoAreApart(s, starts)
  {
    AcceptsExactly(s, Process);
    HandlersSucceed(s, starts);
    if Handlers(s, starts).Ok? { HandlersFit(s, starts); }
  }
}
