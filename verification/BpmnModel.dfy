/** A process or sub-process as read from the document, and its link events. */
module BpmnModel {
  import opened Common
  import opened Definition

  datatype Flow = Flow(source: Id, target: Id, condition: Option<string>)

  datatype Start = Start(id: Id, kind: StartKind, conditional: bool)

  datatype End = End(id: Id, cancel: bool)

  /** The link name that is blank once trimmed. */
  const BLANK: Id := 0

  /** A link throw or catch event; its name is trimmed. */
  datatype Link = Link(id: Id, name: Id)

  /** Elements of ordinary flow nodes: tasks, gateways, intermediate and boundary
      events, and the message start an instantiating receive task becomes. */
  type PlainElement = e: Element | e.Activity? || e.CatchEvent? || e.Gateway? || e.BoundaryEvent? || e.StartEvent?
    witness Activity

  /** Any other flow node; `element` is missing when the source rejects it (an empty
      script, a task without a message, an unsupported definition). */
  datatype Part = Part(id: Id, element: Option<PlainElement>)

  datatype Scope = Scope(
    id: Id,
    triggeredByEvent: bool,
    transaction: bool,
    starts: seq<Start>,
    ends: seq<End>,
    parts: seq<Part>,
    catches: seq<Link>,
    throws: seq<Link>,
    flows: seq<Flow>,
    subs: seq<Scope>)

  /** How a scope is compiled: as a process, inside another scope, or as an event handler. */
  datatype Role = Process | Embedded | Handler

  // ----- flows by source

  function OutFlows(flows: seq<Flow>, source: Id): seq<SequenceFlow> {
    if flows == [] then []
    else
      var f := flows[|flows| - 1];
      OutFlows(flows[..|flows| - 1], source)
      + if f.source == source then [SequenceFlow(f.target, f.condition)] else []
  }

  predicate HasIncoming(flows: seq<Flow>, id: Id) { exists i | 0 <= i < |flows| :: flows[i].target == id }

  /** A sequence flow leads from `a` to `b`. */
  predicate Connects(flows: seq<Flow>, a: Id, b: Id) {
    exists i | 0 <= i < |flows| :: flows[i].source == a && flows[i].target == b
  }

  predicate Leads(out: seq<SequenceFlow>, b: Id) { exists i | 0 <= i < |out| :: out[i].target == b }

  lemma {:induction false} OutFlowsConnect(flows: seq<Flow>, a: Id, b: Id)
    ensures Leads(OutFlows(flows, a), b) <==> Connects(flows, a, b)
  {
    if flows != [] {
      var n := |flows| - 1;
      var before, f := OutFlows(flows[..n], a), flows[n];
      OutFlowsConnect(flows[..n], a, b);
      if Leads(before, b) {
        var i :| 0 <= i < |before| && before[i].target == b;
        assert OutFlows(flows, a)[i].target == b;
      }
      if f.source == a && f.target == b {
        assert OutFlows(flows, a)[|before|].target == b;
      }
    }
  }

  method CollectOutFlows(flows: seq<Flow>, source: Id) returns (out: seq<SequenceFlow>)
    ensures out == OutFlows(flows, source)
  {
    out := [];
    for i := 0 to |flows|
      invariant out == OutFlows(flows[..i], source)
    {
      assert flows[..i + 1][..i] == flows[..i];
      if flows[i].source == source {
        out := out + [SequenceFlow(flows[i].target, flows[i].condition)];
      }
    }
    assert flows[..|flows|] == flows;
  }

  // ----- link events

  /** The first catch with the given name. */
  function FindCatch(catches: seq<Link>, name: Id): Option<Link> {
    if catches == [] then None
    else if catches[0].name == name then Some(catches[0])
    else FindCatch(catches[1..], name)
  }

  lemma {:induction false} FindCatchIs(catches: seq<Link>, name: Id)
    ensures var r := FindCatch(catches, name);
            && (r.Some? ==> r.value in catches && r.value.name == name)
            && (r.None? ==> forall i | 0 <= i < |catches| :: catches[i].name != name)
  {
    if catches != [] && catches[0].name != name {
      FindCatchIs(catches[1..], name);
      assert forall i | 0 <= i < |catches| - 1 :: catches[1..][i] == catches[i + 1];
    }
  }

  /** A catch is entered by its link only and left by one flow. */
  predicate CatchIsProper(flows: seq<Flow>, c: Link) {
    c.name != BLANK && !HasIncoming(flows, c.id) && |OutFlows(flows, c.id)| == 1
  }

  predicate LinksAreProper(s: Scope) {
    && (forall i | 0 <= i < |s.catches| :: CatchIsProper(s.flows, s.catches[i]))
    && (forall i, j | 0 <= i < j < |s.catches| :: s.catches[i].name != s.catches[j].name)
  }

  predicate ThrowIsProper(s: Scope, t: Link) {
    t.name != BLANK && OutFlows(s.flows, t.id) == [] && FindCatch(s.catches, t.name).Some?
  }

  lemma CatchOf(s: Scope, t: Link) returns (j: nat)
    requires FindCatch(s.catches, t.name).Some?
    ensures j < |s.catches| && FindCatch(s.catches, t.name) == Some(s.catches[j]) && s.catches[j].name == t.name
  {
    FindCatchIs(s.catches, t.name);
    j :| 0 <= j < |s.catches| && s.catches[j] == FindCatch(s.catches, t.name).value;
  }

  /** Where a throw continues: the target of its catch. */
  function LinkTarget(s: Scope, t: Link): Id {
    var c := FindCatch(s.catches, t.name);
    var out := if c.Some? then OutFlows(s.flows, c.value.id) else [];
    if out != [] then out[0].target else BLANK
  }

  predicate IsCatch(s: Scope, id: Id) { exists i | 0 <= i < |s.catches| :: s.catches[i].id == id }

  /** Link names to catch targets, and the catches themselves. */
  datatype LinkScope = LinkScope(targets: map<Id, Id>, catchIds: set<Id>)

  ghost predicate Resolves(catches: seq<Link>, flows: seq<Flow>, links: LinkScope) {
    && links.catchIds == (set i | 0 <= i < |catches| :: catches[i].id)
    && (forall name {:trigger name in links.targets} :: name in links.targets <==> FindCatch(catches, name).Some?)
    && (forall name | name in links.targets ::
          var out := OutFlows(flows, FindCatch(catches, name).value.id);
          out != [] && links.targets[name] == out[0].target)
  }

  lemma {:induction false} FindCatchAppend(catches: seq<Link>, c: Link, name: Id)
    ensures FindCatch(catches + [c], name) ==
            if FindCatch(catches, name).Some? then FindCatch(catches, name)
            else if c.name == name then Some(c) else None
  {
    if catches == [] {
      assert catches + [c] == [c];
    } else {
      assert (catches + [c])[1..] == catches[1..] + [c];
      FindCatchAppend(catches[1..], c, name);
    }
  }

  lemma ResolvesMore(catches: seq<Link>, flows: seq<Flow>, links: LinkScope, c: Link)
    requires Resolves(catches, flows, links) && c.name !in links.targets && OutFlows(flows, c.id) != []
    ensures Resolves(catches + [c], flows,
                     LinkScope(links.targets[c.name := OutFlows(flows, c.id)[0].target], links.catchIds + {c.id}))
  {
    var more := catches + [c];
    forall name: Id
      ensures FindCatch(more, name) ==
              if FindCatch(catches, name).Some? then FindCatch(catches, name)
              else if c.name == name then Some(c) else None
    {
      FindCatchAppend(catches, c, name);
    }
    assert (set i | 0 <= i < |more| :: more[i].id) == (set i | 0 <= i < |catches| :: catches[i].id) + {c.id} by {
      assert more[|catches|].id == c.id;
      assert forall i | 0 <= i < |catches| :: more[i].id == catches[i].id;
    }
  }

  lemma NameIsTaken(s: Scope, k: nat)
    requires k < |s.catches|
    ensures FindCatch(s.catches[..k], s.catches[k].name).Some? <==>
            exists i :: 0 <= i < k && s.catches[i].name == s.catches[k].name
  {
    var name, earlier := s.catches[k].name, s.catches[..k];
    FindCatchIs(earlier, name);
    if FindCatch(earlier, name).Some? {
      var i :| 0 <= i < k && earlier[i] == FindCatch(earlier, name).value;
      assert s.catches[i].name == name;
    } else {
      assert forall i | 0 <= i < k :: earlier[i] == s.catches[i];
    }
  }

  /** The first `k` catches are proper, and their names distinct. */
  predicate ProperUpTo(s: Scope, k: nat)
    requires k <= |s.catches|
  {
    && (forall i | 0 <= i < k :: CatchIsProper(s.flows, s.catches[i]))
    && (forall i, j | 0 <= i < j < k :: s.catches[i].name != s.catches[j].name)
  }

  lemma OneMoreCatch(s: Scope, k: nat)
    requires k < |s.catches| && ProperUpTo(s, k)
    ensures var c := s.catches[k];
            var proper := CatchIsProper(s.flows, c) && FindCatch(s.catches[..k], c.name).None?;
            (proper ==> ProperUpTo(s, k + 1)) && (!proper ==> !LinksAreProper(s))
  {
    NameIsTaken(s, k);
  }

  method ResolveLinkScope(s: Scope) returns (r: Result<LinkScope>)
    ensures r.Ok? <==> LinksAreProper(s)
    ensures r.Ok? ==> Resolves(s.catches, s.flows, r.value)
  {
    var targets: map<Id, Id>, catchIds := map[], {};
    for k := 0 to |s.catches|
      invariant ProperUpTo(s, k)
      invariant Resolves(s.catches[..k], s.flows, LinkScope(targets, catchIds))
    {
      var c := s.catches[k];
      var out := CollectOutFlows(s.flows, c.id);
      OneMoreCatch(s, k);
      if c.name == BLANK || HasIncoming(s.flows, c.id) || |out| != 1 {
        return Err;
      }
      if c.name in targets {
        return Err;
      }
      assert s.catches[..k + 1] == s.catches[..k] + [c];
      ResolvesMore(s.catches[..k], s.flows, LinkScope(targets, catchIds), c);
      targets := targets[c.name := out[0].target];
      catchIds := catchIds + {c.id};
    }
    assert s.catches[..|s.catches|] == s.catches;
    r := Ok(LinkScope(targets, catchIds));
  }
}
