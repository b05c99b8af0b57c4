/** Attaching event sub-processes to a process definition. */
module EventSubProcesses {
  import opened Common
  import opened Definition

  datatype Trigger =
    | Timer
    | Message(name: string)
    | Signal(name: string)
    | Error(code: Option<string>)
    | Escalation(code: Option<string>)

  datatype Handler = Handler(id: Id, startNode: Id, nodeIds: set<Id>, trigger: Trigger, isInterrupting: bool)

  /** The compiled body of a handler. */
  datatype Body = Body(nodes: Nodes, flows: Flows)

  // ----- triggers

  function OrAny(code: Option<string>): string { if code.Some? then code.value else "*" }

  function TriggerIdentity(t: Trigger): Option<string> {
    match t
    case Timer => None
    case Message(name) => Some("message:" + name)
    case Signal(name) => Some("signal:" + name)
    case Error(code) => Some("error:" + OrAny(code))
    case Escalation(code) => Some("escalation:" + OrAny(code))
  }

  /** Two triggers that would be caught by the same event. */
  predicate SameTrigger(a: Trigger, b: Trigger) {
    match (a, b)
    case (Message(x), Message(y)) => x == y
    case (Signal(x), Signal(y)) => x == y
    case (Error(x), Error(y)) => SameCode(x, y)
    case (Escalation(x), Escalation(y)) => SameCode(x, y)
    case _ => false
  }

  predicate SameCode(a: Option<string>, b: Option<string>) { a == b || (IsAnyCode(a) && IsAnyCode(b)) }

  predicate IsAnyCode(code: Option<string>) { code == None || code == Some("*") }

  lemma PrefixCancels(p: string, a: string, b: string)
    requires p + a == p + b
    ensures a == b
  {
    assert a == (p + a)[|p|..] && b == (p + b)[|p|..];
  }

  lemma KindShows(t: Trigger)
    requires !t.Timer?
    ensures var s := TriggerIdentity(t).value;
            && |s| >= 2
            && (t.Message? <==> s[0] == 'm') && (t.Signal? <==> s[0] == 's')
            && (t.Error? <==> s[0] == 'e' && s[1] == 'r') && (t.Escalation? <==> s[0] == 'e' && s[1] == 's')
  {
  }

  /** Texts for triggers collide only for the same trigger, where a missing code is the code `*`. */
  lemma IdentityIsExact(a: Trigger, b: Trigger)
    requires !a.Timer?
    ensures TriggerIdentity(a) == TriggerIdentity(b) <==> SameTrigger(a, b)
  {
    if TriggerIdentity(a) == TriggerIdentity(b) {
      KindShows(a);
      KindShows(b);
      if a.Message? {
        PrefixCancels("message:", a.name, b.name);
      } else if a.Signal? {
        PrefixCancels("signal:", a.name, b.name);
      } else if a.Error? {
        PrefixCancels("error:", OrAny(a.code), OrAny(b.code));
      } else {
        PrefixCancels("escalation:", OrAny(a.code), OrAny(b.code));
      }
    }
  }

  // ----- definitions with handlers

  datatype Process = Process(nodes: Nodes, flows: Flows, handlers: seq<Handler>)

  /** Two flow tables as one. */
  function Merged(a: Flows, b: Flows): Flows { map s | s in a.Keys + b.Keys :: Outgoing(a, s) + Outgoing(b, s) }

  lemma MergedNothing(a: Flows, none: Flows)
    requires none == map[]
    ensures Merged(a, none) == a
  {
    forall s | s in a ensures Merged(a, none)[s] == a[s] { assert a[s] + [] == a[s]; }
  }

  lemma MergedOne(a: Flows, b: Flows, todo: set<Id>, s: Id)
    requires s in todo && todo <= b.Keys
    ensures var before := Merged(a, b - todo);
            Merged(a, b - (todo - {s})) == before[s := Outgoing(before, s) + b[s]]
  {
    var before, after := Merged(a, b - todo), Merged(a, b - (todo - {s}));
    assert Outgoing(b - todo, s) == [] && Outgoing(a, s) + [] == Outgoing(a, s);
    assert Outgoing(before, s) == Outgoing(a, s);
    forall x | x in after && x != s ensures x in before && after[x] == before[x] {
      assert Outgoing(b - (todo - {s}), x) == Outgoing(b - todo, x);
    }
  }

  /** Another handler has the identifier or the trigger, or a node is there already. */
  predicate Clashes(p: Process, h: Handler, body: Body) {
    || (exists i | 0 <= i < |p.handlers| :: p.handlers[i].id == h.id || SameTrigger(h.trigger, p.handlers[i].trigger))
    || (exists id | id in p.nodes :: id in body.nodes)
  }

  function Attached(p: Process, h: Handler, body: Body): Process {
    Process(p.nodes + body.nodes, Merged(p.flows, body.flows), p.handlers + [h])
  }

  /** The nodes, the handler and the flows of the body are added; flows with one source are put together. */
  ghost predicate IsAttached(p: Process, q: Process, h: Handler, body: Body) {
    && q.nodes == p.nodes + body.nodes && q.handlers == p.handlers + [h]
    && q.flows.Keys == p.flows.Keys + body.flows.Keys
    && forall s | s in q.flows :: q.flows[s] == Outgoing(p.flows, s) + Outgoing(body.flows, s)
  }

  /** The nodes reached only through handlers. */
  predicate IsHandlerNode(p: Process, id: Id) { exists i | 0 <= i < |p.handlers| :: id in p.handlers[i].nodeIds }

  predicate IsMainStart(p: Process, id: Id) { id in p.nodes && p.nodes[id].StartEvent? && !IsHandlerNode(p, id) }

  class ProcessDefinition {
    var nodes: Nodes
    var flows: Flows
    var handlers: seq<Handler>

    /** A definition without handlers. */
    constructor (nodes: Nodes, flows: Flows)
      ensures Current() == Process(nodes, flows, [])
    {
      this.nodes, this.flows, handlers := nodes, flows, [];
    }

    function Current(): Process
      reads this
    {
      Process(nodes, flows, handlers)
    }

    /** Fails without a trace, or adds the handler and its body. */
    method AttachEventSubProcess(h: Handler, body: Body) returns (r: Result<()>)
      modifies this
      ensures r.Err? <==> Clashes(old(Current()), h, body)
      ensures Current() == if r.Ok? then Attached(old(Current()), h, body) else old(Current())
      ensures r.Ok? ==> IsAttached(old(Current()), Current(), h, body)
    {
      var identity := TriggerIdentity(h.trigger);
      for i := 0 to |handlers|
        invariant Current() == old(Current())
        invariant forall j | 0 <= j < i :: !SameTrigger(h.trigger, handlers[j].trigger)
      {
        if identity.Some? { IdentityIsExact(h.trigger, handlers[i].trigger); }
        if identity.Some? && TriggerIdentity(handlers[i].trigger) == identity {
          return Err;
        }
      }
      for i := 0 to |handlers|
        invariant Current() == old(Current()) && forall j | 0 <= j < i :: handlers[j].id != h.id
      {
        if handlers[i].id == h.id {
          return Err;
        }
      }
      var todo := body.nodes.Keys;
      while todo != {}
        invariant todo <= body.nodes.Keys && Current() == old(Current())
        invariant forall id | id in body.nodes && id !in todo :: id !in nodes
        decreases |todo|
      {
        var id: Id :| id in todo;
        if id in nodes {
          return Err;
        }
        todo := todo - {id};
      }
      nodes := nodes + body.nodes;
      flows := MergeFlows(flows, body.flows);
      handlers := handlers + [h];
      r := Ok(());
    }

    static method MergeFlows(a: Flows, b: Flows) returns (r: Flows)
      ensures r == Merged(a, b)
    {
      r := a;
      var todo := b.Keys;
      MergedNothing(a, b - todo);
      while todo != {}
        invariant todo <= b.Keys && r == Merged(a, b - todo)
        decreases |todo|
      {
        var s: Id :| s in todo;
        MergedOne(a, b, todo, s);
        r := r[s := Outgoing(r, s) + b[s]];
        todo := todo - {s};
      }
      assert b - {} == b;
    }

    /** The start of the process; starts of handlers do not count. */
    method FindStart() returns (r: Option<Id>)
      ensures r.Some? ==> IsMainStart(Current(), r.value)
      ensures r.None? ==> forall id :: !IsMainStart(Current(), id)
    {
      var todo := nodes.Keys;
      while todo != {}
        invariant todo <= nodes.Keys
        invariant forall id | id in nodes && id !in todo :: !IsMainStart(Current(), id)
        decreases |todo|
      {
        var id: Id :| id in todo;
        if !IsHandlerNode(Current(), id) && nodes[id].StartEvent? {
          return Some(id);
        }
        todo := todo - {id};
      }
      r := None;
    }
  }
}
