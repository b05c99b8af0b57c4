/** Compiling a process with its event sub-processes into one definition. */
module Deployment {
  import opened Common
  import opened Definition
  import opened BpmnModel
  import opened Flatten
  import ES = EventSubProcesses
  import opened HandlerRegions

  /** The start of an event sub-process: what triggers it, if it has exactly one usable event definition. */
  datatype HandlerStart = HandlerStart(trigger: Option<ES.Trigger>, isInterrupting: bool)

  ghost predicate HandlerCompiles(s: Scope, start: HandlerStart) {
    && |s.starts| == 1 && |OutFlows(s.flows, s.starts[0].id)| == 1
    && start.trigger.Some? && (start.trigger.value.Error? ==> start.isInterrupting)
    && Accepts(s, Role.Handler) && WellFormed(Graph(s, Role.Handler).nodes, Graph(s, Role.Handler).flows)
  }

  ghost function AttachmentOf(s: Scope, start: HandlerStart): Attachment
    requires HandlerCompiles(s, start)
  {
    var g := Graph(s, Role.Handler);
    Attachment(ES.Handler(s.id, s.starts[0].id, g.nodes.Keys, start.trigger.value, start.isInterrupting), ES.Body(g.nodes, g.flows))
  }

  method CompileEventSubProcess(s: Scope, start: HandlerStart) returns (r: Result<Attachment>)
    ensures r.Ok? <==> HandlerCompiles(s, start)
    ensures r.Ok? ==> r.value == AttachmentOf(s, start) && IsCompiled(r.value.handler, r.value.body)
  {
    if |s.starts| != 1 || start.trigger.None? {
      return Err;
    }
    if start.trigger.value.Error? && !start.isInterrupting {
      return Err;
    }
    var out := CollectOutFlows(s.flows, s.starts[0].id);
    if |out| != 1 {
      return Err;
    }
    var g :- Compile(s, Role.Handler);
    r := Ok(Attachment(
      ES.Handler(s.id, s.starts[0].id, g.nodes.Keys, start.trigger.value, start.isInterrupting),
      ES.Body(g.nodes, g.flows)));
  }

  /** What the scope at `i` contributes: nothing, a handler, or a failure. */
  ghost function HandlerAt(s: Scope, starts: seq<HandlerStart>, i: nat): Result<Option<Attachment>>
    requires i < |s.subs| == |starts|
  {
    if !s.subs[i].triggeredByEvent then Ok(None)
    else if HandlerCompiles(s.subs[i], starts[i]) then Ok(Some(AttachmentOf(s.subs[i], starts[i])))
    else Err
  }

  ghost function Results(s: Scope, starts: seq<HandlerStart>): (results: seq<Result<Option<Attachment>>>)
    requires |starts| == |s.subs|
    ensures Describes(s, starts, results)
  {
    seq(|s.subs|, i requires 0 <= i < |s.subs| => HandlerAt(s, starts, i))
  }

  ghost predicate Describes(s: Scope, starts: seq<HandlerStart>, results: seq<Result<Option<Attachment>>>) {
    && |s.subs| == |starts| == |results|
    && forall i {:trigger HandlerAt(s, starts, i)} | 0 <= i < |s.subs| :: results[i] == HandlerAt(s, starts, i)
  }

  /** The handlers among the first `n` results, if none is a failure. */
  ghost function Collect(results: seq<Result<Option<Attachment>>>, n: nat): Result<seq<Attachment>>
    requires n <= |results|
  {
    if n == 0 then Ok([])
    else
      var before :- Collect(results, n - 1);
      var last :- results[n - 1];
      Ok(if last.None? then before else before + [last.value])
  }

  lemma {:induction false} CollectFails(results: seq<Result<Option<Attachment>>>, n: nat)
    requires n <= |results| && Collect(results, n).Err?
    ensures Collect(results, |results|).Err?
    decreases |results| - n
  {
    if n < |results| { CollectFails(results, n + 1); }
  }

  ghost function Handlers(s: Scope, starts: seq<HandlerStart>): Result<seq<Attachment>>
    requires |starts| == |s.subs|
  {
    Collect(Results(s, starts), |s.subs|)
  }

  method CompileHandlerAt(s: Scope, starts: seq<HandlerStart>, ghost results: seq<Result<Option<Attachment>>>, i: nat)
    returns (r: Result<Option<Attachment>>)
    requires Describes(s, starts, results) && i < |s.subs|
    ensures r == results[i]
    ensures r.Ok? && r.value.Some? ==> IsCompiled(r.value.value.handler, r.value.value.body)
  {
    assert results[i] == HandlerAt(s, starts, i);
    if !s.subs[i].triggeredByEvent {
      return Ok(None);
    }
    var a :- CompileEventSubProcess(s.subs[i], starts[i]);
    r := Ok(Some(a));
  }

  method CompileHandlers(s: Scope, starts: seq<HandlerStart>, ghost results: seq<Result<Option<Attachment>>>)
    returns (r: Result<seq<Attachment>>)
    requires Describes(s, starts, results)
    ensures r == Collect(results, |results|)
    ensures r.Ok? ==> forall i | 0 <= i < |r.value| :: IsCompiled(r.value[i].handler, r.value[i].body)
  {
    var list: seq<Attachment> := [];
    for i := 0 to |s.subs|
      invariant Collect(results, i) == Ok(list)
      invariant forall j | 0 <= j < |list| :: IsCompiled(list[j].handler, list[j].body)
    {
      var a := CompileHandlerAt(s, starts, results, i);
      if a.Err? {
        CollectFails(results, i + 1);
        return Err;
      }
      if a.value.Some? {
        list := list + [a.value.value];
      }
    }
    r := Ok(list);
  }

  /** No attachment clashes with what is there when its turn comes. */
  ghost predicate AllFit(p: ES.Process, more: seq<Attachment>)
    decreases |more|
  {
    more == [] ||
    (!ES.Clashes(p, more[0].handler, more[0].body)
     && AllFit(ES.Attached(p, more[0].handler, more[0].body), more[1..]))
  }

  ghost function MainProcess(s: Scope): ES.Process { ES.Process(Graph(s, Process).nodes, Graph(s, Process).flows, []) }

  ghost predicate Deploys(s: Scope, starts: seq<HandlerStart>)
    requires |starts| == |s.subs|
  {
    && Accepts(s, Process) && WellFormed(Graph(s, Process).nodes, Graph(s, Process).flows)
    && Handlers(s, starts).Ok? && AllFit(MainProcess(s), Handlers(s, starts).value)
  }

  method AttachHandlers(definition: ES.ProcessDefinition, more: seq<Attachment>) returns (ok: bool)
    requires Sound(definition.Current())
    requires forall i | 0 <= i < |more| :: IsCompiled(more[i].handler, more[i].body)
    modifies definition
    ensures ok <==> AllFit(old(definition.Current()), more)
    ensures ok ==> definition.Current() == AttachAll(old(definition.Current()), more)
    ensures Sound(definition.Current())
  {
    ghost var start := definition.Current();
    for i := 0 to |more|
      invariant Sound(definition.Current())
      invariant AllFit(start, more) <==> AllFit(definition.Current(), more[i..])
      invariant AllFit(start, more) ==> AttachAll(start, more) == AttachAll(definition.Current(), more[i..])
    {
      assert more[i..][0] == more[i] && more[i..][1..] == more[i + 1..];
      ghost var before := definition.Current();
      var r := definition.AttachEventSubProcess(more[i].handler, more[i].body);
      if r.Err? {
        return false;
      }
      AttachKeepsSound(before, more[i].handler, more[i].body);
    }
    ok := true;
  }

  /** Everything that deploys is sound: one start, and main process and handlers apart. */
  method CompileProcess(s: Scope, starts: seq<HandlerStart>) returns (r: Result<ES.ProcessDefinition>)
    requires |starts| == |s.subs|
    ensures r.Ok? <==> Deploys(s, starts)
    ensures r.Ok? ==> fresh(r.value) && Sound(r.value.Current())
    ensures r.Ok? ==> r.value.Current() == AttachAll(MainProcess(s), Handlers(s, starts).value)
  {
    var handlers :- CompileHandlers(s, starts, Results(s, starts));
    var g :- Compile(s, Process);
    ValidatedIsSound(g.nodes, g.flows);
    var definition := new ES.ProcessDefinition(g.nodes, g.flows);
    var ok := AttachHandlers(definition, handlers);
    if !ok {
      return Err;
    }
    r := Ok(definition);
  }

  /** In a sound definition the start found is the only one, in whatever order the nodes are searched. */
  method StartEvent(definition: ES.ProcessDefinition) returns (id: Id)
    requires Sound(definition.Current())
    ensures forall x :: ES.IsMainStart(definition.Current(), x) <==> x == id
  {
    ghost var start :| ES.IsMainStart(definition.Current(), start);
    var found := definition.FindStart();
    assert ES.IsMainStart(definition.Current(), start);
    id := found.value;
  }
}
