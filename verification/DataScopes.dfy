/** Activity data scopes: one variable map and an undo record play a two-layer environment. */
module DataScopes {
  import opened Common
  import opened Json
  import opened Tokens
  import opened DataMapping

  /** The part of a process definition that concerns activity data. */
  datatype DataDefinition = DataDefinition(mappings: map<Id, ActivityMappings>, multiInstance: set<Id>)

  // ----- what each operation does to a token

  datatype Step = Step(ok: bool, token: TokenState)

  ghost predicate EntersScope(def: DataDefinition, node: Id, vars: Variables) {
    node !in def.multiInstance && node in def.mappings && Evaluates(def.mappings[node].inputs, vars)
  }

  ghost predicate EnterFails(def: DataDefinition, node: Id, vars: Variables) {
    node !in def.multiInstance && node in def.mappings && !Evaluates(def.mappings[node].inputs, vars)
  }

  ghost function Activated(t: TokenState, def: DataDefinition, node: Id): TokenState
    requires EntersScope(def, node, t.variables)
  {
    var inputs := Outcome(def.mappings[node].inputs, t.variables);
    t.(variables := t.variables + inputs, dataScope := Some(DataScope(node, t.variables, inputs.Keys)))
  }

  ghost function Entered(t: TokenState, def: DataDefinition, node: Id): Step {
    if t.dataScope.Some? && t.dataScope.value.nodeId == node then Step(true, t)
    else
      var free := Discarded(t);
      if EntersScope(def, node, free.variables) then Step(true, Activated(free, def, node))
      else Step(!EnterFails(def, node, free.variables), free)
  }

  ghost function Left(t: TokenState, def: DataDefinition, node: Id): Step {
    if t.dataScope.None? || t.dataScope.value.nodeId != node then Step(true, t)
    else if node !in def.mappings || !Evaluates(def.mappings[node].outputs, t.variables) then Step(false, t)
    else
      var outputs := def.mappings[node].outputs;
      var outside := if outputs == [] then OuterVariables(t) else t.dataScope.value.original;
      Step(true, t.(variables := outside + Outcome(outputs, t.variables), dataScope := None))
  }

  function Transferred(t: TokenState, vars: Variables): TokenState {
    var scope := if t.dataScope.None? then None
                 else Some(t.dataScope.value.(original := t.dataScope.value.original + vars));
    t.(variables := t.variables + vars, dataScope := scope)
  }

  method Enter(token: Token, def: DataDefinition, node: Id) returns (r: Result<()>)
    modifies token
    ensures Step(r.Ok?, token.State()) == Entered(old(token.State()), def, node)
  {
    if token.dataScope.Some? && token.dataScope.value.nodeId != node {
      token.DiscardDataScope();
    }
    if token.dataScope.Some? {
      return Ok(());
    }
    if node in def.multiInstance {
      return Ok(());
    }
    if node in def.mappings {
      var inputs :- EvaluateMappings(def.mappings[node].inputs, token.variables);
      token.dataScope := Some(DataScope(node, token.variables, inputs.Keys));
      token.variables := token.variables + inputs;
    }
    r := Ok(());
  }

  method Leave(token: Token, def: DataDefinition, node: Id) returns (r: Result<()>)
    modifies token
    ensures Step(r.Ok?, token.State()) == Left(old(token.State()), def, node)
  {
    if token.dataScope.None? {
      return Ok(());
    }
    var scope := token.dataScope.value;
    if scope.nodeId != node {
      return Ok(());
    }
    if node !in def.mappings {
      return Err;
    }
    var mappings := def.mappings[node];
    var outputs :- EvaluateMappings(mappings.outputs, token.variables);
    var variables := scope.original;
    if mappings.outputs == [] {
      variables := token.ProcessVariables();
    }
    token.variables := variables + outputs;
    token.dataScope := None;
    r := Ok(());
  }

  method ApplyCallTransfer(token: Token, transferred: Variables)
    modifies token
    ensures token.State() == Transferred(old(token.State()), transferred)
  {
    token.variables := token.variables + transferred;
    if token.dataScope.Some? {
      token.dataScope := Some(token.dataScope.value.(original := token.dataScope.value.original + transferred));
    }
  }

  // ----- the two-layer environment

  /** An activity under way: its node, the variables to fall back to, the names it shadows,
      and what it binds them to. */
  datatype Activation = Activation(node: Id, base: Variables, names: set<string>, local: Variables)

  datatype Environment = Environment(outer: Variables, active: Option<Activation>)

  /** What runs inside the activity sees. */
  function Visible(e: Environment): Variables {
    if e.active.None? then e.outer else (e.outer - e.active.value.names) + e.active.value.local
  }

  datatype Operation =
    | Enters(node: Id)
    | Writes(name: string, value: Value)
    | Removes(name: string)
    | Transfers(vars: Variables)
    | Leaves(node: Id)
    | Discards

  function Only(vars: Variables, names: set<string>): Variables { map x | x in vars && x in names :: vars[x] }

  function EnvDiscard(e: Environment): Environment {
    if e.active.None? then e else Environment(e.active.value.base, None)
  }

  ghost function EnvEnter(e: Environment, def: DataDefinition, node: Id): Environment {
    if e.active.Some? && e.active.value.node == node then e
    else
      var outer := EnvDiscard(e).outer;
      if !EntersScope(def, node, outer) then Environment(outer, None)
      else
        var inputs := def.mappings[node].inputs;
        Environment(outer, Some(Activation(node, outer, DataMapping.Targets(inputs), Outcome(inputs, outer))))
  }

  /** Writing a shadowed name stays inside. */
  function EnvWrite(e: Environment, name: string, value: Value): Environment {
    if e.active.Some? && name in e.active.value.names
    then e.(active := Some(e.active.value.(local := e.active.value.local[name := value])))
    else e.(outer := e.outer[name := value])
  }

  function EnvRemove(e: Environment, name: string): Environment {
    if e.active.Some? && name in e.active.value.names
    then e.(active := Some(e.active.value.(local := e.active.value.local - {name})))
    else e.(outer := e.outer - {name})
  }

  /** A transfer reaches every layer. */
  function EnvTransfer(e: Environment, vars: Variables): Environment {
    if e.active.None? then e.(outer := e.outer + vars)
    else
      var a := e.active.value;
      Environment(e.outer + vars, Some(a.(base := a.base + vars, local := a.local + Only(vars, a.names))))
  }

  /** Declared outputs replace everything the activity did outside; without any, its outside writes stay. */
  ghost function EnvLeave(e: Environment, def: DataDefinition, node: Id): Environment {
    if e.active.None? || e.active.value.node != node || node !in def.mappings then e
    else
      var outputs := def.mappings[node].outputs;
      if outputs == [] then Environment(e.outer, None)
      else if Evaluates(outputs, Visible(e)) then Environment(e.active.value.base + Outcome(outputs, Visible(e)), None)
      else e
  }

  ghost function EnvDo(e: Environment, def: DataDefinition, op: Operation): Environment {
    match op
    case Enters(node) => EnvEnter(e, def, node)
    case Writes(name, value) => EnvWrite(e, name, value)
    case Removes(name) => EnvRemove(e, name)
    case Transfers(vars) => EnvTransfer(e, vars)
    case Leaves(node) => EnvLeave(e, def, node)
    case Discards => EnvDiscard(e)
  }

  ghost function TokenDo(t: TokenState, def: DataDefinition, op: Operation): TokenState {
    match op
    case Enters(node) => Entered(t, def, node).token
    case Writes(name, value) => t.(variables := t.variables[name := value])
    case Removes(name) => t.(variables := t.variables - {name})
    case Transfers(vars) => Transferred(t, vars)
    case Leaves(node) => Left(t, def, node).token
    case Discards => Discarded(t)
  }

  ghost function EnvRun(e: Environment, def: DataDefinition, ops: seq<Operation>): Environment
    decreases |ops|
  {
    if ops == [] then e else EnvRun(EnvDo(e, def, ops[0]), def, ops[1..])
  }

  ghost function TokenRun(t: TokenState, def: DataDefinition, ops: seq<Operation>): TokenState
    decreases |ops|
  {
    if ops == [] then t else TokenRun(TokenDo(t, def, ops[0]), def, ops[1..])
  }

  // ----- the token refines the environment

  predicate AgreeOn(a: Variables, b: Variables, names: set<string>) { Only(a, names) == Only(b, names) }

  /** The layers of an activation fit together. */
  predicate Fits(outer: Variables, a: Activation) {
    a.local.Keys <= a.names && AgreeOn(outer, a.base, a.names)
  }

  predicate Represents(t: TokenState, e: Environment) {
    && t.variables == Visible(e)
    && (t.dataScope.Some? <==> e.active.Some?)
    && (e.active.Some? ==>
          var a := e.active.value;
          Fits(e.outer, a) && t.dataScope.value == DataScope(a.node, a.base, a.names))
  }

  lemma OuterIsRestored(outer: Variables, a: Activation)
    requires Fits(outer, a)
    ensures Restored((outer - a.names) + a.local, a.base, a.names) == outer
  {
    forall x ensures x in Restored((outer - a.names) + a.local, a.base, a.names) <==> x in outer {
      if x in a.names {
        assert x in outer <==> x in Only(outer, a.names);
        assert x in a.base <==> x in Only(a.base, a.names);
      }
    }
    forall x | x in outer && x in a.names ensures x in a.base && outer[x] == a.base[x] {
      assert x in Only(outer, a.names) && Only(outer, a.names)[x] == Only(a.base, a.names)[x];
    }
  }

  /** In every state a run reaches, `process_variables` is the outer layer. */
  lemma ProcessVariablesAreOuter(t: TokenState, e: Environment)
    requires Represents(t, e)
    ensures OuterVariables(t) == e.outer
  {
    if e.active.Some? { OuterIsRestored(e.outer, e.active.value); }
  }

  lemma EnterRefines(t: TokenState, e: Environment, def: DataDefinition, node: Id)
    requires Represents(t, e)
    ensures Represents(Entered(t, def, node).token, EnvEnter(e, def, node))
  {
    if !(e.active.Some? && e.active.value.node == node) {
      var outer := EnvDiscard(e).outer;
      assert Discarded(t).variables == outer;
      if EntersScope(def, node, outer) {
        var inputs := Outcome(def.mappings[node].inputs, outer);
        assert outer + inputs == (outer - inputs.Keys) + inputs;
      }
    }
  }

  lemma SetInLayers<K, V>(outer: map<K, V>, names: set<K>, local: map<K, V>, k: K, v: V)
    ensures k in names ==> ((outer - names) + local)[k := v] == (outer - names) + local[k := v]
    ensures k !in names && k !in local ==> ((outer - names) + local)[k := v] == (outer[k := v] - names) + local
  {
  }

  lemma UnsetInLayers<K, V>(outer: map<K, V>, names: set<K>, local: map<K, V>, k: K)
    ensures k in names ==> ((outer - names) + local) - {k} == (outer - names) + (local - {k})
    ensures k !in names && k !in local ==> ((outer - names) + local) - {k} == ((outer - {k}) - names) + local
  {
  }

  lemma WriteRefines(t: TokenState, e: Environment, def: DataDefinition, name: string, value: Value)
    requires Represents(t, e)
    ensures Represents(TokenDo(t, def, Writes(name, value)), EnvWrite(e, name, value))
  {
    if e.active.Some? {
      var a := e.active.value;
      SetInLayers(e.outer, a.names, a.local, name, value);
      assert name !in a.names ==> Only(e.outer[name := value], a.names) == Only(e.outer, a.names);
    }
  }

  lemma RemoveRefines(t: TokenState, e: Environment, def: DataDefinition, name: string)
    requires Represents(t, e)
    ensures Represents(TokenDo(t, def, Removes(name)), EnvRemove(e, name))
  {
    if e.active.Some? {
      var a := e.active.value;
      UnsetInLayers(e.outer, a.names, a.local, name);
      assert name !in a.names ==> Only(e.outer - {name}, a.names) == Only(e.outer, a.names);
    }
  }

  lemma OnlyOfSum(a: Variables, b: Variables, names: set<string>)
    ensures Only(a + b, names) == Only(a, names) + Only(b, names)
  {
  }

  lemma TransferRefines(t: TokenState, e: Environment, vars: Variables)
    requires Represents(t, e)
    ensures Represents(Transferred(t, vars), EnvTransfer(e, vars))
  {
    if e.active.Some? {
      var a, outer := e.active.value, e.outer;
      assert ((outer - a.names) + a.local) + vars == ((outer + vars) - a.names) + (a.local + Only(vars, a.names));
      OnlyOfSum(outer, vars, a.names);
      OnlyOfSum(a.base, vars, a.names);
    }
  }

  lemma LeaveRefines(t: TokenState, e: Environment, def: DataDefinition, node: Id)
    requires Represents(t, e)
    ensures Represents(Left(t, def, node).token, EnvLeave(e, def, node))
  {
    if e.active.Some? && e.active.value.node == node && node in def.mappings && def.mappings[node].outputs == [] {
      ProcessVariablesAreOuter(t, e);
      assert Outcome([], t.variables) == map[];
      assert e.outer + map[] == e.outer;
    }
  }

  lemma StepRefines(t: TokenState, e: Environment, def: DataDefinition, op: Operation)
    requires Represents(t, e)
    ensures Represents(TokenDo(t, def, op), EnvDo(e, def, op))
  {
    match op
    case Enters(node) => EnterRefines(t, e, def, node);
    case Writes(name, value) => WriteRefines(t, e, def, name, value);
    case Removes(name) => RemoveRefines(t, e, def, name);
    case Transfers(vars) => TransferRefines(t, e, vars);
    case Leaves(node) => LeaveRefines(t, e, def, node);
    case Discards =>
  }

  /** Over every run, the token shows its environment: what is inside, and what is outside. */
  lemma {:induction false} RunRefines(t: TokenState, e: Environment, def: DataDefinition, ops: seq<Operation>)
    requires Represents(t, e)
    ensures Represents(TokenRun(t, def, ops), EnvRun(e, def, ops))
    ensures OuterVariables(TokenRun(t, def, ops)) == EnvRun(e, def, ops).outer
    decreases |ops|
  {
    if ops == [] {
      ProcessVariablesAreOuter(t, e);
    } else {
      StepRefines(t, e, def, ops[0]);
      RunRefines(TokenDo(t, def, ops[0]), EnvDo(e, def, ops[0]), def, ops[1..]);
    }
  }

  /** A token outside any activity is its own outer layer. */
  lemma EveryRunRefines(t: TokenState, def: DataDefinition, ops: seq<Operation>)
    requires t.dataScope.None?
    ensures Represents(TokenRun(t, def, ops), EnvRun(Environment(t.variables, None), def, ops))
    ensures OuterVariables(TokenRun(t, def, ops)) == EnvRun(Environment(t.variables, None), def, ops).outer
  {
    RunRefines(t, Environment(t.variables, None), def, ops);
  }

  /** Entering again changes nothing and gives the same answer, in every state. */
  lemma ReentryChangesNothing(t: TokenState, def: DataDefinition, node: Id)
    ensures Entered(Entered(t, def, node).token, def, node) == Entered(t, def, node)
  {
  }

  /** A failing enter or leave applies no mapping; but an enter first gives up the scope of another node. */
  lemma FailureAppliesNothing(t: TokenState, def: DataDefinition, node: Id)
    ensures !Entered(t, def, node).ok ==>
              Entered(t, def, node).token == Discarded(t) && (t.dataScope.Some? ==> t.dataScope.value.nodeId != node)
    ensures !Left(t, def, node).ok ==> Left(t, def, node).token == t
  {
  }

  // ----- leaving an activity

  /** Writes and transfers: what happens while the activity runs. */
  predicate IsBody(ops: seq<Operation>) {
    forall i | 0 <= i < |ops| :: ops[i].Writes? || ops[i].Removes? || ops[i].Transfers?
  }

  /** `vars` after the transfers of a run and its writes to names other than `hidden`. */
  function Outside(vars: Variables, ops: seq<Operation>, hidden: set<string>): Variables
    decreases |ops|
  {
    if ops == [] then vars
    else
      var after := match ops[0]
        case Writes(name, value) => if name in hidden then vars else vars[name := value]
        case Removes(name) => if name in hidden then vars else vars - {name}
        case Transfers(transferred) => vars + transferred
        case _ => vars;
      Outside(after, ops[1..], hidden)
  }

  /** `vars` after the transfers of a run. */
  function AfterTransfers(vars: Variables, ops: seq<Operation>): Variables
    decreases |ops|
  {
    if ops == [] then vars
    else AfterTransfers(if ops[0].Transfers? then vars + ops[0].vars else vars, ops[1..])
  }

  lemma {:induction false} BodyKeepsLayers(e: Environment, def: DataDefinition, ops: seq<Operation>)
    requires IsBody(ops) && e.active.Some?
    ensures var a, after := e.active.value, EnvRun(e, def, ops);
            && after.active.Some?
            && after.active.value.node == a.node && after.active.value.names == a.names
            && after.active.value.base == AfterTransfers(a.base, ops)
            && after.outer == Outside(e.outer, ops, a.names)
    decreases |ops|
  {
    if ops != [] {
      BodyKeepsLayers(EnvDo(e, def, ops[0]), def, ops[1..]);
    }
  }

  /** While the activity runs, the token keeps the layers apart. */
  lemma InsideScope(t: TokenState, def: DataDefinition, node: Id, body: seq<Operation>)
    requires t.dataScope.None? && EntersScope(def, node, t.variables) && IsBody(body)
    ensures var inside := TokenRun(Entered(t, def, node).token, def, body);
            && inside.dataScope.Some? && inside.dataScope.value.nodeId == node
            && inside.dataScope.value.original == AfterTransfers(t.variables, body)
            && OuterVariables(inside) == Outside(t.variables, body, DataMapping.Targets(def.mappings[node].inputs))
  {
    var plain := Environment(t.variables, None);
    var entered, e := Entered(t, def, node).token, EnvEnter(plain, def, node);
    EnterRefines(t, plain, def, node);
    RunRefines(entered, e, def, body);
    BodyKeepsLayers(e, def, body);
  }

  /** Enter, any writes and transfers, then leave. With outputs the entry variables, the transfers and
      the outputs remain. Without, the writes to names that are no inputs remain as well. */
  lemma ExitIsolates(t: TokenState, def: DataDefinition, node: Id, body: seq<Operation>)
    requires t.dataScope.None? && EntersScope(def, node, t.variables) && IsBody(body)
    ensures var inside := TokenRun(Entered(t, def, node).token, def, body);
            var left, outputs := Left(inside, def, node), def.mappings[node].outputs;
            && (left.ok <==> Evaluates(outputs, inside.variables))
            && (left.ok ==> left.token.dataScope.None?)
            && (outputs == [] ==>
                  left.ok
                  && left.token.variables == Outside(t.variables, body, DataMapping.Targets(def.mappings[node].inputs)))
            && (left.ok && outputs != [] ==>
                  left.token.variables == AfterTransfers(t.variables, body) + Outcome(outputs, inside.variables))
  {
    InsideScope(t, def, node, body);
    var inside := TokenRun(Entered(t, def, node).token, def, body);
    if def.mappings[node].outputs == [] {
      NoOutputs(inside.variables);
      assert OuterVariables(inside) + map[] == OuterVariables(inside);
    }
  }

  lemma NoOutputs(vars: Variables)
    ensures Evaluates([], vars) && Outcome([], vars) == map[]
  {
  }

  // ----- multi-instance activities share one token

  predicate IsInputTarget(inputs: seq<Mapping>, name: string) { exists i | 0 <= i < |inputs| :: inputs[i].target == name }

  ghost function Published(vars: Variables, def: DataDefinition, node: Id, snapshot: Variables, worker: Variables)
    : Result<Variables>
  {
    if node !in def.mappings then Ok(vars + worker)
    else
      var m := def.mappings[node];
      if m.outputs == [] then Ok(vars + (worker - DataMapping.Targets(m.inputs)))
      else if Evaluates(m.outputs, snapshot + worker) then Ok(vars + Outcome(m.outputs, snapshot + worker))
      else Err
  }

  method PublishMultiInstanceOutputs(token: Token, def: DataDefinition, node: Id, snapshot: Variables, worker: Variables)
    returns (r: Result<()>)
    modifies token
    ensures var published := Published(old(token.variables), def, node, snapshot, worker);
            && r.Ok? == published.Ok?
            && token.State() == old(token.State()).(variables := if r.Ok? then published.value else old(token.variables))
  {
    if node !in def.mappings {
      NothingHidden(worker);
      token.variables := InsertAll(token.variables, worker, []);
      return Ok(());
    }
    var m := def.mappings[node];
    if m.outputs == [] {
      token.variables := InsertAll(token.variables, worker, m.inputs);
      return Ok(());
    }
    var outputs :- EvaluateMappings(m.outputs, snapshot + worker);
    NothingHidden(outputs);
    token.variables := InsertAll(token.variables, outputs, []);
    r := Ok(());
  }

  lemma InsertOne<K, V>(vars: map<K, V>, more: map<K, V>, todo: set<K>, hidden: set<K>, key: K)
    requires key in todo && todo <= more.Keys
    ensures var before := vars + (more - todo - hidden);
            vars + (more - (todo - {key}) - hidden) == if key in hidden then before else before[key := more[key]]
  {
  }

  method InsertAll(vars: Variables, more: Variables, hidden: seq<Mapping>) returns (r: Variables)
    ensures r == vars + (more - DataMapping.Targets(hidden))
  {
    r := vars;
    ghost var names := DataMapping.Targets(hidden);
    var todo := more.Keys;
    while todo != {}
      invariant todo <= more.Keys
      invariant r == vars + (more - todo - names)
      decreases |todo|
    {
      var key: string :| key in todo;
      InsertOne(vars, more, todo, names, key);
      if !IsInputTarget(hidden, key) {
        r := r[key := more[key]];
      }
      todo := todo - {key};
    }
    assert more - {} == more;
  }

  lemma NothingHidden(more: Variables)
    ensures more - DataMapping.Targets([]) == more
  {
  }

  datatype Completion = Completion(snapshot: Variables, worker: Variables)

  /** The shared variables after any completions, each of which may fail. */
  ghost function PublishAll(vars: Variables, def: DataDefinition, node: Id, done: seq<Completion>): Variables
    decreases |done|
  {
    if done == [] then vars
    else
      var r := Published(vars, def, node, done[0].snapshot, done[0].worker);
      PublishAll(if r.Ok? then r.value else vars, def, node, done[1..])
  }

  /** Without outputs, no completion ever touches an input target on the shared token. */
  lemma {:induction false} InputsStayLocal(vars: Variables, def: DataDefinition, node: Id, done: seq<Completion>)
    requires node in def.mappings && def.mappings[node].outputs == []
    ensures var names := DataMapping.Targets(def.mappings[node].inputs);
            AgreeOn(PublishAll(vars, def, node, done), vars, names)
    decreases |done|
  {
    if done != [] {
      var names := DataMapping.Targets(def.mappings[node].inputs);
      var r := Published(vars, def, node, done[0].snapshot, done[0].worker);
      assert Only(r.value, names) == Only(vars, names);
      InputsStayLocal(r.value, def, node, done[1..]);
    }
  }
}
