/** How the data mappings of an activity are collected from its associations and extensions. */
module ActivityParser {
  import opened Common
  import Json
  import opened XmlTree
  import opened DataMapping
  import opened MappingParser

  /** Declared identifiers and the variables they name. */
  type References = map<string, string>

  datatype Tables = Tables(inputs: References, outputs: References)

  /** `step` over the first `n` nodes, stopping at the first failure. */
  function Fold<S>(step: (S, Node) -> Result<S>, s: S, nodes: seq<Node>, n: nat): Result<S>
    requires n <= |nodes|
  {
    if n == 0 then Ok(s)
    else
      var before :- Fold(step, s, nodes, n - 1);
      step(before, nodes[n - 1])
  }

  lemma FoldNext<S>(step: (S, Node) -> Result<S>, s: S, nodes: seq<Node>, n: nat, before: S)
    requires n < |nodes| && Fold(step, s, nodes, n) == Ok(before)
    ensures Fold(step, s, nodes, n + 1) == step(before, nodes[n])
  {
  }

  lemma {:induction false} FoldFails<S>(step: (S, Node) -> Result<S>, s: S, nodes: seq<Node>, n: nat)
    requires n <= |nodes| && Fold(step, s, nodes, n).Err?
    ensures Fold(step, s, nodes, |nodes|).Err?
    decreases |nodes| - n
  {
    if n < |nodes| { FoldFails(step, s, nodes, n + 1); }
  }

  // ----- declarations of the activity

  predicate HasAttr(node: Node, name: string, value: string) { name in node.attrs && node.attrs[name] == value }

  function DisplayName(node: Node): string
    requires "id" in node.attrs
  {
    if "name" in node.attrs && !Blank(node.attrs["name"]) then node.attrs["name"] else node.attrs["id"]
  }

  function PropertyStep(refs: References, t: Tables, p: Node): Result<Tables> {
    if p.name != "property" then Ok(t)
    else if "id" !in p.attrs || p.attrs["id"] in refs || p.attrs["id"] in t.inputs then Err
    else if "bpmninja:default" in p.attrs then Err
    else Ok(Tables(t.inputs[p.attrs["id"] := DisplayName(p)], t.outputs[p.attrs["id"] := DisplayName(p)]))
  }

  function IoItemStep(refs: References, t: Tables, item: Node): Result<Tables> {
    if item.name == "dataInput" || item.name == "dataOutput" then
      if HasAttr(item, "isCollection", "true") || "id" !in item.attrs then Err
      else
        var id := item.attrs["id"];
        if id in refs || id in t.inputs || id in t.outputs then Err
        else if item.name == "dataInput" then Ok(t.(inputs := t.inputs[id := DisplayName(item)]))
        else Ok(t.(outputs := t.outputs[id := DisplayName(item)]))
    else if item.name == "inputSet" || item.name == "outputSet" then Ok(t)
    else Err
  }

  function PropertySteps(refs: References): (Tables, Node) -> Result<Tables> {
    (t: Tables, p: Node) => PropertyStep(refs, t, p)
  }

  function IoItemSteps(refs: References): (Tables, Node) -> Result<Tables> {
    (t: Tables, item: Node) => IoItemStep(refs, t, item)
  }

  function IoSteps(refs: References): (Tables, Node) -> Result<Tables> {
    (t: Tables, io: Node) =>
      if io.name != "ioSpecification" then Ok(t) else Fold(IoItemSteps(refs), t, io.children, |io.children|)
  }

  function Declared(node: Node, refs: References): Result<Tables> {
    var t :- Fold(PropertySteps(refs), Tables(map[], map[]), node.children, |node.children|);
    Fold(IoSteps(refs), t, node.children, |node.children|)
  }

  // ----- mappings

  /** One more mapping, if its target is new and not blank. */
  function Add(ms: seq<Mapping>, target: string, value: MappingValue): Result<seq<Mapping>> {
    if Blank(target) || target in Targets(ms) then Err else Ok(ms + [Mapping(target, value)])
  }

  datatype Direction = Input | Output | CallInput | CallOutput

  function OrEmpty(ms: Option<seq<Mapping>>): seq<Mapping> { if ms.Some? then ms.value else [] }

  function ListOf(l: ActivityMappings, d: Direction): seq<Mapping> {
    match d
    case Input => l.inputs
    case Output => l.outputs
    case CallInput => OrEmpty(l.callInputs)
    case CallOutput => OrEmpty(l.callOutputs)
  }

  /** One more mapping in one of the four lists. */
  function AddTo(l: ActivityMappings, d: Direction, target: string, value: MappingValue): (r: Result<ActivityMappings>)
    ensures r.Ok? ==> ListOf(r.value, d) == ListOf(l, d) + [Mapping(target, value)]
    ensures r.Ok? ==> forall e: Direction | e != d :: ListOf(r.value, e) == ListOf(l, e)
    ensures r.Ok? <==> !Blank(target) && target !in Targets(ListOf(l, d))
  {
    var ms :- Add(ListOf(l, d), target, value);
    match d
    case Input => Ok(l.(inputs := ms))
    case Output => Ok(l.(outputs := ms))
    case CallInput => Ok(l.(callInputs := Some(ms)))
    case CallOutput => Ok(l.(callOutputs := Some(ms)))
  }

  function Named(children: seq<Node>, name: string): seq<Node> {
    if children == [] then []
    else (if children[0].name == name then [children[0]] else []) + Named(children[1..], name)
  }

  /** An association between one declared source and one declared target. */
  function Associated(a: Node, sources: References, targets: References): Result<Mapping> {
    if exists i | 0 <= i < |a.children| :: a.children[i].name != "sourceRef" && a.children[i].name != "targetRef" then Err
    else
      var from, to := Named(a.children, "sourceRef"), Named(a.children, "targetRef");
      if |from| != 1 || |to| != 1 then Err
      else
        var source, target := Trim(from[0].text), Trim(to[0].text);
        if source !in sources || target !in targets then Err else Ok(Mapping(targets[target], Variable(sources[source])))
  }

  function AssociationStep(refs: References, t: Tables, l: ActivityMappings, a: Node): Result<ActivityMappings> {
    if a.name == "dataInputAssociation" then
      var m :- Associated(a, refs, t.inputs);
      AddTo(l, Input, m.target, m.value)
    else if a.name == "dataOutputAssociation" then
      var m :- Associated(a, t.outputs, refs);
      AddTo(l, Output, m.target, m.value)
    else Ok(l)
  }

  function ParameterStep(l: ActivityMappings, p: Node): Result<ActivityMappings> {
    if "name" !in p.attrs then Err
    else if p.name == "inputParameter" then
      var value :- Value(p);
      AddTo(l, Input, p.attrs["name"], value)
    else if p.name == "outputParameter" then
      var value :- Value(p);
      AddTo(l, Output, p.attrs["name"], value)
    else Err
  }

  /** The source of an `in` or `out` extension: a variable, or an expression that refers to one. */
  function CallSource(e: Node): Result<MappingValue> {
    if "source" in e.attrs && "sourceExpression" !in e.attrs then
      var name :- Reference(e.attrs["source"]);
      Ok(Variable(name))
    else if "source" !in e.attrs && "sourceExpression" in e.attrs then
      if OpensExpression(Trim(e.attrs["sourceExpression"])) then Expression(e.attrs["sourceExpression"]) else Err
    else Err
  }

  function CallStep(activity: string, l: ActivityMappings, e: Node): Result<ActivityMappings> {
    if activity != "callActivity" || "variables" in e.attrs || "local" in e.attrs || "businessKey" in e.attrs then Err
    else if "target" !in e.attrs then Err
    else
      var value :- CallSource(e);
      AddTo(l, if e.name == "in" then CallInput else CallOutput, e.attrs["target"], value)
  }

  function AssociationSteps(refs: References, t: Tables): (ActivityMappings, Node) -> Result<ActivityMappings> {
    (l: ActivityMappings, a: Node) => AssociationStep(refs, t, l, a)
  }

  function ParameterSteps(): (ActivityMappings, Node) -> Result<ActivityMappings> {
    (l: ActivityMappings, p: Node) => ParameterStep(l, p)
  }

  function ExtensionStep(activity: string, l: ActivityMappings, e: Node): Result<ActivityMappings> {
    if e.name == "inputOutput" then Fold(ParameterSteps(), l, e.children, |e.children|)
    else if e.name == "in" || e.name == "out" then CallStep(activity, l, e)
    else Ok(l)
  }

  function ExtensionSteps(activity: string): (ActivityMappings, Node) -> Result<ActivityMappings> {
    (l: ActivityMappings, e: Node) => ExtensionStep(activity, l, e)
  }

  function GroupStep(activity: string, l: ActivityMappings, group: Node): Result<ActivityMappings> {
    if group.name != "extensionElements" then Ok(l)
    else Fold(ExtensionSteps(activity), l, group.children, |group.children|)
  }

  function ExtensionGroups(activity: string): (ActivityMappings, Node) -> Result<ActivityMappings> {
    (l: ActivityMappings, group: Node) => GroupStep(activity, l, group)
  }

  /** With mappings for one direction of a call, both are explicit. */
  function Completed(l: ActivityMappings): ActivityMappings {
    if l.callInputs.None? && l.callOutputs.None? then l
    else l.(callInputs := Some(OrEmpty(l.callInputs)), callOutputs := Some(OrEmpty(l.callOutputs)))
  }

  const NOTHING := ActivityMappings([], [], None, None)

  function Activity(node: Node, refs: References): Result<ActivityMappings> {
    var t :- Declared(node, refs);
    var l :- Fold(AssociationSteps(refs, t), NOTHING, node.children, |node.children|);
    var all :- Fold(ExtensionGroups(node.name), l, node.children, |node.children|);
    Ok(Completed(all))
  }

  // ----- the loops

  /** The loop that most sections share: one step per node, up to the first failure. */
  method FoldNodes<S>(step: (S, Node) -> Result<S>, start: S, nodes: seq<Node>) returns (r: Result<S>)
    ensures r == Fold(step, start, nodes, |nodes|)
  {
    var s := start;
    for i := 0 to |nodes|
      invariant Fold(step, start, nodes, i) == Ok(s)
    {
      var next := step(s, nodes[i]);
      if next.Err? {
        FoldFails(step, start, nodes, i + 1);
        return Err;
      }
      s := next.value;
    }
    r := Ok(s);
  }

  method ReadTables(node: Node, refs: References) returns (r: Result<Tables>)
    ensures r == Declared(node, refs)
  {
    var t :- FoldNodes(PropertySteps(refs), Tables(map[], map[]), node.children);
    r := ReadIoSpecifications(node, refs, t);
  }

  method ReadIoSpecifications(node: Node, refs: References, start: Tables) returns (r: Result<Tables>)
    ensures r == Fold(IoSteps(refs), start, node.children, |node.children|)
  {
    var t := start;
    for i := 0 to |node.children|
      invariant Fold(IoSteps(refs), start, node.children, i) == Ok(t)
    {
      FoldNext(IoSteps(refs), start, node.children, i, t);
      if node.children[i].name == "ioSpecification" {
        var next := FoldNodes(IoItemSteps(refs), t, node.children[i].children);
        if next.Err? {
          FoldFails(IoSteps(refs), start, node.children, i + 1);
          return Err;
        }
        t := next.value;
      }
    }
    r := Ok(t);
  }

  method ReadAssociations(node: Node, refs: References, t: Tables) returns (r: Result<ActivityMappings>)
    ensures r == Fold(AssociationSteps(refs, t), NOTHING, node.children, |node.children|)
  {
    r := FoldNodes(AssociationSteps(refs, t), NOTHING, node.children);
  }

  method ReadParameters(e: Node, start: ActivityMappings) returns (r: Result<ActivityMappings>)
    ensures r == Fold(ParameterSteps(), start, e.children, |e.children|)
  {
    r := FoldNodes(ParameterSteps(), start, e.children);
  }

  method ReadExtension(activity: string, e: Node, l: ActivityMappings) returns (r: Result<ActivityMappings>)
    ensures r == ExtensionStep(activity, l, e)
  {
    if e.name == "inputOutput" {
      r := ReadParameters(e, l);
    } else if e.name == "in" || e.name == "out" {
      r := CallStep(activity, l, e);
    } else {
      r := Ok(l);
    }
  }

  method ReadExtensions(activity: string, group: Node, start: ActivityMappings) returns (r: Result<ActivityMappings>)
    ensures r == Fold(ExtensionSteps(activity), start, group.children, |group.children|)
  {
    var l := start;
    for i := 0 to |group.children|
      invariant Fold(ExtensionSteps(activity), start, group.children, i) == Ok(l)
    {
      FoldNext(ExtensionSteps(activity), start, group.children, i, l);
      var next := ReadExtension(activity, group.children[i], l);
      if next.Err? {
        FoldFails(ExtensionSteps(activity), start, group.children, i + 1);
        return Err;
      }
      l := next.value;
    }
    r := Ok(l);
  }

  method ReadGroups(node: Node, start: ActivityMappings) returns (r: Result<ActivityMappings>)
    ensures r == Fold(ExtensionGroups(node.name), start, node.children, |node.children|)
  {
    var l := start;
    for i := 0 to |node.children|
      invariant Fold(ExtensionGroups(node.name), start, node.children, i) == Ok(l)
    {
      FoldNext(ExtensionGroups(node.name), start, node.children, i, l);
      var next := Ok(l);
      if node.children[i].name == "extensionElements" {
        next := ReadExtensions(node.name, node.children[i], l);
      }
      assert next == GroupStep(node.name, l, node.children[i]);
      if next.Err? {
        FoldFails(ExtensionGroups(node.name), start, node.children, i + 1);
        return Err;
      }
      l := next.value;
    }
    r := Ok(l);
  }

  method ReadActivity(node: Node, refs: References) returns (r: Result<ActivityMappings>)
    ensures r == Activity(node, refs)
    ensures r.Ok? ==> AreProper(r.value)
  {
    var t :- ReadTables(node, refs);
    var l :- ReadAssociations(node, refs, t);
    var all :- ReadGroups(node, l);
    ParsedListsAreProper(node, refs);
    r := Ok(Completed(all));
  }

  // ----- what the lists guarantee

  ghost predicate AreProper(l: ActivityMappings) { forall d: Direction :: TargetsAreProper(ListOf(l, d)) }

  /** Mappings are only ever added, and every list stays proper. */
  ghost predicate Extends(l: ActivityMappings, more: ActivityMappings) {
    && (AreProper(l) ==> AreProper(more))
    && forall d: Direction :: ListOf(l, d) <= ListOf(more, d)
  }

  lemma ExtendsTwice(a: ActivityMappings, b: ActivityMappings, c: ActivityMappings)
    requires Extends(a, b) && Extends(b, c)
    ensures Extends(a, c)
  {
  }

  lemma AddKeepsProper(ms: seq<Mapping>, target: string, value: MappingValue)
    requires TargetsAreProper(ms) && !Blank(target) && target !in Targets(ms)
    ensures TargetsAreProper(ms + [Mapping(target, value)])
  {
  }

  lemma AddExtends(l: ActivityMappings, d: Direction, target: string, value: MappingValue)
    requires AddTo(l, d, target, value).Ok?
    ensures Extends(l, AddTo(l, d, target, value).value)
  {
    var more := AddTo(l, d, target, value).value;
    if AreProper(l) {
      AddKeepsProper(ListOf(l, d), target, value);
      assert forall e: Direction | e != d :: ListOf(more, e) == ListOf(l, e);
    }
  }

  /** Every step adds to the lists. */
  ghost predicate StepsExtend(step: (ActivityMappings, Node) -> Result<ActivityMappings>) {
    forall l, x :: step(l, x).Ok? ==> Extends(l, step(l, x).value)
  }

  lemma {:induction false} FoldExtends(step: (ActivityMappings, Node) -> Result<ActivityMappings>, l: ActivityMappings,
                                       nodes: seq<Node>, i: nat, n: nat)
    requires i <= n <= |nodes| && StepsExtend(step) && Fold(step, l, nodes, n).Ok?
    ensures Fold(step, l, nodes, i).Ok? && Extends(Fold(step, l, nodes, i).value, Fold(step, l, nodes, n).value)
    decreases n
  {
    if i < n {
      FoldExtends(step, l, nodes, i, n - 1);
      ExtendsTwice(Fold(step, l, nodes, i).value, Fold(step, l, nodes, n - 1).value, Fold(step, l, nodes, n).value);
    }
  }

  lemma AssociationsExtend(refs: References, t: Tables)
    ensures StepsExtend(AssociationSteps(refs, t))
  {
    forall l, a | AssociationSteps(refs, t)(l, a).Ok? ensures Extends(l, AssociationSteps(refs, t)(l, a).value) {
      if a.name == "dataInputAssociation" {
        var m := Associated(a, refs, t.inputs).value;
        AddExtends(l, Input, m.target, m.value);
      } else if a.name == "dataOutputAssociation" {
        var m := Associated(a, t.outputs, refs).value;
        AddExtends(l, Output, m.target, m.value);
      }
    }
  }

  lemma ParametersExtend()
    ensures StepsExtend(ParameterSteps())
  {
    forall l, p | ParameterSteps()(l, p).Ok? ensures Extends(l, ParameterSteps()(l, p).value) {
      AddExtends(l, if p.name == "inputParameter" then Input else Output, p.attrs["name"], Value(p).value);
    }
  }

  lemma ExtensionsExtend(activity: string)
    ensures StepsExtend(ExtensionSteps(activity))
  {
    forall l, e | ExtensionSteps(activity)(l, e).Ok? ensures Extends(l, ExtensionSteps(activity)(l, e).value) {
      if e.name == "inputOutput" {
        ParametersExtend();
        FoldExtends(ParameterSteps(), l, e.children, 0, |e.children|);
      } else if e.name == "in" || e.name == "out" {
        AddExtends(l, if e.name == "in" then CallInput else CallOutput, e.attrs["target"], CallSource(e).value);
      }
    }
  }

  lemma GroupsExtend(activity: string)
    ensures StepsExtend(ExtensionGroups(activity))
  {
    forall l, g | ExtensionGroups(activity)(l, g).Ok? ensures Extends(l, ExtensionGroups(activity)(l, g).value) {
      if g.name == "extensionElements" {
        ExtensionsExtend(activity);
        FoldExtends(ExtensionSteps(activity), l, g.children, 0, |g.children|);
      }
    }
  }

  /** Every mapping list of a parsed activity has non-blank, distinct targets. */
  lemma ParsedListsAreProper(node: Node, refs: References)
    requires Activity(node, refs).Ok?
    ensures AreProper(Activity(node, refs).value)
  {
    var t := Declared(node, refs).value;
    AssociationsExtend(refs, t);
    GroupsExtend(node.name);
    FoldExtends(AssociationSteps(refs, t), NOTHING, node.children, 0, |node.children|);
    var l := Fold(AssociationSteps(refs, t), NOTHING, node.children, |node.children|).value;
    FoldExtends(ExtensionGroups(node.name), l, node.children, 0, |node.children|);
    var all := Fold(ExtensionGroups(node.name), l, node.children, |node.children|).value;
    assert forall d: Direction :: ListOf(Completed(all), d) == ListOf(all, d);
  }

  /** So at run time only a missing variable can make a phase fail. */
  lemma OnlyMissingVariablesFail(node: Node, refs: References, d: Direction, vars: Json.Variables)
    requires Activity(node, refs).Ok?
    ensures var ms := ListOf(Activity(node, refs).value, d); Evaluates(ms, vars) <==> VariablesExist(ms, vars)
  {
    ParsedListsAreProper(node, refs);
  }

  /** The mapping an association declares is in the list of its direction. */
  ghost predicate IsMapped(a: Node, refs: References, t: Tables, l: ActivityMappings) {
    var input, output := Associated(a, refs, t.inputs), Associated(a, t.outputs, refs);
    && (a.name == "dataInputAssociation" ==> input.Ok? && input.value in ListOf(l, Input))
    && (a.name == "dataOutputAssociation" ==> output.Ok? && output.value in ListOf(l, Output))
  }

  lemma StepMaps(refs: References, t: Tables, l: ActivityMappings, a: Node)
    requires AssociationStep(refs, t, l, a).Ok?
    ensures IsMapped(a, refs, t, AssociationStep(refs, t, l, a).value)
  {
  }

  lemma StaysMapped(a: Node, refs: References, t: Tables, l: ActivityMappings, more: ActivityMappings)
    requires IsMapped(a, refs, t, l) && Extends(l, more)
    ensures IsMapped(a, refs, t, more)
  {
    assert ListOf(l, Input) <= ListOf(more, Input) && ListOf(l, Output) <= ListOf(more, Output);
  }

  /** Every association ends up as a mapping in its own direction. */
  lemma AssociationIsMapped(node: Node, refs: References, i: nat)
    requires Activity(node, refs).Ok? && i < |node.children|
    ensures IsMapped(node.children[i], refs, Declared(node, refs).value, Activity(node, refs).value)
  {
    var t, a, n := Declared(node, refs).value, node.children[i], |node.children|;
    var steps := AssociationSteps(refs, t);
    AssociationsExtend(refs, t);
    FoldExtends(steps, NOTHING, node.children, i, n);
    FoldExtends(steps, NOTHING, node.children, i + 1, n);
    StepMaps(refs, t, Fold(steps, NOTHING, node.children, i).value, a);
    var l := Fold(steps, NOTHING, node.children, n).value;
    StaysMapped(a, refs, t, Fold(steps, NOTHING, node.children, i + 1).value, l);
    GroupsExtend(node.name);
    FoldExtends(ExtensionGroups(node.name), l, node.children, 0, n);
    StaysMapped(a, refs, t, l, Fold(ExtensionGroups(node.name), l, node.children, n).value);
  }
}
