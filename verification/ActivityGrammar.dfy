/** What an activity declares and maps, said element by element; and that the parser finds exactly this. */
module ActivityGrammar {
  import opened Common
  import Json
  import opened XmlTree
  import opened DataMapping
  import opened MappingParser
  import opened ActivityParser
  import opened MappingGrammar

  // ----- the elements that map something, in document order

  datatype Part = Association(e: Node) | Parameter(e: Node) | Call(e: Node)

  function Flat<P>(xss: seq<seq<P>>): seq<P> {
    if xss == [] then [] else Flat(xss[..|xss| - 1]) + xss[|xss| - 1]
  }

  function OfAssociation(c: Node): seq<Part> {
    if c.name in {"dataInputAssociation", "dataOutputAssociation"} then [Association(c)] else []
  }

  function OfExtension(c: Node): seq<Part> {
    if c.name == "inputOutput" then seq(|c.children|, i requires 0 <= i < |c.children| => Parameter(c.children[i]))
    else if c.name in {"in", "out"} then [Call(c)]
    else []
  }

  function OfGroup(c: Node): seq<Part> {
    if c.name == "extensionElements" then
      Flat(seq(|c.children|, i requires 0 <= i < |c.children| => OfExtension(c.children[i])))
    else []
  }

  /** Associations first, then the extensions. */
  function Parts(node: Node): seq<Part> {
    var n := |node.children|;
    Flat(seq(n, i requires 0 <= i < n => OfAssociation(node.children[i])))
    + Flat(seq(n, i requires 0 <= i < n => OfGroup(node.children[i])))
  }

  // ----- what one of them maps

  datatype Entry = Entry(d: Direction, m: Mapping)

  /** Two references, in either order, to a declared source and a declared target. */
  predicate IsLink(a: Node, sources: References, targets: References, m: Mapping) {
    && |a.children| == 2
    && exists i | 0 <= i < 2 ::
         var from, to := a.children[i], a.children[1 - i];
         && from.name == "sourceRef" && to.name == "targetRef"
         && Trim(from.text) in sources && Trim(to.text) in targets
         && m == Mapping(targets[Trim(to.text)], Variable(sources[Trim(from.text)]))
  }

  predicate IsNamed(e: Node, attr: string, name: string) { attr in e.attrs && e.attrs[attr] == name }

  /** A variable, named or in an expression; not both. */
  ghost predicate IsSource(e: Node, v: MappingValue) {
    && v.Variable?
    && if "source" in e.attrs then "sourceExpression" !in e.attrs && Trim(e.attrs["source"]) == v.name && IsName(v.name)
       else "sourceExpression" in e.attrs && IsVariable(e.attrs["sourceExpression"], v.name)
  }

  /** What one element adds, and to which of the four lists. */
  ghost predicate Yields(p: Part, activity: string, refs: References, t: Tables, x: Entry) {
    match p
    case Association(e) =>
      if e.name == "dataInputAssociation" then x.d == Input && IsLink(e, refs, t.inputs, x.m)
      else e.name == "dataOutputAssociation" && x.d == Output && IsLink(e, t.outputs, refs, x.m)
    case Parameter(e) =>
      && (e.name == "inputParameter" || e.name == "outputParameter")
      && x.d == (if e.name == "inputParameter" then Input else Output)
      && IsNamed(e, "name", x.m.target) && Denotes(e, x.m.value)
    case Call(e) =>
      && activity == "callActivity" && e.attrs.Keys !! {"variables", "local", "businessKey"}
      && x.d == (if e.name == "in" then CallInput else CallOutput)
      && IsNamed(e, "target", x.m.target) && IsSource(e, x.m.value)
  }

  ghost predicate AreYields(ps: seq<Part>, activity: string, refs: References, t: Tables, xs: seq<Entry>) {
    |ps| == |xs| && forall i | 0 <= i < |ps| :: Yields(ps[i], activity, refs, t, xs[i])
  }

  /** What was added to one of the lists, in order. */
  function Of(xs: seq<Entry>, d: Direction): seq<Mapping> {
    if xs == [] then []
    else
      var last := xs[|xs| - 1];
      Of(xs[..|xs| - 1], d) + (if last.d == d then [last.m] else [])
  }

  /** The lists hold what was added, and the lists of a call are there together, once one of them has an entry. */
  ghost predicate AreLists(xs: seq<Entry>, r: ActivityMappings) {
    && r.inputs == Of(xs, Input) && r.outputs == Of(xs, Output)
    && if exists i | 0 <= i < |xs| :: xs[i].d == CallInput || xs[i].d == CallOutput
       then r.callInputs == Some(Of(xs, CallInput)) && r.callOutputs == Some(Of(xs, CallOutput))
       else r.callInputs == None && r.callOutputs == None
  }

  /** Each element adds its mapping, and no list has a blank target or the same target twice. */
  ghost predicate Maps(node: Node, refs: References, t: Tables, xs: seq<Entry>, r: ActivityMappings) {
    && AreYields(Parts(node), node.name, refs, t, xs)
    && (forall d: Direction :: TargetsAreProper(Of(xs, d)))
    && AreLists(xs, r)
  }

  // ----- what an activity declares

  datatype Decl = Property(e: Node) | Item(e: Node)

  function OfProperty(c: Node): seq<Decl> { if c.name == "property" then [Property(c)] else [] }

  function OfIo(c: Node): seq<Decl> {
    if c.name == "ioSpecification" then seq(|c.children|, i requires 0 <= i < |c.children| => Item(c.children[i])) else []
  }

  /** Properties first, then the items of the specifications. */
  function Decls(node: Node): seq<Decl> {
    var n := |node.children|;
    Flat(seq(n, i requires 0 <= i < n => OfProperty(node.children[i])))
    + Flat(seq(n, i requires 0 <= i < n => OfIo(node.children[i])))
  }

  /** A property is read and written, an input is written and an output is read. */
  predicate Tells(d: Decl, input: bool) { d.Property? || d.e.name == if input then "dataInput" else "dataOutput" }

  predicate Claims(d: Decl, id: string) { (Tells(d, true) || Tells(d, false)) && IsNamed(d.e, "id", id) }

  predicate IsAllowed(d: Decl) {
    if d.Property? then "id" in d.e.attrs && "bpmninja:default" !in d.e.attrs
    else if d.e.name in {"dataInput", "dataOutput"} then "id" in d.e.attrs && !IsNamed(d.e, "isCollection", "true")
    else d.e.name in {"inputSet", "outputSet"}
  }

  /** Every declaration is allowed and has an identifier of its own. */
  ghost predicate AreAllowed(ds: seq<Decl>, refs: References) {
    && (forall i | 0 <= i < |ds| :: IsAllowed(ds[i]))
    && (forall i, id | 0 <= i < |ds| && Claims(ds[i], id) :: id !in refs)
    && (forall i, j, id | 0 <= i < j < |ds| && Claims(ds[i], id) :: !Claims(ds[j], id))
  }

  /** Its name, unless that is blank or missing; then its identifier. */
  predicate IsCalled(e: Node, id: string, name: string) {
    if "name" in e.attrs && exists i | 0 <= i < |e.attrs["name"]| :: !IsWhitespace(e.attrs["name"][i])
    then e.attrs["name"] == name
    else id == name
  }

  predicate IsTold(d: Decl, input: bool, id: string) { Tells(d, input) && IsNamed(d.e, "id", id) }

  /** The table holds what is declared in its direction, and nothing else. */
  ghost predicate AreTold(ds: seq<Decl>, input: bool, table: References) {
    && (forall i, id | 0 <= i < |ds| && IsTold(ds[i], input, id) :: id in table && IsCalled(ds[i].e, id, table[id]))
    && (forall id | id in table :: exists i | 0 <= i < |ds| :: IsTold(ds[i], input, id))
  }

  ghost predicate Declares(node: Node, refs: References, t: Tables) {
    AreAllowed(Decls(node), refs) && AreTold(Decls(node), true, t.inputs) && AreTold(Decls(node), false, t.outputs)
  }

  // ----- one element at a time

  function Chain<S, P>(step: (S, P) -> Result<S>, s: S, ps: seq<P>): Result<S> {
    if ps == [] then Ok(s)
    else
      var before :- Chain(step, s, ps[..|ps| - 1]);
      step(before, ps[|ps| - 1])
  }

  lemma {:induction false} ChainAppend<S, P>(step: (S, P) -> Result<S>, s: S, ps: seq<P>, qs: seq<P>)
    ensures var r := Chain(step, s, ps); Chain(step, s, ps + qs) == if r.Err? then Err else Chain(step, r.value, qs)
  {
    if qs == [] {
      assert ps + qs == ps;
    } else {
      assert (ps + qs)[..|ps + qs| - 1] == ps + qs[..|qs| - 1];
      ChainAppend(step, s, ps, qs[..|qs| - 1]);
    }
  }

  lemma ChainOne<S, P>(step: (S, P) -> Result<S>, s: S, p: P)
    ensures Chain(step, s, [p]) == step(s, p)
  {
    assert [p][..0] == [];
  }

  /** Each step of `f` is a chain of steps. */
  ghost predicate AreChains<S(!new), P>(f: (S, Node) -> Result<S>, step: (S, P) -> Result<S>, nodes: seq<Node>, pss: seq<seq<P>>) {
    |nodes| == |pss| && forall s, i | 0 <= i < |nodes| :: f(s, nodes[i]) == Chain(step, s, pss[i])
  }

  lemma {:induction false} FoldIsChain<S(!new), P>(f: (S, Node) -> Result<S>, step: (S, P) -> Result<S>, s: S, nodes: seq<Node>,
                                             pss: seq<seq<P>>, n: nat)
    requires AreChains(f, step, nodes, pss) && n <= |nodes|
    ensures Fold(f, s, nodes, n) == Chain(step, s, Flat(pss[..n]))
  {
    if n > 0 {
      FoldIsChain(f, step, s, nodes, pss, n - 1);
      assert pss[..n][..n - 1] == pss[..n - 1];
      ChainAppend(step, s, Flat(pss[..n - 1]), pss[n - 1]);
    }
  }

  lemma {:induction false} FoldIsMapped<S(!new), P>(f: (S, Node) -> Result<S>, step: (S, P) -> Result<S>, s: S, nodes: seq<Node>,
                                              ps: seq<P>, n: nat)
    requires |nodes| == |ps| && n <= |nodes|
    requires forall s, i | 0 <= i < |nodes| :: f(s, nodes[i]) == step(s, ps[i])
    ensures Fold(f, s, nodes, n) == Chain(step, s, ps[..n])
  {
    if n > 0 {
      FoldIsMapped(f, step, s, nodes, ps, n - 1);
      assert ps[..n][..n - 1] == ps[..n - 1];
    }
  }

  function Step(p: Part, activity: string, refs: References, t: Tables, l: ActivityMappings): Result<ActivityMappings> {
    match p
    case Association(e) => AssociationStep(refs, t, l, e)
    case Parameter(e) => ParameterStep(l, e)
    case Call(e) => CallStep(activity, l, e)
  }

  function Steps(activity: string, refs: References, t: Tables): (ActivityMappings, Part) -> Result<ActivityMappings> {
    (l: ActivityMappings, p: Part) => Step(p, activity, refs, t, l)
  }

  lemma AssociationChains(c: Node, activity: string, refs: References, t: Tables, l: ActivityMappings)
    ensures AssociationSteps(refs, t)(l, c) == Chain(Steps(activity, refs, t), l, OfAssociation(c))
  {
    if OfAssociation(c) != [] { ChainOne(Steps(activity, refs, t), l, Association(c)); }
  }

  lemma ExtensionChains(c: Node, activity: string, refs: References, t: Tables, l: ActivityMappings)
    ensures ExtensionSteps(activity)(l, c) == Chain(Steps(activity, refs, t), l, OfExtension(c))
  {
    if c.name == "inputOutput" {
      var ps := OfExtension(c);
      FoldIsMapped(ParameterSteps(), Steps(activity, refs, t), l, c.children, ps, |ps|);
      assert ps[..|ps|] == ps;
    } else if c.name in {"in", "out"} {
      ChainOne(Steps(activity, refs, t), l, Call(c));
    }
  }

  lemma ExtensionsChain(children: seq<Node>, pss: seq<seq<Part>>, activity: string, refs: References, t: Tables)
    requires |children| == |pss| && forall i | 0 <= i < |children| :: pss[i] == OfExtension(children[i])
    ensures AreChains(ExtensionSteps(activity), Steps(activity, refs, t), children, pss)
  {
    forall s, i | 0 <= i < |children|
      ensures ExtensionSteps(activity)(s, children[i]) == Chain(Steps(activity, refs, t), s, pss[i])
    {
      ExtensionChains(children[i], activity, refs, t, s);
    }
  }

  lemma FoldedExtensionsChain(children: seq<Node>, pss: seq<seq<Part>>, activity: string, refs: References, t: Tables, l: ActivityMappings)
    requires |children| == |pss| && forall i | 0 <= i < |children| :: pss[i] == OfExtension(children[i])
    ensures Fold(ExtensionSteps(activity), l, children, |children|) == Chain(Steps(activity, refs, t), l, Flat(pss))
  {
    ExtensionsChain(children, pss, activity, refs, t);
    FoldIsChain(ExtensionSteps(activity), Steps(activity, refs, t), l, children, pss, |children|);
    assert pss[..|children|] == pss;
  }

  lemma GroupChains(c: Node, activity: string, refs: References, t: Tables, l: ActivityMappings)
    ensures ExtensionGroups(activity)(l, c) == Chain(Steps(activity, refs, t), l, OfGroup(c))
  {
    if c.name == "extensionElements" {
      var pss := seq(|c.children|, i requires 0 <= i < |c.children| => OfExtension(c.children[i]));
      FoldedExtensionsChain(c.children, pss, activity, refs, t, l);
    }
  }

  lemma AssociationsChain(node: Node, refs: References, t: Tables)
    ensures var n := |node.children|;
            Fold(AssociationSteps(refs, t), NOTHING, node.children, n) ==
            Chain(Steps(node.name, refs, t), NOTHING, Flat(seq(n, i requires 0 <= i < n => OfAssociation(node.children[i]))))
  {
    var n := |node.children|;
    var pss := seq(n, i requires 0 <= i < n => OfAssociation(node.children[i]));
    forall s, i | 0 <= i < n
      ensures AssociationSteps(refs, t)(s, node.children[i]) == Chain(Steps(node.name, refs, t), s, pss[i])
    {
      AssociationChains(node.children[i], node.name, refs, t, s);
    }
    FoldIsChain(AssociationSteps(refs, t), Steps(node.name, refs, t), NOTHING, node.children, pss, n);
    assert pss[..n] == pss;
  }

  lemma GroupsChain(node: Node, refs: References, t: Tables, l: ActivityMappings)
    ensures var n := |node.children|;
            Fold(ExtensionGroups(node.name), l, node.children, n) ==
            Chain(Steps(node.name, refs, t), l, Flat(seq(n, i requires 0 <= i < n => OfGroup(node.children[i]))))
  {
    var n := |node.children|;
    var pss := seq(n, i requires 0 <= i < n => OfGroup(node.children[i]));
    forall s, i | 0 <= i < n
      ensures ExtensionGroups(node.name)(s, node.children[i]) == Chain(Steps(node.name, refs, t), s, pss[i])
    {
      GroupChains(node.children[i], node.name, refs, t, s);
    }
    FoldIsChain(ExtensionGroups(node.name), Steps(node.name, refs, t), l, node.children, pss, n);
    assert pss[..n] == pss;
  }

  lemma PartsChain(node: Node, refs: References, t: Tables)
    requires Declared(node, refs) == Ok(t)
    ensures var r := Chain(Steps(node.name, refs, t), NOTHING, Parts(node));
            Activity(node, refs) == if r.Err? then Err else Ok(Completed(r.value))
  {
    var n := |node.children|;
    var first := Flat(seq(n, i requires 0 <= i < n => OfAssociation(node.children[i])));
    var rest := Flat(seq(n, i requires 0 <= i < n => OfGroup(node.children[i])));
    AssociationsChain(node, refs, t);
    ChainAppend(Steps(node.name, refs, t), NOTHING, first, rest);
    var l := Chain(Steps(node.name, refs, t), NOTHING, first);
    if l.Ok? { GroupsChain(node, refs, t, l.value); }
  }

  // ----- one element adds what it yields

  function Entered(d: Direction, r: Result<Mapping>): Result<Entry> { if r.Err? then Err else Ok(Entry(d, r.value)) }

  function To(target: string, r: Result<MappingValue>): Result<Mapping> { if r.Err? then Err else Ok(Mapping(target, r.value)) }

  /** What an element yields, if it does. */
  function Gives(p: Part, activity: string, refs: References, t: Tables): Result<Entry> {
    match p
    case Association(e) =>
      if e.name == "dataInputAssociation" then Entered(Input, Associated(e, refs, t.inputs))
      else if e.name == "dataOutputAssociation" then Entered(Output, Associated(e, t.outputs, refs))
      else Err
    case Parameter(e) =>
      if "name" !in e.attrs || (e.name != "inputParameter" && e.name != "outputParameter") then Err
      else Entered(if e.name == "inputParameter" then Input else Output, To(e.attrs["name"], Value(e)))
    case Call(e) =>
      if activity != "callActivity" || "variables" in e.attrs || "local" in e.attrs || "businessKey" in e.attrs then Err
      else if "target" !in e.attrs then Err
      else Entered(if e.name == "in" then CallInput else CallOutput, To(e.attrs["target"], CallSource(e)))
  }

  lemma NamedOf(children: seq<Node>, name: string)
    ensures |Named(children, name)| <= |children|
    ensures |children| == 2 ==>
            Named(children, name) == (if children[0].name == name then [children[0]] else [])
                                   + (if children[1].name == name then [children[1]] else [])
  {
    if |children| == 2 {
      assert children[1..][1..] == [];
      assert Named(children[1..][1..], name) == [];
    }
  }

  lemma {:induction false} NamedSplit(children: seq<Node>, a: string, b: string)
    requires a != b && forall i | 0 <= i < |children| :: children[i].name == a || children[i].name == b
    ensures |Named(children, a)| + |Named(children, b)| == |children|
  {
    if children != [] { NamedSplit(children[1..], a, b); }
  }

  lemma LinkExactly(a: Node, sources: References, targets: References, m: Mapping)
    ensures Associated(a, sources, targets) == Ok(m) <==> IsLink(a, sources, targets, m)
  {
    if forall i | 0 <= i < |a.children| :: a.children[i].name == "sourceRef" || a.children[i].name == "targetRef" {
      NamedSplit(a.children, "sourceRef", "targetRef");
      NamedOf(a.children, "sourceRef");
      NamedOf(a.children, "targetRef");
      if |a.children| == 2 {
        LinkOfTwo(a, sources, targets, m);
      }
    } else {
      var i :| 0 <= i < |a.children| && a.children[i].name != "sourceRef" && a.children[i].name != "targetRef";
      if |a.children| == 2 { assert i == 0 || i == 1; }
    }
  }

  lemma LinkOfTwo(a: Node, sources: References, targets: References, m: Mapping)
    requires |a.children| == 2
    requires forall i | 0 <= i < |a.children| :: a.children[i].name == "sourceRef" || a.children[i].name == "targetRef"
    ensures Associated(a, sources, targets) == Ok(m) <==> IsLink(a, sources, targets, m)
  {
    NamedOf(a.children, "sourceRef");
    NamedOf(a.children, "targetRef");
    if a.children[0].name == "sourceRef" && a.children[1].name == "targetRef" {
      assert Named(a.children, "sourceRef") == [a.children[0]] && Named(a.children, "targetRef") == [a.children[1]];
    } else if a.children[0].name == "targetRef" && a.children[1].name == "sourceRef" {
      assert Named(a.children, "sourceRef") == [a.children[1]] && Named(a.children, "targetRef") == [a.children[0]];
    }
  }

  lemma SourceExactly(e: Node, v: MappingValue)
    ensures CallSource(e) == Ok(v) <==> IsSource(e, v)
  {
    if "source" in e.attrs {
      NameIs(Trim(e.attrs["source"]));
    } else if "sourceExpression" in e.attrs {
      var s := Trim(e.attrs["sourceExpression"]);
      assert OpensExpression(s) <==> HasMarkAt(s, 0);
      if OpensExpression(s) { VariableExactly(s, v); }
    }
  }

  lemma EnteredIs(d: Direction, r: Result<Mapping>, x: Entry)
    ensures Entered(d, r) == Ok(x) <==> x.d == d && r == Ok(x.m)
  {
  }

  lemma AssociationYields(e: Node, activity: string, refs: References, t: Tables, x: Entry)
    ensures Gives(Association(e), activity, refs, t) == Ok(x) <==> Yields(Association(e), activity, refs, t, x)
  {
    if e.name == "dataInputAssociation" {
      var r := Associated(e, refs, t.inputs);
      EnteredIs(Input, r, x);
      LinkExactly(e, refs, t.inputs, x.m);
    } else if e.name == "dataOutputAssociation" {
      var r := Associated(e, t.outputs, refs);
      EnteredIs(Output, r, x);
      LinkExactly(e, t.outputs, refs, x.m);
    }
  }

  lemma TargetIs(d: Direction, target: string, r: Result<MappingValue>, x: Entry)
    ensures Entered(d, To(target, r)) == Ok(x) <==> x.d == d && target == x.m.target && r == Ok(x.m.value)
  {
  }

  lemma ParameterYields(e: Node, activity: string, refs: References, t: Tables, x: Entry)
    ensures Gives(Parameter(e), activity, refs, t) == Ok(x) <==> Yields(Parameter(e), activity, refs, t, x)
  {
    if "name" in e.attrs && (e.name == "inputParameter" || e.name == "outputParameter") {
      var d := if e.name == "inputParameter" then Input else Output;
      ReadExactly(e, x.m.value);
      TargetIs(d, e.attrs["name"], Value(e), x);
    }
  }

  lemma CallYields(e: Node, activity: string, refs: References, t: Tables, x: Entry)
    ensures Gives(Call(e), activity, refs, t) == Ok(x) <==> Yields(Call(e), activity, refs, t, x)
  {
    if activity == "callActivity" && e.attrs.Keys !! {"variables", "local", "businessKey"} && "target" in e.attrs {
      var d := if e.name == "in" then CallInput else CallOutput;
      SourceExactly(e, x.m.value);
      TargetIs(d, e.attrs["target"], CallSource(e), x);
    }
  }

  lemma YieldsExactly(p: Part, activity: string, refs: References, t: Tables, x: Entry)
    ensures Gives(p, activity, refs, t) == Ok(x) <==> Yields(p, activity, refs, t, x)
  {
    match p
    case Association(e) => AssociationYields(e, activity, refs, t, x);
    case Parameter(e) => ParameterYields(e, activity, refs, t, x);
    case Call(e) => CallYields(e, activity, refs, t, x);
  }

  // ----- all elements together

  function Added(l: ActivityMappings, g: Result<Entry>): Result<ActivityMappings> {
    if g.Err? then Err else AddTo(l, g.value.d, g.value.m.target, g.value.m.value)
  }

  /** A step adds what the element yields. */
  lemma StepAdds(p: Part, activity: string, refs: References, t: Tables, l: ActivityMappings)
    requires p.Association? ==> OfAssociation(p.e) != []
    ensures Step(p, activity, refs, t, l) == Added(l, Gives(p, activity, refs, t))
  {
  }

  predicate AreAssociations(ps: seq<Part>) { forall i | 0 <= i < |ps| :: ps[i].Association? ==> OfAssociation(ps[i].e) != [] }

  lemma {:induction false} FlatAre(pss: seq<seq<Part>>)
    requires forall i | 0 <= i < |pss| :: AreAssociations(pss[i])
    ensures AreAssociations(Flat(pss))
  {
    if pss != [] { FlatAre(pss[..|pss| - 1]); }
  }

  lemma GroupIs(c: Node)
    ensures AreAssociations(OfGroup(c))
  {
    if c.name == "extensionElements" {
      var pss := seq(|c.children|, i requires 0 <= i < |c.children| => OfExtension(c.children[i]));
      assert forall i | 0 <= i < |pss| :: pss[i] == OfExtension(c.children[i]) && AreAssociations(pss[i]);
      FlatAre(pss);
    }
  }

  lemma PartsAre(node: Node)
    ensures AreAssociations(Parts(node))
  {
    var n := |node.children|;
    var first := seq(n, i requires 0 <= i < n => OfAssociation(node.children[i]));
    var rest := seq(n, i requires 0 <= i < n => OfGroup(node.children[i]));
    assert forall i | 0 <= i < n :: first[i] == OfAssociation(node.children[i]) && AreAssociations(first[i]);
    forall i | 0 <= i < n ensures AreAssociations(rest[i]) { GroupIs(node.children[i]); }
    FlatAre(first);
    FlatAre(rest);
  }

  /** While parts run: the lists hold what was added, and a list of a call is there once it has an entry. */
  ghost predicate Holds(xs: seq<Entry>, l: ActivityMappings) {
    && (forall d: Direction :: ListOf(l, d) == Of(xs, d) && TargetsAreProper(Of(xs, d)))
    && (l.callInputs.Some? <==> Of(xs, CallInput) != [])
    && (l.callOutputs.Some? <==> Of(xs, CallOutput) != [])
  }

  lemma OfMore(xs: seq<Entry>, x: Entry, d: Direction)
    ensures Of(xs + [x], d) == Of(xs, d) + (if x.d == d then [x.m] else [])
  {
    assert (xs + [x])[..|xs|] == xs;
  }

  lemma ProperMore(ms: seq<Mapping>, m: Mapping)
    requires TargetsAreProper(ms)
    ensures TargetsAreProper(ms + [m]) <==> !Blank(m.target) && m.target !in Targets(ms)
  {
    if TargetsAreProper(ms + [m]) {
      assert (ms + [m])[|ms|] == m;
      forall i | 0 <= i < |ms| ensures ms[i].target != m.target { assert (ms + [m])[i] == ms[i]; }
    }
  }

  lemma HoldsMore(xs: seq<Entry>, l: ActivityMappings, x: Entry)
    requires Holds(xs, l)
    ensures var r := AddTo(l, x.d, x.m.target, x.m.value);
            && (r.Ok? <==> TargetsAreProper(Of(xs + [x], x.d)))
            && (r.Ok? ==> Holds(xs + [x], r.value))
  {
    forall d: Direction ensures Of(xs + [x], d) == Of(xs, d) + (if x.d == d then [x.m] else []) { OfMore(xs, x, d); }
    ProperMore(Of(xs, x.d), x.m);
    var r := AddTo(l, x.d, x.m.target, x.m.value);
    if r.Ok? {
      forall d: Direction ensures ListOf(r.value, d) == Of(xs + [x], d) && TargetsAreProper(Of(xs + [x], d)) {
        if d == x.d { assert ListOf(r.value, d) == ListOf(l, d) + [x.m]; }
      }
    }
  }

  /** Each step adds an entry, or fails. */
  ghost predicate AreAdded<P>(step: (ActivityMappings, P) -> Result<ActivityMappings>, ps: seq<P>, gs: seq<Result<Entry>>) {
    |ps| == |gs| && forall l, i | 0 <= i < |ps| :: step(l, ps[i]) == Added(l, gs[i])
  }

  ghost predicate AreGiven(gs: seq<Result<Entry>>, xs: seq<Entry>) {
    |gs| == |xs| && forall i | 0 <= i < |gs| :: gs[i] == Ok(xs[i])
  }

  lemma FirstAreAdded<P>(step: (ActivityMappings, P) -> Result<ActivityMappings>, ps: seq<P>, gs: seq<Result<Entry>>, n: nat)
    requires AreAdded(step, ps, gs) && n <= |ps|
    ensures AreAdded(step, ps[..n], gs[..n])
  {
    forall l, i | 0 <= i < n ensures step(l, ps[..n][i]) == Added(l, gs[..n][i]) {
      assert ps[..n][i] == ps[i] && gs[..n][i] == gs[i];
    }
  }

  lemma LastIsGiven(xs: seq<Entry>, gs: seq<Result<Entry>>, n: nat)
    requires n + 1 == |gs| && AreGiven(gs[..n], xs) && gs[n].Ok?
    ensures AreGiven(gs, xs + [gs[n].value])
  {
    forall i | 0 <= i < |gs| ensures gs[i] == Ok((xs + [gs[n].value])[i]) {
      if i < n { assert gs[i] == gs[..n][i]; }
    }
  }

  lemma {:induction false} ChainHolds<P>(step: (ActivityMappings, P) -> Result<ActivityMappings>, ps: seq<P>, gs: seq<Result<Entry>>)
    returns (xs: seq<Entry>)
    requires AreAdded(step, ps, gs) && Chain(step, NOTHING, ps).Ok?
    ensures AreGiven(gs, xs) && Holds(xs, Chain(step, NOTHING, ps).value)
  {
    xs := [];
    if ps != [] {
      var n := |ps| - 1;
      FirstAreAdded(step, ps, gs, n);
      xs := ChainHolds(step, ps[..n], gs[..n]);
      var l := Chain(step, NOTHING, ps[..n]).value;
      assert step(l, ps[n]) == Added(l, gs[n]);
      HoldsMore(xs, l, gs[n].value);
      LastIsGiven(xs, gs, n);
      xs := xs + [gs[n].value];
    }
  }

  lemma {:induction false} HeldChain<P>(step: (ActivityMappings, P) -> Result<ActivityMappings>, ps: seq<P>, gs: seq<Result<Entry>>,
                                        xs: seq<Entry>)
    requires AreAdded(step, ps, gs) && AreGiven(gs, xs) && forall d: Direction :: TargetsAreProper(Of(xs, d))
    ensures Chain(step, NOTHING, ps).Ok? && Holds(xs, Chain(step, NOTHING, ps).value)
  {
    if ps != [] {
      var n := |ps| - 1;
      assert xs == xs[..n] + [xs[n]];
      forall d: Direction ensures TargetsAreProper(Of(xs[..n], d)) { FirstAreProper(xs[..n], xs[n], d); }
      FirstAreAdded(step, ps, gs, n);
      HeldChain(step, ps[..n], gs[..n], xs[..n]);
      var l := Chain(step, NOTHING, ps[..n]).value;
      assert step(l, ps[n]) == Added(l, gs[n]);
      HoldsMore(xs[..n], l, xs[n]);
    }
  }

  lemma FirstAreProper(xs: seq<Entry>, x: Entry, d: Direction)
    requires TargetsAreProper(Of(xs + [x], d))
    ensures TargetsAreProper(Of(xs, d))
  {
    OfMore(xs, x, d);
    var all := Of(xs + [x], d);
    assert forall i | 0 <= i < |Of(xs, d)| :: Of(xs, d)[i] == all[i];
  }

  lemma {:induction false} NothingOf(xs: seq<Entry>, d: Direction)
    ensures Of(xs, d) == [] <==> forall i | 0 <= i < |xs| :: xs[i].d != d
  {
    if xs != [] {
      NothingOf(xs[..|xs| - 1], d);
      assert forall i | 0 <= i < |xs| - 1 :: xs[..|xs| - 1][i] == xs[i];
    }
  }

  lemma CompletedAre(xs: seq<Entry>, l: ActivityMappings)
    requires Holds(xs, l)
    ensures AreLists(xs, Completed(l))
  {
    NothingOf(xs, CallInput);
    NothingOf(xs, CallOutput);
    assert ListOf(l, Input) == Of(xs, Input) && ListOf(l, Output) == Of(xs, Output);
    assert ListOf(l, CallInput) == Of(xs, CallInput) && ListOf(l, CallOutput) == Of(xs, CallOutput);
  }

  // ----- the parser finds exactly this

  /** What each element gives. */
  function GivenBy(node: Node, refs: References, t: Tables): (gs: seq<Result<Entry>>)
    ensures |gs| == |Parts(node)|
  {
    seq(|Parts(node)|, i requires 0 <= i < |Parts(node)| => Gives(Parts(node)[i], node.name, refs, t))
  }

  lemma StepsAdd(node: Node, refs: References, t: Tables)
    ensures AreAdded(Steps(node.name, refs, t), Parts(node), GivenBy(node, refs, t))
  {
    PartsAre(node);
    forall l, i | 0 <= i < |Parts(node)| ensures Steps(node.name, refs, t)(l, Parts(node)[i]) == Added(l, GivenBy(node, refs, t)[i]) {
      StepAdds(Parts(node)[i], node.name, refs, t, l);
    }
  }

  lemma GivenAreYields(node: Node, refs: References, t: Tables, xs: seq<Entry>)
    ensures AreGiven(GivenBy(node, refs, t), xs) <==> AreYields(Parts(node), node.name, refs, t, xs)
  {
    if |xs| == |Parts(node)| {
      forall i | 0 <= i < |xs|
        ensures GivenBy(node, refs, t)[i] == Ok(xs[i]) <==> Yields(Parts(node)[i], node.name, refs, t, xs[i])
      {
        YieldsExactly(Parts(node)[i], node.name, refs, t, xs[i]);
      }
    }
  }

  // ----- so are the declarations

  const NO_TABLES := Tables(map[], map[])

  function DeclStep(refs: References, t: Tables, d: Decl): Result<Tables> {
    match d
    case Property(e) => PropertyStep(refs, t, e)
    case Item(e) => IoItemStep(refs, t, e)
  }

  function DeclSteps(refs: References): (Tables, Decl) -> Result<Tables> {
    (t: Tables, d: Decl) => DeclStep(refs, t, d)
  }

  lemma PropertyChains(c: Node, refs: References, t: Tables)
    ensures PropertySteps(refs)(t, c) == Chain(DeclSteps(refs), t, OfProperty(c))
  {
    if c.name == "property" { ChainOne(DeclSteps(refs), t, Property(c)); }
  }

  lemma IoChains(c: Node, refs: References, t: Tables)
    ensures IoSteps(refs)(t, c) == Chain(DeclSteps(refs), t, OfIo(c))
  {
    if c.name == "ioSpecification" {
      var ds := OfIo(c);
      FoldIsMapped(IoItemSteps(refs), DeclSteps(refs), t, c.children, ds, |ds|);
      assert ds[..|ds|] == ds;
    }
  }

  lemma DeclsChain(node: Node, refs: References)
    ensures Declared(node, refs) == Chain(DeclSteps(refs), NO_TABLES, Decls(node))
  {
    var n := |node.children|;
    var first := seq(n, i requires 0 <= i < n => OfProperty(node.children[i]));
    var rest := seq(n, i requires 0 <= i < n => OfIo(node.children[i]));
    forall s, i | 0 <= i < n ensures PropertySteps(refs)(s, node.children[i]) == Chain(DeclSteps(refs), s, first[i]) {
      PropertyChains(node.children[i], refs, s);
    }
    forall s, i | 0 <= i < n ensures IoSteps(refs)(s, node.children[i]) == Chain(DeclSteps(refs), s, rest[i]) {
      IoChains(node.children[i], refs, s);
    }
    assert first[..n] == first && rest[..n] == rest;
    FoldIsChain(PropertySteps(refs), DeclSteps(refs), NO_TABLES, node.children, first, n);
    ChainAppend(DeclSteps(refs), NO_TABLES, Flat(first), Flat(rest));
    var t := Chain(DeclSteps(refs), NO_TABLES, Flat(first));
    if t.Ok? { FoldIsChain(IoSteps(refs), DeclSteps(refs), t.value, node.children, rest, n); }
  }

  predicate IsProperty(d: Decl) { d.Property? && d.e.name == "property" }

  /** No property follows an item. */
  ghost predicate PropertiesFirst(ds: seq<Decl>) {
    && (forall i | 0 <= i < |ds| :: ds[i].Item? || IsProperty(ds[i]))
    && (forall i, j | 0 <= i < j < |ds| && ds[j].Property? :: ds[i].Property?)
  }

  lemma {:induction false} FlatOf(dss: seq<seq<Decl>>, property: bool)
    requires forall i, j | 0 <= i < |dss| && 0 <= j < |dss[i]| :: if property then IsProperty(dss[i][j]) else dss[i][j].Item?
    ensures forall j | 0 <= j < |Flat(dss)| :: if property then IsProperty(Flat(dss)[j]) else Flat(dss)[j].Item?
  {
    if dss != [] { FlatOf(dss[..|dss| - 1], property); }
  }

  lemma DeclsAreOrdered(node: Node)
    ensures PropertiesFirst(Decls(node))
  {
    var n := |node.children|;
    var first := seq(n, i requires 0 <= i < n => OfProperty(node.children[i]));
    var rest := seq(n, i requires 0 <= i < n => OfIo(node.children[i]));
    FlatOf(first, true);
    FlatOf(rest, false);
    assert Decls(node) == Flat(first) + Flat(rest);
  }

  lemma CalledIs(e: Node, id: string)
    requires IsNamed(e, "id", id)
    ensures IsCalled(e, id, DisplayName(e))
    ensures forall name | IsCalled(e, id, name) :: name == DisplayName(e)
  {
  }

  lemma AllowedMore(ds: seq<Decl>, d: Decl, refs: References)
    requires AreAllowed(ds, refs)
    ensures AreAllowed(ds + [d], refs) <==>
            && IsAllowed(d)
            && forall id | Claims(d, id) :: id !in refs && forall i | 0 <= i < |ds| :: !Claims(ds[i], id)
  {
    var all := ds + [d];
    assert all[|ds|] == d && forall i | 0 <= i < |ds| :: all[i] == ds[i];
    if AreAllowed(all, refs) {
      forall id, i | 0 <= i < |ds| && Claims(all[i], id) ensures !Claims(d, id) { assert !Claims(all[|ds|], id); }
    }
  }

  lemma AllowedLess(ds: seq<Decl>, d: Decl, refs: References)
    requires AreAllowed(ds + [d], refs)
    ensures AreAllowed(ds, refs)
  {
    assert forall i | 0 <= i < |ds| :: (ds + [d])[i] == ds[i];
  }

  lemma ToldMore(ds: seq<Decl>, d: Decl, input: bool, table: References, id: string)
    requires AreTold(ds, input, table) && IsNamed(d.e, "id", id) && id !in table && Tells(d, input)
    ensures AreTold(ds + [d], input, table[id := DisplayName(d.e)])
  {
    var all, more := ds + [d], table[id := DisplayName(d.e)];
    CalledIs(d.e, id);
    forall k | k in more ensures exists i | 0 <= i < |all| :: IsTold(all[i], input, k) {
      if k == id {
        assert IsTold(all[|ds|], input, k);
      } else {
        var i :| 0 <= i < |ds| && IsTold(ds[i], input, k);
        assert IsTold(all[i], input, k);
      }
    }
  }

  lemma ToldSame(ds: seq<Decl>, d: Decl, input: bool, table: References)
    requires AreTold(ds, input, table) && !Tells(d, input)
    ensures AreTold(ds + [d], input, table)
  {
    var all := ds + [d];
    forall k | k in table ensures exists i | 0 <= i < |all| :: IsTold(all[i], input, k) {
      var i :| 0 <= i < |ds| && IsTold(ds[i], input, k);
      assert IsTold(all[i], input, k);
    }
  }

  ghost predicate AreTables(ds: seq<Decl>, t: Tables) { AreTold(ds, true, t.inputs) && AreTold(ds, false, t.outputs) }

  /** An identifier is in the tables just if it was declared. */
  lemma ClaimedIs(ds: seq<Decl>, t: Tables, id: string)
    requires AreTables(ds, t)
    ensures (exists i | 0 <= i < |ds| :: Claims(ds[i], id)) <==> id in t.inputs || id in t.outputs
    ensures (forall i | 0 <= i < |ds| :: ds[i].Property?) ==> (id in t.inputs <==> id in t.outputs)
  {
    if i :| 0 <= i < |ds| && Claims(ds[i], id) {
      assert IsTold(ds[i], true, id) || IsTold(ds[i], false, id);
    }
    if id in t.inputs {
      var i :| 0 <= i < |ds| && IsTold(ds[i], true, id);
      assert Claims(ds[i], id) && (ds[i].Property? ==> IsTold(ds[i], false, id));
    }
    if id in t.outputs {
      var i :| 0 <= i < |ds| && IsTold(ds[i], false, id);
      assert Claims(ds[i], id) && (ds[i].Property? ==> IsTold(ds[i], true, id));
    }
  }

  /** The tables with one more name. */
  function WithName(table: References, d: Decl, input: bool): References {
    if Tells(d, input) && "id" in d.e.attrs then table[d.e.attrs["id"] := DisplayName(d.e)] else table
  }

  predicate IsNew(d: Decl, refs: References, t: Tables) {
    var id := if "id" in d.e.attrs then d.e.attrs["id"] else "";
    (Tells(d, true) || Tells(d, false)) ==> id !in refs && id !in t.inputs && id !in t.outputs
  }

  lemma StepIs(d: Decl, refs: References, t: Tables)
    requires d.Property? ==> IsProperty(d) && t.inputs.Keys == t.outputs.Keys
    ensures DeclStep(refs, t, d)
         == if IsAllowed(d) && IsNew(d, refs, t) then Ok(Tables(WithName(t.inputs, d, true), WithName(t.outputs, d, false))) else Err
  {
  }

  lemma ToldWith(ds: seq<Decl>, d: Decl, input: bool, table: References)
    requires AreTold(ds, input, table) && IsAllowed(d) && (Tells(d, input) ==> d.e.attrs["id"] !in table)
    ensures AreTold(ds + [d], input, WithName(table, d, input))
  {
    if Tells(d, input) { ToldMore(ds, d, input, table, d.e.attrs["id"]); } else { ToldSame(ds, d, input, table); }
  }

  /** A declaration is new to the tables just if its identifier was not declared before. */
  lemma NewIs(ds: seq<Decl>, d: Decl, refs: References, t: Tables)
    requires AreAllowed(ds, refs) && AreTables(ds, t) && IsAllowed(d)
    ensures IsNew(d, refs, t) <==> AreAllowed(ds + [d], refs)
  {
    AllowedMore(ds, d, refs);
    if Tells(d, true) || Tells(d, false) {
      var id := d.e.attrs["id"];
      assert Claims(d, id) && forall k | Claims(d, k) :: k == id;
      ClaimedIs(ds, t, id);
    }
  }

  lemma DeclAdds(ds: seq<Decl>, d: Decl, refs: References, t: Tables)
    requires AreAllowed(ds, refs) && AreTables(ds, t)
    requires d.Property? ==> IsProperty(d) && forall i | 0 <= i < |ds| :: ds[i].Property?
    ensures DeclStep(refs, t, d).Ok? <==> AreAllowed(ds + [d], refs)
    ensures DeclStep(refs, t, d).Ok? ==> AreTables(ds + [d], DeclStep(refs, t, d).value)
  {
    if d.Property? {
      forall id ensures id in t.inputs <==> id in t.outputs { ClaimedIs(ds, t, id); }
    }
    StepIs(d, refs, t);
    if IsAllowed(d) {
      NewIs(ds, d, refs, t);
      if IsNew(d, refs, t) {
        ToldWith(ds, d, true, t.inputs);
        ToldWith(ds, d, false, t.outputs);
      }
    } else {
      assert (ds + [d])[|ds|] == d;
    }
  }

  lemma {:induction false} DeclsDecide(ds: seq<Decl>, refs: References)
    requires PropertiesFirst(ds)
    ensures Chain(DeclSteps(refs), NO_TABLES, ds).Ok? <==> AreAllowed(ds, refs)
    ensures Chain(DeclSteps(refs), NO_TABLES, ds).Ok? ==> AreTables(ds, Chain(DeclSteps(refs), NO_TABLES, ds).value)
  {
    if ds != [] {
      var before, d := ds[..|ds| - 1], ds[|ds| - 1];
      assert ds == before + [d];
      DeclsDecide(before, refs);
      if AreAllowed(ds, refs) { AllowedLess(before, d, refs); }
      if Chain(DeclSteps(refs), NO_TABLES, before).Ok? {
        DeclAdds(before, d, refs, Chain(DeclSteps(refs), NO_TABLES, before).value);
      }
    }
  }

  lemma ToldAgree(ds: seq<Decl>, input: bool, a: References, b: References, id: string)
    requires AreTold(ds, input, a) && AreTold(ds, input, b) && id in a
    ensures id in b && a[id] == b[id]
  {
    var i :| 0 <= i < |ds| && IsTold(ds[i], input, id);
    assert IsCalled(ds[i].e, id, a[id]) && IsCalled(ds[i].e, id, b[id]);
    CalledIs(ds[i].e, id);
  }

  lemma TablesAreUnique(ds: seq<Decl>, input: bool, a: References, b: References)
    requires AreTold(ds, input, a) && AreTold(ds, input, b)
    ensures a == b
  {
    forall id | id in a ensures id in b && a[id] == b[id] { ToldAgree(ds, input, a, b, id); }
    forall id | id in b ensures id in a { ToldAgree(ds, input, b, a, id); }
  }

  /** The tables are read just if they are declared. */
  lemma TablesExactly(node: Node, refs: References, t: Tables)
    ensures Declared(node, refs) == Ok(t) <==> Declares(node, refs, t)
  {
    var ds := Decls(node);
    DeclsChain(node, refs);
    DeclsAreOrdered(node);
    DeclsDecide(ds, refs);
    if Declares(node, refs, t) {
      var u := Declared(node, refs).value;
      TablesAreUnique(ds, true, u.inputs, t.inputs);
      TablesAreUnique(ds, false, u.outputs, t.outputs);
    }
  }

  // ----- the whole activity

  /** What is parsed was declared and mapped by the elements of the activity, in document order. */
  lemma ParsedIsMapped(node: Node, refs: References) returns (t: Tables, xs: seq<Entry>)
    requires Activity(node, refs).Ok?
    ensures Declares(node, refs, t) && Maps(node, refs, t, xs, Activity(node, refs).value)
  {
    t := Declared(node, refs).value;
    TablesExactly(node, refs, t);
    PartsChain(node, refs, t);
    StepsAdd(node, refs, t);
    xs := ChainHolds(Steps(node.name, refs, t), Parts(node), GivenBy(node, refs, t));
    GivenAreYields(node, refs, t, xs);
    CompletedAre(xs, Chain(Steps(node.name, refs, t), NOTHING, Parts(node)).value);
  }

  lemma ListsAreUnique(xs: seq<Entry>, a: ActivityMappings, b: ActivityMappings)
    requires AreLists(xs, a) && AreLists(xs, b)
    ensures a == b
  {
  }

  /** And what its elements declare and map is parsed. */
  lemma MappedIsParsed(node: Node, refs: References, t: Tables, xs: seq<Entry>, r: ActivityMappings)
    requires Declares(node, refs, t) && Maps(node, refs, t, xs, r)
    ensures Activity(node, refs) == Ok(r)
  {
    TablesExactly(node, refs, t);
    PartsChain(node, refs, t);
    StepsAdd(node, refs, t);
    GivenAreYields(node, refs, t, xs);
    HeldChain(Steps(node.name, refs, t), Parts(node), GivenBy(node, refs, t), xs);
    var l := Chain(Steps(node.name, refs, t), NOTHING, Parts(node)).value;
    CompletedAre(xs, l);
    ListsAreUnique(xs, Completed(l), r);
  }
}
