/** Routing of one token through a gateway. */
module Gateway {
  import opened Common
  import opened Definition
  import opened Tokens
  import Json
  import ConditionText

  datatype NextAction =
    | WaitForJoin(gatewayId: Id, token: TokenState)
    | Continue(token: TokenState)
    | ContinueMultiple(tokens: seq<TokenState>)

  // ----- which flows are taken

  predicate Passes(f: SequenceFlow, vars: Json.Variables) {
    f.condition.Some? && ConditionText.ConditionHolds(f.condition.value, vars)
  }

  /** Unconditional, and not reserved as the fallback. */
  predicate IsFree(f: SequenceFlow, fallback: Option<Id>) { f.condition.None? && fallback != Some(f.target) }

  predicate IsTaken(f: SequenceFlow, vars: Json.Variables, fallback: Option<Id>) {
    Passes(f, vars) || IsFree(f, fallback)
  }

  /** What an inclusive gateway takes: no condition, or one that holds. */
  predicate IsOpen(f: SequenceFlow, vars: Json.Variables) { f.condition.None? || Passes(f, vars) }

  function Open(vars: Json.Variables): SequenceFlow -> bool { f => IsOpen(f, vars) }

  function Passing(vars: Json.Variables): SequenceFlow -> bool { f => Passes(f, vars) }

  function Free(fallback: Option<Id>): SequenceFlow -> bool { f => IsFree(f, fallback) }

  function Taken(vars: Json.Variables, fallback: Option<Id>): SequenceFlow -> bool { f => IsTaken(f, vars, fallback) }

  /** The targets of the flows that satisfy `p`, in order. */
  function Select(out: seq<SequenceFlow>, p: SequenceFlow -> bool): seq<Id> {
    if out == [] then []
    else
      var n := |out| - 1;
      Select(out[..n], p) + if p(out[n]) then [out[n].target] else []
  }

  /** The position of the first flow that satisfies `p`, or the length. */
  function First(out: seq<SequenceFlow>, p: SequenceFlow -> bool, from: nat): (k: nat)
    requires from <= |out|
    ensures from <= k <= |out| && (k < |out| ==> p(out[k]))
    ensures forall i | from <= i < k :: !p(out[i])
    decreases |out| - from
  {
    if from == |out| || p(out[from]) then from else First(out, p, from + 1)
  }

  function Targets(out: seq<SequenceFlow>, vars: Json.Variables, fallback: Option<Id>): seq<Id> {
    Select(out, Taken(vars, fallback))
  }

  function WithFallback(targets: seq<Id>, fallback: Option<Id>): seq<Id> {
    if targets == [] && fallback.Some? then [fallback.value] else targets
  }

  /** An exclusive choice: the first condition that holds, else the first free flow, else the fallback. */
  function Choice(out: seq<SequenceFlow>, vars: Json.Variables, fallback: Option<Id>): Option<Id> {
    var c, u := First(out, Passing(vars), 0), First(out, Free(fallback), 0);
    if c < |out| then Some(out[c].target) else if u < |out| then Some(out[u].target) else fallback
  }

  /** Where a condition holds. */
  ghost function HoldsAt(out: seq<SequenceFlow>, vars: Json.Variables): seq<bool> {
    seq(|out|, i requires 0 <= i < |out| =>
      out[i].condition.Some? && ConditionText.ConditionHolds(out[i].condition.value, vars))
  }

  /** Where there is no condition, and the flow does not lead to the default. */
  ghost function FreeAt(out: seq<SequenceFlow>, fallback: Option<Id>): seq<bool> {
    seq(|out|, i requires 0 <= i < |out| => out[i].condition.None? && Some(out[i].target) != fallback)
  }

  ghost predicate IsFirst(flags: seq<bool>, i: nat) { i < |flags| && flags[i] && true !in flags[..i] }

  /** What an exclusive gateway must choose. The first flow whose condition holds wins. If there is none, the first
      flow without a condition that does not lead to the default does; and if there is none of these, the default. */
  ghost predicate IsExclusiveChoice(out: seq<SequenceFlow>, vars: Json.Variables, fallback: Option<Id>, choice: Option<Id>) {
    var holds, free := HoldsAt(out, vars), FreeAt(out, fallback);
    if true in holds then exists i: nat :: IsFirst(holds, i) && choice == Some(out[i].target)
    else if true in free then exists i: nat :: IsFirst(free, i) && choice == Some(out[i].target)
    else choice == fallback
  }

  lemma FirstIsFirst(out: seq<SequenceFlow>, p: SequenceFlow -> bool, flags: seq<bool>)
    requires |flags| == |out| && forall i | 0 <= i < |out| :: flags[i] == p(out[i])
    ensures var k := First(out, p, 0); if k < |out| then IsFirst(flags, k) else true !in flags
  {
  }

  lemma FlagsAre(out: seq<SequenceFlow>, vars: Json.Variables, fallback: Option<Id>)
    ensures forall i | 0 <= i < |out| :: HoldsAt(out, vars)[i] == Passing(vars)(out[i])
    ensures forall i | 0 <= i < |out| :: FreeAt(out, fallback)[i] == Free(fallback)(out[i])
  {
  }

  lemma ChoiceIsExclusive(out: seq<SequenceFlow>, vars: Json.Variables, fallback: Option<Id>)
    ensures IsExclusiveChoice(out, vars, fallback, Choice(out, vars, fallback))
  {
    FlagsAre(out, vars, fallback);
    FirstIsFirst(out, Passing(vars), HoldsAt(out, vars));
    FirstIsFirst(out, Free(fallback), FreeAt(out, fallback));
  }

  method Choose(out: seq<SequenceFlow>, vars: Json.Variables, fallback: Option<Id>) returns (choice: Option<Id>)
    ensures choice == Choice(out, vars, fallback) && IsExclusiveChoice(out, vars, fallback, choice)
  {
    ChoiceIsExclusive(out, vars, fallback);
    ghost var passing, free := Passing(vars), Free(fallback);
    for i := 0 to |out|
      invariant First(out, passing, 0) == First(out, passing, i)
    {
      if out[i].condition.Some? && ConditionText.ConditionHolds(out[i].condition.value, vars) {
        return Some(out[i].target);
      }
    }
    for i := 0 to |out|
      invariant First(out, free, 0) == First(out, free, i)
    {
      if out[i].condition.None? {
        if fallback.Some? && out[i].target == fallback.value {
          continue;
        }
        return Some(out[i].target);
      }
    }
    choice := fallback;
  }

  lemma SelectOneMore(out: seq<SequenceFlow>, p: SequenceFlow -> bool, i: nat)
    requires i < |out|
    ensures Select(out[..i + 1], p) == Select(out[..i], p) + if p(out[i]) then [out[i].target] else []
  {
    assert out[..i + 1][..i] == out[..i];
  }

  method SelectTargets(out: seq<SequenceFlow>, vars: Json.Variables, fallback: Option<Id>) returns (targets: seq<Id>)
    ensures targets == Targets(out, vars, fallback)
  {
    targets := [];
    ghost var taken := Taken(vars, fallback);
    for i := 0 to |out|
      invariant targets == Select(out[..i], taken)
    {
      SelectOneMore(out, taken, i);
      assert taken(out[i]) <==> IsTaken(out[i], vars, fallback);
      if out[i].condition.Some? {
        if ConditionText.ConditionHolds(out[i].condition.value, vars) {
          targets := targets + [out[i].target];
        }
      } else if fallback != Some(out[i].target) {
        targets := targets + [out[i].target];
      }
    }
    assert out[..|out|] == out;
  }

  /** The inclusive gateway's loop, which knows no default. */
  method SelectOpen(out: seq<SequenceFlow>, vars: Json.Variables) returns (targets: seq<Id>)
    ensures targets == Select(out, Open(vars))
  {
    targets := [];
    ghost var open := Open(vars);
    for i := 0 to |out|
      invariant targets == Select(out[..i], open)
    {
      SelectOneMore(out, open, i);
      assert open(out[i]) <==> IsOpen(out[i], vars);
      if out[i].condition.Some? {
        if ConditionText.ConditionHolds(out[i].condition.value, vars) {
          targets := targets + [out[i].target];
        }
      } else {
        targets := targets + [out[i].target];
      }
    }
    assert out[..|out|] == out;
  }

  // ----- the gateways

  /** Several flows come in and the token has not been merged yet. */
  ghost predicate MustWait(flows: Flows, id: Id, t: TokenState) {
    |Incoming(flows, id, flows.Keys)| >= 2 && !t.isMerged
  }

  /** One target moves the token; any other number replaces it by fresh ones. */
  function Emit(t: TokenState, targets: seq<Id>): NextAction {
    if |targets| == 1 then Continue(t.(currentNode := targets[0], isMerged := false))
    else ContinueMultiple(seq(|targets|, i requires 0 <= i < |targets| => WithVariables(targets[i], t.variables)))
  }

  function AllTargets(out: seq<SequenceFlow>): seq<Id> { seq(|out|, i requires 0 <= i < |out| => out[i].target) }

  ghost function Parallel(flows: Flows, id: Id, t: TokenState): Result<NextAction> {
    if MustWait(flows, id, t) then Ok(WaitForJoin(id, t)) else Ok(Emit(t, AllTargets(Outgoing(flows, id))))
  }

  ghost function Complex(flows: Flows, id: Id, t: TokenState, fallback: Option<Id>): Result<NextAction> {
    var targets := WithFallback(Targets(Outgoing(flows, id), t.variables, fallback), fallback);
    if MustWait(flows, id, t) then Ok(WaitForJoin(id, t))
    else if targets == [] then Err
    else Ok(Emit(t, targets))
  }

  ghost function Inclusive(flows: Flows, id: Id, t: TokenState): Result<NextAction> {
    var targets := Select(Outgoing(flows, id), Open(t.variables));
    if MustWait(flows, id, t) then Ok(WaitForJoin(id, t))
    else if targets == [] then Err
    else Ok(Emit(t, targets))
  }

  /** What a gateway with a join leaves in the token it was given. */
  ghost predicate Leaves(before: TokenState, after: TokenState, waits: bool, action: Result<NextAction>) {
    if waits then after == before
    else after == if action.Ok? && action.value.Continue? then action.value.token else before.(isMerged := false)
  }

  method Fork(targets: seq<Id>, variables: Json.Variables) returns (forked: seq<TokenState>)
    ensures |forked| == |targets|
    ensures forall i | 0 <= i < |targets| :: forked[i] == WithVariables(targets[i], variables)
  {
    forked := [];
    for i := 0 to |targets|
      invariant |forked| == i
      invariant forall j | 0 <= j < i :: forked[j] == WithVariables(targets[j], variables)
    {
      forked := forked + [WithVariables(targets[i], variables)];
    }
  }

  method Forward(token: Token, targets: seq<Id>) returns (action: NextAction)
    requires !token.isMerged
    modifies token
    ensures action == Emit(old(token.State()), targets)
    ensures token.State() == if |targets| == 1 then action.token else old(token.State())
  {
    if |targets| == 1 {
      token.currentNode := targets[0];
      return Continue(token.State());
    }
    var forked := Fork(targets, token.variables);
    action := ContinueMultiple(forked);
  }

  method ExecuteParallel(flows: Flows, id: Id, token: Token) returns (action: Result<NextAction>)
    modifies token
    ensures action == Parallel(flows, id, old(token.State()))
    ensures Leaves(old(token.State()), token.State(), MustWait(flows, id, old(token.State())), action)
  {
    var count := IncomingFlowCount(flows, id);
    if count >= 2 && !token.isMerged {
      return Ok(WaitForJoin(id, token.State()));
    }
    token.isMerged := false;
    var next := Forward(token, AllTargets(Outgoing(flows, id)));
    action := Ok(next);
  }

  method ExecuteInclusive(flows: Flows, id: Id, token: Token) returns (action: Result<NextAction>)
    modifies token
    ensures action == Inclusive(flows, id, old(token.State()))
    ensures Leaves(old(token.State()), token.State(), MustWait(flows, id, old(token.State())), action)
  {
    var count := IncomingFlowCount(flows, id);
    if count >= 2 && !token.isMerged {
      return Ok(WaitForJoin(id, token.State()));
    }
    token.isMerged := false;
    var targets := SelectOpen(Outgoing(flows, id), token.variables);
    if targets == [] {
      return Err;
    }
    var next := Forward(token, targets);
    action := Ok(next);
  }

  method ExecuteComplex(flows: Flows, id: Id, token: Token, fallback: Option<Id>) returns (action: Result<NextAction>)
    modifies token
    ensures action == Complex(flows, id, old(token.State()), fallback)
    ensures Leaves(old(token.State()), token.State(), MustWait(flows, id, old(token.State())), action)
  {
    var count := IncomingFlowCount(flows, id);
    if count >= 2 && !token.isMerged {
      return Ok(WaitForJoin(id, token.State()));
    }
    token.isMerged := false;
    var targets := SelectTargets(Outgoing(flows, id), token.variables, fallback);
    if targets == [] {
      if fallback.None? {
        return Err;
      }
      targets := [fallback.value];
    }
    var next := Forward(token, targets);
    action := Ok(next);
  }

  /** Never waits, and keeps the merge mark. */
  method ExecuteExclusive(flows: Flows, id: Id, token: Token, fallback: Option<Id>) returns (action: Result<NextAction>)
    modifies token
    ensures var choice := if action.Ok? then Some(token.currentNode) else None;
            IsExclusiveChoice(if id in flows then flows[id] else [], old(token.variables), fallback, choice)
    ensures action.Ok? ==> action == Ok(Continue(token.State()))
    ensures action.Err? ==> token.currentNode == old(token.currentNode)
    ensures token.variables == old(token.variables) && token.isMerged == old(token.isMerged)
    ensures token.dataScope == old(token.dataScope)
  {
    var choice := Choose(Outgoing(flows, id), token.variables, fallback);
    if choice.None? {
      return Err;
    }
    token.currentNode := choice.value;
    action := Ok(Continue(token.State()));
  }

  // ----- how the gateways relate

  lemma {:induction false} SelectedIsTarget(out: seq<SequenceFlow>, p: SequenceFlow -> bool, i: nat)
    requires i < |out| && p(out[i])
    ensures out[i].target in Select(out, p)
  {
    var n := |out| - 1;
    if i < n { SelectedIsTarget(out[..n], p, i); }
  }

  lemma {:induction false} TargetIsSelected(out: seq<SequenceFlow>, p: SequenceFlow -> bool, x: Id) returns (i: nat)
    requires x in Select(out, p)
    ensures i < |out| && p(out[i]) && out[i].target == x
  {
    var n := |out| - 1;
    if x in Select(out[..n], p) {
      i := TargetIsSelected(out[..n], p, x);
    } else {
      i := n;
    }
  }

  /** The exclusive choice is one of the complex gateway's targets, and both fail together. */
  lemma ExclusiveIsAmongComplex(out: seq<SequenceFlow>, vars: Json.Variables, fallback: Option<Id>)
    ensures var choice, targets := Choice(out, vars, fallback), WithFallback(Targets(out, vars, fallback), fallback);
            && (choice.None? <==> targets == [])
            && (choice.Some? ==> choice.value in targets)
  {
    var c, u, taken := First(out, Passing(vars), 0), First(out, Free(fallback), 0), Taken(vars, fallback);
    if c < |out| {
      SelectedIsTarget(out, taken, c);
    } else if u < |out| {
      SelectedIsTarget(out, taken, u);
    } else if Select(out, taken) != [] {
      var i := TargetIsSelected(out, taken, Select(out, taken)[0]);
      assert false;
    }
  }

  lemma {:induction false} SelectJoin(a: seq<SequenceFlow>, b: seq<SequenceFlow>, p: SequenceFlow -> bool)
    ensures Select(a + b, p) == Select(a, p) + Select(b, p)
  {
    if b == [] {
      assert a + b == a;
    } else {
      var n := |b| - 1;
      assert (a + b)[..|a| + n] == a + b[..n];
      SelectJoin(a, b[..n], p);
    }
  }

  lemma MoveToEnd(a: seq<SequenceFlow>, f: SequenceFlow, b: seq<SequenceFlow>, p: SequenceFlow -> bool)
    ensures multiset(Select(a + [f] + b, p)) == multiset(Select(a + b + [f], p))
  {
    SelectJoin(a + [f], b, p);
    SelectJoin(a, [f], p);
    SelectJoin(a + b, [f], p);
    SelectJoin(a, b, p);
  }

  /** Which targets are selected does not depend on the order of the flows. */
  lemma {:induction false} SelectIgnoresOrder(a: seq<SequenceFlow>, b: seq<SequenceFlow>, p: SequenceFlow -> bool)
    requires multiset(a) == multiset(b)
    ensures multiset(Select(a, p)) == multiset(Select(b, p))
    decreases |a|
  {
    if a == [] {
      assert |multiset(b)| == 0;
    } else {
      var n := |a| - 1;
      var j, rest := TakeOut(a, b);
      SelectIgnoresOrder(a[..n], rest, p);
      MoveToEnd(b[..j], b[j], b[j + 1..], p);
      SelectJoin(rest, [a[n]], p);
      SelectJoin(a[..n], [a[n]], p);
    }
  }

  /** Whether an inclusive or complex split fails, and which tokens it emits otherwise, does not
      depend on the order of the flows. */
  lemma SplitIgnoresOrder(a: seq<SequenceFlow>, b: seq<SequenceFlow>, vars: Json.Variables, fallback: Option<Id>)
    requires multiset(a) == multiset(b)
    ensures multiset(WithFallback(Targets(a, vars, fallback), fallback)) ==
            multiset(WithFallback(Targets(b, vars, fallback), fallback))
  {
    SelectIgnoresOrder(a, b, Taken(vars, fallback));
    assert |multiset(Targets(a, vars, fallback))| == |multiset(Targets(b, vars, fallback))|;
  }

  lemma {:induction false} SelectAgrees(out: seq<SequenceFlow>, p: SequenceFlow -> bool, q: SequenceFlow -> bool)
    requires forall i | 0 <= i < |out| :: p(out[i]) == q(out[i])
    ensures Select(out, p) == Select(out, q)
  {
    if out != [] {
      var n := |out| - 1;
      SelectAgrees(out[..n], p, q);
    }
  }

  lemma OpenIsTaken(f: SequenceFlow, vars: Json.Variables)
    ensures Open(vars)(f) == Taken(vars, None)(f)
  {
  }

  /** The two loops select the same targets if there is no default. */
  lemma OpenTargets(out: seq<SequenceFlow>, vars: Json.Variables)
    ensures Select(out, Open(vars)) == Targets(out, vars, None)
  {
    forall i | 0 <= i < |out| ensures Open(vars)(out[i]) == Taken(vars, None)(out[i]) {
      OpenIsTaken(out[i], vars);
    }
    SelectAgrees(out, Open(vars), Taken(vars, None));
  }

  lemma ComplexWithoutFallbackIsInclusive(flows: Flows, id: Id, t: TokenState)
    ensures Complex(flows, id, t, None) == Inclusive(flows, id, t)
  {
    OpenTargets(Outgoing(flows, id), t.variables);
  }

  lemma {:induction false} UnconditionalTargets(out: seq<SequenceFlow>, vars: Json.Variables)
    requires forall i | 0 <= i < |out| :: out[i].condition.None?
    ensures Select(out, Open(vars)) == AllTargets(out)
  {
    if out != [] {
      var n := |out| - 1;
      UnconditionalTargets(out[..n], vars);
      assert Open(vars)(out[n]);
    }
  }

  /** Without conditions an inclusive gateway is a parallel one, unless it leads nowhere. */
  lemma InclusiveIsParallel(flows: Flows, id: Id, t: TokenState)
    requires forall i | 0 <= i < |Outgoing(flows, id)| :: Outgoing(flows, id)[i].condition.None?
    ensures Inclusive(flows, id, t) == Parallel(flows, id, t) <==> Outgoing(flows, id) != [] || MustWait(flows, id, t)
  {
    UnconditionalTargets(Outgoing(flows, id), t.variables);
  }

  /** The tokens an action hands on. */
  function Emitted(action: NextAction): seq<TokenState> {
    match action
    case WaitForJoin(_, _) => []
    case Continue(token) => [token]
    case ContinueMultiple(tokens) => tokens
  }

  /** `picked` are, in order, exactly the positions at which `taken` is true. */
  ghost predicate ArePicked(taken: seq<bool>, picked: seq<nat>) {
    && (forall k | 0 <= k < |picked| :: picked[k] < |taken| && taken[picked[k]])
    && (forall k, l | 0 <= k < l < |picked| :: picked[k] < picked[l])
    && forall i | 0 <= i < |taken| && taken[i] :: i in picked
  }

  lemma PickOneMore(taken: seq<bool>, last: bool, before: seq<nat>)
    requires ArePicked(taken, before)
    ensures ArePicked(taken + [last], if last then before + [|taken|] else before)
  {
    var all, picked := taken + [last], if last then before + [|taken|] else before;
    forall i | 0 <= i < |all| && all[i] ensures i in picked {
      if i < |taken| { assert taken[i]; } else { assert picked[|picked| - 1] == i; }
    }
  }

  /** One token for each of the flows at `picked`, at its target, with the variables of `t` and no merge mark. A
      single one is `t` itself, which keeps its data scope; several are new. */
  ghost predicate FollowFlows(t: TokenState, out: seq<SequenceFlow>, picked: seq<nat>, tokens: seq<TokenState>) {
    && |tokens| == |picked|
    && forall k | 0 <= k < |picked| ::
         && picked[k] < |out| && tokens[k].currentNode == out[picked[k]].target
         && tokens[k].variables == t.variables && !tokens[k].isMerged
         && tokens[k].dataScope == if |picked| == 1 then t.dataScope else None
  }

  /** `targets` are where the flows at `picked` lead. */
  ghost predicate LeadTo(out: seq<SequenceFlow>, picked: seq<nat>, targets: seq<Id>) {
    |targets| == |picked| && forall k | 0 <= k < |picked| :: picked[k] < |out| && targets[k] == out[picked[k]].target
  }

  lemma LeadOneMore(out: seq<SequenceFlow>, picked: seq<nat>, targets: seq<Id>, f: SequenceFlow)
    requires LeadTo(out, picked, targets)
    ensures LeadTo(out + [f], picked, targets) && LeadTo(out + [f], picked + [|out|], targets + [f.target])
  {
    assert (out + [f])[|out|] == f;
  }

  lemma OneMorePicked(out: seq<SequenceFlow>, f: SequenceFlow, taken: seq<bool>, last: bool, before: seq<nat>, targets: seq<Id>)
    returns (picked: seq<nat>)
    requires ArePicked(taken, before) && |taken| == |out| && LeadTo(out, before, targets)
    ensures ArePicked(taken + [last], picked)
    ensures LeadTo(out + [f], picked, if last then targets + [f.target] else targets)
  {
    PickOneMore(taken, last, before);
    LeadOneMore(out, before, targets, f);
    if last {
      picked := before + [|out|];
    } else {
      picked := before;
    }
  }

  ghost predicate Marks(taken: seq<bool>, out: seq<SequenceFlow>, p: SequenceFlow -> bool) {
    |taken| == |out| && forall i | 0 <= i < |out| :: taken[i] == p(out[i])
  }

  /** Flows one by one from the last: the selection and the marks. */
  lemma WithoutLast(out: seq<SequenceFlow>, p: SequenceFlow -> bool, taken: seq<bool>, n: nat)
    requires n + 1 == |out| && Marks(taken, out, p)
    ensures Marks(taken[..n], out[..n], p) && taken == taken[..n] + [taken[n]] && out == out[..n] + [out[n]]
    ensures Select(out, p) == if taken[n] then Select(out[..n], p) + [out[n].target] else Select(out[..n], p)
  {
    MarksOfPrefix(out, p, taken, n);
    LastSelected(out, p, n);
    assert taken[n] == p(out[n]);
  }

  lemma MarksOfPrefix(out: seq<SequenceFlow>, p: SequenceFlow -> bool, taken: seq<bool>, n: nat)
    requires n <= |out| && Marks(taken, out, p)
    ensures Marks(taken[..n], out[..n], p)
  {
    forall i | 0 <= i < n ensures taken[..n][i] == p(out[..n][i]) { assert taken[i] == p(out[i]); }
  }

  lemma LastSelected(out: seq<SequenceFlow>, p: SequenceFlow -> bool, n: nat)
    requires n + 1 == |out|
    ensures Select(out, p) == if p(out[n]) then Select(out[..n], p) + [out[n].target] else Select(out[..n], p)
  {
    assert Select(out[..n], p) + [] == Select(out[..n], p);
  }

  lemma {:induction false} SelectPicks(out: seq<SequenceFlow>, p: SequenceFlow -> bool, taken: seq<bool>) returns (picked: seq<nat>)
    requires Marks(taken, out, p)
    ensures ArePicked(taken, picked) && LeadTo(out, picked, Select(out, p))
  {
    if out == [] {
      picked := [];
    } else {
      var n := |out| - 1;
      WithoutLast(out, p, taken, n);
      var before := SelectPicks(out[..n], p, taken[..n]);
      picked := OneMorePicked(out[..n], out[n], taken[..n], taken[n], before, Select(out[..n], p));
    }
  }

  lemma EmitFollows(t: TokenState, out: seq<SequenceFlow>, picked: seq<nat>, targets: seq<Id>)
    requires LeadTo(out, picked, targets)
    ensures FollowFlows(t, out, picked, Emitted(Emit(t, targets))) && !Emit(t, targets).WaitForJoin?
  {
  }

  /** Whether a complex gateway takes the flow at `i`: its condition holds, or it has none and does not lead to the
      default. */
  ghost function TakenAt(out: seq<SequenceFlow>, vars: Json.Variables, fallback: Option<Id>): seq<bool> {
    seq(|out|, i requires 0 <= i < |out| =>
      if out[i].condition.Some? then ConditionText.ConditionHolds(out[i].condition.value, vars)
      else Some(out[i].target) != fallback)
  }

  lemma TakenIs(out: seq<SequenceFlow>, vars: Json.Variables, fallback: Option<Id>)
    ensures var taken := TakenAt(out, vars, fallback);
            |taken| == |out| && forall i | 0 <= i < |out| :: taken[i] == Taken(vars, fallback)(out[i])
  {
    forall i | 0 <= i < |out| ensures TakenAt(out, vars, fallback)[i] == Taken(vars, fallback)(out[i]) {
      assert Taken(vars, fallback)(out[i]) == IsTaken(out[i], vars, fallback);
    }
  }

  /** It waits exactly at a join for a token that was not merged. Otherwise it hands on one token for each flow at
      `picked`, in order; one for the default, if there is none; and it fails if there is no default either. */
  ghost predicate IsRouted(flows: Flows, id: Id, t: TokenState, fallback: Option<Id>, picked: seq<nat>, action: Result<NextAction>) {
    var out := if id in flows then flows[id] else [];
    if |Incoming(flows, id, flows.Keys)| >= 2 && !t.isMerged then action == Ok(WaitForJoin(id, t))
    else if picked != [] then
      action.Ok? && !action.value.WaitForJoin? && FollowFlows(t, out, picked, Emitted(action.value))
    else if fallback.Some? then action == Ok(Continue(t.(currentNode := fallback.value, isMerged := false)))
    else action.Err?
  }

  lemma TargetsAreRouted(flows: Flows, id: Id, t: TokenState, fallback: Option<Id>, picked: seq<nat>, targets: seq<Id>,
                         action: Result<NextAction>)
    requires LeadTo(Outgoing(flows, id), picked, targets)
    requires action == if MustWait(flows, id, t) then Ok(WaitForJoin(id, t))
                       else if WithFallback(targets, fallback) == [] then Err
                       else Ok(Emit(t, WithFallback(targets, fallback)))
    ensures IsRouted(flows, id, t, fallback, picked, action)
  {
    EmitFollows(t, Outgoing(flows, id), picked, targets);
  }

  /** A complex gateway routes along the flows whose condition holds, or that have none and do not lead to the default. */
  lemma ComplexIsExact(flows: Flows, id: Id, t: TokenState, fallback: Option<Id>) returns (picked: seq<nat>)
    ensures ArePicked(TakenAt(if id in flows then flows[id] else [], t.variables, fallback), picked)
    ensures IsRouted(flows, id, t, fallback, picked, Complex(flows, id, t, fallback))
  {
    var out := Outgoing(flows, id);
    TakenIs(out, t.variables, fallback);
    picked := SelectPicks(out, Taken(t.variables, fallback), TakenAt(out, t.variables, fallback));
    TargetsAreRouted(flows, id, t, fallback, picked, Targets(out, t.variables, fallback), Complex(flows, id, t, fallback));
  }

  /** An inclusive gateway routes along the flows that have no condition or one that holds. */
  lemma InclusiveIsExact(flows: Flows, id: Id, t: TokenState) returns (picked: seq<nat>)
    ensures ArePicked(TakenAt(if id in flows then flows[id] else [], t.variables, None), picked)
    ensures IsRouted(flows, id, t, None, picked, Inclusive(flows, id, t))
  {
    ComplexWithoutFallbackIsInclusive(flows, id, t);
    picked := ComplexIsExact(flows, id, t, None);
  }

  /** A parallel gateway routes along every flow, and never fails; one that leads nowhere hands on nothing. */
  lemma ParallelIsExact(flows: Flows, id: Id, t: TokenState)
    ensures var out := if id in flows then flows[id] else [];
            if out != [] then
              IsRouted(flows, id, t, None, seq(|out|, i requires 0 <= i < |out| => i), Parallel(flows, id, t))
            else
              Parallel(flows, id, t) ==
              Ok(if |Incoming(flows, id, flows.Keys)| >= 2 && !t.isMerged then WaitForJoin(id, t) else ContinueMultiple([]))
  {
    var out := Outgoing(flows, id);
    EmitFollows(t, out, seq(|out|, i requires 0 <= i < |out| => i), AllTargets(out));
  }

  /** `action` is how a gateway that joins lets `t` pass. */
  ghost predicate IsSplit(flows: Flows, id: Id, t: TokenState, action: NextAction) {
    && !MustWait(flows, id, t)
    && (|| Parallel(flows, id, t) == Ok(action)
        || Inclusive(flows, id, t) == Ok(action)
        || exists fallback :: Complex(flows, id, t, fallback) == Ok(action))
  }

  /** Every token a split emits carries the same variables and waits at the next join. */
  lemma SplitTokensWaitAgain(flows: Flows, id: Id, t: TokenState, action: NextAction, i: nat, join: Id)
    requires IsSplit(flows, id, t, action) && i < |Emitted(action)|
    requires |Incoming(flows, join, flows.Keys)| >= 2
    ensures var token := Emitted(action)[i];
            && token.variables == t.variables
            && MustWait(flows, join, token)
            && Parallel(flows, join, token) == Inclusive(flows, join, token) == Ok(WaitForJoin(join, token))
            && forall fallback :: Complex(flows, join, token, fallback) == Ok(WaitForJoin(join, token))
  {
  }
}
