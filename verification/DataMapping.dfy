/** Data mappings: nested literals and variable references, evaluated in one phase against one snapshot. */
module DataMapping {
  import opened Common
  import opened Json

  datatype MappingValue =
    | Literal(value: Value)
    | Variable(name: string)
    | List(values: seq<MappingValue>)
    | Map(entries: map<string, MappingValue>)

  datatype Mapping = Mapping(target: string, value: MappingValue)

  datatype ActivityMappings = ActivityMappings(
    inputs: seq<Mapping>,
    outputs: seq<Mapping>,
    callInputs: Option<seq<Mapping>>,
    callOutputs: Option<seq<Mapping>>)

  /** Every variable in `m`, at any depth, has a value. */
  ghost predicate Known(m: MappingValue, vars: Variables) {
    match m
    case Literal(_) => true
    case Variable(name) => name in vars
    case List(values) => forall i | 0 <= i < |values| :: Known(values[i], vars)
    case Map(entries) => forall k | k in entries :: Known(entries[k], vars)
  }

  /** The value `m` stands for. */
  ghost function Meaning(m: MappingValue, vars: Variables): Value
    requires Known(m, vars)
  {
    match m
    case Literal(value) => value
    case Variable(name) => vars[name]
    case List(values) => Array(seq(|values|, i requires 0 <= i < |values| => Meaning(values[i], vars)))
    case Map(entries) => Object(map k | k in entries :: Meaning(entries[k], vars))
  }

  method Evaluate(m: MappingValue, vars: Variables) returns (r: Result<Value>)
    ensures r.Ok? <==> Known(m, vars)
    ensures r.Ok? ==> r.value == Meaning(m, vars)
    decreases m, 1
  {
    match m
    case Literal(value) => r := Ok(value);
    case Variable(name) => r := if name in vars then Ok(vars[name]) else Err;
    case List(_) => r := EvaluateList(m, vars);
    case Map(_) => r := EvaluateMap(m, vars);
  }

  method EvaluateList(m: MappingValue, vars: Variables) returns (r: Result<Value>)
    requires m.List?
    ensures r.Ok? <==> Known(m, vars)
    ensures r.Ok? ==> r.value == Meaning(m, vars)
    decreases m, 0
  {
    var items := [];
    for i := 0 to |m.values|
      invariant |items| == i
      invariant forall j | 0 <= j < i :: Known(m.values[j], vars) && items[j] == Meaning(m.values[j], vars)
    {
      var item :- Evaluate(m.values[i], vars);
      items := items + [item];
    }
    r := Ok(Array(items));
  }

  /** `fields` holds the meaning of each entry it has. */
  ghost predicate Agrees(entries: map<string, MappingValue>, vars: Variables, fields: map<string, Value>) {
    forall k | k in fields :: k in entries && Known(entries[k], vars) && fields[k] == Meaning(entries[k], vars)
  }

  lemma AllAgree(m: MappingValue, vars: Variables, fields: map<string, Value>)
    requires m.Map? && Agrees(m.entries, vars, fields) && fields.Keys == m.entries.Keys
    ensures Known(m, vars) && Object(fields) == Meaning(m, vars)
  {
  }

  method EvaluateMap(m: MappingValue, vars: Variables) returns (r: Result<Value>)
    requires m.Map?
    ensures r.Ok? <==> Known(m, vars)
    ensures r.Ok? ==> r.value == Meaning(m, vars)
    decreases m, 0
  {
    var fields: map<string, Value> := map[];
    var todo := m.entries.Keys;
    while todo != {}
      invariant todo <= m.entries.Keys && fields.Keys == m.entries.Keys - todo
      invariant Agrees(m.entries, vars, fields)
      decreases |todo|
    {
      var k: string :| k in todo;
      var value :- Evaluate(m.entries[k], vars);
      fields := fields[k := value];
      todo := todo - {k};
    }
    AllAgree(m, vars, fields);
    r := Ok(Object(fields));
  }

  // ----- a mapping phase

  /** Targets are non-blank and distinct. */
  predicate TargetsAreProper(ms: seq<Mapping>) {
    && (forall i | 0 <= i < |ms| :: !Blank(ms[i].target))
    && (forall i, j | 0 <= i < j < |ms| :: ms[i].target != ms[j].target)
  }

  ghost predicate VariablesExist(ms: seq<Mapping>, source: Variables) {
    forall i | 0 <= i < |ms| :: Known(ms[i].value, source)
  }

  ghost predicate Evaluates(ms: seq<Mapping>, source: Variables) { TargetsAreProper(ms) && VariablesExist(ms, source) }

  function Targets(ms: seq<Mapping>): set<string> { set i | 0 <= i < |ms| :: ms[i].target }

  /** `r` gives every target the value it has in `source`, and nothing else. */
  ghost predicate IsOutcome(ms: seq<Mapping>, source: Variables, r: Variables)
    requires VariablesExist(ms, source)
  {
    && r.Keys == Targets(ms)
    && forall i | 0 <= i < |ms| :: r[ms[i].target] == Meaning(ms[i].value, source)
  }

  /** The first `n` mappings, one after the other. */
  ghost function Phase(ms: seq<Mapping>, source: Variables, n: nat): Result<Variables>
    requires n <= |ms|
  {
    if n == 0 then Ok(map[])
    else
      var before :- Phase(ms, source, n - 1);
      var m := ms[n - 1];
      if Blank(m.target) || m.target in before || !Known(m.value, source) then Err
      else Ok(before[m.target := Meaning(m.value, source)])
  }

  ghost predicate HasTarget(ms: seq<Mapping>, n: nat, k: string)
    requires n <= |ms|
  {
    exists i :: 0 <= i < n && ms[i].target == k
  }

  lemma {:induction false} PhaseKeys(ms: seq<Mapping>, source: Variables, n: nat, k: string)
    requires n <= |ms| && Phase(ms, source, n).Ok?
    ensures k in Phase(ms, source, n).value <==> HasTarget(ms, n, k)
  {
    if n > 0 {
      PhaseKeys(ms, source, n - 1, k);
      if k == ms[n - 1].target {
        assert HasTarget(ms, n, k);
      }
    }
  }

  lemma {:induction false} PhaseValues(ms: seq<Mapping>, source: Variables, n: nat, i: nat)
    requires i < n <= |ms| && Phase(ms, source, n).Ok?
    ensures var r := Phase(ms, source, n).value;
            && Known(ms[i].value, source) && !Blank(ms[i].target)
            && ms[i].target in r && r[ms[i].target] == Meaning(ms[i].value, source)
    ensures forall j | 0 <= j < i :: ms[j].target != ms[i].target
    decreases n
  {
    if i < n - 1 {
      PhaseValues(ms, source, n - 1, i);
    } else {
      forall j | 0 <= j < i ensures ms[j].target != ms[i].target {
        PhaseValues(ms, source, i, j);
      }
    }
  }

  lemma {:induction false} PhaseSucceeds(ms: seq<Mapping>, source: Variables, n: nat)
    requires n <= |ms| && Evaluates(ms, source)
    ensures Phase(ms, source, n).Ok?
  {
    if n > 0 {
      PhaseSucceeds(ms, source, n - 1);
      PhaseKeys(ms, source, n - 1, ms[n - 1].target);
    }
  }

  /** A phase succeeds exactly when its targets are proper and its variables exist; every target
      then has the value its mapping has in the snapshot, whatever the other mappings write. */
  lemma PhaseIsSimultaneous(ms: seq<Mapping>, source: Variables)
    ensures Phase(ms, source, |ms|).Ok? <==> Evaluates(ms, source)
    ensures Evaluates(ms, source) ==> IsOutcome(ms, source, Phase(ms, source, |ms|).value)
  {
    if Phase(ms, source, |ms|).Ok? {
      var r := Phase(ms, source, |ms|).value;
      forall i | 0 <= i < |ms|
        ensures Known(ms[i].value, source) && !Blank(ms[i].target)
        ensures ms[i].target in r && r[ms[i].target] == Meaning(ms[i].value, source)
        ensures forall j | 0 <= j < i :: ms[j].target != ms[i].target
      {
        PhaseValues(ms, source, |ms|, i);
      }
      forall k ensures k in r <==> k in Targets(ms) {
        PhaseKeys(ms, source, |ms|, k);
      }
    } else if Evaluates(ms, source) {
      PhaseSucceeds(ms, source, |ms|);
    }
  }

  /** The outcome of a phase that succeeds. */
  ghost function Outcome(ms: seq<Mapping>, source: Variables): (r: Variables)
    requires Evaluates(ms, source)
    ensures IsOutcome(ms, source, r)
  {
    PhaseIsSimultaneous(ms, source);
    Phase(ms, source, |ms|).value
  }

  method EvaluateMappings(ms: seq<Mapping>, source: Variables) returns (r: Result<Variables>)
    ensures r.Ok? <==> Evaluates(ms, source)
    ensures r.Ok? ==> r.value == Outcome(ms, source)
  {
    r := EvaluatePhase(ms, source);
    PhaseIsSimultaneous(ms, source);
  }

  method EvaluatePhase(ms: seq<Mapping>, source: Variables) returns (r: Result<Variables>)
    ensures r == Phase(ms, source, |ms|)
  {
    var result: Variables := map[];
    for n := 0 to |ms|
      invariant Phase(ms, source, n) == Ok(result)
    {
      var blank := TrimsToNothing(ms[n].target);
      if blank || ms[n].target in result {
        PhaseFails(ms, source, n + 1);
        return Err;
      }
      var value := Evaluate(ms[n].value, source);
      if value.Err? {
        PhaseFails(ms, source, n + 1);
        return Err;
      }
      result := result[ms[n].target := value.value];
    }
    r := Ok(result);
  }

  lemma {:induction false} PhaseFails(ms: seq<Mapping>, source: Variables, n: nat)
    requires n <= |ms| && Phase(ms, source, n).Err?
    ensures Phase(ms, source, |ms|).Err?
    decreases |ms| - n
  {
    if n < |ms| { PhaseFails(ms, source, n + 1); }
  }

  lemma OutcomeIsUnique(ms: seq<Mapping>, source: Variables, a: Variables, b: Variables)
    requires VariablesExist(ms, source) && IsOutcome(ms, source, a) && IsOutcome(ms, source, b)
    ensures a == b
  {
    forall k | k in a ensures a[k] == b[k] {
      var i :| 0 <= i < |ms| && ms[i].target == k;
    }
  }

  /** `ms` without its mapping at `j`. */
  function Without(ms: seq<Mapping>, j: nat): seq<Mapping>
    requires j < |ms|
  {
    ms[..j] + ms[j + 1..]
  }

  /** Every other mapping is still there. */
  lemma StillThere(ms: seq<Mapping>, j: nat, i: nat)
    requires j < |ms| && i < |ms| && i != j
    ensures var i' := if i < j then i else i - 1; i' < |Without(ms, j)| && Without(ms, j)[i'] == ms[i]
  {
  }

  lemma TargetsWithout(ms: seq<Mapping>, j: nat)
    requires j < |ms|
    ensures Targets(ms) == Targets(Without(ms, j)) + {ms[j].target}
  {
    var rest := Without(ms, j);
    forall i | 0 <= i < |ms| && i != j ensures ms[i].target in Targets(rest) {
      StillThere(ms, j, i);
    }
    forall i | 0 <= i < |rest| ensures rest[i].target in Targets(ms) {
      assert rest[i] == if i < j then ms[i] else ms[i + 1];
    }
  }

  lemma ProperWithout(ms: seq<Mapping>, j: nat)
    requires j < |ms| && TargetsAreProper(ms)
    ensures TargetsAreProper(Without(ms, j)) && !Blank(ms[j].target) && ms[j].target !in Targets(Without(ms, j))
  {
    var rest := Without(ms, j);
    assert forall i | 0 <= i < |rest| :: rest[i] == if i < j then ms[i] else ms[i + 1];
  }

  lemma ProperWith(ms: seq<Mapping>, j: nat)
    requires j < |ms|
    requires TargetsAreProper(Without(ms, j)) && !Blank(ms[j].target) && ms[j].target !in Targets(Without(ms, j))
    ensures TargetsAreProper(ms)
  {
    forall i | 0 <= i < |ms| ensures !Blank(ms[i].target) {
      if i != j { StillThere(ms, j, i); }
    }
    forall i, k | 0 <= i < k < |ms| ensures ms[i].target != ms[k].target {
      if i != j { StillThere(ms, j, i); }
      if k != j { StillThere(ms, j, k); }
    }
  }

  lemma {:induction false} ProperIgnoresOrder(a: seq<Mapping>, b: seq<Mapping>)
    requires multiset(a) == multiset(b)
    ensures TargetsAreProper(a) <==> TargetsAreProper(b)
    ensures Targets(a) == Targets(b)
    decreases |a|
  {
    if a == [] {
      assert |multiset(b)| == 0;
    } else {
      var n := |a| - 1;
      var j, rest := TakeOut(a, b);
      ProperIgnoresOrder(a[..n], rest);
      assert Without(a, n) == a[..n];
      TargetsWithout(a, n);
      TargetsWithout(b, j);
      if TargetsAreProper(a) {
        ProperWithout(a, n);
        ProperWith(b, j);
      } else if TargetsAreProper(b) {
        ProperWithout(b, j);
        ProperWith(a, n);
      }
    }
  }

  /** Every mapping of a list has a place in a permutation of it. */
  lemma PlaceOf(a: seq<Mapping>, b: seq<Mapping>, i: nat) returns (j: nat)
    requires multiset(a) == multiset(b) && i < |a|
    ensures j < |b| && b[j] == a[i]
  {
    assert a[i] in multiset(b);
    j :| 0 <= j < |b| && b[j] == a[i];
  }

  lemma OutcomeTransfers(a: seq<Mapping>, b: seq<Mapping>, source: Variables, r: Variables)
    requires multiset(a) == multiset(b) && VariablesExist(a, source) && IsOutcome(a, source, r)
    ensures VariablesExist(b, source) && IsOutcome(b, source, r)
  {
    ProperIgnoresOrder(a, b);
    forall i | 0 <= i < |b|
      ensures Known(b[i].value, source) && b[i].target in r && r[b[i].target] == Meaning(b[i].value, source)
    {
      var j := PlaceOf(b, a, i);
    }
  }

  lemma ExistenceIgnoresOrder(a: seq<Mapping>, b: seq<Mapping>, source: Variables)
    requires multiset(a) == multiset(b) && VariablesExist(a, source)
    ensures VariablesExist(b, source)
  {
    forall i | 0 <= i < |b| ensures Known(b[i].value, source) {
      var j := PlaceOf(b, a, i);
    }
  }

  /** Whether a phase succeeds, and what it yields, does not depend on the order of its mappings. */
  lemma PhaseIgnoresOrder(a: seq<Mapping>, b: seq<Mapping>, source: Variables)
    requires multiset(a) == multiset(b)
    ensures Evaluates(a, source) <==> Evaluates(b, source)
    ensures Evaluates(a, source) ==> Outcome(a, source) == Outcome(b, source)
  {
    ProperIgnoresOrder(a, b);
    if VariablesExist(a, source) { ExistenceIgnoresOrder(a, b, source); }
    if VariablesExist(b, source) { ExistenceIgnoresOrder(b, a, source); }
    if Evaluates(a, source) {
      OutcomeTransfers(a, b, source, Outcome(a, source));
      OutcomeIsUnique(b, source, Outcome(a, source), Outcome(b, source));
    }
  }
}
