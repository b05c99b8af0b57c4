/** Evaluation of condition syntax, and the rewritings it allows and forbids. */
module ConditionEval {
  import opened Common
  import opened ConditionSyntax
  import Json

  /** `f64::EPSILON`, 2^-52. */
  const EPSILON: real := 1.0 / 4503599627370496.0

  function FromJson(v: Json.Value): EvalValue {
    match v
    case Null => EvalValue.Null
    case Bool(b) => EvalValue.Bool(b)
    case Number(n) => EvalValue.Number(n)
    case String(s) => EvalValue.String(s)
    case Array(_) => EvalValue.Json(v)
    case Object(_) => EvalValue.Json(v)
  }

  /** One step along a path; a step that leads nowhere is undefined. */
  function Select(v: EvalValue, segment: PathSegment): EvalValue {
    match (v, segment)
    case (Json(Object(fields)), Field(name)) => if name in fields then FromJson(fields[name]) else Undefined
    case (Json(Array(items)), Index(index)) => if index < |items| then FromJson(items[index]) else Undefined
    case _ => Undefined
  }

  function Follow(v: EvalValue, segments: seq<PathSegment>): EvalValue
    decreases segments
  {
    if segments == [] then v else Follow(Select(v, segments[0]), segments[1..])
  }

  function Resolve(segments: seq<PathSegment>, vars: Json.Variables): EvalValue {
    if segments != [] && segments[0].Field? && segments[0].name in vars then
      Follow(FromJson(vars[segments[0].name]), segments[1..])
    else Undefined
  }

  /** The source stops at the first missing step; nothing comes back after one. */
  lemma {:induction false} UndefinedStays(segments: seq<PathSegment>)
    ensures Follow(Undefined, segments) == Undefined
  {
    if segments != [] {
      UndefinedStays(segments[1..]);
    }
  }

  method ResolvePath(segments: seq<PathSegment>, vars: Json.Variables) returns (r: EvalValue)
    ensures r == Resolve(segments, vars)
  {
    if segments == [] || !segments[0].Field? || segments[0].name !in vars {
      return Undefined;
    }
    var current := FromJson(vars[segments[0].name]);
    var i := 1;
    while i < |segments|
      invariant 1 <= i <= |segments|
      invariant Resolve(segments, vars) == Follow(current, segments[i..])
    {
      var next := Select(current, segments[i]);
      if next.Undefined? {
        UndefinedStays(segments[i + 1..]);
        return Undefined;
      }
      current := next;
      i := i + 1;
    }
    r := current;
  }

  predicate Truthy(v: EvalValue) {
    match v
    case Undefined => false
    case Null => false
    case Bool(b) => b
    case Number(n) => n != 0.0
    case String(s) => s != []
    case Json(_) => true
  }

  function Abs(x: real): real { if x < 0.0 then -x else x }

  predicate ValuesEq(a: EvalValue, b: EvalValue) {
    match (a, b)
    case (Undefined, _) => false
    case (_, Undefined) => false
    case (Number(x), Number(y)) => Abs(x - y) < EPSILON
    case _ => a == b
  }

  function CompareValues(op: CmpOp, a: EvalValue, b: EvalValue): Result<bool> {
    match op
    case Eq => Ok(ValuesEq(a, b))
    case Ne => Ok(!a.Undefined? && !b.Undefined? && !ValuesEq(a, b))
    case _ =>
      if a.Undefined? || b.Undefined? then Ok(false)
      else if !a.Number? || !b.Number? then Err
      else if op.Gt? then Ok(a.n > b.n)
      else if op.Lt? then Ok(a.n < b.n)
      else if op.Ge? then Ok(a.n >= b.n)
      else Ok(a.n <= b.n)
  }

  /** Rounding toward zero, as the source's remainder does. */
  function Truncate(x: real): int { if x < 0.0 then -((-x).Floor) else x.Floor }

  function Calculate(op: ArithOp, a: EvalValue, b: EvalValue): Result<EvalValue> {
    if a.Undefined? || b.Undefined? then Ok(Undefined)
    else if !a.Number? || !b.Number? then Err
    else match op
      case Add => Ok(Number(a.n + b.n))
      case Sub => Ok(Number(a.n - b.n))
      case Mul => Ok(Number(a.n * b.n))
      case Div => if b.n == 0.0 then Err else Ok(Number(a.n / b.n))
      case Rem => if b.n == 0.0 then Err else Ok(Number(a.n - b.n * (Truncate(a.n / b.n) as real)))
  }

  function Evaluate(e: Expr, vars: Json.Variables): Result<EvalValue> {
    match e
    case Literal(value) => Ok(value)
    case Path(segments) => Ok(Resolve(segments, vars))
    case Not(inner) =>
      var v :- Evaluate(inner, vars);
      Ok(Bool(!Truthy(v)))
    case Neg(inner) =>
      var v :- Evaluate(inner, vars);
      (match v
       case Undefined => Ok(Undefined)
       case Number(n) => Ok(Number(-n))
       case _ => Err)
    case And(lhs, rhs) =>
      var a :- Evaluate(lhs, vars);
      if !Truthy(a) then Ok(Bool(false))
      else
        var b :- Evaluate(rhs, vars);
        Ok(Bool(Truthy(b)))
    case Or(lhs, rhs) =>
      var a :- Evaluate(lhs, vars);
      if Truthy(a) then Ok(Bool(true))
      else
        var b :- Evaluate(rhs, vars);
        Ok(Bool(Truthy(b)))
    case Compare(op, lhs, rhs) =>
      var a :- Evaluate(lhs, vars);
      var b :- Evaluate(rhs, vars);
      var c :- CompareValues(op, a, b);
      Ok(Bool(c))
    case Arith(op, lhs, rhs) =>
      var a :- Evaluate(lhs, vars);
      var b :- Evaluate(rhs, vars);
      Calculate(op, a, b)
  }

  /** What a condition decides: its truth, or that it fails. */
  function Verdict(e: Expr, vars: Json.Variables): Result<bool> {
    var v :- Evaluate(e, vars);
    Ok(Truthy(v))
  }

  /** A failing condition is not taken. */
  predicate Holds(e: Expr, vars: Json.Variables) { Verdict(e, vars) == Ok(true) }

  // ----- boolean rewriting

  /** A conjunction with chains nested to the right. */
  function Conjoin(a: Expr, b: Expr): Expr {
    if a.And? then And(a.lhs, Conjoin(a.rhs, b)) else And(a, b)
  }

  function Disjoin(a: Expr, b: Expr): Expr {
    if a.Or? then Or(a.lhs, Disjoin(a.rhs, b)) else Or(a, b)
  }

  /** Negations pushed to the leaves by De Morgan, double negations dropped, and
      chains of `&&` and `||` reassociated; `negate` asks for the opposite. */
  function Normalize(e: Expr, negate: bool): Expr {
    match e
    case Not(inner) => Normalize(inner, !negate)
    case And(lhs, rhs) =>
      if negate then Disjoin(Normalize(lhs, true), Normalize(rhs, true))
      else Conjoin(Normalize(lhs, false), Normalize(rhs, false))
    case Or(lhs, rhs) =>
      if negate then Conjoin(Normalize(lhs, true), Normalize(rhs, true))
      else Disjoin(Normalize(lhs, false), Normalize(rhs, false))
    case _ => if negate then Not(e) else e
  }

  function Negate(r: Result<bool>): Result<bool> { if r.Ok? then Ok(!r.value) else Err }

  /** Short-circuit conjunction and disjunction of verdicts. */
  function Both(a: Result<bool>, b: Result<bool>): Result<bool> { if a == Ok(true) then b else a }

  function Either(a: Result<bool>, b: Result<bool>): Result<bool> { if a == Ok(false) then b else a }

  lemma VerdictOfAnd(a: Expr, b: Expr, vars: Json.Variables)
    ensures Verdict(And(a, b), vars) == Both(Verdict(a, vars), Verdict(b, vars))
  {
  }

  lemma VerdictOfOr(a: Expr, b: Expr, vars: Json.Variables)
    ensures Verdict(Or(a, b), vars) == Either(Verdict(a, vars), Verdict(b, vars))
  {
  }

  /** Reassociating `&&` keeps the value and the failure. */
  lemma {:induction false} ConjoinIsAnd(a: Expr, b: Expr, vars: Json.Variables)
    ensures Verdict(Conjoin(a, b), vars) == Both(Verdict(a, vars), Verdict(b, vars))
    decreases a
  {
    VerdictOfAnd(a, b, vars);
    if a.And? {
      ConjoinIsAnd(a.rhs, b, vars);
      VerdictOfAnd(a.lhs, a.rhs, vars);
      VerdictOfAnd(a.lhs, Conjoin(a.rhs, b), vars);
    }
  }

  lemma {:induction false} DisjoinIsOr(a: Expr, b: Expr, vars: Json.Variables)
    ensures Verdict(Disjoin(a, b), vars) == Either(Verdict(a, vars), Verdict(b, vars))
    decreases a
  {
    VerdictOfOr(a, b, vars);
    if a.Or? {
      DisjoinIsOr(a.rhs, b, vars);
      VerdictOfOr(a.lhs, a.rhs, vars);
      VerdictOfOr(a.lhs, Disjoin(a.rhs, b), vars);
    }
  }

  /** Normalizing never changes a verdict, in any environment, failures included. */
  lemma {:induction false} NormalizeKeepsVerdict(e: Expr, negate: bool, vars: Json.Variables)
    ensures Verdict(Normalize(e, negate), vars) == if negate then Negate(Verdict(e, vars)) else Verdict(e, vars)
    decreases e
  {
    match e
    case Not(inner) => NormalizeKeepsVerdict(inner, !negate, vars);
    case And(lhs, rhs) =>
      VerdictOfAnd(lhs, rhs, vars);
      NormalizedOperands(e, lhs, rhs, negate, vars);
    case Or(lhs, rhs) =>
      VerdictOfOr(lhs, rhs, vars);
      NormalizedOperands(e, lhs, rhs, negate, vars);
    case _ =>
  }

  lemma {:induction false} NormalizedOperands(e: Expr, lhs: Expr, rhs: Expr, negate: bool, vars: Json.Variables)
    requires lhs < e && rhs < e
    ensures var a, b := Normalize(lhs, negate), Normalize(rhs, negate);
            var x, y := Verdict(lhs, vars), Verdict(rhs, vars);
            && Verdict(Conjoin(a, b), vars) == (if negate then Negate(Either(x, y)) else Both(x, y))
            && Verdict(Disjoin(a, b), vars) == (if negate then Negate(Both(x, y)) else Either(x, y))
    decreases e, 0
  {
    NormalizeKeepsVerdict(lhs, negate, vars);
    NormalizeKeepsVerdict(rhs, negate, vars);
    ConjoinIsAnd(Normalize(lhs, negate), Normalize(rhs, negate), vars);
    DisjoinIsOr(Normalize(lhs, negate), Normalize(rhs, negate), vars);
  }

  function AsValue(r: Result<bool>): Result<EvalValue> { if r.Ok? then Ok(Bool(r.value)) else Err }

  /** Connectives look at their operands' verdicts only. */
  lemma ValuesOfConnectives(a: Expr, b: Expr, vars: Json.Variables)
    ensures Evaluate(And(a, b), vars) == AsValue(Both(Verdict(a, vars), Verdict(b, vars)))
    ensures Evaluate(Or(a, b), vars) == AsValue(Either(Verdict(a, vars), Verdict(b, vars)))
    ensures Evaluate(Not(a), vars) == AsValue(Negate(Verdict(a, vars)))
  {
  }

  lemma AssociativeLaws(a: Expr, b: Expr, c: Expr, vars: Json.Variables)
    ensures Evaluate(And(And(a, b), c), vars) == Evaluate(And(a, And(b, c)), vars)
    ensures Evaluate(Or(Or(a, b), c), vars) == Evaluate(Or(a, Or(b, c)), vars)
  {
    ValuesOfConnectives(a, b, vars);
    ValuesOfConnectives(b, c, vars);
    ValuesOfConnectives(And(a, b), c, vars);
    ValuesOfConnectives(a, And(b, c), vars);
    ValuesOfConnectives(Or(a, b), c, vars);
    ValuesOfConnectives(a, Or(b, c), vars);
  }

  lemma DeMorgansLaws(a: Expr, b: Expr, vars: Json.Variables)
    ensures Evaluate(Not(And(a, b)), vars) == Evaluate(Or(Not(a), Not(b)), vars)
    ensures Evaluate(Not(Or(a, b)), vars) == Evaluate(And(Not(a), Not(b)), vars)
  {
    ValuesOfConnectives(a, b, vars);
    ValuesOfConnectives(Not(a), Not(b), vars);
  }

  /** Normal form: negation only on leaves, and no chain has a chain of its own kind on the left. */
  predicate IsNormal(e: Expr) {
    match e
    case Not(inner) => !inner.Not? && !inner.And? && !inner.Or?
    case And(lhs, rhs) => !lhs.And? && IsNormal(lhs) && IsNormal(rhs)
    case Or(lhs, rhs) => !lhs.Or? && IsNormal(lhs) && IsNormal(rhs)
    case _ => true
  }

  lemma {:induction false} NormalizeIsNormal(e: Expr, negate: bool)
    ensures IsNormal(Normalize(e, negate))
    decreases e
  {
    match e
    case Not(inner) => NormalizeIsNormal(inner, !negate);
    case And(lhs, rhs) =>
      NormalizeIsNormal(lhs, negate);
      NormalizeIsNormal(rhs, negate);
      JoinIsNormal(Normalize(lhs, negate), Normalize(rhs, negate));
    case Or(lhs, rhs) =>
      NormalizeIsNormal(lhs, negate);
      NormalizeIsNormal(rhs, negate);
      JoinIsNormal(Normalize(lhs, negate), Normalize(rhs, negate));
    case _ =>
  }

  lemma {:induction false} JoinIsNormal(a: Expr, b: Expr)
    requires IsNormal(a) && IsNormal(b)
    ensures IsNormal(Conjoin(a, b)) && IsNormal(Disjoin(a, b))
    decreases a
  {
    if a.And? || a.Or? {
      JoinIsNormal(a.rhs, b);
    }
  }

  /** Whether evaluating `e` gets to its right operand. */
  predicate ReachesRight(e: Expr, vars: Json.Variables) {
    match e
    case And(lhs, _) => Verdict(lhs, vars) == Ok(true)
    case Or(lhs, _) => Verdict(lhs, vars) == Ok(false)
    case Compare(_, lhs, _) => Evaluate(lhs, vars).Ok?
    case Arith(_, lhs, _) => Evaluate(lhs, vars).Ok?
    case _ => false
  }

  /** `f` is `e`, with anything at all in the places, at any depth, that evaluating `e` does not get to. */
  predicate SameWhereEvaluated(e: Expr, f: Expr, vars: Json.Variables) {
    match e
    case Literal(_) => f == e
    case Path(_) => f == e
    case Not(inner) => f.Not? && SameWhereEvaluated(inner, f.inner, vars)
    case Neg(inner) => f.Neg? && SameWhereEvaluated(inner, f.inner, vars)
    case And(lhs, rhs) =>
      f.And? && SameWhereEvaluated(lhs, f.lhs, vars) && (ReachesRight(e, vars) ==> SameWhereEvaluated(rhs, f.rhs, vars))
    case Or(lhs, rhs) =>
      f.Or? && SameWhereEvaluated(lhs, f.lhs, vars) && (ReachesRight(e, vars) ==> SameWhereEvaluated(rhs, f.rhs, vars))
    case Compare(op, lhs, rhs) =>
      f.Compare? && f.cmp == op && SameWhereEvaluated(lhs, f.lhs, vars)
      && (ReachesRight(e, vars) ==> SameWhereEvaluated(rhs, f.rhs, vars))
    case Arith(op, lhs, rhs) =>
      f.Arith? && f.arith == op && SameWhereEvaluated(lhs, f.lhs, vars)
      && (ReachesRight(e, vars) ==> SameWhereEvaluated(rhs, f.rhs, vars))
  }

  /** An operand that is not evaluated, at any depth, never matters. */
  lemma {:induction false} SkippedOperandIsIrrelevant(e: Expr, f: Expr, vars: Json.Variables)
    requires SameWhereEvaluated(e, f, vars)
    ensures Evaluate(e, vars) == Evaluate(f, vars)
    decreases e
  {
    match e
    case Literal(_) =>
    case Path(_) =>
    case Not(inner) => SkippedOperandIsIrrelevant(inner, f.inner, vars);
    case Neg(inner) => SkippedOperandIsIrrelevant(inner, f.inner, vars);
    case _ =>
      SkippedOperandIsIrrelevant(e.lhs, f.lhs, vars);
      if ReachesRight(e, vars) { SkippedOperandIsIrrelevant(e.rhs, f.rhs, vars); }
  }

  // ----- what a condition can see

  /** The root variables a condition names. */
  function Roots(e: Expr): set<string> {
    match e
    case Literal(_) => {}
    case Path(segments) => if segments != [] && segments[0].Field? then {segments[0].name} else {}
    case Not(inner) => Roots(inner)
    case Neg(inner) => Roots(inner)
    case And(lhs, rhs) => Roots(lhs) + Roots(rhs)
    case Or(lhs, rhs) => Roots(lhs) + Roots(rhs)
    case Compare(_, lhs, rhs) => Roots(lhs) + Roots(rhs)
    case Arith(_, lhs, rhs) => Roots(lhs) + Roots(rhs)
  }

  ghost predicate Agree(names: set<string>, u: Json.Variables, v: Json.Variables) {
    forall x | x in names :: (x in u <==> x in v) && (x in u ==> u[x] == v[x])
  }

  lemma {:induction false} OnlyRootsMatter(e: Expr, u: Json.Variables, v: Json.Variables)
    requires Agree(Roots(e), u, v)
    ensures Evaluate(e, u) == Evaluate(e, v)
    decreases e
  {
    match e
    case Literal(_) =>
    case Path(_) =>
    case Not(inner) => OnlyRootsMatter(inner, u, v);
    case Neg(inner) => OnlyRootsMatter(inner, u, v);
    case And(lhs, rhs) => OnlyRootsMatter(lhs, u, v); OnlyRootsMatter(rhs, u, v);
    case Or(lhs, rhs) => OnlyRootsMatter(lhs, u, v); OnlyRootsMatter(rhs, u, v);
    case Compare(_, lhs, rhs) => OnlyRootsMatter(lhs, u, v); OnlyRootsMatter(rhs, u, v);
    case Arith(_, lhs, rhs) => OnlyRootsMatter(lhs, u, v); OnlyRootsMatter(rhs, u, v);
  }

  // ----- missing values

  /** An arithmetic expression over literals and paths, at least one of which is missing. */
  predicate Missing(e: Expr, vars: Json.Variables) {
    match e
    case Literal(value) => value.Undefined?
    case Path(segments) => Resolve(segments, vars).Undefined?
    case Neg(inner) => Missing(inner, vars)
    case Arith(_, lhs, rhs) => Missing(lhs, vars) || Missing(rhs, vars)
    case _ => false
  }

  lemma {:induction false} MissingIsStrict(e: Expr, vars: Json.Variables)
    requires Missing(e, vars)
    ensures Evaluate(e, vars) in {Ok(Undefined), Err}
  {
    match e
    case Literal(_) =>
    case Path(_) =>
    case Neg(inner) => MissingIsStrict(inner, vars);
    case Arith(_, lhs, rhs) =>
      if Missing(lhs, vars) { MissingIsStrict(lhs, vars); } else { MissingIsStrict(rhs, vars); }
  }

  /** Each of the six comparisons over a missing value is false. */
  lemma MissingNeverCompares(op: CmpOp, lhs: Expr, rhs: Expr, vars: Json.Variables)
    requires Missing(lhs, vars) || Missing(rhs, vars)
    ensures !Holds(Compare(op, lhs, rhs), vars)
  {
    if Missing(lhs, vars) { MissingIsStrict(lhs, vars); } else { MissingIsStrict(rhs, vars); }
  }

  function Opposite(op: CmpOp): CmpOp {
    match op
    case Eq => Ne
    case Ne => Eq
    case Gt => Le
    case Le => Gt
    case Lt => Ge
    case Ge => Lt
  }

  /** Negation moves through a comparison exactly when no operand is undefined
      (or an operand already fails). */
  lemma NotThroughComparison(op: CmpOp, lhs: Expr, rhs: Expr, vars: Json.Variables)
    ensures Evaluate(Not(Compare(op, lhs, rhs)), vars) == Evaluate(Compare(Opposite(op), lhs, rhs), vars)
       <==> (&& Evaluate(lhs, vars).Ok? && Evaluate(rhs, vars).Ok?
             ==> Evaluate(lhs, vars) != Ok(Undefined) && Evaluate(rhs, vars) != Ok(Undefined))
  {
    var a, b := Evaluate(lhs, vars), Evaluate(rhs, vars);
    if a.Ok? && b.Ok? {
      var c, d := CompareValues(op, a.value, b.value), CompareValues(Opposite(op), a.value, b.value);
      assert a.value.Undefined? || b.value.Undefined? ==> c == d == Ok(false);
    }
  }

  // ----- numbers

  function Num(x: real): Expr { Literal(Number(x)) }

  lemma ValueOfNumbers(x: real, y: real, vars: Json.Variables)
    ensures Evaluate(Num(x), vars) == Ok(Number(x))
    ensures forall op :: Evaluate(Arith(op, Num(x), Num(y)), vars) == Calculate(op, Number(x), Number(y))
    ensures forall op :: Evaluate(Compare(op, Num(x), Num(y)), vars) == AsValue(CompareValues(op, Number(x), Number(y)))
  {
    assert Evaluate(Num(x), vars) == Ok(Number(x)) && Evaluate(Num(y), vars) == Ok(Number(y));
  }

  /** Order is the order of numbers; equality tolerates less than the epsilon. So `>=` is `>` or `==`
      exactly unless the left number is smaller by less than that. */
  lemma OrderOfNumbers(x: real, y: real, vars: Json.Variables)
    ensures Holds(Compare(Lt, Num(x), Num(y)), vars) <==> x < y
    ensures Holds(Compare(Gt, Num(x), Num(y)), vars) <==> y < x
    ensures Holds(Compare(Eq, Num(x), Num(y)), vars) <==> y - EPSILON < x < y + EPSILON
    ensures (Holds(Compare(Ge, Num(x), Num(y)), vars) <==>
               Holds(Or(Compare(Gt, Num(x), Num(y)), Compare(Eq, Num(x), Num(y))), vars)) <==> !(y - EPSILON < x < y)
  {
    ValueOfNumbers(x, y, vars);
    ValuesOfConnectives(Compare(Gt, Num(x), Num(y)), Compare(Eq, Num(x), Num(y)), vars);
  }

  lemma DivideAndMultiply(x: real, y: real)
    requires y != 0.0
    ensures (x / y) * y == x
  {
  }

  /** On numbers, only division and remainder can fail, and only by zero. */
  lemma OnlyZeroDivides(op: ArithOp, x: real, y: real, vars: Json.Variables)
    ensures Evaluate(Arith(op, Num(x), Num(y)), vars).Err? <==> (op.Div? || op.Rem?) && y == 0.0
  {
    ValueOfNumbers(x, y, vars);
  }

  lemma ScaledDown(y: real, f: real)
    requires Abs(f) < 1.0 && y != 0.0
    ensures Abs(y * f) < Abs(y)
  {
    if y > 0.0 {
      assert y * f < y * 1.0 && y * f > y * (-1.0);
    } else {
      assert y * f > y * 1.0 && y * f < y * (-1.0);
    }
  }

  /** The part of a number that truncation drops has its sign and is below one. */
  lemma TruncatedPart(q: real)
    ensures var f := q - (Truncate(q) as real); Abs(f) < 1.0 && f * q >= 0.0
  {
    var f := q - (Truncate(q) as real);
    if q < 0.0 {
      assert f <= 0.0;
    } else {
      assert f >= 0.0;
    }
  }

  /** `r` is what is left of `x` after `n` times `y`: smaller than `y`, and never of the opposite sign to `x`. */
  ghost predicate IsRemainder(x: real, y: real, n: int, r: real) {
    && x == y * (n as real) + r && r * x >= 0.0
    && (if r < 0.0 then -r else r) < (if y < 0.0 then -y else y)
  }

  lemma ProductOfNumbers(x: real, y: real)
    ensures Calculate(Mul, Number(x), Number(y)) == Ok(Number(x * y))
  {
    var r := Calculate(Mul, Number(x), Number(y)).value;
    assert r.n == x * y;
    assert r == Number(r.n);
  }

  lemma RemainderOfNumbers(x: real, y: real, n: int)
    requires y != 0.0 && n == Truncate(x / y)
    ensures Calculate(Rem, Number(x), Number(y)) == Ok(Number(x - y * (n as real)))
  {
    var a, b := Number(x), Number(y);
    assert a.n == x && b.n == y;
  }

  lemma RemainderIsTruncated(x: real, y: real, vars: Json.Variables) returns (r: real, n: int)
    requires y != 0.0
    ensures Evaluate(Arith(Rem, Num(x), Num(y)), vars) == Ok(Number(r)) && IsRemainder(x, y, n, r)
  {
    var q := x / y;
    n := Truncate(q);
    r := x - y * (n as real);
    RemainderOfNumbers(x, y, n);
    DivideAndMultiply(x, y);
    RemainderBounds(x, y, q, n as real, r);
    ValueOfNumbers(x, y, vars);
  }

  lemma RemainderBounds(x: real, y: real, q: real, n: real, r: real)
    requires y != 0.0 && x == q * y && r == x - y * n && n == (Truncate(q) as real)
    ensures Abs(r) < Abs(y) && r * x >= 0.0
  {
    TruncatedPart(q);
    assert r == y * (q - n);
    ScaledDown(y, q - n);
    SignOfProduct(y, q - n, q);
  }

  lemma SignOfProduct(y: real, f: real, q: real)
    requires f * q >= 0.0
    ensures (y * f) * (y * q) >= 0.0
  {
    assert (y * f) * (y * q) == (y * y) * (f * q);
    assert y * y >= 0.0;
  }
}
