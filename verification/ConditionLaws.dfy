/** What each construct of a condition evaluates to, said in terms of its operands' results. */
module ConditionLaws {
  import opened Common
  import opened ConditionSyntax
  import opened ConditionEval
  import ConditionText
  import Json

  // ----- arithmetic

  lemma OperandsCalculate(op: ArithOp, a: Expr, b: Expr, vars: Json.Variables, x: real, y: real)
    requires Evaluate(a, vars) == Ok(Number(x)) && Evaluate(b, vars) == Ok(Number(y))
    ensures Evaluate(Arith(op, a, b), vars) == Calculate(op, Number(x), Number(y))
    ensures Evaluate(Arith(op, a, b), vars) == Evaluate(Arith(op, Num(x), Num(y)), vars)
  {
  }

  /** Sums, differences and products of numbers are just that. */
  lemma NumbersCalculate(a: Expr, b: Expr, vars: Json.Variables, x: real, y: real)
    requires Evaluate(a, vars) == Ok(Number(x)) && Evaluate(b, vars) == Ok(Number(y))
    ensures Evaluate(Arith(Add, a, b), vars) == Ok(Number(x + y))
    ensures Evaluate(Arith(Sub, a, b), vars) == Ok(Number(x - y))
    ensures Evaluate(Arith(Mul, a, b), vars) == Ok(Number(x * y))
    ensures Evaluate(Neg(a), vars) == Ok(Number(-x))
  {
    OperandsCalculate(Add, a, b, vars, x, y);
    OperandsCalculate(Sub, a, b, vars, x, y);
    OperandsCalculate(Mul, a, b, vars, x, y);
    ProductOfNumbers(x, y);
  }

  /** A quotient times the divisor is the dividend; by zero it fails. */
  lemma NumbersDivide(a: Expr, b: Expr, vars: Json.Variables, x: real, y: real)
    requires Evaluate(a, vars) == Ok(Number(x)) && Evaluate(b, vars) == Ok(Number(y))
    ensures var q := Evaluate(Arith(Div, a, b), vars);
            if y == 0.0 then q.Err? else q.Ok? && q.value.Number? && q.value.n * y == x
  {
    OperandsCalculate(Div, a, b, vars, x, y);
    if y != 0.0 {
      DivideAndMultiply(x, y);
      var q := x / y;
      assert Calculate(Div, Number(x), Number(y)) == Ok(Number(q)) && q * y == x;
    }
  }

  /** The remainder leaves a whole multiple of the divisor, is smaller than it, and never has the opposite sign to the
      dividend; by zero it fails. */
  lemma NumbersLeaveRemainder(a: Expr, b: Expr, vars: Json.Variables, x: real, y: real) returns (n: int)
    requires Evaluate(a, vars) == Ok(Number(x)) && Evaluate(b, vars) == Ok(Number(y))
    ensures var r := Evaluate(Arith(Rem, a, b), vars);
            if y == 0.0 then r.Err? else r.Ok? && r.value.Number? && IsRemainder(x, y, n, r.value.n)
  {
    OperandsCalculate(Rem, a, b, vars, x, y);
    if y == 0.0 {
      n := 0;
    } else {
      var r;
      r, n := RemainderIsTruncated(x, y, vars);
    }
  }

  /** A failing operand fails; otherwise an undefined one makes the result undefined; otherwise anything but numbers
      fails. */
  lemma OthersDoNotCalculate(op: ArithOp, a: Expr, b: Expr, vars: Json.Variables)
    ensures var u, v, r := Evaluate(a, vars), Evaluate(b, vars), Evaluate(Arith(op, a, b), vars);
            && (u.Err? || v.Err? ==> r.Err?)
            && (u.Ok? && v.Ok? && (u.value == Undefined || v.value == Undefined) ==> r == Ok(Undefined))
            && (u.Ok? && v.Ok? && u.value != Undefined && v.value != Undefined && !(u.value.Number? && v.value.Number?) ==>
                  r.Err?)
    ensures var u, r := Evaluate(a, vars), Evaluate(Neg(a), vars);
            && (r == Ok(Undefined) <==> u == Ok(Undefined))
            && (r.Err? <==> u.Err? || !(u.value.Number? || u.value == Undefined))
  {
  }

  // ----- comparisons

  /** Numbers compare by their order, exactly; they are equal if they differ by less than 2^-52. */
  lemma NumbersCompare(a: Expr, b: Expr, vars: Json.Variables, x: real, y: real)
    requires Evaluate(a, vars) == Ok(Number(x)) && Evaluate(b, vars) == Ok(Number(y))
    ensures Evaluate(Compare(Gt, a, b), vars) == Ok(Bool(x > y))
    ensures Evaluate(Compare(Lt, a, b), vars) == Ok(Bool(x < y))
    ensures Evaluate(Compare(Ge, a, b), vars) == Ok(Bool(x >= y))
    ensures Evaluate(Compare(Le, a, b), vars) == Ok(Bool(x <= y))
    ensures var near := x - y < 1.0 / 4503599627370496.0 && y - x < 1.0 / 4503599627370496.0;
            Evaluate(Compare(Eq, a, b), vars) == Ok(Bool(near)) && Evaluate(Compare(Ne, a, b), vars) == Ok(Bool(!near))
  {
  }

  /** Other values are equal if they are the same, and have no order; nothing is equal or unequal to an undefined
      value; and a failing operand fails. */
  lemma OthersCompare(op: CmpOp, a: Expr, b: Expr, vars: Json.Variables)
    ensures var u, v, r := Evaluate(a, vars), Evaluate(b, vars), Evaluate(Compare(op, a, b), vars);
            && (u.Err? || v.Err? ==> r.Err?)
            && (u.Ok? && v.Ok? && (u.value == Undefined || v.value == Undefined) ==> r == Ok(Bool(false)))
            && (u.Ok? && v.Ok? && u.value != Undefined && v.value != Undefined && !(u.value.Number? && v.value.Number?) ==>
                  match op
                  case Eq => r == Ok(Bool(u.value == v.value))
                  case Ne => r == Ok(Bool(u.value != v.value))
                  case _ => r.Err?)
  {
  }

  // ----- truth and connectives

  /** What counts as true: true itself, numbers but zero, texts but the empty one, and every array and object. */
  predicate CountsAsTrue(v: EvalValue) {
    v == Bool(true) || (v.Number? && v.n != 0.0) || (v.String? && |v.s| > 0) || v.Json?
  }

  /** Each connective looks at its left operand first, and at the right one only if that decides. A failure of an
      operand that is looked at is one of the whole. */
  lemma ConnectivesDecide(a: Expr, b: Expr, vars: Json.Variables)
    ensures var u, v := Evaluate(a, vars), Evaluate(b, vars);
            && Evaluate(Not(a), vars) == (if u.Err? then Err else Ok(Bool(!CountsAsTrue(u.value))))
            && Evaluate(And(a, b), vars) == (if u.Err? then Err else if !CountsAsTrue(u.value) then Ok(Bool(false))
                                             else if v.Err? then Err else Ok(Bool(CountsAsTrue(v.value))))
            && Evaluate(Or(a, b), vars) == (if u.Err? then Err else if CountsAsTrue(u.value) then Ok(Bool(true))
                                            else if v.Err? then Err else Ok(Bool(CountsAsTrue(v.value))))
  {
  }

  /** A condition holds if it evaluates, and to something that counts as true. */
  lemma HoldsIf(e: Expr, vars: Json.Variables)
    ensures Holds(e, vars) <==> Evaluate(e, vars).Ok? && CountsAsTrue(Evaluate(e, vars).value)
    ensures forall v :: Evaluate(Literal(v), vars) == Ok(v)
  {
  }

  // ----- paths

  /** The JSON value `v` as a value of conditions. */
  predicate IsValueOf(r: Result<EvalValue>, v: Json.Value) {
    match v
    case Null => r == Ok(Null)
    case Bool(b) => r == Ok(Bool(b))
    case Number(n) => r == Ok(Number(n))
    case String(s) => r == Ok(String(s))
    case _ => r == Ok(Json(v))
  }

  lemma {:induction false} FollowFurther(v: EvalValue, segments: seq<PathSegment>, segment: PathSegment)
    ensures Follow(v, segments + [segment]) == Select(Follow(v, segments), segment)
    decreases segments
  {
    if segments == [] {
      assert Follow(Select(v, segment), []) == Select(v, segment);
      assert ([] + [segment])[1..] == [];
    } else {
      assert (segments + [segment])[1..] == segments[1..] + [segment];
      FollowFurther(Select(v, segments[0]), segments[1..], segment);
    }
  }

  /** A name is the variable it names, or undefined. A path that goes on with a name is the field of the object it led
      to, and one that goes on with an index is the element of the array; it is undefined if there is none. */
  lemma PathsResolve(root: string, segments: seq<PathSegment>, segment: PathSegment, vars: Json.Variables)
    ensures var r := Evaluate(Path([Field(root)]), vars);
            if root in vars then IsValueOf(r, vars[root]) else r == Ok(Undefined)
    ensures var path := [Field(root)] + segments;
            var at, r := Evaluate(Path(path), vars), Evaluate(Path(path + [segment]), vars);
            match segment
            case Field(name) =>
              if at.Ok? && at.value.Json? && at.value.value.Object? && name in at.value.value.fields
              then IsValueOf(r, at.value.value.fields[name]) else r == Ok(Undefined)
            case Index(index) =>
              if at.Ok? && at.value.Json? && at.value.value.Array? && index < |at.value.value.items|
              then IsValueOf(r, at.value.value.items[index]) else r == Ok(Undefined)
  {
    var path := [Field(root)] + segments;
    assert path[1..] == segments && (path + [segment])[1..] == segments + [segment];
    if root in vars {
      FollowFurther(FromJson(vars[root]), segments, segment);
      assert [Field(root)][1..] == [];
    }
  }

  // ----- texts

  /** A text holds if it is a condition that evaluates, and to something that counts as true. */
  lemma TextHoldsIf(text: string, vars: Json.Variables)
    ensures ConditionText.ConditionHolds(text, vars) <==>
            exists e :: ConditionText.ParseText(text) == Ok(e) && Evaluate(e, vars).Ok? && CountsAsTrue(Evaluate(e, vars).value)
  {
    if ConditionText.ParseText(text).Ok? { HoldsIf(ConditionText.ParseText(text).value, vars); }
  }
}
