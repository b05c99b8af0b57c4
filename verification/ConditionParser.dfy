/** The recursive-descent parser: a class that moves an index over the tokens, and the
    function it computes. */
module ConditionParser {
  import opened Common
  import opened ConditionSyntax
  import opened ConditionGrammar

  // ----- the function the parser computes, on the tokens still ahead

  /** A syntax tree and the tokens left after it. */
  datatype Parsed = Parsed(expr: Expr, rest: seq<Token>)

  function Peek(ts: seq<Token>): Token { if ts == [] then TEof else ts[0] }

  function Parse(level: Level, ts: seq<Token>): (r: Result<Parsed>)
    ensures r.Ok? ==> |r.value.rest| < |ts|
    decreases |ts|, 8 - level.Rank()
  {
    match level
    case LOr | LAnd | LAdd | LMul =>
      var first :- Parse(level.Next(), ts);
      Extend(level, first.expr, first.rest)
    case LNot =>
      if Peek(ts).TNot? then
        var inner :- Parse(LNot, ts[1..]);
        Ok(Parsed(Not(inner.expr), inner.rest))
      else Parse(LCmp, ts)
    case LCmp =>
      var lhs :- Parse(LAdd, ts);
      if IsCmp(Peek(lhs.rest)) then
        var rhs :- Parse(LAdd, lhs.rest[1..]);
        Ok(Parsed(Compare(CmpOpOf(lhs.rest[0]), lhs.expr, rhs.expr), rhs.rest))
      else Ok(lhs)
    case LUnary =>
      if Peek(ts).TMinus? then
        var inner :- Parse(LUnary, ts[1..]);
        Ok(Parsed(Neg(inner.expr), inner.rest))
      else Parse(LPrimary, ts)
    case LPrimary =>
      match Peek(ts)
      case TLParen =>
        var inner :- Parse(LOr, ts[1..]);
        if Peek(inner.rest).TRParen? then Ok(Parsed(inner.expr, inner.rest[1..])) else Err
      case TIdent(name) => Accesses([Field(name)], ts[1..])
      case t => if IsLiteral(t) then Ok(Parsed(Literal(LiteralValue(t)), ts[1..])) else Err
  }

  /** The operators and operands that follow `lhs` in a chain layer. */
  function Extend(level: Level, lhs: Expr, ts: seq<Token>): (r: Result<Parsed>)
    requires level.IsChain()
    ensures r.Ok? ==> |r.value.rest| <= |ts|
    decreases |ts|, 9
  {
    if level.Joins(Peek(ts)) then
      var rhs :- Parse(level.Next(), ts[1..]);
      Extend(level, Combine(ts[0], lhs, rhs.expr), rhs.rest)
    else Ok(Parsed(lhs, ts))
  }

  /** One `.name` or `[index]` and the tokens after it, if one comes next. */
  function NextAccess(ts: seq<Token>): (r: Result<Option<(PathSegment, seq<Token>)>>)
    ensures r.Ok? && r.value.Some? ==> |r.value.value.1| < |ts|
  {
    match Peek(ts)
    case TDot =>
      (match Peek(ts[1..])
       case TIdent(name) => Ok(Some((Field(name), ts[1..][1..])))
       case _ => Err)
    case TLBracket =>
      (match Peek(ts[1..])
       case TNumber(value) =>
         if IsIndexValue(value) && Peek(ts[1..][1..]).TRBracket? then
           Ok(Some((Index(CastIndex(value)), ts[1..][1..][1..])))
         else Err
       case _ => Err)
    case _ => Ok(None)
  }

  function Accesses(segments: seq<PathSegment>, ts: seq<Token>): (r: Result<Parsed>)
    ensures r.Ok? ==> |r.value.rest| <= |ts|
    decreases |ts|
  {
    match NextAccess(ts)
    case Err => Err
    case Ok(None) => Ok(Parsed(Path(segments), ts))
    case Ok(Some((segment, rest))) => Accesses(segments + [segment], rest)
  }

  /** A whole condition: one phrase up to the end marker. */
  function ParseAll(ts: seq<Token>): Result<Expr> {
    var p :- Parse(LOr, ts);
    if Peek(p.rest).TEof? then Ok(p.expr) else Err
  }

  /** What the lexer produces: one end marker, in last place. */
  predicate Terminated(ts: seq<Token>) {
    && ts != []
    && forall i | 0 <= i < |ts| :: ts[i].TEof? <==> i == |ts| - 1
  }

  // ----- the parser object

  function SumOp(t: Token): (r: Option<ArithOp>)
    ensures r.Some? <==> LAdd.Joins(t)
    ensures r.Some? ==> forall lhs, rhs :: Combine(t, lhs, rhs) == Arith(r.value, lhs, rhs)
  {
    match t
    case TPlus => Some(Add)
    case TMinus => Some(Sub)
    case _ => None
  }

  function ProductOp(t: Token): (r: Option<ArithOp>)
    ensures r.Some? <==> LMul.Joins(t)
    ensures r.Some? ==> forall lhs, rhs :: Combine(t, lhs, rhs) == Arith(r.value, lhs, rhs)
  {
    match t
    case TStar => Some(Mul)
    case TSlash => Some(Div)
    case TPercent => Some(Rem)
    case _ => None
  }

  class Parser {
    const tokens: seq<Token>
    var index: nat

    ghost predicate Valid()
      reads this
    {
      Terminated(tokens) && index < |tokens|
    }

    /** The tokens from the current position on. */
    ghost function Ahead(): seq<Token>
      requires Valid()
      reads this
    {
      tokens[index..]
    }

    constructor (tokens: seq<Token>)
      requires Terminated(tokens)
      ensures this.tokens == tokens && index == 0 && Valid()
    {
      this.tokens := tokens;
      index := 0;
    }

    method Advance()
      requires Valid()
      modifies this
      ensures Valid()
      ensures old(Ahead())[0].TEof? ==> index == old(index)
      ensures !old(Ahead())[0].TEof? ==> Ahead() == old(Ahead())[1..]
    {
      if index + 1 < |tokens| {
        index := index + 1;
      }
    }

    /** `r` and the position now are what `spec` says; the parser began at `from`. */
    ghost predicate Computed(from: nat, spec: Result<Parsed>, r: Result<Expr>)
      reads this
    {
      && Valid()
      && index >= from
      && r.Ok? == spec.Ok?
      && (r.Ok? ==> r.value == spec.value.expr && Ahead() == spec.value.rest)
    }

    method ParseCondition() returns (r: Result<Expr>)
      requires Valid()
      modifies this
      ensures Valid()
      ensures r == ParseAll(old(Ahead()))
    {
      r := ParseOr();
      if r.Ok? && !tokens[index].TEof? {
        r := Err;
      }
    }

    method ParseOr() returns (r: Result<Expr>)
      requires Valid()
      modifies this
      ensures Computed(old(index), Parse(LOr, old(Ahead())), r)
      decreases |tokens| - index, 8
    {
      ghost var start := index;
      var lhs :- ParseAnd();
      ghost var spec := Parse(LOr, tokens[start..]);
      while tokens[index].TOr?
        invariant Valid() && index > start
        invariant spec == Extend(LOr, lhs, Ahead())
        decreases |tokens| - index
      {
        Advance();
        var rhs :- ParseAnd();
        lhs := Or(lhs, rhs);
      }
      r := Ok(lhs);
    }

    method ParseAnd() returns (r: Result<Expr>)
      requires Valid()
      modifies this
      ensures Computed(old(index), Parse(LAnd, old(Ahead())), r)
      decreases |tokens| - index, 7
    {
      ghost var start := index;
      var lhs :- ParseNot();
      ghost var spec := Parse(LAnd, tokens[start..]);
      while tokens[index].TAnd?
        invariant Valid() && index > start
        invariant spec == Extend(LAnd, lhs, Ahead())
        decreases |tokens| - index
      {
        Advance();
        var rhs :- ParseNot();
        lhs := And(lhs, rhs);
      }
      r := Ok(lhs);
    }

    method ParseNot() returns (r: Result<Expr>)
      requires Valid()
      modifies this
      ensures Computed(old(index), Parse(LNot, old(Ahead())), r)
      decreases |tokens| - index, 6
    {
      if tokens[index].TNot? {
        Advance();
        var inner :- ParseNot();
        return Ok(Not(inner));
      }
      r := ParseComparison();
    }

    method ParseComparison() returns (r: Result<Expr>)
      requires Valid()
      modifies this
      ensures Computed(old(index), Parse(LCmp, old(Ahead())), r)
      decreases |tokens| - index, 5
    {
      var lhs :- ParseAdditive();
      if IsCmp(tokens[index]) {
        var op := CmpOpOf(tokens[index]);
        Advance();
        var rhs :- ParseAdditive();
        return Ok(Compare(op, lhs, rhs));
      }
      r := Ok(lhs);
    }

    method ParseAdditive() returns (r: Result<Expr>)
      requires Valid()
      modifies this
      ensures Computed(old(index), Parse(LAdd, old(Ahead())), r)
      decreases |tokens| - index, 4
    {
      ghost var start := index;
      var lhs :- ParseMultiplicative();
      ghost var spec := Parse(LAdd, tokens[start..]);
      while true
        invariant Valid() && index > start
        invariant spec == Extend(LAdd, lhs, Ahead())
        decreases |tokens| - index
      {
        var op := SumOp(tokens[index]);
        if op.None? {
          break;
        }
        Advance();
        var rhs :- ParseMultiplicative();
        lhs := Arith(op.value, lhs, rhs);
      }
      r := Ok(lhs);
    }

    method ParseMultiplicative() returns (r: Result<Expr>)
      requires Valid()
      modifies this
      ensures Computed(old(index), Parse(LMul, old(Ahead())), r)
      decreases |tokens| - index, 3
    {
      ghost var start := index;
      var lhs :- ParseUnary();
      ghost var spec := Parse(LMul, tokens[start..]);
      while true
        invariant Valid() && index > start
        invariant spec == Extend(LMul, lhs, Ahead())
        decreases |tokens| - index
      {
        var op := ProductOp(tokens[index]);
        if op.None? {
          break;
        }
        Advance();
        var rhs :- ParseUnary();
        lhs := Arith(op.value, lhs, rhs);
      }
      r := Ok(lhs);
    }

    method ParseUnary() returns (r: Result<Expr>)
      requires Valid()
      modifies this
      ensures Computed(old(index), Parse(LUnary, old(Ahead())), r)
      decreases |tokens| - index, 2
    {
      if tokens[index].TMinus? {
        Advance();
        var inner :- ParseUnary();
        return Ok(Neg(inner));
      }
      r := ParsePrimary();
    }

    method ParsePrimary() returns (r: Result<Expr>)
      requires Valid()
      modifies this
      ensures Computed(old(index), Parse(LPrimary, old(Ahead())), r)
      decreases |tokens| - index, 1
    {
      var token := tokens[index];
      match token {
        case TNumber(_) | TStr(_) | TTrue | TFalse | TNull =>
          Advance();
          r := Ok(Literal(LiteralValue(token)));
        case TLParen =>
          Advance();
          var inner :- ParseOr();
          if !tokens[index].TRParen? {
            return Err;
          }
          Advance();
          r := Ok(inner);
        case TIdent(name) =>
          Advance();
          r := ParsePath(name);
        case _ =>
          r := Err;
      }
    }

    method ParsePath(root: string) returns (r: Result<Expr>)
      requires Valid()
      modifies this
      ensures Computed(old(index), Accesses([Field(root)], old(Ahead())), r)
    {
      var segments := [Field(root)];
      ghost var spec := Accesses(segments, Ahead());
      while true
        invariant Valid() && index >= old(index)
        invariant spec == Accesses(segments, Ahead())
        decreases |tokens| - index
      {
        var next :- ParseAccess();
        if next.None? {
          break;
        }
        segments := segments + [next.value];
      }
      r := Ok(Path(segments));
    }

    method ParseAccess() returns (r: Result<Option<PathSegment>>)
      requires Valid()
      modifies this
      ensures Valid() && index >= old(index)
      ensures NextAccess(old(Ahead())) ==
              if r.Err? then Err else if r.value.None? then Ok(None) else Ok(Some((r.value.value, Ahead())))
      ensures r.Ok? && r.value.None? ==> index == old(index)
    {
      match tokens[index] {
        case TDot =>
          Advance();
          match tokens[index] {
            case TIdent(name) =>
              Advance();
              r := Ok(Some(Field(name)));
            case _ => r := Err;
          }
        case TLBracket =>
          Advance();
          match tokens[index] {
            case TNumber(value) =>
              if !IsIndexValue(value) {
                return Err;
              }
              Advance();
              if !tokens[index].TRBracket? {
                return Err;
              }
              Advance();
              r := Ok(Some(Index(CastIndex(value))));
            case _ => r := Err;
          }
        case _ => r := Ok(None);
      }
    }
  }
}
