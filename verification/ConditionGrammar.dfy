/** The condition language's layered grammar, as parse trees with the tokens they
    spell and the syntax they mean. The parser is not mentioned here.

      or     ::= and | or '||' and          add   ::= mul | add ('+'|'-') mul
      and    ::= not | and '&&' not         mul   ::= unary | mul ('*'|'/'|'%') unary
      not    ::= '!' not | cmp              unary ::= '-' unary | primary
      cmp    ::= add | add cmpop add        primary ::= literal | '(' or ')' | path      */
module ConditionGrammar {
  import opened ConditionSyntax

  datatype Level = LOr | LAnd | LNot | LCmp | LAdd | LMul | LUnary | LPrimary {
    function Rank(): nat {
      match this
      case LOr => 0
      case LAnd => 1
      case LNot => 2
      case LCmp => 3
      case LAdd => 4
      case LMul => 5
      case LUnary => 6
      case LPrimary => 7
    }

    /** The layer below, whose phrases are this layer's operands. */
    function Next(): Level
      requires !LPrimary?
    {
      match this
      case LOr => LAnd
      case LAnd => LNot
      case LNot => LCmp
      case LCmp => LAdd
      case LAdd => LMul
      case LMul => LUnary
      case LUnary => LPrimary
    }

    /** The four layers that are left-associating chains. */
    predicate IsChain() { LOr? || LAnd? || LAdd? || LMul? }

    predicate Joins(op: Token) {
      match this
      case LOr => op.TOr?
      case LAnd => op.TAnd?
      case LAdd => op.TPlus? || op.TMinus?
      case LMul => op.TStar? || op.TSlash? || op.TPercent?
      case _ => false
    }
  }

  /** The node a chain operator builds; other tokens join nothing. */
  function Combine(op: Token, lhs: Expr, rhs: Expr): Expr {
    match op
    case TOr => Or(lhs, rhs)
    case TAnd => And(lhs, rhs)
    case TPlus => Arith(Add, lhs, rhs)
    case TMinus => Arith(Sub, lhs, rhs)
    case TStar => Arith(Mul, lhs, rhs)
    case TSlash => Arith(Div, lhs, rhs)
    case TPercent => Arith(Rem, lhs, rhs)
    case _ => lhs
  }

  predicate IsLiteral(t: Token) {
    t.TNumber? || t.TStr? || t.TTrue? || t.TFalse? || t.TNull?
  }

  function LiteralValue(t: Token): EvalValue
    requires IsLiteral(t)
  {
    match t
    case TNumber(n) => Number(n)
    case TStr(s) => String(s)
    case TTrue => Bool(true)
    case TFalse => Bool(false)
    case TNull => Null
  }

  /** One access in a variable path, as written. */
  datatype Access = Member(name: string) | Element(value: real)

  predicate ValidAccesses(accesses: seq<Access>) {
    forall i | 0 <= i < |accesses| :: accesses[i].Element? ==> IsIndexValue(accesses[i].value)
  }

  datatype Tree =
    | Chain(level: Level, left: Tree, op: Token, right: Tree)
    | Prefix(op: Token, operand: Tree)
    | Comparison(left: Tree, op: Token, right: Tree)
    | Atom(token: Token)
    | Paren(body: Tree)
    | Variable(root: string, accesses: seq<Access>)

  /** `t` is a phrase of layer `level`. */
  predicate Derives(level: Level, t: Tree)
    decreases t, 7 - level.Rank()
  {
    match level
    case LOr | LAnd | LAdd | LMul =>
      || Derives(level.Next(), t)
      || (&& t.Chain? && t.level == level && level.Joins(t.op)
          && Derives(level, t.left) && Derives(level.Next(), t.right))
    case LNot => Derives(LCmp, t) || (t.Prefix? && t.op.TNot? && Derives(LNot, t.operand))
    case LCmp =>
      || Derives(LAdd, t)
      || (t.Comparison? && IsCmp(t.op) && Derives(LAdd, t.left) && Derives(LAdd, t.right))
    case LUnary => Derives(LPrimary, t) || (t.Prefix? && t.op.TMinus? && Derives(LUnary, t.operand))
    case LPrimary =>
      match t
      case Atom(token) => IsLiteral(token)
      case Paren(body) => Derives(LOr, body)
      case Variable(_, accesses) => ValidAccesses(accesses)
      case _ => false
  }

  /** The tokens of a path's accesses, followed by `rest`. */
  function SpellAccesses(accesses: seq<Access>, rest: seq<Token>): seq<Token> {
    if accesses == [] then rest
    else
      match accesses[0]
      case Member(name) => [TDot] + ([TIdent(name)] + SpellAccesses(accesses[1..], rest))
      case Element(value) =>
        [TLBracket] + ([TNumber(value)] + ([TRBracket] + SpellAccesses(accesses[1..], rest)))
  }

  /** The tokens a tree spells, followed by `rest`. */
  function Spell(t: Tree, rest: seq<Token>): seq<Token>
    decreases t
  {
    match t
    case Chain(_, left, op, right) => Spell(left, [op] + Spell(right, rest))
    case Prefix(op, operand) => [op] + Spell(operand, rest)
    case Comparison(left, op, right) => Spell(left, [op] + Spell(right, rest))
    case Atom(token) => [token] + rest
    case Paren(body) => [TLParen] + Spell(body, [TRParen] + rest)
    case Variable(root, accesses) => [TIdent(root)] + SpellAccesses(accesses, rest)
  }

  function Segments(accesses: seq<Access>): seq<PathSegment> {
    if accesses == [] then []
    else
      [match accesses[0]
       case Member(name) => Field(name)
       case Element(value) => if IsIndexValue(value) then Index(CastIndex(value)) else Index(0)]
      + Segments(accesses[1..])
  }

  /** The syntax a tree means; trees outside the grammar mean anything. */
  function Meaning(t: Tree): Expr {
    match t
    case Chain(_, left, op, right) => Combine(op, Meaning(left), Meaning(right))
    case Prefix(op, operand) => if op.TNot? then Not(Meaning(operand)) else Neg(Meaning(operand))
    case Comparison(left, op, right) =>
      if IsCmp(op) then Compare(CmpOpOf(op), Meaning(left), Meaning(right)) else Meaning(left)
    case Atom(token) => if IsLiteral(token) then Literal(LiteralValue(token)) else Literal(Null)
    case Paren(body) => Meaning(body)
    case Variable(root, accesses) => Path([Field(root)] + Segments(accesses))
  }
}
