/** The parenthesising printer, and the proof that the parser undoes it. */
module ConditionPrinter {
  import opened Common
  import opened ConditionSyntax
  import opened ConditionGrammar
  import opened ConditionParser
  import opened ConditionDecides

  /** Syntax that can be written down: literals have a spelling, paths start at a
      variable and their indexes fit the machine word. */
  predicate Printable(e: Expr) {
    match e
    case Literal(value) => !value.Undefined? && !value.Json?
    case Path(segments) =>
      && segments != [] && segments[0].Field?
      && forall i | 0 <= i < |segments| :: segments[i].Index? ==> segments[i].index <= USIZE_MAX
    case Not(inner) => Printable(inner)
    case Neg(inner) => Printable(inner)
    case And(lhs, rhs) => Printable(lhs) && Printable(rhs)
    case Or(lhs, rhs) => Printable(lhs) && Printable(rhs)
    case Compare(_, lhs, rhs) => Printable(lhs) && Printable(rhs)
    case Arith(_, lhs, rhs) => Printable(lhs) && Printable(rhs)
  }

  function CmpToken(op: CmpOp): (t: Token)
    ensures IsCmp(t) && CmpOpOf(t) == op
  {
    match op
    case Eq => TEq
    case Ne => TNe
    case Gt => TGt
    case Lt => TLt
    case Ge => TGe
    case Le => TLe
  }

  function ArithToken(op: ArithOp): (t: Token)
    ensures ArithLevel(op).Joins(t)
    ensures forall lhs, rhs :: Combine(t, lhs, rhs) == Arith(op, lhs, rhs)
  {
    match op
    case Add => TPlus
    case Sub => TMinus
    case Mul => TStar
    case Div => TSlash
    case Rem => TPercent
  }

  function ArithLevel(op: ArithOp): Level { if op.Add? || op.Sub? then LAdd else LMul }

  function LiteralToken(value: EvalValue): Token {
    match value
    case Number(n) => TNumber(n)
    case String(s) => TStr(s)
    case Bool(b) => if b then TTrue else TFalse
    case _ => TNull
  }

  function PrintAccesses(segments: seq<PathSegment>): seq<Token> {
    if segments == [] then []
    else
      (match segments[0]
       case Field(name) => [TDot, TIdent(name)]
       case Index(index) => [TLBracket, TNumber(index as real), TRBracket])
      + PrintAccesses(segments[1..])
  }

  /** Syntax as tokens, with every operand in parentheses. */
  function Print(e: Expr): seq<Token> {
    match e
    case Literal(value) => [LiteralToken(value)]
    case Path(segments) =>
      if segments != [] && segments[0].Field? then [TIdent(segments[0].name)] + PrintAccesses(segments[1..]) else []
    case Not(inner) => [TNot, TLParen] + Print(inner) + [TRParen]
    case Neg(inner) => [TMinus, TLParen] + Print(inner) + [TRParen]
    case And(lhs, rhs) => PrintBinary(Print(lhs), TAnd, Print(rhs))
    case Or(lhs, rhs) => PrintBinary(Print(lhs), TOr, Print(rhs))
    case Compare(op, lhs, rhs) => PrintBinary(Print(lhs), CmpToken(op), Print(rhs))
    case Arith(op, lhs, rhs) => PrintBinary(Print(lhs), ArithToken(op), Print(rhs))
  }

  function PrintBinary(lhs: seq<Token>, op: Token, rhs: seq<Token>): seq<Token> {
    [TLParen] + lhs + [TRParen, op, TLParen] + rhs + [TRParen]
  }

  function AccessOf(segment: PathSegment): Access {
    match segment
    case Field(name) => Member(name)
    case Index(index) => Element(index as real)
  }

  /** The parse tree of the printed form. */
  function Canonical(e: Expr): Tree {
    match e
    case Literal(value) => Atom(LiteralToken(value))
    case Path(segments) =>
      if segments != [] && segments[0].Field? then
        Variable(segments[0].name, seq(|segments| - 1, i requires 0 <= i < |segments| - 1 => AccessOf(segments[i + 1])))
      else Atom(TNull)
    case Not(inner) => Prefix(TNot, Paren(Canonical(inner)))
    case Neg(inner) => Prefix(TMinus, Paren(Canonical(inner)))
    case And(lhs, rhs) => Chain(LAnd, Paren(Canonical(lhs)), TAnd, Paren(Canonical(rhs)))
    case Or(lhs, rhs) => Chain(LOr, Paren(Canonical(lhs)), TOr, Paren(Canonical(rhs)))
    case Compare(op, lhs, rhs) => Comparison(Paren(Canonical(lhs)), CmpToken(op), Paren(Canonical(rhs)))
    case Arith(op, lhs, rhs) =>
      Chain(ArithLevel(op), Paren(Canonical(lhs)), ArithToken(op), Paren(Canonical(rhs)))
  }

  /** Lower layers' phrases are phrases of every layer above. */
  lemma {:induction false} DerivesUpward(low: Level, high: Level, t: Tree)
    requires Derives(low, t) && high.Rank() <= low.Rank()
    ensures Derives(high, t)
    decreases low.Rank() - high.Rank()
  {
    if high.Rank() < low.Rank() {
      DerivesUpward(low, high.Next(), t);
    }
  }

  lemma PrefixIsPhrase(level: Level, op: Token, t: Tree)
    requires Derives(LOr, t) && ((level.LNot? && op.TNot?) || (level.LUnary? && op.TMinus?))
    ensures Derives(LOr, Prefix(op, Paren(t)))
  {
    DerivesUpward(LPrimary, level, Paren(t));
    DerivesUpward(level, LOr, Prefix(op, Paren(t)));
  }

  lemma ChainIsPhrase(level: Level, l: Tree, op: Token, r: Tree)
    requires Derives(LOr, l) && Derives(LOr, r) && level.Joins(op)
    ensures Derives(LOr, Chain(level, Paren(l), op, Paren(r)))
  {
    DerivesUpward(LPrimary, level, Paren(l));
    DerivesUpward(LPrimary, level.Next(), Paren(r));
    DerivesUpward(level, LOr, Chain(level, Paren(l), op, Paren(r)));
  }

  lemma ComparisonIsPhrase(l: Tree, op: Token, r: Tree)
    requires Derives(LOr, l) && Derives(LOr, r) && IsCmp(op)
    ensures Derives(LOr, Comparison(Paren(l), op, Paren(r)))
  {
    DerivesUpward(LPrimary, LAdd, Paren(l));
    DerivesUpward(LPrimary, LAdd, Paren(r));
    DerivesUpward(LCmp, LOr, Comparison(Paren(l), op, Paren(r)));
  }

  lemma {:induction false} CanonicalIsPhrase(e: Expr)
    requires Printable(e)
    ensures Derives(LOr, Canonical(e))
  {
    match e
    case Literal(_) => DerivesUpward(LPrimary, LOr, Canonical(e));
    case Path(segments) =>
      SegmentsOfAccesses(segments[1..], Canonical(e).accesses);
      DerivesUpward(LPrimary, LOr, Canonical(e));
    case Not(inner) =>
      CanonicalIsPhrase(inner);
      PrefixIsPhrase(LNot, TNot, Canonical(inner));
    case Neg(inner) =>
      CanonicalIsPhrase(inner);
      PrefixIsPhrase(LUnary, TMinus, Canonical(inner));
    case And(lhs, rhs) =>
      CanonicalIsPhrase(lhs);
      CanonicalIsPhrase(rhs);
      ChainIsPhrase(LAnd, Canonical(lhs), TAnd, Canonical(rhs));
    case Or(lhs, rhs) =>
      CanonicalIsPhrase(lhs);
      CanonicalIsPhrase(rhs);
      ChainIsPhrase(LOr, Canonical(lhs), TOr, Canonical(rhs));
    case Arith(op, lhs, rhs) =>
      CanonicalIsPhrase(lhs);
      CanonicalIsPhrase(rhs);
      ChainIsPhrase(ArithLevel(op), Canonical(lhs), ArithToken(op), Canonical(rhs));
    case Compare(op, lhs, rhs) =>
      CanonicalIsPhrase(lhs);
      CanonicalIsPhrase(rhs);
      ComparisonIsPhrase(Canonical(lhs), CmpToken(op), Canonical(rhs));
  }

  lemma {:induction false} CanonicalMeans(e: Expr)
    requires Printable(e)
    ensures Meaning(Canonical(e)) == e
  {
    match e
    case Literal(_) =>
    case Path(segments) => SegmentsOfAccesses(segments[1..], Canonical(e).accesses);
    case Not(inner) => CanonicalMeans(inner);
    case Neg(inner) => CanonicalMeans(inner);
    case And(lhs, rhs) => CanonicalMeans(lhs); CanonicalMeans(rhs);
    case Or(lhs, rhs) => CanonicalMeans(lhs); CanonicalMeans(rhs);
    case Compare(_, lhs, rhs) => CanonicalMeans(lhs); CanonicalMeans(rhs);
    case Arith(_, lhs, rhs) => CanonicalMeans(lhs); CanonicalMeans(rhs);
  }

  /** The printed form spells the canonical tree. */
  lemma {:induction false} CanonicalSpells(e: Expr, rest: seq<Token>)
    requires Printable(e)
    ensures Spell(Canonical(e), rest) == Print(e) + rest
    decreases e
  {
    match e
    case Literal(_) =>
    case Path(segments) => SegmentsOfAccesses(segments[1..], Canonical(e).accesses);
    case Not(inner) => PrefixSpells(e, TNot, inner, rest);
    case Neg(inner) => PrefixSpells(e, TMinus, inner, rest);
    case And(lhs, rhs) => BinarySpells(e, lhs, TAnd, rhs, rest);
    case Or(lhs, rhs) => BinarySpells(e, lhs, TOr, rhs, rest);
    case Compare(op, lhs, rhs) => BinarySpells(e, lhs, CmpToken(op), rhs, rest);
    case Arith(op, lhs, rhs) => BinarySpells(e, lhs, ArithToken(op), rhs, rest);
  }

  lemma {:induction false} PrefixSpells(e: Expr, op: Token, inner: Expr, rest: seq<Token>)
    requires inner < e && Printable(inner)
    ensures Spell(Prefix(op, Paren(Canonical(inner))), rest) == [op, TLParen] + Print(inner) + [TRParen] + rest
    decreases e, 0
  {
    CanonicalSpells(inner, [TRParen] + rest);
  }

  lemma {:induction false} BinarySpells(e: Expr, lhs: Expr, op: Token, rhs: Expr, rest: seq<Token>)
    requires lhs < e && rhs < e && Printable(lhs) && Printable(rhs)
    ensures Spell(Paren(Canonical(lhs)), [op] + Spell(Paren(Canonical(rhs)), rest))
         == PrintBinary(Print(lhs), op, Print(rhs)) + rest
    decreases e, 0
  {
    CanonicalSpells(rhs, [TRParen] + rest);
    CanonicalSpells(lhs, [TRParen] + ([op] + Spell(Paren(Canonical(rhs)), rest)));
  }

  lemma {:induction false} SegmentsOfAccesses(segments: seq<PathSegment>, accesses: seq<Access>)
    requires |segments| == |accesses|
    requires forall i | 0 <= i < |segments| :: segments[i].Index? ==> segments[i].index <= USIZE_MAX
    requires forall i | 0 <= i < |segments| :: accesses[i] == AccessOf(segments[i])
    ensures ValidAccesses(accesses) && Segments(accesses) == segments
    ensures forall rest :: SpellAccesses(accesses, rest) == PrintAccesses(segments) + rest
  {
    if segments != [] {
      SegmentsOfAccesses(segments[1..], accesses[1..]);
    }
  }

  /** Printing and parsing give the same syntax back. */
  lemma ParseUndoesPrint(e: Expr)
    requires Printable(e)
    ensures ParseAll(Print(e) + [TEof]) == Ok(e)
  {
    CanonicalIsPhrase(e);
    CanonicalMeans(e);
    CanonicalSpells(e, [TEof]);
    ParseIsComplete(LOr, Canonical(e), [TEof]);
  }
}
