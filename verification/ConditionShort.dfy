/** Conditions written with no more parentheses than precedence and associativity ask for. */
module ConditionShort {
  import opened Common
  import opened ConditionSyntax
  import opened ConditionGrammar
  import opened ConditionParser
  import opened ConditionDecides
  import opened ConditionPrinter
  import opened ConditionLexer
  import opened ConditionText
  import opened ConditionSpacing

  /** How strongly the outermost operator binds. */
  function Strength(e: Expr): (n: nat)
    ensures 1 <= n <= 8
  {
    match e
    case Or(_, _) => 1
    case And(_, _) => 2
    case Not(_) => 3
    case Compare(_, _, _) => 4
    case Arith(op, _, _) => if op == Add || op == Sub then 5 else 6
    case Neg(_) => 7
    case _ => 8
  }

  // ----- texts

  /** The texts of a condition in a place that asks for operators of at least the given strength. Chains associate to
      the left, and comparisons do not associate. The connectives are words or signs. */
  function ShortTexts(e: Expr, min: nat, words: bool): seq<string>
    decreases e, if Strength(e) < min then 1 else 0
  {
    if Strength(e) < min then ["("] + ShortTexts(e, 1, words) + [")"]
    else
      match e
      case Or(lhs, rhs) => ShortTexts(lhs, 1, words) + [if words then "or" else "||"] + ShortTexts(rhs, 2, words)
      case And(lhs, rhs) => ShortTexts(lhs, 2, words) + [if words then "and" else "&&"] + ShortTexts(rhs, 3, words)
      case Not(inner) => [if words then "not" else "!"] + ShortTexts(inner, 3, words)
      case Compare(op, lhs, rhs) =>
        ShortTexts(lhs, 5, words)
        + [match op
           case Eq => "=="
           case Ne => "!="
           case Gt => ">"
           case Lt => "<"
           case Ge => ">="
           case Le => "<="]
        + ShortTexts(rhs, 5, words)
      case Arith(op, lhs, rhs) =>
        (match op
         case Add => ShortTexts(lhs, 5, words) + ["+"] + ShortTexts(rhs, 6, words)
         case Sub => ShortTexts(lhs, 5, words) + ["-"] + ShortTexts(rhs, 6, words)
         case Mul => ShortTexts(lhs, 6, words) + ["*"] + ShortTexts(rhs, 7, words)
         case Div => ShortTexts(lhs, 6, words) + ["/"] + ShortTexts(rhs, 7, words)
         case Rem => ShortTexts(lhs, 6, words) + ["%"] + ShortTexts(rhs, 7, words))
      case Neg(inner) => ["-"] + ShortTexts(inner, 7, words)
      case Literal(value) => [LiteralText(value)]
      case Path(segments) => PathTexts(segments)
  }

  function LiteralText(value: EvalValue): string {
    match value
    case Bool(b) => if b then "true" else "false"
    case Number(n) => if n >= 0.0 then Decimal(n.Floor) else ""
    case String(s) => "'" + Escape('\'', s) + "'"
    case _ => "null"
  }

  function PathTexts(segments: seq<PathSegment>): seq<string> {
    if segments == [] then []
    else
      var last := segments[|segments| - 1];
      PathTexts(segments[..|segments| - 1])
      + (if last.Index? then ["[", Decimal(last.index), "]"]
         else if |segments| == 1 then [last.name] else [".", last.name])
  }

  // ----- tokens and trees

  function ShortTokens(e: Expr, min: nat): seq<Token>
    decreases e, if Strength(e) < min then 1 else 0
  {
    if Strength(e) < min then [TLParen] + ShortTokens(e, 1) + [TRParen]
    else
      match e
      case Or(lhs, rhs) => ShortTokens(lhs, 1) + [TOr] + ShortTokens(rhs, 2)
      case And(lhs, rhs) => ShortTokens(lhs, 2) + [TAnd] + ShortTokens(rhs, 3)
      case Not(inner) => [TNot] + ShortTokens(inner, 3)
      case Compare(op, lhs, rhs) => ShortTokens(lhs, 5) + [CmpToken(op)] + ShortTokens(rhs, 5)
      case Arith(op, lhs, rhs) => ShortTokens(lhs, Strength(e)) + [ArithToken(op)] + ShortTokens(rhs, Strength(e) + 1)
      case Neg(inner) => [TMinus] + ShortTokens(inner, 7)
      case _ => Print(e)
  }

  function ShortTree(e: Expr, min: nat): Tree
    decreases e, if Strength(e) < min then 1 else 0
  {
    if Strength(e) < min then Paren(ShortTree(e, 1))
    else
      match e
      case Or(lhs, rhs) => Chain(LOr, ShortTree(lhs, 1), TOr, ShortTree(rhs, 2))
      case And(lhs, rhs) => Chain(LAnd, ShortTree(lhs, 2), TAnd, ShortTree(rhs, 3))
      case Not(inner) => Prefix(TNot, ShortTree(inner, 3))
      case Compare(op, lhs, rhs) => Comparison(ShortTree(lhs, 5), CmpToken(op), ShortTree(rhs, 5))
      case Arith(op, lhs, rhs) =>
        Chain(ArithLevel(op), ShortTree(lhs, Strength(e)), ArithToken(op), ShortTree(rhs, Strength(e) + 1))
      case Neg(inner) => Prefix(TMinus, ShortTree(inner, 7))
      case _ => Canonical(e)
  }

  /** The layer of operators of at least the given strength. */
  function LevelOf(n: nat): Level
    requires 1 <= n <= 8
  {
    [LOr, LAnd, LNot, LCmp, LAdd, LMul, LUnary, LPrimary][n - 1]
  }

  lemma Upward(low: nat, high: nat, t: Tree)
    requires 1 <= high <= low <= 8 && Derives(LevelOf(low), t)
    ensures Derives(LevelOf(high), t)
  {
    DerivesUpward(LevelOf(low), LevelOf(high), t);
  }

  lemma AtomIsPrimary(e: Expr)
    requires Printable(e) && Strength(e) == 8
    ensures Derives(LPrimary, Canonical(e))
  {
    if e.Path? { SegmentsOfAccesses(e.segments[1..], Canonical(e).accesses); }
  }

  lemma {:induction false} ShortIsPhrase(e: Expr, min: nat)
    requires Printable(e) && 1 <= min <= 8
    ensures Derives(LevelOf(min), ShortTree(e, min))
    decreases e, if Strength(e) < min then 1 else 0
  {
    if Strength(e) < min {
      ShortIsPhrase(e, 1);
      Upward(8, min, ShortTree(e, min));
    } else {
      ShortIsOwnPhrase(e, min);
      Upward(Strength(e), min, ShortTree(e, min));
    }
  }

  lemma {:induction false} ShortIsOwnPhrase(e: Expr, min: nat)
    requires Printable(e) && 1 <= min <= Strength(e)
    ensures Derives(LevelOf(Strength(e)), ShortTree(e, min))
    decreases e, 0, 0
  {
    match e
    case Or(lhs, rhs) => ShortIsPhrase(lhs, 1); ShortIsPhrase(rhs, 2);
    case And(lhs, rhs) => ShortIsPhrase(lhs, 2); ShortIsPhrase(rhs, 3);
    case Not(inner) => ShortIsPhrase(inner, 3);
    case Compare(_, lhs, rhs) => ShortIsPhrase(lhs, 5); ShortIsPhrase(rhs, 5);
    case Arith(_, lhs, rhs) => ShortIsPhrase(lhs, Strength(e)); ShortIsPhrase(rhs, Strength(e) + 1);
    case Neg(inner) => ShortIsPhrase(inner, 7);
    case _ => AtomIsPrimary(e);
  }

  lemma {:induction false} ShortMeans(e: Expr, min: nat)
    requires Printable(e)
    ensures Meaning(ShortTree(e, min)) == e
    decreases e, if Strength(e) < min then 1 else 0
  {
    if Strength(e) < min {
      ShortMeans(e, 1);
    } else {
      match e
      case Or(lhs, rhs) => ShortMeans(lhs, 1); ShortMeans(rhs, 2);
      case And(lhs, rhs) => ShortMeans(lhs, 2); ShortMeans(rhs, 3);
      case Not(inner) => ShortMeans(inner, 3);
      case Compare(_, lhs, rhs) => ShortMeans(lhs, 5); ShortMeans(rhs, 5);
      case Arith(_, lhs, rhs) => ShortMeans(lhs, Strength(e)); ShortMeans(rhs, Strength(e) + 1);
      case Neg(inner) => ShortMeans(inner, 7);
      case _ => CanonicalMeans(e);
    }
  }

  lemma PairSpells(l: seq<Token>, op: Token, r: seq<Token>, rest: seq<Token>)
    ensures l + ([op] + (r + rest)) == l + [op] + r + rest
  {
  }

  lemma {:induction false} ShortSpells(e: Expr, min: nat, rest: seq<Token>)
    requires Printable(e)
    ensures Spell(ShortTree(e, min), rest) == ShortTokens(e, min) + rest
    decreases e, if Strength(e) < min then 1 else 0
  {
    if Strength(e) < min {
      ShortSpells(e, 1, [TRParen] + rest);
    } else {
      match e
      case Or(lhs, rhs) => OperandsSpell(e, lhs, 1, TOr, rhs, 2, rest);
      case And(lhs, rhs) => OperandsSpell(e, lhs, 2, TAnd, rhs, 3, rest);
      case Not(inner) => ShortSpells(inner, 3, rest);
      case Compare(op, lhs, rhs) => OperandsSpell(e, lhs, 5, CmpToken(op), rhs, 5, rest);
      case Arith(op, lhs, rhs) => OperandsSpell(e, lhs, Strength(e), ArithToken(op), rhs, Strength(e) + 1, rest);
      case Neg(inner) => ShortSpells(inner, 7, rest);
      case _ => CanonicalSpells(e, rest);
    }
  }

  lemma {:induction false} OperandsSpell(e: Expr, lhs: Expr, l: nat, op: Token, rhs: Expr, r: nat, rest: seq<Token>)
    requires lhs < e && rhs < e && Printable(lhs) && Printable(rhs)
    ensures Spell(ShortTree(lhs, l), [op] + Spell(ShortTree(rhs, r), rest)) == ShortTokens(lhs, l) + [op] + ShortTokens(rhs, r) + rest
    decreases e, 0, 0
  {
    ShortSpells(rhs, r, rest);
    ShortSpells(lhs, l, [op] + (ShortTokens(rhs, r) + rest));
    PairSpells(ShortTokens(lhs, l), op, ShortTokens(rhs, r), rest);
  }

  /** Parsing the short form gives the condition back: parentheses that precedence and associativity make superfluous
      can be left out. */
  lemma ParseUndoesShortPrint(e: Expr)
    requires Printable(e)
    ensures ParseAll(ShortTokens(e, 1) + [TEof]) == Ok(e)
  {
    ShortIsPhrase(e, 1);
    ShortMeans(e, 1);
    ShortSpells(e, 1, [TEof]);
    ParseIsComplete(LOr, ShortTree(e, 1), [TEof]);
  }

  // ----- the texts spell the tokens

  lemma SpellJoin(a: seq<string>, s: seq<Token>, b: seq<string>, t: seq<Token>)
    requires SpellAll(a, s) && SpellAll(b, t)
    ensures SpellAll(a + b, s + t)
  {
    forall i | 0 <= i < |a + b| ensures Spells((a + b)[i], (s + t)[i]) {
      if i < |a| { assert Spells(a[i], s[i]); } else { assert Spells(b[i - |a|], t[i - |a|]); }
    }
  }

  lemma SpellAround(a: seq<string>, s: seq<Token>, text: string, op: Token, b: seq<string>, t: seq<Token>)
    requires SpellAll(a, s) && SpellAll(b, t) && Spells(text, op)
    ensures SpellAll(a + [text] + b, s + [op] + t)
  {
    SpellJoin(a, s, [text], [op]);
    SpellJoin(a + [text], s + [op], b, t);
  }

  lemma NaturalSpells(n: nat)
    ensures Spells(Decimal(n), TNumber(n as real))
  {
    TextSpells(TNumber(n as real));
  }

  lemma LiteralSpells(value: EvalValue)
    requires Writable(Literal(value))
    ensures Spells(LiteralText(value), LiteralToken(value))
  {
    TextSpells(LiteralToken(value));
  }

  lemma {:induction false} AccessesOfPrefix(segments: seq<PathSegment>, last: PathSegment)
    ensures PrintAccesses(segments + [last]) ==
            PrintAccesses(segments) + if last.Field? then [TDot, TIdent(last.name)]
                                      else [TLBracket, TNumber(last.index as real), TRBracket]
  {
    if segments == [] {
      assert ([] + [last])[1..] == [];
    } else {
      assert (segments + [last])[1..] == segments[1..] + [last];
      AccessesOfPrefix(segments[1..], last);
    }
  }

  function LastTexts(last: PathSegment): seq<string> {
    if last.Index? then ["[", Decimal(last.index), "]"] else [".", last.name]
  }

  function LastTokens(last: PathSegment): seq<Token> {
    if last.Field? then [TDot, TIdent(last.name)] else [TLBracket, TNumber(last.index as real), TRBracket]
  }

  lemma LastSpells(last: PathSegment)
    requires last.Field? ==> IsIdentifier(last.name)
    ensures SpellAll(LastTexts(last), LastTokens(last))
  {
    if last.Index? { NaturalSpells(last.index); }
    assert Spells(".", TDot) && Spells("[", TLBracket) && Spells("]", TRBracket);
  }

  /** A path of several segments is a shorter one and its last segment. */
  lemma PathGrows(segments: seq<PathSegment>)
    requires |segments| > 1 && segments[0].Field?
    ensures var before, last := segments[..|segments| - 1], segments[|segments| - 1];
            && PathTexts(segments) == PathTexts(before) + LastTexts(last)
            && Print(Path(segments)) == Print(Path(before)) + LastTokens(last)
  {
    var n := |segments| - 1;
    var before, last := segments[..n], segments[n];
    assert segments[1..] == before[1..] + [last];
    AccessesOfPrefix(before[1..], last);
  }

  lemma NameSpells(segments: seq<PathSegment>)
    requires |segments| == 1 && segments[0].Field? && IsIdentifier(segments[0].name)
    ensures SpellAll(PathTexts(segments), Print(Path(segments)))
  {
    assert segments[1..] == [] && segments[..0] == [];
    assert PrintAccesses(segments[1..]) == [] && PathTexts(segments[..0]) == [];
    assert PathTexts(segments) == [segments[0].name] && Print(Path(segments)) == [TIdent(segments[0].name)];
    assert Spells(segments[0].name, TIdent(segments[0].name));
  }

  lemma {:induction false} PathSpells(segments: seq<PathSegment>)
    requires Writable(Path(segments))
    ensures SpellAll(PathTexts(segments), Print(Path(segments)))
    decreases |segments|
  {
    if |segments| == 1 {
      NameSpells(segments);
    } else {
      var n := |segments| - 1;
      var before, last := segments[..n], segments[n];
      PathSpells(before);
      PathGrows(segments);
      LastSpells(last);
      SpellJoin(PathTexts(before), Print(Path(before)), LastTexts(last), LastTokens(last));
    }
  }

  lemma ParenSpells(texts: seq<string>, ts: seq<Token>)
    requires SpellAll(texts, ts)
    ensures SpellAll(["("] + texts + [")"], [TLParen] + ts + [TRParen])
  {
    SpellJoin(["("], [TLParen], texts, ts);
    SpellJoin(["("] + texts, [TLParen] + ts, [")"], [TRParen]);
  }

  lemma ConnectivesSpell(words: bool)
    ensures Spells(if words then "or" else "||", TOr) && Spells(if words then "and" else "&&", TAnd)
    ensures Spells(if words then "not" else "!", TNot) && Spells("-", TMinus)
  {
  }

  /** The operands of `e` are spelled by their texts. */
  ghost predicate OperandsAreSpelled(lhs: Expr, l: nat, rhs: Expr, r: nat, words: bool) {
    && SpellAll(ShortTexts(lhs, l, words), ShortTokens(lhs, l))
    && SpellAll(ShortTexts(rhs, r, words), ShortTokens(rhs, r))
  }

  lemma {:induction false} TextsSpell(e: Expr, min: nat, words: bool)
    requires Writable(e)
    ensures SpellAll(ShortTexts(e, min, words), ShortTokens(e, min))
    decreases e, if Strength(e) < min then 1 else 0
  {
    if Strength(e) < min {
      TextsSpell(e, 1, words);
      ParenSpells(ShortTexts(e, 1, words), ShortTokens(e, 1));
    } else {
      match e
      case Or(lhs, rhs) => TextsSpell(lhs, 1, words); TextsSpell(rhs, 2, words); OrSpells(e, words);
      case And(lhs, rhs) => TextsSpell(lhs, 2, words); TextsSpell(rhs, 3, words); AndSpells(e, words);
      case Not(inner) => TextsSpell(inner, 3, words); PrefixesSpell(e, words);
      case Compare(_, lhs, rhs) => TextsSpell(lhs, 5, words); TextsSpell(rhs, 5, words); ComparisonSpells(e, words);
      case Arith(_, lhs, rhs) =>
        TextsSpell(lhs, Strength(e), words); TextsSpell(rhs, Strength(e) + 1, words); ArithmeticSpells(e, words);
      case Neg(inner) => TextsSpell(inner, 7, words); PrefixesSpell(e, words);
      case Literal(value) => LiteralSpells(value);
      case Path(segments) => PathSpells(segments);
    }
  }

  lemma PrefixesSpell(e: Expr, words: bool)
    requires e.Not? || e.Neg?
    requires SpellAll(ShortTexts(e.inner, Strength(e), words), ShortTokens(e.inner, Strength(e)))
    ensures SpellAll(ShortTexts(e, 1, words), ShortTokens(e, 1))
  {
    ConnectivesSpell(words);
    SpellJoin([if e.Neg? then "-" else if words then "not" else "!"], [if e.Neg? then TMinus else TNot],
              ShortTexts(e.inner, Strength(e), words), ShortTokens(e.inner, Strength(e)));
  }

  lemma OrSpells(e: Expr, words: bool)
    requires e.Or? && OperandsAreSpelled(e.lhs, 1, e.rhs, 2, words)
    ensures SpellAll(ShortTexts(e, 1, words), ShortTokens(e, 1))
  {
    ConnectivesSpell(words);
    SpellAround(ShortTexts(e.lhs, 1, words), ShortTokens(e.lhs, 1), if words then "or" else "||", TOr,
                ShortTexts(e.rhs, 2, words), ShortTokens(e.rhs, 2));
  }

  lemma AndSpells(e: Expr, words: bool)
    requires e.And? && OperandsAreSpelled(e.lhs, 2, e.rhs, 3, words)
    ensures SpellAll(ShortTexts(e, 1, words), ShortTokens(e, 1))
  {
    ConnectivesSpell(words);
    SpellAround(ShortTexts(e.lhs, 2, words), ShortTokens(e.lhs, 2), if words then "and" else "&&", TAnd,
                ShortTexts(e.rhs, 3, words), ShortTokens(e.rhs, 3));
  }

  lemma ComparisonSpells(e: Expr, words: bool)
    requires e.Compare? && OperandsAreSpelled(e.lhs, 5, e.rhs, 5, words)
    ensures SpellAll(ShortTexts(e, 1, words), ShortTokens(e, 1))
  {
    var text := match e.cmp { case Eq => "==" case Ne => "!=" case Gt => ">" case Lt => "<" case Ge => ">=" case Le => "<=" };
    SpellAround(ShortTexts(e.lhs, 5, words), ShortTokens(e.lhs, 5), text, CmpToken(e.cmp),
                ShortTexts(e.rhs, 5, words), ShortTokens(e.rhs, 5));
  }

  lemma ArithmeticSpells(e: Expr, words: bool)
    requires e.Arith? && OperandsAreSpelled(e.lhs, Strength(e), e.rhs, Strength(e) + 1, words)
    ensures SpellAll(ShortTexts(e, 1, words), ShortTokens(e, 1))
  {
    var text := match e.arith { case Add => "+" case Sub => "-" case Mul => "*" case Div => "/" case Rem => "%" };
    SpellAround(ShortTexts(e.lhs, Strength(e), words), ShortTokens(e.lhs, Strength(e)), text, ArithToken(e.arith),
                ShortTexts(e.rhs, Strength(e) + 1, words), ShortTokens(e.rhs, Strength(e) + 1));
  }

  /** The same for the text, with signs or with words for the connectives. */
  lemma ParseUndoesShortText(e: Expr, words: bool)
    requires Writable(e)
    ensures ParseText(Spaced(ShortTexts(e, 1, words))) == Ok(e)
  {
    TextsSpell(e, 1, words);
    LexUndoesSpelling(ShortTexts(e, 1, words), ShortTokens(e, 1));
    ParseUndoesShortPrint(e);
    assert ShortTokens(e, 1) != [] by { ShortIsPhrase(e, 1); ShortSpells(e, 1, []); FirstToken(LOr, ShortTree(e, 1), []); }
    LexedIsBare(Spaced(ShortTexts(e, 1, words)));
    LexIgnoresMargins(Spaced(ShortTexts(e, 1, words)));
  }

  lemma PhraseIsParsed(level: Level, t: Tree, e: Expr, ts: seq<Token>, rest: seq<Token>)
    requires Derives(level, t) && Meaning(t) == e && Spell(t, rest) == ts && !Continues(level, Peek(rest))
    ensures Parse(level, ts) == Ok(Parsed(e, rest))
  {
    ParseIsComplete(level, t, rest);
  }

  lemma ComparisonEndsSum(op: CmpOp, rest: seq<Token>)
    ensures !Continues(LAdd, Peek([CmpToken(op)] + rest))
  {
  }

  /** A sum before a comparison sign is parsed as one. */
  lemma SumIsParsed(e: Expr, op: CmpOp, rest: seq<Token>)
    requires Printable(e)
    ensures Parse(LAdd, ShortTokens(e, 5) + ([CmpToken(op)] + rest)) == Ok(Parsed(e, [CmpToken(op)] + rest))
  {
    ShortIsPhrase(e, 5);
    ShortMeans(e, 5);
    ShortSpells(e, 5, [CmpToken(op)] + rest);
    ComparisonEndsSum(op, rest);
    PhraseIsParsed(LAdd, ShortTree(e, 5), e, ShortTokens(e, 5) + ([CmpToken(op)] + rest), [CmpToken(op)] + rest);
  }

  lemma ComparisonIsParsed(a: Expr, op: CmpOp, b: Expr, further: CmpOp, rest: seq<Token>)
    requires Printable(a) && Printable(b)
    ensures var after := [CmpToken(further)] + rest;
            Parse(LCmp, ShortTokens(a, 5) + ([CmpToken(op)] + (ShortTokens(b, 5) + after))) ==
            Ok(Parsed(Compare(op, a, b), after))
  {
    var after := [CmpToken(further)] + rest;
    var tail := ShortTokens(b, 5) + after;
    SumIsParsed(a, op, tail);
    SumIsParsed(b, further, rest);
    assert ([CmpToken(op)] + tail)[1..] == tail;
  }

  /** Comparisons do not chain, whatever their operands and whatever follows. */
  lemma ComparisonsDoNotChain(a: Expr, op: CmpOp, b: Expr, further: CmpOp, rest: seq<Token>)
    requires Printable(a) && Printable(b)
    ensures ParseAll(ShortTokens(a, 5) + ([CmpToken(op)] + (ShortTokens(b, 5) + ([CmpToken(further)] + rest)))).Err?
  {
    var after := [CmpToken(further)] + rest;
    var ts := ShortTokens(a, 5) + ([CmpToken(op)] + (ShortTokens(b, 5) + after));
    ComparisonIsParsed(a, op, b, further, rest);
    ShortIsPhrase(a, 5);
    ShortSpells(a, 5, [CmpToken(op)] + (ShortTokens(b, 5) + after));
    FirstToken(LAdd, ShortTree(a, 5), [CmpToken(op)] + (ShortTokens(b, 5) + after));
    assert Parse(LNot, ts) == Ok(Parsed(Compare(op, a, b), after));
    assert Extend(LAnd, Compare(op, a, b), after) == Ok(Parsed(Compare(op, a, b), after));
    assert Parse(LAnd, ts) == Ok(Parsed(Compare(op, a, b), after));
    assert Extend(LOr, Compare(op, a, b), after) == Ok(Parsed(Compare(op, a, b), after));
    assert Parse(LOr, ts) == Ok(Parsed(Compare(op, a, b), after));
  }
}
