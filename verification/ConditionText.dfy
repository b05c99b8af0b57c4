/** Conditions as text: wrapper, lexer and parser together, and the round trip from
    syntax through text and back. */
module ConditionText {
  import opened Common
  import opened ConditionSyntax
  import opened ConditionGrammar
  import opened ConditionParser
  import opened ConditionPrinter
  import opened ConditionLexer
  import opened ConditionSpacing
  import opened ConditionEval
  import Json

  // ----- parsing a condition text

  predicate Wrapped(s: string) { |s| >= 2 && (s[0] == '$' || s[0] == '#') && s[1] == '{' }

  /** The expression inside an optional `${...}` or `#{...}` around the whole text. */
  function Prepare(text: string): Result<string> { Unwrap(Trim(text)) }

  function Unwrap(inner: string): Result<string> {
    if inner == [] then Err
    else if !Wrapped(inner) then Ok(inner)
    else if |inner| == 2 || inner[|inner| - 1] != '}' || Blank(inner[2..|inner| - 1]) then Err
    else Ok(inner[2..|inner| - 1])
  }

  function ParseText(text: string): Result<Expr> {
    var body :- Prepare(text);
    var tokens :- Lex(body);
    ParseAll(tokens)
  }

  /** A condition that cannot be parsed does not hold. */
  predicate ConditionHolds(text: string, vars: Json.Variables) {
    var e := ParseText(text);
    e.Ok? && Holds(e.value, vars)
  }

  /** The lexer delivers what the parser demands. */
  lemma {:induction false} LexIsTerminated(s: string)
    ensures Lex(s).Ok? ==> Terminated(Lex(s).value)
    decreases |s|
  {
    if s != [] {
      if IsWhitespace(s[0]) {
        LexIsTerminated(s[1..]);
      } else if LexOne(s).Ok? {
        LexIsTerminated(LexOne(s).value.1);
      }
    }
  }

  method ParseConditionText(text: string) returns (r: Result<Expr>)
    ensures r == ParseText(text)
  {
    var body :- Prepare(text);
    var tokens :- Tokenize(body);
    LexIsTerminated(body);
    var parser := new Parser(tokens);
    assert parser.Ahead() == tokens;
    r := parser.ParseCondition();
  }

  // ----- spelling tokens

  predicate IsIdentifier(text: string) {
    && text != [] && IsIdentStart(text[0])
    && (forall i | 0 <= i < |text| :: IsIdentContinue(text[i]))
    && WordToken(text).TIdent?
  }

  /** A string literal's body, with the quote and the backslash escaped. */
  function Escape(quote: char, s: string): string {
    if s == [] then []
    else (if s[0] == quote || s[0] == '\\' then ['\\', s[0]] else [s[0]]) + Escape(quote, s[1..])
  }

  predicate IsQuote(c: char) { c == '"' || c == '\'' }

  function OperatorText(t: Token): string {
    match t
    case TTrue => "true"
    case TFalse => "false"
    case TNull => "null"
    case TOr => "||"
    case TAnd => "&&"
    case TNot => "!"
    case TEq => "=="
    case TNe => "!="
    case TGt => ">"
    case TLt => "<"
    case TGe => ">="
    case TLe => "<="
    case TPlus => "+"
    case TMinus => "-"
    case TStar => "*"
    case TSlash => "/"
    case TPercent => "%"
    case TLParen => "("
    case TRParen => ")"
    case TLBracket => "["
    case TRBracket => "]"
    case TDot => "."
    case _ => ""
  }

  /** A number's text: digits, or digits, a point and digits. */
  predicate IsNumberText(text: string) { text != [] && IsDigit(text[0]) && NumberLength(text) == |text| }

  /** `text` is a way to write `t`. */
  predicate Spells(text: string, t: Token) {
    match t
    case TNumber(n) => IsNumberText(text) && NumberValue(text) == n
    case TStr(s) => text != [] && IsQuote(text[0]) && text == [text[0]] + Escape(text[0], s) + [text[0]]
    case TIdent(name) => text == name && IsIdentifier(name)
    case TEof => false
    case _ => text == OperatorText(t) || (IsWordOperator(t) && text == OperatorWord(t))
  }

  /** The connectives can be written as words too. */
  predicate IsWordOperator(t: Token) { t.TAnd? || t.TOr? || t.TNot? }

  function OperatorWord(t: Token): string { if t.TAnd? then "and" else if t.TOr? then "or" else "not" }

  /** How one character is written. */
  function EscapedAs(quote: char, c: char): string { if c == quote || c == '\\' then ['\\', c] else [c] }

  lemma EscapeSplits(quote: char, s: string)
    requires s != []
    ensures Escape(quote, s) == EscapedAs(quote, s[0]) + Escape(quote, s[1..])
  {
  }

  lemma CharIsRead(quote: char, c: char, tail: string)
    requires IsQuote(quote)
    ensures var all := EscapedAs(quote, c) + tail;
            && all != [] && all[0] != quote && StringChar(all) == Ok((c, |EscapedAs(quote, c)|))
            && all[|EscapedAs(quote, c)|..] == tail
  {
  }

  lemma BodyBegins(quote: char, c: char, tail: string, text: string, rest: string)
    requires IsQuote(quote) && StringBody(quote, tail) == Ok((text, rest))
    ensures StringBody(quote, EscapedAs(quote, c) + tail) == Ok(([c] + text, rest))
  {
    CharIsRead(quote, c, tail);
  }

  lemma Regroup(a: string, b: string, c: string)
    ensures a + b + c == a + (b + c)
  {
  }

  /** Reading an escaped body gives the string back and stops at the quote. */
  lemma {:induction false} EscapeIsRead(quote: char, s: string, rest: string)
    requires IsQuote(quote)
    ensures StringBody(quote, Escape(quote, s) + ([quote] + rest)) == Ok((s, rest))
    decreases s
  {
    if s == [] {
      assert Escape(quote, s) + ([quote] + rest) == [quote] + rest;
      assert ([quote] + rest)[1..] == rest;
    } else {
      EscapeIsRead(quote, s[1..], rest);
      BodyBegins(quote, s[0], Escape(quote, s[1..]) + ([quote] + rest), s[1..], rest);
      EscapeSplits(quote, s);
      Regroup(EscapedAs(quote, s[0]), Escape(quote, s[1..]), [quote] + rest);
      assert s == [s[0]] + s[1..];
    }
  }

  lemma StringIsLexed(s: string, text: string, rest: string)
    requires Spells(text, TStr(s))
    ensures LexOne(text + rest) == Ok((TStr(s), rest))
  {
    var quote, all := text[0], text + rest;
    EscapeIsRead(quote, s, rest);
    assert all[0] == quote && all[1..] == Escape(quote, s) + ([quote] + rest);
    QuoteStartsString(all);
  }

  lemma QuoteStartsString(s: string)
    requires s != [] && IsQuote(s[0])
    ensures LexOne(s) == StringAt(s)
  {
    assert CharToken(s[0]).None? && (|s| > 1 ==> PairToken(s[0], s[1]).None?);
  }

  lemma DigitsEnd(text: string, rest: string)
    ensures Run(IsDigit, text + (" " + rest)) == Run(IsDigit, text)
  {
    var all, n := text + (" " + rest), Run(IsDigit, text);
    assert all[|text|] == ' ';
    assert forall i | 0 <= i < n :: all[i] == text[i];
    RunIs(IsDigit, all, n);
  }

  lemma NumberEnds(text: string, rest: string)
    requires IsNumberText(text)
    ensures NumberLength(text + (" " + rest)) == |text|
  {
    var all, whole := text + (" " + rest), Run(IsDigit, text);
    DigitsEnd(text, rest);
    if whole == |text| {
      assert all[whole] == ' ';
    } else {
      assert all[whole] == text[whole] && all[whole + 1] == text[whole + 1];
      assert all[whole + 1..] == text[whole + 1..] + (" " + rest);
      DigitsEnd(text[whole + 1..], rest);
    }
  }

  lemma NumberTextIsAt(text: string, rest: string)
    requires IsNumberText(text)
    ensures var all := text + (" " + rest);
            all[0] == text[0] && NumberAt(all) == Ok((TNumber(NumberValue(text)), " " + rest))
  {
    var all := text + (" " + rest);
    NumberEnds(text, rest);
    assert all[0] == text[0] && all[..|text|] == text && all[|text|..] == " " + rest;
  }

  lemma DigitStartsNumber(s: string)
    requires |s| > 1 && IsDigit(s[0])
    ensures LexOne(s) == NumberAt(s)
  {
    assert PairToken(s[0], s[1]).None? && CharToken(s[0]).None?;
  }

  lemma NumberIsLexed(n: real, text: string, rest: string)
    requires Spells(text, TNumber(n))
    ensures LexOne(text + (" " + rest)) == Ok((TNumber(n), " " + rest))
  {
    NumberTextIsAt(text, rest);
    DigitStartsNumber(text + (" " + rest));
  }

  lemma WordIsLexed(text: string, rest: string)
    requires text != [] && IsIdentStart(text[0]) && forall i | 0 <= i < |text| :: IsIdentContinue(text[i])
    ensures LexOne(text + (" " + rest)) == Ok((WordToken(text), " " + rest))
  {
    var all := text + (" " + rest);
    assert all[|text|] == ' ';
    RunIs(IsIdentContinue, all, |text|);
    assert all[..|text|] == text && all[|text|..] == " " + rest;
    assert PairToken(all[0], all[1]).None? && CharToken(all[0]).None?;
  }

  lemma OperatorIsLexed(t: Token, rest: string)
    requires !t.TNumber? && !t.TStr? && !t.TIdent? && !t.TEof? && !t.TTrue? && !t.TFalse? && !t.TNull?
    ensures LexOne(OperatorText(t) + (" " + rest)) == Ok((t, " " + rest))
  {
    var text, all := OperatorText(t), OperatorText(t) + (" " + rest);
    assert all[..|text|] == text && all[|text|..] == " " + rest && all[|text|] == ' ';
  }

  lemma TokenIsLexed(t: Token, text: string, rest: string)
    requires Spells(text, t)
    ensures LexOne(text + (" " + rest)) == Ok((t, " " + rest))
  {
    if t.TStr? {
      StringIsLexed(t.s, text, " " + rest);
    } else if t.TNumber? {
      NumberIsLexed(t.n, text, rest);
    } else if IsWord(t, text) {
      WordSpelling(t, text);
      WordIsLexed(text, rest);
    } else {
      OperatorSpelling(t, text);
      OperatorIsLexed(t, rest);
    }
  }

  /** `t` is spelled by letters here. */
  predicate IsWord(t: Token, text: string) {
    t.TIdent? || t.TTrue? || t.TFalse? || t.TNull? || (IsWordOperator(t) && text == OperatorWord(t))
  }

  lemma WordSpelling(t: Token, text: string)
    requires Spells(text, t) && IsWord(t, text)
    ensures text != [] && IsIdentStart(text[0]) && forall i | 0 <= i < |text| :: IsIdentContinue(text[i])
    ensures WordToken(text) == t
  {
  }

  lemma OperatorSpelling(t: Token, text: string)
    requires Spells(text, t) && !t.TNumber? && !t.TStr? && !IsWord(t, text)
    ensures text == OperatorText(t) && !t.TEof?
  {
  }

  lemma TextStartsInk(t: Token, text: string)
    requires Spells(text, t)
    ensures text != [] && !IsWhitespace(text[0])
  {
  }

  /** Texts one after the other, a space after each. */
  function Spaced(texts: seq<string>): string {
    if texts == [] then [] else texts[0] + (" " + Spaced(texts[1..]))
  }

  ghost predicate SpellAll(texts: seq<string>, ts: seq<Token>) {
    |texts| == |ts| && forall i | 0 <= i < |ts| :: Spells(texts[i], ts[i])
  }

  lemma LexStep(t: Token, text: string, rest: string)
    requires Spells(text, t) && Lex(rest).Ok?
    ensures Lex(text + (" " + rest)) == Ok([t] + Lex(rest).value)
  {
    var all := text + (" " + rest);
    TokenIsLexed(t, text, rest);
    TextStartsInk(t, text);
    assert all != [] && all[0] == text[0];
    assert (" " + rest)[1..] == rest;
    assert Lex(" " + rest) == Lex(rest);
  }

  /** Lexing undoes spelling, whatever spelling each token is given. */
  lemma {:induction false} LexUndoesSpelling(texts: seq<string>, ts: seq<Token>)
    requires SpellAll(texts, ts)
    ensures Lex(Spaced(texts)) == Ok(ts + [TEof])
  {
    if ts != [] {
      LexUndoesSpelling(texts[1..], ts[1..]);
      LexStep(ts[0], texts[0], Spaced(texts[1..]));
      assert [ts[0]] + (ts[1..] + [TEof]) == ts + [TEof];
    } else {
      assert ts + [TEof] == [TEof];
    }
  }

  // ----- writing a condition as text

  /** Syntax whose names are identifiers and whose numbers are natural, so that it can be written. */
  predicate Writable(e: Expr) {
    && Printable(e)
    && match e
       case Literal(value) => value.Number? ==> value.n >= 0.0 && value.n == value.n.Floor as real
       case Path(segments) => forall i | 0 <= i < |segments| :: segments[i].Field? ==> IsIdentifier(segments[i].name)
       case Not(inner) => Writable(inner)
       case Neg(inner) => Writable(inner)
       case And(lhs, rhs) => Writable(lhs) && Writable(rhs)
       case Or(lhs, rhs) => Writable(lhs) && Writable(rhs)
       case Compare(_, lhs, rhs) => Writable(lhs) && Writable(rhs)
       case Arith(_, lhs, rhs) => Writable(lhs) && Writable(rhs)
  }

  predicate HasText(t: Token) {
    match t
    case TNumber(n) => n >= 0.0 && n == n.Floor as real
    case TIdent(name) => IsIdentifier(name)
    case TEof => false
    case _ => true
  }

  function TokenText(t: Token): string {
    match t
    case TNumber(n) => if n >= 0.0 then Decimal(n.Floor) else []
    case TStr(s) => "'" + Escape('\'', s) + "'"
    case TIdent(name) => name
    case _ => OperatorText(t)
  }

  lemma TextSpells(t: Token)
    requires HasText(t)
    ensures Spells(TokenText(t), t)
  {
    if t.TNumber? {
      var text := TokenText(t);
      RunIs(IsDigit, text, |text|);
      assert text[..|text|] + [] == text;
    }
  }

  function Texts(ts: seq<Token>): (texts: seq<string>)
    ensures |texts| == |ts| && forall i | 0 <= i < |ts| :: texts[i] == TokenText(ts[i])
  {
    seq(|ts|, i requires 0 <= i < |ts| => TokenText(ts[i]))
  }

  /** Syntax as text. */
  function Write(e: Expr): string { Spaced(Texts(Print(e))) }

  ghost predicate AllHaveText(ts: seq<Token>) { forall i | 0 <= i < |ts| :: HasText(ts[i]) }

  lemma BinaryHasText(lhs: seq<Token>, op: Token, rhs: seq<Token>)
    requires AllHaveText(lhs) && AllHaveText(rhs) && HasText(op)
    ensures AllHaveText(PrintBinary(lhs, op, rhs))
  {
  }

  lemma UnaryHasText(op: Token, inner: seq<Token>)
    requires AllHaveText(inner) && HasText(op)
    ensures AllHaveText([op, TLParen] + inner + [TRParen])
  {
  }

  lemma {:induction false} PrintedTokensHaveText(e: Expr)
    requires Writable(e)
    ensures AllHaveText(Print(e))
  {
    match e
    case Literal(_) =>
    case Path(segments) => AccessesHaveText(segments[1..]);
    case Not(inner) => PrintedTokensHaveText(inner); UnaryHasText(TNot, Print(inner));
    case Neg(inner) => PrintedTokensHaveText(inner); UnaryHasText(TMinus, Print(inner));
    case And(lhs, rhs) =>
      PrintedTokensHaveText(lhs); PrintedTokensHaveText(rhs);
      BinaryHasText(Print(lhs), TAnd, Print(rhs));
    case Or(lhs, rhs) =>
      PrintedTokensHaveText(lhs); PrintedTokensHaveText(rhs);
      BinaryHasText(Print(lhs), TOr, Print(rhs));
    case Compare(op, lhs, rhs) =>
      PrintedTokensHaveText(lhs); PrintedTokensHaveText(rhs);
      BinaryHasText(Print(lhs), CmpToken(op), Print(rhs));
    case Arith(op, lhs, rhs) =>
      PrintedTokensHaveText(lhs); PrintedTokensHaveText(rhs);
      BinaryHasText(Print(lhs), ArithToken(op), Print(rhs));
  }

  lemma {:induction false} AccessesHaveText(segments: seq<PathSegment>)
    requires forall i | 0 <= i < |segments| :: segments[i].Field? ==> IsIdentifier(segments[i].name)
    ensures forall i | 0 <= i < |PrintAccesses(segments)| :: HasText(PrintAccesses(segments)[i])
  {
    if segments != [] {
      AccessesHaveText(segments[1..]);
    }
  }

  /** A text that is not blank and carries no wrapper. */
  predicate Bare(text: string) { Trim(text) != [] && !Wrapped(Trim(text)) }

  /** A wrapper around the whole expression is transparent. */
  lemma WrapperIsTransparent(text: string, mark: char)
    requires Bare(text) && (mark == '$' || mark == '#')
    ensures ParseText([mark, '{'] + text + ['}']) == ParseText(text)
  {
    WrapperIsRemoved(text, mark);
    BareIsTrimmed(text);
    LexIgnoresMargins(text);
    SamePrepared([mark, '{'] + text + ['}'], text, text, Trim(text));
  }

  lemma BareIsTrimmed(text: string)
    requires Bare(text)
    ensures Prepare(text) == Ok(Trim(text))
  {
  }

  lemma SamePrepared(a: string, b: string, inA: string, inB: string)
    requires Prepare(a) == Ok(inA) && Prepare(b) == Ok(inB) && Lex(inA) == Lex(inB)
    ensures ParseText(a) == ParseText(b)
  {
  }

  lemma WrapperIsRemoved(text: string, mark: char)
    requires Bare(text) && (mark == '$' || mark == '#')
    ensures Prepare([mark, '{'] + text + ['}']) == Ok(text)
  {
    NotBlank(text);
    UnwrapsTo(text, mark);
    WrapperStays(text, mark);
  }

  lemma WrapperStays(text: string, mark: char)
    requires mark == '$' || mark == '#'
    ensures Trim([mark, '{'] + text + ['}']) == [mark, '{'] + text + ['}']
  {
    assert !IsWhitespace('$') && !IsWhitespace('#') && !IsWhitespace('}');
    TrimKeepsSolid([mark, '{'] + text + ['}']);
  }

  lemma UnwrapsTo(text: string, mark: char)
    requires !Blank(text) && (mark == '$' || mark == '#')
    ensures Unwrap([mark, '{'] + text + ['}']) == Ok(text)
  {
    assert ([mark, '{'] + text + ['}'])[2..|text| + 2] == text;
  }

  lemma NotBlank(text: string)
    requires Trim(text) != []
    ensures !Blank(text)
  {
    var t := TrimStart(text);
    assert t[0] == text[|text| - |t|];
  }

  lemma WrapperIsRejected(s: string)
    requires Wrapped(s)
    ensures Lex(s).Err?
  {
    assert s[0] == '$' || s[0] == '#';
    assert !IsWhitespace('$') && !IsWhitespace('#');
    assert PairToken('$', s[1]).None? && PairToken('#', s[1]).None?;
  }

  /** Nothing, or a wrapper that does not surround all of it or holds white space only. */
  predicate IsMisused(s: string) {
    s == [] || (|s| >= 2 && s[0] in "$#" && s[1] == '{' && (s[|s| - 1] != '}' || Blank(s[2..|s| - 1])))
  }

  lemma UnwrapFails(s: string)
    requires IsMisused(s)
    ensures Unwrap(s).Err?
  {
  }

  lemma BlankTrims(text: string)
    requires Blank(text)
    ensures Trim(text) == []
  {
    if Trim(text) != [] { NotBlank(text); }
  }

  /** Blank text is no condition, and neither is text with a misused wrapper. */
  lemma OtherTextsFail(text: string)
    requires Blank(text) || IsMisused(Trim(text))
    ensures ParseText(text).Err?
  {
    if Blank(text) { BlankTrims(text); }
    UnwrapFails(Trim(text));
  }

  /** Text with tokens is bare: blanks have none, and the lexer rejects a wrapper. */
  lemma LexedIsBare(text: string)
    requires Lex(text).Ok? && |Lex(text).value| > 1
    ensures Bare(text)
  {
    var t := Trim(text);
    assert t == [] ==> Lex(t) == Ok([TEof]);
    if Wrapped(t) { WrapperIsRejected(t); }
    LexIgnoresMargins(text);
  }

  /** Writing a condition and parsing the text, bare or in a wrapper, gives the condition back. */
  lemma ParseUndoesWrite(e: Expr)
    requires Writable(e)
    ensures ParseText(Write(e)) == Ok(e)
    ensures ParseText("${" + Write(e) + "}") == Ok(e)
    ensures ParseText("#{" + Write(e) + "}") == Ok(e)
  {
    PrintedTokensHaveText(e);
    forall i | 0 <= i < |Print(e)|
      ensures Spells(TokenText(Print(e)[i]), Print(e)[i])
    {
      TextSpells(Print(e)[i]);
    }
    WrittenIsRead(e, Texts(Print(e)));
  }

  /** The same for every spelling of the tokens, decimal fractions and either quote included. */
  lemma WrittenIsRead(e: Expr, texts: seq<string>)
    requires Printable(e) && SpellAll(texts, Print(e))
    ensures ParseText(Spaced(texts)) == Ok(e)
    ensures ParseText("${" + Spaced(texts) + "}") == Ok(e)
    ensures ParseText("#{" + Spaced(texts) + "}") == Ok(e)
  {
    var text := Spaced(texts);
    LexUndoesSpelling(texts, Print(e));
    ParseUndoesPrint(e);
    assert Print(e) != [] by { assert e.Literal? || e.Path? || e.Not? || e.Neg? || e.And? || e.Or? || e.Compare? || e.Arith?; }
    LexedIsBare(text);
    LexIgnoresMargins(text);
    WrapperIsTransparent(text, '$');
    WrapperIsTransparent(text, '#');
  }
}
