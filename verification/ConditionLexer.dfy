/** The lexer of the condition language: character loops, and the function they compute. */
module ConditionLexer {
  import opened Common
  import opened ConditionSyntax

  /** Letters are modelled as the ASCII ones. */
  predicate IsIdentStart(c: char) { 'a' <= c <= 'z' || 'A' <= c <= 'Z' || c == '_' }

  predicate IsIdentContinue(c: char) { IsIdentStart(c) || IsDigit(c) }

  // ----- runs of characters

  /** How many characters at the front of `s` satisfy `p`. */
  function Run(p: char -> bool, s: string): (n: nat)
    ensures n <= |s| && (n < |s| ==> !p(s[n]))
    ensures forall i | 0 <= i < n :: p(s[i])
  {
    if s == [] || !p(s[0]) then 0
    else
      var n := Run(p, s[1..]);
      assert forall i | 1 <= i < 1 + n :: s[i] == s[1..][i - 1];
      1 + n
  }

  lemma {:induction false} RunIs(p: char -> bool, s: string, n: nat)
    requires n <= |s| && (forall i | 0 <= i < n :: p(s[i])) && (n < |s| ==> !p(s[n]))
    ensures Run(p, s) == n
  {
    if n > 0 {
      assert forall i | 0 <= i < n - 1 :: s[1..][i] == s[i + 1];
      RunIs(p, s[1..], n - 1);
    }
  }

  method SkipRun(p: char -> bool, chars: string, start: nat) returns (end: nat)
    requires start <= |chars|
    ensures end == start + Run(p, chars[start..])
  {
    end := start;
    while end < |chars| && p(chars[end])
      invariant start <= end <= |chars|
      invariant forall i | start <= i < end :: p(chars[i])
    {
      end := end + 1;
    }
    RunIs(p, chars[start..], end - start);
  }

  // ----- numbers

  /** `n` with the point moved `places` digits to the left. */
  function Scaled(n: nat, places: nat): real { if places == 0 then n as real else Scaled(n, places - 1) / 10.0 }

  /** The length of the number at the front: digits, and a fraction only if a digit follows the point. */
  function NumberLength(s: string): (n: nat)
    ensures n <= |s|
  {
    var whole := Run(IsDigit, s);
    if whole + 1 < |s| && s[whole] == '.' && IsDigit(s[whole + 1]) then whole + 1 + Run(IsDigit, s[whole + 1..])
    else whole
  }

  /** The value of a number's text. */
  function NumberValue(text: string): real {
    var whole := Run(IsDigit, text);
    var fraction := if whole < |text| then text[whole + 1..] else [];
    if AllDigits(fraction) then Scaled(DigitsValue(text[..whole] + fraction), |fraction|) else 0.0
  }

  method ReadNumber(chars: string, start: nat) returns (value: real, next: nat)
    requires start < |chars|
    ensures next == start + NumberLength(chars[start..])
    ensures value == NumberValue(chars[start..next])
  {
    var end := SkipRun(IsDigit, chars, start);
    if end < |chars| && chars[end] == '.' && end + 1 < |chars| && IsDigit(chars[end + 1]) {
      var fraction := end + 1;
      end := SkipRun(IsDigit, chars, fraction);
      assert chars[start..][fraction - start..] == chars[fraction..];
    }
    return NumberValue(chars[start..end]), end;
  }

  // ----- string literals

  function HexDigit(c: char): Option<nat> {
    if IsDigit(c) then Some(c as int - '0' as int)
    else if 'a' <= c <= 'f' then Some(c as int - 'a' as int + 10)
    else if 'A' <= c <= 'F' then Some(c as int - 'A' as int + 10)
    else None
  }

  function HexValue(s: string): (r: Option<nat>)
    requires 0 < |s| <= 4
    ensures r.Some? ==> r.value < 0x10000
  {
    var d := HexDigit(s[|s| - 1]);
    if d.None? then None
    else if |s| == 1 then d
    else
      var high := HexValue(s[..|s| - 1]);
      if high.None? || high.value >= 0x1000 then None else Some(high.value * 16 + d.value)
  }

  /** The character of a four-digit escape; a leading `+` is read as the source's number parser does. */
  function Decoded(hex: string): Option<char>
    requires |hex| == 4
  {
    var code := HexValue(if hex[0] == '+' then hex[1..] else hex);
    if code.None? || 0xD800 <= code.value < 0xE000 then None else Some(code.value as char)
  }

  /** One character of a string body: what it stands for, and how many characters it takes. */
  function StringChar(s: string): Result<(char, nat)>
    requires s != []
  {
    if s[0] != '\\' then Ok((s[0], 1))
    else if |s| == 1 then Err
    else match s[1]
      case 'n' => Ok(('\n', 2))
      case 'r' => Ok(('\r', 2))
      case 't' => Ok(('\t', 2))
      case '0' => Ok(('\0', 2))
      case '\\' => Ok(('\\', 2))
      case '\'' => Ok(('\'', 2))
      case '"' => Ok(('"', 2))
      case '/' => Ok(('/', 2))
      case 'u' =>
        if |s| < 6 then Err
        else
          var c := Decoded(s[2..6]);
          if c.None? then Err else Ok((c.value, 6))
      case _ => Err
  }

  /** The text of a string body up to its closing quote, and what comes after the quote. */
  function StringBody(quote: char, s: string): (r: Result<(string, string)>)
    ensures r.Ok? ==> |r.value.1| < |s|
    decreases |s|
  {
    if s == [] then Err
    else if s[0] == quote then Ok(([], s[1..]))
    else
      var (c, n) :- StringChar(s);
      var (text, rest) :- StringBody(quote, s[n..]);
      Ok(([c] + text, rest))
  }

  /** After `out`, the text `ahead` completes the body `spec`. */
  ghost predicate Completes(spec: Result<(string, string)>, out: string, ahead: Result<(string, string)>) {
    && ahead.Ok? == spec.Ok?
    && (spec.Ok? ==> spec.value.0 == out + ahead.value.0 && spec.value.1 == ahead.value.1)
  }

  lemma OneMoreChar(quote: char, s: string, spec: Result<(string, string)>, out: string)
    requires s != [] && s[0] != quote && Completes(spec, out, StringBody(quote, s))
    ensures StringChar(s).Err? ==> spec.Err?
    ensures StringChar(s).Ok? ==>
              var (c, n) := StringChar(s).value;
              0 < n <= |s| && Completes(spec, out + [c], StringBody(quote, s[n..]))
  {
    if StringChar(s).Ok? {
      var (c, n) := StringChar(s).value;
      var rest := StringBody(quote, s[n..]);
      if rest.Ok? {
        assert out + ([c] + rest.value.0) == out + [c] + rest.value.0;
      }
    }
  }

  lemma AtQuoteOrEnd(quote: char, s: string, spec: Result<(string, string)>, out: string)
    requires Completes(spec, out, StringBody(quote, s))
    ensures s == [] ==> spec.Err?
    ensures s != [] && s[0] == quote ==> spec == Ok((out, s[1..]))
  {
    assert out + [] == out;
  }

  /** What `spec` is once `out` was read and the position is `i`. */
  ghost predicate IsReading(chars: string, quote: char, spec: Result<(string, string)>, i: nat, out: string) {
    i <= |chars| && Completes(spec, out, StringBody(quote, chars[i..]))
  }

  /** Reads the closing quote, or one character of the body, at a position. */
  method ReadChar(chars: string, quote: char, i: nat, ghost spec: Result<(string, string)>, ghost out: string)
    returns (r: Result<Option<(char, nat)>>)
    requires IsReading(chars, quote, spec, i, out)
    ensures r.Err? ==> spec.Err?
    ensures r == Ok(None) ==> i < |chars| && spec == Ok((out, chars[i + 1..]))
    ensures r.Ok? && r.value.Some? ==>
              i < r.value.value.1 && IsReading(chars, quote, spec, r.value.value.1, out + [r.value.value.0])
  {
    AtQuoteOrEnd(quote, chars[i..], spec, out);
    if i == |chars| {
      return Err;
    }
    if chars[i] == quote {
      assert chars[i..][1..] == chars[i + 1..];
      return Ok(None);
    }
    OneMoreChar(quote, chars[i..], spec, out);
    var step :- StringChar(chars[i..]);
    assert chars[i..][step.1..] == chars[i + step.1..];
    r := Ok(Some((step.0, i + step.1)));
  }

  method ReadString(chars: string, start: nat) returns (r: Result<(string, nat)>)
    requires start < |chars|
    ensures var spec := StringBody(chars[start], chars[start + 1..]);
            && r.Ok? == spec.Ok?
            && (r.Ok? ==> start < r.value.1 <= |chars| && spec.value == (r.value.0, chars[r.value.1..]))
  {
    var quote := chars[start];
    var i := start + 1;
    var out := "";
    ghost var spec := StringBody(quote, chars[start + 1..]);
    while true
      invariant start < i && IsReading(chars, quote, spec, i, out)
      decreases |chars| - i
    {
      var step :- ReadChar(chars, quote, i, spec, out);
      if step.None? {
        return Ok((out, i + 1));
      }
      out := out + [step.value.0];
      i := step.value.1;
    }
  }

  // ----- tokens

  function PairToken(a: char, b: char): Option<Token> {
    match (a, b)
    case ('|', '|') => Some(TOr)
    case ('&', '&') => Some(TAnd)
    case ('=', '=') => Some(TEq)
    case ('!', '=') => Some(TNe)
    case ('>', '=') => Some(TGe)
    case ('<', '=') => Some(TLe)
    case _ => None
  }

  function CharToken(c: char): Option<Token> {
    match c
    case '(' => Some(TLParen)
    case ')' => Some(TRParen)
    case '[' => Some(TLBracket)
    case ']' => Some(TRBracket)
    case '.' => Some(TDot)
    case '+' => Some(TPlus)
    case '-' => Some(TMinus)
    case '*' => Some(TStar)
    case '/' => Some(TSlash)
    case '%' => Some(TPercent)
    case '>' => Some(TGt)
    case '<' => Some(TLt)
    case '!' => Some(TNot)
    case _ => None
  }

  function WordToken(text: string): Token {
    match text
    case "and" => TAnd
    case "or" => TOr
    case "not" => TNot
    case "true" => TTrue
    case "false" => TFalse
    case "null" => TNull
    case _ => TIdent(text)
  }

  function StringAt(s: string): (r: Result<(Token, string)>)
    requires s != []
    ensures r.Ok? ==> |r.value.1| < |s| && r.value.0.TStr?
  {
    var (text, rest) :- StringBody(s[0], s[1..]);
    Ok((TStr(text), rest))
  }

  function NumberAt(s: string): (r: Result<(Token, string)>)
    requires s != [] && IsDigit(s[0])
    ensures r.Ok? && |r.value.1| < |s| && r.value.0.TNumber?
  {
    var n := NumberLength(s);
    Ok((TNumber(NumberValue(s[..n])), s[n..]))
  }

  function WordAt(s: string): (r: Result<(Token, string)>)
    requires s != [] && IsIdentStart(s[0])
    ensures r.Ok? && |r.value.1| < |s| && !r.value.0.TEof?
  {
    var n := Run(IsIdentContinue, s);
    Ok((WordToken(s[..n]), s[n..]))
  }

  /** The token at the front of `s`, and what comes after it. */
  function LexOne(s: string): (r: Result<(Token, string)>)
    requires s != []
    ensures r.Ok? ==> |r.value.1| < |s| && !r.value.0.TEof?
  {
    if |s| > 1 && PairToken(s[0], s[1]).Some? then Ok((PairToken(s[0], s[1]).value, s[2..]))
    else if CharToken(s[0]).Some? then Ok((CharToken(s[0]).value, s[1..]))
    else if s[0] == '"' || s[0] == '\'' then StringAt(s)
    else if IsDigit(s[0]) then NumberAt(s)
    else if IsIdentStart(s[0]) then WordAt(s)
    else Err
  }

  /** All tokens of `s`, with the end marker. */
  function Lex(s: string): Result<seq<Token>>
    decreases |s|
  {
    if s == [] then Ok([TEof])
    else if IsWhitespace(s[0]) then Lex(s[1..])
    else
      var (token, rest) :- LexOne(s);
      var tokens :- Lex(rest);
      Ok([token] + tokens)
  }

  /** `r` is what `spec` finds, with the rest of the text given by its position. */
  ghost predicate Finds<T>(chars: string, i: nat, r: Result<(T, nat)>, spec: Result<(T, string)>) {
    && r.Ok? == spec.Ok?
    && (r.Ok? ==> i < r.value.1 <= |chars| && spec.value == (r.value.0, chars[r.value.1..]))
  }

  method TextTokenAt(chars: string, i: nat) returns (r: Result<(Token, nat)>)
    requires i < |chars| && (chars[i] == '"' || chars[i] == '\'')
    ensures Finds(chars, i, r, StringAt(chars[i..]))
  {
    assert chars[i..][1..] == chars[i + 1..];
    var body :- ReadString(chars, i);
    r := Ok((TStr(body.0), body.1));
  }

  lemma Slices(chars: string, i: nat, next: nat)
    requires i <= next <= |chars|
    ensures chars[i..][..next - i] == chars[i..next] && chars[i..][next - i..] == chars[next..]
  {
  }

  lemma NumberIsAt(chars: string, i: nat, next: nat)
    requires i < |chars| && IsDigit(chars[i]) && next == i + NumberLength(chars[i..])
    ensures i < next <= |chars| && NumberAt(chars[i..]) == Ok((TNumber(NumberValue(chars[i..next])), chars[next..]))
  {
    Slices(chars, i, next);
    NumberAtIs(chars[i..]);
  }

  lemma NumberAtIs(s: string)
    requires s != [] && IsDigit(s[0])
    ensures var n := NumberLength(s); 0 < n && NumberAt(s) == Ok((TNumber(NumberValue(s[..n])), s[n..]))
  {
  }

  method NumberTokenAt(chars: string, i: nat) returns (r: Result<(Token, nat)>)
    requires i < |chars| && IsDigit(chars[i])
    ensures Finds(chars, i, r, NumberAt(chars[i..]))
  {
    var value, next := ReadNumber(chars, i);
    NumberIsAt(chars, i, next);
    r := Ok((TNumber(value), next));
  }

  method WordTokenAt(chars: string, i: nat) returns (r: Result<(Token, nat)>)
    requires i < |chars| && IsIdentStart(chars[i])
    ensures Finds(chars, i, r, WordAt(chars[i..]))
  {
    var end := SkipRun(IsIdentContinue, chars, i);
    Slices(chars, i, end);
    r := Ok((WordToken(chars[i..end]), end));
  }

  method TokenAt(chars: string, i: nat) returns (r: Result<(Token, nat)>)
    requires i < |chars|
    ensures Finds(chars, i, r, LexOne(chars[i..]))
  {
    var c := chars[i];
    ghost var ahead := chars[i..];
    if i + 1 < |chars| && PairToken(c, chars[i + 1]).Some? {
      assert ahead[2..] == chars[i + 2..];
      return Ok((PairToken(c, chars[i + 1]).value, i + 2));
    }
    if CharToken(c).Some? {
      r := Ok((CharToken(c).value, i + 1));
    } else if c == '"' || c == '\'' {
      r := TextTokenAt(chars, i);
    } else if IsDigit(c) {
      r := NumberTokenAt(chars, i);
    } else if IsIdentStart(c) {
      r := WordTokenAt(chars, i);
    } else {
      r := Err;
    }
  }

  /** After `tokens`, lexing `ahead` completes the list `spec`. */
  ghost predicate CompletesTokens(spec: Result<seq<Token>>, tokens: seq<Token>, ahead: Result<seq<Token>>) {
    && ahead.Ok? == spec.Ok?
    && (spec.Ok? ==> spec.value == tokens + ahead.value)
  }

  lemma OneMoreToken(s: string, spec: Result<seq<Token>>, tokens: seq<Token>)
    requires s != [] && !IsWhitespace(s[0]) && CompletesTokens(spec, tokens, Lex(s))
    ensures LexOne(s).Err? ==> spec.Err?
    ensures LexOne(s).Ok? ==> CompletesTokens(spec, tokens + [LexOne(s).value.0], Lex(LexOne(s).value.1))
  {
    if LexOne(s).Ok? {
      var (token, rest) := LexOne(s).value;
      if Lex(rest).Ok? {
        assert tokens + ([token] + Lex(rest).value) == tokens + [token] + Lex(rest).value;
      }
    }
  }

  method Tokenize(chars: string) returns (r: Result<seq<Token>>)
    ensures r == Lex(chars)
  {
    var tokens := [];
    var i := 0;
    assert chars[0..] == chars;
    while i < |chars|
      invariant i <= |chars|
      invariant CompletesTokens(Lex(chars), tokens, Lex(chars[i..]))
    {
      if IsWhitespace(chars[i]) {
        assert chars[i..][1..] == chars[i + 1..];
        i := i + 1;
        continue;
      }
      OneMoreToken(chars[i..], Lex(chars), tokens);
      var step :- TokenAt(chars, i);
      tokens := tokens + [step.0];
      i := step.1;
    }
    r := Ok(tokens + [TEof]);
  }
}
