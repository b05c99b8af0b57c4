/** What names and literals of a condition stand for: names, escapes in strings, and decimal fractions. */
module ConditionLiterals {
  import opened Common
  import opened ConditionSyntax
  import opened ConditionLexer
  import opened ConditionText

  // ----- names

  predicate IsNameChar(c: char) { c in LETTERS || c in DIGITS || c == '_' }

  predicate IsName(text: string) { text != [] && text[0] !in DIGITS && forall i | 0 <= i < |text| :: IsNameChar(text[i]) }

  const WORDS := {"and", "or", "not", "true", "false", "null"}

  lemma NameCharIs(c: char)
    ensures IsNameChar(c) <==> IsIdentContinue(c)
    ensures IsNameChar(c) && c !in DIGITS <==> IsIdentStart(c)
  {
    LettersAre(c);
    DigitsAre(c);
  }

  lemma NameIs(text: string)
    ensures IsName(text) <==> text != [] && IsIdentStart(text[0]) && forall i | 0 <= i < |text| :: IsIdentContinue(text[i])
  {
    forall i | 0 <= i < |text| ensures IsNameChar(text[i]) <==> IsIdentContinue(text[i]) { NameCharIs(text[i]); }
    if text != [] { NameCharIs(text[0]); }
  }

  lemma WordIsAt(text: string, rest: string)
    requires text != [] && IsIdentStart(text[0]) && forall i | 0 <= i < |text| :: IsIdentContinue(text[i])
    requires rest == [] || !IsIdentContinue(rest[0])
    ensures LexOne(text + rest) == Ok((WordToken(text), rest))
  {
    var all := text + rest;
    if rest != [] { assert all[|text|] == rest[0]; }
    RunIs(IsIdentContinue, all, |text|);
    assert all[..|text|] == text && all[|text|..] == rest;
    assert IsIdentStart(all[0]) && CharToken(all[0]).None?;
    if |all| > 1 { assert PairToken(all[0], all[1]).None?; }
  }

  lemma LexWord(text: string, rest: string, ts: seq<Token>)
    requires text != [] && !IsWhitespace(text[0]) && LexOne(text + rest) == Ok((WordToken(text), rest)) && Lex(rest) == Ok(ts)
    ensures Lex(text + rest) == Ok([WordToken(text)] + ts)
  {
    assert (text + rest)[0] == text[0];
  }

  lemma NameIsNoWord(name: string)
    requires name !in WORDS
    ensures WordToken(name) == TIdent(name)
  {
  }

  /** A name is read whole and as itself: letters, digits and underscores, no digit first, and none of the words. */
  lemma NamesAreRead(name: string, rest: string, ts: seq<Token>)
    requires IsName(name) && name !in WORDS && (rest == [] || !IsNameChar(rest[0])) && Lex(rest) == Ok(ts)
    ensures Lex(name + rest) == Ok([TIdent(name)] + ts)
  {
    NameIs(name);
    if rest != [] { NameCharIs(rest[0]); }
    WordIsAt(name, rest);
    LexWord(name, rest, ts);
    NameIsNoWord(name);
  }

  lemma NoTokenAt(s: string)
    requires s != [] && !IsIdentStart(s[0]) && !IsDigit(s[0]) && CharToken(s[0]).None? && !IsQuote(s[0])
    requires |s| > 1 ==> PairToken(s[0], s[1]).None?
    ensures LexOne(s).Err?
  {
  }

  lemma NoToken(c: char, rest: string)
    requires c !in "\"'()[].+-*/%<>!" && (c in "|&=" ==> rest == [] || rest[0] != c)
    ensures CharToken(c).None? && !IsQuote(c) && (rest != [] ==> PairToken(c, rest[0]).None?)
  {
  }

  /** No token begins with any other character; a bar, an ampersand and an equals sign have to be doubled. */
  lemma OtherCharactersFail(c: char, rest: string)
    requires !IsNameChar(c) && !IsWhitespace(c) && c !in "\"'()[].+-*/%<>!"
    requires c in "|&=" ==> rest == [] || rest[0] != c
    ensures Lex([c] + rest).Err?
  {
    NameCharIs(c);
    DigitsAre(c);
    NoToken(c, rest);
    NoTokenAt([c] + rest);
  }

  // ----- escapes

  /** What a letter stands for after a backslash. */
  const ESCAPES: seq<(char, char)> :=
    [('n', '\U{A}'), ('r', '\U{D}'), ('t', '\U{9}'), ('0', '\U{0}'), ('\\', '\\'), ('\'', '\''), ('"', '"'), ('/', '/')]

  lemma BodyGoesOn(quote: char, s: string, c: char, n: nat, text: string, rest: string)
    requires s != [] && s[0] != quote && n <= |s| && StringChar(s) == Ok((c, n)) && StringBody(quote, s[n..]) == Ok((text, rest))
    ensures StringBody(quote, s) == Ok(([c] + text, rest))
  {
  }

  lemma EscapeStandsFor(k: nat, tail: string)
    requires k < |ESCAPES|
    ensures StringChar(['\\', ESCAPES[k].0] + tail) == Ok((ESCAPES[k].1, 2))
  {
  }

  /** Each escape is read as the character it stands for, anywhere in a string. */
  lemma EscapesAreRead(quote: char, k: nat, tail: string, text: string, rest: string)
    requires IsQuote(quote) && k < |ESCAPES| && StringBody(quote, tail) == Ok((text, rest))
    ensures StringBody(quote, ['\\', ESCAPES[k].0] + tail) == Ok(([ESCAPES[k].1] + text, rest))
  {
    EscapeStandsFor(k, tail);
    var s := ['\\', ESCAPES[k].0] + tail;
    assert s[2..] == tail;
    BodyGoesOn(quote, s, ESCAPES[k].1, 2, text, rest);
  }

  /** Any other letter but `u` fails, and so does a backslash at the end. */
  lemma OtherEscapesFail(quote: char, c: char, tail: string)
    requires IsQuote(quote) && c != 'u' && forall k | 0 <= k < |ESCAPES| :: ESCAPES[k].0 != c
    ensures StringBody(quote, ['\\', c] + tail).Err? && StringBody(quote, ['\\']).Err?
  {
    assert c != ESCAPES[0].0 && c != ESCAPES[1].0 && c != ESCAPES[2].0 && c != ESCAPES[3].0
        && c != ESCAPES[4].0 && c != ESCAPES[5].0 && c != ESCAPES[6].0 && c != ESCAPES[7].0;
    assert StringChar(['\\', c] + tail).Err?;
  }

  // ----- code points

  const HEX_LOWER: string := "0123456789abcdef"
  const HEX_UPPER: string := "0123456789ABCDEF"

  predicate IsHex(c: char, d: nat) { d < 16 && (c == HEX_LOWER[d] || c == HEX_UPPER[d]) }

  /** Hexadecimal digits, and the number they stand for. */
  predicate IsHexOf(s: string, n: nat) {
    && s != []
    && if |s| == 1 then IsHex(s[0], n) else IsHex(s[|s| - 1], n % 16) && IsHexOf(s[..|s| - 1], n / 16)
  }

  function Limit(digits: nat): nat { if digits == 0 then 1 else 16 * Limit(digits - 1) }

  lemma HexIsRead(c: char, d: nat)
    requires IsHex(c, d)
    ensures HexDigit(c) == Some(d) && c != '+'
  {
  }

  lemma HexIsKnown(c: char)
    requires HexDigit(c).Some?
    ensures IsHex(c, HexDigit(c).value)
  {
    DigitsAre(c);
  }

  lemma {:induction false} HexIsBelow(s: string, n: nat)
    requires IsHexOf(s, n)
    ensures n < Limit(|s|)
  {
    if |s| > 1 { HexIsBelow(s[..|s| - 1], n / 16); }
  }

  lemma LimitIsWide(k: nat)
    requires k <= 4
    ensures Limit(k) <= 0x10000 && (k < 4 ==> Limit(k) <= 0x1000)
  {
    assert Limit(4) == 16 * Limit(3) && Limit(3) == 16 * Limit(2) && Limit(2) == 16 * Limit(1) && Limit(1) == 16;
  }

  lemma {:induction false} HexTextIsRead(s: string, n: nat)
    requires |s| <= 4 && IsHexOf(s, n)
    ensures HexValue(s) == Some(n) && n < 0x10000 && s[0] != '+'
  {
    HexIsBelow(s, n);
    LimitIsWide(|s|);
    if |s| == 1 {
      HexIsRead(s[0], n);
    } else {
      HexIsRead(s[|s| - 1], n % 16);
      HexTextIsRead(s[..|s| - 1], n / 16);
      HexIsBelow(s[..|s| - 1], n / 16);
      LimitIsWide(|s| - 1);
    }
  }

  lemma {:induction false} HexTextFails(s: string, i: nat)
    requires i < |s| <= 4 && HexDigit(s[i]).None?
    ensures HexValue(s).None?
  {
    if i < |s| - 1 { HexTextFails(s[..|s| - 1], i); }
  }

  lemma CodeIsDecoded(hex: string, n: nat)
    requires |hex| == 4 && (IsHexOf(hex, n) || (hex[0] == '+' && IsHexOf(hex[1..], n)))
    ensures n < 0x10000 && Decoded(hex) == if 0xD800 <= n < 0xE000 then None else Some(n as char)
  {
    if IsHexOf(hex, n) { HexTextIsRead(hex, n); } else { HexTextIsRead(hex[1..], n); }
  }

  /** The escape of a code point, four hexadecimal digits or a plus sign and three, is read as that character;
      surrogates have none. */
  lemma CodePointsAreRead(quote: char, hex: string, n: nat, tail: string, text: string, rest: string)
    requires IsQuote(quote) && StringBody(quote, tail) == Ok((text, rest))
    requires |hex| == 4 && (IsHexOf(hex, n) || (hex[0] == '+' && IsHexOf(hex[1..], n)))
    ensures n < 0x10000
    ensures var r := StringBody(quote, "\\u" + hex + tail);
            if 0xD800 <= n < 0xE000 then r.Err? else r == Ok(([n as char] + text, rest))
  {
    var s := "\\u" + hex + tail;
    CodeIsDecoded(hex, n);
    assert s[2..6] == hex && s[6..] == tail;
    if !(0xD800 <= n < 0xE000) {
      assert StringChar(s) == Ok((n as char, 6));
      BodyGoesOn(quote, s, n as char, 6, text, rest);
    }
  }

  /** Any other character among the four fails, and so do fewer than four. */
  lemma OtherCodesFail(quote: char, hex: string, i: nat, tail: string)
    requires IsQuote(quote) && |hex| <= 4 && (|hex| < 4 ==> tail == [])
    requires |hex| == 4 ==> i < 4 && (forall d: nat :: !IsHex(hex[i], d)) && (hex[0] == '+' ==> i > 0)
    ensures StringBody(quote, "\\u" + hex + tail).Err?
  {
    var s := "\\u" + hex + tail;
    if |hex| == 4 {
      assert s[2..6] == hex;
      if HexDigit(hex[i]).Some? { HexIsKnown(hex[i]); }
      if hex[0] == '+' { HexTextFails(hex[1..], i - 1); } else { HexTextFails(hex, i); }
    }
    assert StringChar(s).Err?;
  }

  // ----- fractions

  function Power(places: nat): nat { if places == 0 then 1 else 10 * Power(places - 1) }

  lemma {:induction false} ScaledIs(n: nat, places: nat)
    ensures Scaled(n, places) * (Power(places) as real) == n as real
  {
    if places > 0 {
      ScaledIs(n, places - 1);
      var before, p := Scaled(n, places - 1), Power(places - 1) as real;
      assert Power(places) as real == 10.0 * p;
      assert (before / 10.0) * (10.0 * p) == before * p;
    }
  }

  lemma Shifted(a: nat, before: nat, n: nat, last: nat)
    ensures (a * Power(n) + before) * 10 + last == a * Power(n + 1) + (before * 10 + last)
  {
    var p := Power(n);
    assert Power(n + 1) == 10 * p;
    assert a * (10 * p) == a * p * 10;
  }

  lemma LastDigit(s: string)
    requires AllDigits(s) && s != []
    ensures AllDigits(s[..|s| - 1]) && s[|s| - 1] >= '0'
    ensures DigitsValue(s) == DigitsValue(s[..|s| - 1]) * 10 + (s[|s| - 1] as int - '0' as int)
  {
    assert IsDigit(s[|s| - 1]);
  }

  lemma {:induction false} DigitsJoin(a: string, b: string)
    requires AllDigits(a) && AllDigits(b)
    ensures AllDigits(a + b) && DigitsValue(a + b) == DigitsValue(a) * Power(|b|) + DigitsValue(b)
  {
    if b == [] {
      assert a + b == a;
    } else {
      var n, all := |b| - 1, a + b;
      LastDigit(b);
      assert all[..|all| - 1] == a + b[..n] && all[|all| - 1] == b[n];
      DigitsJoin(a, b[..n]);
      LastDigit(all);
      Shifted(DigitsValue(a), DigitsValue(b[..n]), n, b[n] as int - '0' as int);
    }
  }

  lemma WholeDigits(a: string, b: string)
    requires AllDigits(a)
    ensures Run(IsDigit, a + ['.'] + b) == |a|
  {
    RunIs(IsDigit, a + ['.'] + b, |a|);
  }

  lemma FractionText(a: string, b: string)
    requires AllDigits(a) && AllDigits(b) && a != [] && b != []
    ensures var text := a + ['.'] + b;
            AllDigits(a + b) && NumberLength(text) == |text| && NumberValue(text) == Scaled(DigitsValue(a + b), |b|)
  {
    var text := a + ['.'] + b;
    WholeDigits(a, b);
    assert text[..|a|] == a && text[|a| + 1..] == b;
    RunIs(IsDigit, b, |b|);
  }

  /** `value` is `whole`, and `part` in as many decimal places. */
  ghost predicate IsDecimal(value: real, whole: nat, part: nat, places: nat) {
    value * (Power(places) as real) == (whole * Power(places) + part) as real
  }

  lemma ScaledIsDecimal(n: nat, whole: nat, part: nat, places: nat)
    requires n == whole * Power(places) + part
    ensures IsDecimal(Scaled(n, places), whole, part, places)
  {
    ScaledIs(n, places);
  }

  /** Digits, a point and digits: the value is the whole part and as many decimal places as there are digits. */
  lemma FractionsAreRead(a: string, b: string)
    requires AllDigits(a) && AllDigits(b) && a != [] && b != []
    ensures NumberLength(a + ['.'] + b) == |a + ['.'] + b|
    ensures IsDecimal(NumberValue(a + ['.'] + b), DigitsValue(a), DigitsValue(b), |b|)
  {
    FractionText(a, b);
    DigitsJoin(a, b);
    ScaledIsDecimal(DigitsValue(a + b), DigitsValue(a), DigitsValue(b), |b|);
  }
}
