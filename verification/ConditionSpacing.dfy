/** White space around a condition never changes its tokens. */
module ConditionSpacing {
  import opened Common
  import opened ConditionLexer

  lemma {:induction false} LeadingSpace(space: string, s: string)
    requires Blank(space)
    ensures Lex(space + s) == Lex(s)
  {
    if space == [] {
      assert space + s == s;
    } else {
      assert (space + s)[0] == space[0] && (space + s)[1..] == space[1..] + s;
      LeadingSpace(space[1..], s);
    }
  }

  lemma RunBeforeSpace(p: char -> bool, s: string, w: char)
    requires !p(w)
    ensures Run(p, s + [w]) == Run(p, s)
  {
    assert forall i | 0 <= i < |s| :: (s + [w])[i] == s[i];
    RunIs(p, s + [w], Run(p, s));
  }

  lemma NumberBeforeSpace(s: string, w: char)
    requires IsWhitespace(w)
    ensures NumberLength(s + [w]) == NumberLength(s)
  {
    var whole := Run(IsDigit, s);
    RunBeforeSpace(IsDigit, s, w);
    if whole + 1 < |s| {
      assert (s + [w])[whole + 1..] == s[whole + 1..] + [w];
      RunBeforeSpace(IsDigit, s[whole + 1..], w);
    }
  }

  lemma StringCharBeforeSpace(s: string, w: char)
    requires s != [] && IsWhitespace(w)
    ensures StringChar(s + [w]) == StringChar(s)
  {
    if s[0] == '\\' && |s| >= 6 {
      assert (s + [w])[2..6] == s[2..6];
    } else if s[0] == '\\' && |s| == 5 && s[1] == 'u' {
      assert (s + [w])[2..6] == s[2..5] + [w];
      assert HexDigit(w).None?;
    }
  }

  /** `r` with one more character left over. */
  function Longer<T>(r: Result<(T, string)>, w: char): Result<(T, string)> {
    if r.Ok? then Ok((r.value.0, r.value.1 + [w])) else Err
  }

  lemma {:induction false} StringBodyBeforeSpace(quote: char, s: string, w: char)
    requires IsWhitespace(w) && !IsWhitespace(quote)
    ensures StringBody(quote, s + [w]) == Longer(StringBody(quote, s), w)
    decreases |s|
  {
    var all := s + [w];
    if s == [] {
      assert all == [w] && StringChar(all) == Ok((w, 1)) && all[1..] == [];
    } else if s[0] == quote {
      assert all[1..] == s[1..] + [w];
    } else {
      StringCharBeforeSpace(s, w);
      if StringChar(s).Ok? {
        var n := StringChar(s).value.1;
        assert all[n..] == s[n..] + [w];
        StringBodyBeforeSpace(quote, s[n..], w);
      }
    }
  }

  lemma StringAtBeforeSpace(s: string, w: char)
    requires s != [] && !IsWhitespace(s[0]) && IsWhitespace(w)
    ensures StringAt(s + [w]) == Longer(StringAt(s), w)
  {
    assert (s + [w])[0] == s[0] && (s + [w])[1..] == s[1..] + [w];
    StringBodyBeforeSpace(s[0], s[1..], w);
  }

  lemma NumberAtBeforeSpace(s: string, w: char)
    requires s != [] && IsDigit(s[0]) && IsWhitespace(w)
    ensures NumberAt(s + [w]) == Longer(NumberAt(s), w)
  {
    NumberBeforeSpace(s, w);
    var all, n := s + [w], NumberLength(s);
    assert all[..n] == s[..n] && all[n..] == s[n..] + [w];
  }

  lemma WordAtBeforeSpace(s: string, w: char)
    requires s != [] && IsIdentStart(s[0]) && IsWhitespace(w)
    ensures WordAt(s + [w]) == Longer(WordAt(s), w)
  {
    RunBeforeSpace(IsIdentContinue, s, w);
    var all, n := s + [w], Run(IsIdentContinue, s);
    assert all[..n] == s[..n] && all[n..] == s[n..] + [w];
  }

  lemma LexOneBeforeSpace(s: string, w: char)
    requires s != [] && IsWhitespace(w)
    ensures LexOne(s + [w]) == Longer(LexOne(s), w)
  {
    var all := s + [w];
    assert all[0] == s[0] && all[1..] == s[1..] + [w];
    assert PairToken(s[0], w).None?;
    if |s| > 1 && PairToken(s[0], s[1]).Some? {
      assert all[1] == s[1] && all[2..] == s[2..] + [w];
    } else if s[0] == '"' || s[0] == '\'' {
      StringAtBeforeSpace(s, w);
    } else if IsDigit(s[0]) {
      NumberAtBeforeSpace(s, w);
    } else if IsIdentStart(s[0]) {
      WordAtBeforeSpace(s, w);
    }
  }

  lemma {:induction false} LexBeforeSpace(s: string, w: char)
    requires IsWhitespace(w)
    ensures Lex(s + [w]) == Lex(s)
    decreases |s|
  {
    var all := s + [w];
    if s == [] {
      assert all == [w] && all[1..] == [];
    } else if IsWhitespace(s[0]) {
      assert all[1..] == s[1..] + [w];
      LexBeforeSpace(s[1..], w);
    } else {
      assert all[0] == s[0];
      LexOneBeforeSpace(s, w);
      if LexOne(s).Ok? {
        LexBeforeSpace(LexOne(s).value.1, w);
      }
    }
  }

  lemma {:induction false} TrailingSpace(s: string, space: string)
    requires Blank(space)
    ensures Lex(s + space) == Lex(s)
    decreases |space|
  {
    if space == [] {
      assert s + space == s;
    } else {
      var n := |space| - 1;
      assert s + space == (s + space[..n]) + [space[n]];
      LexBeforeSpace(s + space[..n], space[n]);
      TrailingSpace(s, space[..n]);
    }
  }

  lemma LexDropsMargins(before: string, s: string, after: string)
    requires Blank(before) && Blank(after)
    ensures Lex(before + (s + after)) == Lex(s)
  {
    LeadingSpace(before, s + after);
    TrailingSpace(s, after);
  }

  lemma LexIgnoresMargins(s: string)
    ensures Lex(Trim(s)) == Lex(s)
  {
    var before, middle, after := Margins(s);
    LexDropsMargins(before, middle, after);
  }
}
