/** Shared wrappers, and the few character classes the condition language, the
    data mappings and the timer texts have in common. */
module Common {

  datatype Option<+T> = None | Some(value: T)

  /** The source reports failures as messages; the model keeps only that it failed. */
  datatype Result<+T> = Ok(value: T) | Err {
    predicate IsFailure() { Err? }

    function PropagateFailure<U>(): Result<U>
      requires Err?
    {
      Err
    }

    function Extract(): T
      requires Ok?
    {
      value
    }
  }

  /** Identifiers of nodes, scopes and links: compared, never looked into. */
  type Id = nat

  /** Unicode White_Space, which `char::is_whitespace` tests. */
  predicate IsWhitespace(c: char) {
    || '\U{9}' <= c <= '\U{D}' || c == ' ' || c == '\U{85}' || c == '\U{A0}'
    || c == '\U{1680}' || '\U{2000}' <= c <= '\U{200A}' || c == '\U{2028}'
    || c == '\U{2029}' || c == '\U{202F}' || c == '\U{205F}' || c == '\U{3000}'
  }

  const LETTERS: string := LOWER + UPPER
  const LOWER: string := "abcdefghijklmnopqrstuvwxyz"
  const UPPER: string := "ABCDEFGHIJKLMNOPQRSTUVWXYZ"
  const DIGITS: string := "0123456789"

  /** A run of consecutive characters. */
  lemma RunIsRange(run: string, first: char, c: char)
    requires run != [] && forall i | 0 <= i < |run| :: run[i] as int == first as int + i
    ensures c in run <==> first as int <= c as int < first as int + |run|
  {
    if first as int <= c as int < first as int + |run| {
      assert run[c as int - first as int] == c;
    }
  }

  lemma LettersAre(c: char)
    ensures c in LETTERS <==> 'a' <= c <= 'z' || 'A' <= c <= 'Z'
  {
    RunIsRange(LOWER, 'a', c);
    RunIsRange(UPPER, 'A', c);
  }

  lemma DigitsAre(c: char)
    ensures c in DIGITS <==> IsDigit(c)
  {
    RunIsRange(DIGITS, '0', c);
  }

  predicate IsDigit(c: char) { '0' <= c <= '9' }

  /** Only white space, so that trimming leaves nothing. */
  predicate Blank(s: string) { forall i | 0 <= i < |s| :: IsWhitespace(s[i]) }

  function TrimStart(s: string): (r: string)
    ensures |r| <= |s| && r == s[|s| - |r|..] && Blank(s[..|s| - |r|])
    ensures r != [] ==> !IsWhitespace(r[0])
  {
    if s == [] || !IsWhitespace(s[0]) then s
    else
      var r := TrimStart(s[1..]);
      assert s[..|s| - |r|] == [s[0]] + s[1..][..|s| - 1 - |r|];
      r
  }

  function TrimEnd(s: string): (r: string)
    ensures |r| <= |s| && r == s[..|r|] && Blank(s[|r|..])
    ensures r != [] ==> !IsWhitespace(r[|r| - 1])
  {
    if s == [] || !IsWhitespace(s[|s| - 1]) then s
    else
      var r := TrimEnd(s[..|s| - 1]);
      assert s[|r|..] == s[..|s| - 1][|r|..] + [s[|s| - 1]];
      r
  }

  function Trim(s: string): string { TrimEnd(TrimStart(s)) }

  lemma Reassemble(s: string, suffix: string, middle: string)
    requires |middle| <= |suffix| <= |s| && suffix == s[|s| - |suffix|..] && middle == suffix[..|middle|]
    ensures s == s[..|s| - |suffix|] + (middle + suffix[|middle|..])
  {
  }

  /** Trimming takes white space off both ends. */
  lemma Margins(s: string) returns (before: string, middle: string, after: string)
    ensures middle == Trim(s) && s == before + (middle + after) && Blank(before) && Blank(after)
    ensures middle != [] ==> !IsWhitespace(middle[0])
  {
    var t := TrimStart(s);
    middle := TrimEnd(t);
    before, after := s[..|s| - |t|], t[|middle|..];
    Reassemble(s, t, middle);
  }

  lemma TrimKeepsSolid(s: string)
    requires s != [] && !IsWhitespace(s[0]) && !IsWhitespace(s[|s| - 1])
    ensures Trim(s) == s
  {
  }

  method TrimsToNothing(s: string) returns (blank: bool)
    ensures blank <==> Blank(s)
  {
    blank := Trim(s) == [];
    ghost var before, middle, after := Margins(s);
    assert middle != [] ==> s[|before|] == middle[0];
  }

  predicate AllDigits(s: string) { forall i | 0 <= i < |s| :: IsDigit(s[i]) }

  /** The value of a run of decimal digits. */
  function DigitsValue(s: string): nat
    requires AllDigits(s)
  {
    if s == [] then 0
    else
      assert IsDigit(s[|s| - 1]);
      DigitsValue(s[..|s| - 1]) * 10 + (s[|s| - 1] as int - '0' as int)
  }

  /** The shortest decimal spelling of `n`. */
  function Decimal(n: nat): (s: string)
    ensures s != [] && AllDigits(s)
    ensures DigitsValue(s) == n
  {
    var last := ['0' + (n % 10) as char];
    if n < 10 then last
    else
      var s := Decimal(n / 10) + last;
      assert s[..|s| - 1] == Decimal(n / 10);
      s
  }

  /** A permutation of `a` holds the last element of `a` somewhere; without it, it permutes the rest. */
  lemma TakeOut<T>(a: seq<T>, b: seq<T>) returns (j: nat, rest: seq<T>)
    requires a != [] && multiset(a) == multiset(b)
    ensures a == a[..|a| - 1] + [a[|a| - 1]]
    ensures j < |b| && b[j] == a[|a| - 1] && rest == b[..j] + b[j + 1..] && b == b[..j] + [b[j]] + b[j + 1..]
    ensures multiset(a[..|a| - 1]) == multiset(rest)
  {
    var n := |a| - 1;
    assert a == a[..n] + [a[n]];
    assert a[n] in multiset(b);
    j :| 0 <= j < |b| && b[j] == a[n];
    rest := b[..j] + b[j + 1..];
    assert b == b[..j] + [b[j]] + b[j + 1..];
    assert multiset(rest) == multiset(b) - multiset{b[j]};
    assert multiset(a[..n]) == multiset(a) - multiset{a[n]};
  }
}
