/** Which texts are durations and repeating intervals. */
module DurationText {
  import opened Common
  import opened Durations

  // ----- the grammar of durations

  /** The mark between dates and times, or a number with its unit. */
  datatype Part = Mark | Piece(digits: Digits, unit: char)

  function Spell(parts: seq<Part>): string {
    if parts == [] then []
    else (if parts[0].Mark? then "T" else parts[0].digits + [parts[0].unit]) + Spell(parts[1..])
  }

  /** The units before the mark and after it, in seconds: a year has 365 days and a month 30. */
  const DATE_UNITS: map<char, nat> := map['Y' := 31536000, 'M' := 2592000, 'W' := 604800, 'D' := 86400]
  const TIME_UNITS: map<char, nat> := map['H' := 3600, 'M' := 60, 'S' := 1]

  function Units(inTime: bool): map<char, nat> { if inTime then TIME_UNITS else DATE_UNITS }

  lemma UnitIs(inTime: bool, c: char)
    ensures Unit(inTime, c) == if c in Units(inTime) then Some(Units(inTime)[c]) else None
  {
  }

  /** Numbers have digits and a unit, those of times after a mark and those of dates before it. */
  predicate WellFormed(parts: seq<Part>, inTime: bool) {
    parts == [] ||
    if parts[0].Mark? then WellFormed(parts[1..], true)
    else parts[0].digits != [] && parts[0].unit in Units(inTime) && WellFormed(parts[1..], inTime)
  }

  /** What the parts are worth in seconds. */
  function Worth(parts: seq<Part>, inTime: bool): nat
    requires WellFormed(parts, inTime)
  {
    if parts == [] then 0
    else if parts[0].Mark? then Worth(parts[1..], true)
    else DigitsValue(parts[0].digits) * Units(inTime)[parts[0].unit] + Worth(parts[1..], inTime)
  }

  function Listed(parts: seq<Part>, inTime: bool): seq<Segment>
    requires WellFormed(parts, inTime)
  {
    if parts == [] then []
    else if parts[0].Mark? then Listed(parts[1..], true)
    else [Segment(parts[0].digits, Units(inTime)[parts[0].unit])] + Listed(parts[1..], inTime)
  }

  lemma {:induction false} SumIsWorth(parts: seq<Part>, inTime: bool)
    requires WellFormed(parts, inTime)
    ensures Sum(Listed(parts, inTime)) == Worth(parts, inTime)
    ensures Listed(parts, inTime) != [] <==> exists i | 0 <= i < |parts| :: parts[i].Piece?
  {
    if parts != [] {
      SumIsWorth(parts[1..], inTime || parts[0].Mark?);
      assert forall i | 0 <= i < |parts[1..]| :: parts[1..][i] == parts[i + 1];
      if parts[0].Piece? {
        var first, rest := Segment(parts[0].digits, Units(inTime)[parts[0].unit]), Listed(parts[1..], inTime);
        assert ([first] + rest)[1..] == rest;
      } else if i :| 0 <= i < |parts| && parts[i].Piece? {
        assert parts[1..][i - 1].Piece?;
      }
    }
  }

  lemma {:induction false} DigitsAreCollected(digits: Digits, rest: string, num: Digits, inTime: bool)
    ensures Segments(digits + rest, num, inTime) == Segments(rest, num + digits, inTime)
    decreases |digits|
  {
    if digits == [] {
      assert digits + rest == rest && num + digits == num;
    } else {
      var s := digits + rest;
      assert s[0] == digits[0] && s[1..] == digits[1..] + rest;
      DigitsAreCollected(digits[1..], rest, num + [digits[0]], inTime);
      assert num + [digits[0]] + digits[1..] == num + digits;
    }
  }

  lemma PieceIsRead(digits: Digits, unit: char, rest: string, inTime: bool)
    requires digits != [] && Unit(inTime, unit).Some?
    ensures Segments(digits + [unit] + rest, [], inTime) ==
            var more := Segments(rest, [], inTime);
            if more.None? then None else Some([Segment(digits, Unit(inTime, unit).value)] + more.value)
  {
    assert digits + [unit] + rest == digits + ([unit] + rest);
    DigitsAreCollected(digits, [unit] + rest, [], inTime);
    assert [] + digits == digits;
    assert ([unit] + rest)[0] == unit && ([unit] + rest)[1..] == rest;
  }

  lemma {:induction false} SpellingIsRead(parts: seq<Part>, inTime: bool)
    requires WellFormed(parts, inTime)
    ensures Segments(Spell(parts), [], inTime) == Some(Listed(parts, inTime))
    decreases |parts|
  {
    if parts != [] {
      var rest := Spell(parts[1..]);
      if parts[0].Mark? {
        SpellingIsRead(parts[1..], true);
        assert ("T" + rest)[0] == 'T' && ("T" + rest)[1..] == rest;
      } else {
        SpellingIsRead(parts[1..], inTime);
        UnitIs(inTime, parts[0].unit);
        PieceIsRead(parts[0].digits, parts[0].unit, rest, inTime);
      }
    }
  }

  lemma {:induction false} WhatIsReadIsSpelled(s: string, num: Digits, inTime: bool) returns (parts: seq<Part>)
    requires Segments(s, num, inTime).Some?
    ensures WellFormed(parts, inTime) && Spell(parts) == num + s && Some(Listed(parts, inTime)) == Segments(s, num, inTime)
    decreases |s|
  {
    if s == [] {
      parts := [];
    } else if s[0] == 'T' {
      var rest := WhatIsReadIsSpelled(s[1..], [], true);
      parts := [Mark] + rest;
      assert parts[1..] == rest;
      assert Spell(parts) == "T" + s[1..] == s;
    } else if IsDigit(s[0]) {
      parts := WhatIsReadIsSpelled(s[1..], num + [s[0]], inTime);
      assert num + [s[0]] + s[1..] == num + s;
    } else {
      var rest := WhatIsReadIsSpelled(s[1..], [], inTime);
      UnitIs(inTime, s[0]);
      parts := [Piece(num, s[0])] + rest;
      assert parts[1..] == rest;
      assert Spell(parts) == num + [s[0]] + s[1..] == num + s;
    }
  }

  /** `body` is a list of well-formed parts whose exact sum is `n`. */
  ghost predicate IsSpelled(parts: seq<Part>, body: string, n: nat) {
    && WellFormed(parts, false) && Spell(parts) == body && Worth(parts, false) == n
    && exists i | 0 <= i < |parts| :: parts[i].Piece?
  }

  /** A body is accepted exactly when it consists of well-formed parts, at least one of them a number, and
      their exact sum fits into 64 bits; the result is that sum. */
  lemma BodiesAreExact(body: string, n: nat)
    ensures InSeconds(Segments(body, [], false)) == Ok(n) <==> n <= MAX_U64 && exists parts :: IsSpelled(parts, body, n)
  {
    if InSeconds(Segments(body, [], false)) == Ok(n) {
      var parts := WhatIsReadIsSpelled(body, [], false);
      SumIsWorth(parts, false);
      assert [] + body == body;
      assert IsSpelled(parts, body, n);
    } else if n <= MAX_U64 && exists parts :: IsSpelled(parts, body, n) {
      var parts :| IsSpelled(parts, body, n);
      SumIsWorth(parts, false);
      SpellingIsRead(parts, false);
    }
  }

  /** The same for the whole text, which begins with a `P` between margins. */
  lemma DurationsAreExact(text: string, n: nat)
    ensures Duration(text) == Ok(n) <==>
            && Trim(text) != [] && Trim(text)[0] == 'P'
            && n <= 0xFFFF_FFFF_FFFF_FFFF && exists parts :: IsSpelled(parts, Trim(text)[1..], n)
  {
    if Trim(text) != [] { BodiesAreExact(Trim(text)[1..], n); }
  }

  function SecondsParts(n: nat): seq<Part> { [Mark, Piece(Decimal(n), 'S')] }

  lemma SecondsAreSpelled(n: nat)
    ensures Spell(SecondsParts(n)) == "T" + (Decimal(n) + "S")
    ensures WellFormed(SecondsParts(n), false) && Listed(SecondsParts(n), false) == [Segment(Decimal(n), 1)]
  {
    var parts, last := SecondsParts(n), [Piece(Decimal(n), 'S')];
    assert parts[1..] == last && last[1..] == [];
    assert Spell(last) == Decimal(n) + "S";
    assert WellFormed(last, true) && Listed(last, true) == [Segment(Decimal(n), 1)];
  }

  lemma SumOfOne(segment: Segment)
    ensures Sum([segment]) == DigitsValue(segment.digits) * segment.seconds
  {
    assert [segment][1..] == [];
  }

  /** Seconds are read back, up to the largest 64-bit number. */
  lemma SecondsRoundTrip(n: nat)
    ensures Duration("PT" + Decimal(n) + "S") == if n <= MAX_U64 then Ok(n) else Err
  {
    var s := "PT" + Decimal(n) + "S";
    TrimKeepsSolid(s);
    SecondsAreSpelled(n);
    SpellingIsRead(SecondsParts(n), false);
    assert s[1..] == "T" + (Decimal(n) + "S");
    SumOfOne(Segment(Decimal(n), 1));
  }

  // ----- repeating intervals

  const MAX_U32: nat := 0xFFFF_FFFF

  predicate StartsWith(s: string, i: nat, pattern: string) { i + |pattern| <= |s| && s[i..i + |pattern|] == pattern }

  /** The first position from `i` on where `pattern` occurs. */
  function Find(s: string, pattern: string, i: nat): (r: Option<nat>)
    requires i <= |s|
    ensures r.Some? ==> i <= r.value <= |s| && StartsWith(s, r.value, pattern)
    ensures forall j | i <= j < (if r.Some? then r.value else |s|) :: !StartsWith(s, j, pattern)
    decreases |s| - i
  {
    if StartsWith(s, i, pattern) then Some(i)
    else if i == |s| then None
    else Find(s, pattern, i + 1)
  }

  /** A repetition count: digits, possibly after a plus sign, within 32 bits. */
  function Count(text: string): Result<nat> {
    var digits := if text != [] && text[0] == '+' then text[1..] else text;
    if digits == [] || !AllDigits(digits) || DigitsValue(digits) > MAX_U32 then Err else Ok(DigitsValue(digits))
  }

  datatype Repeating = Repeating(repetitions: Option<nat>, interval: nat)

  /** The part before the duration, and the duration. */
  function Combined(head: string, duration: string): Result<Repeating>
    requires head != []
  {
    if head == "R" then
      var interval :- Duration(duration);
      Ok(Repeating(None, interval))
    else
      var count :- Count(head[1..]);
      var interval :- Duration(duration);
      Ok(Repeating(Some(count), interval))
  }

  function Interval(s: string): Result<Repeating>
    requires s != [] && s[0] == 'R'
  {
    var slash := Find(s, "/", 0);
    if slash.Some? then Combined(s[..slash.value], s[slash.value + 1..])
    else
      var pt := Find(s, "PT", 1);
      if pt.None? then Err else Combined(s[..pt.value], s[pt.value..])
  }

  lemma {:induction false} NoUnitP(s: string, num: Digits, inTime: bool, i: nat)
    requires i < |s| && s[i] == 'P'
    ensures Segments(s, num, inTime).None?
    decreases |s|
  {
    if i > 0 {
      var j := i - 1;
      assert s[1..][j] == 'P';
      if s[0] == 'T' {
        NoUnitP(s[1..], [], true, j);
      } else if IsDigit(s[0]) {
        NoUnitP(s[1..], num + [s[0]], inTime, j);
      } else {
        NoUnitP(s[1..], [], inTime, j);
      }
    }
  }

  lemma PartAt(before: string, middle: string, after: string, i: nat)
    requires i < |before + (middle + after)|
    ensures var c := (before + (middle + after))[i];
            || (i < |before| && c == before[i])
            || (|before| <= i < |before| + |middle| && c == middle[i - |before|])
            || (|before| + |middle| <= i && c == after[i - |before| - |middle|])
  {
  }

  /** Trimming keeps what starts with ink, and all the ink in it. */
  lemma TrimKeepsInk(s: string, i: nat)
    requires 0 < i < |s| && !IsWhitespace(s[0]) && !IsWhitespace(s[i])
    ensures i < |Trim(s)| && Trim(s)[0] == s[0] && Trim(s)[i] == s[i]
  {
    var before, middle, after := Margins(s);
    PartAt(before, middle, after, 0);
    PartAt(before, middle, after, i);
  }

  /** A second `P` is never part of a duration. */
  lemma SecondPFails(s: string, i: nat)
    requires 0 < i < |s| && s[0] == 'P' && s[i] == 'P'
    ensures Duration(s).Err?
  {
    TrimKeepsInk(s, i);
    var t := Trim(s);
    assert t[1..][i - 1] == 'P';
    NoUnitP(t[1..], [], false, i - 1);
  }

  predicate HasNo(s: string, c: char) { forall i | 0 <= i < |s| :: s[i] != c }

  lemma OccursAt(s: string, i: nat)
    ensures StartsWith(s, i, "/") <==> i < |s| && s[i] == '/'
    ensures StartsWith(s, i, "PT") <==> i + 1 < |s| && s[i] == 'P' && s[i + 1] == 'T'
  {
    if i < |s| { assert s[i..i + 1] == [s[i]]; }
    if i + 1 < |s| { assert s[i..i + 2] == [s[i], s[i + 1]]; }
  }

  /** The first of several positions. */
  lemma FindIs(s: string, pattern: string, i: nat, k: nat)
    requires i <= k <= |s| && StartsWith(s, k, pattern) && forall j | i <= j < k :: !StartsWith(s, j, pattern)
    ensures Find(s, pattern, i) == Some(k)
  {
  }

  lemma SlashForm(k: string, d: string)
    requires HasNo(k, '/')
    ensures Interval("R" + k + "/" + d) == Combined("R" + k, d)
  {
    var s, n := "R" + k + "/" + d, |k| + 1;
    forall j | 0 <= j <= n ensures StartsWith(s, j, "/") <==> j == n {
      OccursAt(s, j);
      assert s[j] == if j == 0 then 'R' else if j < n then k[j - 1] else '/';
    }
    FindIs(s, "/", 0, n);
    assert s[..n] == "R" + k && s[n + 1..] == d;
  }

  lemma NoSlash(s: string)
    requires HasNo(s, '/')
    ensures Find(s, "/", 0).None?
  {
    forall j | 0 <= j <= |s| ensures !StartsWith(s, j, "/") {
      OccursAt(s, j);
    }
  }

  lemma CompactForm(s: string, p: nat)
    requires s != [] && s[0] == 'R' && HasNo(s, '/') && 1 <= p <= |s| && Find(s, "PT", 1) == Some(p)
    ensures Interval(s) == Combined(s[..p], s[p..])
  {
    NoSlash(s);
  }

  lemma NotACount(k: string, i: nat)
    requires i < |k| && k[i] == 'P'
    ensures Count(k).Err?
  {
    var digits := if k[0] == '+' then k[1..] else k;
    assert digits[if k[0] == '+' then i - 1 else i] == 'P';
  }

  lemma CharAt(k: string, d: string, j: nat)
    requires j < |"R" + k + d|
    ensures ("R" + k + d)[j] == if j == 0 then 'R' else if j <= |k| then k[j - 1] else d[j - 1 - |k|]
  {
  }

  /** Where the compact form is split: before the duration, or inside the count. */
  lemma SplitOfCompact(k: string, d: string) returns (p: nat)
    requires StartsWith(d, 0, "PT")
    ensures 1 <= p <= |k| + 1 && Find("R" + k + d, "PT", 1) == Some(p) && d[0] == 'P'
    ensures p <= |k| ==> p < |k| && k[p - 1] == 'P'
  {
    var s, n := "R" + k + d, |k| + 1;
    OccursAt(d, 0);
    CharAt(k, d, n);
    CharAt(k, d, n + 1);
    OccursAt(s, n);
    p := Find(s, "PT", 1).value;
    OccursAt(s, p);
    CharAt(k, d, p);
    CharAt(k, d, p + 1);
  }

  /** A count that holds a `P` is refused in both forms. */
  lemma BothFail(k: string, d: string, p: nat)
    requires HasNo(k, '/') && HasNo(d, '/') && d != [] && d[0] == 'P' && 1 <= p < |k| && k[p - 1] == 'P'
    ensures Combined("R" + k, d).Err? && Combined(("R" + k + d)[..p], ("R" + k + d)[p..]).Err?
  {
    var s, n := "R" + k + d, |k| + 1;
    NotACount(k, p - 1);
    assert ("R" + k)[1..] == k;
    CharAt(k, d, p);
    CharAt(k, d, n);
    SecondPFails(s[p..], n - p);
  }

  /** With and without a slash, an interval is the same, whatever stands for the count. */
  lemma FormsAgree(k: string, d: string)
    requires HasNo(k, '/') && HasNo(d, '/') && StartsWith(d, 0, "PT")
    ensures Interval("R" + k + "/" + d) == Interval("R" + k + d)
  {
    var s := "R" + k + d;
    SlashForm(k, d);
    var p := SplitOfCompact(k, d);
    forall j | 0 <= j < |s| ensures s[j] != '/' { CharAt(k, d, j); }
    CompactForm(s, p);
    if p == |k| + 1 {
      assert s[..p] == "R" + k && s[p..] == d;
    } else {
      BothFail(k, d, p);
    }
  }

  // ----- what an interval means

  /** `k` is a count: digits, possibly after a plus sign, that fit into 32 bits. */
  ghost predicate IsCount(k: string, n: nat) {
    var digits := if k != [] && k[0] == '+' then k[1..] else k;
    digits != [] && AllDigits(digits) && DigitsValue(digits) == n <= 0xFFFF_FFFF
  }

  /** An interval is accepted exactly if its duration is and it has a count or none. The count is the number of
      repetitions; without one there is no end to them. By `FormsAgree` the same holds of the compact form. */
  lemma IntervalsAreExact(k: string, d: string, r: Repeating)
    requires HasNo(k, '/')
    ensures Interval("R" + k + "/" + d) == Ok(r) <==>
            && Duration(d) == Ok(r.interval)
            && if k == [] then r.repetitions.None? else r.repetitions.Some? && IsCount(k, r.repetitions.value)
  {
    SlashForm(k, d);
    assert ("R" + k)[1..] == k && ("R" + k == "R" <==> k == []);
  }

  /** Without a slash and without a time there is no interval. */
  lemma OtherIntervalsFail(s: string)
    requires s != [] && s[0] == 'R' && HasNo(s, '/')
    requires forall i | 0 < i < |s| - 1 :: !(s[i] == 'P' && s[i + 1] == 'T')
    ensures Interval(s).Err?
  {
    NoSlash(s);
    forall j | 1 <= j <= |s| ensures !StartsWith(s, j, "PT") { OccursAt(s, j); }
  }
}
