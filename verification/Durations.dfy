/** Durations of timers, in seconds, with 64-bit arithmetic that is checked for overflow. */
module Durations {
  import opened Common

  const MAX_U64: nat := 0xFFFF_FFFF_FFFF_FFFF

  /** The seconds of a unit; dates and times have different ones. */
  function Unit(inTime: bool, c: char): Option<nat> {
    if !inTime then
      match c
      case 'Y' => Some(365 * 86400)
      case 'M' => Some(30 * 86400)
      case 'W' => Some(7 * 86400)
      case 'D' => Some(86400)
      case _ => None
    else
      match c
      case 'H' => Some(3600)
      case 'M' => Some(60)
      case 'S' => Some(1)
      case _ => None
  }

  type Digits = s: string | AllDigits(s) witness ""

  /** A number and the seconds of its unit. */
  datatype Segment = Segment(digits: Digits, seconds: nat)

  /** The segments of a text, if it consists of segments and marks only; `num` are digits already read. */
  function Segments(s: string, num: Digits, inTime: bool): Option<seq<Segment>> {
    if s == [] then
      if num == [] then Some([]) else None
    else if s[0] == 'T' then
      if num == [] then Segments(s[1..], [], true) else None
    else if IsDigit(s[0]) then Segments(s[1..], num + [s[0]], inTime)
    else if num == [] || Unit(inTime, s[0]).None? then None
    else
      var rest := Segments(s[1..], [], inTime);
      if rest.None? then None else Some([Segment(num, Unit(inTime, s[0]).value)] + rest.value)
  }

  /** The exact sum. */
  function Sum(segments: seq<Segment>): nat {
    if segments == [] then 0
    else DigitsValue(segments[0].digits) * segments[0].seconds + Sum(segments[1..])
  }

  /** A trimmed text that starts with `P`, has at least one segment, and whose exact sum fits. */
  function Duration(text: string): Result<nat> {
    var s := Trim(text);
    if s == [] || s[0] != 'P' then Err else InSeconds(Segments(s[1..], [], false))
  }

  function InSeconds(segments: Option<seq<Segment>>): Result<nat> {
    if segments.None? || segments.value == [] || Sum(segments.value) > MAX_U64 then Err else Ok(Sum(segments.value))
  }

  lemma {:induction false} SumJoin(a: seq<Segment>, b: seq<Segment>)
    ensures Sum(a + b) == Sum(a) + Sum(b)
  {
    if a == [] {
      assert a + b == b;
    } else {
      assert (a + b)[1..] == a[1..] + b;
      SumJoin(a[1..], b);
    }
  }

  lemma SumGrows(a: seq<Segment>, segment: Segment, b: seq<Segment>)
    ensures Sum(a + [segment] + b) >= Sum(a) + DigitsValue(segment.digits) * segment.seconds
  {
    SumJoin(a + [segment], b);
    SumJoin(a, [segment]);
    assert [segment][1..] == [];
  }

  lemma UnitsArePositive(inTime: bool, c: char)
    requires Unit(inTime, c).Some?
    ensures Unit(inTime, c).value >= 1
  {
  }

  /** A unit makes a number no smaller, so a number that does not fit makes the sum not fit. */
  lemma ProductGrows(n: nat, seconds: nat)
    requires seconds >= 1
    ensures n * seconds >= n
  {
  }

  // ----- the loop

  /** The segments `done` and those still to come are all segments. */
  ghost predicate Ahead(all: Option<seq<Segment>>, done: seq<Segment>, rest: Option<seq<Segment>>) {
    all.Some? == rest.Some? && (all.Some? ==> all.value == done + rest.value)
  }

  lemma OneMore(all: Option<seq<Segment>>, done: seq<Segment>, s: string, num: Digits, inTime: bool)
    requires s != [] && s[0] != 'T' && !IsDigit(s[0]) && num != [] && Unit(inTime, s[0]).Some?
    requires Ahead(all, done, Segments(s, num, inTime))
    ensures var segment := Segment(num, Unit(inTime, s[0]).value);
            && Ahead(all, done + [segment], Segments(s[1..], [], inTime))
            && (all.Some? ==> Sum(all.value) >= Sum(done) + DigitsValue(num) * segment.seconds)
            && Sum(done + [segment]) == Sum(done) + DigitsValue(num) * segment.seconds
            && segment.seconds >= 1
  {
    UnitsArePositive(inTime, s[0]);
    var segment, rest := Segment(num, Unit(inTime, s[0]).value), Segments(s[1..], [], inTime);
    SumJoin(done, [segment]);
    assert [segment][1..] == [];
    if rest.Some? {
      assert done + ([segment] + rest.value) == done + [segment] + rest.value;
      SumGrows(done, segment, rest.value);
    }
  }

  /** A mark, a digit, or a character that ends the reading. */
  lemma OtherCharacter(all: Option<seq<Segment>>, done: seq<Segment>, s: string, num: Digits, inTime: bool)
    requires s != [] && Ahead(all, done, Segments(s, num, inTime))
    ensures s[0] == 'T' ==> if num == [] then Ahead(all, done, Segments(s[1..], [], true)) else all.None?
    ensures s[0] != 'T' && IsDigit(s[0]) ==> Ahead(all, done, Segments(s[1..], num + [s[0]], inTime))
    ensures s[0] != 'T' && !IsDigit(s[0]) && (num == [] || Unit(inTime, s[0]).None?) ==> all.None?
  {
  }

  /** A segment that is too long for 64 bits, alone or with those before it. */
  lemma TooLong(all: Option<seq<Segment>>, done: seq<Segment>, value: nat, seconds: nat)
    requires seconds >= 1 && (all.Some? ==> Sum(all.value) >= Sum(done) + value * seconds)
    requires value > MAX_U64 || value * seconds > MAX_U64 || Sum(done) + value * seconds > MAX_U64
    ensures InSeconds(all).Err?
  {
    ProductGrows(value, seconds);
  }

  method Seconds(body: string) returns (r: Result<nat>)
    ensures r == InSeconds(Segments(body, [], false))
  {
    var total: nat, num: Digits, inTime, hasValue := 0, [], false, false;
    ghost var all, done := Segments(body, [], false), [];
    assert body[0..] == body;
    for i := 0 to |body|
      invariant Ahead(all, done, Segments(body[i..], num, inTime))
      invariant total == Sum(done) <= MAX_U64 && hasValue == (done != [])
    {
      var c := body[i];
      assert body[i..][0] == c && body[i..][1..] == body[i + 1..];
      OtherCharacter(all, done, body[i..], num, inTime);
      if c == 'T' {
        if num != [] {
          return Err;
        }
        inTime := true;
        continue;
      }
      if IsDigit(c) {
        num := num + [c];
        continue;
      }
      if num == [] || Unit(inTime, c).None? {
        return Err;
      }
      OneMore(all, done, body[i..], num, inTime);
      var value, multiplier := DigitsValue(num), Unit(inTime, c).value;
      var added := value * multiplier;
      if value > MAX_U64 || added > MAX_U64 || total + added > MAX_U64 {
        TooLong(all, done, value, multiplier);
        return Err;
      }
      total := total + added;
      done := done + [Segment(num, multiplier)];
      hasValue := true;
      num := [];
    }
    assert done + [] == done;
    if num != [] || !hasValue {
      return Err;
    }
    r := Ok(total);
  }

  method ParseDuration(text: string) returns (r: Result<nat>)
    ensures r == Duration(text)
  {
    var s := Trim(text);
    if s == [] {
      return Err;
    }
    if s[0] != 'P' {
      return Err;
    }
    r := Seconds(s[1..]);
  }
}
