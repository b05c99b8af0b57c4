/** The parser accepts exactly the layered grammar and builds exactly its meaning. */
module ConditionDecides {
  import opened Common
  import opened ConditionSyntax
  import opened ConditionGrammar
  import opened ConditionParser

  // ----- soundness: what is accepted is a phrase

  /** `t` is a phrase of `level` that means `p.expr` and spells `ts` up to `p.rest`. */
  ghost predicate Explains(level: Level, t: Tree, ts: seq<Token>, p: Parsed) {
    Derives(level, t) && Meaning(t) == p.expr && Spell(t, p.rest) == ts
  }

  /** Everything `Parse` returns is a phrase of its layer spelling exactly the tokens consumed. */
  lemma {:induction false} ParseIsSound(level: Level, ts: seq<Token>) returns (t: Tree)
    requires Parse(level, ts).Ok?
    ensures Explains(level, t, ts, Parse(level, ts).value)
    decreases |ts|, 8 - level.Rank()
  {
    match level
    case LOr | LAnd | LAdd | LMul =>
      var p := Parse(level.Next(), ts).value;
      t := ParseIsSound(level.Next(), ts);
      t := ExtendIsSound(level, t, p.rest);
    case LNot =>
      if Peek(ts).TNot? {
        t := ParseIsSound(LNot, ts[1..]);
        t := Prefix(TNot, t);
        assert [ts[0]] + ts[1..] == ts;
      } else {
        t := ParseIsSound(LCmp, ts);
      }
    case LCmp =>
      t := ParseIsSound(LAdd, ts);
      var p := Parse(LAdd, ts).value;
      if IsCmp(Peek(p.rest)) {
        var right := ParseIsSound(LAdd, p.rest[1..]);
        t := Comparison(t, p.rest[0], right);
        assert [p.rest[0]] + p.rest[1..] == p.rest;
      }
    case LUnary =>
      if Peek(ts).TMinus? {
        t := ParseIsSound(LUnary, ts[1..]);
        t := Prefix(TMinus, t);
        assert [ts[0]] + ts[1..] == ts;
      } else {
        t := ParseIsSound(LPrimary, ts);
      }
    case LPrimary => t := PrimaryIsSound(ts);
  }

  lemma {:induction false} PrimaryIsSound(ts: seq<Token>) returns (t: Tree)
    requires Parse(LPrimary, ts).Ok?
    ensures Explains(LPrimary, t, ts, Parse(LPrimary, ts).value)
    decreases |ts|, 0
  {
    assert [ts[0]] + ts[1..] == ts;
    if Peek(ts).TLParen? {
      var body := ParseIsSound(LOr, ts[1..]);
      t := Paren(body);
      var after := Parse(LOr, ts[1..]).value.rest;
      assert [after[0]] + after[1..] == after;
    } else if Peek(ts).TIdent? {
      var accesses := AccessesAreSound([Field(ts[0].name)], ts[1..]);
      t := Variable(ts[0].name, accesses);
    } else {
      t := Atom(ts[0]);
    }
  }

  lemma {:induction false} ExtendIsSound(level: Level, lhs: Tree, ts: seq<Token>) returns (t: Tree)
    requires level.IsChain() && Derives(level, lhs)
    requires Extend(level, Meaning(lhs), ts).Ok?
    ensures Explains(level, t, Spell(lhs, ts), Extend(level, Meaning(lhs), ts).value)
    decreases |ts|, 9
  {
    if level.Joins(Peek(ts)) {
      var p := Parse(level.Next(), ts[1..]).value;
      var right := ParseIsSound(level.Next(), ts[1..]);
      var longer := Chain(level, lhs, ts[0], right);
      assert [ts[0]] + ts[1..] == ts;
      t := ExtendIsSound(level, longer, p.rest);
    } else {
      t := lhs;
    }
  }

  lemma {:induction false} AccessesAreSound(segments: seq<PathSegment>, ts: seq<Token>) returns (a: seq<Access>)
    requires Accesses(segments, ts).Ok?
    ensures ValidAccesses(a)
    ensures Accesses(segments, ts).value.expr == Path(segments + Segments(a))
    ensures SpellAccesses(a, Accesses(segments, ts).value.rest) == ts
    decreases |ts|
  {
    match NextAccess(ts).value
    case None =>
      a := [];
    case Some((segment, rest)) =>
      var tail := AccessesAreSound(segments + [segment], rest);
      a := NextAccessIsSound(ts, tail);
      assert segments + [segment] + Segments(tail) == segments + Segments(a);
  }

  lemma NextAccessIsSound(ts: seq<Token>, tail: seq<Access>) returns (a: seq<Access>)
    requires NextAccess(ts).Ok? && NextAccess(ts).value.Some?
    ensures ValidAccesses(tail) ==> ValidAccesses(a)
    ensures Segments(a) == [NextAccess(ts).value.value.0] + Segments(tail)
    ensures forall after :: SpellAccesses(tail, after) == NextAccess(ts).value.value.1 ==> SpellAccesses(a, after) == ts
  {
    a := [if ts[0].TDot? then Member(ts[1].name) else Element(ts[1].n)] + tail;
    assert a[1..] == tail;
    assert ts == [ts[0]] + ([ts[1]] + ts[1..][1..]);
    assert a[0].Element? ==> ts[1..][1..] == [ts[2]] + ts[1..][1..][1..];
  }

  // ----- completeness: every phrase is accepted, with its meaning

  /** Tokens that would make a phrase of `level` longer. */
  predicate Continues(level: Level, t: Token) {
    || t.TDot? || t.TLBracket?
    || (level.Rank() <= 0 && t.TOr?)
    || (level.Rank() <= 1 && t.TAnd?)
    || (level.Rank() <= 3 && IsCmp(t))
    || (level.Rank() <= 4 && LAdd.Joins(t))
    || (level.Rank() <= 5 && LMul.Joins(t))
  }

  /** A phrase begins with a prefix operator only if its layer has that operator. */
  lemma {:induction false} FirstToken(level: Level, t: Tree, rest: seq<Token>)
    requires Derives(level, t)
    ensures Spell(t, rest) != []
    ensures level.Rank() >= 3 ==> !Spell(t, rest)[0].TNot?
    ensures level.Rank() >= 7 ==> !Spell(t, rest)[0].TMinus?
    decreases t, 7 - level.Rank()
  {
    if level.LPrimary? {
    } else if Derives(level.Next(), t) {
      FirstToken(level.Next(), t, rest);
    } else if t.Chain? {
      FirstToken(level, t.left, [t.op] + Spell(t.right, rest));
    } else if t.Comparison? {
      FirstToken(LAdd, t.left, [t.op] + Spell(t.right, rest));
    }
  }

  /** Every phrase, before any token that would not extend it, is parsed to its meaning. */
  lemma {:induction false} ParseIsComplete(level: Level, t: Tree, rest: seq<Token>)
    requires Derives(level, t) && !Continues(level, Peek(rest))
    ensures Parse(level, Spell(t, rest)) == Ok(Parsed(Meaning(t), rest))
    decreases t, 7 - level.Rank(), 1
  {
    match level
    case LOr | LAnd | LAdd | LMul =>
      ChainIsComplete(level, t, rest);
    case LNot =>
      if Derives(LCmp, t) {
        FirstToken(LCmp, t, rest);
        ParseIsComplete(LCmp, t, rest);
      } else {
        ParseIsComplete(LNot, t.operand, rest);
      }
    case LCmp =>
      if Derives(LAdd, t) {
        ParseIsComplete(LAdd, t, rest);
      } else {
        ParseIsComplete(LAdd, t.left, [t.op] + Spell(t.right, rest));
        ParseIsComplete(LAdd, t.right, rest);
      }
    case LUnary =>
      if Derives(LPrimary, t) {
        FirstToken(LPrimary, t, rest);
        ParseIsComplete(LPrimary, t, rest);
      } else {
        ParseIsComplete(LUnary, t.operand, rest);
      }
    case LPrimary =>
      match t
      case Atom(_) =>
      case Paren(body) => ParseIsComplete(LOr, body, [TRParen] + rest);
      case Variable(root, accesses) =>
        AccessesAreComplete([Field(root)], accesses, rest);
  }

  /** In a chain layer, parsing a phrase is the same as extending its meaning with what follows. */
  lemma {:induction false} ChainIsComplete(level: Level, t: Tree, rest: seq<Token>)
    requires level.IsChain() && Derives(level, t) && !Continues(level.Next(), Peek(rest))
    ensures Parse(level, Spell(t, rest)) == Extend(level, Meaning(t), rest)
    decreases t, 7 - level.Rank(), 0
  {
    if Derives(level.Next(), t) {
      ParseIsComplete(level.Next(), t, rest);
    } else {
      var tail := [t.op] + Spell(t.right, rest);
      assert tail[1..] == Spell(t.right, rest);
      ChainIsComplete(level, t.left, tail);
      ParseIsComplete(level.Next(), t.right, rest);
    }
  }

  lemma AccessIsNext(a: seq<Access>, rest: seq<Token>)
    requires ValidAccesses(a) && a != []
    ensures NextAccess(SpellAccesses(a, rest)) == Ok(Some((Segments(a)[0], SpellAccesses(a[1..], rest))))
  {
    var ts, tail := SpellAccesses(a, rest), SpellAccesses(a[1..], rest);
    assert a[0].Member? ==> ts[1..] == [TIdent(a[0].name)] + tail;
    assert a[0].Element? ==> ts[1..] == [TNumber(a[0].value)] + ([TRBracket] + tail);
    assert a[0].Element? ==> ts[1..][1..] == [TRBracket] + tail;
  }

  lemma {:induction false} AccessesAreComplete(segments: seq<PathSegment>, a: seq<Access>, rest: seq<Token>)
    requires ValidAccesses(a) && !Continues(LPrimary, Peek(rest))
    ensures Accesses(segments, SpellAccesses(a, rest)) == Ok(Parsed(Path(segments + Segments(a)), rest))
    decreases |a|
  {
    if a == [] {
      assert segments + Segments(a) == segments;
    } else {
      var segment := Segments(a)[0];
      AccessIsNext(a, rest);
      AccessesAreComplete(segments + [segment], a[1..], rest);
      assert segments + Segments(a) == segments + [segment] + Segments(a[1..]);
    }
  }

  // ----- the end marker is never consumed

  lemma {:induction false} ParseKeepsEof(level: Level, ts: seq<Token>)
    requires Terminated(ts)
    ensures Parse(level, ts).Ok? ==> Terminated(Parse(level, ts).value.rest)
    decreases |ts|, 8 - level.Rank()
  {
    if !Parse(level, ts).Ok? { return; }
    match level
    case LOr | LAnd | LAdd | LMul =>
      ParseKeepsEof(level.Next(), ts);
      var p := Parse(level.Next(), ts).value;
      ExtendKeepsEof(level, p.expr, p.rest);
    case LNot => if ts[0].TNot? { ParseKeepsEof(LNot, ts[1..]); } else { ParseKeepsEof(LCmp, ts); }
    case LCmp =>
      ParseKeepsEof(LAdd, ts);
      var rest := Parse(LAdd, ts).value.rest;
      if IsCmp(rest[0]) { ParseKeepsEof(LAdd, rest[1..]); }
    case LUnary => if ts[0].TMinus? { ParseKeepsEof(LUnary, ts[1..]); } else { ParseKeepsEof(LPrimary, ts); }
    case LPrimary =>
      if ts[0].TLParen? {
        ParseKeepsEof(LOr, ts[1..]);
      } else if ts[0].TIdent? {
        AccessesKeepEof([Field(ts[0].name)], ts[1..]);
      }
  }

  lemma {:induction false} ExtendKeepsEof(level: Level, lhs: Expr, ts: seq<Token>)
    requires level.IsChain() && Terminated(ts)
    ensures Extend(level, lhs, ts).Ok? ==> Terminated(Extend(level, lhs, ts).value.rest)
    decreases |ts|, 9
  {
    if level.Joins(ts[0]) && Parse(level.Next(), ts[1..]).Ok? {
      ParseKeepsEof(level.Next(), ts[1..]);
      var p := Parse(level.Next(), ts[1..]).value;
      ExtendKeepsEof(level, Combine(ts[0], lhs, p.expr), p.rest);
    }
  }

  lemma {:induction false} AccessesKeepEof(segments: seq<PathSegment>, ts: seq<Token>)
    requires Terminated(ts)
    ensures Accesses(segments, ts).Ok? ==> Terminated(Accesses(segments, ts).value.rest)
    decreases |ts|
  {
    match NextAccess(ts)
    case Err =>
    case Ok(None) =>
    case Ok(Some((segment, rest))) => AccessesKeepEof(segments + [segment], rest);
  }

  // ----- the parser decides the grammar

  /** `ts` is a condition, read through `t` as `e`. */
  ghost predicate Reads(t: Tree, e: Expr, ts: seq<Token>) {
    Derives(LOr, t) && Meaning(t) == e && Spell(t, [TEof]) == ts
  }

  /** A condition's tokens parse to `e` exactly when they are a phrase that means `e`. */
  lemma ParserDecidesGrammar(ts: seq<Token>, e: Expr)
    requires Terminated(ts)
    ensures ParseAll(ts) == Ok(e) <==> exists t :: Reads(t, e, ts)
  {
    if ParseAll(ts) == Ok(e) {
      var t := ParseIsSound(LOr, ts);
      ParseKeepsEof(LOr, ts);
      assert Parse(LOr, ts).value.rest == [TEof];
      assert Reads(t, e, ts);
    }
    forall t | Reads(t, e, ts)
      ensures ParseAll(ts) == Ok(e)
    {
      ParseIsComplete(LOr, t, [TEof]);
    }
  }

  /** The grammar is unambiguous: two phrases that spell the same mean the same. */
  lemma GrammarIsUnambiguous(t: Tree, u: Tree)
    requires Derives(LOr, t) && Derives(LOr, u) && Spell(t, [TEof]) == Spell(u, [TEof])
    ensures Meaning(t) == Meaning(u)
  {
    ParseIsComplete(LOr, t, [TEof]);
    ParseIsComplete(LOr, u, [TEof]);
  }
}
