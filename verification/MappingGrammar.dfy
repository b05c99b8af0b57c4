/** Which XML describes which mapping value, said without the parser; and that the parser decides it. */
module MappingGrammar {
  import opened Common
  import Json
  import opened XmlTree
  import opened DataMapping
  import opened MappingParser

  // ----- texts

  predicate IsNameChar(c: char) { c in LETTERS || c in DIGITS || c == '_' || c == '-' }

  /** A mark of an expression, `${` or `#{`, at a position. */
  predicate HasMarkAt(s: string, i: nat) { i + 1 < |s| && (s[i] == '$' || s[i] == '#') && s[i + 1] == '{' }

  predicate IsName(name: string) { name != [] && forall i | 0 <= i < |name| :: IsNameChar(name[i]) }

  /** Between margins, a name in `${` and `}`, or in `#{` and `}`, with margins of its own. */
  ghost predicate IsVariable(text: string, name: string) {
    var s := Trim(text);
    HasMarkAt(s, 0) && |s| > 2 && s[|s| - 1] == '}' && Trim(s[2..|s| - 1]) == name && IsName(name)
  }

  // ----- nodes

  /** `node` describes `m`. A list holds values, lists and maps. A map holds entries with keys of their own. Anything
      else holds an expression, or one list or map. Around lists and maps there is white space only. */
  ghost predicate Denotes(node: Node, m: MappingValue)
    decreases node
  {
    if node.name == "list" then
      && m.List? && Blank(node.text) && |m.values| == |node.children|
      && forall i | 0 <= i < |node.children| ::
           node.children[i].name in {"value", "list", "map"} && Denotes(node.children[i], m.values[i])
    else if node.name == "map" then
      && m.Map? && Blank(node.text) && HasEntries(node.children, m.entries.Keys)
      && forall i | 0 <= i < |node.children| :: Denotes(node.children[i], m.entries[node.children[i].attrs["key"]])
    else if node.children == [] then
      || (m.Variable? && IsVariable(node.text, m.name))
      || (m == Literal(Json.String(node.text)) && forall i | 0 <= i < |node.text| :: !HasMarkAt(node.text, i))
    else
      && |node.children| == 1 && Blank(node.text) && node.children[0].name in {"list", "map"} && Denotes(node.children[0], m)
  }

  /** The children are entries, whose keys are distinct and just these. */
  ghost predicate HasEntries(children: seq<Node>, keys: set<string>) {
    && (forall i | 0 <= i < |children| :: children[i].name == "entry" && "key" in children[i].attrs && children[i].attrs["key"] in keys)
    && (forall i, j | 0 <= i < j < |children| :: children[i].attrs["key"] != children[j].attrs["key"])
    && forall k | k in keys :: HasKey(children, k)
  }

  predicate HasKey(children: seq<Node>, k: string)
    requires forall i | 0 <= i < |children| :: "key" in children[i].attrs
  {
    exists i | 0 <= i < |children| :: children[i].attrs["key"] == k
  }

  // ----- expressions are decided

  lemma NameCharIs(c: char)
    ensures IsNameChar(c) <==> IsReferenceChar(c)
  {
    LettersAre(c);
    DigitsAre(c);
  }

  lemma NameIs(name: string)
    ensures IsReference(name) <==> IsName(name)
  {
    forall i | 0 <= i < |name| ensures IsNameChar(name[i]) <==> IsReferenceChar(name[i]) { NameCharIs(name[i]); }
  }

  lemma MarkIs(s: string)
    ensures Interpolates(s) <==> exists i | 0 <= i < |s| :: HasMarkAt(s, i)
  {
    if i :| 0 <= i < |s| && HasMarkAt(s, i) { assert OpensExpression(s[i..]); }
    if i :| 0 <= i < |s| && OpensExpression(s[i..]) { assert HasMarkAt(s, i); }
  }

  lemma VariableExactly(s: string, m: MappingValue)
    requires OpensExpression(s)
    ensures VariableIn(s) == Ok(m) <==>
            m.Variable? && |s| > 2 && s[|s| - 1] == '}' && Trim(s[2..|s| - 1]) == m.name && IsName(m.name)
  {
    if s[|s| - 1] == '}' {
      assert |s| > 2;
      NameIs(Trim(s[2..|s| - 1]));
    }
  }

  lemma ExpressionExactly(text: string, m: MappingValue)
    ensures Expression(text) == Ok(m) <==>
            || (m.Variable? && IsVariable(text, m.name))
            || (m == Literal(Json.String(text)) && forall i | 0 <= i < |text| :: !HasMarkAt(text, i))
  {
    var s := Trim(text);
    MarkIs(text);
    assert OpensExpression(s) <==> HasMarkAt(s, 0);
    if OpensExpression(s) {
      VariableExactly(s, m);
      TrimmedInterpolates(text);
      assert Interpolates(text);
    }
  }

  // ----- lists and maps are decided

  lemma {:induction false} ItemsExactly(values: seq<Result<MappingValue>>, n: nat, items: seq<MappingValue>)
    requires n <= |values|
    ensures Items(values, n) == Ok(items) <==> |items| == n && forall i | 0 <= i < n :: values[i] == Ok(items[i])
  {
    if n > 0 {
      if |items| == n {
        ItemsExactly(values, n - 1, items[..n - 1]);
        assert items == items[..n - 1] + [items[n - 1]];
      }
      if Items(values, n).Ok? {
        ItemsExactly(values, n - 1, Items(values, n - 1).value);
      }
    }
  }

  /** The first `n` children are entries with values, and `entries` is what they hold. */
  ghost predicate Hold(children: seq<Node>, values: seq<Result<MappingValue>>, n: nat, entries: map<string, MappingValue>)
    requires n <= |children| == |values|
  {
    && HasEntries(children[..n], entries.Keys)
    && forall i | 0 <= i < n :: values[i] == Ok(entries[children[..n][i].attrs["key"]])
  }

  lemma HoldOne(children: seq<Node>, values: seq<Result<MappingValue>>, n: nat, before: map<string, MappingValue>)
    requires 0 < n <= |children| == |values| && Hold(children, values, n - 1, before) && values[n - 1].Ok?
    requires children[n - 1].name == "entry" && "key" in children[n - 1].attrs && children[n - 1].attrs["key"] !in before
    ensures Hold(children, values, n, before[children[n - 1].attrs["key"] := values[n - 1].value])
  {
    var k := children[n - 1].attrs["key"];
    var after := before[k := values[n - 1].value];
    assert children[..n] == children[..n - 1] + [children[n - 1]];
    forall x | x in after.Keys ensures HasKey(children[..n], x) {
      if x == k {
        assert children[..n][n - 1].attrs["key"] == x;
      } else {
        var i :| 0 <= i < n - 1 && children[..n - 1][i].attrs["key"] == x;
        assert children[..n][i].attrs["key"] == x;
      }
    }
  }

  /** Without its last child, a map holds one entry less. */
  lemma HoldLess(children: seq<Node>, values: seq<Result<MappingValue>>, n: nat, entries: map<string, MappingValue>)
    requires 0 < n <= |children| == |values| && Hold(children, values, n, entries)
    ensures Hold(children, values, n - 1, entries - {children[n - 1].attrs["key"]})
    ensures children[n - 1].name == "entry" && children[n - 1].attrs["key"] in entries
    ensures values[n - 1] == Ok(entries[children[n - 1].attrs["key"]])
  {
    assert children[..n][n - 1] == children[n - 1];
    var k := children[n - 1].attrs["key"];
    var before := entries - {k};
    assert forall i | 0 <= i < n - 1 :: children[..n - 1][i] == children[..n][i];
    forall x | x in before.Keys ensures HasKey(children[..n - 1], x) {
      var i :| 0 <= i < n && children[..n][i].attrs["key"] == x;
      assert children[..n - 1][i].attrs["key"] == x;
    }
  }

  lemma {:induction false} EntriesHold(children: seq<Node>, values: seq<Result<MappingValue>>, n: nat)
    requires n <= |children| == |values| && Entries(children, values, n).Ok?
    ensures Hold(children, values, n, Entries(children, values, n).value)
  {
    if n > 0 {
      EntriesHold(children, values, n - 1);
      HoldOne(children, values, n, Entries(children, values, n - 1).value);
    }
  }

  lemma {:induction false} HeldAreEntries(children: seq<Node>, values: seq<Result<MappingValue>>, n: nat, entries: map<string, MappingValue>)
    requires n <= |children| == |values| && Hold(children, values, n, entries)
    ensures Entries(children, values, n) == Ok(entries)
  {
    if n == 0 {
      assert entries.Keys == {} && entries == map[];
    } else {
      var k := children[n - 1].attrs["key"];
      HoldLess(children, values, n, entries);
      HeldAreEntries(children, values, n - 1, entries - {k});
      assert entries == (entries - {k})[k := entries[k]];
    }
  }

  lemma EntriesExactly(children: seq<Node>, values: seq<Result<MappingValue>>, entries: map<string, MappingValue>)
    requires |children| == |values|
    ensures Entries(children, values, |children|) == Ok(entries) <==>
            && HasEntries(children, entries.Keys)
            && forall i | 0 <= i < |children| :: values[i] == Ok(entries[children[i].attrs["key"]])
  {
    assert children[..|children|] == children;
    if Entries(children, values, |children|).Ok? { EntriesHold(children, values, |children|); }
    if Hold(children, values, |children|, entries) { HeldAreEntries(children, values, |children|, entries); }
  }

  // ----- the parser decides what a node describes

  lemma {:induction false} ReadExactly(node: Node, m: MappingValue)
    ensures Value(node) == Ok(m) <==> Denotes(node, m)
    decreases node
  {
    if node.name == "list" {
      ListExactly(node, m);
    } else if node.name == "map" {
      MapExactly(node, m);
    } else if node.children == [] {
      ExpressionExactly(node.text, m);
    } else if |node.children| == 1 {
      ReadExactly(node.children[0], m);
    }
  }

  lemma {:induction false} ListExactly(node: Node, m: MappingValue)
    requires node.name == "list"
    ensures Value(node) == Ok(m) <==> Denotes(node, m)
    decreases node, 0
  {
    if m.List? {
      ItemsExactly(ChildValues(node), |node.children|, m.values);
      if |m.values| == |node.children| {
        forall i | 0 <= i < |node.children| ensures ChildValues(node)[i] == Ok(m.values[i]) <==> Denotes(node.children[i], m.values[i]) {
          ReadExactly(node.children[i], m.values[i]);
        }
      }
    }
  }

  lemma {:induction false} MapExactly(node: Node, m: MappingValue)
    requires node.name == "map"
    ensures Value(node) == Ok(m) <==> Denotes(node, m)
    decreases node, 0
  {
    if m.Map? {
      EntriesExactly(node.children, ChildValues(node), m.entries);
      if HasEntries(node.children, m.entries.Keys) {
        forall i | 0 <= i < |node.children|
          ensures ChildValues(node)[i] == Ok(m.entries[node.children[i].attrs["key"]]) <==>
                  Denotes(node.children[i], m.entries[node.children[i].attrs["key"]])
        {
          ReadExactly(node.children[i], m.entries[node.children[i].attrs["key"]]);
        }
      }
    }
  }
}
