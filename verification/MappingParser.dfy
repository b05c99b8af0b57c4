/** How data mappings are read from a BPMN activity. */
module MappingParser {
  import opened Common
  import Json
  import opened XmlTree
  import opened DataMapping

  // ----- expressions

  /** Letters are modelled as the ASCII ones. */
  predicate IsReferenceChar(c: char) {
    'a' <= c <= 'z' || 'A' <= c <= 'Z' || IsDigit(c) || c == '_' || c == '-'
  }

  predicate IsReference(name: string) { name != [] && forall i | 0 <= i < |name| :: IsReferenceChar(name[i]) }

  function Reference(text: string): Result<string> {
    var name := Trim(text);
    if IsReference(name) then Ok(name) else Err
  }

  predicate OpensExpression(s: string) { |s| >= 2 && (s[0] == '$' || s[0] == '#') && s[1] == '{' }

  predicate Interpolates(s: string) { exists i :: 0 <= i < |s| && OpensExpression(s[i..]) }

  /** The variable in `${name}`. */
  function VariableIn(s: string): Result<MappingValue>
    requires OpensExpression(s)
  {
    if s[|s| - 1] != '}' then Err
    else
      var name :- Reference(s[2..|s| - 1]);
      Ok(Variable(name))
  }

  function Expression(text: string): Result<MappingValue> {
    if OpensExpression(Trim(text)) then VariableIn(Trim(text))
    else if Interpolates(text) then Err
    else Ok(Literal(Json.String(text)))
  }

  // ----- nested values

  predicate IsCollection(node: Node) { node.name == "list" || node.name == "map" }

  predicate IsListItem(node: Node) { node.name == "value" || IsCollection(node) }

  function Value(node: Node): Result<MappingValue>
    decreases node, 2
  {
    if node.name == "list" then
      if !Blank(node.text) || exists i | 0 <= i < |node.children| :: !IsListItem(node.children[i]) then Err
      else
        var items :- Items(ChildValues(node), |node.children|);
        Ok(List(items))
    else if node.name == "map" then
      if !Blank(node.text) then Err
      else
        var entries :- Entries(node.children, ChildValues(node), |node.children|);
        Ok(Map(entries))
    else if node.children == [] then Expression(node.text)
    else if !Blank(node.text) || |node.children| != 1 || !IsCollection(node.children[0]) then Err
    else Value(node.children[0])
  }

  function ChildValues(node: Node): (values: seq<Result<MappingValue>>)
    ensures |values| == |node.children|
    decreases node, 1
  {
    seq(|node.children|, i requires 0 <= i < |node.children| => Value(node.children[i]))
  }

  /** The first `n` items of a list, unless one of them failed. */
  function Items(values: seq<Result<MappingValue>>, n: nat): Result<seq<MappingValue>>
    requires n <= |values|
  {
    if n == 0 then Ok([])
    else
      var before :- Items(values, n - 1);
      var item :- values[n - 1];
      Ok(before + [item])
  }

  /** The first `n` entries of a map. */
  function Entries(children: seq<Node>, values: seq<Result<MappingValue>>, n: nat): Result<map<string, MappingValue>>
    requires n <= |children| == |values|
  {
    if n == 0 then Ok(map[])
    else
      var before :- Entries(children, values, n - 1);
      var entry := children[n - 1];
      if entry.name != "entry" || "key" !in entry.attrs || entry.attrs["key"] in before then Err
      else
        var value :- values[n - 1];
        Ok(before[entry.attrs["key"] := value])
  }

  lemma {:induction false} PrefixFails(children: seq<Node>, values: seq<Result<MappingValue>>, i: nat, n: nat)
    requires i <= n <= |children| == |values|
    ensures Items(values, i).Err? ==> Items(values, n).Err?
    ensures Entries(children, values, i).Err? ==> Entries(children, values, n).Err?
    decreases n
  {
    if i < n { PrefixFails(children, values, i, n - 1); }
  }

  method ReadValue(node: Node) returns (r: Result<MappingValue>)
    ensures r == Value(node)
    decreases node, 1
  {
    if node.name == "list" {
      r := ReadList(node);
    } else if node.name == "map" {
      r := ReadMap(node);
    } else if node.children == [] {
      r := Expression(node.text);
    } else {
      var blank := TrimsToNothing(node.text);
      if !blank || |node.children| != 1 || !IsCollection(node.children[0]) {
        return Err;
      }
      r := ReadValue(node.children[0]);
    }
  }

  /** Each value is the one of its child. */
  ghost predicate AreRead(children: seq<Node>, values: seq<Result<MappingValue>>) {
    && |children| == |values|
    && forall i {:trigger Value(children[i])} | 0 <= i < |children| :: values[i] == Value(children[i])
  }

  method ReadChild(node: Node, ghost values: seq<Result<MappingValue>>, i: nat) returns (r: Result<MappingValue>)
    requires AreRead(node.children, values) && i < |node.children|
    ensures r == values[i]
    decreases node, 0, 0
  {
    r := ReadValue(node.children[i]);
  }

  method ReadItems(node: Node, ghost values: seq<Result<MappingValue>>) returns (r: Result<seq<MappingValue>>)
    requires AreRead(node.children, values)
    ensures r == Items(values, |values|)
    decreases node, 0, 1
  {
    var items := [];
    for i := 0 to |node.children|
      invariant Items(values, i) == Ok(items)
    {
      PrefixFails(node.children, values, i + 1, |values|);
      var item :- ReadChild(node, values, i);
      items := items + [item];
    }
    r := Ok(items);
  }

  method ReadEntries(node: Node, ghost values: seq<Result<MappingValue>>) returns (r: Result<map<string, MappingValue>>)
    requires AreRead(node.children, values)
    ensures r == Entries(node.children, values, |values|)
    decreases node, 0, 1
  {
    var entries: map<string, MappingValue> := map[];
    for i := 0 to |node.children|
      invariant Entries(node.children, values, i) == Ok(entries)
    {
      PrefixFails(node.children, values, i + 1, |values|);
      var entry := node.children[i];
      if entry.name != "entry" || "key" !in entry.attrs {
        return Err;
      }
      var value :- ReadChild(node, values, i);
      if entry.attrs["key"] in entries {
        return Err;
      }
      entries := entries[entry.attrs["key"] := value];
    }
    r := Ok(entries);
  }

  method ReadList(node: Node) returns (r: Result<MappingValue>)
    requires node.name == "list"
    ensures r == Value(node)
    decreases node, 0, 2
  {
    var blank := TrimsToNothing(node.text);
    if !blank || exists i | 0 <= i < |node.children| :: !IsListItem(node.children[i]) {
      return Err;
    }
    var items :- ReadItems(node, ChildValues(node));
    r := Ok(List(items));
  }

  method ReadMap(node: Node) returns (r: Result<MappingValue>)
    requires node.name == "map"
    ensures r == Value(node)
    decreases node, 0, 2
  {
    var blank := TrimsToNothing(node.text);
    if !blank {
      return Err;
    }
    var entries :- ReadEntries(node, ChildValues(node));
    r := Ok(Map(entries));
  }

  // ----- writing a value as XML

  /** Values that have a text: literals are texts without an expression in them. */
  ghost predicate Writable(m: MappingValue) {
    match m
    case Literal(value) => value.String? && !Interpolates(value.s)
    case Variable(name) => IsReference(name)
    case List(values) => forall i | 0 <= i < |values| :: Writable(values[i])
    case Map(entries) => forall k | k in entries :: Writable(entries[k])
  }

  function ScalarText(m: MappingValue): string {
    match m
    case Literal(value) => if value.String? then value.s else ""
    case Variable(name) => "${" + name + "}"
    case _ => ""
  }

  /** `m` as the content of an element of the given name. */
  ghost function Wrap(name: string, attrs: map<string, string>, m: MappingValue): Node
    decreases m, 1
  {
    if m.List? || m.Map? then Node(name, attrs, "", [Write(m)]) else Node(name, attrs, ScalarText(m), [])
  }

  /** `m` as an element of its own. */
  ghost function Write(m: MappingValue): Node
    decreases m, 0
  {
    match m
    case List(values) => Node("list", map[], "", seq(|values|, i requires 0 <= i < |values| => Write(values[i])))
    case Map(entries) => Node("map", map[], "", WriteEntries(m, entries.Keys))
    case _ => Node("value", map[], ScalarText(m), [])
  }

  /** The entries with the given keys, in some order. */
  ghost function WriteEntries(m: MappingValue, keys: set<string>): seq<Node>
    requires m.Map? && keys <= m.entries.Keys
    decreases m, 0, 1, |keys|
  {
    if keys == {} then []
    else
      var k := Pick(keys);
      WriteEntries(m, keys - {k}) + [EntryOf(m, k)]
  }

  ghost function Pick(keys: set<string>): (k: string)
    requires keys != {}
    ensures k in keys
  {
    var k: string :| k in keys; k
  }

  ghost function EntryOf(m: MappingValue, k: string): Node
    requires m.Map? && k in m.entries
    decreases m, 0, 0
  {
    Wrap("entry", map["key" := k], m.entries[k])
  }

  lemma ReferenceIsRead(name: string)
    requires IsReference(name)
    ensures Reference(name) == Ok(name)
  {
    assert IsReferenceChar(name[0]) && IsReferenceChar(name[|name| - 1]);
    TrimKeepsSolid(name);
  }

  lemma VariableIsRead(name: string)
    requires IsReference(name)
    ensures Expression("${" + name + "}") == Ok(Variable(name))
  {
    var text := "${" + name + "}";
    TrimKeepsSolid(text);
    assert text[2..|text| - 1] == name;
    ReferenceIsRead(name);
  }

  lemma TrimmedInterpolates(s: string)
    ensures OpensExpression(Trim(s)) ==> Interpolates(s)
  {
    var before, middle, after := Margins(s);
    assert s[|before|..] == middle + after;
  }

  lemma LiteralIsRead(s: string)
    requires !Interpolates(s)
    ensures Expression(s) == Ok(Literal(Json.String(s)))
  {
    TrimmedInterpolates(s);
  }

  lemma ScalarIsRead(m: MappingValue, node: Node)
    requires Writable(m) && !m.List? && !m.Map?
    requires !IsCollection(node) && node.children == [] && node.text == ScalarText(m)
    ensures Value(node) == Ok(m)
  {
    if m.Variable? {
      VariableIsRead(m.name);
    } else {
      LiteralIsRead(m.value.s);
    }
  }

  /** Reading undoes writing, at any depth, whatever the order of map entries. */
  lemma {:induction false} ReadUndoesWrite(m: MappingValue)
    requires Writable(m)
    ensures IsListItem(Write(m)) && Value(Write(m)) == Ok(m)
    decreases m, 2
  {
    if m.List? {
      var node := Write(m);
      forall i | 0 <= i < |m.values| ensures IsListItem(node.children[i]) && Value(node.children[i]) == Ok(m.values[i]) {
        ReadUndoesWrite(m.values[i]);
      }
      assert forall i | 0 <= i < |m.values| :: ChildValues(node)[i] == Ok(m.values[i]);
      ItemsAreRead(m.values, ChildValues(node), |m.values|);
      assert m.values[..|m.values|] == m.values;
    } else if m.Map? {
      EntriesAreRead(m, m.entries.Keys, Write(m).children, ChildValues(Write(m)));
      assert Only(m.entries, m.entries.Keys) == m.entries;
    } else {
      ScalarIsRead(m, Write(m));
    }
  }

  /** The same for a value inside a parameter or an entry. */
  lemma {:induction false} ReadUndoesWrap(name: string, attrs: map<string, string>, m: MappingValue)
    requires Writable(m) && name != "list" && name != "map"
    ensures Value(Wrap(name, attrs, m)) == Ok(m)
    decreases m, 3
  {
    if m.List? || m.Map? {
      ReadUndoesWrite(m);
    } else {
      ScalarIsRead(m, Wrap(name, attrs, m));
    }
  }

  lemma {:induction false} ItemsAreRead(values: seq<MappingValue>, read: seq<Result<MappingValue>>, n: nat)
    requires n <= |values| == |read| && forall i | 0 <= i < |values| :: read[i] == Ok(values[i])
    ensures Items(read, n) == Ok(values[..n])
  {
    if n > 0 {
      ItemsAreRead(values, read, n - 1);
      assert values[..n] == values[..n - 1] + [values[n - 1]];
    }
  }

  /** The first entries depend on the first children only. */
  lemma {:induction false} EntriesOfPrefix(children: seq<Node>, values: seq<Result<MappingValue>>, m: nat, n: nat)
    requires n <= m <= |children| == |values|
    ensures Entries(children[..m], values[..m], n) == Entries(children, values, n)
  {
    if n > 0 { EntriesOfPrefix(children, values, m, n - 1); }
  }

  /** The entries with the given keys. */
  function Only(entries: map<string, MappingValue>, keys: set<string>): map<string, MappingValue>
    requires keys <= entries.Keys
  {
    map k | k in keys :: entries[k]
  }

  lemma OnlyGrows(entries: map<string, MappingValue>, keys: set<string>, k: string)
    requires keys <= entries.Keys && k in entries
    ensures Only(entries, keys + {k}) == Only(entries, keys)[k := entries[k]]
  {
  }

  lemma EntryHasKey(m: MappingValue, k: string)
    requires m.Map? && k in m.entries
    ensures var e := EntryOf(m, k); e.name == "entry" && "key" in e.attrs && e.attrs["key"] == k
  {
  }

  lemma EntryIsAdded(children: seq<Node>, read: seq<Result<MappingValue>>, n: nat, before: map<string, MappingValue>,
                     k: string, value: MappingValue)
    requires n < |children| == |read| && Entries(children, read, n) == Ok(before) && k !in before
    requires children[n].name == "entry" && "key" in children[n].attrs && children[n].attrs["key"] == k
    requires read[n] == Ok(value)
    ensures Entries(children, read, n + 1) == Ok(before[k := value])
  {
  }

  lemma EntryIsRead(m: MappingValue, k: string, children: seq<Node>, read: seq<Result<MappingValue>>, n: nat)
    requires m.Map? && Writable(m) && k in m.entries && AreRead(children, read) && n < |children|
    requires children[n] == EntryOf(m, k)
    ensures n < |read| && read[n] == Ok(m.entries[k])
    decreases m, 0
  {
    ReadUndoesWrap("entry", map["key" := k], m.entries[k]);
    assert read[n] == Value(children[n]);
  }

  lemma WriteOneMore(m: MappingValue, keys: set<string>)
    requires m.Map? && keys <= m.entries.Keys && keys != {}
    ensures var children, k := WriteEntries(m, keys), Pick(keys);
            && |children| > 0 && k in keys && children[|children| - 1] == EntryOf(m, k)
            && children[..|children| - 1] == WriteEntries(m, keys - {k})
  {
    var k := Pick(keys);
    assert WriteEntries(m, keys) == WriteEntries(m, keys - {k}) + [EntryOf(m, k)];
  }

  lemma {:induction false} EntriesAreRead(m: MappingValue, keys: set<string>, children: seq<Node>,
                                          read: seq<Result<MappingValue>>)
    requires m.Map? && Writable(m) && keys <= m.entries.Keys && children == WriteEntries(m, keys) && AreRead(children, read)
    ensures Entries(children, read, |children|) == Ok(Only(m.entries, keys))
    decreases m, 1, |keys|
  {
    if keys != {} {
      var n, k := |children| - 1, Pick(keys);
      WriteOneMore(m, keys);
      EntriesAreRead(m, keys - {k}, children[..n], read[..n]);
      EntriesOfPrefix(children, read, n, n);
      EntryHasKey(m, k);
      EntryIsRead(m, k, children, read, n);
      EntryIsAdded(children, read, n, Only(m.entries, keys - {k}), k, m.entries[k]);
      OnlyGrows(m.entries, keys - {k}, k);
      assert keys - {k} + {k} == keys;
    }
  }
}
