/** The XML tree that data mappings are read from, and how it is built from events. */
module XmlTree {
  import opened Common

  datatype Node = Node(name: string, attrs: map<string, string>, text: string, children: seq<Node>)

  /** Character data, CDATA and decoded references are all `Text`. */
  datatype Event = Start(name: string, attrs: map<string, string>) | Empty(name: string, attrs: map<string, string>)
                 | End | Text(text: string) | Misc

  const ROOT := Node("", map[], "", [])

  // ----- the stack machine

  /** `stack` with `node` as the last child of its top. */
  function Attached(stack: seq<Node>, node: Node): seq<Node>
    requires stack != []
  {
    var n := |stack| - 1;
    stack[..n] + [stack[n].(children := stack[n].children + [node])]
  }

  function Step(stack: seq<Node>, e: Event): (r: Result<seq<Node>>)
    requires stack != []
    ensures r.Ok? ==> r.value != []
  {
    var n := |stack| - 1;
    match e
    case Start(name, attrs) => Ok(stack + [Node(name, attrs, "", [])])
    case Empty(name, attrs) => Ok(Attached(stack, Node(name, attrs, "", [])))
    case End => if n == 0 then Err else Ok(Attached(stack[..n], stack[n]))
    case Text(text) => Ok(stack[..n] + [stack[n].(text := stack[n].text + text)])
    case Misc => Ok(stack)
  }

  function Run(stack: seq<Node>, events: seq<Event>): (r: Result<seq<Node>>)
    requires stack != []
    ensures r.Ok? ==> r.value != []
    decreases |events|
  {
    if events == [] then Ok(stack)
    else
      var next :- Step(stack, events[0]);
      Run(next, events[1..])
  }

  method Tree(events: seq<Event>) returns (r: Result<Node>)
    ensures var run := Run([ROOT], events);
            r == if run.Ok? then Ok(run.value[|run.value| - 1]) else Err
  {
    var stack := [ROOT];
    for i := 0 to |events|
      invariant stack != [] && Run([ROOT], events) == Run(stack, events[i..])
    {
      match events[i]
      case Start(name, attrs) => stack := stack + [Node(name, attrs, "", [])];
      case Empty(name, attrs) =>
        stack := Attached(stack, Node(name, attrs, "", []));
      case End =>
        var node := stack[|stack| - 1];
        stack := stack[..|stack| - 1];
        if stack == [] {
          return Err;
        }
        stack := Attached(stack, node);
      case Text(text) =>
        var top := stack[|stack| - 1];
        stack := stack[..|stack| - 1] + [top.(text := top.text + text)];
      case Misc =>
    }
    r := Ok(stack[|stack| - 1]);
  }

  // ----- documents, and the node each part contributes

  /** What may stand between two tags. */
  datatype Content =
    | Chars(text: string)
    | Comment
    | Element(name: string, attrs: map<string, string>, contents: seq<Content>, selfClosing: bool)

  function Events(c: Content): seq<Event>
    decreases c, 1
  {
    match c
    case Chars(text) => [Text(text)]
    case Comment => [Misc]
    case Element(name, attrs, contents, selfClosing) =>
      if selfClosing && contents == [] then [Empty(name, attrs)]
      else [Start(name, attrs)] + EventsOfAll(contents) + [End]
  }

  function EventsOfAll(cs: seq<Content>): seq<Event>
    decreases cs, 0
  {
    if cs == [] then [] else Events(cs[0]) + EventsOfAll(cs[1..])
  }

  /** The text directly in `cs`, in order. */
  function TextOf(cs: seq<Content>): string {
    if cs == [] then "" else (if cs[0].Chars? then cs[0].text else "") + TextOf(cs[1..])
  }

  /** The elements directly in `cs`, in order. */
  function NodesOf(cs: seq<Content>): seq<Node>
    decreases cs, 0
  {
    if cs == [] then [] else (if cs[0].Element? then [NodeOf(cs[0])] else []) + NodesOf(cs[1..])
  }

  function NodeOf(c: Content): Node
    requires c.Element?
    decreases c, 1
  {
    Node(c.name, c.attrs, TextOf(c.contents), NodesOf(c.contents))
  }

  /** `node` with more text and children. */
  function Filled(node: Node, cs: seq<Content>): Node {
    node.(text := node.text + TextOf(cs), children := node.children + NodesOf(cs))
  }

  lemma {:induction false} RunTwice(stack: seq<Node>, es: seq<Event>, more: seq<Event>)
    requires stack != []
    ensures Run(stack, es + more) == if Run(stack, es).Ok? then Run(Run(stack, es).value, more) else Err
    decreases |es|
  {
    if es == [] {
      assert es + more == more;
    } else {
      assert (es + more)[0] == es[0] && (es + more)[1..] == es[1..] + more;
      var next := Step(stack, es[0]);
      if next.Ok? { RunTwice(next.value, es[1..], more); }
    }
  }

  lemma SingleContent(c: Content)
    ensures TextOf([c]) == if c.Chars? then c.text else ""
    ensures NodesOf([c]) == if c.Element? then [NodeOf(c)] else []
  {
    assert [c][1..] == [];
  }

  lemma FilledTwice(node: Node, c: Content, cs: seq<Content>)
    ensures Filled(Filled(node, [c]), cs) == Filled(node, [c] + cs)
  {
    SingleContent(c);
    assert ([c] + cs)[1..] == cs;
    var text, nodes := TextOf([c]), NodesOf([c]);
    assert TextOf([c] + cs) == text + TextOf(cs);
    assert NodesOf([c] + cs) == nodes + NodesOf(cs);
    assert node.text + text + TextOf(cs) == node.text + (text + TextOf(cs));
    assert node.children + nodes + NodesOf(cs) == node.children + (nodes + NodesOf(cs));
  }

  lemma FilledOnce(node: Node, c: Content)
    ensures c.Chars? ==> Filled(node, [c]) == node.(text := node.text + c.text)
    ensures c.Comment? ==> Filled(node, [c]) == node
    ensures c.Element? ==> Filled(node, [c]) == node.(children := node.children + [NodeOf(c)])
  {
    SingleContent(c);
  }

  lemma {:induction false} RunAll(stack: seq<Node>, cs: seq<Content>)
    requires stack != []
    ensures var n := |stack| - 1; Run(stack, EventsOfAll(cs)) == Ok(stack[..n] + [Filled(stack[n], cs)])
    decreases cs, 0
  {
    var n := |stack| - 1;
    if cs == [] {
      assert Filled(stack[n], []) == stack[n];
      assert stack[..n] + [stack[n]] == stack;
    } else {
      RunOne(stack, cs[0]);
      RunTwice(stack, Events(cs[0]), EventsOfAll(cs[1..]));
      RunAll(stack[..n] + [Filled(stack[n], [cs[0]])], cs[1..]);
      FilledTwice(stack[n], cs[0], cs[1..]);
      assert [cs[0]] + cs[1..] == cs;
    }
  }

  /** The events of `c` add what `c` contributes to the node on top. */
  lemma {:induction false} RunOne(stack: seq<Node>, c: Content)
    requires stack != []
    ensures var n := |stack| - 1; Run(stack, Events(c)) == Ok(stack[..n] + [Filled(stack[n], [c])])
    decreases c, 1
  {
    FilledOnce(stack[|stack| - 1], c);
    if c.Element? && !(c.selfClosing && c.contents == []) {
      RunElement(stack, c);
    } else {
      var n := |stack| - 1;
      assert stack[..n] + [stack[n]] == stack;
      assert Events(c)[1..] == [];
      assert Run(stack, Events(c)) == Step(stack, Events(c)[0]);
    }
  }

  lemma {:induction false} RunElement(stack: seq<Node>, c: Content)
    requires stack != [] && c.Element? && !(c.selfClosing && c.contents == [])
    ensures Run(stack, Events(c)) == Ok(Attached(stack, NodeOf(c)))
    decreases c, 0
  {
    var node := Node(c.name, c.attrs, "", []);
    var open, inner, close := [Start(c.name, c.attrs)], EventsOfAll(c.contents), [End];
    RunTwice(stack, open + inner, close);
    RunTwice(stack, open, inner);
    assert open[1..] == [] && close[1..] == [];
    RunAll(stack + [node], c.contents);
    assert Filled(node, c.contents) == NodeOf(c);
    assert (stack + [node])[..|stack|] == stack;
    assert Run(stack + [NodeOf(c)], close) == Ok(Attached(stack, NodeOf(c)));
  }

  /** Building the tree of a document gives its nodes back, with text and children in order. */
  lemma TreeRebuildsDocument(cs: seq<Content>)
    ensures Run([ROOT], EventsOfAll(cs)) == Ok([Node("", map[], TextOf(cs), NodesOf(cs))])
  {
    RunAll([ROOT], cs);
    assert [ROOT][..0] == [];
    assert Filled(ROOT, cs) == Node("", map[], TextOf(cs), NodesOf(cs));
  }

  /** A node as a document: its text first, then its children. */
  function DocumentOf(node: Node): Content {
    Element(node.name, node.attrs,
            [Chars(node.text)] + seq(|node.children|, i requires 0 <= i < |node.children| => DocumentOf(node.children[i])),
            false)
  }

  lemma {:induction false} DocumentsRebuild(nodes: seq<Node>, cs: seq<Content>)
    requires |cs| == |nodes| && forall i | 0 <= i < |nodes| :: cs[i] == DocumentOf(nodes[i])
    ensures NodesOf(cs) == nodes && TextOf(cs) == ""
    decreases nodes, 0
  {
    if nodes != [] {
      NodeIsRebuilt(nodes[0]);
      DocumentsRebuild(nodes[1..], cs[1..]);
    }
  }

  lemma {:induction false} NodeIsRebuilt(node: Node)
    ensures NodeOf(DocumentOf(node)) == node
    decreases node, 1
  {
    var cs := DocumentOf(node).contents;
    DocumentsRebuild(node.children, cs[1..]);
    assert node.text + "" == node.text;
  }

  /** Every node is rebuilt from its own events. */
  lemma TreeRebuildsNode(node: Node)
    ensures Run([ROOT], Events(DocumentOf(node))) == Ok([ROOT.(children := [node])])
  {
    RunOne([ROOT], DocumentOf(node));
    FilledOnce(ROOT, DocumentOf(node));
    NodeIsRebuilt(node);
    assert [ROOT][..0] == [];
    assert ROOT.children + [node] == [node];
    var rebuilt := ROOT.(children := [node]);
    assert Filled(ROOT, [DocumentOf(node)]) == rebuilt;
    assert [ROOT][..0] + [rebuilt] == [rebuilt];
  }

  // ----- which event streams are accepted

  /** Ends never outnumber starts, with `depth` elements open at first. */
  predicate NeverUnderflows(depth: nat, events: seq<Event>)
    decreases |events|
  {
    events == [] ||
    match events[0]
      case Start(_, _) => NeverUnderflows(depth + 1, events[1..])
      case End => depth > 0 && NeverUnderflows(depth - 1, events[1..])
      case _ => NeverUnderflows(depth, events[1..])
  }

  lemma {:induction false} AcceptsExactly(stack: seq<Node>, events: seq<Event>)
    requires stack != []
    ensures Run(stack, events).Ok? <==> NeverUnderflows(|stack| - 1, events)
    decreases |events|
  {
    if events != [] {
      var next := Step(stack, events[0]);
      if next.Ok? { AcceptsExactly(next.value, events[1..]); }
    }
  }
}
