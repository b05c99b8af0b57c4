/** XML documents as trees, and recursive walks over them. */
module XmlWalk {
  import opened Common
  import opened XmlScan

  /** An XML tree; content other than elements is of no concern here. */
  datatype Xml = Element(tag: Tag, attrs: Attributes, children: seq<Xml>, selfClosing: bool) | Content

  /** Written as one tag. */
  predicate IsEmptyTag(x: Xml) { x.Element? && x.selfClosing && x.children == [] }

  function Events(x: Xml): seq<XmlEvent>
    decreases x, 1
  {
    if x.Content? then [Misc]
    else if IsEmptyTag(x) then [Empty(x.tag, x.attrs)]
    else [Start(x.tag, x.attrs)] + EventsOfAll(x.children) + [End(x.tag)]
  }

  function EventsOfAll(xs: seq<Xml>): seq<XmlEvent>
    decreases xs, 0
  {
    if xs == [] then [] else Events(xs[0]) + EventsOfAll(xs[1..])
  }

  // ----- the recursive walk

  datatype Walked = Walked(violations: seq<Violation>, count: nat)

  /** The violations in `x` inside a process. Ancestors never change; `count` is how many definitions
      the nearest event has so far. */
  function Walk(x: Xml, anc: seq<Ancestor>, count: nat): Walked
    decreases x, 1
  {
    if x.Content? then Walked([], count)
    else
      var next := CountAfter(x.tag, anc, count);
      var inner := WalkAll(x.children, anc + [ElementFrame(x.tag, x.attrs)], if x.tag.Event? then 0 else next);
      Walked(Collected(x.tag, x.attrs, anc, count) + inner.violations, if x.tag.Event? then next else inner.count)
  }

  function WalkAll(xs: seq<Xml>, anc: seq<Ancestor>, count: nat): Walked
    decreases xs, 0
  {
    if xs == [] then Walked([], count)
    else
      var first := Walk(xs[0], anc, count);
      var rest := WalkAll(xs[1..], anc, first.count);
      Walked(first.violations + rest.violations, rest.count)
  }

  datatype ProcessEntry = ProcessEntry(id: Id, isExecutable: bool, violations: seq<Violation>)

  datatype Document = Document(entries: seq<ProcessEntry>, count: nat)

  /** The processes of `x` outside any process, each with the violations inside it. */
  function WalkDocument(x: Xml, anc: seq<Ancestor>, count: nat): Document
    decreases x, 1
  {
    if x.Content? then Document([], count)
    else if x.tag.Process? then
      var inner := WalkAll(x.children, anc + [ProcessFrame(x.attrs)], count);
      Document([ProcessEntry(ProcessId(x.attrs), x.attrs.isExecutable, inner.violations)], inner.count)
    else
      var inner := WalkDocuments(x.children, anc + [ElementFrame(x.tag, x.attrs)], if x.tag.Event? then 0 else count);
      Document(inner.entries, if x.tag.Event? then count else inner.count)
  }

  function WalkDocuments(xs: seq<Xml>, anc: seq<Ancestor>, count: nat): Document
    decreases xs, 0
  {
    if xs == [] then Document([], count)
    else
      var first := WalkDocument(xs[0], anc, count);
      var rest := WalkDocuments(xs[1..], anc, first.count);
      Document(first.entries + rest.entries, rest.count)
  }

  // ----- processes inside processes

  /** `x` is, or holds, a process that is closed by an end tag. */
  predicate ClosesProcess(x: Xml) {
    && x.Element?
    && (|| (x.tag.Process? && !IsEmptyTag(x))
        || exists i | 0 <= i < |x.children| :: ClosesProcess(x.children[i]))
  }

  /** Some process inside a process is closed by an end tag. */
  predicate ClosesNested(x: Xml) {
    x.Element? &&
    exists i | 0 <= i < |x.children| ::
      if x.tag.Process? then ClosesProcess(x.children[i]) else ClosesNested(x.children[i])
  }

  /** What belongs to the process under way, the processes begun, and whether it is still under way. */
  datatype Toured = Toured(own: seq<Violation>, begun: seq<ProcessEntry>, count: nat, inside: bool)

  /** The walk with one rule more: the end of a process inside a process ends the outer one as well, and
      what follows is outside of any process. */
  function Tour(x: Xml, anc: seq<Ancestor>, count: nat, inside: bool): Toured
    decreases x, 1
  {
    if x.Content? then Toured([], [], count, inside)
    else if inside then
      var next := CountAfter(x.tag, anc, count);
      var inner := TourAll(x.children, anc + [ElementFrame(x.tag, x.attrs)], if x.tag.Event? then 0 else next, true);
      Toured(Collected(x.tag, x.attrs, anc, count) + inner.own, inner.begun, if x.tag.Event? then next else inner.count,
             inner.inside && !(x.tag.Process? && !IsEmptyTag(x)))
    else if x.tag.Process? then
      var inner := TourAll(x.children, anc + [ProcessFrame(x.attrs)], count, true);
      Toured([], [ProcessEntry(ProcessId(x.attrs), x.attrs.isExecutable, inner.own)] + inner.begun, inner.count, false)
    else
      var inner := TourAll(x.children, anc + [ElementFrame(x.tag, x.attrs)], if x.tag.Event? then 0 else count, false);
      Toured([], inner.begun, if x.tag.Event? then count else inner.count, false)
  }

  function TourAll(xs: seq<Xml>, anc: seq<Ancestor>, count: nat, inside: bool): Toured
    decreases xs, 0
  {
    if xs == [] then Toured([], [], count, inside)
    else
      var first := Tour(xs[0], anc, count, inside);
      var rest := TourAll(xs[1..], anc, first.count, first.inside);
      Toured(first.own + rest.own, first.begun + rest.begun, rest.count, rest.inside)
  }

  /** Outside there is no process to belong to. */
  lemma {:induction false} OutsideOwnsNothing(x: Xml, anc: seq<Ancestor>, count: nat)
    ensures Tour(x, anc, count, false).own == [] && !Tour(x, anc, count, false).inside
  {
  }

  lemma {:induction false} OutsideOwnsNothingInAll(xs: seq<Xml>, anc: seq<Ancestor>, count: nat)
    ensures TourAll(xs, anc, count, false).own == [] && !TourAll(xs, anc, count, false).inside
    decreases xs
  {
    if xs != [] {
      OutsideOwnsNothing(xs[0], anc, count);
      OutsideOwnsNothingInAll(xs[1..], anc, Tour(xs[0], anc, count, false).count);
    }
  }

  /** Inside a process the tour finds what the walk finds, up to the first process that is closed inside. */
  ghost predicate IsCut(f: Toured, w: Walked, closed: bool) {
    && (f.inside <==> !closed) && f.own <= w.violations
    && (!closed ==> f == Toured(w.violations, [], w.count, true))
  }

  lemma {:induction false} TourInside(x: Xml, anc: seq<Ancestor>, count: nat)
    ensures IsCut(Tour(x, anc, count, true), Walk(x, anc, count), ClosesProcess(x))
    decreases x, 1
  {
    if x.Element? {
      var inner := anc + [ElementFrame(x.tag, x.attrs)];
      TourAllInside(x.children, inner, if x.tag.Event? then 0 else CountAfter(x.tag, anc, count));
    }
  }

  lemma {:induction false} TourAllInside(xs: seq<Xml>, anc: seq<Ancestor>, count: nat)
    ensures IsCut(TourAll(xs, anc, count, true), WalkAll(xs, anc, count), exists i | 0 <= i < |xs| :: ClosesProcess(xs[i]))
    decreases xs, 0
  {
    if xs != [] {
      var first, w := Tour(xs[0], anc, count, true), Walk(xs[0], anc, count);
      TourInside(xs[0], anc, count);
      assert forall i | 0 <= i < |xs[1..]| :: xs[1..][i] == xs[i + 1];
      if first.inside {
        TourAllInside(xs[1..], anc, first.count);
      } else {
        OutsideOwnsNothingInAll(xs[1..], anc, first.count);
        assert first.own + [] == first.own;
      }
    }
  }

  /** If no process inside a process is closed, the tour is the walk. */
  lemma {:induction false} TourIsWalk(x: Xml, anc: seq<Ancestor>, count: nat)
    requires !ClosesNested(x)
    ensures var d := WalkDocument(x, anc, count); Tour(x, anc, count, false) == Toured([], d.entries, d.count, false)
    decreases x, 1
  {
    if x.Element? {
      if x.tag.Process? {
        TourAllInside(x.children, anc + [ProcessFrame(x.attrs)], count);
      } else {
        TourAllIsWalk(x.children, anc + [ElementFrame(x.tag, x.attrs)], if x.tag.Event? then 0 else count);
      }
    }
  }

  lemma {:induction false} TourAllIsWalk(xs: seq<Xml>, anc: seq<Ancestor>, count: nat)
    requires forall i | 0 <= i < |xs| :: !ClosesNested(xs[i])
    ensures var d := WalkDocuments(xs, anc, count); TourAll(xs, anc, count, false) == Toured([], d.entries, d.count, false)
    decreases xs, 0
  {
    if xs != [] {
      TourIsWalk(xs[0], anc, count);
      TourAllIsWalk(xs[1..], anc, WalkDocument(xs[0], anc, count).count);
    }
  }

  // ----- events with several definitions

  /** How many definitions belong to the event right around `xs`. */
  function Definitions(xs: seq<Xml>): nat
    decreases xs, 0
  {
    if xs == [] then 0 else DefinitionsIn(xs[0]) + Definitions(xs[1..])
  }

  function DefinitionsIn(x: Xml): nat
    decreases x, 1
  {
    if x.Content? then 0
    else (if x.tag.EventDefinition? then 1 else 0) + (if x.tag.Event? then 0 else Definitions(x.children))
  }

  /** How many events of the given kind and identifier have several definitions. */
  function Overloaded(xs: seq<Xml>, kind: EventKind, id: Id): nat
    decreases xs, 0
  {
    if xs == [] then 0 else OverloadedIn(xs[0], kind, id) + Overloaded(xs[1..], kind, id)
  }

  function OverloadedIn(x: Xml, kind: EventKind, id: Id): nat
    decreases x, 1
  {
    if x.Content? then 0
    else
      (if x.tag == Event(kind) && OrUnknown(x.attrs.id) == id && Definitions(x.children) >= 2 then 1 else 0)
      + Overloaded(x.children, kind, id)
  }

  function Reports(vs: seq<Violation>, kind: EventKind, id: Id): nat {
    if vs == [] then 0
    else Reports(vs[..|vs| - 1], kind, id) + if vs[|vs| - 1] == MultipleDefinitions(kind, id) then 1 else 0
  }

  lemma {:induction false} ReportsJoin(a: seq<Violation>, b: seq<Violation>, kind: EventKind, id: Id)
    ensures Reports(a + b, kind, id) == Reports(a, kind, id) + Reports(b, kind, id)
  {
    if b == [] {
      assert a + b == a;
    } else {
      assert (a + b)[..|a + b| - 1] == a + b[..|b| - 1];
      ReportsJoin(a, b[..|b| - 1], kind, id);
    }
  }

  /** Whether the event around gets its second definition between the two counts. */
  function Crossing(anc: seq<Ancestor>, kind: EventKind, id: Id, before: nat, after: nat): nat {
    var e := NearestEvent(anc);
    if e.Some? && e.value.tag == Event(kind) && OrUnknown(e.value.id) == id && before < 2 <= after then 1 else 0
  }

  lemma ElementReports(tag: Tag, attrs: Attributes, anc: seq<Ancestor>, count: nat, kind: EventKind, id: Id)
    ensures Reports(Collected(tag, attrs, anc, count), kind, id) ==
            Crossing(anc, kind, id, count, CountAfter(tag, anc, count))
  {
    var found := Collected(tag, attrs, anc, count);
    assert |found| <= 1;
    if |found| == 1 {
      assert found[..0] == [];
    }
  }

  lemma {:induction false} WalkReports(x: Xml, anc: seq<Ancestor>, count: nat, kind: EventKind, id: Id)
    ensures var w := Walk(x, anc, count);
            && (NearestEvent(anc).Some? ==> w.count == count + DefinitionsIn(x))
            && Reports(w.violations, kind, id) == Crossing(anc, kind, id, count, w.count) + OverloadedIn(x, kind, id)
    decreases x, 1
  {
    if x.Element? {
      var next, inside := CountAfter(x.tag, anc, count), anc + [ElementFrame(x.tag, x.attrs)];
      var from := if x.tag.Event? then 0 else next;
      ElementReports(x.tag, x.attrs, anc, count, kind, id);
      WalkAllReports(x.children, inside, from, kind, id);
      ReportsJoin(Collected(x.tag, x.attrs, anc, count), WalkAll(x.children, inside, from).violations, kind, id);
      assert inside[..|anc|] == anc;
    }
  }

  lemma {:induction false} WalkAllReports(xs: seq<Xml>, anc: seq<Ancestor>, count: nat, kind: EventKind, id: Id)
    ensures var w := WalkAll(xs, anc, count);
            && (NearestEvent(anc).Some? ==> w.count == count + Definitions(xs))
            && Reports(w.violations, kind, id) == Crossing(anc, kind, id, count, w.count) + Overloaded(xs, kind, id)
    decreases xs, 0
  {
    if xs != [] {
      var first := Walk(xs[0], anc, count);
      WalkReports(xs[0], anc, count, kind, id);
      WalkAllReports(xs[1..], anc, first.count, kind, id);
      ReportsJoin(first.violations, WalkAll(xs[1..], anc, first.count).violations, kind, id);
    }
  }

  /** In a process anywhere outside of events, several definitions are reported once for every event that has them. */
  lemma ProcessReports(process: Xml, anc: seq<Ancestor>, count: nat, kind: EventKind, id: Id)
    requires process.Element? && process.tag.Process? && NearestEvent(anc).None?
    ensures var entries := WalkDocument(process, anc, count).entries;
            |entries| == 1 && Reports(entries[0].violations, kind, id) == Overloaded(process.children, kind, id)
  {
    var inner := anc + [ProcessFrame(process.attrs)];
    assert inner[..|anc|] == anc;
    WalkAllReports(process.children, inner, count, kind, id);
  }

  /** The processes of a document, in order. */
  function Processes(x: Xml): seq<Xml>
    decreases x, 1
  {
    if x.Content? then [] else if x.tag.Process? then [x] else ProcessesIn(x.children)
  }

  function ProcessesIn(xs: seq<Xml>): seq<Xml>
    decreases xs, 0
  {
    if xs == [] then [] else Processes(xs[0]) + ProcessesIn(xs[1..])
  }

  /** No event holds a process. */
  predicate EventsAreInside(x: Xml) {
    x.Element? && !x.tag.Process? ==>
      (if x.tag.Event? then ProcessesIn(x.children) == []
       else forall i | 0 <= i < |x.children| :: EventsAreInside(x.children[i]))
  }

  /** Each entry reports what its process holds. */
  ghost predicate ReportsMatch(entries: seq<ProcessEntry>, processes: seq<Xml>, kind: EventKind, id: Id) {
    && |entries| == |processes|
    && forall i | 0 <= i < |entries| ::
         processes[i].Element? && Reports(entries[i].violations, kind, id) == Overloaded(processes[i].children, kind, id)
  }

  lemma {:induction false} EntryPerProcess(x: Xml, anc: seq<Ancestor>, count: nat)
    ensures |WalkDocument(x, anc, count).entries| == |Processes(x)|
    decreases x, 1
  {
    if x.Element? && !x.tag.Process? {
      EntryPerProcessIn(x.children, anc + [ElementFrame(x.tag, x.attrs)], if x.tag.Event? then 0 else count);
    }
  }

  lemma {:induction false} EntryPerProcessIn(xs: seq<Xml>, anc: seq<Ancestor>, count: nat)
    ensures |WalkDocuments(xs, anc, count).entries| == |ProcessesIn(xs)|
    decreases xs, 0
  {
    if xs != [] {
      EntryPerProcess(xs[0], anc, count);
      EntryPerProcessIn(xs[1..], anc, WalkDocument(xs[0], anc, count).count);
    }
  }

  lemma {:induction false} DocumentReports(x: Xml, anc: seq<Ancestor>, count: nat, kind: EventKind, id: Id)
    requires NearestEvent(anc).None? && EventsAreInside(x)
    ensures ReportsMatch(WalkDocument(x, anc, count).entries, Processes(x), kind, id)
    decreases x, 1
  {
    if x.Element? {
      var f := ElementFrame(x.tag, x.attrs);
      if x.tag.Process? {
        ProcessReports(x, anc, count, kind, id);
      } else if x.tag.Event? {
        EntryPerProcessIn(x.children, anc + [f], 0);
      } else {
        assert (anc + [f])[..|anc|] == anc;
        DocumentsReport(x.children, anc + [f], count, kind, id);
      }
    }
  }

  lemma {:induction false} DocumentsReport(xs: seq<Xml>, anc: seq<Ancestor>, count: nat, kind: EventKind, id: Id)
    requires NearestEvent(anc).None? && forall i | 0 <= i < |xs| :: EventsAreInside(xs[i])
    ensures ReportsMatch(WalkDocuments(xs, anc, count).entries, ProcessesIn(xs), kind, id)
    decreases xs, 0
  {
    if xs != [] {
      DocumentReports(xs[0], anc, count, kind, id);
      DocumentsReport(xs[1..], anc, WalkDocument(xs[0], anc, count).count, kind, id);
    }
  }
}
