/** Scanning an XML document event by event is walking its tree. */
module XmlRuns {
  import opened Common
  import opened XmlScan
  import opened XmlWalk

  // ----- pushing and counting

  lemma PushShape(stack: seq<Frame>, f: Frame)
    ensures Shape(stack + [f]) == Shape(stack) + [f.element]
  {
  }

  lemma PushCount(stack: seq<Frame>, f: Frame, count: nat)
    ensures f.element.tag.Event? ==>
              Count(stack + [f]) == f.eventDefs && WithCount(stack + [f], count) == stack + [f.(eventDefs := count)]
    ensures !f.element.tag.Event? ==>
              Count(stack + [f]) == Count(stack) && WithCount(stack + [f], count) == WithCount(stack, count) + [f]
  {
    assert (stack + [f])[..|stack|] == stack;
  }

  lemma {:induction false} CountingKeepsShape(stack: seq<Frame>, count: nat)
    ensures Shape(WithCount(stack, count)) == Shape(stack)
  {
    if stack != [] {
      var n := |stack| - 1;
      ShapeOfPrefix(stack);
      CountingKeepsShape(stack[..n], count);
      assert Shape(stack) == Shape(stack[..n]) + [stack[n].element];
      if !stack[n].element.tag.Event? {
        PushShape(WithCount(stack[..n], count), stack[n]);
      }
    }
  }

  lemma {:induction false} Counted(stack: seq<Frame>, a: nat, b: nat)
    ensures WithCount(WithCount(stack, a), b) == WithCount(stack, b)
    ensures NearestEvent(Shape(stack)).Some? ==> Count(WithCount(stack, a)) == a
    ensures NearestEvent(Shape(stack)).None? ==> Count(stack) == 0 && WithCount(stack, a) == stack
  {
    if stack != [] {
      var n := |stack| - 1;
      ShapeOfPrefix(stack);
      Counted(stack[..n], a, b);
      if !stack[n].element.tag.Event? {
        PushCount(WithCount(stack[..n], a), stack[n], b);
      }
    }
  }

  // ----- runs

  lemma {:induction false} RunTwice(s: ScanState, es: seq<XmlEvent>, more: seq<XmlEvent>)
    requires Valid(s)
    ensures Run(s, es + more) == Run(Run(s, es), more)
    decreases |es|
  {
    if es == [] {
      assert es + more == more;
    } else {
      assert (es + more)[0] == es[0] && (es + more)[1..] == es[1..] + more;
      RunTwice(Step(s, es[0]), es[1..], more);
    }
  }

  /** An element in three parts. */
  lemma RunElement(s: ScanState, x: Xml)
    requires Valid(s) && x.Element? && !IsEmptyTag(x)
    ensures Run(s, Events(x)) == OnEnd(Run(OnTag(s, x.tag, x.attrs, true), EventsOfAll(x.children)), x.tag)
  {
    var open, inner, close := [Start(x.tag, x.attrs)], EventsOfAll(x.children), [End(x.tag)];
    RunTwice(s, open + inner, close);
    RunTwice(s, open, inner);
    assert open[1..] == [] && close[1..] == [];
  }

  lemma CountIs(stack: seq<Frame>, count: nat)
    requires NearestEvent(Shape(stack)).None? ==> count == 0
    ensures Count(WithCount(stack, count)) == count
  {
    Counted(stack, count, count);
  }

  /** Without an event around, nothing is counted. */
  lemma {:induction false} NothingToCount(x: Xml, anc: seq<Ancestor>, count: nat, inside: bool)
    requires NearestEvent(anc).None?
    ensures Tour(x, anc, count, inside).count == count
    decreases x, 1
  {
    if x.Element? && !x.tag.Event? {
      var f := if x.tag.Process? && !inside then ProcessFrame(x.attrs) else ElementFrame(x.tag, x.attrs);
      assert (anc + [f])[..|anc|] == anc;
      NothingToCountInAll(x.children, anc + [f], count, inside || x.tag.Process?);
    }
  }

  lemma {:induction false} NothingToCountInAll(xs: seq<Xml>, anc: seq<Ancestor>, count: nat, inside: bool)
    requires NearestEvent(anc).None?
    ensures TourAll(xs, anc, count, inside).count == count
    decreases xs, 0
  {
    if xs != [] {
      NothingToCount(xs[0], anc, count, inside);
      NothingToCountInAll(xs[1..], anc, count, Tour(xs[0], anc, count, inside).inside);
    }
  }

  // ----- what a tour adds to a scan

  function Heads(entries: seq<ProcessEntry>): seq<(Id, bool)> {
    seq(|entries|, i requires 0 <= i < |entries| => (entries[i].id, entries[i].isExecutable))
  }

  function Lists(entries: seq<ProcessEntry>): seq<seq<Violation>> {
    seq(|entries|, i requires 0 <= i < |entries| => entries[i].violations)
  }

  lemma EntriesJoin(a: seq<ProcessEntry>, b: seq<ProcessEntry>)
    ensures Heads(a + b) == Heads(a) + Heads(b) && Lists(a + b) == Lists(a) + Lists(b)
  {
  }

  function Extended(s: ScanState, own: seq<Violation>): seq<seq<Violation>>
    requires Valid(s)
  {
    if s.current.None? then s.violations
    else s.violations[s.current.value := s.violations[s.current.value] + own]
  }

  function After(s: ScanState, f: Toured): (r: ScanState)
    requires Valid(s)
    ensures Valid(r)
  {
    ScanState(
      WithCount(s.stack, f.count),
      s.processes + Heads(f.begun),
      Extended(s, f.own) + Lists(f.begun),
      if f.inside then s.current else None)
  }

  function TourFrom(s: ScanState, x: Xml): Toured { Tour(x, Shape(s.stack), Count(s.stack), s.current.Some?) }

  function TourAllFrom(s: ScanState, xs: seq<Xml>): Toured { TourAll(xs, Shape(s.stack), Count(s.stack), s.current.Some?) }

  lemma AfterNothing(s: ScanState)
    requires Valid(s)
    ensures After(s, Toured([], [], Count(s.stack), s.current.Some?)) == s
  {
    SameCount(s.stack);
    assert s.processes + [] == s.processes && s.violations + [] == s.violations;
    if s.current.Some? {
      assert s.violations[s.current.value] + [] == s.violations[s.current.value];
    }
  }

  lemma ExtendedTwice(s: ScanState, a: Toured, own: seq<Violation>)
    requires Valid(s) && (a.inside ==> s.current.Some?) && (!a.inside ==> own == [])
    ensures Extended(After(s, a), own) == Extended(s, a.own + own) + Lists(a.begun)
  {
    if a.inside {
      var found := s.violations[s.current.value];
      assert found + a.own + own == found + (a.own + own);
    } else {
      assert a.own + own == a.own;
    }
  }

  lemma AfterTwice(s: ScanState, a: Toured, b: Toured)
    requires Valid(s) && (a.inside ==> s.current.Some?) && (b.inside ==> a.inside) && (!a.inside ==> b.own == [])
    ensures After(After(s, a), b) == After(s, Toured(a.own + b.own, a.begun + b.begun, b.count, b.inside))
  {
    Counted(s.stack, a.count, b.count);
    EntriesJoin(a.begun, b.begun);
    ExtendedTwice(s, a, b.own);
    assert s.processes + Heads(a.begun) + Heads(b.begun) == s.processes + (Heads(a.begun) + Heads(b.begun));
    var lists := Extended(s, a.own + b.own);
    assert lists + Lists(a.begun) + Lists(b.begun) == lists + (Lists(a.begun) + Lists(b.begun));
  }

  // ----- opening and closing

  lemma OpenedInside(s: ScanState, tag: Tag, attrs: Attributes)
    requires Valid(s) && s.current.Some?
    ensures var inner, anc, count := OnTag(s, tag, attrs, true), Shape(s.stack), Count(s.stack);
            && inner.stack == WithCount(s.stack, CountAfter(tag, anc, count)) + [Frame(ElementFrame(tag, attrs), 0)]
            && Shape(inner.stack) == anc + [ElementFrame(tag, attrs)]
            && Count(inner.stack) == if tag.Event? then 0 else CountAfter(tag, anc, count)
  {
    var next := CountAfter(tag, Shape(s.stack), Count(s.stack));
    var frame := Frame(ElementFrame(tag, attrs), 0);
    CountingKeepsShape(s.stack, next);
    PushShape(WithCount(s.stack, next), frame);
    PushCount(WithCount(s.stack, next), frame, 0);
    Counted(s.stack, 0, 0);
    CountIs(s.stack, next);
  }

  lemma ListsInside(s: ScanState, tag: Tag, attrs: Attributes, own: seq<Violation>)
    requires Valid(s) && s.current.Some?
    ensures Extended(OnTag(s, tag, attrs, true), own) ==
            Extended(s, Collected(tag, attrs, Shape(s.stack), Count(s.stack)) + own)
  {
    var found, idx := Collected(tag, attrs, Shape(s.stack), Count(s.stack)), s.current.value;
    assert s.violations[idx] + found + own == s.violations[idx] + (found + own);
  }

  lemma StackInside(s: ScanState, tag: Tag, attrs: Attributes, count: nat)
    requires Valid(s) && s.current.Some?
    ensures var stack, n := WithCount(OnTag(s, tag, attrs, true).stack, count), |s.stack|;
            var next := CountAfter(tag, Shape(s.stack), Count(s.stack));
            && |stack| == n + 1 && stack[n].element == ElementFrame(tag, attrs)
            && stack[..n] == WithCount(s.stack, if tag.Event? then next else count)
  {
    var next := CountAfter(tag, Shape(s.stack), Count(s.stack));
    PushCount(WithCount(s.stack, next), Frame(ElementFrame(tag, attrs), 0), count);
    Counted(s.stack, next, count);
  }

  lemma CloseInside(s: ScanState, tag: Tag, attrs: Attributes, inner: Toured)
    requires Valid(s) && s.current.Some?
    ensures var next := CountAfter(tag, Shape(s.stack), Count(s.stack));
            var found := Collected(tag, attrs, Shape(s.stack), Count(s.stack));
            OnEnd(After(OnTag(s, tag, attrs, true), inner), tag) ==
            After(s, Toured(found + inner.own, inner.begun, if tag.Event? then next else inner.count,
                            inner.inside && !tag.Process?))
  {
    StackInside(s, tag, attrs, inner.count);
    ListsInside(s, tag, attrs, inner.own);
  }

  lemma CloseProcess(s: ScanState, attrs: Attributes, inner: Toured)
    requires Valid(s) && s.current.None?
    ensures var entry := ProcessEntry(ProcessId(attrs), attrs.isExecutable, inner.own);
            OnEnd(After(OnTag(s, Process, attrs, true), inner), Process) ==
            After(s, Toured([], [entry] + inner.begun, inner.count, false))
  {
    var entry := ProcessEntry(ProcessId(attrs), attrs.isExecutable, inner.own);
    var begun := OnTag(s, Process, attrs, true);
    PushCount(s.stack, Frame(ProcessFrame(attrs), 0), inner.count);
    EntriesJoin([entry], inner.begun);
    assert [] + inner.own == inner.own;
    assert Extended(begun, inner.own) == s.violations + Lists([entry]);
    assert s.violations + Lists([entry]) + Lists(inner.begun) == s.violations + (Lists([entry]) + Lists(inner.begun));
    assert begun.processes + Heads(inner.begun) == s.processes + (Heads([entry]) + Heads(inner.begun));
  }

  lemma CloseOutside(s: ScanState, tag: Tag, attrs: Attributes, inner: Toured)
    requires Valid(s) && s.current.None? && !tag.Process?
    ensures OnEnd(After(OnTag(s, tag, attrs, true), inner), tag) ==
            After(s, Toured([], inner.begun, if tag.Event? then Count(s.stack) else inner.count, false))
  {
    PushCount(s.stack, Frame(ElementFrame(tag, attrs), 0), inner.count);
    SameCount(s.stack);
  }

  // ----- the scan is the tour

  lemma EmptyTagScanned(s: ScanState, x: Xml)
    requires Valid(s) && IsEmptyTag(x)
    ensures Run(s, Events(x)) == After(s, TourFrom(s, x))
  {
    var anc, count := Shape(s.stack), Count(s.stack);
    assert Events(x)[1..] == [];
    assert Run(s, Events(x)) == OnTag(s, x.tag, x.attrs, false);
    if s.current.Some? {
      var found := Collected(x.tag, x.attrs, anc, count);
      assert Tour(x, anc, count, true) == Toured(found + [], [], CountAfter(x.tag, anc, count), true);
      assert found + [] == found;
      assert Extended(s, found) + [] == Extended(s, found) && s.processes + [] == s.processes;
    } else if x.tag.Process? {
      var entry := ProcessEntry(ProcessId(x.attrs), x.attrs.isExecutable, []);
      assert Tour(x, anc, count, false) == Toured([], [entry] + [], count, false);
      assert [entry] + [] == [entry];
      assert Heads([entry]) == [(ProcessId(x.attrs), x.attrs.isExecutable)] && Lists([entry]) == [[]];
      SameCount(s.stack);
    } else {
      assert Tour(x, anc, count, false) == Toured([], [], count, false);
      AfterNothing(s);
    }
  }

  lemma TourCountIsProper(s: ScanState, x: Xml)
    ensures NearestEvent(Shape(s.stack)).None? ==> TourFrom(s, x).count == 0
  {
    Counted(s.stack, 0, 0);
    if NearestEvent(Shape(s.stack)).None? { NothingToCount(x, Shape(s.stack), 0, s.current.Some?); }
  }

  /** The state after an element goes on where the tour goes on. */
  lemma GoesOn(s: ScanState, x: Xml)
    requires Valid(s)
    ensures var first := TourFrom(s, x); var mid := After(s, first);
            && (first.inside ==> s.current.Some?)
            && Shape(mid.stack) == Shape(s.stack) && Count(mid.stack) == first.count
            && (mid.current.Some? <==> first.inside)
  {
    var first := TourFrom(s, x);
    if s.current.None? { OutsideOwnsNothing(x, Shape(s.stack), Count(s.stack)); }
    CountingKeepsShape(s.stack, first.count);
    TourCountIsProper(s, x);
    CountIs(s.stack, first.count);
  }

  lemma {:induction false} ScanAll(s: ScanState, xs: seq<Xml>)
    requires Valid(s)
    ensures Run(s, EventsOfAll(xs)) == After(s, TourAllFrom(s, xs))
    decreases xs, 0
  {
    if xs == [] {
      AfterNothing(s);
    } else {
      var first := TourFrom(s, xs[0]);
      var mid := After(s, first);
      RunTwice(s, Events(xs[0]), EventsOfAll(xs[1..]));
      Scan(s, xs[0]);
      GoesOn(s, xs[0]);
      ScanAll(mid, xs[1..]);
      var rest := TourAllFrom(mid, xs[1..]);
      if !first.inside { OutsideOwnsNothingInAll(xs[1..], Shape(s.stack), first.count); }
      AfterTwice(s, first, rest);
    }
  }

  /** Scanning an element, in whatever state, adds what the tour finds in it. */
  lemma {:induction false} Scan(s: ScanState, x: Xml)
    requires Valid(s)
    ensures Run(s, Events(x)) == After(s, TourFrom(s, x))
    decreases x, 1
  {
    if x.Content? {
      AfterNothing(s);
    } else if IsEmptyTag(x) {
      EmptyTagScanned(s, x);
    } else {
      var begun := OnTag(s, x.tag, x.attrs, true);
      RunElement(s, x);
      ScanAll(begun, x.children);
      ScanElement(s, x, TourAllFrom(begun, x.children));
    }
  }

  lemma ScanElement(s: ScanState, x: Xml, inner: Toured)
    requires Valid(s) && x.Element? && !IsEmptyTag(x)
    requires inner == TourAllFrom(OnTag(s, x.tag, x.attrs, true), x.children)
    ensures OnEnd(After(OnTag(s, x.tag, x.attrs, true), inner), x.tag) == After(s, TourFrom(s, x))
  {
    if s.current.Some? {
      OpenedInside(s, x.tag, x.attrs);
      CloseInside(s, x.tag, x.attrs, inner);
    } else if x.tag.Process? {
      PushShape(s.stack, Frame(ProcessFrame(x.attrs), 0));
      PushCount(s.stack, Frame(ProcessFrame(x.attrs), 0), 0);
      CloseProcess(s, x.attrs, inner);
    } else {
      PushShape(s.stack, Frame(ElementFrame(x.tag, x.attrs), 0));
      PushCount(s.stack, Frame(ElementFrame(x.tag, x.attrs), 0), 0);
      CloseOutside(s, x.tag, x.attrs, inner);
    }
  }

  /** For every document, the scan finds exactly what the tour finds. */
  lemma ScanIsTour(x: Xml)
    ensures var found := Tour(x, [], 0, false).begun;
            Run(FRESH, Events(x)) == ScanState([], Heads(found), Lists(found), None)
  {
    Scan(FRESH, x);
    OutsideOwnsNothing(x, [], 0);
  }

  /** For every document in which no process inside a process is closed, the scan finds what the walk finds. */
  lemma ScanIsWalk(x: Xml)
    requires !ClosesNested(x)
    ensures var found := WalkDocument(x, [], 0).entries;
            Run(FRESH, Events(x)) == ScanState([], Heads(found), Lists(found), None)
  {
    ScanIsTour(x);
    TourIsWalk(x, [], 0);
  }

  /** In every such document whose events hold no processes, the scan reports several definitions exactly once
      for every event that has them, in the list of its process. */
  lemma ReportedOncePerEvent(x: Xml, kind: EventKind, id: Id, i: nat)
    requires !ClosesNested(x) && EventsAreInside(x) && i < |Processes(x)|
    ensures var lists := Run(FRESH, Events(x)).violations;
            && |lists| == |Processes(x)| && Processes(x)[i].Element?
            && Reports(lists[i], kind, id) == Overloaded(Processes(x)[i].children, kind, id)
  {
    ScanIsWalk(x);
    DocumentReports(x, [], 0, kind, id);
  }

  /** An empty tag is a start and an end, except for a process inside a process, which only the end closes. */
  lemma EmptyTagIsStartAndEnd(s: ScanState, tag: Tag, attrs: Attributes)
    requires Valid(s)
    ensures Run(s, [Empty(tag, attrs)]) == Run(s, [Start(tag, attrs), End(tag)]) <==> !(tag.Process? && s.current.Some?)
  {
    var both := [Start(tag, attrs), End(tag)];
    var begun := OnTag(s, tag, attrs, true);
    var closed := OnEnd(begun, tag);
    assert both[1..] == [End(tag)] && [End(tag)][1..] == [];
    assert Run(begun, [End(tag)]) == closed;
    assert Run(s, both) == closed;
    assert [Empty(tag, attrs)][1..] == [];
    assert Run(s, [Empty(tag, attrs)]) == OnTag(s, tag, attrs, false);
    assert closed.stack == OnTag(s, tag, attrs, false).stack;
  }

  // ----- processes inside processes

  /** A process stays the current one as long as no process inside it is closed; a document that closes
      one loses the rest of the outer process. */
  lemma CurrentAfter(s: ScanState, x: Xml)
    requires Valid(s)
    ensures var after := Run(s, Events(x));
            && Shape(after.stack) == Shape(s.stack)
            && after.current == if ClosesProcess(x) then None else s.current
  {
    Scan(s, x);
    CountingKeepsShape(s.stack, TourFrom(s, x).count);
    if s.current.Some? {
      TourInside(x, Shape(s.stack), Count(s.stack));
    } else {
      OutsideOwnsNothing(x, Shape(s.stack), Count(s.stack));
    }
  }

  const PLAIN := Attributes(None, false, false, false, false)

  /** A task after an inner process. */
  const NESTED := Element(Process, PLAIN, [INNER, TASK], false)

  const INNER := Element(Process, PLAIN, [], false)
  const TASK := Element(Task, PLAIN, [], true)

  lemma ScanOfNested()
    ensures Run(FRESH, Events(NESTED)).violations == [[]]
  {
    var begun := OnTag(FRESH, Process, PLAIN, true);
    RunElement(FRESH, NESTED);
    assert EventsOfAll(NESTED.children) == Events(INNER) + EventsOfAll([TASK]) by {
      assert NESTED.children[1..] == [TASK];
    }
    RunTwice(begun, Events(INNER), EventsOfAll([TASK]));
    ScanOfInner(begun);
    ScanOfTask(Run(begun, Events(INNER)));
  }

  lemma ScanOfTask(s: ScanState)
    requires Valid(s) && s.current.None?
    ensures Run(s, EventsOfAll([TASK])).violations == s.violations
  {
    assert [TASK][1..] == [];
    assert EventsOfAll([TASK]) == [Empty(Task, PLAIN)] && [Empty(Task, PLAIN)][1..] == [];
  }

  lemma ScanOfInner(s: ScanState)
    requires Valid(s) && s.current.Some?
    ensures Run(s, Events(INNER)).current.None? && Run(s, Events(INNER)).violations == s.violations
  {
    var begun := OnTag(s, Process, PLAIN, true);
    RunElement(s, INNER);
    assert Run(begun, EventsOfAll([])) == begun;
    assert s.violations[s.current.value] + [] == s.violations[s.current.value];
    assert begun.violations == s.violations;
  }

  lemma WalkOfNested(anc: seq<Ancestor>)
    requires anc == [ProcessFrame(PLAIN)]
    ensures WalkAll(NESTED.children, anc, 0).violations == [UnsupportedElement(Task, UNKNOWN)]
  {
    assert NESTED.children[1..] == [TASK] && [TASK][1..] == [] && anc[..0] == [];
    assert Walk(INNER, anc, 0) == Walked([] + [], 0);
    assert NearestId(None, anc) == UNKNOWN;
    assert Walk(TASK, anc, 0).violations == [UnsupportedElement(Task, UNKNOWN)] + [];
    assert WalkAll([TASK], anc, 0).violations == [UnsupportedElement(Task, UNKNOWN)];
  }

  /** A task that follows an inner process goes unreported, though the walk reports it. */
  lemma NestedProcessHidesRest()
    ensures Run(FRESH, Events(NESTED)).violations == [[]]
    ensures WalkDocument(NESTED, [], 0).entries[0].violations == [UnsupportedElement(Task, UNKNOWN)]
  {
    ScanOfNested();
    var anc := [ProcessFrame(PLAIN)];
    assert [] + anc == anc;
    WalkOfNested(anc);
  }
}
