/** Which violations are due in a document, said about its tree; and that the scan reports exactly these. */
module XmlDue {
  import opened Common
  import opened XmlScan
  import opened XmlWalk
  import opened XmlRuns

  // ----- places in a tree: an element, and the elements around it, the outermost first

  predicate IsNamed(x: Xml) { x.Element? && x.attrs.id.Some? && x.attrs.id.value != 0 }

  /** The identifier of the nearest element that has one, from the last one on outwards; `?` if none has. */
  ghost predicate IsNearestId(places: seq<Xml>, id: Id) {
    if exists k | 0 <= k < |places| :: IsNamed(places[k]) then
      exists k | 0 <= k < |places| :: IsNamed(places[k]) && places[k].attrs.id == Some(id) && forall j | k < j < |places| :: !IsNamed(places[j])
    else id == UNKNOWN
  }

  predicate IsSub(x: Xml) { x.Element? && x.tag.SubProcess? }

  /** The innermost sub-process. */
  predicate IsInnermostSub(path: seq<Xml>, k: nat) {
    k < |path| && IsSub(path[k]) && forall j | k < j < |path| :: !IsSub(path[j])
  }

  predicate IsEventSub(x: Xml) { IsSub(x) && x.attrs.triggeredByEvent }

  predicate IsOwnId(x: Xml, id: Id) { x.Element? && id == if x.attrs.id.Some? then x.attrs.id.value else UNKNOWN }

  /** The innermost sub-process is the one with the identifier `inside`, and no event sub-process. */
  ghost predicate IsInPlainSub(path: seq<Xml>, inside: Id) {
    exists k: nat :: IsInnermostSub(path, k) && !IsEventSub(path[k]) && IsOwnId(path[k], inside)
  }

  // ----- event definitions

  /** The first definition that belongs to the event right around `xs`, and the elements around it. */
  function FirstOf(xs: seq<Xml>, path: seq<Xml>): Option<(DefinitionKind, seq<Xml>)>
    decreases xs, 0
  {
    if xs == [] then None
    else
      var first := FirstIn(xs[0], path);
      if first.Some? then first else FirstOf(xs[1..], path)
  }

  function FirstIn(x: Xml, path: seq<Xml>): Option<(DefinitionKind, seq<Xml>)>
    decreases x, 1
  {
    if x.Content? || x.tag.Event? then None
    else if x.tag.EventDefinition? then Some((x.tag.definition, path))
    else FirstOf(x.children, path + [x])
  }

  /** The definitions that each kind of event supports. */
  function SupportedBy(kind: EventKind): set<DefinitionKind> {
    match kind
    case BoundaryEvent => {Compensate, Conditional, Error, Escalation, Message, Signal, Timer}
    case EndEvent => {Compensate, Error, Escalation, Signal, Terminate}
    case IntermediateCatchEvent => {Conditional, Link, Message, Signal, Timer}
    case IntermediateThrowEvent => {Compensate, Escalation, Link, Message, Signal}
    case StartEvent => {Message, Signal, Timer}
  }

  /** The definitions that are refused with a reason of their own. */
  function RefusedBy(kind: EventKind): set<DefinitionKind> {
    match kind
    case BoundaryEvent => {Cancel}
    case EndEvent => {Cancel}
    case StartEvent => {Conditional}
    case _ => {}
  }

  /** A start with this definition, somewhere inside an event sub-process, starts that. */
  ghost predicate StartsEventSub(kind: EventKind, d: DefinitionKind, path: seq<Xml>) {
    && kind == StartEvent && d in {Message, Timer, Signal, Error, Escalation}
    && exists k | 0 <= k < |path| :: IsEventSub(path[k])
  }

  /** The violation `v` is due for an event of the given kind and identifier whose first definition is `d`, with the
      elements of `path` around that. */
  ghost predicate IsDueForFirst(kind: EventKind, id: Id, d: DefinitionKind, path: seq<Xml>, v: Violation) {
    match v
    case CancelEvent(k, i) => k == kind && i == id && d == Cancel && d in RefusedBy(kind)
    case ConditionalStart(i, sub) =>
      && i == id && d == Conditional && d in RefusedBy(kind)
      && if sub.Some? then IsInPlainSub(path, sub.value) else forall inside: Id :: !IsInPlainSub(path, inside)
    case UnsupportedDefinition(e, k, i) =>
      e == d && k == kind && i == id && d !in RefusedBy(kind) && d !in SupportedBy(kind) && !StartsEventSub(kind, d, path)
    case StartNotExecuted(e, i, inside) =>
      && e == d && i == id && kind == StartEvent && d in SupportedBy(kind) && !StartsEventSub(kind, d, path)
      && IsInPlainSub(path, inside)
    case _ => false
  }

  /** The violation is due for the event `x`. */
  ghost predicate IsDueForEvent(x: Xml, path: seq<Xml>, kind: EventKind, id: Id, v: Violation)
    requires x.Element?
  {
    var first := FirstOf(x.children, path + [x]);
    || (first.Some? && IsDueForFirst(kind, id, first.value.0, first.value.1, v))
    || (Definitions(x.children) >= 2 && v == MultipleDefinitions(kind, id))
  }

  // ----- all violations

  /** The violation `v` is due at the element `x`. */
  ghost predicate IsDue(x: Xml, path: seq<Xml>, v: Violation) {
    x.Element? &&
    match x.tag
    case Event(kind) => IsDueForEvent(x, path, kind, if x.attrs.id.Some? then x.attrs.id.value else UNKNOWN, v)
    case SubProcess =>
      && v.NestedEventSubProcess? && x.attrs.triggeredByEvent && IsNearestId(path + [x], v.id)
      && exists k: nat :: IsInnermostSub(path, k) && IsOwnId(path[k], v.parent)
    case ReceiveTask =>
      && v.InstantiatingReceive? && x.attrs.instantiate && IsNearestId(path + [x], v.id)
      && exists k | 0 <= k < |path| :: IsSub(path[k])
    case EventBasedGateway =>
      v.InstantiatingGateway? && (x.attrs.instantiate || x.attrs.parallel) && IsNearestId(path + [x], v.id)
    case AdHocSubProcess => v.UnsupportedElement? && v.tag == x.tag && IsNearestId(path + [x], v.id)
    case StandardLoopCharacteristics => v.UnsupportedElement? && v.tag == x.tag && IsNearestId(path + [x], v.id)
    case Task => v.UnsupportedElement? && v.tag == x.tag && IsNearestId(path + [x], v.id)
    case Transaction => v.UnsupportedElement? && v.tag == x.tag && IsNearestId(path + [x], v.id)
    case _ => false
  }

  /** At how many places it is due. */
  ghost function Dues(xs: seq<Xml>, path: seq<Xml>, v: Violation): nat
    decreases xs, 0
  {
    if xs == [] then 0 else DuesIn(xs[0], path, v) + Dues(xs[1..], path, v)
  }

  ghost function DuesIn(x: Xml, path: seq<Xml>, v: Violation): nat
    decreases x, 1
  {
    if x.Content? then 0 else (if IsDue(x, path, v) then 1 else 0) + Dues(x.children, path + [x], v)
  }

  /** How often it is in a list. */
  function Times(vs: seq<Violation>, v: Violation): nat {
    if vs == [] then 0 else Times(vs[..|vs| - 1], v) + if vs[|vs| - 1] == v then 1 else 0
  }

  lemma {:induction false} TimesJoin(a: seq<Violation>, b: seq<Violation>, v: Violation)
    ensures Times(a + b, v) == Times(a, v) + Times(b, v)
  {
    if b == [] {
      assert a + b == a;
    } else {
      assert (a + b)[..|a + b| - 1] == a + b[..|b| - 1];
      TimesJoin(a, b[..|b| - 1], v);
    }
  }

  lemma TimesOfOne(w: Violation, v: Violation)
    ensures Times([w], v) == (if w == v then 1 else 0) && Times([], v) == 0
  {
    assert [w][..0] == [];
  }

  // ----- ancestors are elements

  /** What the walk knows of an open element. */
  ghost predicate IsFrame(a: Ancestor, x: Xml) {
    && x.Element? && a.tag == x.tag && (a.triggeredByEvent <==> IsEventSub(x))
    && (a.id == x.attrs.id || (x.tag.Process? && !IsNamed(x) && a.id.None?))
  }

  ghost predicate AreFrames(anc: seq<Ancestor>, path: seq<Xml>) {
    |anc| == |path| && forall k | 0 <= k < |path| :: IsFrame(anc[k], path[k])
  }

  lemma FramesGrow(anc: seq<Ancestor>, path: seq<Xml>, a: Ancestor, x: Xml)
    requires AreFrames(anc, path) && IsFrame(a, x)
    ensures AreFrames(anc + [a], path + [x])
  {
  }

  lemma {:induction false} NearestIdIs(anc: seq<Ancestor>, path: seq<Xml>, x: Xml, own: Option<Id>, id: Id)
    requires AreFrames(anc, path) && x.Element? && (own == x.attrs.id || (x.tag.Process? && !IsNamed(x) && own.None?))
    ensures IsNearestId(path + [x], id) <==> id == NearestId(own, anc)
    decreases |anc|
  {
    var places := path + [x];
    if IsNamed(x) {
      assert places[|path|] == x;
    } else if path == [] {
      assert forall k | 0 <= k < |places| :: !IsNamed(places[k]);
    } else {
      var n := |path| - 1;
      assert path == path[..n] + [path[n]];
      NearestIdIs(anc[..n], path[..n], path[n], anc[n].id, id);
      NearestStays(path, x, id);
    }
  }

  lemma NearestStays(path: seq<Xml>, x: Xml, id: Id)
    requires !IsNamed(x)
    ensures IsNearestId(path + [x], id) <==> IsNearestId(path, id)
  {
    var places := path + [x];
    assert forall k | 0 <= k < |path| :: places[k] == path[k];
    assert places[|path|] == x;
    if k :| 0 <= k < |path| && IsNamed(path[k]) { assert IsNamed(places[k]); }
    if IsNearestId(path, id) {
      if k :| 0 <= k < |path| && IsNamed(path[k]) && path[k].attrs.id == Some(id) && forall j | k < j < |path| :: !IsNamed(path[j]) {
        assert IsNamed(places[k]) && forall j | k < j < |places| :: !IsNamed(places[j]);
      }
    }
  }

  lemma {:induction false} InnermostSubIs(anc: seq<Ancestor>, path: seq<Xml>)
    requires AreFrames(anc, path)
    ensures var a := NearestSubProcess(anc);
            if a.None? then forall k | 0 <= k < |path| :: !IsSub(path[k])
            else exists k: nat :: IsInnermostSub(path, k) && anc[k] == a.value
  {
    if anc != [] {
      var n := |anc| - 1;
      if IsSub(path[n]) {
        assert IsInnermostSub(path, n);
      } else {
        InnermostSubIs(anc[..n], path[..n]);
        if NearestSubProcess(anc).Some? {
          var k: nat :| IsInnermostSub(path[..n], k) && anc[..n][k] == NearestSubProcess(anc).value;
          assert IsInnermostSub(path, k);
        }
      }
    }
  }

  lemma InnermostIsUnique(path: seq<Xml>, k: nat, l: nat)
    requires IsInnermostSub(path, k) && IsInnermostSub(path, l)
    ensures k == l
  {
  }

  lemma PlainSubIs(anc: seq<Ancestor>, path: seq<Xml>, inside: Id)
    requires AreFrames(anc, path)
    ensures IsInPlainSub(path, inside) <==> PlainSubProcess(anc) == Some(inside)
  {
    InnermostSubIs(anc, path);
    if NearestSubProcess(anc).Some? {
      var k: nat :| IsInnermostSub(path, k) && anc[k] == NearestSubProcess(anc).value;
      forall l: nat | IsInnermostSub(path, l) ensures l == k { InnermostIsUnique(path, k, l); }
    }
  }

  lemma InEventSubIs(anc: seq<Ancestor>, path: seq<Xml>)
    requires AreFrames(anc, path)
    ensures InEventSubProcess(anc) <==> exists k | 0 <= k < |path| :: IsEventSub(path[k])
  {
    if k :| 0 <= k < |path| && IsEventSub(path[k]) { assert anc[k].triggeredByEvent; }
    if k :| 0 <= k < |anc| && anc[k].triggeredByEvent { assert IsEventSub(path[k]); }
  }

  lemma TablesAre(kind: EventKind, d: DefinitionKind)
    ensures d in SupportedBy(kind) <==> Supported(kind, d)
    ensures d in RefusedBy(kind) <==> Rejected(kind, d)
    ensures d in {Message, Timer, Signal, Error, Escalation} <==> StartsHandler(d)
  {
  }

  // ----- what one element adds

  lemma FirstIsClassified(kind: EventKind, id: Id, d: DefinitionKind, anc: seq<Ancestor>, path: seq<Xml>, v: Violation)
    requires AreFrames(anc, path)
    requires NearestEvent(anc).Some? && NearestEvent(anc).value.tag == Event(kind) && OrUnknown(NearestEvent(anc).value.id) == id
    ensures Times(Classified(d, anc, 1), v) == if IsDueForFirst(kind, id, d, path, v) then 1 else 0
  {
    TablesAre(kind, d);
    InEventSubIs(anc, path);
    SubIsSaid(anc, path, v);
    var found := Classified(d, anc, 1);
    assert |found| <= 1;
    if |found| == 1 { TimesOfOne(found[0], v); assert found == [found[0]]; } else { TimesOfOne(v, v); assert found == []; }
  }

  lemma SubIsSaid(anc: seq<Ancestor>, path: seq<Xml>, v: Violation)
    requires AreFrames(anc, path)
    ensures v.StartNotExecuted? ==> (IsInPlainSub(path, v.inside) <==> PlainSubProcess(anc) == Some(v.inside))
    ensures v.ConditionalStart? && v.subProcess.Some? ==>
              (IsInPlainSub(path, v.subProcess.value) <==> PlainSubProcess(anc) == v.subProcess)
    ensures (forall inside: Id :: !IsInPlainSub(path, inside)) <==> PlainSubProcess(anc).None?
  {
    forall inside: Id ensures IsInPlainSub(path, inside) <==> PlainSubProcess(anc) == Some(inside) {
      PlainSubIs(anc, path, inside);
    }
  }

  lemma OtherElements(x: Xml, anc: seq<Ancestor>, path: seq<Xml>, count: nat, v: Violation)
    requires AreFrames(anc, path) && x.Element? && !x.tag.Event? && !x.tag.EventDefinition?
    ensures Times(Collected(x.tag, x.attrs, anc, count), v) == if IsDue(x, path, v) then 1 else 0
  {
    NearestIdIs(anc, path, x, x.attrs.id, NearestId(x.attrs.id, anc));
    if v.NestedEventSubProcess? || v.InstantiatingReceive? || v.InstantiatingGateway? || v.UnsupportedElement? {
      NearestIdIs(anc, path, x, x.attrs.id, v.id);
    }
    ParentIs(anc, path, v);
    var found := Collected(x.tag, x.attrs, anc, count);
    assert |found| <= 1;
    if |found| == 1 { TimesOfOne(found[0], v); assert found == [found[0]]; } else { TimesOfOne(v, v); assert found == []; }
  }

  lemma ParentIs(anc: seq<Ancestor>, path: seq<Xml>, v: Violation)
    requires AreFrames(anc, path)
    ensures NearestSubProcess(anc).Some? <==> exists k | 0 <= k < |path| :: IsSub(path[k])
    ensures v.NestedEventSubProcess? ==>
              ((exists k: nat :: IsInnermostSub(path, k) && IsOwnId(path[k], v.parent)) <==>
               NearestSubProcess(anc).Some? && OrUnknown(NearestSubProcess(anc).value.id) == v.parent)
  {
    InnermostSubIs(anc, path);
    if NearestSubProcess(anc).Some? {
      var k: nat :| IsInnermostSub(path, k) && anc[k] == NearestSubProcess(anc).value;
      forall l: nat | IsInnermostSub(path, l) ensures l == k { InnermostIsUnique(path, k, l); }
    }
  }

  // ----- what belongs to the event around

  /** What the definitions in `xs` add for the event around them, which had `count` before. */
  ghost function Added(event: Option<Ancestor>, first: Option<(DefinitionKind, seq<Xml>)>, definitions: nat, count: nat,
                       v: Violation): nat
    requires event.Some? ==> event.value.tag.Event?
  {
    if event.None? then 0
    else
      var kind, id := event.value.tag.kind, OrUnknown(event.value.id);
      (if count == 0 && first.Some? && IsDueForFirst(kind, id, first.value.0, first.value.1, v) then 1 else 0)
      + if count < 2 <= count + definitions && v == MultipleDefinitions(kind, id) then 1 else 0
  }

  lemma {:induction false} FirstIffSome(xs: seq<Xml>, path: seq<Xml>)
    ensures FirstOf(xs, path).Some? <==> Definitions(xs) > 0
    decreases xs, 0
  {
    if xs != [] {
      FirstInIffSome(xs[0], path);
      FirstIffSome(xs[1..], path);
    }
  }

  lemma {:induction false} FirstInIffSome(x: Xml, path: seq<Xml>)
    ensures FirstIn(x, path).Some? <==> DefinitionsIn(x) > 0
    decreases x, 1
  {
    if x.Element? && !x.tag.Event? && !x.tag.EventDefinition? { FirstIffSome(x.children, path + [x]); }
  }

  lemma AddedJoin(event: Option<Ancestor>, x: Xml, rest: seq<Xml>, path: seq<Xml>, count: nat, v: Violation)
    requires event.Some? ==> event.value.tag.Event?
    ensures Added(event, FirstOf([x] + rest, path), Definitions([x] + rest), count, v) ==
            Added(event, FirstIn(x, path), DefinitionsIn(x), count, v)
            + Added(event, FirstOf(rest, path), Definitions(rest), count + DefinitionsIn(x), v)
  {
    assert ([x] + rest)[1..] == rest;
    FirstInIffSome(x, path);
    FirstIffSome(rest, path);
  }

  lemma DefinitionIsAdded(x: Xml, anc: seq<Ancestor>, path: seq<Xml>, count: nat, v: Violation)
    requires AreFrames(anc, path) && x.Element? && x.tag.EventDefinition?
    ensures Times(Collected(x.tag, x.attrs, anc, count), v) == Added(NearestEvent(anc), Some((x.tag.definition, path)), 1, count, v)
  {
    var event, d := NearestEvent(anc), x.tag.definition;
    assert Collected(x.tag, x.attrs, anc, count) == Classified(d, anc, count + 1);
    if event.None? {
      TimesOfOne(v, v);
    } else {
      var kind, id := event.value.tag.kind, OrUnknown(event.value.id);
      TimesOfOne(MultipleDefinitions(kind, id), v);
      if count == 0 { FirstIsClassified(kind, id, d, anc, path, v); }
    }
  }

  lemma SameEvent(anc: seq<Ancestor>, a: Ancestor)
    ensures NearestEvent(anc + [a]) == if a.tag.Event? then Some(a) else NearestEvent(anc)
  {
    assert (anc + [a])[..|anc|] == anc;
  }

  // ----- the walk reports what is due

  lemma {:induction false} WalkIsDue(x: Xml, anc: seq<Ancestor>, path: seq<Xml>, count: nat, v: Violation)
    requires AreFrames(anc, path)
    ensures var w := Walk(x, anc, count);
            && (NearestEvent(anc).Some? ==> w.count == count + DefinitionsIn(x))
            && Times(w.violations, v) == DuesIn(x, path, v) + Added(NearestEvent(anc), FirstIn(x, path), DefinitionsIn(x), count, v)
    decreases x, 1
  {
    if x.Content? {
      TimesOfOne(v, v);
    } else {
      var f := ElementFrame(x.tag, x.attrs);
      var next := CountAfter(x.tag, anc, count);
      var from := if x.tag.Event? then 0 else next;
      FramesGrow(anc, path, f, x);
      SameEvent(anc, f);
      AllAreDue(x.children, anc + [f], path + [x], from, v);
      TimesJoin(Collected(x.tag, x.attrs, anc, count), WalkAll(x.children, anc + [f], from).violations, v);
      ElementIsDue(x, anc, path, count, v);
    }
  }

  /** What an element adds itself, and its children for the event around them, is what is due at it and what it adds
      for the event around it. */
  lemma ElementIsDue(x: Xml, anc: seq<Ancestor>, path: seq<Xml>, count: nat, v: Violation)
    requires AreFrames(anc, path) && x.Element?
    ensures var f, from := ElementFrame(x.tag, x.attrs), if x.tag.Event? then 0 else CountAfter(x.tag, anc, count);
            Times(Collected(x.tag, x.attrs, anc, count), v)
            + Added(NearestEvent(anc + [f]), FirstOf(x.children, path + [x]), Definitions(x.children), from, v) ==
            (if IsDue(x, path, v) then 1 else 0) + Added(NearestEvent(anc), FirstIn(x, path), DefinitionsIn(x), count, v)
  {
    var f := ElementFrame(x.tag, x.attrs);
    SameEvent(anc, f);
    if x.tag.Event? {
      TimesOfOne(v, v);
      assert Collected(x.tag, x.attrs, anc, count) == [];
      FirstIffSome(x.children, path + [x]);
    } else if x.tag.EventDefinition? {
      DefinitionIsAdded(x, anc, path, count, v);
    } else {
      OtherElements(x, anc, path, count, v);
    }
  }

  lemma {:induction false} AllAreDue(xs: seq<Xml>, anc: seq<Ancestor>, path: seq<Xml>, count: nat, v: Violation)
    requires AreFrames(anc, path)
    ensures var w := WalkAll(xs, anc, count);
            && (NearestEvent(anc).Some? ==> w.count == count + Definitions(xs))
            && Times(w.violations, v) == Dues(xs, path, v) + Added(NearestEvent(anc), FirstOf(xs, path), Definitions(xs), count, v)
    decreases xs, 0
  {
    if xs == [] {
      TimesOfOne(v, v);
    } else {
      var first, rest := Walk(xs[0], anc, count), xs[1..];
      WalkIsDue(xs[0], anc, path, count, v);
      AllAreDue(rest, anc, path, first.count, v);
      WalkSplits(xs, anc, path, count, v);
      assert xs == [xs[0]] + rest;
      AddedJoin(NearestEvent(anc), xs[0], rest, path, count, v);
    }
  }

  lemma WalkSplits(xs: seq<Xml>, anc: seq<Ancestor>, path: seq<Xml>, count: nat, v: Violation)
    requires xs != []
    ensures var first := Walk(xs[0], anc, count); var rest, w := WalkAll(xs[1..], anc, first.count), WalkAll(xs, anc, count);
            w.count == rest.count && Times(w.violations, v) == Times(first.violations, v) + Times(rest.violations, v)
    ensures Dues(xs, path, v) == DuesIn(xs[0], path, v) + Dues(xs[1..], path, v)
  {
    var first := Walk(xs[0], anc, count);
    TimesJoin(first.violations, WalkAll(xs[1..], anc, first.count).violations, v);
  }

  // ----- the scan reports what is due

  /** A process, and the elements around it. */
  datatype Place = Place(process: Xml, around: seq<Xml>)

  /** The processes of a document, in order. */
  function PlacesOf(x: Xml, path: seq<Xml>): seq<Place>
    decreases x, 1
  {
    if x.Content? then [] else if x.tag.Process? then [Place(x, path)] else PlacesIn(x.children, path + [x])
  }

  function PlacesIn(xs: seq<Xml>, path: seq<Xml>): seq<Place>
    decreases xs, 0
  {
    if xs == [] then [] else PlacesOf(xs[0], path) + PlacesIn(xs[1..], path)
  }

  /** The list holds the violation as often as it is due inside the process. */
  ghost predicate ListIsDue(vs: seq<Violation>, place: Place, v: Violation) {
    place.process.Element? && Times(vs, v) == Dues(place.process.children, place.around + [place.process], v)
  }

  /** The identifier of the process, blank if it has none, and whether it is executable. */
  ghost predicate IsHead(id: Id, isExecutable: bool, process: Xml) {
    && process.Element? && id == (if process.attrs.id.Some? then process.attrs.id.value else 0)
    && (isExecutable <==> process.attrs.isExecutable)
  }

  ghost predicate EntryIsDue(e: ProcessEntry, place: Place, v: Violation) {
    ListIsDue(e.violations, place, v) && IsHead(e.id, e.isExecutable, place.process)
  }

  ghost predicate EntriesAreDue(entries: seq<ProcessEntry>, places: seq<Place>, v: Violation) {
    |entries| == |places| && forall i | 0 <= i < |entries| :: EntryIsDue(entries[i], places[i], v)
  }

  lemma {:induction false} NoPlaces(x: Xml, anc: seq<Ancestor>, path: seq<Xml>, count: nat)
    requires Processes(x) == []
    ensures PlacesOf(x, path) == [] && WalkDocument(x, anc, count).entries == []
    decreases x, 1
  {
    if x.Element? {
      NoPlacesIn(x.children, anc + [ElementFrame(x.tag, x.attrs)], path + [x], if x.tag.Event? then 0 else count);
    }
  }

  lemma {:induction false} NoPlacesIn(xs: seq<Xml>, anc: seq<Ancestor>, path: seq<Xml>, count: nat)
    requires ProcessesIn(xs) == []
    ensures PlacesIn(xs, path) == [] && WalkDocuments(xs, anc, count).entries == []
    decreases xs, 0
  {
    if xs != [] {
      NoPlaces(xs[0], anc, path, count);
      NoPlacesIn(xs[1..], anc, path, WalkDocument(xs[0], anc, count).count);
    }
  }

  lemma ProcessIsDue(x: Xml, anc: seq<Ancestor>, path: seq<Xml>, count: nat, v: Violation)
    requires AreFrames(anc, path) && NearestEvent(anc).None? && x.Element? && x.tag.Process?
    ensures var entries := WalkDocument(x, anc, count).entries;
            |entries| == 1 && EntryIsDue(entries[0], Place(x, path), v)
  {
    var f := ProcessFrame(x.attrs);
    FramesGrow(anc, path, f, x);
    SameEvent(anc, f);
    AllAreDue(x.children, anc + [f], path + [x], count, v);
  }

  lemma {:induction false} DocumentIsDue(x: Xml, anc: seq<Ancestor>, path: seq<Xml>, count: nat, v: Violation)
    requires AreFrames(anc, path) && NearestEvent(anc).None? && EventsAreInside(x)
    ensures EntriesAreDue(WalkDocument(x, anc, count).entries, PlacesOf(x, path), v)
    decreases x, 1
  {
    if x.Element? {
      var f := ElementFrame(x.tag, x.attrs);
      if x.tag.Process? {
        ProcessIsDue(x, anc, path, count, v);
      } else if x.tag.Event? {
        NoPlacesIn(x.children, anc + [f], path + [x], 0);
      } else {
        FramesGrow(anc, path, f, x);
        SameEvent(anc, f);
        DocumentsAreDue(x.children, anc + [f], path + [x], count, v);
      }
    }
  }

  lemma {:induction false} DocumentsAreDue(xs: seq<Xml>, anc: seq<Ancestor>, path: seq<Xml>, count: nat, v: Violation)
    requires AreFrames(anc, path) && NearestEvent(anc).None? && forall i | 0 <= i < |xs| :: EventsAreInside(xs[i])
    ensures EntriesAreDue(WalkDocuments(xs, anc, count).entries, PlacesIn(xs, path), v)
    decreases xs, 0
  {
    if xs != [] {
      DocumentIsDue(xs[0], anc, path, count, v);
      DocumentsAreDue(xs[1..], anc, path, WalkDocument(xs[0], anc, count).count, v);
    }
  }

  /** In every document in which no process inside a process is closed, and no event holds a process, the scan makes a
      list for each process that holds every violation exactly as often as it is due inside that. */
  lemma ScanReportsWhatIsDue(x: Xml, v: Violation, i: nat)
    requires !ClosesNested(x) && EventsAreInside(x) && i < |PlacesOf(x, [])|
    ensures var lists, heads, places := Run(FRESH, Events(x)).violations, Run(FRESH, Events(x)).processes, PlacesOf(x, []);
            && |lists| == |heads| == |places|
            && ListIsDue(lists[i], places[i], v) && IsHead(heads[i].0, heads[i].1, places[i].process)
  {
    ScanIsWalk(x);
    DocumentIsDue(x, [], [], 0, v);
  }

  /** Nothing is due for an event with a single definition that it supports, unless it is a start inside a plain
      sub-process. */
  lemma SupportedEventIsFine(x: Xml, path: seq<Xml>, kind: EventKind, d: DefinitionKind, v: Violation)
    requires x.Element? && x.tag == Event(kind) && Definitions(x.children) == 1
    requires FirstOf(x.children, path + [x]).Some? && FirstOf(x.children, path + [x]).value.0 == d && d in SupportedBy(kind)
    ensures IsDue(x, path, v) ==>
              v.StartNotExecuted? && kind == StartEvent && IsInPlainSub(FirstOf(x.children, path + [x]).value.1, v.inside)
  {
  }
}
