/** The scan that rejects unsupported elements: a stack machine over XML events. */
module XmlScan {
  import opened Common

  datatype EventKind = BoundaryEvent | EndEvent | IntermediateCatchEvent | IntermediateThrowEvent | StartEvent

  datatype DefinitionKind =
    | Cancel | Compensate | Conditional | Error | Escalation | Link | Message | Signal | Terminate | Timer
    | OtherDefinition(name: Id)

  /** Element names, as far as the scan tells them apart. */
  datatype Tag =
    | Process
    | SubProcess
    | Event(kind: EventKind)
    | EventDefinition(definition: DefinitionKind)
    | ReceiveTask
    | EventBasedGateway
    | AdHocSubProcess
    | StandardLoopCharacteristics
    | Task
    | Transaction
    | Other(name: Id)

  /** The empty text, and the text that stands for a missing identifier. */
  const BLANK: Id := 0
  const UNKNOWN: Id := 1

  /** The attributes the scan reads; flags are already decided. */
  datatype Attributes = Attributes(
    id: Option<Id>,
    isExecutable: bool,
    triggeredByEvent: bool,
    instantiate: bool,
    parallel: bool)

  datatype XmlEvent = Start(tag: Tag, attrs: Attributes) | Empty(tag: Tag, attrs: Attributes) | End(tag: Tag) | Misc

  datatype Violation =
    | NestedEventSubProcess(id: Id, parent: Id)
    | InstantiatingReceive(id: Id)
    | InstantiatingGateway(id: Id)
    | UnsupportedElement(tag: Tag, id: Id)
    | MultipleDefinitions(kind: EventKind, id: Id)
    | ConditionalStart(id: Id, subProcess: Option<Id>)
    | CancelEvent(kind: EventKind, id: Id)
    | StartNotExecuted(definition: DefinitionKind, id: Id, inside: Id)
    | UnsupportedDefinition(definition: DefinitionKind, kind: EventKind, id: Id)

  /** An open element. */
  datatype Ancestor = Ancestor(tag: Tag, id: Option<Id>, triggeredByEvent: bool)

  // ----- what one element violates, given its ancestors

  predicate Supported(kind: EventKind, d: DefinitionKind) {
    match kind
    case BoundaryEvent =>
      d.Compensate? || d.Conditional? || d.Error? || d.Escalation? || d.Message? || d.Signal? || d.Timer?
    case EndEvent => d.Compensate? || d.Error? || d.Escalation? || d.Signal? || d.Terminate?
    case IntermediateCatchEvent => d.Conditional? || d.Link? || d.Message? || d.Signal? || d.Timer?
    case IntermediateThrowEvent => d.Compensate? || d.Escalation? || d.Link? || d.Message? || d.Signal?
    case StartEvent => d.Message? || d.Signal? || d.Timer?
  }

  predicate Rejected(kind: EventKind, d: DefinitionKind) {
    ((kind.BoundaryEvent? || kind.EndEvent?) && d.Cancel?) || (kind.StartEvent? && d.Conditional?)
  }

  predicate StartsHandler(d: DefinitionKind) { d.Message? || d.Timer? || d.Signal? || d.Error? || d.Escalation? }

  function OrUnknown(id: Option<Id>): Id { if id.Some? then id.value else UNKNOWN }

  function NearestId(own: Option<Id>, anc: seq<Ancestor>): Id
    decreases |anc|
  {
    if own.Some? && own.value != BLANK then own.value
    else if anc == [] then UNKNOWN
    else NearestId(anc[|anc| - 1].id, anc[..|anc| - 1])
  }

  /** The innermost event around. */
  function NearestEvent(anc: seq<Ancestor>): (r: Option<Ancestor>)
    ensures r.Some? ==> r.value.tag.Event?
  {
    if anc == [] then None
    else if anc[|anc| - 1].tag.Event? then Some(anc[|anc| - 1])
    else NearestEvent(anc[..|anc| - 1])
  }

  function NearestSubProcess(anc: seq<Ancestor>): Option<Ancestor> {
    if anc == [] then None
    else if anc[|anc| - 1].tag.SubProcess? then Some(anc[|anc| - 1])
    else NearestSubProcess(anc[..|anc| - 1])
  }

  /** The nearest sub-process, unless it is an event sub-process. */
  function PlainSubProcess(anc: seq<Ancestor>): Option<Id> {
    var a := NearestSubProcess(anc);
    if a.Some? && !a.value.triggeredByEvent then Some(OrUnknown(a.value.id)) else None
  }

  predicate InEventSubProcess(anc: seq<Ancestor>) { exists i | 0 <= i < |anc| :: anc[i].triggeredByEvent }

  /** The `count`-th definition of the nearest event. */
  function Classified(d: DefinitionKind, anc: seq<Ancestor>, count: nat): seq<Violation> {
    var event := NearestEvent(anc);
    if event.None? || count > 2 then []
    else
      var kind, id := event.value.tag.kind, OrUnknown(event.value.id);
      if count == 2 then [MultipleDefinitions(kind, id)]
      else if Rejected(kind, d) then
        if d.Conditional? then [ConditionalStart(id, PlainSubProcess(anc))] else [CancelEvent(kind, id)]
      else if kind.StartEvent? && InEventSubProcess(anc) && StartsHandler(d) then []
      else if !Supported(kind, d) then [UnsupportedDefinition(d, kind, id)]
      else if kind.StartEvent? && PlainSubProcess(anc).Some? then [StartNotExecuted(d, id, PlainSubProcess(anc).value)]
      else []
  }

  /** What an element violates; `count` definitions of the nearest event came before it. */
  function Collected(tag: Tag, attrs: Attributes, anc: seq<Ancestor>, count: nat): seq<Violation> {
    var id, outer := NearestId(attrs.id, anc), NearestSubProcess(anc);
    if tag.SubProcess? && attrs.triggeredByEvent && outer.Some? then
      [NestedEventSubProcess(id, OrUnknown(outer.value.id))]
    else if tag.ReceiveTask? && attrs.instantiate && outer.Some? then [InstantiatingReceive(id)]
    else if tag.EventBasedGateway? && (attrs.instantiate || attrs.parallel) then [InstantiatingGateway(id)]
    else if tag.AdHocSubProcess? || tag.StandardLoopCharacteristics? || tag.Task? || tag.Transaction? then
      [UnsupportedElement(tag, id)]
    else if tag.EventDefinition? then Classified(tag.definition, anc, count + 1)
    else []
  }

  // ----- the stack machine

  /** An open element, and how many definitions of it were seen. */
  datatype Frame = Frame(element: Ancestor, eventDefs: nat)

  function Shape(stack: seq<Frame>): (anc: seq<Ancestor>)
    ensures |anc| == |stack|
  {
    seq(|stack|, i requires 0 <= i < |stack| => stack[i].element)
  }

  /** How many definitions the nearest event has so far. */
  function Count(stack: seq<Frame>): nat {
    if stack == [] then 0
    else if stack[|stack| - 1].element.tag.Event? then stack[|stack| - 1].eventDefs
    else Count(stack[..|stack| - 1])
  }

  /** `stack` with `count` definitions at its nearest event. */
  function WithCount(stack: seq<Frame>, count: nat): (r: seq<Frame>)
    ensures |r| == |stack|
  {
    if stack == [] then []
    else
      var n := |stack| - 1;
      if stack[n].element.tag.Event? then stack[..n] + [stack[n].(eventDefs := count)]
      else WithCount(stack[..n], count) + [stack[n]]
  }

  datatype ScanState = ScanState(
    stack: seq<Frame>,
    processes: seq<(Id, bool)>,
    violations: seq<seq<Violation>>,
    current: Option<nat>)

  predicate Valid(s: ScanState) {
    |s.processes| == |s.violations| && (s.current.Some? ==> s.current.value < |s.violations|)
  }

  function ProcessId(attrs: Attributes): Id { if attrs.id.Some? then attrs.id.value else BLANK }

  function ProcessFrame(attrs: Attributes): Ancestor {
    Ancestor(Process, if ProcessId(attrs) == BLANK then None else attrs.id, false)
  }

  function ElementFrame(tag: Tag, attrs: Attributes): Ancestor {
    Ancestor(tag, attrs.id, tag.SubProcess? && attrs.triggeredByEvent)
  }

  /** How many definitions the nearest event has after an element inside a process. */
  function CountAfter(tag: Tag, anc: seq<Ancestor>, count: nat): nat {
    if tag.EventDefinition? && NearestEvent(anc).Some? then count + 1 else count
  }

  function Pushed(s: ScanState, element: Ancestor, open: bool): ScanState {
    if open then s.(stack := s.stack + [Frame(element, 0)]) else s
  }

  function Noted(s: ScanState, tag: Tag, attrs: Attributes): ScanState
    requires Valid(s) && s.current.Some?
  {
    var anc, count, idx := Shape(s.stack), Count(s.stack), s.current.value;
    s.(stack := WithCount(s.stack, CountAfter(tag, anc, count)),
       violations := s.violations[idx := s.violations[idx] + Collected(tag, attrs, anc, count)])
  }

  function OnTag(s: ScanState, tag: Tag, attrs: Attributes, open: bool): (r: ScanState)
    requires Valid(s)
    ensures Valid(r)
  {
    if tag.Process? && s.current.None? then
      var more := s.(processes := s.processes + [(ProcessId(attrs), attrs.isExecutable)], violations := s.violations + [[]]);
      Pushed(if open then more.(current := Some(|s.processes|)) else more, ProcessFrame(attrs), open)
    else
      Pushed(if s.current.Some? then Noted(s, tag, attrs) else s, ElementFrame(tag, attrs), open)
  }

  function OnEnd(s: ScanState, tag: Tag): (r: ScanState)
    requires Valid(s)
    ensures Valid(r)
  {
    if s.stack == [] then s
    else
      var n := |s.stack| - 1;
      var popped := s.(stack := s.stack[..n]);
      if tag.Process? && s.stack[n].element.tag.Process? then popped.(current := None) else popped
  }

  function Step(s: ScanState, e: XmlEvent): (r: ScanState)
    requires Valid(s)
    ensures Valid(r)
  {
    match e
    case Start(tag, attrs) => OnTag(s, tag, attrs, true)
    case Empty(tag, attrs) => OnTag(s, tag, attrs, false)
    case End(tag) => OnEnd(s, tag)
    case Misc => s
  }

  function Run(s: ScanState, events: seq<XmlEvent>): (r: ScanState)
    requires Valid(s)
    ensures Valid(r)
    decreases |events|
  {
    if events == [] then s else Run(Step(s, events[0]), events[1..])
  }

  const FRESH := ScanState([], [], [], None)

  /** `i - 1` is the position of the nearest event; there is none if `i` is zero. */
  predicate IsNearest(stack: seq<Frame>, i: nat) {
    && i <= |stack|
    && (i > 0 ==> stack[i - 1].element.tag.Event?)
    && forall j | i <= j < |stack| :: !stack[j].element.tag.Event?
  }

  lemma ShapeOfPrefix(stack: seq<Frame>)
    requires stack != []
    ensures Shape(stack)[..|stack| - 1] == Shape(stack[..|stack| - 1])
  {
  }

  lemma {:induction false} NearestIsCounted(stack: seq<Frame>, i: nat, count: nat)
    requires IsNearest(stack, i)
    ensures i == 0 ==> NearestEvent(Shape(stack)).None? && Count(stack) == 0 && WithCount(stack, count) == stack
    ensures i > 0 ==>
              && NearestEvent(Shape(stack)) == Some(stack[i - 1].element)
              && Count(stack) == stack[i - 1].eventDefs
              && WithCount(stack, count) == stack[i - 1 := stack[i - 1].(eventDefs := count)]
    decreases |stack|
  {
    if i < |stack| {
      ShapeOfPrefix(stack);
      NearestIsCounted(stack[..|stack| - 1], i, count);
    }
  }

  class Scanner {
    var stack: seq<Frame>
    var processes: seq<(Id, bool)>
    var violations: seq<seq<Violation>>
    var current: Option<nat>

    constructor ()
      ensures State() == FRESH
    {
      stack, processes, violations, current := [], [], [], None;
    }

    ghost function State(): ScanState
      reads this
    {
      ScanState(stack, processes, violations, current)
    }

    /** Counts a definition at the nearest event, and says what it violates. */
    method ClassifyEventDefinition(d: DefinitionKind) returns (found: seq<Violation>)
      modifies this`stack
      ensures found == Classified(d, old(Shape(stack)), old(Count(stack)) + 1)
      ensures stack == WithCount(old(stack), CountAfter(EventDefinition(d), old(Shape(stack)), old(Count(stack))))
    {
      var i := |stack|;
      while i > 0 && !stack[i - 1].element.tag.Event?
        invariant 0 <= i <= |stack| && stack == old(stack)
        invariant forall j | i <= j < |stack| :: !stack[j].element.tag.Event?
      {
        i := i - 1;
      }
      NearestIsCounted(stack, i, Count(stack) + 1);
      NearestIsCounted(stack, i, Count(stack));
      if i == 0 {
        return [];
      }
      var anc, count := Shape(stack), stack[i - 1].eventDefs + 1;
      stack := stack[i - 1 := stack[i - 1].(eventDefs := count)];
      found := Classified(d, anc, count);
    }

    method CollectForElement(tag: Tag, attrs: Attributes) returns (found: seq<Violation>)
      modifies this`stack
      ensures found == Collected(tag, attrs, old(Shape(stack)), old(Count(stack)))
      ensures stack == WithCount(old(stack), CountAfter(tag, old(Shape(stack)), old(Count(stack))))
    {
      if tag.EventDefinition? {
        found := ClassifyEventDefinition(tag.definition);
      } else {
        SameCount(stack);
        found := Collected(tag, attrs, Shape(stack), 0);
      }
    }

    method TagSeen(tag: Tag, attrs: Attributes, open: bool)
      requires Valid(State())
      modifies this
      ensures State() == OnTag(old(State()), tag, attrs, open)
    {
      if tag.Process? && current.None? {
        processes := processes + [(ProcessId(attrs), attrs.isExecutable)];
        violations := violations + [[]];
        if open {
          current := Some(|processes| - 1);
          stack := stack + [Frame(ProcessFrame(attrs), 0)];
        }
        return;
      }
      if current.Some? {
        var found := CollectForElement(tag, attrs);
        violations := violations[current.value := violations[current.value] + found];
      }
      if open {
        stack := stack + [Frame(ElementFrame(tag, attrs), 0)];
      }
    }

    method EndSeen(tag: Tag)
      requires Valid(State())
      modifies this
      ensures State() == OnEnd(old(State()), tag)
      ensures old(stack) == [] ==> State() == old(State())
      ensures old(stack) != [] ==>
                && stack == old(stack)[..|old(stack)| - 1] && processes == old(processes) && violations == old(violations)
                && current == if tag == Process && old(stack)[|old(stack)| - 1].element.tag == Process then None else old(current)
    {
      if stack != [] {
        var frame := stack[|stack| - 1];
        stack := stack[..|stack| - 1];
        if tag.Process? && frame.element.tag.Process? {
          current := None;
        }
      }
    }

    method Scan(events: seq<XmlEvent>)
      requires Valid(State())
      modifies this
      ensures State() == Run(old(State()), events)
    {
      for i := 0 to |events|
        invariant Valid(State()) && Run(old(State()), events) == Run(State(), events[i..])
      {
        match events[i]
        case Start(tag, attrs) => TagSeen(tag, attrs, true);
        case Empty(tag, attrs) => TagSeen(tag, attrs, false);
        case End(tag) => EndSeen(tag);
        case Misc =>
      }
    }
  }

  lemma {:induction false} SameCount(stack: seq<Frame>)
    ensures WithCount(stack, Count(stack)) == stack
  {
    if stack != [] {
      SameCount(stack[..|stack| - 1]);
    }
  }
}
