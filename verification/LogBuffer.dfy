/** The rolling log: entries in memory, and a file that is appended to and compacted now and then. */
module LogBuffer {
  import opened Common

  const MAX_ENTRIES := 5000
  const COMPACT_AFTER := 500

  datatype LogEntry = LogEntry(timestamp: string, level: string, target: string, message: string)

  /** What a line of the file is when it is read. An entry written and parsed is that entry. A blank line holds
      nothing but white space between JSON values; a line that is not valid UTF-8 is undecodable. */
  datatype Line = Json(entry: LogEntry) | Blank | Junk | Undecodable

  /** The terminated lines of a file, and what follows the last line break if anything does. */
  datatype LogFile = LogFile(lines: seq<Line>, tail: Option<Line>)

  /** Text written behind an unterminated line becomes part of it. Behind white space an entry still parses;
      behind any other text it does not, and nothing makes undecodable text decodable. */
  function Joined(tail: Option<Line>, text: Line): Line {
    if tail.None? || tail.value.Blank? then text
    else if text.Blank? then tail.value
    else if tail.value.Undecodable? || text.Undecodable? then Undecodable
    else Junk
  }

  /** The entry and a line break are at the end of the file. */
  function Extended(f: LogFile, e: LogEntry): LogFile { LogFile(f.lines + [Joined(f.tail, Json(e))], None) }

  /** A write that broke off: some text is at the end of the file and no line break. */
  function Torn(f: LogFile, text: Line): LogFile { LogFile(f.lines, Some(Joined(f.tail, text))) }

  /** The last entries there is room for. */
  function Last(es: seq<LogEntry>): seq<LogEntry> {
    if |es| <= MAX_ENTRIES then es else es[|es| - MAX_ENTRIES..]
  }

  /** The entries on the lines up to the first that cannot be decoded: there reading stops. */
  function Parsed(lines: seq<Line>): seq<LogEntry> {
    if lines == [] then []
    else
      var n := |lines| - 1;
      Parsed(lines[..n]) + if lines[n].Json? && Undecodable !in lines[..n] then [lines[n].entry] else []
  }

  function AllLines(f: LogFile): seq<Line> { if f.tail.Some? then f.lines + [f.tail.value] else f.lines }

  /** What a file restores. */
  function Restored(f: LogFile): seq<LogEntry> { Parsed(AllLines(f)) }

  function Lines(es: seq<LogEntry>): seq<Line> { seq(|es|, i requires 0 <= i < |es| => Json(es[i])) }

  /** A file with the given entries and nothing else. */
  function FileOf(es: seq<LogEntry>): LogFile { LogFile(Lines(es), None) }

  // ----- rolling

  /** Adding one entry and evicting the oldest if there is no room. */
  function Rolled(es: seq<LogEntry>, e: LogEntry): seq<LogEntry> {
    (if |es| >= MAX_ENTRIES then es[1..] else es) + [e]
  }

  lemma RollIsLast(es: seq<LogEntry>, e: LogEntry)
    ensures Rolled(Last(es), e) == Last(es + [e])
  {
    if |es| >= MAX_ENTRIES {
      assert Last(es)[1..] == es[|es| - MAX_ENTRIES + 1..];
    }
  }

  lemma {:induction false} ParsedLines(es: seq<LogEntry>)
    ensures Parsed(Lines(es)) == es
  {
    if es != [] {
      var n := |es| - 1;
      assert Lines(es)[..n] == Lines(es[..n]);
      ParsedLines(es[..n]);
    }
  }

  lemma ParsedAppend(lines: seq<Line>, line: Line)
    ensures Parsed(lines + [line]) ==
            Parsed(lines) + if line.Json? && Undecodable !in lines then [line.entry] else []
  {
    assert (lines + [line])[..|lines|] == lines;
  }

  /** `es` are the entries on the first `n` lines, all of which can be decoded. */
  ghost predicate AreRead(lines: seq<Line>, n: nat, es: seq<LogEntry>)
    requires n <= |lines|
  {
    Undecodable !in lines[..n] && Parsed(lines[..n]) == es
  }

  lemma ReadOneMore(lines: seq<Line>, i: nat, es: seq<LogEntry>)
    requires i < |lines| && AreRead(lines, i, es) && !lines[i].Undecodable?
    ensures AreRead(lines, i + 1, if lines[i].Json? then es + [lines[i].entry] else es)
  {
    assert lines[..i + 1] == lines[..i] + [lines[i]];
    ParsedAppend(lines[..i], lines[i]);
  }

  lemma AllRead(lines: seq<Line>, i: nat, es: seq<LogEntry>)
    requires i <= |lines| && AreRead(lines, i, es) && (i < |lines| ==> lines[i].Undecodable?)
    ensures Parsed(lines) == es
  {
    ParsedStops(lines, i);
  }

  /** Loads the last entries of a file. */
  method LoadEntries(f: LogFile) returns (entries: seq<LogEntry>)
    ensures entries == Last(Restored(f))
  {
    var lines := AllLines(f);
    entries := [];
    var i := 0;
    ghost var es := [];
    while i < |lines| && !lines[i].Undecodable?
      invariant 0 <= i <= |lines| && AreRead(lines, i, es) && entries == Last(es)
    {
      ReadOneMore(lines, i, es);
      if lines[i].Json? {
        RollIsLast(es, lines[i].entry);
        es := es + [lines[i].entry];
        if |entries| >= MAX_ENTRIES {
          entries := entries[1..];
        }
        entries := entries + [lines[i].entry];
      }
      i := i + 1;
    }
    AllRead(lines, i, es);
  }

  /** Nothing behind an undecodable line is read. */
  lemma {:induction false} ParsedStops(lines: seq<Line>, i: nat)
    requires i <= |lines| && (i < |lines| ==> lines[i].Undecodable?)
    ensures Parsed(lines) == Parsed(lines[..i])
  {
    if i == |lines| {
      assert lines[..i] == lines;
    } else {
      var n := |lines| - 1;
      if i < n {
        ParsedStops(lines[..n], i);
        assert lines[..n][i] == Undecodable && lines[..n][..i] == lines[..i];
      }
    }
  }

  // ----- the buffer

  datatype State = State(entries: seq<LogEntry>, file: LogFile, written: nat)

  function Loaded(f: LogFile): State { State(Last(Restored(f)), f, 0) }

  /** The entry is in memory and at the end of the file. */
  function Appended(s: State, e: LogEntry): State {
    State(Rolled(s.entries, e), Extended(s.file, e), s.written + 1)
  }

  /** The file holds just what is in memory. */
  function Compacted(s: State): State { State(s.entries, FileOf(s.entries), 0) }

  function Pushed(s: State, e: LogEntry): State {
    var next := Appended(s, e);
    if next.written >= COMPACT_AFTER then Compacted(next) else next
  }

  class Buffer {
    var entries: seq<LogEntry>
    var file: LogFile
    var written: nat

    constructor (path: LogFile)
      ensures Current() == Loaded(path)
    {
      var loaded := LoadEntries(path);
      entries, file, written := loaded, path, 0;
    }

    function Current(): State
      reads this
    {
      State(entries, file, written)
    }

    method Push(e: LogEntry)
      modifies this
      ensures Current() == Pushed(old(Current()), e)
    {
      if |entries| >= MAX_ENTRIES {
        entries := entries[1..];
      }
      entries := entries + [e];
      file := Extended(file, e);
      written := written + 1;
      if written >= COMPACT_AFTER {
        written := 0;
        CompactFile();
      }
    }

    method CompactFile()
      modifies this`file
      ensures file == FileOf(entries)
    {
      var temp := [];
      for i := 0 to |entries|
        invariant temp == Lines(entries[..i])
      {
        temp := temp + [Json(entries[i])];
      }
      assert entries[..|entries|] == entries;
      file := LogFile(temp, None);
    }

    /** Replaces what is in memory, as when entries come from elsewhere. */
    method Populate(es: seq<LogEntry>)
      modifies this`entries
      ensures entries == Last(es)
    {
      entries := [];
      for i := 0 to |es|
        invariant entries == Last(es[..i])
      {
        assert es[..i + 1] == es[..i] + [es[i]];
        RollIsLast(es[..i], es[i]);
        if |entries| >= MAX_ENTRIES {
          entries := entries[1..];
        }
        entries := entries + [es[i]];
      }
      assert es[..|es|] == es;
    }
  }

  // ----- runs

  /** A push may be cut short between the append and the compaction, or break off within the append; the process
      then starts again. */
  datatype Event = Push(entry: LogEntry) | CutShort(entry: LogEntry) | BrokenOff(text: Line) | Restart

  function Next(s: State, e: Event): State {
    match e
    case Push(entry) => Pushed(s, entry)
    case CutShort(entry) => Loaded(Appended(s, entry).file)
    case BrokenOff(text) => Loaded(Torn(s.file, text))
    case Restart => Loaded(s.file)
  }

  function Folded<S, E>(step: (S, E) -> S, s: S, es: seq<E>): S {
    if es == [] then s else step(Folded(step, s, es[..|es| - 1]), es[|es| - 1])
  }

  lemma FoldedOn<S, E>(step: (S, E) -> S, s: S, es: seq<E>, e: E)
    ensures Folded(step, s, es + [e]) == step(Folded(step, s, es), e)
  {
    assert (es + [e])[..|es|] == es;
  }

  lemma {:induction false} FoldedSplits<S, E>(step: (S, E) -> S, s: S, before: seq<E>, after: seq<E>)
    ensures Folded(step, s, before + after) == Folded(step, Folded(step, s, before), after)
  {
    if after == [] {
      assert before + after == before;
    } else {
      var n := |after| - 1;
      FoldedSplits(step, s, before, after[..n]);
      assert before + after == before + after[..n] + [after[n]];
      FoldedOn(step, s, before + after[..n], after[n]);
    }
  }

  lemma FoldedTwice<S, E>(step: (S, E) -> S, s: S, es: seq<E>, a: E, b: E)
    ensures Folded(step, s, es + [a, b]) == step(step(Folded(step, s, es), a), b)
  {
    assert es + [a, b] == es + [a] + [b];
    FoldedOn(step, s, es, a);
    FoldedOn(step, s, es + [a], b);
  }

  function Run(s: State, events: seq<Event>): State { Folded(Next, s, events) }

  /** The entry an event adds to the file. */
  function Added(e: Event): seq<LogEntry> { if e.Push? || e.CutShort? then [e.entry] else [] }

  /** The entries pushed in a run. */
  function PushedIn(events: seq<Event>): seq<LogEntry> {
    if events == [] then [] else PushedIn(events[..|events| - 1]) + Added(events[|events| - 1])
  }

  /** How many pushes the process remembers: those since it started or compacted. */
  function Remembered(events: seq<Event>): nat {
    if events == [] || !events[|events| - 1].Push? then 0
    else (Remembered(events[..|events| - 1]) + 1) % 500
  }

  /** After how many events the file was last compacted: when the process remembered enough pushes. */
  function LastCompaction(events: seq<Event>): (r: Option<nat>)
    ensures r.Some? ==> 0 < r.value <= |events|
  {
    if events == [] then None
    else
      var n := |events| - 1;
      if events[n].Push? && Remembered(events[..n]) + 1 == 500 then Some(n + 1) else LastCompaction(events[..n])
  }

  /** How many events there were when the process last started, up to the first compaction. */
  function LastStart(events: seq<Event>): (r: nat)
    ensures r <= |events|
  {
    if events == [] then 0
    else
      var n := |events| - 1;
      if events[n].Push? || LastCompaction(events[..n]).Some? then LastStart(events[..n]) else n + 1
  }

  /** What one event more does to these. */
  lemma OneMore(events: seq<Event>, e: Event)
    ensures var all := events + [e];
            && PushedIn(all) == PushedIn(events) + Added(e)
            && Remembered(all) == (if e.Push? then (Remembered(events) + 1) % COMPACT_AFTER else 0)
            && LastCompaction(all) == (if e.Push? && Remembered(events) + 1 == COMPACT_AFTER then Some(|all|)
                                       else LastCompaction(events))
            && LastStart(all) == (if e.Push? || LastCompaction(events).Some? then LastStart(events) else |all|)
  {
    assert (events + [e])[..|events|] == events;
  }

  lemma WrittenAfter(s: State, e: Event)
    requires s.written < COMPACT_AFTER
    ensures Next(s, e).written == if e.Push? then (s.written + 1) % COMPACT_AFTER else 0
  {
  }

  lemma {:induction false} RememberedIsWritten(s: State, events: seq<Event>)
    requires s.written == 0
    ensures Remembered(events) == Run(s, events).written < COMPACT_AFTER
  {
    if events != [] {
      var n := |events| - 1;
      RememberedIsWritten(s, events[..n]);
      WrittenAfter(Run(s, events[..n]), events[n]);
    }
  }

  // ----- what a file restores

  /** Somewhere reading stops. */
  predicate IsStuck(f: LogFile) { Undecodable in f.lines || f.tail == Some(Undecodable) }

  /** The next write continues a line that is not blank. */
  predicate IsOpen(f: LogFile) { f.tail.Some? && !f.tail.value.Blank? }

  predicate IsClean(f: LogFile) { !IsStuck(f) && !IsOpen(f) }

  /** What is restored after entries were appended: all of it from a clean file; nothing new from a stuck one; and
      otherwise the first entry is lost together with the line it continues. */
  function Survivors(f: LogFile, es: seq<LogEntry>): seq<LogEntry> {
    if IsClean(f) then Restored(f) + es
    else if IsStuck(f) || es == [] then Restored(f)
    else Parsed(f.lines) + es[1..]
  }

  function ExtendedBy(f: LogFile, es: seq<LogEntry>): LogFile {
    if es == [] then f else Extended(ExtendedBy(f, es[..|es| - 1]), es[|es| - 1])
  }

  lemma RestoredIs(f: LogFile)
    ensures Restored(f) == Parsed(f.lines) +
                           if f.tail.Some? && f.tail.value.Json? && Undecodable !in f.lines then [f.tail.value.entry] else []
  {
    if f.tail.Some? { ParsedAppend(f.lines, f.tail.value); }
  }

  lemma ExtendOnce(f: LogFile, e: LogEntry)
    ensures Restored(Extended(f, e)) == Survivors(f, [e])
    ensures IsStuck(f) <==> IsStuck(Extended(f, e))
    ensures !IsOpen(Extended(f, e))
  {
    var line := Joined(f.tail, Json(e));
    var now := LogFile(f.lines + [line], None);
    assert Extended(f, e) == now;
    ParsedAppend(f.lines, line);
    RestoredIs(f);
    RestoredIs(now);
    OneIsLost(Parsed(f.lines), e);
  }

  lemma OneIsLost(es: seq<LogEntry>, e: LogEntry)
    ensures es + [e][1..] == es && es + [] == es
  {
  }

  /** Exactly what a file restores after any number of entries were appended to it, whatever was in it. */
  lemma {:induction false} ExtendedRestores(f: LogFile, es: seq<LogEntry>)
    ensures Restored(ExtendedBy(f, es)) == Survivors(f, es)
    ensures IsStuck(f) <==> IsStuck(ExtendedBy(f, es))
    ensures es != [] ==> !IsOpen(ExtendedBy(f, es))
  {
    if es != [] {
      var n := |es| - 1;
      var before := ExtendedBy(f, es[..n]);
      ExtendedRestores(f, es[..n]);
      ExtendOnce(before, es[n]);
      if n == 0 {
        assert es == [es[0]] && es[..n] == [];
      } else if !IsStuck(f) {
        assert es == es[..n] + [es[n]] && es[1..] == es[..n][1..] + [es[n]];
      }
    }
  }

  /** What a broken-off write costs a clean file: one entry that arrived whole is restored, but lost with the next
      one; part of an entry costs the next one; and text cut within a character costs all that follow. */
  lemma TornRestores(f: LogFile, text: Line, es: seq<LogEntry>)
    requires IsClean(f)
    ensures Survivors(Torn(f, text), es) ==
            match text
            case Blank => Restored(f) + es
            case Undecodable => Restored(f)
            case Json(x) => if es == [] then Restored(f) + [x] else Restored(f) + es[1..]
            case Junk => if es == [] then Restored(f) else Restored(f) + es[1..]
  {
    var torn := Torn(f, text);
    ParsedAppend(f.lines, torn.tail.value);
    if f.tail.Some? { ParsedAppend(f.lines, f.tail.value); }
    assert Restored(f) == Parsed(f.lines);
  }

  /** Positions of lines, in order. */
  predicate ArePositions(at: seq<nat>, n: nat) {
    && (forall k | 0 <= k < |at| :: at[k] < n)
    && (forall j, k | 0 <= j < k < |at| :: at[j] < at[k])
  }

  /** The entries on these lines, one by one, and on no others before the first line that cannot be decoded. */
  predicate AreFound(lines: seq<Line>, at: seq<nat>, es: seq<LogEntry>) {
    && ArePositions(at, |lines|) && |es| == |at|
    && (forall k | 0 <= k < |at| :: lines[at[k]] == Json(es[k]) && Undecodable !in lines[..at[k]])
    && (forall i | 0 <= i < |lines| && lines[i].Json? && Undecodable !in lines[..i] :: i in at)
  }

  lemma FoundMore(lines: seq<Line>, at: seq<nat>, es: seq<LogEntry>, line: Line)
    requires AreFound(lines, at, es)
    ensures line.Json? && Undecodable !in lines ==> AreFound(lines + [line], at + [|lines|], es + [line.entry])
    ensures !line.Json? || Undecodable in lines ==> AreFound(lines + [line], at, es)
  {
    var all := lines + [line];
    assert forall i | 0 <= i <= |lines| :: all[..i] == lines[..i];
    assert lines[..|lines|] == lines;
    forall i | 0 <= i < |lines| && all[i].Json? && Undecodable !in all[..i] ensures i in at { assert lines[i].Json?; }
    if line.Json? && Undecodable !in lines {
      forall i | 0 <= i < |all| && all[i].Json? && Undecodable !in all[..i] ensures i in at + [|lines|] {
        if i == |lines| { assert (at + [|lines|])[|at|] == i; }
      }
    }
  }

  lemma {:induction false} ParsedAreFound(lines: seq<Line>) returns (at: seq<nat>)
    ensures AreFound(lines, at, Parsed(lines))
  {
    at := [];
    if lines != [] {
      var n := |lines| - 1;
      at := ParsedAreFound(lines[..n]);
      FoundMore(lines[..n], at, Parsed(lines[..n]), lines[n]);
      assert lines == lines[..n] + [lines[n]];
      if lines[n].Json? && Undecodable !in lines[..n] { at := at + [n]; }
    }
  }

  /** What a process starts with: the last 5000 of the entries on the lines of its file, in order, up to the first line
      that cannot be decoded; text behind the last line break is a line as well. */
  lemma StartIsExact(f: LogFile) returns (at: seq<nat>, es: seq<LogEntry>)
    ensures AreFound(if f.tail.Some? then f.lines + [f.tail.value] else f.lines, at, es)
    ensures AreLatest(Loaded(f).entries, es) && Loaded(f).file == f && Loaded(f).written == 0
  {
    es := Restored(f);
    LastAreLatest(es);
    at := ParsedAreFound(AllLines(f));
  }

  // ----- what a run leaves

  /** How many events there were up to the last write that broke off. */
  function LastTorn(events: seq<Event>): (t: nat)
    ensures t <= |events| && forall i | t <= i < |events| :: !events[i].BrokenOff?
  {
    if events == [] || events[|events| - 1].BrokenOff? then |events| else LastTorn(events[..|events| - 1])
  }

  /** The file as the last write that broke off left it, or at first. */
  function Origin(f: LogFile, events: seq<Event>): LogFile { Run(Loaded(f), events[..LastTorn(events)]).file }

  /** What is in memory after a run without broken-off writes: what the file restored when the process last started
      before a compaction, and all that was pushed since. */
  function Kept(f: LogFile, events: seq<Event>): seq<LogEntry> {
    Survivors(f, PushedIn(events[..LastStart(events)])) + PushedIn(events[LastStart(events)..])
  }

  /** Memory is what the file would restore. */
  predicate IsRestorable(s: State) { s.entries == Last(Restored(s.file)) && s.written < COMPACT_AFTER }

  predicate IsAfter(s: State, f: LogFile, events: seq<Event>) {
    && s.entries == Last(Kept(f, events))
    && (LastCompaction(events).Some? ==> IsClean(s.file) && IsRestorable(s))
    && (LastCompaction(events).None? ==> s.file == ExtendedBy(f, PushedIn(events)))
  }

  lemma AppendIsRestorable(s: State, e: LogEntry)
    requires s.entries == Last(Restored(s.file)) && IsClean(s.file)
    ensures Appended(s, e).entries == Last(Restored(Appended(s, e).file)) && IsClean(Appended(s, e).file)
  {
    ExtendOnce(s.file, e);
    RollIsLast(Restored(s.file), e);
  }

  lemma ExtendedAgain(f: LogFile, es: seq<LogEntry>, e: LogEntry)
    ensures ExtendedBy(f, es + [e]) == Extended(ExtendedBy(f, es), e)
  {
    assert (es + [e])[..|es|] == es;
  }

  lemma CompactIsRestorable(s: State)
    requires |s.entries| <= MAX_ENTRIES
    ensures IsClean(Compacted(s).file) && IsRestorable(Compacted(s))
  {
    ParsedLines(s.entries);
  }

  /** From a clean file that restores what is in memory, every event but a broken-off write leaves one. */
  lemma CleanStep(s: State, e: Event)
    requires IsClean(s.file) && IsRestorable(s) && !e.BrokenOff?
    ensures IsClean(Next(s, e).file) && IsRestorable(Next(s, e))
    ensures Next(s, e).entries == if e.Restart? then s.entries else Rolled(s.entries, e.entry)
  {
    if !e.Restart? {
      AppendIsRestorable(s, e.entry);
      CompactIsRestorable(Appended(s, e.entry));
    }
  }

  lemma SplitKeeps(events: seq<Event>, r: nat, e: Event)
    requires r <= |events|
    ensures (events + [e])[..r] == events[..r] && (events + [e])[r..] == events[r..] + [e]
  {
  }

  /** The process goes on: one more entry is kept. */
  lemma PushKeeps(f: LogFile, events: seq<Event>, e: Event)
    requires LastStart(events + [e]) == LastStart(events)
    ensures Kept(f, events + [e]) == Kept(f, events) + Added(e)
  {
    var r := LastStart(events);
    SplitKeeps(events, r, e);
    OneMore(events[r..], e);
    Regroup(Survivors(f, PushedIn(events[..r])), PushedIn(events[r..]), Added(e));
  }

  lemma Regroup<T>(a: seq<T>, b: seq<T>, c: seq<T>)
    ensures a + (b + c) == a + b + c
  {
  }

  /** The process starts again before any compaction: what the file restores is kept. */
  lemma StartKeeps(f: LogFile, events: seq<Event>)
    requires LastStart(events) == |events|
    ensures Kept(f, events) == Survivors(f, PushedIn(events))
  {
    assert events[..|events|] == events && events[|events|..] == [];
  }

  lemma {:induction false} RunIsAfter(f: LogFile, events: seq<Event>)
    requires forall i | 0 <= i < |events| :: !events[i].BrokenOff?
    ensures IsAfter(Run(Loaded(f), events), f, events)
  {
    if events == [] {
      assert Kept(f, []) == Restored(f);
    } else {
      var n := |events| - 1;
      assert events == events[..n] + [events[n]];
      RunIsAfter(f, events[..n]);
      RememberedIsWritten(Loaded(f), events[..n]);
      FoldedOn(Next, Loaded(f), events[..n], events[n]);
      StepIsAfter(Run(Loaded(f), events[..n]), f, events[..n], events[n]);
    }
  }

  lemma StepIsAfter(s: State, f: LogFile, events: seq<Event>, e: Event)
    requires IsAfter(s, f, events) && !e.BrokenOff? && s.written == Remembered(events) < COMPACT_AFTER
    ensures IsAfter(Next(s, e), f, events + [e])
  {
    if LastCompaction(events).Some? {
      StepAfterCompaction(s, f, events, e);
    } else if e.Push? {
      PushIsAfter(s, f, events, e);
    } else {
      StartIsAfter(s, f, events, e);
    }
  }

  lemma StepAfterCompaction(s: State, f: LogFile, events: seq<Event>, e: Event)
    requires IsAfter(s, f, events) && !e.BrokenOff? && LastCompaction(events).Some?
    ensures IsAfter(Next(s, e), f, events + [e])
  {
    OneMore(events, e);
    CleanStep(s, e);
    PushKeeps(f, events, e);
    if e.Restart? {
      assert Kept(f, events) + [] == Kept(f, events);
    } else {
      RollIsLast(Kept(f, events), e.entry);
    }
  }

  lemma PushIsAfter(s: State, f: LogFile, events: seq<Event>, e: Event)
    requires IsAfter(s, f, events) && s.written == Remembered(events) < COMPACT_AFTER
    requires e.Push? && LastCompaction(events).None?
    ensures IsAfter(Next(s, e), f, events + [e])
  {
    OneMore(events, e);
    PushKeeps(f, events, e);
    RollIsLast(Kept(f, events), e.entry);
    ExtendedAgain(f, PushedIn(events), e.entry);
    CompactIsRestorable(Appended(s, e.entry));
  }

  lemma LoadedIsAfter(f: LogFile, events: seq<Event>)
    requires LastStart(events) == |events| && LastCompaction(events).None?
    ensures IsAfter(Loaded(ExtendedBy(f, PushedIn(events))), f, events)
  {
    StartKeeps(f, events);
    ExtendedRestores(f, PushedIn(events));
  }

  lemma StartIsAfter(s: State, f: LogFile, events: seq<Event>, e: Event)
    requires IsAfter(s, f, events) && !e.Push? && !e.BrokenOff? && LastCompaction(events).None?
    ensures IsAfter(Next(s, e), f, events + [e])
  {
    OneMore(events, e);
    LoadedIsAfter(f, events + [e]);
    if e.CutShort? {
      ExtendedAgain(f, PushedIn(events), e.entry);
    } else {
      assert PushedIn(events) + [] == PushedIn(events);
    }
  }

  predicate NoneBreaksOff(events: seq<Event>) { forall i | 0 <= i < |events| :: !events[i].BrokenOff? }

  lemma StartLoads(s: State, e: Event)
    requires !e.Push?
    ensures Next(s, e) == Loaded(Next(s, e).file)
  {
  }

  lemma OriginIsLoaded(f: LogFile, events: seq<Event>)
    ensures Run(Loaded(f), events[..LastTorn(events)]) == Loaded(Origin(f, events))
  {
    var t := LastTorn(events);
    if t > 0 {
      LastTornIs(events);
      assert events[..t] == events[..t - 1] + [events[t - 1]];
      FoldedOn(Next, Loaded(f), events[..t - 1], events[t - 1]);
      StartLoads(Run(Loaded(f), events[..t - 1]), events[t - 1]);
    }
  }

  lemma {:induction false} LastTornIs(events: seq<Event>)
    ensures LastTorn(events) > 0 ==> events[LastTorn(events) - 1].BrokenOff?
  {
    if events != [] { LastTornIs(events[..|events| - 1]); }
  }

  /** At every point of every run, from every file and through broken-off writes: what is in memory, and what a
      restart would restore. Since the last write that broke off, the file restores what survives of it and of the
      pushes; a compaction makes it clean, and then it restores exactly what is in memory. */
  lemma FileRestoresExactly(f: LogFile, events: seq<Event>)
    ensures var s, origin, since := Run(Loaded(f), events), Origin(f, events), events[LastTorn(events)..];
            && s.written < 500 && s.entries == Last(Kept(origin, since))
            && (LastCompaction(since).None? ==> Restored(s.file) == Survivors(origin, PushedIn(since)))
            && (LastCompaction(since).Some? ==> IsClean(s.file) && s.entries == Last(Restored(s.file)))
  {
    var t := LastTorn(events);
    assert events == events[..t] + events[t..];
    OriginIsLoaded(f, events);
    FoldedSplits(Next, Loaded(f), events[..t], events[t..]);
    RunIsAfter(Origin(f, events), events[t..]);
    ExtendedRestores(Origin(f, events), PushedIn(events[t..]));
    RememberedIsWritten(Loaded(f), events);
  }

  // ----- clean files

  lemma LastOfLast(a: seq<LogEntry>, b: seq<LogEntry>)
    ensures Last(Last(a) + b) == Last(a + b)
  {
    if |a| > MAX_ENTRIES {
      assert a + b == a[..|a| - MAX_ENTRIES] + (Last(a) + b);
    }
  }

  lemma CleanStepKeeps(s: State, e: Event, all: seq<LogEntry>)
    requires IsClean(s.file) && IsRestorable(s) && !e.BrokenOff? && s.entries == Last(all)
    ensures IsClean(Next(s, e).file) && IsRestorable(Next(s, e)) && Next(s, e).entries == Last(all + Added(e))
  {
    CleanStep(s, e);
    if e.Restart? {
      assert all + [] == all;
    } else {
      RollIsLast(all, e.entry);
    }
  }

  lemma {:induction false} CleanRun(s: State, events: seq<Event>)
    requires IsClean(s.file) && IsRestorable(s) && NoneBreaksOff(events)
    ensures var r := Run(s, events);
            IsClean(r.file) && IsRestorable(r) && r.entries == Last(s.entries + PushedIn(events))
  {
    if events == [] {
      assert s.entries + [] == s.entries;
    } else {
      var n := |events| - 1;
      CleanRun(s, events[..n]);
      CleanStepKeeps(Run(s, events[..n]), events[n], s.entries + PushedIn(events[..n]));
      Regroup(s.entries, PushedIn(events[..n]), Added(events[n]));
    }
  }

  /** The last 5000 entries, or all of them if there are fewer, in order. */
  predicate AreLatest(es: seq<LogEntry>, all: seq<LogEntry>) {
    && |es| == (if |all| < 5000 then |all| else 5000)
    && forall i | 0 <= i < |es| :: es[i] == all[|all| - |es| + i]
  }

  lemma LastAreLatest(all: seq<LogEntry>)
    ensures AreLatest(Last(all), all)
  {
    if |all| > 5000 {
      var es := all[|all| - 5000..];
      assert Last(all) == es && |es| == 5000;
      assert forall i | 0 <= i < |es| :: es[i] == all[|all| - 5000 + i];
    }
  }

  /** From a clean file, at every point of every run without broken-off writes, memory holds the last of all entries
      ever loaded or pushed, and a restart would restore exactly that from the file. */
  lemma FileRestoresBuffer(f: LogFile, events: seq<Event>)
    requires IsClean(f) && NoneBreaksOff(events)
    ensures var s := Run(Loaded(f), events);
            IsClean(s.file) && IsRestorable(s) && AreLatest(s.entries, Restored(f) + PushedIn(events))
  {
    LastOfLast(Restored(f), []);
    assert Restored(f) + [] == Restored(f) && Last(Restored(f)) + [] == Last(Restored(f));
    CleanRun(Loaded(f), events);
    LastOfLast(Restored(f), PushedIn(events));
    LastAreLatest(Restored(f) + PushedIn(events));
  }

  /** The same from every compaction on, whatever the file was before. */
  lemma CompactionHeals(f: LogFile, events: seq<Event>, more: seq<Event>)
    requires LastCompaction(events[LastTorn(events)..]).Some? && NoneBreaksOff(more)
    ensures var before, s := Run(Loaded(f), events), Run(Loaded(f), events + more);
            IsClean(s.file) && IsRestorable(s) && AreLatest(s.entries, before.entries + PushedIn(more))
  {
    FileRestoresExactly(f, events);
    FoldedSplits(Next, Loaded(f), events, more);
    var before := Run(Loaded(f), events);
    CleanRun(before, more);
    LastAreLatest(before.entries + PushedIn(more));
  }

  /** An entry whose loss shows: it differs from the last one there is. */
  lemma LossShows(kept: seq<LogEntry>, all: seq<LogEntry>, e: LogEntry)
    requires |all| > |kept| && all[|all| - 1] == e && (kept != [] ==> kept[|kept| - 1] != e)
    ensures Last(all) != Last(kept)
  {
    assert Last(all)[|Last(all)| - 1] == e;
  }

  lemma PushOnce(f: LogFile, e: LogEntry)
    ensures Run(Loaded(f), [Push(e)]) == Pushed(Loaded(f), e)
    ensures Run(Loaded(f), [Push(e), Restart]) == Loaded(Pushed(Loaded(f), e).file)
  {
    FoldedOn(Next, Loaded(f), [], Push(e));
    FoldedTwice(Next, Loaded(f), [], Push(e), Restart);
    assert [] + [Push(e)] == [Push(e)] && [] + [Push(e), Restart] == [Push(e), Restart];
  }

  lemma PushedOnce(f: LogFile, e: LogEntry)
    ensures Pushed(Loaded(f), e).entries == Last(Restored(f) + [e])
    ensures Restored(Pushed(Loaded(f), e).file) == Survivors(f, [e])
  {
    ExtendOnce(f, e);
    RollIsLast(Restored(f), e);
  }

  lemma PushAndReload(f: LogFile, e: LogEntry)
    ensures Run(Loaded(f), [Push(e)]).entries == Last(Restored(f) + [e])
    ensures Restored(Run(Loaded(f), [Push(e)]).file) == Survivors(f, [e])
    ensures Run(Loaded(f), [Push(e), Restart]).entries == Last(Survivors(f, [e]))
  {
    PushOnce(f, e);
    PushedOnce(f, e);
  }

  lemma OnePushShows(f: LogFile, e: LogEntry)
    requires !IsClean(f)
    requires Survivors(f, [e]) != [] ==> Survivors(f, [e])[|Survivors(f, [e])| - 1] != e
    ensures !IsRestorable(Run(Loaded(f), [Push(e)]))
  {
    PushAndReload(f, e);
    RestoredIs(f);
    LossShows(Survivors(f, [e]), Restored(f) + [e], e);
  }

  /** A file restores what is in memory at every point of every run without broken-off writes if and only if it
      is clean. */
  lemma RestorableExactly(f: LogFile)
    ensures (forall events | NoneBreaksOff(events) :: IsRestorable(Run(Loaded(f), events))) <==> IsClean(f)
  {
    if IsClean(f) {
      forall events | NoneBreaksOff(events) ensures IsRestorable(Run(Loaded(f), events)) {
        FileRestoresBuffer(f, events);
      }
    } else {
      var a, b := LogEntry("", "", "", "a"), LogEntry("", "", "", "b");
      SurvivorsOfOne(f, a, b);
      var kept := Survivors(f, [a]);
      var e := if kept != [] && kept[|kept| - 1] == a then b else a;
      OnePushShows(f, e);
      assert NoneBreaksOff([Push(e)]);
    }
  }

  lemma SurvivorsOfOne(f: LogFile, a: LogEntry, b: LogEntry)
    requires !IsClean(f)
    ensures Survivors(f, [a]) == Survivors(f, [b])
  {
    assert [a][1..] == [] == [b][1..];
  }

  /** A push is in memory with what was loaded, and a restart loses all of it. */
  ghost predicate LosesAll(f: LogFile, e: LogEntry, loaded: seq<LogEntry>) {
    Run(Loaded(f), [Push(e)]).entries == loaded + [e] && Run(Loaded(f), [Push(e), Restart]).entries == []
  }

  lemma NothingSurvives(f: LogFile, e: LogEntry)
    requires Survivors(f, [e]) == [] && |Restored(f)| < MAX_ENTRIES
    ensures LosesAll(f, e, Restored(f))
  {
    PushAndReload(f, e);
  }

  const STUCK := LogFile([Undecodable], None)

  lemma StuckRestores(e: LogEntry)
    ensures Restored(STUCK) == [] && Survivors(STUCK, [e]) == []
  {
    RestoredIs(STUCK);
  }

  /** Behind an undecodable line a push is in memory and lost by a restart. */
  lemma UndecodableLineLosesPush(e: LogEntry)
    ensures LosesAll(STUCK, e, [])
  {
    StuckRestores(e);
    NothingSurvives(STUCK, e);
  }

  /** A file that holds one entry and no line break. */
  function OpenFile(x: LogEntry): LogFile { LogFile([], Some(Json(x))) }

  lemma OpenRestores(x: LogEntry, e: LogEntry)
    ensures Restored(OpenFile(x)) == [x] && Survivors(OpenFile(x), [e]) == []
  {
    RestoredIs(OpenFile(x));
    OneIsLost([], e);
  }

  /** Behind an entry without a line break a push takes that entry with it. */
  lemma OpenLineLosesTwo(x: LogEntry, e: LogEntry)
    ensures LosesAll(OpenFile(x), e, [x])
  {
    OpenRestores(x, e);
    NothingSurvives(OpenFile(x), e);
  }

  // ----- the length of the file

  function Max(a: nat, b: nat): nat { if a >= b then a else b }

  /** Whether the file ends within a line, given whether it did at first. */
  predicate EndsOpen(open: bool, events: seq<Event>) {
    if events == [] then open
    else
      var n := |events| - 1;
      events[n].BrokenOff? || (events[n].Restart? && EndsOpen(open, events[..n]))
  }

  /** How many lines the events from number `from` on begin: one each, but for restarts and for writes that
      continue a line. */
  function LinesBegun(open: bool, events: seq<Event>, from: nat): nat {
    if |events| <= from then 0
    else
      var n := |events| - 1;
      LinesBegun(open, events[..n], from) + if events[n].Restart? || EndsOpen(open, events[..n]) then 0 else 1
  }

  /** The lines of the file after its last compaction, or at first. */
  function CompactedLength(f: LogFile, events: seq<Event>): nat {
    var k := LastCompaction(events);
    if k.None? then |AllLines(f)|
    else
      var before := events[..k.value];
      |Last(Kept(Origin(f, before), before[LastTorn(before)..]))|
  }

  /** The lines begun since, however often the process was started again. */
  function LinesSince(f: LogFile, events: seq<Event>): nat {
    var k := LastCompaction(events);
    LinesBegun(f.tail.Some?, events, if k.None? then 0 else k.value)
  }

  lemma LinesAfter(s: State, e: Event)
    requires s.written < COMPACT_AFTER
    ensures Next(s, e).file.tail.Some? <==> e.BrokenOff? || (e.Restart? && s.file.tail.Some?)
    ensures if e.Push? && s.written + 1 == COMPACT_AFTER then |AllLines(Next(s, e).file)| == |Next(s, e).entries|
            else |AllLines(Next(s, e).file)| == |AllLines(s.file)| + if e.Restart? || s.file.tail.Some? then 0 else 1
  {
  }

  lemma {:induction false} TailIs(f: LogFile, events: seq<Event>)
    ensures Run(Loaded(f), events).file.tail.Some? <==> EndsOpen(f.tail.Some?, events)
  {
    if events != [] {
      var n := |events| - 1;
      TailIs(f, events[..n]);
      RememberedIsWritten(Loaded(f), events[..n]);
      LinesAfter(Run(Loaded(f), events[..n]), events[n]);
    }
  }

  lemma SameCompaction(f: LogFile, events: seq<Event>, e: Event)
    requires LastCompaction(events + [e]) == LastCompaction(events)
    ensures CompactedLength(f, events + [e]) == CompactedLength(f, events)
    ensures LinesSince(f, events + [e]) ==
            LinesSince(f, events) + if e.Restart? || EndsOpen(f.tail.Some?, events) then 0 else 1
  {
    var k := LastCompaction(events);
    assert (events + [e])[..|events|] == events;
    if k.Some? { assert (events + [e])[..k.value] == events[..k.value]; }
  }

  lemma NewCompaction(f: LogFile, events: seq<Event>)
    requires LastCompaction(events) == Some(|events|)
    ensures CompactedLength(f, events) == |Run(Loaded(f), events).entries| && LinesSince(f, events) == 0
  {
    assert events[..|events|] == events;
    FileRestoresExactly(f, events);
  }

  /** The exact length of the file after every run: what was in memory at the last compaction, or the initial file,
      and the lines begun since then, counted over restarts and broken-off writes. */
  lemma {:induction false} FileLength(f: LogFile, events: seq<Event>)
    ensures |AllLines(Run(Loaded(f), events).file)| == CompactedLength(f, events) + LinesSince(f, events)
  {
    if events != [] {
      var n := |events| - 1;
      var was, e := events[..n], events[n];
      assert events == was + [e];
      FileLength(f, was);
      TailIs(f, was);
      RememberedIsWritten(Loaded(f), was);
      OneMore(was, e);
      FoldedOn(Next, Loaded(f), was, e);
      LinesAfter(Run(Loaded(f), was), e);
      if LastCompaction(events) == Some(|events|) {
        NewCompaction(f, events);
      } else {
        SameCompaction(f, was, e);
      }
    }
  }

  /** How often the process started again. */
  function Restarts(events: seq<Event>): nat {
    if events == [] then 0
    else Restarts(events[..|events| - 1]) + if events[|events| - 1].Push? then 0 else 1
  }

  /** Within one run of the process the file stays within one compaction interval of its start or the buffer;
      each restart can add another interval, because it forgets how much was written. */
  lemma {:induction false} FileLengthIsBounded(f: LogFile, events: seq<Event>)
    ensures var s := Run(Loaded(f), events);
            && |AllLines(s.file)| <= Max(|AllLines(f)|, 5000) + 500 * Restarts(events) + s.written
            && s.written < 500 && |s.entries| <= 5000
  {
    if events != [] {
      var n := |events| - 1;
      FileLengthIsBounded(f, events[..n]);
      LinesAfter(Run(Loaded(f), events[..n]), events[n]);
    }
  }

  /** A process that is restarted after every push. */
  function PushAndRestart(e: LogEntry, n: nat): seq<Event> {
    if n == 0 then [] else PushAndRestart(e, n - 1) + [Push(e)] + [Restart]
  }

  lemma OneMoreLine(open: bool, events: seq<Event>, e: Event)
    ensures EndsOpen(open, events + [e]) <==> e.BrokenOff? || (e.Restart? && EndsOpen(open, events))
    ensures LinesBegun(open, events + [e], 0) ==
            LinesBegun(open, events, 0) + if e.Restart? || EndsOpen(open, events) then 0 else 1
  {
    assert (events + [e])[..|events|] == events;
  }

  lemma {:induction false} RestartsAddLines(e: LogEntry, n: nat)
    ensures var events := PushAndRestart(e, n);
            && Remembered(events) == 0 && LastCompaction(events).None?
            && !EndsOpen(false, events) && LinesBegun(false, events, 0) == n
  {
    if n > 0 {
      var before := PushAndRestart(e, n - 1);
      RestartsAddLines(e, n - 1);
      OneMore(before, Push(e));
      OneMore(before + [Push(e)], Restart);
      OneMoreLine(false, before, Push(e));
      OneMoreLine(false, before + [Push(e)], Restart);
    }
  }

  /** So over restarts the file grows without bound, from every file that ends with a line break. */
  lemma RestartsDefeatCompaction(f: LogFile, e: LogEntry, n: nat)
    requires f.tail.None?
    ensures |AllLines(Run(Loaded(f), PushAndRestart(e, n)).file)| == |AllLines(f)| + n
  {
    RestartsAddLines(e, n);
    FileLength(f, PushAndRestart(e, n));
  }
}
