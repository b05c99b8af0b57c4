/** What the scan loses behind a process that is closed inside a process, and when it loses nothing. */
module XmlLoss {
  import opened Common
  import opened XmlScan
  import opened XmlWalk
  import opened XmlRuns

  /** What the walk finds in `x` behind the first process that is closed in it. */
  function Lost(x: Xml, anc: seq<Ancestor>, count: nat): seq<Violation>
    decreases x, 1
  {
    if x.Content? then []
    else
      LostInAll(x.children, anc + [ElementFrame(x.tag, x.attrs)], if x.tag.Event? then 0 else CountAfter(x.tag, anc, count))
  }

  function LostInAll(xs: seq<Xml>, anc: seq<Ancestor>, count: nat): seq<Violation>
    decreases xs, 0
  {
    if xs == [] then []
    else
      var next := Walk(xs[0], anc, count).count;
      if ClosesProcess(xs[0]) then Lost(xs[0], anc, count) + WalkAll(xs[1..], anc, next).violations
      else LostInAll(xs[1..], anc, next)
  }

  /** Behind the first process that is closed in them another one begins. */
  predicate Reopens(xs: seq<Xml>)
    decreases xs
  {
    xs != [] &&
    if ClosesProcess(xs[0]) then Reopens(xs[0].children) || ProcessesIn(xs[1..]) != [] else Reopens(xs[1..])
  }

  /** No process of the document has anything behind a process that is closed in it. */
  predicate LosesNothing(x: Xml, anc: seq<Ancestor>)
    decreases x
  {
    x.Element? ==>
      if x.tag.Process? then LostInAll(x.children, anc + [ProcessFrame(x.attrs)], 0) == [] && !Reopens(x.children)
      else forall i | 0 <= i < |x.children| :: LosesNothing(x.children[i], anc + [ElementFrame(x.tag, x.attrs)])
  }

  // ----- inside a process

  /** What the tour finds, and what is lost, is what the walk finds. */
  lemma {:induction false} TourAndLost(x: Xml, anc: seq<Ancestor>, count: nat)
    ensures Tour(x, anc, count, true).own + Lost(x, anc, count) == Walk(x, anc, count).violations
    decreases x, 1
  {
    if x.Element? {
      var inner, next := anc + [ElementFrame(x.tag, x.attrs)], if x.tag.Event? then 0 else CountAfter(x.tag, anc, count);
      TourAllAndLost(x.children, inner, next);
    }
  }

  lemma {:induction false} TourAllAndLost(xs: seq<Xml>, anc: seq<Ancestor>, count: nat)
    ensures TourAll(xs, anc, count, true).own + LostInAll(xs, anc, count) == WalkAll(xs, anc, count).violations
    decreases xs, 0
  {
    if xs != [] {
      var first, next := Tour(xs[0], anc, count, true), Walk(xs[0], anc, count).count;
      TourInside(xs[0], anc, count);
      if ClosesProcess(xs[0]) {
        TourAndLost(xs[0], anc, count);
        OutsideOwnsNothingInAll(xs[1..], anc, first.count);
        assert first.own + [] == first.own;
      } else {
        TourAllAndLost(xs[1..], anc, next);
      }
    }
  }

  /** Outside, a process begins for each one the walk finds, or more. */
  lemma {:induction false} BegunOutside(x: Xml, anc: seq<Ancestor>, count: nat)
    ensures |Tour(x, anc, count, false).begun| >= |Processes(x)|
    ensures Processes(x) == [] ==> Tour(x, anc, count, false).begun == []
    decreases x, 1
  {
    if x.Element? && !x.tag.Process? {
      AllBegunOutside(x.children, anc + [ElementFrame(x.tag, x.attrs)], if x.tag.Event? then 0 else count);
    }
  }

  lemma {:induction false} AllBegunOutside(xs: seq<Xml>, anc: seq<Ancestor>, count: nat)
    ensures |TourAll(xs, anc, count, false).begun| >= |ProcessesIn(xs)|
    ensures ProcessesIn(xs) == [] ==> TourAll(xs, anc, count, false).begun == []
    decreases xs, 0
  {
    if xs != [] {
      var first := Tour(xs[0], anc, count, false);
      BegunOutside(xs[0], anc, count);
      OutsideOwnsNothing(xs[0], anc, count);
      AllBegunOutside(xs[1..], anc, first.count);
    }
  }

  /** Inside a process another one begins if and only if it reopens. */
  lemma {:induction false} BegunInside(xs: seq<Xml>, anc: seq<Ancestor>, count: nat)
    ensures TourAll(xs, anc, count, true).begun != [] <==> Reopens(xs)
    decreases xs
  {
    if xs != [] {
      var x := xs[0];
      var first := Tour(x, anc, count, true);
      TourInside(x, anc, count);
      if ClosesProcess(x) {
        BegunInside(x.children, anc + [ElementFrame(x.tag, x.attrs)], if x.tag.Event? then 0 else CountAfter(x.tag, anc, count));
        AllBegunOutside(xs[1..], anc, first.count);
      } else {
        BegunInside(xs[1..], anc, first.count);
      }
    }
  }

  /** The list of a process is what the walk finds, short of what is lost. */
  lemma ListIsCutShort(process: Xml, anc: seq<Ancestor>, count: nat)
    requires process.Element? && process.tag.Process?
    ensures var scanned, walked := Tour(process, anc, count, false).begun, WalkDocument(process, anc, count).entries;
            && |scanned| >= 1 && |walked| == 1
            && scanned[0].violations + LostInAll(process.children, anc + [ProcessFrame(process.attrs)], count)
               == walked[0].violations
            && (|scanned| == 1 <==> !Reopens(process.children))
  {
    TourAllAndLost(process.children, anc + [ProcessFrame(process.attrs)], count);
    BegunInside(process.children, anc + [ProcessFrame(process.attrs)], count);
  }

  // ----- documents

  /** Where no event is around, nothing is counted. */
  lemma {:induction false} NothingCounted(x: Xml, anc: seq<Ancestor>, inside: bool)
    requires NearestEvent(anc).None?
    ensures Tour(x, anc, 0, inside).count == 0
    decreases x, 1
  {
    if x.Element? && !x.tag.Event? {
      var f := if x.tag.Process? && !inside then ProcessFrame(x.attrs) else ElementFrame(x.tag, x.attrs);
      assert (anc + [f])[..|anc|] == anc;
      NothingCountedInAll(x.children, anc + [f], inside || x.tag.Process?);
    }
  }

  lemma {:induction false} NothingCountedInAll(xs: seq<Xml>, anc: seq<Ancestor>, inside: bool)
    requires NearestEvent(anc).None?
    ensures TourAll(xs, anc, 0, inside).count == 0
    decreases xs, 0
  {
    if xs != [] {
      NothingCounted(xs[0], anc, inside);
      NothingCountedInAll(xs[1..], anc, Tour(xs[0], anc, 0, inside).inside);
    }
  }

  lemma {:induction false} NothingCountedByWalk(x: Xml, anc: seq<Ancestor>)
    requires NearestEvent(anc).None?
    ensures Walk(x, anc, 0).count == 0
    decreases x, 1
  {
    if x.Element? && !x.tag.Event? {
      var f := ElementFrame(x.tag, x.attrs);
      assert (anc + [f])[..|anc|] == anc;
      NothingCountedByWalks(x.children, anc + [f]);
    }
  }

  lemma {:induction false} NothingCountedByWalks(xs: seq<Xml>, anc: seq<Ancestor>)
    requires NearestEvent(anc).None?
    ensures WalkAll(xs, anc, 0).count == 0
    decreases xs, 0
  {
    if xs != [] {
      NothingCountedByWalk(xs[0], anc);
      NothingCountedByWalks(xs[1..], anc);
    }
  }

  lemma {:induction false} NothingCountedOutside(x: Xml, anc: seq<Ancestor>)
    requires NearestEvent(anc).None?
    ensures Tour(x, anc, 0, false).count == 0 == WalkDocument(x, anc, 0).count
    decreases x, 1
  {
    NothingCounted(x, anc, false);
    if x.Element? && x.tag.Process? {
      assert (anc + [ProcessFrame(x.attrs)])[..|anc|] == anc;
      NothingCountedByWalks(x.children, anc + [ProcessFrame(x.attrs)]);
    } else if x.Element? && !x.tag.Event? {
      assert (anc + [ElementFrame(x.tag, x.attrs)])[..|anc|] == anc;
      NothingCountedInDocuments(x.children, anc + [ElementFrame(x.tag, x.attrs)]);
    }
  }

  lemma {:induction false} NothingCountedInDocuments(xs: seq<Xml>, anc: seq<Ancestor>)
    requires NearestEvent(anc).None?
    ensures WalkDocuments(xs, anc, 0).count == 0
    decreases xs, 0
  {
    if xs != [] {
      NothingCountedOutside(xs[0], anc);
      NothingCountedInDocuments(xs[1..], anc);
    }
  }

  lemma {:induction false} WithoutProcessNothingIsLost(x: Xml, anc: seq<Ancestor>)
    requires Processes(x) == []
    ensures LosesNothing(x, anc)
    decreases x
  {
    if x.Element? {
      forall i | 0 <= i < |x.children| ensures LosesNothing(x.children[i], anc + [ElementFrame(x.tag, x.attrs)]) {
        EachHasNone(x.children, i);
        WithoutProcessNothingIsLost(x.children[i], anc + [ElementFrame(x.tag, x.attrs)]);
      }
    }
  }

  lemma {:induction false} EachHasNone(xs: seq<Xml>, i: nat)
    requires ProcessesIn(xs) == [] && i < |xs|
    ensures Processes(xs[i]) == []
    decreases xs
  {
    if i > 0 {
      EachHasNone(xs[1..], i - 1);
      assert xs[1..][i - 1] == xs[i];
    }
  }

  /** Two pairs of lists, the first ones at least as long, agree when joined exactly if each agrees. */
  lemma JoinedAgree<T>(a: seq<T>, b: seq<T>, c: seq<T>, d: seq<T>)
    requires |a| >= |c| && |b| >= |d|
    ensures a + b == c + d <==> a == c && b == d
  {
    if a + b == c + d {
      assert |a + b| == |c + d|;
      assert a == (a + b)[..|a|] && b == (a + b)[|a|..];
      assert c == (c + d)[..|c|] && d == (c + d)[|c|..];
    }
  }

  lemma EachOrFirstAndRest(xs: seq<Xml>, anc: seq<Ancestor>)
    requires xs != []
    ensures (forall i | 0 <= i < |xs| :: LosesNothing(xs[i], anc)) <==>
            LosesNothing(xs[0], anc) && forall i | 0 <= i < |xs[1..]| :: LosesNothing(xs[1..][i], anc)
  {
    assert forall i | 0 < i < |xs| :: xs[i] == xs[1..][i - 1];
  }

  /** A list that is complete with what is lost is complete already if and only if nothing is. */
  lemma ListIsWhole(e: ProcessEntry, more: seq<ProcessEntry>, whole: ProcessEntry, lost: seq<Violation>)
    requires e.id == whole.id && e.isExecutable == whole.isExecutable && e.violations + lost == whole.violations
    ensures [e] + more == [whole] <==> lost == [] && more == []
  {
    if lost == [] { assert e.violations + lost == e.violations; }
    if [e] + more == [whole] {
      assert |[e] + more| == 1 && ([e] + more)[0] == e;
      assert |e.violations + lost| == |e.violations|;
    }
  }

  lemma ProcessIsWhole(process: Xml, anc: seq<Ancestor>)
    requires process.Element? && process.tag.Process?
    ensures Tour(process, anc, 0, false).begun == WalkDocument(process, anc, 0).entries <==> LosesNothing(process, anc)
  {
    var inner := anc + [ProcessFrame(process.attrs)];
    var found, id := TourAll(process.children, inner, 0, true), ProcessId(process.attrs);
    TourAllAndLost(process.children, inner, 0);
    BegunInside(process.children, inner, 0);
    ListIsWhole(ProcessEntry(id, process.attrs.isExecutable, found.own), found.begun,
                ProcessEntry(id, process.attrs.isExecutable, WalkAll(process.children, inner, 0).violations),
                LostInAll(process.children, inner, 0));
  }

  /** The tour of a document is its walk if and only if nothing is lost. */
  lemma {:induction false} TourIsWalkExactly(x: Xml, anc: seq<Ancestor>)
    requires NearestEvent(anc).None? && EventsAreInside(x)
    ensures Tour(x, anc, 0, false).begun == WalkDocument(x, anc, 0).entries <==> LosesNothing(x, anc)
    decreases x, 1
  {
    if x.Element? {
      var f := ElementFrame(x.tag, x.attrs);
      if x.tag.Process? {
        ProcessIsWhole(x, anc);
      } else if x.tag.Event? {
        WithoutProcessNothingIsLost(x, anc);
        BegunOutside(x, anc, 0);
        EntryPerProcess(x, anc, 0);
      } else {
        assert (anc + [f])[..|anc|] == anc;
        TourAllIsWalkExactly(x.children, anc + [f]);
      }
    }
  }

  lemma {:induction false} TourAllIsWalkExactly(xs: seq<Xml>, anc: seq<Ancestor>)
    requires NearestEvent(anc).None? && forall i | 0 <= i < |xs| :: EventsAreInside(xs[i])
    ensures TourAll(xs, anc, 0, false).begun == WalkDocuments(xs, anc, 0).entries
            <==> forall i | 0 <= i < |xs| :: LosesNothing(xs[i], anc)
    decreases xs, 0
  {
    if xs != [] {
      var rest := xs[1..];
      EachOrFirstAndRest(xs, anc);
      TourIsWalkExactly(xs[0], anc);
      TourAllIsWalkExactly(rest, anc);
      NothingCountedOutside(xs[0], anc);
      OutsideOwnsNothing(xs[0], anc, 0);
      BegunOutside(xs[0], anc, 0);
      AllBegunOutside(rest, anc, 0);
      EntryPerProcess(xs[0], anc, 0);
      EntryPerProcessIn(rest, anc, 0);
      JoinedAgree(Tour(xs[0], anc, 0, false).begun, TourAll(rest, anc, 0, false).begun,
                  WalkDocument(xs[0], anc, 0).entries, WalkDocuments(rest, anc, 0).entries);
    }
  }

  lemma EntriesAreHeadsAndLists(a: seq<ProcessEntry>, b: seq<ProcessEntry>)
    ensures Heads(a) == Heads(b) && Lists(a) == Lists(b) <==> a == b
  {
    if Heads(a) == Heads(b) && Lists(a) == Lists(b) {
      assert |a| == |Heads(a)| == |Heads(b)| == |b|;
      forall i | 0 <= i < |a| ensures a[i] == b[i] {
        assert Heads(a)[i] == Heads(b)[i] && Lists(a)[i] == Lists(b)[i];
      }
    }
  }

  /** The scan of a document whose events hold no processes finds what the walk finds, in the same processes, if
      and only if nothing is lost behind a process that is closed inside a process. */
  lemma ScanIsWalkExactly(x: Xml)
    requires EventsAreInside(x)
    ensures var found := WalkDocument(x, [], 0).entries;
            Run(FRESH, Events(x)) == ScanState([], Heads(found), Lists(found), None) <==> LosesNothing(x, [])
  {
    ScanIsTour(x);
    TourIsWalkExactly(x, []);
    EntriesAreHeadsAndLists(Tour(x, [], 0, false).begun, WalkDocument(x, [], 0).entries);
  }
}
