/** Conditional catches over whole runs: passes, suspended passes, restarts, new registrations, and tokens that go on
    for other reasons. */
module ConditionalHistory {
  import opened Common
  import opened Tokens
  import opened ConditionalEvents
  import opened ConditionalRuns

  datatype Event =
    | Evaluated(at: Situation, order: seq<Id>)
    | Suspended
    | Restarted
    | Registered(id: Id, catch: Catch)
    | Resumed(token: Id, leaves: bool)
    | Completed(token: Id, nodes: set<Id>)

  /** A new catch starts from false, for a token of the instance; an intermediate one shares it with none. */
  ghost predicate MayRegister(s: State, sit: Situation, id: Id, c: Catch) {
    && id !in s.pending && !c.lastResult && c.tokenId in s.tokens
    && (KindOf(c, sit).Intermediate? ==> Of(s.pending, c.tokenId) == {})
    && forall x | x in s.pending && KindOf(s.pending[x], sit).Intermediate? :: s.pending[x].tokenId != c.tokenId
  }

  /** An activity is left, and `nodes` are its boundary events: no other catch waits for its token. */
  ghost predicate MayComplete(s: State, token: Id, nodes: set<Id>) { Of(s.pending, token) <= AtNodes(s.pending, nodes) }

  /** The kinds of nodes never change; `sit` stands for them. */
  ghost predicate MayHappen(s: State, sit: Situation, e: Event) {
    match e
    case Evaluated(at, order) => at.kinds == sit.kinds && Routable(s.pending, at) && IsOrder(order, s.pending)
    case Registered(id, c) => MayRegister(s, sit, id, c)
    case Completed(token, nodes) => MayComplete(s, token, nodes)
    case _ => true
  }

  /** A token that was resumed by another event gives up its catches and may leave; one that completed its activity
      leaves, and with it every catch at the boundary of that activity. */
  ghost function Next(s: State, e: Event): State
    requires e.Evaluated? ==> IsOrder(e.order, s.pending)
  {
    match e
    case Evaluated(at, order) => Passed(s, order, at)
    case Suspended => s
    case Restarted => s.(pending := s.stored)
    case Registered(id, c) => s.(pending := s.pending[id := c], stored := s.stored[id := c])
    case Resumed(token, leaves) => Cleared(s, token).(tokens := if leaves then s.tokens - {token} else s.tokens)
    case Completed(token, nodes) => Cancelled(s, nodes).(tokens := s.tokens - {token})
  }

  /** The event gives up the catch without a pass. */
  ghost predicate GivesUp(s: State, e: Event, id: Id)
    requires id in s.pending
  {
    match e
    case Resumed(token, _) => s.pending[id].tokenId == token
    case Completed(_, nodes) => s.pending[id].nodeId in nodes
    case _ => false
  }

  ghost predicate IsRun(s: State, sit: Situation, es: seq<Event>)
    decreases |es|
  {
    es == [] || (MayHappen(s, sit, es[0]) && IsRun(Next(s, es[0]), sit, es[1..]))
  }

  /** The state after the first `k` events. */
  ghost function At(s: State, sit: Situation, es: seq<Event>, k: nat): State
    requires IsRun(s, sit, es) && k <= |es|
    decreases k
  {
    if k == 0 then s else At(Next(s, es[0]), sit, es[1..], k - 1)
  }

  ghost function Final(s: State, sit: Situation, es: seq<Event>): State
    requires IsRun(s, sit, es)
  {
    At(s, sit, es, |es|)
  }

  // ----- the invariant

  lemma SoundForSameKinds(s: State, a: Situation, b: Situation)
    requires Sound(s, a) && a.kinds == b.kinds
    ensures Sound(s, b)
  {
    forall id | id in s.pending ensures KindOf(s.pending[id], a) == KindOf(s.pending[id], b) { }
  }

  lemma RegisterIsSound(s: State, sit: Situation, id: Id, c: Catch)
    requires Sound(s, sit) && MayRegister(s, sit, id, c)
    ensures Sound(Next(s, Registered(id, c)), sit)
  {
    var r := Next(s, Registered(id, c));
    forall a, b | a in r.pending && b in r.pending && a != b && KindOf(r.pending[a], sit).Intermediate?
      ensures r.pending[a].tokenId != r.pending[b].tokenId
    {
      if a == id {
        assert b !in Of(s.pending, c.tokenId);
      }
    }
  }

  lemma GivingUpIsSound(s: State, sit: Situation, gone: set<Id>, token: Id, leaves: bool)
    requires Sound(s, sit) && (leaves ==> Of(s.pending, token) <= gone)
    ensures Sound(s.(pending := s.pending - gone, stored := s.stored - gone,
                     tokens := if leaves then s.tokens - {token} else s.tokens), sit)
  {
    forall id | id in s.pending && id !in gone ensures leaves ==> s.pending[id].tokenId != token {
      assert leaves ==> id !in Of(s.pending, token);
    }
  }

  /** Whatever happens, the invariant holds, memory equals storage, and no pass fails. */
  lemma EventIsSound(s: State, sit: Situation, e: Event)
    requires Sound(s, sit) && MayHappen(s, sit, e)
    ensures Sound(Next(s, e), sit)
    ensures e.Restarted? ==> Next(s, e) == s
    ensures e.Evaluated? ==> Passable(s, e.order, e.at)
  {
    match e
    case Evaluated(at, order) =>
      SoundForSameKinds(s, sit, at);
      PassIsSound(s, order, at);
      SoundForSameKinds(Next(s, e), at, sit);
    case Registered(id, c) => RegisterIsSound(s, sit, id, c);
    case Resumed(token, leaves) => GivingUpIsSound(s, sit, Of(s.pending, token), token, leaves);
    case Completed(token, nodes) => GivingUpIsSound(s, sit, AtNodes(s.pending, nodes), token, true);
    case _ =>
  }

  lemma {:induction false} RunIsSound(s: State, sit: Situation, es: seq<Event>)
    requires Sound(s, sit) && IsRun(s, sit, es)
    ensures Sound(Final(s, sit, es), sit)
    decreases |es|
  {
    if es != [] {
      EventIsSound(s, sit, es[0]);
      RunIsSound(Next(s, es[0]), sit, es[1..]);
    }
  }

  // ----- edges

  /** Transitions from false to true over the passes of a run, given the last result before it. */
  ghost function Edges(condition: string, last: bool, es: seq<Event>): nat
    decreases |es|
  {
    if es == [] then 0
    else if es[0].Evaluated? then
      var now := es[0].at.truth(condition);
      (if now && !last then 1 else 0) + Edges(condition, now, es[1..])
    else Edges(condition, last, es[1..])
  }

  /** The catch itself is registered once. */
  ghost predicate NotRegisteredAgain(id: Id, es: seq<Event>) {
    forall i | 0 <= i < |es| && es[i].Registered? :: es[i].id != id
  }

  /** A catch that is gone stays gone. */
  lemma {:induction false} GoneForever(s: State, sit: Situation, es: seq<Event>, id: Id)
    requires Sound(s, sit) && IsRun(s, sit, es) && NotRegisteredAgain(id, es) && id !in s.pending
    ensures id !in Final(s, sit, es).pending && FireCount(Final(s, sit, es).log, id) == FireCount(s.log, id)
    decreases |es|
  {
    if es != [] {
      EventIsSound(s, sit, es[0]);
      if es[0].Evaluated? {
        PassIs(s, es[0].order, es[0].at);
        NoFireWithoutCatch(s, es[0].order, es[0].at, id);
      }
      GoneForever(Next(s, es[0]), sit, es[1..], id);
    }
  }

  // ----- the life of a catch

  /** A catch that a pass leaves fires in it exactly if it rises, and only a non-interrupting one can. */
  lemma SurvivorFires(s: State, order: seq<Id>, sit: Situation, id: Id)
    requires Passable(s, order, sit) && id in s.pending && id in Passed(s, order, sit).pending
    ensures var c, r := s.pending[id], Passed(s, order, sit);
            && r.pending[id] == Remembering(c, sit) && (Rises(c, sit) ==> KindOf(c, sit).NonInterrupting?)
            && FireCount(r.log, id) == FireCount(s.log, id) + (if Rises(c, sit) then 1 else 0)
  {
    CatchAfterPass(s, order, sit, id);
    assert !Removes(s.pending, sit, id, id);
    assert id in order;
    var k :| 0 <= k < |order| && order[k] == id;
    PassHasEffect(s, order, sit, k);
    if i :| 0 <= i < k && KindOf(s.pending[order[i]], sit).Interrupting? && Rises(s.pending[order[i]], sit)
            && s.pending[order[i]].tokenId == s.pending[order[k]].tokenId {
      assert Removes(s.pending, sit, order[i], id);
      assert false;
    }
  }

  /** What an event does to a catch that it leaves. */
  lemma EventEffect(s: State, sit: Situation, e: Event, id: Id)
    requires Sound(s, sit) && MayHappen(s, sit, e) && id in s.pending && (e.Registered? ==> e.id != id)
    requires id in Next(s, e).pending
    ensures var c, r := s.pending[id], Next(s, e);
            if e.Evaluated? then
              && r.pending[id] == Remembering(c, e.at) && (Rises(c, e.at) ==> KindOf(c, sit).NonInterrupting?)
              && FireCount(r.log, id) == FireCount(s.log, id) + (if Rises(c, e.at) then 1 else 0)
            else r.pending[id] == c && r.log == s.log
  {
    EventIsSound(s, sit, e);
    if e.Evaluated? { SurvivorFires(s, e.order, e.at, id); }
  }

  /** A pass takes a catch away, and there it fires exactly if its turn comes first; or another event gives it up. */
  lemma EventRemoves(s: State, sit: Situation, e: Event, id: Id)
    requires Sound(s, sit) && MayHappen(s, sit, e) && id in s.pending && (e.Registered? ==> e.id != id)
    requires id !in Next(s, e).pending
    ensures if e.Evaluated? then Passable(s, e.order, e.at) && IsRemoved(s, e.at, id) else GivesUp(s, e, id)
    ensures FireCount(Next(s, e).log, id) ==
            FireCount(s.log, id) + (if e.Evaluated? && FiresIn(s, e.order, e.at, 0, id) then 1 else 0)
  {
    EventIsSound(s, sit, e);
    if e.Evaluated? {
      CatchAfterPass(s, e.order, e.at, id);
      PassCounts(s, e.order, e.at, id);
    }
  }

  /** The catch is still there after `k` events. It has fired once per false-to-true transition if it is
      non-interrupting. If it is not, it has not fired, and no pass has found its condition true. */
  ghost predicate HasLived(s: State, sit: Situation, es: seq<Event>, id: Id, k: nat)
    requires IsRun(s, sit, es) && k <= |es| && id in s.pending
  {
    var c, r := s.pending[id], At(s, sit, es, k);
    && id in r.pending && r.pending[id] == c.(lastResult := r.pending[id].lastResult)
    && FireCount(r.log, id) == FireCount(s.log, id) + Edges(c.condition, c.lastResult, es[..k])
    && (!KindOf(c, sit).NonInterrupting? ==>
          forall i | 0 <= i < k && es[i].Evaluated? :: !es[i].at.truth(c.condition))
  }

  /** The `k`-th event is the pass that removes the catch, where it may fire a last time, or gives it up. */
  ghost predicate IsRemovedAt(s: State, sit: Situation, es: seq<Event>, id: Id, k: nat)
    requires IsRun(s, sit, es) && k < |es|
  {
    var r, e := At(s, sit, es, k), es[k];
    && id in r.pending
    && (if e.Evaluated? then Passable(r, e.order, e.at) && IsRemoved(r, e.at, id) else GivesUp(r, e, id))
    && FireCount(Final(s, sit, es).log, id) ==
       FireCount(r.log, id) + (if e.Evaluated? && FiresIn(r, e.order, e.at, 0, id) then 1 else 0)
  }

  lemma LivedOn(s: State, sit: Situation, es: seq<Event>, id: Id, k: nat)
    requires Sound(s, sit) && IsRun(s, sit, es) && es != [] && id in s.pending && (es[0].Registered? ==> es[0].id != id)
    requires id in Next(s, es[0]).pending && k < |es| && HasLived(Next(s, es[0]), sit, es[1..], id, k)
    ensures HasLived(s, sit, es, id, k + 1)
  {
    EventEffect(s, sit, es[0], id);
    assert es[..k + 1][1..] == es[1..][..k] && es[..k + 1][0] == es[0];
    forall i | 0 <= i < k + 1 && es[i].Evaluated? && !KindOf(s.pending[id], sit).NonInterrupting?
      ensures !es[i].at.truth(s.pending[id].condition)
    {
      if i > 0 { assert es[1..][i - 1] == es[i]; }
    }
  }

  /** Every run of a catch: it is there for `k` events, and then to the end, removed by a pass or given up. */
  lemma {:induction false} LifeOfCatch(s: State, sit: Situation, es: seq<Event>, id: Id) returns (k: nat)
    requires Sound(s, sit) && IsRun(s, sit, es) && NotRegisteredAgain(id, es) && id in s.pending
    ensures k <= |es| && HasLived(s, sit, es, id, k)
    ensures if id in Final(s, sit, es).pending then k == |es| else k < |es| && IsRemovedAt(s, sit, es, id, k)
    decreases |es|
  {
    if es == [] {
      k := 0;
    } else {
      var r := Next(s, es[0]);
      EventIsSound(s, sit, es[0]);
      if id in r.pending {
        var rest := LifeOfCatch(r, sit, es[1..], id);
        LivedOn(s, sit, es, id, rest);
        k := rest + 1;
      } else {
        EventRemoves(s, sit, es[0], id);
        GoneForever(r, sit, es[1..], id);
        k := 0;
      }
    }
  }

  // ----- non-interrupting catches

  /** Over every run, a non-interrupting catch spawns one token per false-to-true transition for as long as it
      is registered. That is to the end, or until it is given up, or up to the first pass in which an interrupting
      catch of its token rises. In that pass it spawns at most once more: if it rises, and its turn comes first. */
  lemma SpawnsPerEdge(s: State, sit: Situation, es: seq<Event>, id: Id) returns (k: nat)
    requires Sound(s, sit) && IsRun(s, sit, es) && NotRegisteredAgain(id, es)
    requires id in s.pending && KindOf(s.pending[id], sit).NonInterrupting?
    ensures k <= |es| && id in At(s, sit, es, k).pending
    ensures var c, r, spawned := s.pending[id], At(s, sit, es, k), FireCount(Final(s, sit, es).log, id) - FireCount(s.log, id);
            if id in Final(s, sit, es).pending then k == |es| && spawned == Edges(c.condition, c.lastResult, es)
            else if k < |es| && !es[k].Evaluated? then
              GivesUp(r, es[k], id) && spawned == Edges(c.condition, c.lastResult, es[..k])
            else
              && k < |es| && Passable(r, es[k].order, es[k].at) && IsInterrupted(r, es[k].at, c.tokenId)
              && spawned == Edges(c.condition, c.lastResult, es[..k])
                            + (if FiresIn(r, es[k].order, es[k].at, 0, id) then 1 else 0)
              && (FiresIn(r, es[k].order, es[k].at, 0, id) ==> Rises(r.pending[id], es[k].at))
  {
    k := LifeOfCatch(s, sit, es, id);
    assert es[..|es|] == es;
    if id !in Final(s, sit, es).pending && es[k].Evaluated? {
      var r, at := At(s, sit, es, k), es[k].at;
      RunKinds(s, sit, es, k);
      var x :| x in r.pending && Removes(r.pending, at, x, id);
    }
  }

  lemma {:induction false} RunKinds(s: State, sit: Situation, es: seq<Event>, k: nat)
    requires IsRun(s, sit, es) && k < |es| && es[k].Evaluated?
    ensures es[k].at.kinds == sit.kinds
    decreases k
  {
    if k > 0 { RunKinds(Next(s, es[0]), sit, es[1..], k - 1); }
  }

  // ----- one-shot catches

  /** Whether some pass of the run finds the condition true. */
  ghost predicate EverTrue(condition: string, es: seq<Event>) {
    exists i :: 0 <= i < |es| && es[i].Evaluated? && es[i].at.truth(condition)
  }

  /** Over every run, a one-shot catch does not fire before the first pass that finds it true or that takes its
      token, and not at all if it is given up before. There it fires exactly once if it is true and no other
      one-shot catch of its token rises, and not at all if it is false. It never fires again. */
  lemma OneShotOverRun(s: State, sit: Situation, es: seq<Event>, id: Id) returns (k: nat)
    requires Sound(s, sit) && IsRun(s, sit, es) && NotRegisteredAgain(id, es)
    requires id in s.pending && IsOneShot(s.pending[id], sit)
    ensures k <= |es| && !EverTrue(s.pending[id].condition, es[..k])
    ensures id in At(s, sit, es, k).pending && At(s, sit, es, k).pending[id] == s.pending[id]
    ensures var c, r, fired := s.pending[id], At(s, sit, es, k), FireCount(Final(s, sit, es).log, id) - FireCount(s.log, id);
            if id in Final(s, sit, es).pending then k == |es| && fired == 0
            else if k < |es| && !es[k].Evaluated? then GivesUp(r, es[k], id) && fired == 0
            else
              && k < |es| && Passable(r, es[k].order, es[k].at) && 0 <= fired <= 1
              && (es[k].at.truth(c.condition) && !HasRival(r, es[k].at, id) ==> fired == 1)
              && (!es[k].at.truth(c.condition) ==> fired == 0 && IsInterrupted(r, es[k].at, c.tokenId))
  {
    k := LifeOfCatch(s, sit, es, id);
    NoEdges(s.pending[id].condition, s.pending[id].lastResult, es[..k]);
    RunIsSoundAt(s, sit, es, k);
    if id !in Final(s, sit, es).pending && es[k].Evaluated? {
      RunKinds(s, sit, es, k);
      LastPass(At(s, sit, es, k), es[k].order, es[k].at, sit, id);
    }
  }

  lemma {:induction false} NoEdges(condition: string, last: bool, es: seq<Event>)
    requires !EverTrue(condition, es)
    ensures Edges(condition, last, es) == 0
    decreases |es|
  {
    if es != [] {
      assert forall i | 0 <= i < |es[1..]| :: es[1..][i] == es[i + 1];
      NoEdges(condition, if es[0].Evaluated? then es[0].at.truth(condition) else last, es[1..]);
    }
  }

  lemma {:induction false} RunIsSoundAt(s: State, sit: Situation, es: seq<Event>, k: nat)
    requires Sound(s, sit) && IsRun(s, sit, es) && k <= |es|
    ensures Sound(At(s, sit, es, k), sit)
    decreases k
  {
    if k > 0 {
      EventIsSound(s, sit, es[0]);
      RunIsSoundAt(Next(s, es[0]), sit, es[1..], k - 1);
    }
  }

  /** The pass that removes a one-shot catch. */
  lemma LastPass(r: State, order: seq<Id>, at: Situation, sit: Situation, id: Id)
    requires Sound(r, sit) && at.kinds == sit.kinds && Passable(r, order, at) && id in r.pending
    requires IsOneShot(r.pending[id], sit) && IsRemoved(r, at, id)
    ensures at.truth(r.pending[id].condition) && !HasRival(r, at, id) ==> FiresIn(r, order, at, 0, id)
    ensures !at.truth(r.pending[id].condition) ==>
              !FiresIn(r, order, at, 0, id) && IsInterrupted(r, at, r.pending[id].tokenId)
  {
    assert id in order;
    var k :| 0 <= k < |order| && order[k] == id;
    assert KindOf(r.pending[id], at) == KindOf(r.pending[id], sit);
    if at.truth(r.pending[id].condition) {
      if !HasRival(r, at, id) { WithoutRivalFires(r, order, at, k); }
    } else {
      var x :| x in r.pending && Removes(r.pending, at, x, id);
    }
  }

  /** After every run that leaves a one-shot catch pending, and in every situation that makes it true: it fires
      for the first time then, in every order of the pass, if and only if it has no rival. */
  lemma OneShotFiresInFirstTruePass(s: State, sit: Situation, es: seq<Event>, id: Id, at: Situation)
    requires Sound(s, sit) && IsRun(s, sit, es) && NotRegisteredAgain(id, es)
    requires id in s.pending && IsOneShot(s.pending[id], sit) && id in Final(s, sit, es).pending
    requires at.kinds == sit.kinds && Routable(Final(s, sit, es).pending, at) && at.truth(s.pending[id].condition)
    ensures var r := Final(s, sit, es);
            (forall order | Passable(r, order, at) ::
               FireCount(Passed(r, order, at).log, id) == FireCount(s.log, id) + 1) <==> !HasRival(r, at, id)
  {
    var r := Final(s, sit, es);
    var k := OneShotOverRun(s, sit, es, id);
    RunIsSoundAt(s, sit, es, |es|);
    SoundForSameKinds(r, sit, at);
    OneShotFiresExactly(r, at, id);
  }

  /** An intermediate catch has no rivals. */
  lemma IntermediateHasNoRival(s: State, sit: Situation, at: Situation, id: Id)
    requires Sound(s, sit) && at.kinds == sit.kinds && id in s.pending && KindOf(s.pending[id], sit).Intermediate?
    ensures !HasRival(s, at, id) && !IsInterrupted(s, at, s.pending[id].tokenId)
  {
  }

  lemma FirstTrue(condition: string, es: seq<Event>, k: nat)
    requires k <= |es| && !EverTrue(condition, es[..k])
    ensures k == |es| ==> !EverTrue(condition, es)
    ensures k < |es| && es[k].Evaluated? && es[k].at.truth(condition) ==> EverTrue(condition, es)
  {
    assert k == |es| ==> es[..k] == es;
  }

  /** So an intermediate catch fires exactly once, in the first pass that finds its condition true, unless it is given
      up before; and never again. */
  lemma IntermediateFiresOnce(s: State, sit: Situation, es: seq<Event>, id: Id) returns (k: nat)
    requires Sound(s, sit) && IsRun(s, sit, es) && NotRegisteredAgain(id, es)
    requires id in s.pending && KindOf(s.pending[id], sit).Intermediate?
    ensures k <= |es| && id in At(s, sit, es, k).pending && !EverTrue(s.pending[id].condition, es[..k])
    ensures var fired := FireCount(Final(s, sit, es).log, id) - FireCount(s.log, id);
            if id in Final(s, sit, es).pending then k == |es| && fired == 0
            else if k < |es| && es[k].Evaluated? then es[k].at.truth(s.pending[id].condition) && fired == 1
            else k < |es| && GivesUp(At(s, sit, es, k), es[k], id) && fired == 0
    ensures k == |es| || es[k].Evaluated? ==>
              var r, now := Final(s, sit, es), EverTrue(s.pending[id].condition, es);
              FireCount(r.log, id) == FireCount(s.log, id) + (if now then 1 else 0) && (id in r.pending <==> !now)
  {
    k := OneShotOverRun(s, sit, es, id);
    FirstTrue(s.pending[id].condition, es, k);
    if id !in Final(s, sit, es).pending && es[k].Evaluated? {
      RunKinds(s, sit, es, k);
      RunIsSoundAt(s, sit, es, k);
      IntermediateHasNoRival(At(s, sit, es, k), sit, es[k].at, id);
    }
  }
}
