/** What a pass over conditional catches does to each catch and token, in whatever order it visits them. */
module ConditionalRuns {
  import opened Common
  import opened Tokens
  import opened ConditionalEvents

  predicate IsOneShot(c: Catch, sit: Situation) { KindOf(c, sit).Intermediate? || KindOf(c, sit).Interrupting? }

  /** The condition holds, and did not when it was last looked at. */
  predicate Rises(c: Catch, sit: Situation) { sit.truth(c.condition) && !c.lastResult }

  /** Every catch waits for a token of the instance. */
  ghost predicate TokensExist(s: State) { forall id | id in s.pending :: s.pending[id].tokenId in s.tokens }

  /** Every conditional node leads somewhere. */
  ghost predicate Routable(catches: Catches, sit: Situation) {
    forall id | id in catches :: !KindOf(catches[id], sit).Misplaced? ==> catches[id].nodeId in sit.next
  }

  /** Two catches of one token become true together, and one of them is intermediate. */
  ghost predicate Clash(s: State, sit: Situation, a: Id, b: Id) {
    && a in s.pending && b in s.pending && a != b && s.pending[a].tokenId == s.pending[b].tokenId
    && KindOf(s.pending[a], sit).Intermediate? && !KindOf(s.pending[b], sit).Misplaced?
    && Rises(s.pending[a], sit) && Rises(s.pending[b], sit)
  }

  ghost predicate NoClash(s: State, sit: Situation) { forall a, b :: !Clash(s, sit, a, b) }

  ghost predicate Ready(s: State, sit: Situation) { TokensExist(s) && Routable(s.pending, sit) && NoClash(s, sit) }

  /** New token identifiers are unused. */
  ghost predicate IdsAreFresh(s: State) { forall t | t in s.tokens :: t < s.nextId }

  // ----- who removes whom

  /** The catch `x` rises and takes the catch `id` away: itself if it is done, or as an interruption. */
  predicate Removes(catches: Catches, sit: Situation, x: Id, id: Id)
    requires x in catches && id in catches
  {
    && Rises(catches[x], sit)
    && (|| (x == id && !KindOf(catches[x], sit).NonInterrupting?)
        || (KindOf(catches[x], sit).Interrupting? && catches[x].tokenId == catches[id].tokenId))
  }

  /** The catch `x` rises and takes the token `t` out. */
  predicate Takes(catches: Catches, sit: Situation, x: Id, t: Id)
    requires x in catches
  {
    Rises(catches[x], sit) && IsOneShot(catches[x], sit) && catches[x].tokenId == t
  }

  ghost predicate IsListed(order: seq<Id>, catches: Catches) { forall i | 0 <= i < |order| :: order[i] in catches }

  /** One of the first `n` visited removes the catch. */
  ghost predicate RemovedBy(catches: Catches, order: seq<Id>, sit: Situation, n: nat, id: Id)
    requires IsListed(order, catches) && n <= |order| && id in catches
  {
    n > 0 && (RemovedBy(catches, order, sit, n - 1, id) || Removes(catches, sit, order[n - 1], id))
  }

  /** One of the first `n` visited takes the token out. */
  ghost predicate TakenBy(catches: Catches, order: seq<Id>, sit: Situation, n: nat, t: Id)
    requires IsListed(order, catches) && n <= |order|
  {
    n > 0 && (TakenBy(catches, order, sit, n - 1, t) || Takes(catches, sit, order[n - 1], t))
  }

  lemma {:induction false} Remover(catches: Catches, order: seq<Id>, sit: Situation, n: nat, id: Id) returns (i: nat)
    requires IsListed(order, catches) && n <= |order| && id in catches && RemovedBy(catches, order, sit, n, id)
    ensures i < n && Removes(catches, sit, order[i], id)
  {
    if Removes(catches, sit, order[n - 1], id) {
      i := n - 1;
    } else {
      i := Remover(catches, order, sit, n - 1, id);
    }
  }

  lemma {:induction false} Taker(catches: Catches, order: seq<Id>, sit: Situation, n: nat, t: Id) returns (i: nat)
    requires IsListed(order, catches) && n <= |order| && TakenBy(catches, order, sit, n, t)
    ensures i < n && Takes(catches, sit, order[i], t)
  {
    if Takes(catches, sit, order[n - 1], t) {
      i := n - 1;
    } else {
      i := Taker(catches, order, sit, n - 1, t);
    }
  }

  lemma {:induction false} RemoverRemoves(catches: Catches, order: seq<Id>, sit: Situation, i: nat, n: nat, id: Id)
    requires IsListed(order, catches) && i < n <= |order| && id in catches && Removes(catches, sit, order[i], id)
    ensures RemovedBy(catches, order, sit, n, id)
    decreases n
  {
    if i < n - 1 { RemoverRemoves(catches, order, sit, i, n - 1, id); }
  }

  lemma {:induction false} TakerTakes(catches: Catches, order: seq<Id>, sit: Situation, i: nat, n: nat, t: Id)
    requires IsListed(order, catches) && i < n <= |order| && Takes(catches, sit, order[i], t)
    ensures TakenBy(catches, order, sit, n, t)
    decreases n
  {
    if i < n - 1 { TakerTakes(catches, order, sit, i, n - 1, t); }
  }

  /** What a catch that is still there remembers. */
  function Remembering(c: Catch, sit: Situation): Catch { c.(lastResult := sit.truth(c.condition)) }

  // ----- one visit

  /** The catch has what it needs to fire. */
  ghost predicate CanFire(s: State, id: Id, sit: Situation) {
    && id in s.pending
    && var c := s.pending[id];
       Rises(c, sit) && !KindOf(c, sit).Misplaced? ==> c.nodeId in sit.next && c.tokenId in s.tokens
  }

  ghost predicate SameTokens(a: State, b: State) { a.tokens == b.tokens && a.log == b.log && a.nextId == b.nextId }

  lemma VisitFires(s: State, id: Id, sit: Situation)
    requires CanFire(s, id, sit)
    ensures var c, r := s.pending[id], Visit(s, id, s.pending[id], sit).state;
            if !Rises(c, sit) || KindOf(c, sit).Misplaced? then SameTokens(s, r)
            else
              var token := Continuing(s.tokens[c.tokenId], c, sit);
              if IsOneShot(c, sit) then
                r.log == s.log + [Moved(id, c.tokenId, token)] && r.tokens == s.tokens - {c.tokenId} && r.nextId == s.nextId
              else
                r.log == s.log + [Spawned(id, s.nextId, token)] && r.tokens == s.tokens[s.nextId := token]
                && r.nextId == s.nextId + 1
  {
  }

  /** A visit removes what it should and nothing else; the visited catch remembers its condition. */
  lemma VisitRemoves(s: State, id: Id, sit: Situation, other: Id)
    requires CanFire(s, id, sit) && other in s.pending
    ensures var r := Visit(s, id, s.pending[id], sit);
            && r.ok
            && (other in r.state.pending <==> !Removes(s.pending, sit, id, other))
            && (other in r.state.pending ==>
                  r.state.pending[other] == if other == id then Remembering(s.pending[id], sit) else s.pending[other])
  {
  }

  /** A catch that rises and has no way on, or no token, fails. It is lost in memory and stays in storage; an
      interrupting one has given up the other catches of its token by then. No token moves. */
  lemma FailureLosesCatch(s: State, id: Id, sit: Situation)
    requires id in s.pending && Rises(s.pending[id], sit) && !KindOf(s.pending[id], sit).Misplaced?
    requires s.pending[id].nodeId !in sit.next || s.pending[id].tokenId !in s.tokens
    ensures var c, r := s.pending[id], Visit(s, id, s.pending[id], sit);
            var gone := set x | x in s.pending && x != id && KindOf(c, sit).Interrupting? && s.pending[x].tokenId == c.tokenId;
            && !r.ok && r.state.tokens == s.tokens && r.state.log == s.log && r.state.nextId == s.nextId
            && r.state.pending == s.pending - {id} - gone && r.state.stored == s.stored - gone
  {
    var c := s.pending[id];
    if KindOf(c, sit).Interrupting? {
      var others := Of(Forgotten(s, id).pending, c.tokenId);
      assert others == set x | x in s.pending && x != id && s.pending[x].tokenId == c.tokenId;
    }
  }

  lemma VisitAddsNone(s: State, id: Id, sit: Situation)
    requires CanFire(s, id, sit)
    ensures Visit(s, id, s.pending[id], sit).state.pending.Keys <= s.pending.Keys
    ensures s.stored == s.pending ==>
              Visit(s, id, s.pending[id], sit).state.stored == Visit(s, id, s.pending[id], sit).state.pending
  {
    var c, r := s.pending[id], Visit(s, id, s.pending[id], sit).state;
    if s.stored == s.pending && Rises(c, sit) && KindOf(c, sit).Interrupting? {
      var others := Of(Forgotten(s, id).pending, c.tokenId);
      assert r.pending == s.pending - {id} - others && r.stored == s.stored - others - {id};
    }
  }

  // ----- a pass, visit by visit

  lemma OrderIsPending(s: State, order: seq<Id>)
    requires IsOrder(order, s.pending)
    ensures IsListed(order, s.pending)
  {
    forall i | 0 <= i < |order| ensures order[i] in s.pending { assert order[i] in order; }
  }

  /** The state after a whole pass. */
  ghost function Passed(s: State, order: seq<Id>, sit: Situation): State
    requires IsOrder(order, s.pending)
  {
    OrderIsPending(s, order);
    Pass(s, order, sit, |order|).state
  }

  ghost predicate Passable(s: State, order: seq<Id>, sit: Situation) {
    Ready(s, sit) && IsOrder(order, s.pending) && IsListed(order, s.pending)
  }

  /** After `n` visits, the catches left are those nothing removed. */
  ghost predicate CatchesAre(s: State, r: State, order: seq<Id>, sit: Situation, n: nat)
    requires IsListed(order, s.pending) && n <= |order|
  {
    && r.pending.Keys <= s.pending.Keys
    && forall id | id in s.pending :: id in r.pending <==> !RemovedBy(s.pending, order, sit, n, id)
  }

  /** Those visited remember their condition, and the others are as they were. */
  ghost predicate MemoryIs(s: State, r: State, order: seq<Id>, sit: Situation, n: nat)
    requires IsListed(order, s.pending) && n <= |order|
  {
    forall i | 0 <= i < |order| && order[i] in r.pending ::
      r.pending[order[i]] == if i < n then Remembering(s.pending[order[i]], sit) else s.pending[order[i]]
  }

  /** The old tokens left are those nothing took, and new ones are fresh. */
  ghost predicate TokensAre(s: State, r: State, order: seq<Id>, sit: Situation, n: nat)
    requires IsListed(order, s.pending) && n <= |order|
  {
    && s.nextId <= r.nextId
    && (forall t | t in s.tokens && !TakenBy(s.pending, order, sit, n, t) :: t in r.tokens)
    && (forall t | t in s.tokens && t < s.nextId && TakenBy(s.pending, order, sit, n, t) :: t !in r.tokens)
    && (forall t | t in r.tokens :: t in s.tokens || s.nextId <= t < r.nextId)
  }

  ghost predicate IsAfter(s: State, r: State, order: seq<Id>, sit: Situation, n: nat)
    requires IsListed(order, s.pending) && n <= |order|
  {
    CatchesAre(s, r, order, sit, n) && MemoryIs(s, r, order, sit, n) && TokensAre(s, r, order, sit, n)
  }

  /** Where a rising intermediate catch takes the token, nothing else of that token rises. */
  lemma TakerIsRemover(s: State, order: seq<Id>, sit: Situation, n: nat, id: Id)
    requires NoClash(s, sit) && IsOrder(order, s.pending) && IsListed(order, s.pending) && n < |order| && order[n] == id
    requires Rises(s.pending[id], sit) && !KindOf(s.pending[id], sit).Misplaced?
    ensures TakenBy(s.pending, order, sit, n, s.pending[id].tokenId) ==> RemovedBy(s.pending, order, sit, n, id)
  {
    if TakenBy(s.pending, order, sit, n, s.pending[id].tokenId) {
      var i := Taker(s.pending, order, sit, n, s.pending[id].tokenId);
      assert !Clash(s, sit, order[i], id);
      RemoverRemoves(s.pending, order, sit, i, n, id);
    }
  }

  /** What is about to be visited has its token, unless it was removed. */
  lemma NextCanFire(s: State, r: State, order: seq<Id>, sit: Situation, n: nat)
    requires Passable(s, order, sit) && n < |order| && IsAfter(s, r, order, sit, n) && order[n] in r.pending
    ensures r.pending[order[n]] == s.pending[order[n]] && CanFire(r, order[n], sit)
  {
    var c := s.pending[order[n]];
    if Rises(c, sit) && !KindOf(c, sit).Misplaced? {
      TakerIsRemover(s, order, sit, n, order[n]);
    }
  }

  /** A catch that was removed before its turn has nothing left to do: whoever removed it did that already. */
  lemma RemovedDoesNothing(s: State, order: seq<Id>, sit: Situation, n: nat, id: Id)
    requires IsOrder(order, s.pending) && IsListed(order, s.pending) && n < |order| && id in s.pending
    requires RemovedBy(s.pending, order, sit, n, order[n])
    ensures Removes(s.pending, sit, order[n], id) ==> RemovedBy(s.pending, order, sit, n, id)
  {
    var i := Remover(s.pending, order, sit, n, order[n]);
    if Removes(s.pending, sit, order[n], id) {
      RemoverRemoves(s.pending, order, sit, i, n, id);
    }
  }

  lemma RemovedTakesNothing(s: State, order: seq<Id>, sit: Situation, n: nat, t: Id)
    requires IsOrder(order, s.pending) && IsListed(order, s.pending) && n < |order|
    requires RemovedBy(s.pending, order, sit, n, order[n])
    ensures Takes(s.pending, sit, order[n], t) ==> TakenBy(s.pending, order, sit, n, t)
  {
    var i := Remover(s.pending, order, sit, n, order[n]);
    if Takes(s.pending, sit, order[n], t) {
      TakerTakes(s.pending, order, sit, i, n, t);
    }
  }

  lemma SkippedVisit(s: State, r: State, order: seq<Id>, sit: Situation, n: nat)
    requires Passable(s, order, sit) && n < |order| && IsAfter(s, r, order, sit, n) && order[n] !in r.pending
    ensures IsAfter(s, r, order, sit, n + 1)
  {
    forall id | id in s.pending ensures id in r.pending <==> !RemovedBy(s.pending, order, sit, n + 1, id) {
      RemovedDoesNothing(s, order, sit, n, id);
    }
    forall t ensures TakenBy(s.pending, order, sit, n + 1, t) <==> TakenBy(s.pending, order, sit, n, t) {
      RemovedTakesNothing(s, order, sit, n, t);
    }
  }

  /** Removal looks at nothing a pass changes in the catches it has yet to visit. */
  lemma SameRemoval(s: State, r: State, order: seq<Id>, sit: Situation, n: nat, id: Id)
    requires IsOrder(order, s.pending) && IsListed(order, s.pending) && n < |order|
    requires r.pending.Keys <= s.pending.Keys && MemoryIs(s, r, order, sit, n) && order[n] in r.pending && id in r.pending
    ensures Removes(r.pending, sit, order[n], id) <==> Removes(s.pending, sit, order[n], id)
  {
    assert id in order;
    var k :| 0 <= k < |order| && order[k] == id;
  }

  lemma VisitedCatches(s: State, r: State, order: seq<Id>, sit: Situation, n: nat)
    requires Passable(s, order, sit) && n < |order| && IsAfter(s, r, order, sit, n) && order[n] in r.pending
    ensures CatchesAre(s, Visit(r, order[n], s.pending[order[n]], sit).state, order, sit, n + 1)
  {
    var next := Visit(r, order[n], s.pending[order[n]], sit).state;
    NextCanFire(s, r, order, sit, n);
    VisitAddsNone(r, order[n], sit);
    forall id | id in s.pending ensures id in next.pending <==> !RemovedBy(s.pending, order, sit, n + 1, id) {
      if id in r.pending {
        VisitRemoves(r, order[n], sit, id);
        SameRemoval(s, r, order, sit, n, id);
      }
    }
  }

  lemma VisitedMemory(s: State, r: State, order: seq<Id>, sit: Situation, n: nat)
    requires Passable(s, order, sit) && n < |order| && IsAfter(s, r, order, sit, n) && order[n] in r.pending
    ensures MemoryIs(s, Visit(r, order[n], s.pending[order[n]], sit).state, order, sit, n + 1)
  {
    var next := Visit(r, order[n], s.pending[order[n]], sit).state;
    NextCanFire(s, r, order, sit, n);
    VisitAddsNone(r, order[n], sit);
    forall i | 0 <= i < |order| && order[i] in next.pending
      ensures next.pending[order[i]] == if i < n + 1 then Remembering(s.pending[order[i]], sit) else s.pending[order[i]]
    {
      VisitRemoves(r, order[n], sit, order[i]);
    }
  }

  lemma VisitedTokens(s: State, r: State, order: seq<Id>, sit: Situation, n: nat)
    requires Passable(s, order, sit) && n < |order| && IsAfter(s, r, order, sit, n) && order[n] in r.pending
    ensures TokensAre(s, Visit(r, order[n], s.pending[order[n]], sit).state, order, sit, n + 1)
  {
    NextCanFire(s, r, order, sit, n);
    VisitFires(r, order[n], sit);
  }

  lemma NextVisit(s: State, r: State, order: seq<Id>, sit: Situation, n: nat)
    requires Passable(s, order, sit) && n < |order| && IsAfter(s, r, order, sit, n) && order[n] in r.pending
    ensures var next := Visit(r, order[n], s.pending[order[n]], sit);
            next.ok && IsAfter(s, next.state, order, sit, n + 1)
  {
    NextCanFire(s, r, order, sit, n);
    VisitRemoves(r, order[n], sit, order[n]);
    VisitedCatches(s, r, order, sit, n);
    VisitedMemory(s, r, order, sit, n);
    VisitedTokens(s, r, order, sit, n);
  }

  lemma PassStep(s: State, r: State, order: seq<Id>, sit: Situation, n: nat)
    requires Passable(s, order, sit) && n < |order| && IsAfter(s, r, order, sit, n)
    ensures var next := Visit(r, order[n], s.pending[order[n]], sit);
            next.ok && IsAfter(s, next.state, order, sit, n + 1)
  {
    if order[n] in r.pending {
      NextVisit(s, r, order, sit, n);
    } else {
      SkippedVisit(s, r, order, sit, n);
    }
  }

  /** The rest of a pass that began in `s`, from `r` after `n` visits. */
  ghost function Rest(s: State, r: State, order: seq<Id>, sit: Situation, n: nat): Step
    requires IsListed(order, s.pending) && n <= |order|
    decreases |order| - n
  {
    if n == |order| then Step(true, r)
    else
      var next := Visit(r, order[n], s.pending[order[n]], sit);
      if !next.ok then next else Rest(s, next.state, order, sit, n + 1)
  }

  lemma {:induction false} PassIsRest(s: State, order: seq<Id>, sit: Situation, n: nat)
    requires IsListed(order, s.pending) && n <= |order| && Pass(s, order, sit, n).ok
    ensures Pass(s, order, sit, |order|) == Rest(s, Pass(s, order, sit, n).state, order, sit, n)
    decreases |order| - n
  {
    if n < |order| {
      if Pass(s, order, sit, n + 1).ok {
        PassIsRest(s, order, sit, n + 1);
      } else {
        PassStops(s, order, sit, n + 1);
      }
    }
  }

  lemma {:induction false} RestIs(s: State, r: State, order: seq<Id>, sit: Situation, n: nat)
    requires Passable(s, order, sit) && n <= |order| && IsAfter(s, r, order, sit, n)
    ensures Rest(s, r, order, sit, n).ok && IsAfter(s, Rest(s, r, order, sit, n).state, order, sit, |order|)
    decreases |order| - n
  {
    if n < |order| {
      PassStep(s, r, order, sit, n);
      RestIs(s, Visit(r, order[n], s.pending[order[n]], sit).state, order, sit, n + 1);
    }
  }

  lemma BeginsAfterNone(s: State, order: seq<Id>, sit: Situation)
    requires Passable(s, order, sit)
    ensures IsAfter(s, s, order, sit, 0) && Pass(s, order, sit, |order|) == Rest(s, s, order, sit, 0)
  {
    PassIsRest(s, order, sit, 0);
  }

  /** If every catch has its token and nothing clashes, no pass fails. */
  lemma PassIs(s: State, order: seq<Id>, sit: Situation)
    requires Passable(s, order, sit)
    ensures Pass(s, order, sit, |order|).ok && IsAfter(s, Passed(s, order, sit), order, sit, |order|)
  {
    BeginsAfterNone(s, order, sit);
    RestIs(s, s, order, sit, 0);
  }

  lemma StorageFollowsVisit(s: State, r: State, order: seq<Id>, sit: Situation, n: nat)
    requires Passable(s, order, sit) && n < |order| && IsAfter(s, r, order, sit, n) && r.stored == r.pending
    ensures var next := Visit(r, order[n], s.pending[order[n]], sit).state; next.stored == next.pending
  {
    if order[n] in r.pending {
      NextCanFire(s, r, order, sit, n);
      VisitAddsNone(r, order[n], sit);
    }
  }

  lemma {:induction false} RestStores(s: State, r: State, order: seq<Id>, sit: Situation, n: nat)
    requires Passable(s, order, sit) && n <= |order| && IsAfter(s, r, order, sit, n) && r.stored == r.pending
    ensures Rest(s, r, order, sit, n).state.stored == Rest(s, r, order, sit, n).state.pending
    decreases |order| - n
  {
    if n < |order| {
      PassStep(s, r, order, sit, n);
      StorageFollowsVisit(s, r, order, sit, n);
      RestStores(s, Visit(r, order[n], s.pending[order[n]], sit).state, order, sit, n + 1);
    }
  }

  // ----- a whole pass

  /** Some catch removes this one in a pass. */
  ghost predicate IsRemoved(s: State, sit: Situation, id: Id)
    requires id in s.pending
  {
    exists x :: x in s.pending && Removes(s.pending, sit, x, id)
  }

  /** Some catch takes the token out in a pass. */
  ghost predicate IsTaken(s: State, sit: Situation, t: Id) {
    exists x :: x in s.pending && Takes(s.pending, sit, x, t)
  }

  lemma AllRemoversVisit(s: State, order: seq<Id>, sit: Situation, id: Id)
    requires IsOrder(order, s.pending) && IsListed(order, s.pending) && id in s.pending
    ensures RemovedBy(s.pending, order, sit, |order|, id) <==> IsRemoved(s, sit, id)
  {
    if IsRemoved(s, sit, id) {
      var x :| x in s.pending && Removes(s.pending, sit, x, id);
      assert x in order;
      var i :| 0 <= i < |order| && order[i] == x;
      RemoverRemoves(s.pending, order, sit, i, |order|, id);
    } else if RemovedBy(s.pending, order, sit, |order|, id) {
      var i := Remover(s.pending, order, sit, |order|, id);
      assert false;
    }
  }

  lemma AllTakersVisit(s: State, order: seq<Id>, sit: Situation, t: Id)
    requires IsOrder(order, s.pending) && IsListed(order, s.pending)
    ensures TakenBy(s.pending, order, sit, |order|, t) <==> IsTaken(s, sit, t)
  {
    if IsTaken(s, sit, t) {
      var x :| x in s.pending && Takes(s.pending, sit, x, t);
      assert x in order;
      var i :| 0 <= i < |order| && order[i] == x;
      TakerTakes(s.pending, order, sit, i, |order|, t);
    } else if TakenBy(s.pending, order, sit, |order|, t) {
      var i := Taker(s.pending, order, sit, |order|, t);
      assert false;
    }
  }

  /** In every order, a catch is left exactly if nothing removes it, and then remembers its condition; its
      token is left exactly if nothing takes it. */
  lemma CatchAfterPass(s: State, order: seq<Id>, sit: Situation, id: Id)
    requires Passable(s, order, sit) && id in s.pending
    ensures var r := Passed(s, order, sit);
            && (id in r.pending <==> !IsRemoved(s, sit, id))
            && (id in r.pending ==> r.pending[id] == Remembering(s.pending[id], sit))
            && (IdsAreFresh(s) ==> (s.pending[id].tokenId in r.tokens <==> !IsTaken(s, sit, s.pending[id].tokenId)))
  {
    PassIs(s, order, sit);
    AllRemoversVisit(s, order, sit, id);
    AllTakersVisit(s, order, sit, s.pending[id].tokenId);
    assert id in order;
    var i :| 0 <= i < |order| && order[i] == id;
  }

  /** An interrupting catch of the token rises. */
  ghost predicate IsInterrupted(s: State, sit: Situation, t: Id) {
    exists x :: x in s.pending && KindOf(s.pending[x], sit).Interrupting? && s.pending[x].tokenId == t && Rises(s.pending[x], sit)
  }

  /** A pass removes a non-interrupting catch if and only if an interrupting catch of its token rises in it. */
  lemma RemovedByInterruption(s: State, order: seq<Id>, sit: Situation, id: Id)
    requires Passable(s, order, sit) && id in s.pending && KindOf(s.pending[id], sit).NonInterrupting?
    ensures id !in Passed(s, order, sit).pending <==> IsInterrupted(s, sit, s.pending[id].tokenId)
  {
    CatchAfterPass(s, order, sit, id);
    if IsInterrupted(s, sit, s.pending[id].tokenId) {
      var x :| x in s.pending && KindOf(s.pending[x], sit).Interrupting? && s.pending[x].tokenId == s.pending[id].tokenId
               && Rises(s.pending[x], sit);
      assert Removes(s.pending, sit, x, id);
    }
  }

  // ----- the invariant, and exactly when a pass breaks it

  /** A rising intermediate catch leaves another catch of its token behind. */
  ghost predicate Strands(s: State, sit: Situation, a: Id, b: Id) {
    && a in s.pending && b in s.pending && a != b && s.pending[a].tokenId == s.pending[b].tokenId
    && KindOf(s.pending[a], sit).Intermediate? && Rises(s.pending[a], sit)
    && !(KindOf(s.pending[b], sit).Misplaced? && Rises(s.pending[b], sit))
  }

  lemma StrandedIsLeft(s: State, order: seq<Id>, sit: Situation, a: Id, b: Id)
    requires Passable(s, order, sit) && IdsAreFresh(s) && Strands(s, sit, a, b)
    ensures b in Passed(s, order, sit).pending
    ensures s.pending[b].tokenId !in Passed(s, order, sit).tokens
  {
    CatchAfterPass(s, order, sit, b);
    assert Takes(s.pending, sit, a, s.pending[b].tokenId);
    if IsRemoved(s, sit, b) {
      var x :| x in s.pending && Removes(s.pending, sit, x, b);
      assert Clash(s, sit, a, x);
    }
  }

  lemma LeftBehindIsStranded(s: State, order: seq<Id>, sit: Situation, b: Id) returns (a: Id)
    requires Passable(s, order, sit) && IdsAreFresh(s) && b in s.pending && b in Passed(s, order, sit).pending
    requires s.pending[b].tokenId !in Passed(s, order, sit).tokens
    ensures Strands(s, sit, a, b)
  {
    CatchAfterPass(s, order, sit, b);
    a :| a in s.pending && Takes(s.pending, sit, a, s.pending[b].tokenId);
    assert !Removes(s.pending, sit, a, b) && !Removes(s.pending, sit, b, b);
  }

  /** A pass keeps a token for every catch if and only if no rising intermediate catch shares its token with
      another pending catch, apart from a misplaced one that rises. */
  lemma PassKeepsTokensExactly(s: State, order: seq<Id>, sit: Situation)
    requires Passable(s, order, sit) && IdsAreFresh(s)
    ensures TokensExist(Passed(s, order, sit)) <==> forall a, b :: !Strands(s, sit, a, b)
  {
    var r := Passed(s, order, sit);
    PassIs(s, order, sit);
    if a, b :| Strands(s, sit, a, b) {
      StrandedIsLeft(s, order, sit, a, b);
      CatchAfterPass(s, order, sit, b);
    } else {
      forall b | b in r.pending ensures r.pending[b].tokenId in r.tokens {
        CatchAfterPass(s, order, sit, b);
        if s.pending[b].tokenId !in r.tokens {
          var a := LeftBehindIsStranded(s, order, sit, b);
        }
      }
    }
  }

  /** An intermediate catch is the only catch of its token. */
  ghost predicate IntermediatesAreAlone(s: State, sit: Situation) {
    forall a, b | a in s.pending && b in s.pending && a != b && KindOf(s.pending[a], sit).Intermediate? ::
      s.pending[a].tokenId != s.pending[b].tokenId
  }

  ghost predicate OneShotsAreFresh(s: State, sit: Situation) {
    forall id | id in s.pending :: s.pending[id].lastResult ==> KindOf(s.pending[id], sit).NonInterrupting?
  }

  /** What holds over whole runs, whatever the variables become. */
  ghost predicate Sound(s: State, sit: Situation) {
    && s.stored == s.pending
    && IdsAreFresh(s)
    && TokensExist(s) && IntermediatesAreAlone(s, sit) && OneShotsAreFresh(s, sit)
  }

  lemma SoundIsPassable(s: State, order: seq<Id>, sit: Situation)
    requires Sound(s, sit) && Routable(s.pending, sit) && IsOrder(order, s.pending)
    ensures Passable(s, order, sit) && forall a, b :: !Strands(s, sit, a, b)
  {
    OrderIsPending(s, order);
  }

  /** What is left of a sound state is sound if every catch left has its token. */
  lemma RemainderIsSound(s: State, r: State, sit: Situation)
    requires Sound(s, sit) && r.stored == r.pending && TokensExist(r) && IdsAreFresh(r)
    requires forall id | id in r.pending ::
               id in s.pending && r.pending[id] == Remembering(s.pending[id], sit) && !Removes(s.pending, sit, id, id)
    ensures Sound(r, sit)
  {
  }

  lemma LeftCatch(s: State, order: seq<Id>, sit: Situation, id: Id)
    requires Passable(s, order, sit) && id in Passed(s, order, sit).pending
    ensures id in s.pending && Passed(s, order, sit).pending[id] == Remembering(s.pending[id], sit)
    ensures !Removes(s.pending, sit, id, id)
  {
    PassIs(s, order, sit);
    CatchAfterPass(s, order, sit, id);
  }

  lemma LeftTokens(s: State, order: seq<Id>, sit: Situation)
    requires Passable(s, order, sit)
    ensures IdsAreFresh(s) ==> IdsAreFresh(Passed(s, order, sit))
    ensures s.stored == s.pending ==> Passed(s, order, sit).stored == Passed(s, order, sit).pending
  {
    PassIs(s, order, sit);
    BeginsAfterNone(s, order, sit);
    if s.stored == s.pending { RestStores(s, s, order, sit, 0); }
  }

  /** What is left of the tokens there were: all that nothing takes. New ones are unused before. */
  ghost predicate TokensLeft(s: State, r: State, sit: Situation) {
    && (forall t | t in s.tokens && !IsTaken(s, sit, t) :: t in r.tokens)
    && (IdsAreFresh(s) ==> forall t | t in s.tokens && IsTaken(s, sit, t) :: t !in r.tokens)
    && (forall t | t in r.tokens :: t in s.tokens || s.nextId <= t < r.nextId)
  }

  /** What is left of the catches: all that nothing removes, each with the result just seen. */
  ghost function CatchesLeft(s: State, sit: Situation): Catches {
    map id | id in s.pending && !IsRemoved(s, sit, id) :: Remembering(s.pending[id], sit)
  }

  lemma PassLeavesTokens(s: State, order: seq<Id>, sit: Situation)
    requires Passable(s, order, sit)
    ensures TokensLeft(s, Passed(s, order, sit), sit)
  {
    PassIs(s, order, sit);
    forall t ensures TakenBy(s.pending, order, sit, |order|, t) <==> IsTaken(s, sit, t) {
      AllTakersVisit(s, order, sit, t);
    }
  }

  lemma PassLeavesCatches(s: State, order: seq<Id>, sit: Situation)
    requires Passable(s, order, sit)
    ensures Passed(s, order, sit).pending == CatchesLeft(s, sit)
  {
    var left := Passed(s, order, sit).pending;
    forall id | id in left ensures id in s.pending { LeftCatch(s, order, sit, id); }
    forall id | id in s.pending
      ensures id in left <==> !IsRemoved(s, sit, id)
      ensures id in left ==> left[id] == Remembering(s.pending[id], sit)
    {
      CatchAfterPass(s, order, sit, id);
    }
    assert left.Keys == CatchesLeft(s, sit).Keys;
  }

  lemma PassSucceeds(s: State, order: seq<Id>, sit: Situation)
    requires Passable(s, order, sit)
    ensures Pass(s, order, sit, |order|).ok
  {
    PassIs(s, order, sit);
  }

  /** In every order a pass leaves the same catches, in memory and in storage, and the same of the old tokens: which
      ones is determined by who rises. */
  lemma PassLeaves(s: State, order: seq<Id>, sit: Situation)
    requires Passable(s, order, sit)
    ensures Pass(s, order, sit, |order|).ok
    ensures Passed(s, order, sit).pending == CatchesLeft(s, sit)
    ensures s.stored == s.pending ==> Passed(s, order, sit).stored == CatchesLeft(s, sit)
    ensures TokensLeft(s, Passed(s, order, sit), sit)
  {
    PassSucceeds(s, order, sit);
    PassLeavesCatches(s, order, sit);
    LeftTokens(s, order, sit);
    PassLeavesTokens(s, order, sit);
  }

  /** A pass never fails in a sound state, and leaves a sound state. */
  lemma PassIsSound(s: State, order: seq<Id>, sit: Situation)
    requires Sound(s, sit) && Routable(s.pending, sit) && IsOrder(order, s.pending)
    ensures Passable(s, order, sit)
    ensures Pass(s, order, sit, |order|).ok && Sound(Passed(s, order, sit), sit)
  {
    var r := Passed(s, order, sit);
    SoundIsPassable(s, order, sit);
    PassIs(s, order, sit);
    LeftTokens(s, order, sit);
    PassKeepsTokensExactly(s, order, sit);
    forall id | id in r.pending
      ensures id in s.pending && r.pending[id] == Remembering(s.pending[id], sit) && !Removes(s.pending, sit, id, id)
    {
      LeftCatch(s, order, sit, id);
    }
    RemainderIsSound(s, r, sit);
  }

  // ----- how often a catch fires in a pass

  function FireCount(log: seq<Fired>, id: Id): nat {
    if log == [] then 0
    else FireCount(log[..|log| - 1], id) + if log[|log| - 1].catchId == id then 1 else 0
  }

  lemma VisitCounts(s: State, id: Id, sit: Situation, other: Id)
    requires CanFire(s, id, sit)
    ensures var c, r := s.pending[id], Visit(s, id, s.pending[id], sit).state;
            FireCount(r.log, other) == FireCount(s.log, other) +
              (if other == id && Rises(c, sit) && !KindOf(c, sit).Misplaced? then 1 else 0)
  {
    VisitFires(s, id, sit);
    var c, r := s.pending[id], Visit(s, id, s.pending[id], sit).state;
    if Rises(c, sit) && !KindOf(c, sit).Misplaced? {
      assert r.log[..|r.log| - 1] == s.log;
    }
  }

  /** The catch at `k` rises, and nothing visited before has removed it. */
  ghost predicate FiresAt(s: State, order: seq<Id>, sit: Situation, k: nat)
    requires IsListed(order, s.pending) && k < |order|
  {
    var c := s.pending[order[k]];
    Rises(c, sit) && !KindOf(c, sit).Misplaced? && !RemovedBy(s.pending, order, sit, k, order[k])
  }

  lemma StepCounts(s: State, r: State, order: seq<Id>, sit: Situation, n: nat, id: Id)
    requires Passable(s, order, sit) && n < |order| && IsAfter(s, r, order, sit, n)
    ensures FireCount(Visit(r, order[n], s.pending[order[n]], sit).state.log, id) ==
            FireCount(r.log, id) + (if order[n] == id && FiresAt(s, order, sit, n) then 1 else 0)
  {
    if order[n] in r.pending {
      NextCanFire(s, r, order, sit, n);
      VisitCounts(r, order[n], sit, id);
    }
  }

  /** Whether the catch fires in the rest of a pass, from the `n`-th visit on. */
  ghost predicate FiresIn(s: State, order: seq<Id>, sit: Situation, n: nat, id: Id)
    requires IsListed(order, s.pending)
  {
    exists k :: n <= k < |order| && order[k] == id && FiresAt(s, order, sit, k)
  }

  lemma FiresInStep(s: State, order: seq<Id>, sit: Situation, n: nat, id: Id)
    requires IsOrder(order, s.pending) && IsListed(order, s.pending) && n < |order|
    ensures order[n] == id ==>
              !FiresIn(s, order, sit, n + 1, id) && (FiresIn(s, order, sit, n, id) <==> FiresAt(s, order, sit, n))
    ensures order[n] != id ==> (FiresIn(s, order, sit, n, id) <==> FiresIn(s, order, sit, n + 1, id))
  {
  }

  /** A catch fires once, at its turn, or not at all. */
  lemma {:induction false} RestCounts(s: State, r: State, order: seq<Id>, sit: Situation, n: nat, id: Id)
    requires Passable(s, order, sit) && n <= |order| && IsAfter(s, r, order, sit, n)
    ensures FireCount(Rest(s, r, order, sit, n).state.log, id) ==
            FireCount(r.log, id) + (if FiresIn(s, order, sit, n, id) then 1 else 0)
    decreases |order| - n
  {
    if n < |order| {
      PassStep(s, r, order, sit, n);
      StepCounts(s, r, order, sit, n, id);
      FiresInStep(s, order, sit, n, id);
      RestCounts(s, Visit(r, order[n], s.pending[order[n]], sit).state, order, sit, n + 1, id);
    }
  }

  lemma PassCounts(s: State, order: seq<Id>, sit: Situation, id: Id)
    requires Passable(s, order, sit)
    ensures FireCount(Passed(s, order, sit).log, id) ==
            FireCount(s.log, id) + (if FiresIn(s, order, sit, 0, id) then 1 else 0)
  {
    BeginsAfterNone(s, order, sit);
    RestCounts(s, s, order, sit, 0, id);
  }

  /** Before its turn only a rising interruption of its token can remove a catch. */
  lemma RemovedBeforeTurn(s: State, order: seq<Id>, sit: Situation, k: nat)
    requires IsOrder(order, s.pending) && IsListed(order, s.pending) && k < |order|
    ensures RemovedBy(s.pending, order, sit, k, order[k]) <==>
            exists i :: 0 <= i < k && KindOf(s.pending[order[i]], sit).Interrupting? && Rises(s.pending[order[i]], sit)
                        && s.pending[order[i]].tokenId == s.pending[order[k]].tokenId
  {
    if RemovedBy(s.pending, order, sit, k, order[k]) {
      var i := Remover(s.pending, order, sit, k, order[k]);
    }
    if i :| 0 <= i < k && KindOf(s.pending[order[i]], sit).Interrupting? && Rises(s.pending[order[i]], sit)
            && s.pending[order[i]].tokenId == s.pending[order[k]].tokenId {
      RemoverRemoves(s.pending, order, sit, i, k, order[k]);
    }
  }

  /** In every order: a catch fires once if it rises and no interrupting catch of its token that rises is
      visited before it, and otherwise not at all. */
  lemma PassHasEffect(s: State, order: seq<Id>, sit: Situation, k: nat)
    requires Passable(s, order, sit) && k < |order|
    ensures FireCount(Passed(s, order, sit).log, order[k]) ==
            FireCount(s.log, order[k]) + (if FiresAt(s, order, sit, k) then 1 else 0)
    ensures FiresAt(s, order, sit, k) <==>
            && Rises(s.pending[order[k]], sit) && !KindOf(s.pending[order[k]], sit).Misplaced?
            && !exists i :: 0 <= i < k && KindOf(s.pending[order[i]], sit).Interrupting? && Rises(s.pending[order[i]], sit)
                            && s.pending[order[i]].tokenId == s.pending[order[k]].tokenId
  {
    PassCounts(s, order, sit, order[k]);
    RemovedBeforeTurn(s, order, sit, k);
  }

  lemma NoFireWithoutCatch(s: State, order: seq<Id>, sit: Situation, id: Id)
    requires Passable(s, order, sit) && id !in s.pending
    ensures FireCount(Passed(s, order, sit).log, id) == FireCount(s.log, id)
  {
    PassCounts(s, order, sit, id);
  }

  // ----- one-shot catches

  /** Another one-shot catch of the same token rises. */
  ghost predicate HasRival(s: State, sit: Situation, id: Id)
    requires id in s.pending
  {
    exists x :: x in s.pending && x != id && Takes(s.pending, sit, x, s.pending[id].tokenId)
  }

  lemma WithoutRivalFires(s: State, order: seq<Id>, sit: Situation, k: nat)
    requires Passable(s, order, sit) && k < |order|
    requires IsOneShot(s.pending[order[k]], sit) && Rises(s.pending[order[k]], sit) && !HasRival(s, sit, order[k])
    ensures FiresAt(s, order, sit, k)
  {
    if RemovedBy(s.pending, order, sit, k, order[k]) {
      var i := Remover(s.pending, order, sit, k, order[k]);
      assert false;
    }
  }

  /** The catches of a set, one after the other. */
  lemma {:induction false} Enumerate(ids: set<Id>) returns (order: seq<Id>)
    ensures forall i, j | 0 <= i < j < |order| :: order[i] != order[j]
    ensures forall id :: id in order <==> id in ids
  {
    if ids == {} {
      order := [];
    } else {
      var id :| id in ids;
      var rest := Enumerate(ids - {id});
      order := [id] + rest;
    }
  }

  /** An order that begins with two given catches. */
  lemma OrderStartingWith(s: State, a: Id, b: Id) returns (order: seq<Id>)
    requires a in s.pending && b in s.pending && a != b
    ensures IsOrder(order, s.pending) && IsListed(order, s.pending) && |order| >= 2 && order[0] == a && order[1] == b
  {
    var rest := Enumerate(s.pending.Keys - {a, b});
    order := [a, b] + rest;
    forall i, j | 0 <= i < j < |order| ensures order[i] != order[j] {
      if i < 2 <= j { assert order[j] in rest; }
    }
    OrderIsPending(s, order);
  }

  lemma RivalCanWin(s: State, sit: Situation, id: Id) returns (order: seq<Id>)
    requires Ready(s, sit) && id in s.pending && IsOneShot(s.pending[id], sit) && Rises(s.pending[id], sit) && HasRival(s, sit, id)
    ensures Passable(s, order, sit) && |order| >= 2 && order[1] == id && !FiresAt(s, order, sit, 1)
  {
    var x :| x in s.pending && x != id && Takes(s.pending, sit, x, s.pending[id].tokenId);
    order := OrderStartingWith(s, x, id);
    assert !Clash(s, sit, x, id) && !Clash(s, sit, id, x);
    RemoverRemoves(s.pending, order, sit, 0, 1, id);
  }

  /** A one-shot catch that rises fires exactly once in every order of the pass, if and only if no other
      one-shot catch of its token rises in it. */
  lemma OneShotFiresExactly(s: State, sit: Situation, id: Id)
    requires Ready(s, sit) && id in s.pending && IsOneShot(s.pending[id], sit) && Rises(s.pending[id], sit)
    ensures (forall order | Passable(s, order, sit) ::
               FireCount(Passed(s, order, sit).log, id) == FireCount(s.log, id) + 1) <==> !HasRival(s, sit, id)
  {
    if HasRival(s, sit, id) {
      var order := RivalCanWin(s, sit, id);
      PassHasEffect(s, order, sit, 1);
    } else {
      forall order | Passable(s, order, sit)
        ensures FireCount(Passed(s, order, sit).log, id) == FireCount(s.log, id) + 1
      {
        assert id in order;
        var k :| 0 <= k < |order| && order[k] == id;
        WithoutRivalFires(s, order, sit, k);
        PassHasEffect(s, order, sit, k);
      }
    }
  }

  // ----- when a pass fails

  lemma ClashFails(s: State, order: seq<Id>, sit: Situation)
    requires IsOrder(order, s.pending) && |order| >= 2 && Clash(s, sit, order[0], order[1])
    ensures IsListed(order, s.pending) && !Pass(s, order, sit, |order|).ok
  {
    OrderIsPending(s, order);
    var a, b := order[0], order[1];
    var first := Visit(s, a, s.pending[a], sit);
    assert Pass(s, order, sit, 0) == Step(true, s);
    assert Pass(s, order, sit, 1) == first;
    if first.ok {
      assert s.pending[b].tokenId !in first.state.tokens;
      PassStops(s, order, sit, 2);
    } else {
      PassStops(s, order, sit, 1);
    }
  }

  /** If every catch has its token, some order of a pass fails exactly when an intermediate catch and another
      catch of the same token become true in it. */
  lemma PassFailsExactly(s: State, sit: Situation)
    requires TokensExist(s) && Routable(s.pending, sit)
    ensures (exists a, b :: Clash(s, sit, a, b)) <==>
            (exists order :: IsOrder(order, s.pending) && IsListed(order, s.pending) && !Pass(s, order, sit, |order|).ok)
  {
    if a, b :| Clash(s, sit, a, b) {
      var order := OrderStartingWith(s, a, b);
      ClashFails(s, order, sit);
    } else {
      forall order | IsOrder(order, s.pending) && IsListed(order, s.pending) ensures Pass(s, order, sit, |order|).ok {
        PassIs(s, order, sit);
      }
    }
  }
}
