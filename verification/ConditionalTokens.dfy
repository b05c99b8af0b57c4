/** Passes over conditional catches conserve tokens. */
module ConditionalTokens {
  import opened Common
  import opened Tokens
  import opened ConditionalEvents
  import opened ConditionalRuns

  /** The catch behind `e` was pending and became true, and the token continues from it. */
  ghost predicate IsFair(s0: State, sit: Situation, e: Fired) {
    && e.catchId in s0.pending
    && var c := s0.pending[e.catchId];
       && sit.truth(c.condition) && !c.lastResult
       && c.tokenId in s0.tokens && c.nodeId in sit.next && GoesOn(s0.tokens[c.tokenId], e.token, sit.next[c.nodeId], sit)
       && (if e.Moved? then IsOneShot(c, sit) && e.tokenId == c.tokenId
           else KindOf(c, sit).NonInterrupting? && e.tokenId >= s0.nextId)
  }

  ghost predicate MovedSince(log: seq<Fired>, k: nat, t: Id) {
    exists i :: k <= i < |log| && log[i].Moved? && log[i].tokenId == t
  }

  ghost predicate SpawnedSince(log: seq<Fired>, k: nat, t: Id, token: TokenState) {
    exists i :: k <= i < |log| && log[i].Spawned? && log[i].tokenId == t && log[i].token == token
  }

  ghost predicate LogIsFair(s0: State, s: State, sit: Situation) {
    && s0.log <= s.log && s0.nextId <= s.nextId
    && (forall i | |s0.log| <= i < |s.log| :: IsFair(s0, sit, s.log[i]) && s.log[i].tokenId < s.nextId)
    && (forall i, j | |s0.log| <= i < j < |s.log| :: s.log[i].tokenId != s.log[j].tokenId)
  }

  /** The instance has the tokens it had, without those moved out, and with one fresh token per spawn. */
  ghost predicate IsConserved(s0: State, s: State) {
    && (forall t | t in s0.tokens :: if MovedSince(s.log, |s0.log|, t) then t !in s.tokens
                                     else t in s.tokens && s.tokens[t] == s0.tokens[t])
    && (forall t | t in s.tokens && t !in s0.tokens :: SpawnedSince(s.log, |s0.log|, t, s.tokens[t]))
    && (forall i | |s0.log| <= i < |s.log| && s.log[i].Spawned? :: s.log[i].tokenId in s.tokens)
  }

  ghost predicate IsBalanced(s0: State, s: State, sit: Situation) { LogIsFair(s0, s, sit) && IsConserved(s0, s) }

  lemma MovesGrow(log: seq<Fired>, e: Fired, k: nat, t: Id)
    requires k <= |log|
    ensures MovedSince(log + [e], k, t) <==> MovedSince(log, k, t) || (e.Moved? && e.tokenId == t)
  {
    var more := log + [e];
    assert more[|log|] == e && forall i | 0 <= i < |log| :: more[i] == log[i];
  }

  lemma SpawnsGrow(log: seq<Fired>, e: Fired, k: nat, t: Id, token: TokenState)
    requires k <= |log|
    ensures SpawnedSince(log, k, t, token) ==> SpawnedSince(log + [e], k, t, token)
    ensures e.Spawned? && e.tokenId == t && e.token == token ==> SpawnedSince(log + [e], k, t, token)
  {
    var more := log + [e];
    assert more[|log|] == e && forall i | 0 <= i < |log| :: more[i] == log[i];
  }

  lemma LogStaysFair(s0: State, s: State, r: State, sit: Situation, e: Fired)
    requires LogIsFair(s0, s, sit) && IsFair(s0, sit, e) && r.log == s.log + [e] && s.nextId <= r.nextId
    requires e.tokenId < r.nextId && forall i | |s0.log| <= i < |s.log| :: s.log[i].tokenId != e.tokenId
    ensures LogIsFair(s0, r, sit)
  {
  }

  lemma MoveIsConserved(s0: State, s: State, r: State, e: Fired)
    requires IsConserved(s0, s) && |s0.log| <= |s.log| && e.Moved? && e.tokenId in s0.tokens
    requires r.log == s.log + [e] && r.tokens == s.tokens - {e.tokenId}
    requires forall i | |s0.log| <= i < |s.log| && s.log[i].Spawned? :: s.log[i].tokenId != e.tokenId
    ensures IsConserved(s0, r)
  {
    forall t ensures MovedSince(r.log, |s0.log|, t) <==> MovedSince(s.log, |s0.log|, t) || t == e.tokenId {
      MovesGrow(s.log, e, |s0.log|, t);
    }
    forall t | t in r.tokens && t !in s0.tokens ensures SpawnedSince(r.log, |s0.log|, t, r.tokens[t]) {
      SpawnsGrow(s.log, e, |s0.log|, t, r.tokens[t]);
    }
  }

  lemma SpawnIsConserved(s0: State, s: State, r: State, e: Fired)
    requires IsConserved(s0, s) && |s0.log| <= |s.log| && e.Spawned? && e.tokenId !in s0.tokens
    requires r.log == s.log + [e] && r.tokens == s.tokens[e.tokenId := e.token]
    ensures IsConserved(s0, r)
  {
    forall t ensures MovedSince(r.log, |s0.log|, t) <==> MovedSince(s.log, |s0.log|, t) {
      MovesGrow(s.log, e, |s0.log|, t);
    }
    forall t | t in r.tokens && t !in s0.tokens ensures SpawnedSince(r.log, |s0.log|, t, r.tokens[t]) {
      SpawnsGrow(s.log, e, |s0.log|, t, r.tokens[t]);
    }
  }

  lemma MoveIsBalanced(s0: State, s: State, r: State, sit: Situation, e: Fired)
    requires IsBalanced(s0, s, sit) && IsFair(s0, sit, e) && e.Moved? && e.tokenId in s.tokens
    requires IdsAreFresh(s0)
    requires r.log == s.log + [e] && r.tokens == s.tokens - {e.tokenId} && r.nextId == s.nextId
    ensures IsBalanced(s0, r, sit)
  {
    assert !MovedSince(s.log, |s0.log|, e.tokenId);
    assert forall i | |s0.log| <= i < |s.log| :: IsFair(s0, sit, s.log[i]) && s.log[i].tokenId != e.tokenId;
    LogStaysFair(s0, s, r, sit, e);
    MoveIsConserved(s0, s, r, e);
  }

  lemma SpawnIsBalanced(s0: State, s: State, r: State, sit: Situation, e: Fired)
    requires IsBalanced(s0, s, sit) && IsFair(s0, sit, e) && e.Spawned? && e.tokenId == s.nextId
    requires IdsAreFresh(s0)
    requires r.log == s.log + [e] && r.tokens == s.tokens[s.nextId := e.token] && r.nextId == s.nextId + 1
    ensures IsBalanced(s0, r, sit)
  {
    LogStaysFair(s0, s, r, sit, e);
    SpawnIsConserved(s0, s, r, e);
  }

  lemma VisitIsBalanced(s0: State, s: State, id: Id, sit: Situation)
    requires IdsAreFresh(s0) && TokensExist(s0) && Routable(s0.pending, sit)
    requires IsBalanced(s0, s, sit) && id in s0.pending && CanFire(s, id, sit) && s.pending[id] == s0.pending[id]
    ensures IsBalanced(s0, Visit(s, id, s.pending[id], sit).state, sit)
  {
    var c, r := s.pending[id], Visit(s, id, s.pending[id], sit).state;
    VisitFires(s, id, sit);
    if Rises(c, sit) && !KindOf(c, sit).Misplaced? {
      assert s.tokens[c.tokenId] == s0.tokens[c.tokenId];
      var e := r.log[|s.log|];
      if IsOneShot(c, sit) {
        MoveIsBalanced(s0, s, r, sit, e);
      } else {
        SpawnIsBalanced(s0, s, r, sit, e);
      }
    }
  }

  lemma StepIsBalanced(s: State, r: State, order: seq<Id>, sit: Situation, n: nat)
    requires Passable(s, order, sit) && IdsAreFresh(s) && n < |order| && IsAfter(s, r, order, sit, n) && IsBalanced(s, r, sit)
    ensures IsBalanced(s, Visit(r, order[n], s.pending[order[n]], sit).state, sit)
  {
    if order[n] in r.pending {
      NextCanFire(s, r, order, sit, n);
      VisitIsBalanced(s, r, order[n], sit);
    }
  }

  lemma {:induction false} RestIsBalanced(s: State, r: State, order: seq<Id>, sit: Situation, n: nat)
    requires Passable(s, order, sit) && IdsAreFresh(s) && n <= |order| && IsAfter(s, r, order, sit, n) && IsBalanced(s, r, sit)
    ensures IsBalanced(s, Rest(s, r, order, sit, n).state, sit)
    decreases |order| - n
  {
    if n < |order| {
      PassStep(s, r, order, sit, n);
      StepIsBalanced(s, r, order, sit, n);
      RestIsBalanced(s, Visit(r, order[n], s.pending[order[n]], sit).state, order, sit, n + 1);
    }
  }

  /** In a pass each one-shot token leaves once, each spawn adds one fresh token, and nothing else moves. */
  lemma PassIsBalanced(s: State, order: seq<Id>, sit: Situation)
    requires Passable(s, order, sit) && IdsAreFresh(s)
    ensures IsBalanced(s, Passed(s, order, sit), sit)
  {
    BeginsAfterNone(s, order, sit);
    RestIsBalanced(s, s, order, sit, 0);
  }

  /** Every token that fires in a pass goes on to where its catch leads, with the variables of the instance; a spawned
      one is a new token of the instance, and one that is taken out is none any more. */
  lemma FiredTokensGoOn(s: State, order: seq<Id>, sit: Situation, i: nat)
    requires Passable(s, order, sit) && IdsAreFresh(s) && |s.log| <= i < |Passed(s, order, sit).log|
    ensures var e, r := Passed(s, order, sit).log[i], Passed(s, order, sit);
            && e.catchId in s.pending && s.pending[e.catchId].nodeId in sit.next && s.pending[e.catchId].tokenId in s.tokens
            && GoesOn(s.tokens[s.pending[e.catchId].tokenId], e.token, sit.next[s.pending[e.catchId].nodeId], sit)
            && (e.Spawned? ==> e.tokenId !in s.tokens && e.tokenId in r.tokens && r.tokens[e.tokenId] == e.token)
            && (e.Moved? ==> e.tokenId == s.pending[e.catchId].tokenId && e.tokenId !in r.tokens)
  {
    PassIsBalanced(s, order, sit);
    var e, r := Passed(s, order, sit).log[i], Passed(s, order, sit);
    assert IsFair(s, sit, e);
    if e.Spawned? {
      assert SpawnedSince(r.log, |s.log|, e.tokenId, r.tokens[e.tokenId]);
    } else {
      assert MovedSince(r.log, |s.log|, e.tokenId);
    }
  }

  /** At most one catch takes a token out of the instance in a pass. */
  lemma OneInterruptionPerToken(s: State, order: seq<Id>, sit: Situation, i: nat, j: nat)
    requires Passable(s, order, sit) && IdsAreFresh(s)
    requires |s.log| <= i < |Passed(s, order, sit).log| && |s.log| <= j < |Passed(s, order, sit).log|
    ensures var log := Passed(s, order, sit).log;
            log[i].Moved? && log[j].Moved? && log[i].tokenId == log[j].tokenId ==> i == j
  {
    PassIsBalanced(s, order, sit);
  }

  /** In the log from `k` on, exactly one entry is about the token, and it is a rising one-shot catch of it. */
  ghost predicate TakenOnce(s: State, log: seq<Fired>, sit: Situation, k: nat, t: Id) {
    exists i :: k <= i < |log| && log[i].Moved? && log[i].tokenId == t
      && log[i].catchId in s.pending && Takes(s.pending, sit, log[i].catchId, t)
      && forall j | k <= j < |log| && j != i :: log[j].tokenId != t
  }

  lemma GoneIsTakenOnce(s: State, r: State, sit: Situation, t: Id)
    requires IsBalanced(s, r, sit) && t in s.tokens
    ensures t !in r.tokens <==> TakenOnce(s, r.log, sit, |s.log|, t)
  {
    if t !in r.tokens {
      assert MovedSince(r.log, |s.log|, t);
      var i :| |s.log| <= i < |r.log| && r.log[i].Moved? && r.log[i].tokenId == t;
      assert IsFair(s, sit, r.log[i]);
    }
  }

  /** If a one-shot catch of the token rises, exactly one of them takes it out, in every order. */
  lemma InterruptionIsExact(s: State, order: seq<Id>, sit: Situation, t: Id)
    requires Passable(s, order, sit) && IdsAreFresh(s) && t in s.tokens
    ensures IsTaken(s, sit, t) <==> TakenOnce(s, Passed(s, order, sit).log, sit, |s.log|, t)
  {
    PassIsBalanced(s, order, sit);
    GoneIsTakenOnce(s, Passed(s, order, sit), sit, t);
    if IsTaken(s, sit, t) {
      var x :| x in s.pending && Takes(s.pending, sit, x, t);
      CatchAfterPass(s, order, sit, x);
    }
  }
}
