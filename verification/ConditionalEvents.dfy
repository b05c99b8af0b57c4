/** Conditional catches of one instance: evaluated in passes, fired when their condition becomes true. */
module ConditionalEvents {
  import opened Common
  import opened Tokens
  import Json
  import ConditionText

  /** What the node of a catch is. */
  datatype Kind = Intermediate | Interrupting | NonInterrupting | Misplaced

  datatype Catch = Catch(nodeId: Id, condition: string, tokenId: Id, lastResult: bool)

  type Catches = map<Id, Catch>

  /** A token handed on: taken out of the instance, or created beside the one that keeps waiting. */
  datatype Fired =
    | Moved(catchId: Id, tokenId: Id, token: TokenState)
    | Spawned(catchId: Id, tokenId: Id, token: TokenState)

  /** `pending` is in memory, `stored` what a restart loads; `log` is everything that fired. Token
      identifiers from `nextId` on are unused. */
  datatype State = State(pending: Catches, stored: Catches, tokens: map<Id, TokenState>, nextId: Id, log: seq<Fired>)

  /** What a pass evaluates against: the kinds of nodes, the instance variables, which conditions hold
      for them, and where each node leads. */
  datatype Situation = Situation(
    kinds: map<Id, Kind>,
    variables: Json.Variables,
    truth: string -> bool,
    next: map<Id, Id>)

  function KindOf(c: Catch, sit: Situation): Kind { if c.nodeId in sit.kinds then sit.kinds[c.nodeId] else Misplaced }

  /** The catches of a token. */
  function Of(catches: Catches, token: Id): set<Id> { set id | id in catches && catches[id].tokenId == token }

  /** A token as it continues from a catch. */
  function Continuing(t: TokenState, c: Catch, sit: Situation): TokenState
    requires c.nodeId in sit.next
  {
    t.(variables := sit.variables, currentNode := sit.next[c.nodeId])
  }

  // ----- one catch

  datatype Step = Step(ok: bool, state: State)

  function Forgotten(s: State, id: Id): State { s.(pending := s.pending - {id}) }

  function MoveToken(s: State, id: Id, c: Catch, sit: Situation): Step {
    if c.nodeId !in sit.next || c.tokenId !in s.tokens then Step(false, s)
    else
      var token := Continuing(s.tokens[c.tokenId], c, sit);
      Step(true, s.(tokens := s.tokens - {c.tokenId}, stored := s.stored - {id}, log := s.log + [Moved(id, c.tokenId, token)]))
  }

  /** Every catch of the token is given up. */
  function Cleared(s: State, token: Id): State {
    s.(pending := s.pending - Of(s.pending, token), stored := s.stored - Of(s.pending, token))
  }

  /** The catches at some nodes. */
  function AtNodes(catches: Catches, nodes: set<Id>): set<Id> { set id | id in catches && catches[id].nodeId in nodes }

  /** Every catch at one of the nodes is given up. */
  function Cancelled(s: State, nodes: set<Id>): State {
    s.(pending := s.pending - AtNodes(s.pending, nodes), stored := s.stored - AtNodes(s.pending, nodes))
  }

  function SpawnToken(s: State, id: Id, c: Catch, sit: Situation): Step {
    if c.nodeId !in sit.next || c.tokenId !in s.tokens then Step(false, s)
    else
      var token, on := Continuing(s.tokens[c.tokenId], c, sit), c.(lastResult := true);
      Step(true, State(s.pending[id := on], s.stored[id := on], s.tokens[s.nextId := token], s.nextId + 1,
                       s.log + [Spawned(id, s.nextId, token)]))
  }

  /** A condition that holds, and did not before. */
  function Rise(s: State, id: Id, sit: Situation): Step
    requires id in s.pending
  {
    var c, without := s.pending[id], Forgotten(s, id);
    match KindOf(c, sit)
    case Intermediate => MoveToken(without, id, c, sit)
    case Interrupting => MoveToken(Cleared(without, c.tokenId), id, c, sit)
    case NonInterrupting => SpawnToken(without, id, c, sit)
    case Misplaced => Step(true, without.(stored := s.stored - {id}))
  }

  /** `seen` is the catch as it was when the pass began. */
  function Visit(s: State, id: Id, seen: Catch, sit: Situation): Step {
    if id !in s.pending then Step(true, s)
    else if !sit.truth(seen.condition) then
      if !seen.lastResult then Step(true, s)
      else
        var off := s.pending[id].(lastResult := false);
        Step(true, s.(pending := s.pending[id := off], stored := s.stored[id := off]))
    else if seen.lastResult then Step(true, s)
    else Rise(s, id, sit)
  }

  /** A pass over the first `n` of the catches in `order`; it ends where a catch fails. */
  function Pass(s: State, order: seq<Id>, sit: Situation, n: nat): Step
    requires n <= |order| && forall i | 0 <= i < |order| :: order[i] in s.pending
  {
    if n == 0 then Step(true, s)
    else
      var before := Pass(s, order, sit, n - 1);
      if !before.ok then before else Visit(before.state, order[n - 1], s.pending[order[n - 1]], sit)
  }

  /** Each pending catch once, in any order. */
  ghost predicate IsOrder(order: seq<Id>, catches: Catches) {
    && (forall i, j | 0 <= i < j < |order| :: order[i] != order[j])
    && (forall id :: id in order <==> id in catches)
  }

  lemma {:induction false} PassStops(s: State, order: seq<Id>, sit: Situation, n: nat)
    requires n <= |order| && (forall i | 0 <= i < |order| :: order[i] in s.pending) && !Pass(s, order, sit, n).ok
    ensures Pass(s, order, sit, |order|) == Pass(s, order, sit, n)
    decreases |order| - n
  {
    if n < |order| { PassStops(s, order, sit, n + 1); }
  }

  /** The token `after` is `before` moved on to `node`, with the variables of the instance. */
  ghost predicate GoesOn(before: TokenState, after: TokenState, node: Id, sit: Situation) {
    && after.currentNode == node && after.variables == sit.variables
    && after.isMerged == before.isMerged && after.dataScope == before.dataScope
  }

  class Engine {
    var pending: Catches
    var stored: Catches
    var tokens: map<Id, TokenState>
    var nextId: Id
    var log: seq<Fired>

    function Current(): State
      reads this
    {
      State(pending, stored, tokens, nextId, log)
    }

    method ClearWaitStates(token: Id)
      modifies this`pending, this`stored
      ensures Current() == Cleared(old(Current()), token)
    {
      var cancelled := Of(pending, token);
      pending := pending - cancelled;
      stored := stored - cancelled;
    }

    /** Gives up the boundary catches of an activity that is left; `nodes` are attached to it. */
    method CancelBoundaryWaits(nodes: set<Id>)
      modifies this`pending, this`stored
      ensures Current() == Cancelled(old(Current()), nodes)
    {
      var cancelled := AtNodes(pending, nodes);
      pending := pending - cancelled;
      stored := stored - cancelled;
    }

    /** Takes the token out of the instance; false if the catch or the token has no way on. */
    method TakeToken(id: Id, c: Catch, sit: Situation) returns (ok: bool)
      modifies this
      ensures Step(ok, Current()) == MoveToken(old(Current()), id, c, sit)
      ensures ok <==> c.nodeId in sit.next && c.tokenId in old(tokens)
      ensures !ok ==> Current() == old(Current())
      ensures ok ==>
                && pending == old(pending) && stored == old(stored) - {id}
                && tokens == old(tokens) - {c.tokenId} && nextId == old(nextId)
                && |log| == |old(log)| + 1 && log == old(log) + [Moved(id, c.tokenId, log[|log| - 1].token)]
                && GoesOn(old(tokens)[c.tokenId], log[|log| - 1].token, sit.next[c.nodeId], sit)
    {
      if c.nodeId !in sit.next {
        return false;
      }
      if c.tokenId !in tokens {
        return false;
      }
      var token := tokens[c.tokenId].(variables := sit.variables, currentNode := sit.next[c.nodeId]);
      tokens := tokens - {c.tokenId};
      stored := stored - {id};
      log := log + [Moved(id, c.tokenId, token)];
      ok := true;
    }

    method Spawn(id: Id, c: Catch, sit: Situation) returns (ok: bool)
      modifies this
      ensures Step(ok, Current()) == SpawnToken(old(Current()), id, c, sit)
      ensures ok <==> c.nodeId in sit.next && c.tokenId in old(tokens)
      ensures !ok ==> Current() == old(Current())
      ensures ok ==>
                && pending == old(pending)[id := Catch(c.nodeId, c.condition, c.tokenId, true)]
                && stored == old(stored)[id := Catch(c.nodeId, c.condition, c.tokenId, true)]
                && nextId == old(nextId) + 1 && old(nextId) in tokens && tokens == old(tokens)[old(nextId) := tokens[old(nextId)]]
                && log == old(log) + [Spawned(id, old(nextId), tokens[old(nextId)])]
                && GoesOn(old(tokens)[c.tokenId], tokens[old(nextId)], sit.next[c.nodeId], sit)
    {
      if c.nodeId !in sit.next {
        return false;
      }
      if c.tokenId !in tokens {
        return false;
      }
      var token := tokens[c.tokenId].(variables := sit.variables, currentNode := sit.next[c.nodeId]);
      tokens := tokens[nextId := token];
      log := log + [Spawned(id, nextId, token)];
      nextId := nextId + 1;
      pending := pending[id := c.(lastResult := true)];
      stored := stored[id := c.(lastResult := true)];
      ok := true;
    }

    method VisitCatch(id: Id, seen: Catch, sit: Situation) returns (ok: bool)
      modifies this
      ensures Step(ok, Current()) == Visit(old(Current()), id, seen, sit)
    {
      if !sit.truth(seen.condition) {
        if seen.lastResult && id in pending {
          pending := pending[id := pending[id].(lastResult := false)];
          stored := stored[id := pending[id]];
        }
        return true;
      }
      if seen.lastResult || id !in pending {
        return true;
      }
      var c := pending[id];
      pending := pending - {id};
      match KindOf(c, sit)
      case Intermediate => ok := TakeToken(id, c, sit);
      case Interrupting =>
        ClearWaitStates(c.tokenId);
        ok := TakeToken(id, c, sit);
      case NonInterrupting => ok := Spawn(id, c, sit);
      case Misplaced =>
        stored := stored - {id};
        ok := true;
    }

    /** One pass, unless the instance is suspended or over. */
    method FireConditionalCatches(kinds: map<Id, Kind>, variables: Json.Variables, next: map<Id, Id>, runs: bool)
      returns (ok: bool, ghost order: seq<Id>, ghost sit: Situation)
      modifies this
      ensures sit.kinds == kinds && sit.variables == variables && sit.next == next
      ensures forall text :: sit.truth(text) <==> ConditionText.ConditionHolds(text, variables)
      ensures !runs ==> ok && Current() == old(Current())
      ensures runs ==>
                && IsOrder(order, old(pending))
                && Step(ok, Current()) == Pass(old(Current()), order, sit, |order|)
    {
      order := [];
      var against := Against(kinds, variables, next);
      sit := against;
      if !runs {
        return true, [], sit;
      }
      var catches := pending;
      var todo := catches.Keys;
      ghost var start := Current();
      ok := true;
      while todo != {}
        invariant todo <= catches.Keys && catches == start.pending
        invariant IsOrder(order, catches - todo) && forall i | 0 <= i < |order| :: order[i] in catches
        invariant sit == against && Step(ok, Current()) == Pass(start, order, sit, |order|)
        decreases |todo|
      {
        var id: Id :| id in todo;
        OneMoreVisited(order, catches, todo, id);
        OneMoreInOrder(start, order, id, sit);
        order := order + [id];
        todo := todo - {id};
        if ok {
          ok := VisitCatch(id, catches[id], against);
        }
      }
      assert catches - {} == catches;
    }
  }

  function Against(kinds: map<Id, Kind>, variables: Json.Variables, next: map<Id, Id>): Situation {
    Situation(kinds, variables, (text: string) => ConditionText.ConditionHolds(text, variables), next)
  }

  lemma OneMoreVisited(order: seq<Id>, catches: Catches, todo: set<Id>, id: Id)
    requires IsOrder(order, catches - todo) && id in todo && todo <= catches.Keys
    ensures IsOrder(order + [id], catches - (todo - {id}))
    ensures forall i | 0 <= i < |order + [id]| :: (order + [id])[i] in catches
  {
    forall i | 0 <= i < |order| ensures order[i] in catches && order[i] != id {
      assert order[i] in order;
    }
  }

  /** A pass over one catch more. */
  lemma OneMoreInOrder(s: State, order: seq<Id>, id: Id, sit: Situation)
    requires id in s.pending && forall i | 0 <= i < |order| :: order[i] in s.pending
    ensures forall i | 0 <= i < |order + [id]| :: (order + [id])[i] in s.pending
    ensures var before := Pass(s, order, sit, |order|);
            Pass(s, order + [id], sit, |order + [id]|) ==
            if before.ok then Visit(before.state, id, s.pending[id], sit) else before
  {
    var more := order + [id];
    assert forall i | 0 <= i < |more| :: more[i] in s.pending;
    PassOfPrefix(s, order, more, sit, |order|);
  }

  lemma {:induction false} PassOfPrefix(s: State, a: seq<Id>, b: seq<Id>, sit: Situation, n: nat)
    requires n <= |a| && a <= b && forall i | 0 <= i < |b| :: b[i] in s.pending
    ensures Pass(s, a, sit, n) == Pass(s, b, sit, n)
  {
    if n > 0 { PassOfPrefix(s, a, b, sit, n - 1); }
  }
}
