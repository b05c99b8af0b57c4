/** An instance in which an intermediate catch shares its token with another catch. */
module ConditionalExample {
  import opened Common
  import opened Tokens
  import opened ConditionalEvents
  import opened ConditionalRuns

  const TOKEN := TokenState(1, map[], false, None)

  /** Catch 1 is intermediate at node 1, catch 2 a boundary catch at node 2; both wait for token 7. */
  const CATCHES: Catches := map[1 := Catch(1, "a", 7, false), 2 := Catch(2, "b", 7, false)]

  const SHARED := State(CATCHES, CATCHES, map[7 := TOKEN], 8, [])

  const KINDS: map<Id, Kind> := map[1 := Intermediate, 2 := NonInterrupting]

  const NEXT: map<Id, Id> := map[1 := 3, 2 := 4]

  /** Both conditions hold. */
  const BOTH := Situation(KINDS, map[], (text: string) => true, NEXT)

  /** Only the condition of the intermediate catch holds. */
  const FIRST := Situation(KINDS, map[], (text: string) => text == "a", NEXT)

  /** Every catch has its token and a way on, and yet a pass fails. */
  lemma PassFails()
    ensures TokensExist(SHARED) && IdsAreFresh(SHARED) && Routable(SHARED.pending, BOTH) && Clash(SHARED, BOTH, 1, 2)
    ensures IsOrder([1, 2], SHARED.pending) && IsListed([1, 2], SHARED.pending) && !Pass(SHARED, [1, 2], BOTH, 2).ok
  {
    ClashFails(SHARED, [1, 2], BOTH);
  }

  lemma FirstStrandsSecond()
    ensures Passable(SHARED, [1, 2], FIRST) && IdsAreFresh(SHARED) && Strands(SHARED, FIRST, 1, 2)
  {
    assert "a" != "b";
  }

  /** No pass fails, and yet one leaves a catch without its token. */
  lemma PassStrands()
    ensures Passable(SHARED, [1, 2], FIRST) && IdsAreFresh(SHARED) && Strands(SHARED, FIRST, 1, 2)
    ensures Pass(SHARED, [1, 2], FIRST, 2).ok && !TokensExist(Passed(SHARED, [1, 2], FIRST))
  {
    FirstStrandsSecond();
    PassIs(SHARED, [1, 2], FIRST);
    PassKeepsTokensExactly(SHARED, [1, 2], FIRST);
  }
}
