/** Execution tokens: where control is, and the variables it carries. */
module Tokens {
  import opened Common
  import opened Json

  /** What an activity's data mappings must restore when it is left. */
  datatype DataScope = DataScope(nodeId: Id, original: Variables, localNames: set<string>)

  /** A token by value, as it is cloned and stored. */
  datatype TokenState = TokenState(
    currentNode: Id,
    variables: Variables,
    isMerged: bool,
    dataScope: Option<DataScope>)

  /** A new token at `node` with its own copy of the variables. */
  function WithVariables(node: Id, variables: Variables): TokenState { TokenState(node, variables, false, None) }

  /** `inside`, except that `names` are as in `outside`: with its value there, or absent. */
  function Restored(inside: Variables, outside: Variables, names: set<string>): Variables {
    map x | x in inside.Keys + outside.Keys && (if x in names then x in outside else x in inside) ::
      if x in names then outside[x] else inside[x]
  }

  lemma RestoreOne(inside: Variables, outside: Variables, names: set<string>, name: string)
    ensures var before := Restored(inside, outside, names);
            Restored(inside, outside, names + {name}) ==
            if name in outside then before[name := outside[name]] else before - {name}
  {
  }

  /** The variables visible outside the current activity. */
  function OuterVariables(t: TokenState): Variables {
    if t.dataScope.None? then t.variables
    else Restored(t.variables, t.dataScope.value.original, t.dataScope.value.localNames)
  }

  function Discarded(t: TokenState): TokenState {
    if t.dataScope.None? then t else t.(variables := t.dataScope.value.original, dataScope := None)
  }

  class Token {
    var currentNode: Id
    var variables: Variables
    var isMerged: bool
    var dataScope: Option<DataScope>

    function State(): TokenState
      reads this
    {
      TokenState(currentNode, variables, isMerged, dataScope)
    }

    method ProcessVariables() returns (r: Variables)
      ensures r == OuterVariables(State())
    {
      r := variables;
      if dataScope.Some? {
        r := Restore(variables, dataScope.value.original, dataScope.value.localNames);
      }
    }

    static method Restore(inside: Variables, outside: Variables, names: set<string>) returns (r: Variables)
      ensures r == Restored(inside, outside, names)
    {
      r := inside;
      var todo := names;
      while todo != {}
        invariant todo <= names
        invariant r == Restored(inside, outside, names - todo)
        decreases |todo|
      {
        var name: string :| name in todo;
        assert names - (todo - {name}) == (names - todo) + {name};
        RestoreOne(inside, outside, names - todo, name);
        r := if name in outside then r[name := outside[name]] else r - {name};
        todo := todo - {name};
      }
      assert names - {} == names;
    }

    method DiscardDataScope()
      modifies this
      ensures State() == Discarded(old(State()))
    {
      if dataScope.Some? {
        variables := dataScope.value.original;
        dataScope := None;
      }
    }
  }
}
