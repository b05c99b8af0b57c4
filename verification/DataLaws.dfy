/** What entering, leaving and publishing do to each variable, and what mapping values are worth. */
module DataLaws {
  import opened Common
  import opened Json
  import opened DataMapping
  import opened Tokens
  import opened DataScopes

  // ----- mapping values

  /** The variables a mapping value names, at any depth. */
  ghost function Names(m: MappingValue): set<string> {
    match m
    case Literal(_) => {}
    case Variable(name) => {name}
    case List(values) => set i, x | 0 <= i < |values| && x in Names(values[i]) :: x
    case Map(entries) => set k, x | k in entries && x in Names(entries[k]) :: x
  }

  /** A value can be evaluated exactly if every variable it names is there. */
  lemma {:induction false} KnownExactly(m: MappingValue, vars: Variables)
    ensures Known(m, vars) <==> Names(m) <= vars.Keys
    decreases m
  {
    match m
    case List(values) =>
      forall i | 0 <= i < |values| ensures Known(values[i], vars) <==> Names(values[i]) <= vars.Keys {
        KnownExactly(values[i], vars);
      }
      forall i | 0 <= i < |values| ensures Names(values[i]) <= Names(m) { }
    case Map(entries) =>
      forall k | k in entries ensures Known(entries[k], vars) <==> Names(entries[k]) <= vars.Keys {
        KnownExactly(entries[k], vars);
      }
      forall k | k in entries ensures Names(entries[k]) <= Names(m) { }
    case _ =>
  }

  /** `v` is the JSON value that a mapping value describes: literals stand for themselves, names for their variables,
      lists and maps for arrays and objects of what they hold. */
  ghost predicate IsWorth(m: MappingValue, vars: Variables, v: Value) {
    match m
    case Literal(value) => v == value
    case Variable(name) => name in vars && v == vars[name]
    case List(values) =>
      v.Array? && |v.items| == |values| && forall i | 0 <= i < |values| :: IsWorth(values[i], vars, v.items[i])
    case Map(entries) =>
      v.Object? && v.fields.Keys == entries.Keys && forall k | k in entries :: IsWorth(entries[k], vars, v.fields[k])
  }

  lemma {:induction false} MeaningIsWorth(m: MappingValue, vars: Variables)
    requires Known(m, vars)
    ensures IsWorth(m, vars, Meaning(m, vars))
    decreases m
  {
    match m
    case List(values) =>
      forall i | 0 <= i < |values| ensures IsWorth(values[i], vars, Meaning(m, vars).items[i]) {
        MeaningIsWorth(values[i], vars);
      }
    case Map(entries) =>
      forall k | k in entries ensures IsWorth(entries[k], vars, Meaning(m, vars).fields[k]) {
        MeaningIsWorth(entries[k], vars);
      }
    case _ =>
  }

  lemma {:induction false} WorthIsMeaning(m: MappingValue, vars: Variables, v: Value)
    requires IsWorth(m, vars, v)
    ensures Known(m, vars) && v == Meaning(m, vars)
    decreases m
  {
    match m
    case List(values) =>
      forall i | 0 <= i < |values| ensures Known(values[i], vars) && v.items[i] == Meaning(values[i], vars) {
        WorthIsMeaning(values[i], vars, v.items[i]);
      }
      assert v.items == Meaning(m, vars).items;
    case Map(entries) =>
      forall k | k in entries ensures Known(entries[k], vars) && v.fields[k] == Meaning(entries[k], vars) {
        WorthIsMeaning(entries[k], vars, v.fields[k]);
      }
      assert v.fields == Meaning(m, vars).fields;
    case _ =>
  }

  /** A mapping value evaluates to `v` exactly if `v` is what it describes. */
  lemma MeaningExactly(m: MappingValue, vars: Variables, v: Value)
    ensures Known(m, vars) && Meaning(m, vars) == v <==> IsWorth(m, vars, v)
  {
    if Known(m, vars) { MeaningIsWorth(m, vars); }
    if IsWorth(m, vars, v) { WorthIsMeaning(m, vars, v); }
  }

  // ----- a phase of mappings

  function Lookup(vars: Variables, x: string): Option<Value> { if x in vars then Some(vars[x]) else None }

  /** The mappings can be applied to `source`: targets are not blank and distinct, and all variables are there. */
  ghost predicate CanBeApplied(ms: seq<Mapping>, source: Variables) {
    && (forall i | 0 <= i < |ms| :: !Blank(ms[i].target) && Names(ms[i].value) <= source.Keys)
    && (forall i, j | 0 <= i < j < |ms| :: ms[i].target != ms[j].target)
  }

  /** `after` is `before`, with every target set to what its mapping is worth in `source`. */
  ghost predicate AreApplied(ms: seq<Mapping>, source: Variables, before: Variables, after: Variables) {
    && (forall i | 0 <= i < |ms| :: ms[i].target in after && IsWorth(ms[i].value, source, after[ms[i].target]))
    && forall x | !IsTarget(ms, x) :: Lookup(after, x) == Lookup(before, x)
  }

  ghost predicate IsTarget(ms: seq<Mapping>, x: string) { exists i | 0 <= i < |ms| :: ms[i].target == x }

  lemma EvaluatesExactly(ms: seq<Mapping>, source: Variables)
    ensures Evaluates(ms, source) <==> CanBeApplied(ms, source)
  {
    forall i | 0 <= i < |ms| ensures Known(ms[i].value, source) <==> Names(ms[i].value) <= source.Keys {
      KnownExactly(ms[i].value, source);
    }
  }

  lemma OutcomeIsApplied(ms: seq<Mapping>, source: Variables, before: Variables)
    requires Evaluates(ms, source)
    ensures AreApplied(ms, source, before, before + Outcome(ms, source))
  {
    var r := Outcome(ms, source);
    forall i | 0 <= i < |ms| ensures ms[i].target in before + r && IsWorth(ms[i].value, source, (before + r)[ms[i].target]) {
      assert ms[i].target in DataMapping.Targets(ms);
      MeaningIsWorth(ms[i].value, source);
    }
  }

  // ----- entering

  /** Entering a node. A token that is in it already stays as it is. Otherwise it gives up the scope it is in, and has
      the variables it entered that with. Then a multi-instance node, or one without mappings, changes nothing. Any
      other applies its inputs, if they can be applied, and remembers the variables it came with and the targets. */
  lemma EnterIsExact(t: TokenState, def: DataDefinition, node: Id)
    ensures var r := Entered(t, def, node);
            var vars := if t.dataScope.Some? then t.dataScope.value.original else t.variables;
            && r.token.currentNode == t.currentNode && r.token.isMerged == t.isMerged
            && if t.dataScope.Some? && t.dataScope.value.nodeId == node then r == Step(true, t)
               else if node in def.multiInstance || node !in def.mappings then
                 r.ok && r.token.variables == vars && r.token.dataScope.None?
               else if !CanBeApplied(def.mappings[node].inputs, vars) then
                 !r.ok && r.token.variables == vars && r.token.dataScope.None?
               else
                 && r.ok && AreApplied(def.mappings[node].inputs, vars, vars, r.token.variables) && r.token.dataScope.Some?
                 && r.token.dataScope.value.nodeId == node && r.token.dataScope.value.original == vars
                 && forall x :: x in r.token.dataScope.value.localNames <==> IsTarget(def.mappings[node].inputs, x)
  {
    var free := Discarded(t);
    if node in def.mappings {
      EvaluatesExactly(def.mappings[node].inputs, free.variables);
      if EntersScope(def, node, free.variables) {
        OutcomeIsApplied(def.mappings[node].inputs, free.variables, free.variables);
      }
    }
  }

  /** What is visible outside the activity: local names as they were, all others as they are. */
  lemma OuterIsExact(t: TokenState, x: string)
    ensures Lookup(OuterVariables(t), x) ==
            if t.dataScope.Some? && x in t.dataScope.value.localNames then Lookup(t.dataScope.value.original, x)
            else Lookup(t.variables, x)
  {
  }

  /** Leaving a node. A token that is not in it stays as it is. Otherwise the outputs are applied to the variables it
      entered with, or, if there are none, local names get back what they were; and it is in no scope any more. It fails,
      and changes nothing, if the outputs cannot be applied to the variables it has. */
  lemma LeaveIsExact(t: TokenState, def: DataDefinition, node: Id)
    ensures var r := Left(t, def, node);
            && r.token.currentNode == t.currentNode && r.token.isMerged == t.isMerged
            && if t.dataScope.None? || t.dataScope.value.nodeId != node then r == Step(true, t)
               else if node !in def.mappings || !CanBeApplied(def.mappings[node].outputs, t.variables) then r == Step(false, t)
               else
                 && r.ok && r.token.dataScope.None?
                 && if def.mappings[node].outputs == [] then
                      forall x :: Lookup(r.token.variables, x) ==
                                  if x in t.dataScope.value.localNames then Lookup(t.dataScope.value.original, x)
                                  else Lookup(t.variables, x)
                    else AreApplied(def.mappings[node].outputs, t.variables, t.dataScope.value.original, r.token.variables)
  {
    if t.dataScope.Some? && t.dataScope.value.nodeId == node && node in def.mappings {
      var outputs := def.mappings[node].outputs;
      EvaluatesExactly(outputs, t.variables);
      if Evaluates(outputs, t.variables) {
        if outputs == [] {
          NoOutputs(t.variables);
          assert OuterVariables(t) + map[] == OuterVariables(t);
          forall x ensures Lookup(OuterVariables(t), x) == if x in t.dataScope.value.localNames then Lookup(t.dataScope.value.original, x)
                                                           else Lookup(t.variables, x) {
            OuterIsExact(t, x);
          }
        } else {
          OutcomeIsApplied(outputs, t.variables, t.dataScope.value.original);
        }
      }
    }
  }

  /** A transfer sets its variables inside and, if the token is in an activity, among those it entered with. */
  lemma TransferIsExact(t: TokenState, vars: Variables, x: string)
    ensures var r := Transferred(t, vars);
            && r.currentNode == t.currentNode && r.isMerged == t.isMerged && (r.dataScope.Some? <==> t.dataScope.Some?)
            && Lookup(r.variables, x) == (if x in vars then Some(vars[x]) else Lookup(t.variables, x))
            && (t.dataScope.Some? ==>
                  && r.dataScope.value.nodeId == t.dataScope.value.nodeId
                  && r.dataScope.value.localNames == t.dataScope.value.localNames
                  && Lookup(r.dataScope.value.original, x) ==
                     (if x in vars then Some(vars[x]) else Lookup(t.dataScope.value.original, x)))
  {
  }

  // ----- publishing

  /** What one completion of a multi-instance activity publishes. Without mappings all variables of the worker. With
      mappings but no outputs, those that are no inputs. With outputs just these, evaluated over the worker's variables
      and, where it has none, the snapshot; it fails if they cannot be. */
  lemma PublishIsExact(vars: Variables, def: DataDefinition, node: Id, snapshot: Variables, worker: Variables)
    ensures var r := Published(vars, def, node, snapshot, worker);
            if node !in def.mappings then
              r.Ok? && forall x :: Lookup(r.value, x) == if x in worker then Some(worker[x]) else Lookup(vars, x)
            else if def.mappings[node].outputs == [] then
              r.Ok? && forall x :: Lookup(r.value, x) ==
                                   if x in worker && !IsTarget(def.mappings[node].inputs, x) then Some(worker[x]) else Lookup(vars, x)
            else
              exists source :: IsOverlay(source, snapshot, worker)
                && (r.Ok? <==> CanBeApplied(def.mappings[node].outputs, source))
                && (r.Ok? ==> AreApplied(def.mappings[node].outputs, source, vars, r.value))
  {
    if node in def.mappings && def.mappings[node].outputs != [] {
      var source, outputs := snapshot + worker, def.mappings[node].outputs;
      assert IsOverlay(source, snapshot, worker);
      EvaluatesExactly(outputs, source);
      if Evaluates(outputs, source) { OutcomeIsApplied(outputs, source, vars); }
    } else if node in def.mappings {
      var inputs := def.mappings[node].inputs;
      forall x ensures x in DataMapping.Targets(inputs) <==> IsTarget(inputs, x) { }
    }
  }

  /** `source` is `worker`, and `snapshot` where that has nothing. */
  ghost predicate IsOverlay(source: Variables, snapshot: Variables, worker: Variables) {
    forall x :: Lookup(source, x) == if x in worker then Some(worker[x]) else Lookup(snapshot, x)
  }
}
