/** Deleting members of definition collections: clients race with optimistic updates of one store entry. */
module Tombstones {
  import opened Common

  /** Definitions that were deployed together; deleting one leaves a tombstone. */
  datatype Collection = Collection(definitions: set<Id>, xml: string, deleted: seq<Id>)

  /** A stored value and the revision it got when it was written. */
  datatype Entry = Entry(revision: nat, value: Collection)

  type Store = map<Id, Entry>

  /** Where a client is in deleting `key` from a collection. Ghosts of the bookkeeping: how often its update
      was refused, and how many tombstones there were when it began. */
  datatype Client =
    | Idle
    | Reading(key: Id, collection: Id, refused: nat, began: nat)
    | Updating(key: Id, collection: Id, refused: nat, began: nat, revision: nat, read: Collection)
    | Deleted(key: Id, collection: Id, refused: nat, began: nat)
    | Failed

  /** `clock` is the last revision given out. */
  datatype System = System(store: Store, clients: map<Id, Client>, clock: nat)

  datatype Step =
    | Create(collection: Id, value: Collection)
    | Find(client: Id, key: Id, collection: Id)
    | Read(client: Id)
    | Update(client: Id, answered: bool)
    | Break(client: Id)

  function ClientOf(s: System, c: Id): Client { if c in s.clients then s.clients[c] else Idle }

  function Becomes(s: System, c: Id, state: Client): System { s.(clients := s.clients[c := state]) }

  function Put(s: System, id: Id, value: Collection): System {
    s.(store := s.store[id := Entry(s.clock + 1, value)], clock := s.clock + 1)
  }

  function Buried(value: Collection, key: Id): Collection { value.(deleted := value.deleted + [key]) }

  /** An update is accepted only for the revision that is stored. */
  predicate IsAccepted(s: System, c: Id) {
    var state := ClientOf(s, c);
    state.Updating? && state.collection in s.store && s.store[state.collection].revision == state.revision
  }

  /** No definition belongs to two collections, and none starts out deleted. */
  predicate MayCreate(s: System, id: Id, value: Collection) {
    id !in s.store && value.deleted == [] && forall x | x in s.store :: s.store[x].value.definitions !! value.definitions
  }

  predicate MayStep(s: System, step: Step) {
    match step
    case Create(id, value) => MayCreate(s, id, value)
    case Find(c, key, id) => !ClientOf(s, c).Reading? && !ClientOf(s, c).Updating?
                             && id in s.store && key in s.store[id].value.definitions
    case Read(c) => ClientOf(s, c).Reading? && ClientOf(s, c).collection in s.store
    case Update(c, _) => ClientOf(s, c).Updating?
    case Break(c) => ClientOf(s, c).Reading? || ClientOf(s, c).Updating?
  }

  /** The client reads the entry; a tombstone that is there already is all it wanted. */
  function AfterRead(s: System, c: Id): System
    requires MayStep(s, Read(c))
  {
    var state := ClientOf(s, c);
    var entry := s.store[state.collection];
    Becomes(s, c,
      if state.key in entry.value.deleted
      then Deleted(state.key, state.collection, state.refused, state.began)
      else Updating(state.key, state.collection, state.refused, state.began, entry.revision, entry.value))
  }

  /** The update is stored, or refused and tried again; the answer may get lost. */
  function AfterUpdate(s: System, c: Id, answered: bool): System
    requires MayStep(s, Update(c, answered))
  {
    var state := ClientOf(s, c);
    if IsAccepted(s, c) then
      Becomes(Put(s, state.collection, Buried(state.read, state.key)), c,
        if answered then Deleted(state.key, state.collection, state.refused, state.began) else Failed)
    else Becomes(s, c, Reading(state.key, state.collection, state.refused + 1, state.began))
  }

  function After(s: System, step: Step): System
    requires MayStep(s, step)
  {
    match step
    case Create(id, value) => Put(s, id, value)
    case Find(c, key, id) => Becomes(s, c, Reading(key, id, 0, |s.store[id].value.deleted|))
    case Read(c) => AfterRead(s, c)
    case Update(c, answered) => AfterUpdate(s, c, answered)
    case Break(c) => Becomes(s, c, Failed)
  }

  ghost predicate IsRun(s: System, steps: seq<Step>)
    decreases |steps|
  {
    steps == [] || (MayStep(s, steps[0]) && IsRun(After(s, steps[0]), steps[1..]))
  }

  ghost function Final(s: System, steps: seq<Step>): System
    requires IsRun(s, steps)
    decreases |steps|
  {
    if steps == [] then s else Final(After(s, steps[0]), steps[1..])
  }

  const EMPTY := System(map[], map[], 0)

  // ----- what the store keeps

  predicate NoDuplicates(ids: seq<Id>) { forall i, j | 0 <= i < j < |ids| :: ids[i] != ids[j] }

  predicate CollectionIsSound(v: Collection) {
    NoDuplicates(v.deleted) && forall i | 0 <= i < |v.deleted| :: v.deleted[i] in v.definitions
  }

  /** `b` is a later version of `a`. */
  predicate IsLater(a: Entry, b: Entry) {
    && a.value.definitions == b.value.definitions && a.value.xml == b.value.xml
    && a.value.deleted <= b.value.deleted
    && a.revision <= b.revision && (a.revision == b.revision ==> a == b)
    && (a.revision < b.revision ==> |a.value.deleted| < |b.value.deleted|)
  }

  predicate ClientIsSound(s: System, state: Client) {
    match state
    case Reading(key, id, refused, began) =>
      && id in s.store && key in s.store[id].value.definitions
      && refused + began <= |s.store[id].value.deleted|
    case Updating(key, id, refused, began, revision, read) =>
      && id in s.store && key in s.store[id].value.definitions && key !in read.deleted
      && CollectionIsSound(read) && IsLater(Entry(revision, read), s.store[id])
      && refused + began <= |read.deleted|
    case Deleted(key, id, refused, began) =>
      && id in s.store && key in s.store[id].value.deleted
      && refused + began <= |s.store[id].value.deleted|
    case _ => true
  }

  ghost predicate IsSound(s: System) {
    && (forall id | id in s.store :: CollectionIsSound(s.store[id].value) && s.store[id].revision <= s.clock)
    && (forall a, b | a in s.store && b in s.store && a != b :: s.store[a].value.definitions !! s.store[b].value.definitions)
    && (forall c | c in s.clients :: ClientIsSound(s, s.clients[c]))
  }

  /** Entries only get later versions. */
  ghost predicate Grows(s: System, r: System) {
    forall id | id in s.store :: id in r.store && IsLater(s.store[id], r.store[id])
  }

  lemma GrowsTwice(a: System, b: System, c: System)
    requires Grows(a, b) && Grows(b, c)
    ensures Grows(a, c)
  {
  }

  /** A client is not disturbed by others. */
  lemma StaysSound(s: System, r: System, state: Client)
    requires Grows(s, r) && ClientIsSound(s, state)
    ensures ClientIsSound(r, state)
  {
  }

  lemma OthersStaySound(s: System, r: System, c: Id, state: Client)
    requires IsSound(s) && Grows(s, r) && r.clients == s.clients[c := state] && ClientIsSound(r, state)
    ensures forall x | x in r.clients :: ClientIsSound(r, r.clients[x])
  {
    forall x | x in r.clients ensures ClientIsSound(r, r.clients[x]) {
      if x != c { StaysSound(s, r, s.clients[x]); }
    }
  }

  lemma CreateIsSound(s: System, id: Id, value: Collection)
    requires IsSound(s) && MayCreate(s, id, value)
    ensures IsSound(Put(s, id, value)) && Grows(s, Put(s, id, value))
  {
    var r := Put(s, id, value);
    forall x | x in r.clients ensures ClientIsSound(r, r.clients[x]) {
      StaysSound(s, r, s.clients[x]);
    }
  }

  lemma ReadIsSound(s: System, c: Id)
    requires IsSound(s) && MayStep(s, Read(c))
    ensures IsSound(AfterRead(s, c)) && Grows(s, AfterRead(s, c))
  {
    var r := AfterRead(s, c);
    assert ClientIsSound(s, s.clients[c]);
    OthersStaySound(s, r, c, r.clients[c]);
  }

  lemma AcceptedIsSound(s: System, c: Id, answered: bool)
    requires IsSound(s) && MayStep(s, Update(c, answered)) && IsAccepted(s, c)
    ensures IsSound(AfterUpdate(s, c, answered)) && Grows(s, AfterUpdate(s, c, answered))
  {
    var r, state := AfterUpdate(s, c, answered), s.clients[c];
    assert ClientIsSound(s, state);
    assert s.store[state.collection].value == state.read;
    assert Buried(state.read, state.key).deleted[|state.read.deleted|] == state.key;
    OthersStaySound(s, r, c, r.clients[c]);
  }

  /** Refused: somebody else's update was stored since the read. */
  lemma RefusedIsSound(s: System, c: Id, answered: bool)
    requires IsSound(s) && MayStep(s, Update(c, answered)) && !IsAccepted(s, c)
    ensures IsSound(AfterUpdate(s, c, answered)) && Grows(s, AfterUpdate(s, c, answered))
  {
    var r, state := AfterUpdate(s, c, answered), s.clients[c];
    assert ClientIsSound(s, state);
    OthersStaySound(s, r, c, r.clients[c]);
  }

  lemma StepIsSound(s: System, step: Step)
    requires IsSound(s) && MayStep(s, step)
    ensures IsSound(After(s, step)) && Grows(s, After(s, step))
  {
    match step
    case Create(id, value) => CreateIsSound(s, id, value);
    case Find(c, key, id) => OthersStaySound(s, After(s, step), c, After(s, step).clients[c]);
    case Read(c) => ReadIsSound(s, c);
    case Update(c, answered) =>
      if IsAccepted(s, c) { AcceptedIsSound(s, c, answered); } else { RefusedIsSound(s, c, answered); }
    case Break(c) => OthersStaySound(s, After(s, step), c, Failed);
  }

  /** In every interleaving tombstones only accumulate, without duplicates, and nothing else changes. */
  lemma {:induction false} RunIsSound(s: System, steps: seq<Step>)
    requires IsSound(s) && IsRun(s, steps)
    ensures IsSound(Final(s, steps)) && Grows(s, Final(s, steps))
    decreases |steps|
  {
    if steps != [] {
      StepIsSound(s, steps[0]);
      RunIsSound(After(s, steps[0]), steps[1..]);
      GrowsTwice(s, After(s, steps[0]), Final(s, steps));
    }
  }

  /** Once a client was told that its delete succeeded, the tombstone is there forever. */
  lemma DeletedForever(before: seq<Step>, after: seq<Step>, c: Id)
    requires IsRun(EMPTY, before) && IsRun(Final(EMPTY, before), after)
    requires ClientOf(Final(EMPTY, before), c).Deleted?
    ensures var state, r := ClientOf(Final(EMPTY, before), c), Final(Final(EMPTY, before), after);
            state.collection in r.store && state.key in r.store[state.collection].value.deleted
  {
    RunIsSound(EMPTY, before);
    var s := Final(EMPTY, before);
    assert ClientIsSound(s, s.clients[c]);
    RunIsSound(s, after);
    var state, r := s.clients[c], Final(s, after);
    assert s.store[state.collection].value.deleted <= r.store[state.collection].value.deleted;
  }

  // ----- retries

  predicate IsBy(step: Step, c: Id) { !step.Create? && step.client == c }

  /** The step stores an update of the collection. */
  predicate Stores(s: System, step: Step, id: Id) {
    step.Update? && IsAccepted(s, step.client) && ClientOf(s, step.client).collection == id
  }

  /** Somewhere in the run another client's update of the collection is stored. */
  ghost predicate SomebodyStores(s: System, steps: seq<Step>, id: Id)
    requires IsRun(s, steps)
    decreases |steps|
  {
    steps != [] && (Stores(s, steps[0], id) || SomebodyStores(After(s, steps[0]), steps[1..], id))
  }

  lemma {:induction false} NobodyStores(s: System, steps: seq<Step>, id: Id)
    requires IsSound(s) && IsRun(s, steps) && id in s.store && !SomebodyStores(s, steps, id)
    ensures id in Final(s, steps).store && Final(s, steps).store[id] == s.store[id]
    decreases |steps|
  {
    if steps != [] {
      StepIsSound(s, steps[0]);
      NobodyStores(After(s, steps[0]), steps[1..], id);
    }
  }

  lemma {:induction false} ClientWaits(s: System, steps: seq<Step>, c: Id)
    requires IsRun(s, steps) && forall i | 0 <= i < |steps| :: !IsBy(steps[i], c)
    ensures ClientOf(Final(s, steps), c) == ClientOf(s, c)
    decreases |steps|
  {
    if steps != [] {
      ClientWaits(After(s, steps[0]), steps[1..], c);
    }
  }

  /** A client reads, others act, and its update is refused: then another client's update was stored in between. */
  lemma RefusalMeansProgress(s: System, c: Id, steps: seq<Step>)
    requires IsSound(s) && MayStep(s, Read(c)) && IsRun(After(s, Read(c)), steps)
    requires forall i | 0 <= i < |steps| :: !IsBy(steps[i], c)
    requires ClientOf(After(s, Read(c)), c).Updating? && !IsAccepted(Final(After(s, Read(c)), steps), c)
    ensures SomebodyStores(After(s, Read(c)), steps, ClientOf(s, c).collection)
  {
    var read := After(s, Read(c));
    StepIsSound(s, Read(c));
    ClientWaits(read, steps, c);
    if !SomebodyStores(read, steps, ClientOf(s, c).collection) {
      NobodyStores(read, steps, ClientOf(s, c).collection);
    }
  }

  lemma {:induction false} DistinctAreFew(ids: seq<Id>, all: set<Id>)
    requires NoDuplicates(ids) && forall i | 0 <= i < |ids| :: ids[i] in all
    ensures |ids| <= |all|
    decreases |ids|
  {
    if ids != [] {
      var n := |ids| - 1;
      DistinctAreFew(ids[..n], all - {ids[n]});
    }
  }

  /** However clients interleave, a delete is refused at most as often as the collection has definitions. */
  lemma RefusalsAreBounded(steps: seq<Step>, c: Id)
    requires IsRun(EMPTY, steps)
    ensures var s := Final(EMPTY, steps); var state := ClientOf(s, c);
            state.Reading? || state.Updating? || state.Deleted? ==>
              state.collection in s.store && state.refused <= |s.store[state.collection].value.definitions|
  {
    RunIsSound(EMPTY, steps);
    var s := Final(EMPTY, steps);
    var state := ClientOf(s, c);
    if state.Reading? || state.Updating? || state.Deleted? {
      assert ClientIsSound(s, s.clients[c]);
      var value := s.store[state.collection].value;
      DistinctAreFew(value.deleted, value.definitions);
    }
  }

  // ----- what deletes

  /** Every tombstone, and every delete under way, was asked for in the run. */
  ghost predicate AreRequested(s: System, asked: set<(Id, Id)>) {
    && (forall id, k | id in s.store && k in s.store[id].value.deleted :: (k, id) in asked)
    && (forall c | c in s.clients && (s.clients[c].Reading? || s.clients[c].Updating?) ::
          (s.clients[c].key, s.clients[c].collection) in asked)
  }

  function Asked(step: Step): set<(Id, Id)> { if step.Find? then {(step.key, step.collection)} else {} }

  lemma StepIsRequested(s: System, step: Step, asked: set<(Id, Id)>)
    requires IsSound(s) && MayStep(s, step) && AreRequested(s, asked)
    ensures AreRequested(After(s, step), asked + Asked(step))
  {
    if step.Update? && IsAccepted(s, step.client) {
      var state := s.clients[step.client];
      assert ClientIsSound(s, state) && s.store[state.collection].value == state.read;
      var now := Buried(state.read, state.key).deleted;
      forall k | k in now ensures (k, state.collection) in asked {
        if k != state.key { assert k in state.read.deleted; }
      }
    }
  }

  lemma {:induction false} RunIsRequested(s: System, steps: seq<Step>, asked: set<(Id, Id)>)
    requires IsSound(s) && IsRun(s, steps) && AreRequested(s, asked)
    ensures forall id, k | id in Final(s, steps).store && k in Final(s, steps).store[id].value.deleted ::
              (k, id) in asked || exists i | 0 <= i < |steps| :: steps[i].Find? && steps[i].key == k && steps[i].collection == id
    decreases |steps|
  {
    if steps != [] {
      StepIsSound(s, steps[0]);
      StepIsRequested(s, steps[0], asked);
      RunIsRequested(After(s, steps[0]), steps[1..], asked + Asked(steps[0]));
      forall id, k | id in Final(s, steps).store && k in Final(s, steps).store[id].value.deleted && (k, id) !in asked
        ensures exists i | 0 <= i < |steps| :: steps[i].Find? && steps[i].key == k && steps[i].collection == id
      {
        if (k, id) in Asked(steps[0]) {
          assert steps[0].Find? && steps[0].key == k && steps[0].collection == id;
        } else {
          var i :| 0 <= i < |steps[1..]| && steps[1..][i].Find? && steps[1..][i].key == k && steps[1..][i].collection == id;
          assert steps[i + 1] == steps[1..][i];
        }
      }
    }
  }

  /** In every interleaving, what has a tombstone was asked to be deleted, by some client, from that collection. */
  lemma OnlyRequestedAreDeleted(steps: seq<Step>, id: Id, key: Id)
    requires IsRun(EMPTY, steps) && id in Final(EMPTY, steps).store && key in Final(EMPTY, steps).store[id].value.deleted
    ensures exists i | 0 <= i < |steps| :: steps[i].Find? && steps[i].key == key && steps[i].collection == id
  {
    RunIsRequested(EMPTY, steps, {});
  }

  /** A delete that nobody interferes with appends its tombstone and changes nothing else; only an answer tells the
      client. Of a definition that has its tombstone already it changes nothing. */
  lemma AloneDeletes(s: System, c: Id, key: Id, id: Id, answered: bool)
    requires MayStep(s, Find(c, key, id))
    ensures var was := s.store[id].value;
            var steps := if key in was.deleted then [Find(c, key, id), Read(c)] else [Find(c, key, id), Read(c), Update(c, answered)];
            && IsRun(s, steps)
            && Final(s, steps).store ==
               (if key in was.deleted then s.store
                else s.store[id := Entry(s.clock + 1, Collection(was.definitions, was.xml, was.deleted + [key]))])
            && (ClientOf(Final(s, steps), c).Deleted? <==> key in was.deleted || answered)
  {
    var found := After(s, Find(c, key, id));
    var read := After(found, Read(c));
    assert ClientOf(found, c).Reading? && found.store == s.store;
    if key in s.store[id].value.deleted {
      var steps := [Find(c, key, id), Read(c)];
      assert steps[1..] == [Read(c)] && steps[1..][1..] == [];
      assert IsRun(read, []) && IsRun(found, [Read(c)]) && Final(found, [Read(c)]) == read;
    } else {
      var done := After(read, Update(c, answered));
      var steps := [Find(c, key, id), Read(c), Update(c, answered)];
      assert steps[1..] == [Read(c), Update(c, answered)] && steps[1..][1..] == [Update(c, answered)];
      assert [Update(c, answered)][1..] == [] && IsRun(done, []);
      assert IsRun(read, [Update(c, answered)]) && Final(read, [Update(c, answered)]) == done;
      assert IsRun(found, [Read(c), Update(c, answered)]) && Final(found, [Read(c), Update(c, answered)]) == done;
    }
  }

  // ----- loading

  /** The XML of the first listed collection that has the definition alive. */
  method LoadXml(listing: seq<Collection>, id: Id) returns (r: Option<string>)
    ensures r.None? <==> forall i | 0 <= i < |listing| :: !(id in listing[i].definitions && id !in listing[i].deleted)
    ensures r.Some? ==> exists i :: 0 <= i < |listing| && listing[i].xml == r.value
                          && id in listing[i].definitions && id !in listing[i].deleted
  {
    for i := 0 to |listing|
      invariant forall j | 0 <= j < i :: !(id in listing[j].definitions && id !in listing[j].deleted)
    {
      if id in listing[i].definitions && id !in listing[i].deleted {
        return Some(listing[i].xml);
      }
    }
    r := None;
  }

  /** The system after the first `k` steps. */
  ghost function AtStep(s: System, steps: seq<Step>, k: nat): System
    requires IsRun(s, steps) && k <= |steps|
    decreases k
  {
    if k == 0 then s else AtStep(After(s, steps[0]), steps[1..], k - 1)
  }

  lemma {:induction false} PrefixIsSound(s: System, steps: seq<Step>, k: nat)
    requires IsSound(s) && IsRun(s, steps) && k <= |steps|
    ensures IsSound(AtStep(s, steps, k)) && Grows(s, AtStep(s, steps, k))
    decreases k
  {
    if k > 0 {
      StepIsSound(s, steps[0]);
      PrefixIsSound(After(s, steps[0]), steps[1..], k - 1);
      GrowsTwice(s, After(s, steps[0]), AtStep(s, steps, k));
    }
  }

  /** Entries of the store, in any order, each read at a moment of its own while others go on. */
  ghost predicate IsListing(s: System, steps: seq<Step>, listing: seq<Collection>)
    requires IsRun(s, steps)
  {
    forall i | 0 <= i < |listing| ::
      exists k: nat, id :: k <= |steps| && id in AtStep(s, steps, k).store && AtStep(s, steps, k).store[id].value == listing[i]
  }

  lemma TombstoneIsSeen(s: System, r: System, c: Id, id: Id)
    requires IsSound(s) && IsSound(r) && Grows(s, r) && ClientOf(s, c).Deleted? && id in r.store
    ensures ClientOf(s, c).key in r.store[id].value.definitions ==> ClientOf(s, c).key in r.store[id].value.deleted
  {
    var state := s.clients[c];
    assert ClientIsSound(s, state);
    assert s.store[state.collection].value.deleted <= r.store[state.collection].value.deleted;
    var home := r.store[state.collection].value;
    assert CollectionIsSound(home);
    assert state.key in home.definitions;
    if id != state.collection {
      assert home.definitions !! r.store[id].value.definitions;
    }
  }

  /** After a successful delete, no listing that is read while others go on offers the definition any more. */
  lemma DeletedIsNotOffered(before: seq<Step>, after: seq<Step>, c: Id, listing: seq<Collection>, i: nat)
    requires IsRun(EMPTY, before) && IsRun(Final(EMPTY, before), after)
    requires ClientOf(Final(EMPTY, before), c).Deleted?
    requires IsListing(Final(EMPTY, before), after, listing) && i < |listing|
    ensures var key := ClientOf(Final(EMPTY, before), c).key;
            key in listing[i].definitions ==> key in listing[i].deleted
  {
    var s := Final(EMPTY, before);
    RunIsSound(EMPTY, before);
    var k: nat, id :| k <= |after| && id in AtStep(s, after, k).store && AtStep(s, after, k).store[id].value == listing[i];
    PrefixIsSound(s, after, k);
    TombstoneIsSeen(s, AtStep(s, after, k), c, id);
  }
}
