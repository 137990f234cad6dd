// Creating or updating a ManifestWork in Maestro.
module Upsert {
  import opened Wrappers
  import opened Json
  import opened Work
  import opened Generation
  import opened Documents
  import opened Status

  type Key = (string, string)
  type Store = map<Key, Json>

  /** How one remote call ends: answered, turned away, or carried out with its answer lost. */
  datatype Fate = Answered | Refused(message: string) | AnswerLost(message: string)

  datatype ApplyError =
    | NilWork
    | Invalid(cause: WorkError)
    | ConsumerNotFound(consumer: string)
    | Backend(message: string)

  datatype Applied = Applied(operation: Operation, work: Json)

  const FOREIGN_KEY := "fk_resources_consumers"

  predicate Contains(s: string, part: string) {
    part <= s || (s != "" && Contains(s[1..], part))
  }

  /** `isConsumerNotFoundError`, and the wrapping of every other create error. */
  function CreateError(consumer: string, message: string): ApplyError {
    if Contains(message, FOREIGN_KEY) then ConsumerNotFound(consumer) else Backend(message)
  }

  lemma {:induction false} ContainsMeans(s: string, part: string)
    ensures Contains(s, part) <==> exists before, after :: s == before + part + after
  {
    if part <= s {
      assert s == "" + part + s[|part|..];
    } else if s != "" {
      ContainsMeans(s[1..], part);
      if before, after :| s[1..] == before + part + after {
        assert s == ([s[0]] + before) + part + after;
      }
      if before, after :| s == before + part + after {
        assert before != "" && s[1..] == before[1..] + part + after;
      }
    }
  }

  /** A create error names a missing consumer exactly if its text names the foreign key; else it is passed on. */
  lemma CreateErrorIs(consumer: string, message: string)
    ensures CreateError(consumer, message) ==
      if exists before, after :: message == before + "fk_resources_consumers" + after
      then ConsumerNotFound(consumer) else Backend(message)
  {
    ContainsMeans(message, FOREIGN_KEY);
  }

  /** The work as Maestro stores it on creation: empty label and annotation maps are not sent. */
  function Created(work: ManifestWork, consumer: string): Stored {
    Stored(work.(namespace := consumer,
                 labels := if work.labels == Some(map[]) then None else work.labels,
                 annotations := if work.annotations == Some(map[]) then None else work.annotations),
           NO_STATUS)
  }

  /** What a creation stores: the work as it is, filed under the consumer, and no status yet. */
  lemma CreatedMeans(work: ManifestWork, consumer: string)
    ensures var s := Created(work, consumer);
            && s.work.name == work.name && s.work.namespace == consumer && s.work.spec == work.spec
            && s.work.labels.GetOr(map[]) == work.labels.GetOr(map[])
            && s.work.annotations.GetOr(map[]) == work.annotations.GetOr(map[])
            && s.work.labels != Some(map[]) && s.work.annotations != Some(map[])
            && s.status.conditions == [] && s.status.resources == []
  {
  }

  /** What a write request does to the store when the server carries it out. */
  function Written(store: Store, consumers: set<string>, consumer: string, work: ManifestWork, op: Operation): Store {
    var key := (consumer, work.name);
    match op
    case Create =>
      if consumer in consumers && key !in store then store[key := Document(Created(work, consumer))] else store
    case Update => if key in store then store[key := MergePatch(store[key], PatchDocument(work))] else store
    case Skip => store
  }

  function Decision(store: Store, consumer: string, work: ManifestWork): Operation {
    var key := (consumer, work.name);
    CompareGenerations(GetGeneration(work.annotations),
      if key in store then GetGeneration(GetAnnotations(store[key])) else 0, key in store)
  }

  ghost predicate Accepted(work: Option<ManifestWork>) {
    work.Some? && WorkValid(work.value)
  }

  /** The store after one apply: nothing happens unless the work is valid and both calls get through. */
  ghost function AfterApply(store: Store, consumers: set<string>, consumer: string, work: Option<ManifestWork>,
          read: Fate, write: Fate): Store {
    if !Accepted(work) || !read.Answered? || write.Refused? then store
    else Written(store, consumers, consumer, work.value, Decision(store, consumer, work.value))
  }

  /** A skip asks for nothing more; a write has to be answered, and a creation to name a known consumer. */
  ghost predicate Gets(op: Operation, known: bool, write: Fate) {
    op == Skip || (write.Answered? && (op == Create ==> known))
  }

  class MaestroClient {
    var works: Store
    var consumers: set<string>

    constructor (registered: set<string>)
      ensures works == map[] && consumers == registered
    {
      works := map[];
      consumers := registered;
    }

    /** A missing work is Ok(None): not-found is handed to callers as such, not as a failure. */
    method GetManifestWork(consumer: string, name: string, fate: Fate) returns (r: Result<Option<Json>, ApplyError>)
      ensures fate.Answered? <==> r.Ok?
      ensures !fate.Answered? ==> r == Err(Backend(fate.message))
      ensures r.Ok? ==> r.value == if (consumer, name) in works then Some(works[(consumer, name)]) else None
    {
      if !fate.Answered? {
        return Err(Backend(fate.message));
      }
      if (consumer, name) in works {
        return Ok(Some(works[(consumer, name)]));
      }
      return Ok(None);
    }

    method CreateManifestWork(consumer: string, work: Option<ManifestWork>, fate: Fate)
      returns (r: Result<Json, ApplyError>)
      modifies this`works
      ensures works ==
        if Accepted(work) && !fate.Refused? then Written(old(works), consumers, consumer, work.value, Create)
        else old(works)
      ensures r.Ok? <==>
        Accepted(work) && fate.Answered? && consumer in consumers && (consumer, work.value.name) !in old(works)
      ensures r.Ok? ==> r.value == works[(consumer, work.value.name)]
      ensures work.None? ==> r == Err(NilWork)
      ensures work.Some? && !WorkValid(work.value) ==> r.Err? && r.error.Invalid?
      ensures Accepted(work) && !fate.Answered?
              && (consumer !in consumers || (consumer, work.value.name) !in old(works)) ==>
                r == Err(CreateError(consumer, fate.message))
      ensures Accepted(work) && fate.Answered? && consumer !in consumers ==> r == Err(ConsumerNotFound(consumer))
      ensures Accepted(work) && fate.Answered? && consumer in consumers && (consumer, work.value.name) in old(works) ==>
        r == Err(Backend("already exists"))
    {
      if work.None? {
        return Err(NilWork);
      }
      var checked := ValidateManifestWorkGeneration(work.value);
      if checked.Err? {
        return Err(Invalid(checked.error));
      }
      if fate.Refused? {
        return Err(CreateError(consumer, fate.message));
      }
      var key := (consumer, work.value.name);
      if consumer !in consumers {
        var refusal := if fate.AnswerLost? then fate.message else FOREIGN_KEY;
        return Err(CreateError(consumer, refusal));
      }
      if key in works {
        return Err(Backend("already exists"));
      }
      works := works[key := Document(Created(work.value, consumer))];
      if fate.AnswerLost? {
        return Err(CreateError(consumer, fate.message));
      }
      return Ok(works[key]);
    }

    method PatchManifestWork(consumer: string, work: ManifestWork, fate: Fate) returns (r: Result<Json, ApplyError>)
      modifies this`works
      ensures works == if fate.Refused? then old(works) else Written(old(works), consumers, consumer, work, Update)
      ensures r.Ok? <==> fate.Answered? && (consumer, work.name) in old(works)
      ensures (consumer, work.name) in old(works) && !fate.Answered? ==> r == Err(Backend(fate.message))
      ensures (consumer, work.name) !in old(works) && fate.Answered? ==> r == Err(Backend("not found"))
      ensures r.Ok? ==> r.value == works[(consumer, work.name)]
    {
      if fate.Refused? {
        return Err(Backend(fate.message));
      }
      var key := (consumer, work.name);
      if key !in works {
        return Err(Backend("not found"));
      }
      works := works[key := MergePatch(works[key], PatchDocument(work))];
      if fate.AnswerLost? {
        return Err(Backend(fate.message));
      }
      return Ok(works[key]);
    }

    method ApplyManifestWork(consumer: string, manifestWork: Option<ManifestWork>, read: Fate, write: Fate)
      returns (r: Result<Applied, ApplyError>)
      modifies this`works
      ensures works == AfterApply(old(works), consumers, consumer, manifestWork, read, write)
      ensures r.Ok? ==>
        Accepted(manifestWork) && (consumer, manifestWork.value.name) in works
        && r.value == Applied(Decision(old(works), consumer, manifestWork.value),
                              works[(consumer, manifestWork.value.name)])
      ensures r.Ok? <==>
        Accepted(manifestWork) && read.Answered?
        && Gets(Decision(old(works), consumer, manifestWork.value), consumer in consumers, write)
      ensures manifestWork.None? ==> r == Err(NilWork)
      ensures manifestWork.Some? && !WorkValid(manifestWork.value) ==> r.Err? && r.error.Invalid?
      ensures Accepted(manifestWork) && !read.Answered? ==> r == Err(Backend(read.message))
      ensures Accepted(manifestWork) && read.Answered? && !write.Answered? ==>
        match Decision(old(works), consumer, manifestWork.value)
        case Create => r == Err(CreateError(consumer, write.message))
        case Update => r == Err(Backend(write.message))
        case Skip => r.Ok?
    {
      hide Document, PatchDocument, MergePatch, GetAnnotations, GetGeneration, WorkValid, Created, Contains;
      if manifestWork.None? {
        return Err(NilWork);
      }
      var work := manifestWork.value;
      var checked := ValidateManifestWorkGeneration(work);
      if checked.Err? {
        return Err(Invalid(checked.error));
      }
      var newGeneration := GetGeneration(work.annotations);
      var existing := GetManifestWork(consumer, work.name, read);
      if existing.Err? {
        return Err(existing.error);
      }
      var existingGeneration := 0;
      if existing.value.Some? {
        existingGeneration := GetGeneration(GetAnnotations(existing.value.value));
      }
      var decision := CompareGenerations(newGeneration, existingGeneration, existing.value.Some?);
      match decision {
        case Create =>
          var created := CreateManifestWork(consumer, Some(work), write);
          if created.Err? {
            return Err(created.error);
          }
          return Ok(Applied(decision, created.value));
        case Skip =>
          return Ok(Applied(decision, existing.value.value));
        case Update =>
          var patched := PatchManifestWork(consumer, work, write);
          if patched.Err? {
            return Err(patched.error);
          }
          return Ok(Applied(decision, patched.value));
      }
    }
  }

  ghost predicate Holds(store: Store, key: Key, s: Stored) {
    key in store && store[key] == Document(s) && s.work.name == key.1 && s.work.namespace == key.0
  }

  /** Every stored document is a valid work filed under its own consumer and name. */
  ghost predicate StoreValid(store: Store) {
    forall key :: key in store ==> exists s :: Holds(store, key, s) && WorkValid(s.work)
  }

  /** An update leaves exactly the typed patch, and the agent's status as it was. */
  lemma UpdateLeaves(store: Store, consumers: set<string>, consumer: string, work: ManifestWork, s: Stored)
    requires Holds(store, (consumer, work.name), s)
    ensures Holds(Written(store, consumers, consumer, work, Update), (consumer, work.name),
                  Stored(Patched(s.work, work), s.status))
  {
    hide Document, PatchDocument, MergePatch;
    PatchIsMerge(s, work);
  }

  /**
   * What the patch means: the new generation; the new manifests, options and deletion policy unless
   * they are empty; labels outside the new map survive exactly when the new map is not nil;
   * annotations are merged; the name and the namespace stay.
   */
  lemma PatchedMeans(before: ManifestWork, work: ManifestWork)
    requires WorkValid(work)
    ensures var after := Patched(before, work);
            && GetGeneration(after.annotations) == GetGeneration(work.annotations)
            && (after.spec.manifests == work.spec.manifests <==>
                work.spec.manifests != [] || before.spec.manifests == [])
            && (work.spec.manifests == [] ==> after.spec.manifests == before.spec.manifests)
            && after.spec.configs == (if work.spec.configs == [] then before.spec.configs else work.spec.configs)
            && after.spec.deleteOption ==
              (if work.spec.deleteOption.Some? then work.spec.deleteOption else before.spec.deleteOption)
            && after.name == before.name && after.namespace == before.namespace
            && (forall k :: k in after.labels.GetOr(map[]) ==>
                  k in before.labels.GetOr(map[]) || k in work.labels.GetOr(map[]))
            && (forall k :: k in after.annotations.GetOr(map[]) ==>
                  k in before.annotations.GetOr(map[]) || k in work.annotations.GetOr(map[]))
            && (forall k :: k in work.annotations.value ==>
                  k in after.annotations.GetOr(map[]) && after.annotations.value[k] == work.annotations.value[k])
            && (forall k :: k in before.labels.GetOr(map[]) && k !in work.labels.GetOr(map[]) ==>
                  ((k in after.labels.GetOr(map[]) && after.labels.value[k] == before.labels.value[k]) <==>
                   work.labels.Some?))
            && (forall k :: k in work.labels.GetOr(map[]) ==>
                k in after.labels.GetOr(map[]) && after.labels.value[k] == work.labels.value[k])
            && (forall k :: k in before.annotations.GetOr(map[]) && k !in work.annotations.value ==>
                  k in after.annotations.value && after.annotations.value[k] == before.annotations.value[k])
            && (WorkValid(before) ==> WorkValid(after))
  {
  }

  /** One apply, whatever its fate, keeps every stored work valid. */
  lemma ApplyKeepsValid(store: Store, consumers: set<string>, consumer: string, work: Option<ManifestWork>,
          read: Fate, write: Fate)
    requires StoreValid(store)
    ensures StoreValid(AfterApply(store, consumers, consumer, work, read, write))
  {
    hide Document, PatchDocument, MergePatch, GetAnnotations;
    var after := AfterApply(store, consumers, consumer, work, read, write);
    if after != store {
      var key := (consumer, work.value.name);
      forall k | k in after ensures exists s :: Holds(after, k, s) && WorkValid(s.work) {
        if k != key {
          var s :| Holds(store, k, s) && WorkValid(s.work);
          assert Holds(after, k, s);
        } else if key !in store {
          assert Holds(after, k, Created(work.value, consumer));
        } else {
          var s :| Holds(store, key, s) && WorkValid(s.work);
          UpdateLeaves(store, consumers, consumer, work.value, s);
          PatchedMeans(s.work, work.value);
          assert Holds(after, k, Stored(Patched(s.work, work.value), s.status));
        }
      }
    }
  }

  ghost predicate Same(before: Store, after: Store, key: Key) {
    (key in after <==> key in before) && (key in before ==> after[key] == before[key])
  }

  /** An apply touches nothing but the one work it names, and that only if it is valid and gets through. */
  lemma ApplyTouches(store: Store, consumers: set<string>, consumer: string, work: Option<ManifestWork>, read: Fate,
                     write: Fate, key: Key)
    ensures var after := AfterApply(store, consumers, consumer, work, read, write);
            !Same(store, after, key) ==>
              && work.Some? && WorkValid(work.value) && read.Answered? && !write.Refused?
              && key == (consumer, work.value.name)
              && if key in store
                 then GetGeneration(work.value.annotations) != GetGeneration(GetAnnotations(store[key]))
                 else consumer in consumers
  {
    hide Document, PatchDocument, MergePatch, GetAnnotations, GetGeneration, WorkValid, Created;
  }

  /** And a valid new work for a known consumer that gets through is there afterwards. */
  lemma ApplyCreates(store: Store, consumers: set<string>, consumer: string, work: ManifestWork, write: Fate)
    requires WorkValid(work) && consumer in consumers && !write.Refused? && (consumer, work.name) !in store
    ensures AfterApply(store, consumers, consumer, Some(work), Answered, write)
         == store[(consumer, work.name) := Document(Created(work, consumer))]
  {
    hide Document, GetAnnotations, GetGeneration, WorkValid, Created;
  }

  datatype Request = Request(consumer: string, work: Option<ManifestWork>, read: Fate, write: Fate)

  ghost function Applies(store: Store, consumers: set<string>, requests: seq<Request>): Store
    decreases |requests|
  {
    if requests == [] then store
    else
      var q := requests[0];
      Applies(AfterApply(store, consumers, q.consumer, q.work, q.read, q.write), consumers, requests[1..])
  }

  /** Every store reachable from the empty one by applies holds only valid works. */
  lemma {:induction false} ReachableStoresValid(store: Store, consumers: set<string>, requests: seq<Request>)
    requires StoreValid(store)
    ensures StoreValid(Applies(store, consumers, requests))
    decreases |requests|
  {
    hide StoreValid, AfterApply;
    if requests != [] {
      var q := requests[0];
      ApplyKeepsValid(store, consumers, q.consumer, q.work, q.read, q.write);
      ReachableStoresValid(AfterApply(store, consumers, q.consumer, q.work, q.read, q.write), consumers, requests[1..]);
    }
  }

  /** Once an apply's write has reached the store, the same apply is a skip that changes nothing. */
  lemma RepeatIsSkip(store: Store, consumers: set<string>, consumer: string, work: ManifestWork, write: Fate)
    requires StoreValid(store) && WorkValid(work) && consumer in consumers && !write.Refused?
    ensures var once := AfterApply(store, consumers, consumer, Some(work), Answered, write);
            && Decision(once, consumer, work) == Skip
            && forall again: Fate :: AfterApply(once, consumers, consumer, Some(work), Answered, again) == once
  {
    hide Document, PatchDocument, MergePatch, GetAnnotations;
    var once := AfterApply(store, consumers, consumer, Some(work), Answered, write);
    var key := (consumer, work.name);
    if key !in store {
      DocumentAnnotations(Created(work, consumer));
    } else {
      var s :| Holds(store, key, s) && WorkValid(s.work);
      UpdateLeaves(store, consumers, consumer, work, s);
      PatchedMeans(s.work, work);
      DocumentAnnotations(s);
      DocumentAnnotations(Stored(Patched(s.work, work), s.status));
    }
  }

  /**
   * The comparison alone lets a lower generation overwrite a higher one: an apply leaves the
   * generation it brings, so the stored one does not fall exactly when the new one is no lower.
   */
  lemma RollbackIsAccepted(store: Store, consumers: set<string>, consumer: string, work: ManifestWork, s: Stored)
    requires WorkValid(work) && WorkValid(s.work) && Holds(store, (consumer, work.name), s)
    ensures var key := (consumer, work.name);
            var after := AfterApply(store, consumers, consumer, Some(work), Answered, Answered);
            && GetGeneration(GetAnnotations(after[key])) == GetGeneration(work.annotations)
            && (GetGeneration(GetAnnotations(after[key])) >= GetGeneration(GetAnnotations(store[key]))
                <==> GetGeneration(work.annotations) >= GetGeneration(s.work.annotations))
  {
    hide Document, PatchDocument, MergePatch, GetAnnotations;
    UpdateLeaves(store, consumers, consumer, work, s);
    PatchedMeans(s.work, work);
    DocumentAnnotations(s);
    DocumentAnnotations(Stored(Patched(s.work, work), s.status));
  }
}
