// The protocol's typed work store stands for the JSON documents the Maestro client reads and merges.
module Refinement {
  import opened Wrappers
  import opened Json
  import opened Work
  import opened Generation
  import opened Documents
  import opened Upsert
  import opened Protocol

  function StoreOf(works: map<Key, Stored>): Store {
    map k | k in works :: Document(works[k])
  }

  /** Reading the existing document and comparing generations is the decision the protocol takes. */
  lemma DecisionsAgree(s: State, consumer: string, work: ManifestWork)
    ensures Decision(StoreOf(s.works), consumer, work) == DecideWork(s, (consumer, work.name), work)
  {
    var key := (consumer, work.name);
    if key in s.works {
      DocumentAnnotations(s.works[key]);
    }
    hide Document, GetAnnotations, GetGeneration;
  }

  /** A write by JSON merge patch, or by creation at a registered consumer, is the protocol's write. */
  lemma WritesAgree(works: map<Key, Stored>, consumers: set<string>, consumer: string, work: ManifestWork,
          op: Operation)
    requires op == Create ==> consumer in consumers
    ensures Upsert.Written(StoreOf(works), consumers, consumer, work, op) ==
      StoreOf(WriteWork(works, (consumer, work.name), work, op))
  {
    var key := (consumer, work.name);
    hide Document, PatchDocument, MergePatch, Patched, Created;
    if op == Update && key in works {
      PatchIsMerge(works[key], work);
    }
    var after := Upsert.Written(StoreOf(works), consumers, consumer, work, op);
    var typed := StoreOf(WriteWork(works, key, work, op));
    assert after.Keys == typed.Keys;
    assert forall k :: k in after ==> after[k] == typed[k];
  }

  /**
   * So a whole apply whose two calls both get through is, for a valid work, one decision and one write of
   * the protocol.
   */
  lemma ApplyRefines(s: State, consumers: set<string>, consumer: string, work: ManifestWork)
    requires WorkValid(work) && consumer in consumers
    ensures var key := (consumer, work.name);
            AfterApply(StoreOf(s.works), consumers, consumer, Some(work), Answered, Answered)
            == StoreOf(WriteWork(s.works, key, work, DecideWork(s, key, work)))
  {
    DecisionsAgree(s, consumer, work);
    WritesAgree(s.works, consumers, consumer, work, DecideWork(s, (consumer, work.name), work));
    hide Decision, DecideWork, Upsert.Written, WriteWork, StoreOf, WorkValid;
  }
}
