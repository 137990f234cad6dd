// JSON trees and the JSON merge patch of section 2 of RFC 7396.
module Json {
  import opened Wrappers

  datatype Json =
    | Null
    | Bool(b: bool)
    | Num(n: int)
    | Str(s: string)
    | Arr(items: seq<Json>)
    | Obj(fields: map<string, Json>)

  /** The members of an object; anything else counts as an object without members. */
  function Members(doc: Json): map<string, Json> {
    if doc.Obj? then doc.fields else map[]
  }

  function Member(doc: Json, name: string): Json {
    if name in Members(doc) then Members(doc)[name] else Null
  }

  /** Section 2 of RFC 7396: objects are merged member by member, null removes, all else replaces. */
  function MergePatch(target: Json, patch: Json): Json
    decreases patch
  {
    if !patch.Obj? then
      patch
    else
      Obj(map name | name in Members(target).Keys + patch.fields.Keys
                     && !(name in patch.fields && patch.fields[name].Null?) ::
          if name in patch.fields then MergePatch(Member(target, name), patch.fields[name])
          else Members(target)[name])
  }

  lemma MergeScalar(target: Json, patch: Json)
    requires !patch.Obj?
    ensures MergePatch(target, patch) == patch
  {
  }

  /** One member of a merged object. */
  lemma MergeMember(target: Json, patch: Json, name: string)
    requires patch.Obj?
    ensures var merged := MergePatch(target, patch);
            merged.Obj?
            && (name !in patch.fields ==>
                  (name in merged.fields <==> name in Members(target)) && Member(merged, name) == Member(target, name))
            && (name in patch.fields && patch.fields[name].Null? ==> name !in merged.fields)
            && (name in patch.fields && !patch.fields[name].Null? ==>
                  name in merged.fields && merged.fields[name] == MergePatch(Member(target, name), patch.fields[name]))
  {
  }

  /** The value at a path of member names, if every step of the path exists. */
  function At(doc: Json, path: seq<string>): Option<Json> {
    if path == [] then Some(doc)
    else if path[0] in Members(doc) then At(Members(doc)[path[0]], path[1..])
    else None
  }

  lemma AtMember(doc: Json, name: string)
    ensures At(doc, [name]) == if name in Members(doc) then Some(Members(doc)[name]) else None
  {
    assert [name][1..] == [];
    assert name in Members(doc) ==> At(doc, [name]) == At(Members(doc)[name], []);
  }

  lemma AtStep(doc: Json, name: string, rest: seq<string>)
    ensures At(doc, [name] + rest) == if name in Members(doc) then At(Members(doc)[name], rest) else None
  {
    assert ([name] + rest)[1..] == rest;
  }

  /** What a patch says about one path, read without reference to any target. */
  datatype Verdict = Set(value: Json) | Merge | Delete | Keep

  function Says(patch: Json, path: seq<string>): Verdict {
    if path == [] then
      if patch.Obj? then Merge else if patch.Null? then Delete else Set(patch)
    else if !patch.Obj? then Delete
    else if path[0] !in patch.fields then Keep
    else Says(patch.fields[path[0]], path[1..])
  }

  /**
   * The merged document, path by path: a path holds a non-object value exactly when the patch sets
   * it or the patch is silent about it and the target held it; nothing survives a deleted path.
   */
  lemma {:induction false} MergeAt(target: Json, patch: Json, path: seq<string>)
    requires path != [] && patch.Obj?
    ensures match Says(patch, path)
            case Set(v) => At(MergePatch(target, patch), path) == Some(v)
            case Delete => At(MergePatch(target, patch), path) == None
            case Keep => At(MergePatch(target, patch), path) == At(target, path)
            case Merge => At(MergePatch(target, patch), path).Some? && At(MergePatch(target, patch), path).value.Obj?
    decreases path
  {
    var name, rest := path[0], path[1..];
    if name in patch.fields {
      var sub := patch.fields[name];
      var merged := MergePatch(Member(target, name), sub);
      assert !sub.Null? ==> At(MergePatch(target, patch), path) == At(merged, rest);
      assert Says(patch, path) == Says(sub, rest);
      if sub.Obj? && rest != [] {
        MergeAt(Member(target, name), sub, rest);
        if name !in Members(target) {
          AtNull(rest);
        }
      }
    }
  }

  lemma AtNull(path: seq<string>)
    requires path != []
    ensures At(Null, path) == None
  {
  }

  /** Sending the same patch again changes nothing. */
  lemma {:induction false} MergeIdempotent(target: Json, patch: Json)
    ensures MergePatch(MergePatch(target, patch), patch) == MergePatch(target, patch)
    decreases patch
  {
    if patch.Obj? {
      var once := MergePatch(target, patch);
      var twice := MergePatch(once, patch);
      forall name | name in once.fields
        ensures name in twice.fields && twice.fields[name] == once.fields[name]
      {
        if name in patch.fields {
          MergeIdempotent(Member(target, name), patch.fields[name]);
        }
      }
      assert twice.fields == once.fields;
    }
  }
}
