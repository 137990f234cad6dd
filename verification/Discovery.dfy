// Finding manifests inside a ManifestWork document, and copying their reported status onto them.
module Discovery {
  import opened Wrappers
  import opened Json
  import opened Text
  import opened Work
  import opened Documents
  import opened Labels

  // "" in a field asks for no filtering by it; a name asks for a single resource.
  datatype Criteria = Criteria(namespace: string, name: string, selector: string)

  datatype Slice = Missing | Malformed | Items(items: seq<Json>)

  /**
   * `unstructured.NestedSlice`: a null on the way is missing, anything else that is not an object on the
   * way, or not a list at the end, is an error.
   */
  function NestedSlice(doc: Json, path: seq<string>): Slice {
    if path == [] then (if doc.Arr? then Items(doc.items) else Malformed)
    else if doc.Null? then Missing
    else if !doc.Obj? then Malformed
    else if path[0] in doc.fields then NestedSlice(doc.fields[path[0]], path[1..])
    else Missing
  }

  const MANIFEST_PATH := [SpecField(), WorkloadField(), ManifestsField()]

  ghost predicate Satisfies(obj: Json, c: Criteria) {
    (c.namespace != "" ==> GetNamespace(obj) == c.namespace)
    && if c.name != "" then GetName(obj) == c.name else Matches(GetLabels(obj), c.selector)
  }

  method MatchesDiscoveryCriteria(obj: Json, c: Criteria) returns (r: bool)
    ensures r <==> Satisfies(obj, c)
  {
    if c.namespace != "" && GetNamespace(obj) != c.namespace {
      return false;
    }
    if c.name != "" {
      return GetName(obj) == c.name;
    }
    r := MatchesLabels(obj, c.selector);
  }

  /** The objects of a list that satisfy the criteria, in order. */
  ghost function Selected(ms: seq<Json>, c: Criteria): seq<Json> {
    if ms == [] then [] else Selected(ms[..|ms| - 1], c) + if Satisfies(ms[|ms| - 1], c) then [ms[|ms| - 1]] else []
  }

  datatype DiscoverError = BadPath | NotAnObject(index: nat)

  /** None stands for a nil parent or nil criteria. */
  method DiscoverNestedManifest(parent: Option<Json>, criteria: Option<Criteria>)
    returns (r: Result<seq<Json>, DiscoverError>)
    ensures parent.None? || criteria.None? ==> r == Ok([])
    ensures parent.Some? && criteria.Some? ==>
      var found := NestedSlice(parent.value, MANIFEST_PATH);
      && (found.Missing? ==> r == Ok([]))
      && (found.Malformed? ==> r == Err(BadPath))
      && (found.Items? && (forall m :: m in found.items ==> m.Obj?) ==> r == Ok(Selected(found.items, criteria.value)))
      && (found.Items? && !(forall m :: m in found.items ==> m.Obj?) ==>
            r.Err? && r.error.NotAnObject? && r.error.index < |found.items| && !found.items[r.error.index].Obj?
            && forall j :: 0 <= j < r.error.index ==> found.items[j].Obj?)
  {
    if parent.None? || criteria.None? {
      return Ok([]);
    }
    var manifests := NestedSlice(parent.value, MANIFEST_PATH);
    if manifests.Malformed? {
      return Err(BadPath);
    }
    if manifests.Missing? {
      return Ok([]);
    }
    var list: seq<Json> := [];
    for i := 0 to |manifests.items|
      invariant forall j :: 0 <= j < i ==> manifests.items[j].Obj?
      invariant list == Selected(manifests.items[..i], criteria.value)
    {
      var m := manifests.items[i];
      assert m in manifests.items;
      if !m.Obj? {
        return Err(NotAnObject(i));
      }
      assert manifests.items[..i + 1][..i] == manifests.items[..i];
      var matches := MatchesDiscoveryCriteria(m, criteria.value);
      if matches {
        list := list + [m];
      }
    }
    assert manifests.items[..|manifests.items|] == manifests.items;
    return Ok(list);
  }

  lemma {:induction false} SelectedIff(ms: seq<Json>, c: Criteria, m: Json)
    ensures m in Selected(ms, c) <==> m in ms && Satisfies(m, c)
    ensures multiset(Selected(ms, c))[m] == if Satisfies(m, c) then multiset(ms)[m] else 0
  {
    hide Satisfies;
    if ms != [] {
      SelectedIff(ms[..|ms| - 1], c, m);
      assert ms == ms[..|ms| - 1] + [ms[|ms| - 1]];
    }
  }

  /** The order of the manifests is kept. */
  lemma {:induction false} SelectedKeepsOrder(a: seq<Json>, b: seq<Json>, c: Criteria)
    ensures Selected(a + b, c) == Selected(a, c) + Selected(b, c)
  {
    hide Satisfies;
    if b == [] {
      assert a + b == a;
    } else {
      SelectedKeepsOrder(a, b[..|b| - 1], c);
      assert (a + b)[..|a + b| - 1] == a + b[..|b| - 1];
    }
  }

  /** Discovery by name goes by name alone, whatever the selector, and by namespace where one is given. */
  lemma DiscoveryFindsNamed(ms: seq<Json>, namespace: string, name: string, selector: string, m: Json)
    requires name != ""
    ensures m in Selected(ms, Criteria(namespace, name, selector))
       <==> m in ms && GetName(m) == name && (namespace == "" || GetNamespace(m) == namespace)
  {
    hide GetName, GetNamespace, Matches;
    SelectedIff(ms, Criteria(namespace, name, selector), m);
  }

  /** The manifests of a stored work are where discovery looks, unless there are none. */
  lemma StoredManifests(s: Stored)
    ensures NestedSlice(Document(s), MANIFEST_PATH) ==
      if s.work.spec.manifests == [] then Missing else Items(s.work.spec.manifests)
  {
    var workload := Workload(s.work.spec.manifests);
    NamesDistinct();
    assert NestedSlice(workload, [ManifestsField()]) ==
      if s.work.spec.manifests == [] then Missing else Items(s.work.spec.manifests) by {
      assert [ManifestsField()][1..] == [];
    }
    assert Spec(s.work.spec).fields[WorkloadField()] == workload;
    assert [WorkloadField(), ManifestsField()][1..] == [ManifestsField()];
    assert Document(s).fields[SpecField()] == Spec(s.work.spec);
    assert MANIFEST_PATH[1..] == [WorkloadField(), ManifestsField()];
  }

  /**
   * Discovery in a stored work by a selector built from clean labels finds exactly the manifests, of
   * the namespace where one is given, whose labels agree with every one of them, a missing label read
   * as empty.
   */
  lemma DiscoveryFindsLabelled(s: Stored, namespace: string, labels: LabelMap, text: string, m: Json)
    requires IsSelector(text, labels) && Clean(labels) && labels != map[]
    ensures m in Selected(s.work.spec.manifests, Criteria(namespace, "", text))
       <==> m in s.work.spec.manifests && (namespace == "" || GetNamespace(m) == namespace)
            && GetLabels(m).Some? && Agrees(labels, GetLabels(m).value)
  {
    hide Agrees, Matches, Split, Join, PairHolds, GetLabels, GetNamespace;
    SelectedIff(s.work.spec.manifests, Criteria(namespace, "", text), m);
    SelectorNotEmpty(text, labels);
    NoLabels(text);
    if GetLabels(m).Some? {
      CleanRoundTrip(text, labels, GetLabels(m).value);
    }
  }

  lemma SelectorNotEmpty(text: string, labels: LabelMap)
    requires IsSelector(text, labels) && Clean(labels) && labels != map[]
    ensures text != ""
  {
    hide Pairs, Join, Clean, CleanKey;
    var keys := KeysOf(text, labels);
    var k :| k in labels;
    assert keys != [];
    CleanPieces(keys, labels);
  }

  lemma NoLabels(text: string)
    ensures text != "" ==> !Matches(None, text)
  {
  }

  // ---- Reported status ----

  const FEEDBACK := "statusFeedback"
  const CONDITIONS := "conditions"
  const STATUS_PATH := ["status", "resourceStatus", "manifests"]

  /** An entry speaks of the named object; entries without a readable identity speak of none. */
  predicate SpeaksOf(entry: Json, name: string, namespace: string) {
    entry.Obj? && "resourceMeta" in entry.fields
    && var meta := entry.fields["resourceMeta"];
    && meta.Obj? && "name" in meta.fields && meta.fields["name"] == Str(name) && "namespace" in meta.fields
    && meta.fields["namespace"] == Str(namespace)
  }

  function FirstEntry(entries: seq<Json>, name: string, namespace: string): (r: Option<map<string, Json>>)
    ensures r.None? <==> forall e :: e in entries ==> !SpeaksOf(e, name, namespace)
  {
    if entries == [] then None
    else if SpeaksOf(entries[0], name, namespace) then Some(entries[0].fields)
    else FirstEntry(entries[1..], name, namespace)
  }

  class Unstructured {
    var content: map<string, Json>

    constructor (content: map<string, Json>)
      ensures this.content == content
    {
      this.content := content;
    }

    /** `EnrichWithResourceStatus` onto this object; None stands for a nil parent. */
    method Enrich(parent: Option<Json>)
      modifies this
      ensures content == Enriched(old(content), parent)
    {
      if parent.None? {
        return;
      }
      var entries := NestedSlice(parent.value, STATUS_PATH);
      if !entries.Items? {
        return;
      }
      var nestedName, nestedNamespace := GetName(Obj(content)), GetNamespace(Obj(content));
      for i := 0 to |entries.items|
        invariant content == old(content)
        invariant FirstEntry(entries.items, nestedName, nestedNamespace) ==
          FirstEntry(entries.items[i..], nestedName, nestedNamespace)
      {
        var entry := entries.items[i];
        if SpeaksOf(entry, nestedName, nestedNamespace) {
          if FEEDBACK in entry.fields {
            content := content[FEEDBACK := entry.fields[FEEDBACK]];
          }
          if CONDITIONS in entry.fields {
            content := content[CONDITIONS := entry.fields[CONDITIONS]];
          }
          MembersDistinct();
          return;
        }
        assert entries.items[i..][1..] == entries.items[i + 1..];
      }
    }
  }

  lemma MembersDistinct()
    ensures FEEDBACK != CONDITIONS && FEEDBACK != "metadata" && CONDITIONS != "metadata"
  {
    assert FEEDBACK[0] != CONDITIONS[0] && "metadata"[0] == 'm';
  }

  function Copied(content: map<string, Json>, entry: map<string, Json>, name: string): map<string, Json> {
    if name in entry then content[name := entry[name]] else content
  }

  function Enriched(content: map<string, Json>, parent: Option<Json>): map<string, Json> {
    if parent.None? || !NestedSlice(parent.value, STATUS_PATH).Items? then content
    else
      var entry := FirstEntry(NestedSlice(parent.value, STATUS_PATH).items, GetName(Obj(content)),
                              GetNamespace(Obj(content)));
      if entry.None? then content else Copied(Copied(content, entry.value, FEEDBACK), entry.value, CONDITIONS)
  }

  /** Enriching touches only the two status members, so identity stays and doing it again changes nothing. */
  lemma EnrichOnce(content: map<string, Json>, parent: Option<Json>)
    ensures var after := Enriched(content, parent);
            && (forall k :: k != FEEDBACK && k != CONDITIONS ==>
                (k in after <==> k in content) && (k in content ==> after[k] == content[k]))
            && Enriched(after, parent) == after
  {
    var after := Enriched(content, parent);
    MembersDistinct();
    SameIdentity(content, after);
  }

  lemma SameIdentity(a: map<string, Json>, b: map<string, Json>)
    requires ("metadata" in a <==> "metadata" in b) && ("metadata" in a ==> a["metadata"] == b["metadata"])
    ensures GetName(Obj(a)) == GetName(Obj(b)) && GetNamespace(Obj(a)) == GetNamespace(Obj(b))
  {
    assert ["metadata", "name"][1..] == ["name"] && ["metadata", "namespace"][1..] == ["namespace"];
  }

  // ---- What is copied, and from where ----

  /** The entry's identity, read path by path. */
  ghost predicate Identifies(entry: Json, name: string, namespace: string) {
    At(entry, ["resourceMeta", "name"]) == Some(Str(name))
    && At(entry, ["resourceMeta", "namespace"]) == Some(Str(namespace))
  }

  lemma IdentifiesIff(entry: Json, name: string, namespace: string)
    ensures Identifies(entry, name, namespace) <==> SpeaksOf(entry, name, namespace)
  {
    assert ["resourceMeta"] + ["name"] == ["resourceMeta", "name"];
    assert ["resourceMeta"] + ["namespace"] == ["resourceMeta", "namespace"];
    AtStep(entry, "resourceMeta", ["name"]);
    AtStep(entry, "resourceMeta", ["namespace"]);
    AtMember(Member(entry, "resourceMeta"), "name");
    AtMember(Member(entry, "resourceMeta"), "namespace");
  }

  lemma {:induction false} FirstEntryIs(entries: seq<Json>, name: string, namespace: string, i: nat)
    requires i < |entries| && SpeaksOf(entries[i], name, namespace)
    requires forall j :: 0 <= j < i ==> !SpeaksOf(entries[j], name, namespace)
    ensures FirstEntry(entries, name, namespace) == Some(entries[i].fields)
  {
    hide SpeaksOf;
    if i > 0 { FirstEntryIs(entries[1..], name, namespace, i - 1); }
    assert entries[i].Obj? by { IsObject(entries[i], name, namespace); }
  }

  lemma IsObject(entry: Json, name: string, namespace: string)
    requires SpeaksOf(entry, name, namespace)
    ensures entry.Obj?
  {
  }

  /** A member afterwards: the entry's, where it has one, and else what it was. */
  ghost predicate Taken(before: map<string, Json>, after: map<string, Json>, entry: Json, name: string) {
    if At(entry, [name]).Some? then name in after && after[name] == At(entry, [name]).value
    else (name in after <==> name in before) && (name in before ==> after[name] == before[name])
  }

  /** The list of reported manifests, read from a parent. */
  lemma StatusEntries(parent: Json, entries: seq<Json>)
    ensures NestedSlice(parent, STATUS_PATH) == Items(entries)
       <==> At(parent, ["status", "resourceStatus", "manifests"]) == Some(Arr(entries))
  {
    var path := ["status", "resourceStatus", "manifests"];
    assert path[1..] == ["resourceStatus", "manifests"] && path[1..][1..] == ["manifests"] && path[1..][1..][1..] == [];
    SliceIsAt(parent, path, entries);
  }

  lemma {:induction false} SliceIsAt(doc: Json, path: seq<string>, entries: seq<Json>)
    ensures NestedSlice(doc, path) == Items(entries) <==> At(doc, path) == Some(Arr(entries))
    decreases |path|
  {
    if path != [] && path[0] in Members(doc) {
      SliceIsAt(Members(doc)[path[0]], path[1..], entries);
    }
  }

  /**
   * The first reported manifest of the object's name and namespace gives it its feedback and its
   * conditions, each if it has them; without such a manifest the object stays as it is.
   */
  lemma EnrichedMeans(content: map<string, Json>, parent: Json, entries: seq<Json>)
    requires At(parent, ["status", "resourceStatus", "manifests"]) == Some(Arr(entries))
    ensures var after, name, namespace := Enriched(content, Some(parent)), GetName(Obj(content)),
              GetNamespace(Obj(content));
            && ((forall e :: e in entries ==> !Identifies(e, name, namespace)) ==> after == content)
            && forall i :: 0 <= i < |entries| && Identifies(entries[i], name, namespace)
                           && (forall j :: 0 <= j < i ==> !Identifies(entries[j], name, namespace)) ==>
                 Taken(content, after, entries[i], "statusFeedback") && Taken(content, after, entries[i], "conditions")
  {
    hide GetName, GetNamespace, Identifies, NestedSlice, SpeaksOf, At;
    StatusEntries(parent, entries);
    var name, namespace := GetName(Obj(content)), GetNamespace(Obj(content));
    forall e { IdentifiesIff(e, name, namespace); }
    MembersDistinct();
    forall i | 0 <= i < |entries| && Identifies(entries[i], name, namespace)
               && (forall j :: 0 <= j < i ==> !Identifies(entries[j], name, namespace))
      ensures var after := Enriched(content, Some(parent));
              Taken(content, after, entries[i], "statusFeedback") && Taken(content, after, entries[i], "conditions")
    {
      FirstEntryIs(entries, name, namespace, i);
      AtMember(entries[i], "statusFeedback");
      AtMember(entries[i], "conditions");
      IsObject(entries[i], name, namespace);
    }
  }

  /** Without a parent, or without a list of reported manifests in it, nothing is copied. */
  lemma NothingReported(content: map<string, Json>, parent: Option<Json>)
    requires parent.Some? ==> forall entries ::
      At(parent.value, ["status", "resourceStatus", "manifests"]) != Some(Arr(entries))
    ensures Enriched(content, parent) == content
  {
    hide At, NestedSlice;
    if parent.Some? && NestedSlice(parent.value, STATUS_PATH).Items? {
      StatusEntries(parent.value, NestedSlice(parent.value, STATUS_PATH).items);
    }
  }
}
