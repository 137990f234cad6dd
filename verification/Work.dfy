// The parts of a ManifestWork the adapters set, and reading metadata back from JSON objects.
module Work {
  import opened Wrappers
  import opened Json

  datatype WorkSpec = WorkSpec(manifests: seq<Json>, deleteOption: Option<string>, configs: seq<Json>)

  // A None map is Go's nil map.
  datatype ManifestWork = ManifestWork(
    name: string, namespace: string,
    labels: Option<map<string, string>>, annotations: Option<map<string, string>>,
    spec: WorkSpec)

  const GENERATION := "hyperfleet.io/generation"

  /** A JSON object read as a string map: null members read as "", any other non-string spoils the map. */
  function StringMap(doc: Option<Json>): Option<map<string, string>> {
    if doc.Some? && doc.value.Obj?
       && forall k | k in doc.value.fields :: doc.value.fields[k].Str? || doc.value.fields[k].Null?
    then
      var fields := doc.value.fields;
      Some(map k | k in fields :: if fields[k].Str? then fields[k].s else "")
    else
      None
  }

  function StringObject(m: map<string, string>): Json {
    Obj(map k | k in m :: Str(m[k]))
  }

  lemma StringObjectReads(m: map<string, string>)
    ensures StringMap(Some(StringObject(m))) == Some(m)
  {
    assert StringMap(Some(StringObject(m))).value == m;
  }

  function StringAt(doc: Json, path: seq<string>): string {
    var found := At(doc, path);
    if found.Some? && found.value.Str? then found.value.s else ""
  }

  function GetAnnotations(obj: Json): Option<map<string, string>> {
    StringMap(At(obj, ["metadata", "annotations"]))
  }

  function GetLabels(obj: Json): Option<map<string, string>> {
    StringMap(At(obj, ["metadata", "labels"]))
  }

  function GetName(obj: Json): string {
    StringAt(obj, ["metadata", "name"])
  }

  function GetNamespace(obj: Json): string {
    StringAt(obj, ["metadata", "namespace"])
  }

  /** `unstructured.UnmarshalJSON` accepts a JSON object that names its kind. */
  predicate Unmarshals(doc: Json) {
    doc.Obj? && StringAt(doc, ["kind"]) != ""
  }

  // ---- What the readers read, member by member ----

  /** A member as text; a missing member, or one that is no string, reads as "". */
  ghost predicate MemberText(fields: map<string, Json>, name: string, text: string) {
    if name in fields && fields[name].Str? then fields[name] == Str(text) else text == ""
  }

  ghost predicate StringOrNull(doc: Json, text: string) {
    doc == Str(text) || (doc == Null && text == "")
  }

  /** A member as a map of texts, if it is an object whose members are strings or null. */
  ghost predicate MemberMap(fields: map<string, Json>, name: string, m: Option<map<string, string>>) {
    if name in fields && fields[name].Obj?
       && forall k :: k in fields[name].fields ==> fields[name].fields[k].Str? || fields[name].fields[k].Null?
    then m.Some? && m.value.Keys == fields[name].fields.Keys
         && forall k :: k in m.value ==> StringOrNull(fields[name].fields[k], m.value[k])
    else m == None
  }

  lemma MetadataStep(obj: Json, meta: map<string, Json>, name: string)
    requires obj.Obj? && "metadata" in obj.fields && obj.fields["metadata"] == Obj(meta)
    ensures At(obj, ["metadata", name]) == if name in meta then Some(meta[name]) else None
  {
    assert ["metadata"] + [name] == ["metadata", name];
    AtStep(obj, "metadata", [name]);
    AtMember(Obj(meta), name);
  }

  /** Names, labels and annotations are read from the members of the metadata that bear these names. */
  lemma MetadataReads(obj: Json, meta: map<string, Json>)
    requires obj.Obj? && "metadata" in obj.fields && obj.fields["metadata"] == Obj(meta)
    ensures MemberText(meta, "name", GetName(obj)) && MemberText(meta, "namespace", GetNamespace(obj))
    ensures MemberMap(meta, "labels", GetLabels(obj)) && MemberMap(meta, "annotations", GetAnnotations(obj))
  {
    hide At;
    MetadataStep(obj, meta, "name");
    MetadataStep(obj, meta, "namespace");
    MetadataStep(obj, meta, "labels");
    MetadataStep(obj, meta, "annotations");
  }

  lemma NoMetadata(obj: Json)
    requires !(obj.Obj? && "metadata" in obj.fields && obj.fields["metadata"].Obj?)
    ensures GetName(obj) == GetNamespace(obj) == "" && GetLabels(obj) == GetAnnotations(obj) == None
  {
    forall name: string ensures At(obj, ["metadata", name]) == None {
      assert ["metadata"] + [name] == ["metadata", name];
      AtStep(obj, "metadata", [name]);
      if obj.Obj? && "metadata" in obj.fields { AtMember(obj.fields["metadata"], name); }
    }
  }

  lemma UnmarshalsIff(doc: Json)
    ensures Unmarshals(doc) <==>
      doc.Obj? && "kind" in doc.fields && doc.fields["kind"].Str? && doc.fields["kind"].s != ""
  {
    AtMember(doc, "kind");
  }
}
