// Kubernetes resources as JSON, and the per-manifest options of a ManifestWork.
module Resources {
  import opened Wrappers
  import opened Json
  import opened Text
  import opened Work
  import opened Generation

  function GenerationNote(generation: int): map<string, string> {
    map[GENERATION := FormatInt(generation)]
  }

  /** A namespaced (or, with namespace "", cluster-scoped) resource. */
  function Resource(kind: string, name: string, namespace: string, annotations: map<string, string>, spec: Json): Json {
    Obj(map[
      "kind" := Str(kind),
      "metadata" := Obj(map["name" := Str(name), "namespace" := Str(namespace),
                            "annotations" := StringObject(annotations)]),
      "spec" := spec])
  }

  // How one manifest is tracked: which object it is, how it is applied, and the feedback asked for.
  datatype ManifestConfig = ManifestConfig(resource: string, name: string, namespace: string, strategy: string,
                                           feedback: seq<string>)

  function ConfigJson(c: ManifestConfig): Json {
    Obj(map["resource" := Str(c.resource), "name" := Str(c.name), "namespace" := Str(c.namespace),
            "strategy" := Str(c.strategy),
            "feedback" := Arr(seq(|c.feedback|, i requires 0 <= i < |c.feedback| => Str(c.feedback[i])))])
  }

  function ConfigsJson(configs: seq<ManifestConfig>): seq<Json> {
    seq(|configs|, i requires 0 <= i < |configs| => ConfigJson(configs[i]))
  }

  lemma NoteGeneration(notes: map<string, string>, generation: int)
    requires IsInt64(generation) && GENERATION in notes && notes[GENERATION] == FormatInt(generation)
    ensures GetGeneration(Some(notes)) == generation
  {
    FormatParse(generation);
  }

  /** The document has this text at this path. */
  ghost predicate Reads(doc: Json, path: seq<string>, text: string) {
    At(doc, path) == Some(Str(text))
  }

  lemma ReadsMember(doc: Json, name: string, text: string)
    requires name in Members(doc) && Members(doc)[name] == Str(text)
    ensures Reads(doc, [name], text)
  {
    AtMember(doc, name);
  }

  lemma ReadsText(m: map<string, string>, name: string)
    requires name in m
    ensures Reads(StringObject(m), [name], m[name])
  {
    AtMember(StringObject(m), name);
  }

  lemma ReadsUnder(doc: Json, name: string, path: seq<string>, text: string)
    requires name in Members(doc) && Reads(Members(doc)[name], path, text)
    ensures Reads(doc, [name] + path, text)
  {
    AtStep(doc, name, path);
  }

  /** The same, path by path. */
  lemma ResourceSays(kind: string, name: string, namespace: string, annotations: map<string, string>, spec: Json)
    ensures var m := Resource(kind, name, namespace, annotations, spec);
            && Reads(m, ["kind"], kind) && Reads(m, ["metadata", "name"], name)
            && Reads(m, ["metadata", "namespace"], namespace) && At(m, ["spec"]) == Some(spec)
  {
    hide StringObject, Reads;
    var m := Resource(kind, name, namespace, annotations, spec);
    var metadata := m.fields["metadata"];
    ReadsMember(m, "kind", kind);
    AtMember(m, "spec");
    ReadsMember(metadata, "name", name);
    ReadsMember(metadata, "namespace", namespace);
    ReadsUnder(m, "metadata", ["name"], name);
    ReadsUnder(m, "metadata", ["namespace"], namespace);
    assert ["metadata"] + ["name"] == ["metadata", "name"] && ["metadata"] + ["namespace"] == ["metadata", "namespace"];
  }

  /** An option entry, as read back: which object, how it is applied, and the feedback asked for. */
  ghost predicate ConfigAt(doc: Json, resource: string, name: string, namespace: string, strategy: string,
                           feedback: seq<string>)
  {
    && Reads(doc, ["resource"], resource) && Reads(doc, ["name"], name) && Reads(doc, ["namespace"], namespace)
    && Reads(doc, ["strategy"], strategy)
    && At(doc, ["feedback"]).Some?
    && var list := At(doc, ["feedback"]).value;
       list.Arr? && |list.items| == |feedback| && forall i :: 0 <= i < |feedback| ==> list.items[i] == Str(feedback[i])
  }

  lemma ConfigSays(c: ManifestConfig)
    ensures ConfigAt(ConfigJson(c), c.resource, c.name, c.namespace, c.strategy, c.feedback)
  {
    hide Reads;
    var doc := ConfigJson(c);
    ReadsMember(doc, "resource", c.resource);
    ReadsMember(doc, "name", c.name);
    ReadsMember(doc, "namespace", c.namespace);
    ReadsMember(doc, "strategy", c.strategy);
    AtMember(doc, "feedback");
  }

  lemma ResourceReads(kind: string, name: string, namespace: string, annotations: map<string, string>, spec: Json)
    ensures var m := Resource(kind, name, namespace, annotations, spec);
            && GetAnnotations(m) == Some(annotations) && GetName(m) == name && GetNamespace(m) == namespace
            && StringAt(m, ["kind"]) == kind && At(m, ["spec"]) == Some(spec)
  {
    var m := Resource(kind, name, namespace, annotations, spec);
    var metadata := m.fields["metadata"];
    AtMember(m, "kind");
    AtMember(m, "spec");
    AtMember(metadata, "name");
    AtMember(metadata, "namespace");
    AtMember(metadata, "annotations");
    assert At(m, ["metadata", "annotations"]) == At(metadata, ["annotations"]);
    assert At(m, ["metadata", "name"]) == At(metadata, ["name"]);
    assert At(m, ["metadata", "namespace"]) == At(metadata, ["namespace"]);
    StringObjectReads(annotations);
  }

  lemma ResourceValid(kind: string, name: string, namespace: string, annotations: map<string, string>, spec: Json,
          generation: int)
    requires kind != "" && IsInt64(generation) && generation > 0
    requires GENERATION in annotations && annotations[GENERATION] == FormatInt(generation)
    ensures ManifestValid(Resource(kind, name, namespace, annotations, spec))
  {
    ResourceReads(kind, name, namespace, annotations, spec);
    NoteGeneration(annotations, generation);
  }
}
