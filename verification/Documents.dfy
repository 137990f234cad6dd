// ManifestWorks as the JSON documents Maestro holds, and what a merge patch does to them.
module Documents {
  import opened Wrappers
  import opened Json
  import opened Work
  import opened Status

  /** A stored work: what an adapter applied, and the status subtree written by the agent. */
  datatype Stored = Stored(work: ManifestWork, status: WorkStatus)

  // Member names, as functions so that proofs can treat them as distinct atoms.
  function MetadataField(): string { "metadata" }
  function SpecField(): string { "spec" }
  function StatusField(): string { "status" }
  function NameField(): string { "name" }
  function NamespaceField(): string { "namespace" }
  function LabelsField(): string { "labels" }
  function AnnotationsField(): string { "annotations" }
  function WorkloadField(): string { "workload" }
  function ManifestsField(): string { "manifests" }
  function DeleteOptionField(): string { "deleteOption" }
  function ConfigsField(): string { "manifestConfigs" }
  function PolicyField(): string { "propagationPolicy" }

  lemma NamesDistinct()
    ensures MetadataField() != SpecField() && MetadataField() != StatusField() && SpecField() != StatusField()
    ensures NameField() != NamespaceField() && NameField() != LabelsField() && NameField() != AnnotationsField()
    ensures NamespaceField() != LabelsField() && NamespaceField() != AnnotationsField()
    ensures LabelsField() != AnnotationsField()
    ensures WorkloadField() != DeleteOptionField() && WorkloadField() != ConfigsField()
    ensures DeleteOptionField() != ConfigsField()
  {
    assert LabelsField()[0] != MetadataField()[0] && SpecField()[1] != StatusField()[1];
  }

  /** `omitempty`: members whose value is absent are left out. */
  function Present(members: map<string, Option<Json>>): (doc: Json)
    ensures doc.Obj?
  {
    Obj(map k | k in members && members[k].Some? :: members[k].value)
  }

  function OptionalMap(m: Option<map<string, string>>): Option<Json> {
    if m.Some? then Some(StringObject(m.value)) else None
  }

  function OptionalList(items: seq<Json>): Option<Json> {
    if items == [] then None else Some(Arr(items))
  }

  function OptionalDelete(policy: Option<string>): Option<Json> {
    if policy.Some? then Some(StringObject(map[PolicyField() := policy.value])) else None
  }

  function Workload(manifests: seq<Json>): Json {
    Present(map[ManifestsField() := OptionalList(manifests)])
  }

  function SpecSlots(spec: WorkSpec): Slots {
    map[
      WorkloadField() := Some(Workload(spec.manifests)),
      DeleteOptionField() := OptionalDelete(spec.deleteOption),
      ConfigsField() := OptionalList(spec.configs)]
  }

  function Spec(spec: WorkSpec): Json {
    Present(SpecSlots(spec))
  }

  function MetadataSlots(work: ManifestWork): Slots {
    map[
      NameField() := Some(Str(work.name)),
      NamespaceField() := Some(Str(work.namespace)),
      LabelsField() := OptionalMap(work.labels),
      AnnotationsField() := OptionalMap(work.annotations)]
  }

  function Metadata(work: ManifestWork): Json {
    Present(MetadataSlots(work))
  }

  function DocumentSlots(s: Stored): Slots {
    map[MetadataField() := Some(Metadata(s.work)), SpecField() := Some(Spec(s.work.spec)),
        StatusField() := Some(StatusJson(s.status))]
  }

  function Document(s: Stored): Json {
    Present(DocumentSlots(s))
  }

  /** A nil Go map is marshalled as null. */
  function MapOrNull(m: Option<map<string, string>>): Json {
    if m.Some? then StringObject(m.value) else Null
  }

  function PatchMetadata(work: ManifestWork): Json {
    Present(map[LabelsField() := Some(MapOrNull(work.labels)), AnnotationsField() := Some(MapOrNull(work.annotations))])
  }

  /** `createManifestWorkPatch`. */
  function PatchDocument(work: ManifestWork): Json {
    Present(map[MetadataField() := Some(PatchMetadata(work)), SpecField() := Some(Spec(work.spec))])
  }

  function MergedMap(base: Option<map<string, string>>, patch: Option<map<string, string>>)
    : Option<map<string, string>>
  {
    if patch.None? then None else Some(base.GetOr(map[]) + patch.value)
  }

  function PatchedSpec(base: WorkSpec, patch: WorkSpec): WorkSpec {
    WorkSpec(
      if patch.manifests == [] then base.manifests else patch.manifests,
      if patch.deleteOption.None? then base.deleteOption else patch.deleteOption,
      if patch.configs == [] then base.configs else patch.configs)
  }

  /** What patching means for the typed work: nil maps erase, empty lists and absent options leave alone. */
  function Patched(base: ManifestWork, patch: ManifestWork): ManifestWork {
    ManifestWork(base.name, base.namespace,
      MergedMap(base.labels, patch.labels), MergedMap(base.annotations, patch.annotations),
      PatchedSpec(base.spec, patch.spec))
  }

  function OrNull(doc: Option<Json>): Json {
    doc.GetOr(Null)
  }

  type Slots = map<string, Option<Json>>

  /** One slot after a merge: silent patches keep, null erases, the rest is merged. */
  function Slot(base: Option<Json>, patch: Option<Json>): Option<Json> {
    if patch.None? then base else if patch.value.Null? then None else Some(MergePatch(OrNull(base), patch.value))
  }

  lemma MergePresent(a: Slots, b: Slots, c: Slots)
    requires b.Keys <= a.Keys == c.Keys
    requires forall k :: k in c ==> c[k] == Slot(a[k], if k in b then b[k] else None)
    ensures MergePatch(Present(a), Present(b)) == Present(c)
  {
    hide MergePatch;
    var merged := MergePatch(Present(a), Present(b));
    MergeMember(Present(a), Present(b), "");
    forall k
      ensures k in merged.fields <==> k in Present(c).fields
      ensures k in merged.fields ==> merged.fields[k] == Present(c).fields[k]
    {
      MergeMember(Present(a), Present(b), k);
    }
    assert merged.fields == Present(c).fields;
  }

  lemma MergeMap(base: Option<map<string, string>>, m: map<string, string>)
    ensures MergePatch(OrNull(OptionalMap(base)), StringObject(m)) == StringObject(base.GetOr(map[]) + m)
  {
    var target := OrNull(OptionalMap(base));
    var merged := MergePatch(target, StringObject(m));
    var expected := StringObject(base.GetOr(map[]) + m);
    hide MergePatch;
    MergeMember(target, StringObject(m), "");
    forall k
      ensures k in merged.fields <==> k in expected.fields
      ensures k in merged.fields ==> merged.fields[k] == expected.fields[k]
    {
      MergeMember(target, StringObject(m), k);
      if k in m { MergeScalar(Member(target, k), Str(m[k])); }
    }
    assert merged.fields == expected.fields;
  }

  lemma MergeWorkload(base: seq<Json>, patch: seq<Json>)
    ensures MergePatch(Workload(base), Workload(patch)) == Workload(if patch == [] then base else patch)
  {
    hide Present, ManifestsField;
    MergeScalar(OrNull(OptionalList(base)), Arr(patch));
    MergePresent(map[ManifestsField() := OptionalList(base)], map[ManifestsField() := OptionalList(patch)],
      map[ManifestsField() := OptionalList(if patch == [] then base else patch)]);
  }

  lemma MergeDelete(base: Option<string>, patch: Option<string>)
    ensures OptionalDelete(if patch.None? then base else patch) == Slot(OptionalDelete(base), OptionalDelete(patch))
  {
    if patch.Some? {
      var before := if base.Some? then Some(map[PolicyField() := base.value]) else None;
      var after := map[PolicyField() := patch.value];
      MergeMap(before, after);
      assert before.GetOr(map[]) + after == after;
    }
  }

  lemma WorkloadIsObject(manifests: seq<Json>)
    ensures Workload(manifests).Obj?
  {
  }

  lemma MergeConfigs(base: seq<Json>, patch: seq<Json>)
    ensures OptionalList(if patch == [] then base else patch) == Slot(OptionalList(base), OptionalList(patch))
  {
    MergeScalar(OrNull(OptionalList(base)), Arr(patch));
  }

  lemma MergeSpec(base: WorkSpec, patch: WorkSpec)
    ensures MergePatch(Spec(base), Spec(patch)) == Spec(PatchedSpec(base, patch))
  {
    hide WorkloadField, DeleteOptionField, ConfigsField, Present, MergePatch, Workload, OptionalDelete;
    NamesDistinct();
    MergeDelete(base.deleteOption, patch.deleteOption);
    MergeWorkload(base.manifests, patch.manifests);
    MergeConfigs(base.configs, patch.configs);
    WorkloadIsObject(base.manifests);
    WorkloadIsObject(patch.manifests);
    MergePresent(SpecSlots(base), SpecSlots(patch), SpecSlots(PatchedSpec(base, patch)));
  }

  lemma MergeOptionalMap(base: Option<map<string, string>>, patch: Option<map<string, string>>)
    ensures OptionalMap(MergedMap(base, patch)) == Slot(OptionalMap(base), Some(MapOrNull(patch)))
  {
    if patch.Some? { MergeMap(base, patch.value); }
  }

  lemma MergeMetadata(base: ManifestWork, patch: ManifestWork)
    ensures MergePatch(Metadata(base), PatchMetadata(patch)) == Metadata(Patched(base, patch))
  {
    hide NameField, NamespaceField, LabelsField, AnnotationsField, Present, MergePatch, OptionalMap, MapOrNull,
      MergedMap, PatchedSpec;
    NamesDistinct();
    MergeOptionalMap(base.labels, patch.labels);
    MergeOptionalMap(base.annotations, patch.annotations);
    MergePresent(MetadataSlots(base),
      map[LabelsField() := Some(MapOrNull(patch.labels)), AnnotationsField() := Some(MapOrNull(patch.annotations))],
      MetadataSlots(Patched(base, patch)));
  }

  lemma MergeSections(metadata: Json, spec: Json, status: Json, newMetadata: Json, newSpec: Json)
    requires !newMetadata.Null? && !newSpec.Null?
    ensures MergePatch(Present(map[MetadataField() := Some(metadata), SpecField() := Some(spec),
                                   StatusField() := Some(status)]),
                       Present(map[MetadataField() := Some(newMetadata), SpecField() := Some(newSpec)]))
         == Present(map[MetadataField() := Some(MergePatch(metadata, newMetadata)),
                        SpecField() := Some(MergePatch(spec, newSpec)), StatusField() := Some(status)])
  {
    NamesDistinct();
    hide MetadataField, SpecField, StatusField, Present, MergePatch;
    MergePresent(map[MetadataField() := Some(metadata), SpecField() := Some(spec), StatusField() := Some(status)],
      map[MetadataField() := Some(newMetadata), SpecField() := Some(newSpec)],
      map[MetadataField() := Some(MergePatch(metadata, newMetadata)), SpecField() := Some(MergePatch(spec, newSpec)),
          StatusField() := Some(status)]);
  }

  lemma PartsAreObjects(patch: ManifestWork)
    ensures Spec(patch.spec).Obj? && PatchMetadata(patch).Obj?
  {
  }

  /** Merging the patch document into the stored document is exactly the typed patch; status is untouched. */
  lemma PatchIsMerge(s: Stored, patch: ManifestWork)
    ensures MergePatch(Document(s), PatchDocument(patch)) == Document(Stored(Patched(s.work, patch), s.status))
  {
    hide MetadataField, SpecField, StatusField, Present, MergePatch, SpecSlots, MetadataSlots, PatchMetadata,
      PatchedSpec, MergedMap, Spec, Metadata;
    MergeSpec(s.work.spec, patch.spec);
    MergeMetadata(s.work, patch);
    PartsAreObjects(patch);
    MergeSections(Metadata(s.work), Spec(s.work.spec), StatusJson(s.status), PatchMetadata(patch), Spec(patch.spec));
  }

  /** The annotations read from a stored document are those of the stored work. */
  lemma DocumentAnnotations(s: Stored)
    ensures GetAnnotations(Document(s)) == s.work.annotations
  {
    var metadata := Metadata(s.work);
    assert At(Document(s), [MetadataField(), AnnotationsField()]) == At(metadata, [AnnotationsField()]);
    assert At(metadata, [AnnotationsField()]) == OptionalMap(s.work.annotations);
    if s.work.annotations.Some? {
      StringObjectReads(s.work.annotations.value);
    }
  }

  // ---- The documents, path by path ----

  lemma MetadataSays(work: ManifestWork)
    ensures var doc := Metadata(work);
            && At(doc, ["name"]) == Some(Str(work.name)) && At(doc, ["namespace"]) == Some(Str(work.namespace))
            && At(doc, ["labels"]) == OptionalMap(work.labels)
            && At(doc, ["annotations"]) == OptionalMap(work.annotations)
  {
    hide At, OptionalMap;
    NamesDistinct();
    var doc := Metadata(work);
    AtMember(doc, "name");
    AtMember(doc, "namespace");
    AtMember(doc, "labels");
    AtMember(doc, "annotations");
  }

  lemma SpecSays(spec: WorkSpec)
    ensures var doc := Spec(spec);
            && At(doc, ["workload", "manifests"]) == OptionalList(spec.manifests)
            && At(doc, ["deleteOption", "propagationPolicy"]) ==
              (if spec.deleteOption.Some? then Some(Str(spec.deleteOption.value)) else None)
            && At(doc, ["manifestConfigs"]) == OptionalList(spec.configs)
  {
    hide At, OptionalList;
    NamesDistinct();
    var doc := Spec(spec);
    AtMember(doc, "manifestConfigs");
    assert ["workload"] + ["manifests"] == ["workload", "manifests"];
    AtStep(doc, "workload", ["manifests"]);
    AtMember(Workload(spec.manifests), "manifests");
    assert ["deleteOption"] + ["propagationPolicy"] == ["deleteOption", "propagationPolicy"];
    AtStep(doc, "deleteOption", ["propagationPolicy"]);
    if spec.deleteOption.Some? {
      AtMember(OptionalDelete(spec.deleteOption).value, "propagationPolicy");
    }
  }

  /** A stored document holds each part of its work under the part's own name, and leaves absent ones out. */
  lemma DocumentSays(s: Stored)
    ensures var doc, spec := Document(s), s.work.spec;
            && At(doc, ["metadata", "name"]) == Some(Str(s.work.name))
            && At(doc, ["metadata", "namespace"]) == Some(Str(s.work.namespace))
            && At(doc, ["metadata", "labels"]) ==
              (if s.work.labels.Some? then Some(StringObject(s.work.labels.value)) else None)
            && At(doc, ["metadata", "annotations"]) ==
              (if s.work.annotations.Some? then Some(StringObject(s.work.annotations.value)) else None)
            && At(doc, ["spec", "workload", "manifests"]) ==
              (if spec.manifests == [] then None else Some(Arr(spec.manifests)))
            && At(doc, ["spec", "deleteOption", "propagationPolicy"]) ==
              (if spec.deleteOption.Some? then Some(Str(spec.deleteOption.value)) else None)
            && At(doc, ["spec", "manifestConfigs"]) == (if spec.configs == [] then None else Some(Arr(spec.configs)))
  {
    hide At, Metadata, Spec;
    NamesDistinct();
    MetadataSays(s.work);
    SpecSays(s.work.spec);
    var doc := Document(s);
    assert ["metadata"] + ["name"] == ["metadata", "name"] && ["metadata"] + ["namespace"] == ["metadata", "namespace"];
    assert ["metadata"] + ["labels"] == ["metadata", "labels"];
    assert ["metadata"] + ["annotations"] == ["metadata", "annotations"];
    AtStep(doc, "metadata", ["name"]);
    AtStep(doc, "metadata", ["namespace"]);
    AtStep(doc, "metadata", ["labels"]);
    AtStep(doc, "metadata", ["annotations"]);
    assert ["spec"] + ["workload", "manifests"] == ["spec", "workload", "manifests"];
    assert ["spec"] + ["deleteOption", "propagationPolicy"] == ["spec", "deleteOption", "propagationPolicy"];
    assert ["spec"] + ["manifestConfigs"] == ["spec", "manifestConfigs"];
    AtStep(doc, "spec", ["workload", "manifests"]);
    AtStep(doc, "spec", ["deleteOption", "propagationPolicy"]);
    AtStep(doc, "spec", ["manifestConfigs"]);
  }

  lemma SaysStep(doc: Json, first: string, rest: seq<string>)
    requires doc.Obj? && first in doc.fields
    ensures Says(doc, [first] + rest) == Says(doc.fields[first], rest)
  {
    assert ([first] + rest)[1..] == rest;
  }

  lemma SaysNothing(doc: Json, first: string, rest: seq<string>)
    requires doc.Obj? && first !in doc.fields
    ensures Says(doc, [first] + rest) == Keep
  {
  }

  /** What a patch says of a map: nil deletes it, and otherwise each of its keys is set and the others are kept. */
  lemma MapSays(m: Option<map<string, string>>, k: string)
    ensures Says(MapOrNull(m), []) == if m.Some? then Merge else Delete
    ensures m.Some? ==> Says(MapOrNull(m), [k]) == if k in m.value then Set(Str(m.value[k])) else Keep
  {
    if m.Some? {
      assert [k][1..] == [];
      assert k in m.value ==> Says(MapOrNull(m), [k]) == Says(Str(m.value[k]), []);
    }
  }

  lemma MetadataPatchSays(work: ManifestWork, k: string)
    ensures var patch := PatchDocument(work);
            && Says(patch, ["metadata", "name"]) == Says(patch, ["metadata", "namespace"]) == Keep
            && Says(patch, ["metadata", "labels"]) == (if work.labels.Some? then Merge else Delete)
            && Says(patch, ["metadata", "annotations"]) == (if work.annotations.Some? then Merge else Delete)
            && (work.labels.Some? ==>
                Says(patch, ["metadata", "labels", k]) ==
                  if k in work.labels.value then Set(Str(work.labels.value[k])) else Keep)
            && (work.annotations.Some? ==>
                Says(patch, ["metadata", "annotations", k]) ==
                  if k in work.annotations.value then Set(Str(work.annotations.value[k])) else Keep)
  {
    hide Says, MapOrNull;
    NamesDistinct();
    var patch, metadata := PatchDocument(work), PatchMetadata(work);
    MapSays(work.labels, k);
    MapSays(work.annotations, k);
    assert ["metadata"] + ["name"] == ["metadata", "name"] && ["name"] + [] == ["name"];
    SaysStep(patch, "metadata", ["name"]);
    SaysNothing(metadata, "name", []);
    assert ["metadata"] + ["namespace"] == ["metadata", "namespace"] && ["namespace"] + [] == ["namespace"];
    SaysStep(patch, "metadata", ["namespace"]);
    SaysNothing(metadata, "namespace", []);
    assert ["metadata"] + ["labels"] == ["metadata", "labels"] && ["labels"] + [] == ["labels"];
    SaysStep(patch, "metadata", ["labels"]);
    SaysStep(metadata, "labels", []);
    assert ["metadata"] + ["labels", k] == ["metadata", "labels", k] && ["labels"] + [k] == ["labels", k];
    SaysStep(patch, "metadata", ["labels", k]);
    SaysStep(metadata, "labels", [k]);
    assert ["metadata"] + ["annotations"] == ["metadata", "annotations"] && ["annotations"] + [] == ["annotations"];
    SaysStep(patch, "metadata", ["annotations"]);
    SaysStep(metadata, "annotations", []);
    assert ["metadata"] + ["annotations", k] == ["metadata", "annotations", k];
    assert ["annotations"] + [k] == ["annotations", k];
    SaysStep(patch, "metadata", ["annotations", k]);
    SaysStep(metadata, "annotations", [k]);
  }

  lemma SpecPatchSays(work: ManifestWork)
    ensures var patch, spec := PatchDocument(work), work.spec;
            && Says(patch, ["status"]) == Keep
            && Says(patch, ["spec", "workload", "manifests"]) ==
              (if spec.manifests == [] then Keep else Set(Arr(spec.manifests)))
            && Says(patch, ["spec", "deleteOption", "propagationPolicy"]) ==
              (if spec.deleteOption.None? then Keep else Set(Str(spec.deleteOption.value)))
            && Says(patch, ["spec", "manifestConfigs"]) == (if spec.configs == [] then Keep else Set(Arr(spec.configs)))
  {
    hide Says;
    NamesDistinct();
    var patch, spec := PatchDocument(work), Spec(work.spec);
    assert ["status"] + [] == ["status"];
    SaysNothing(patch, "status", []);
    assert ["spec"] + ["workload", "manifests"] == ["spec", "workload", "manifests"];
    SaysStep(patch, "spec", ["workload", "manifests"]);
    assert ["workload"] + ["manifests"] == ["workload", "manifests"];
    SaysStep(spec, "workload", ["manifests"]);
    SlotSays("manifests", Workload(work.spec.manifests));
    assert ["spec"] + ["deleteOption", "propagationPolicy"] == ["spec", "deleteOption", "propagationPolicy"];
    SaysStep(patch, "spec", ["deleteOption", "propagationPolicy"]);
    assert ["deleteOption"] + ["propagationPolicy"] == ["deleteOption", "propagationPolicy"];
    if work.spec.deleteOption.None? {
      SaysNothing(spec, "deleteOption", ["propagationPolicy"]);
    } else {
      SaysStep(spec, "deleteOption", ["propagationPolicy"]);
      SlotSays("propagationPolicy", OptionalDelete(work.spec.deleteOption).value);
    }
    assert ["spec"] + ["manifestConfigs"] == ["spec", "manifestConfigs"];
    SaysStep(patch, "spec", ["manifestConfigs"]);
    SlotSays("manifestConfigs", spec);
  }

  lemma SlotSays(name: string, doc: Json)
    requires doc.Obj?
    ensures name !in doc.fields ==> Says(doc, [name]) == Keep
    ensures name in doc.fields && !doc.fields[name].Obj? && !doc.fields[name].Null? ==>
      Says(doc, [name]) == Set(doc.fields[name])
  {
    assert [name][1..] == [];
    assert name in doc.fields ==> Says(doc, [name]) == Says(doc.fields[name], []);
  }
}
