// The ManifestWork the nodepool adapter builds for a node pool.
module NodePoolManifest {
  import opened Wrappers
  import opened Json
  import opened Text
  import opened Work
  import opened Generation
  import opened Resources
  import HcManifest

  const DEFAULT_DISK_SIZE_GB := 100
  const DEFAULT_DISK_TYPE := "pd-ssd"
  const DEFAULT_MACHINE_TYPE := "n2-standard-4"
  const DEFAULT_REPLICAS := 1

  datatype Input = Input(
    nodePoolID: string, nodePoolName: string, generation: int, clusterID: string, clusterName: string,
    replicas: int, machineType: string, region: string, zone: string, subnet: string,
    diskSizeGB: int, diskType: string, releaseImage: string)

  function WithDefaults(input: Input): Input {
    input.(zone := ZoneOrDefault(input.zone, input.region),
           diskSizeGB := if input.diskSizeGB == 0 then DEFAULT_DISK_SIZE_GB else input.diskSizeGB,
           diskType := if input.diskType == "" then DEFAULT_DISK_TYPE else input.diskType,
           machineType := if input.machineType == "" then DEFAULT_MACHINE_TYPE else input.machineType,
           replicas := if input.replicas == 0 then DEFAULT_REPLICAS else input.replicas)
  }

  function ZoneOrDefault(zone: string, region: string): string {
    if zone == "" then region + "-a" else zone
  }

  function WorkName(nodePoolID: string): string {
    nodePoolID + "-nodepool-adapter"
  }

  const CLUSTER_NAME := "clusterName"

  function NodePoolSpec(input: Input): Json {
    Obj(map[CLUSTER_NAME := Str(input.clusterName), "replicas" := Num(input.replicas),
            "release" := StringObject(map["image" := input.releaseImage]),
            "platform" := Obj(map["type" := Str("GCP"), "gcp" := Gcp(input)])])
  }

  function Gcp(input: Input): Json {
    Obj(map["machineType" := Str(input.machineType), "zone" := Str(input.zone), "subnet" := Str(input.subnet),
            "bootDisk" := BootDisk(input)])
  }

  function BootDisk(input: Input): Json {
    Obj(map["diskSizeGB" := Num(input.diskSizeGB), "diskType" := Str(input.diskType)])
  }

  function NodePool(input: Input): Json {
    Resource("NodePool", input.nodePoolName, HcManifest.ClusterNamespace(input.clusterID),
      GenerationNote(input.generation), NodePoolSpec(input))
  }

  function ManifestConfigs(input: Input): seq<ManifestConfig> {
    [ManifestConfig("nodepools", input.nodePoolName, HcManifest.ClusterNamespace(input.clusterID), "ServerSideApply",
      ["readyCondition", "allNodesHealthyCondition", "replicas", "version"])]
  }

  function WorkLabels(clusterID: string, nodePoolID: string): map<string, string> {
    map["hyperfleet.io/cluster-id" := clusterID, "hyperfleet.io/nodepool-id" := nodePoolID,
        "hyperfleet.io/adapter" := "nodepool-adapter", "hyperfleet.io/component" := "node-pool"]
  }

  function Assemble(input: Input): ManifestWork {
    ManifestWork(WorkName(input.nodePoolID), "", Some(WorkLabels(input.clusterID, input.nodePoolID)),
      Some(GenerationNote(input.generation)),
      WorkSpec([NodePool(input)], Some("Foreground"), ConfigsJson(ManifestConfigs(input))))
  }

  /** Nothing is validated here; a bad generation is caught when the work is applied. */
  function Build(input: Input): ManifestWork {
    Assemble(WithDefaults(input))
  }

  /** The built work passes validation exactly when the node pool's generation is positive. */
  lemma BuildValid(input: Input)
    requires IsInt64(input.generation)
    ensures var work := Build(input);
            && (WorkValid(work) <==> input.generation > 0)
            && GetGeneration(work.annotations) == input.generation
            && work.name == WorkName(input.nodePoolID)
  {
    hide Resource, NodePoolSpec, ManifestValid, ManifestConfigs, WorkLabels;
    NoteGeneration(GenerationNote(input.generation), input.generation);
    if input.generation > 0 {
      var full := WithDefaults(input);
      ResourceValid("NodePool", full.nodePoolName, HcManifest.ClusterNamespace(full.clusterID),
        GenerationNote(full.generation), NodePoolSpec(full), full.generation);
    }
  }

  /** The NodePool, path by path, with the defaults of what was left out. */
  lemma NodePoolSays(input: Input)
    ensures |Build(input).spec.manifests| == 1
    ensures var m := Build(input).spec.manifests[0];
            && Reads(m, ["kind"], "NodePool") && Reads(m, ["metadata", "name"], input.nodePoolName)
            && Reads(m, ["metadata", "namespace"], "clusters-" + input.clusterID)
            && Reads(m, ["spec", "clusterName"], input.clusterName)
            && At(m, ["spec", "replicas"]) == Some(Num(if input.replicas == 0 then 1 else input.replicas))
            && Reads(m, ["spec", "release", "image"], input.releaseImage)
            && At(m, ["spec", "release"]) == Some(StringObject(map["image" := input.releaseImage]))
            && Reads(m, ["spec", "platform", "type"], "GCP")
            && Reads(m, ["spec", "platform", "gcp", "machineType"],
                     if input.machineType == "" then "n2-standard-4" else input.machineType)
            && Reads(m, ["spec", "platform", "gcp", "zone"],
                     if input.zone == "" then input.region + "-a" else input.zone)
            && Reads(m, ["spec", "platform", "gcp", "subnet"], input.subnet)
            && At(m, ["spec", "platform", "gcp", "bootDisk", "diskSizeGB"])
               == Some(Num(if input.diskSizeGB == 0 then 100 else input.diskSizeGB))
            && Reads(m, ["spec", "platform", "gcp", "bootDisk", "diskType"],
                     if input.diskType == "" then "pd-ssd" else input.diskType)
  {
    hide Resource, NodePoolSpec, ManifestConfigs, WorkLabels, Reads, StringObject;
    var full := WithDefaults(input);
    var m, spec := NodePool(full), NodePoolSpec(full);
    ResourceSays("NodePool", full.nodePoolName, HcManifest.ClusterNamespace(full.clusterID),
                 GenerationNote(full.generation), spec);
    SpecSays(full);
    SpecAt(m, spec, ["clusterName"]);
    SpecAt(m, spec, ["replicas"]);
    SpecAt(m, spec, ["release", "image"]);
    SpecAt(m, spec, ["release"]);
    SpecAt(m, spec, ["platform", "type"]);
    SpecAt(m, spec, ["platform", "gcp", "machineType"]);
    SpecAt(m, spec, ["platform", "gcp", "zone"]);
    SpecAt(m, spec, ["platform", "gcp", "subnet"]);
    SpecAt(m, spec, ["platform", "gcp", "bootDisk", "diskSizeGB"]);
    SpecAt(m, spec, ["platform", "gcp", "bootDisk", "diskType"]);
    PathsUnderSpec();
  }

  lemma SpecAt(m: Json, spec: Json, path: seq<string>)
    requires At(m, ["spec"]) == Some(spec)
    ensures At(m, ["spec"] + path) == At(spec, path)
    ensures forall text :: Reads(spec, path, text) ==> Reads(m, ["spec"] + path, text)
  {
    assert ["spec"][1..] == [];
    AtStep(m, "spec", path);
  }

  lemma PathsUnderSpec()
    ensures ["spec"] + ["clusterName"] == ["spec", "clusterName"] && ["spec"] + ["replicas"] == ["spec", "replicas"]
    ensures ["spec"] + ["release", "image"] == ["spec", "release", "image"]
    ensures ["spec"] + ["release"] == ["spec", "release"]
    ensures ["spec"] + ["platform", "type"] == ["spec", "platform", "type"]
    ensures ["spec"] + ["platform", "gcp", "machineType"] == ["spec", "platform", "gcp", "machineType"]
    ensures ["spec"] + ["platform", "gcp", "zone"] == ["spec", "platform", "gcp", "zone"]
    ensures ["spec"] + ["platform", "gcp", "subnet"] == ["spec", "platform", "gcp", "subnet"]
    ensures ["spec"] + ["platform", "gcp", "bootDisk", "diskSizeGB"] ==
      ["spec", "platform", "gcp", "bootDisk", "diskSizeGB"]
    ensures ["spec"] + ["platform", "gcp", "bootDisk", "diskType"] ==
      ["spec", "platform", "gcp", "bootDisk", "diskType"]
  {
  }

  lemma SpecSays(input: Input)
    ensures var spec := NodePoolSpec(input);
            && Reads(spec, ["clusterName"], input.clusterName) && At(spec, ["replicas"]) == Some(Num(input.replicas))
            && Reads(spec, ["release", "image"], input.releaseImage)
            && At(spec, ["release"]) == Some(StringObject(map["image" := input.releaseImage]))
            && Reads(spec, ["platform", "type"], "GCP")
            && Reads(spec, ["platform", "gcp", "machineType"], input.machineType)
            && Reads(spec, ["platform", "gcp", "zone"], input.zone)
            && Reads(spec, ["platform", "gcp", "subnet"], input.subnet)
            && At(spec, ["platform", "gcp", "bootDisk", "diskSizeGB"]) == Some(Num(input.diskSizeGB))
            && Reads(spec, ["platform", "gcp", "bootDisk", "diskType"], input.diskType)
  {
    hide StringObject, Reads, Gcp;
    var spec, gcp := NodePoolSpec(input), Gcp(input);
    var platform := spec.fields["platform"];
    ReadsMember(spec, "clusterName", input.clusterName);
    AtMember(spec, "replicas");
    AtMember(spec, "release");
    ReadsText(map["image" := input.releaseImage], "image");
    ReadsUnder(spec, "release", ["image"], input.releaseImage);
    assert ["release"] + ["image"] == ["release", "image"];
    ReadsMember(platform, "type", "GCP");
    ReadsUnder(spec, "platform", ["type"], "GCP");
    assert ["platform"] + ["type"] == ["platform", "type"];
    GcpSays(input);
    InGcp(spec, platform, gcp, ["machineType"]);
    InGcp(spec, platform, gcp, ["zone"]);
    InGcp(spec, platform, gcp, ["subnet"]);
    InGcp(spec, platform, gcp, ["bootDisk", "diskSizeGB"]);
    InGcp(spec, platform, gcp, ["bootDisk", "diskType"]);
    assert ["platform", "gcp"] + ["machineType"] == ["platform", "gcp", "machineType"];
    assert ["platform", "gcp"] + ["zone"] == ["platform", "gcp", "zone"];
    assert ["platform", "gcp"] + ["subnet"] == ["platform", "gcp", "subnet"];
    assert ["platform", "gcp"] + ["bootDisk", "diskSizeGB"] == ["platform", "gcp", "bootDisk", "diskSizeGB"];
    assert ["platform", "gcp"] + ["bootDisk", "diskType"] == ["platform", "gcp", "bootDisk", "diskType"];
  }

  lemma InGcp(spec: Json, platform: Json, gcp: Json, path: seq<string>)
    requires "platform" in Members(spec) && Members(spec)["platform"] == platform
    requires "gcp" in Members(platform) && Members(platform)["gcp"] == gcp
    ensures At(spec, ["platform", "gcp"] + path) == At(gcp, path)
    ensures forall text :: Reads(gcp, path, text) ==> Reads(spec, ["platform", "gcp"] + path, text)
  {
    AtStep(spec, "platform", ["gcp"] + path);
    AtStep(platform, "gcp", path);
    assert ["platform"] + (["gcp"] + path) == ["platform", "gcp"] + path;
  }

  lemma GcpSays(input: Input)
    ensures var gcp := Gcp(input);
            && Reads(gcp, ["machineType"], input.machineType) && Reads(gcp, ["zone"], input.zone)
            && Reads(gcp, ["subnet"], input.subnet)
            && At(gcp, ["bootDisk", "diskSizeGB"]) == Some(Num(input.diskSizeGB))
            && Reads(gcp, ["bootDisk", "diskType"], input.diskType)
  {
    hide Reads;
    var gcp, disk := Gcp(input), BootDisk(input);
    ReadsMember(gcp, "machineType", input.machineType);
    ReadsMember(gcp, "zone", input.zone);
    ReadsMember(gcp, "subnet", input.subnet);
    AtStep(gcp, "bootDisk", ["diskSizeGB"]);
    AtMember(disk, "diskSizeGB");
    ReadsMember(disk, "diskType", input.diskType);
    ReadsUnder(gcp, "bootDisk", ["diskType"], input.diskType);
    assert ["bootDisk"] + ["diskSizeGB"] == ["bootDisk", "diskSizeGB"]
      && ["bootDisk"] + ["diskType"] == ["bootDisk", "diskType"];
  }

  /** The work itself, and how its one object is tracked. */
  lemma WorkSays(input: Input)
    requires IsInt64(input.generation)
    ensures var work := Build(input);
            && work.name == input.nodePoolID + "-nodepool-adapter" && work.namespace == ""
            && work.labels == Some(map["hyperfleet.io/cluster-id" := input.clusterID,
                                       "hyperfleet.io/nodepool-id" := input.nodePoolID,
                                       "hyperfleet.io/adapter" := "nodepool-adapter",
                                       "hyperfleet.io/component" := "node-pool"])
            && work.spec.deleteOption == Some("Foreground")
            && GetGeneration(GetAnnotations(work.spec.manifests[0])) == input.generation
            && |work.spec.configs| == 1
            && ConfigAt(work.spec.configs[0], "nodepools", input.nodePoolName, "clusters-" + input.clusterID,
                        "ServerSideApply",
                        ["readyCondition", "allNodesHealthyCondition", "replicas", "version"])
  {
    hide Resource, NodePoolSpec, GetAnnotations, GetGeneration, ConfigJson, ConfigAt;
    var full := WithDefaults(input);
    NoteGeneration(GenerationNote(full.generation), full.generation);
    ResourceReads("NodePool", full.nodePoolName, HcManifest.ClusterNamespace(full.clusterID),
                  GenerationNote(full.generation),
                  NodePoolSpec(full));
    ConfigSays(ManifestConfigs(full)[0]);
  }

  /** Where a built NodePool says it lives and which cluster it says it belongs to. */
  lemma NodePoolRefersTo(input: Input)
    ensures var m := Build(input).spec.manifests[0];
            && GetNamespace(m) == HcManifest.ClusterNamespace(input.clusterID)
            && StringAt(m, ["spec", CLUSTER_NAME]) == input.clusterName
  {
    hide Resource, NodePoolSpec, ManifestConfigs, WorkLabels;
    var full := WithDefaults(input);
    NodePoolSays(input);
    ResourceReads("NodePool", full.nodePoolName, HcManifest.ClusterNamespace(full.clusterID),
                  GenerationNote(full.generation),
                  NodePoolSpec(full));
  }

  /** Works of the two adapters never share a name, and each adapter's names are one-to-one. */
  lemma NamesApart(a: string, b: string)
    ensures HcManifest.WorkName(a) != WorkName(b)
    ensures HcManifest.WorkName(a) == HcManifest.WorkName(b) <==> a == b
    ensures WorkName(a) == WorkName(b) <==> a == b
  {
    var h, n := HcManifest.WorkName(a), WorkName(b);
    assert h[|h| - 11] == '-' && n[|n| - 11] == 'o';
    assert HcManifest.WorkName(a)[..|a|] == a && HcManifest.WorkName(b)[..|b|] == b;
    assert WorkName(a)[..|a|] == a && WorkName(b)[..|b|] == b;
    assert |"-hc-adapter"| == 11 && |"-nodepool-adapter"| == 17;
  }

  lemma SpecInjective(a: Input, b: Input)
    requires NodePoolSpec(a) == NodePoolSpec(b)
    ensures a.clusterName == b.clusterName && a.replicas == b.replicas && a.releaseImage == b.releaseImage
    ensures a.machineType == b.machineType
    ensures a.zone == b.zone && a.subnet == b.subnet && a.diskSizeGB == b.diskSizeGB && a.diskType == b.diskType
  {
    hide StringObject, Gcp;
    var s, t := NodePoolSpec(a).fields, NodePoolSpec(b).fields;
    assert s[CLUSTER_NAME] == t[CLUSTER_NAME] && s["replicas"] == t["replicas"] && s["release"] == t["release"];
    assert s["platform"] == t["platform"] && s["platform"].fields["gcp"] == t["platform"].fields["gcp"];
    ImageInjective(a.releaseImage, b.releaseImage);
    GcpInjective(a, b);
  }

  lemma GcpInjective(a: Input, b: Input)
    requires Gcp(a) == Gcp(b)
    ensures a.machineType == b.machineType && a.zone == b.zone && a.subnet == b.subnet
    ensures a.diskSizeGB == b.diskSizeGB && a.diskType == b.diskType
  {
    hide BootDisk;
    var s, t := Gcp(a).fields, Gcp(b).fields;
    assert s["machineType"] == t["machineType"] && s["zone"] == t["zone"] && s["subnet"] == t["subnet"];
    assert s["bootDisk"] == t["bootDisk"];
    DiskInjective(a, b);
  }

  lemma DiskInjective(a: Input, b: Input)
    requires BootDisk(a) == BootDisk(b)
    ensures a.diskSizeGB == b.diskSizeGB && a.diskType == b.diskType
  {
    var s, t := BootDisk(a).fields, BootDisk(b).fields;
    assert s["diskSizeGB"] == t["diskSizeGB"] && s["diskType"] == t["diskType"];
  }

  lemma ImageInjective(a: string, b: string)
    ensures StringObject(map["image" := a]) == StringObject(map["image" := b]) <==> a == b
  {
    assert StringObject(map["image" := a]).fields["image"] == Str(a)
      && StringObject(map["image" := b]).fields["image"] == Str(b);
  }

  /** Nothing in the input but the region, beyond the zone it defaults to, is lost on the way into the work. */
  lemma BuildInjective(a: Input, b: Input)
    requires Build(a) == Build(b) && IsInt64(a.generation) && IsInt64(b.generation)
    ensures WithDefaults(a) == WithDefaults(b).(region := a.region)
  {
    hide NodePoolSpec, ConfigsJson, FormatInt, Resource, StringObject;
    var x, y := WithDefaults(a), WithDefaults(b);
    assert NodePool(x) == NodePool(y);
    ResourceReads("NodePool", x.nodePoolName, HcManifest.ClusterNamespace(x.clusterID), GenerationNote(x.generation),
                  NodePoolSpec(x));
    ResourceReads("NodePool", y.nodePoolName, HcManifest.ClusterNamespace(y.clusterID), GenerationNote(y.generation),
                  NodePoolSpec(y));
    SpecInjective(x, y);
    NamesApart(x.nodePoolID, y.nodePoolID);
    HcManifest.NotesInjective(x.generation, y.generation);
    assert WorkLabels(x.clusterID, x.nodePoolID)["hyperfleet.io/cluster-id"] == x.clusterID;
    assert WorkLabels(y.clusterID, y.nodePoolID)["hyperfleet.io/cluster-id"] == y.clusterID;
  }
}
