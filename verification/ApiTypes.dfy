// HyperFleet API objects, and the typed accessors over adapter status entries.
module ApiTypes {
  import opened Wrappers
  import HcManifest

  datatype Condition = Condition(kind: string, status: string, reason: string)

  // A value of a status entry's free-form data; only strings and booleans are ever read back.
  datatype Datum = Text(s: string) | Flag(b: bool) | Other

  // One adapter's status entry. Timestamps and messages are left out.
  datatype AdapterStatus = AdapterStatus(adapter: string, observedGeneration: int, conditions: seq<Condition>,
        data: map<string, Datum>)

  type AdapterStatuses = seq<AdapterStatus>

  datatype ClusterSpec = ClusterSpec(infraID: string, issuerURL: string, releaseVersion: string,
                                     gcp: HcManifest.GcpConfig)

  datatype Cluster = Cluster(id: string, name: string, generation: int, createdBy: string, spec: ClusterSpec)

  datatype NodePool = NodePool(id: string, clusterID: string, name: string, generation: int, releaseVersion: string,
        region: string, zone: string)

  const PLACEMENT := "placement-adapter"
  const VERSION_RESOLUTION := "version-resolution-adapter"
  const NODE_POOL_VR := "nodepool-vr-adapter"
  const HC := "hc-adapter"
  const NODE_POOL := "nodepool-adapter"

  predicate IsReconciled(conditions: seq<Condition>) {
    exists c :: c in conditions && c.kind == "Reconciled" && c.status == "True"
  }

  /** The scan that opens three of the reconcile loops. */
  method AlreadyReconciled(conditions: seq<Condition>) returns (r: bool)
    ensures r == IsReconciled(conditions)
    ensures r <==> exists c :: c in conditions && c.kind == "Reconciled" && c.status == "True"
  {
    for i := 0 to |conditions|
      invariant forall j :: 0 <= j < i ==> !(conditions[j].kind == "Reconciled" && conditions[j].status == "True")
    {
      if conditions[i].kind == "Reconciled" && conditions[i].status == "True" {
        assert conditions[i] in conditions;
        return true;
      }
    }
    return false;
  }

  /** The first entry of the named adapter. */
  function Find(ss: AdapterStatuses, name: string): (r: Option<AdapterStatus>)
    ensures r.Some? ==> r.value in ss && r.value.adapter == name
    ensures r.None? ==> forall s :: s in ss ==> s.adapter != name
  {
    if ss == [] then None
    else if ss[0].adapter == name then Some(ss[0])
    else Find(ss[1..], name)
  }

  /** `find`, as the loop it is. */
  method FindEntry(ss: AdapterStatuses, name: string) returns (r: Option<AdapterStatus>)
    ensures r == Find(ss, name)
  {
    for i := 0 to |ss|
      invariant forall j :: 0 <= j < i ==> ss[j].adapter != name
      invariant Find(ss, name) == Find(ss[i..], name)
    {
      if ss[i].adapter == name {
        return Some(ss[i]);
      }
      assert ss[i..][1..] == ss[i + 1..];
    }
    return None;
  }

  function StringField(data: map<string, Datum>, key: string): string {
    if key in data && data[key].Text? then data[key].s else ""
  }

  function BoolField(data: map<string, Datum>, key: string): bool {
    key in data && data[key].Flag? && data[key].b
  }

  datatype PlacementData = PlacementData(managementCluster: string, baseDomain: string)

  // None stands for a nil pointer, which is never ready.
  predicate PlacementReady(p: Option<PlacementData>) {
    p.Some? && p.value.managementCluster != "" && p.value.baseDomain != ""
  }

  const MC_KEY := "managementClusterName"
  const DOMAIN_KEY := "baseDomain"

  function ReadPlacement(entry: Option<AdapterStatus>): Option<PlacementData> {
    if entry.None? then None
    else Some(PlacementData(StringField(entry.value.data, MC_KEY), StringField(entry.value.data, DOMAIN_KEY)))
  }

  function Placement(ss: AdapterStatuses): Option<PlacementData> {
    ReadPlacement(Find(ss, PLACEMENT))
  }

  datatype VersionData = VersionData(image: string, version: string, channel: string)

  predicate VersionReady(v: Option<VersionData>) {
    v.Some? && v.value.image != ""
  }

  const IMAGE_KEY := "release_image"
  const VERSION_KEY := "release_version"
  const CHANNEL_KEY := "release_channel"

  function ReadVersion(entry: Option<AdapterStatus>): Option<VersionData> {
    if entry.None? then None
    else
      var data := entry.value.data;
      Some(VersionData(StringField(data, IMAGE_KEY), StringField(data, VERSION_KEY), StringField(data, CHANNEL_KEY)))
  }

  function VersionResolution(ss: AdapterStatuses): Option<VersionData> {
    ReadVersion(Find(ss, VERSION_RESOLUTION))
  }

  function NodePoolVR(ss: AdapterStatuses): Option<VersionData> {
    ReadVersion(Find(ss, NODE_POOL_VR))
  }

  /** Available by condition, or failing that by the data flag. */
  predicate ReadAvailable(entry: Option<AdapterStatus>) {
    entry.Some?
    && ((exists c :: c in entry.value.conditions && c.kind == "Available" && c.status == "True")
        || BoolField(entry.value.data, "available"))
  }

  predicate HcAvailable(ss: AdapterStatuses) {
    ReadAvailable(Find(ss, HC))
  }

  /** `HCAdapter().Available()`: the flag is set by the first matching condition, or else read from the data. */
  method HcIsAvailable(ss: AdapterStatuses) returns (available: bool)
    ensures available == HcAvailable(ss)
  {
    var entry := FindEntry(ss, HC);
    if entry.None? {
      return false;
    }
    var conditions := entry.value.conditions;
    available := false;
    for i := 0 to |conditions|
      invariant !available && forall j :: 0 <= j < i ==>
        !(conditions[j].kind == "Available" && conditions[j].status == "True")
    {
      if conditions[i].kind == "Available" && conditions[i].status == "True" {
        assert conditions[i] in conditions;
        available := true;
        break;
      }
    }
    if !available {
      available := BoolField(entry.value.data, "available");
    }
  }

  /** A status PUT replaces the adapter's entry, or adds one. */
  function PutStatus(ss: AdapterStatuses, entry: AdapterStatus): AdapterStatuses {
    if ss == [] then [entry]
    else if ss[0].adapter == entry.adapter then [entry] + ss[1..]
    else [ss[0]] + PutStatus(ss[1..], entry)
  }

  /** After a PUT the adapter's entry is the new one and every other adapter's entry is as before. */
  lemma {:induction false} FindAfterPut(ss: AdapterStatuses, entry: AdapterStatus, name: string)
    ensures Find(PutStatus(ss, entry), name) == if name == entry.adapter then Some(entry) else Find(ss, name)
  {
    if ss != [] && ss[0].adapter != entry.adapter {
      FindAfterPut(ss[1..], entry, name);
    }
  }

  lemma {:induction false} PutSame(ss: AdapterStatuses, entry: AdapterStatus)
    requires Find(ss, entry.adapter) == Some(entry)
    ensures PutStatus(ss, entry) == ss
  {
    if ss[0].adapter != entry.adapter {
      PutSame(ss[1..], entry);
    }
  }

  // ---- What the accessors read, field by field ----

  ghost predicate IsFirst(ss: AdapterStatuses, name: string, i: int) {
    0 <= i < |ss| && ss[i].adapter == name && forall j :: 0 <= j < i ==> ss[j].adapter != name
  }

  /** A data field as text; a missing field, or one that is no string, reads as "". */
  ghost predicate FieldIs(data: map<string, Datum>, key: string, text: string) {
    if key in data && data[key].Text? then data[key] == Text(text) else text == ""
  }

  ghost predicate FieldSet(data: map<string, Datum>, key: string) {
    key in data && data[key].Text? && data[key].s != ""
  }

  ghost predicate VersionFields(data: map<string, Datum>, v: VersionData) {
    && FieldIs(data, "release_image", v.image) && FieldIs(data, "release_version", v.version)
    && FieldIs(data, "release_channel", v.channel)
  }

  ghost predicate SaysAvailable(entry: AdapterStatus) {
    (exists c :: c in entry.conditions && c.kind == "Available" && c.status == "True")
    || ("available" in entry.data && entry.data["available"] == Flag(true))
  }

  lemma {:induction false} FindIs(ss: AdapterStatuses, name: string)
    ensures forall i :: IsFirst(ss, name, i) ==> Find(ss, name) == Some(ss[i])
    ensures Find(ss, name).Some? <==> exists i :: IsFirst(ss, name, i)
  {
    if ss != [] && ss[0].adapter != name {
      FindIs(ss[1..], name);
      forall i ensures IsFirst(ss, name, i) <==> IsFirst(ss[1..], name, i - 1) {
        if IsFirst(ss, name, i) {
          forall j | 0 <= j < i - 1 ensures ss[1..][j].adapter != name { assert ss[1..][j] == ss[j + 1]; }
        }
      }
      if i :| IsFirst(ss[1..], name, i) { assert IsFirst(ss, name, i + 1); }
    } else if ss != [] {
      assert IsFirst(ss, name, 0);
    }
  }

  /** The accessors read the first entry of their adapter, each field under its own key. */
  lemma AccessorsRead(ss: AdapterStatuses, i: nat)
    requires i < |ss| && IsFirst(ss, ss[i].adapter, i)
    ensures var name, data := ss[i].adapter, ss[i].data;
            && (name == "placement-adapter" ==>
                  && Placement(ss).Some?
                  && FieldIs(data, "managementClusterName", Placement(ss).value.managementCluster)
                  && FieldIs(data, "baseDomain", Placement(ss).value.baseDomain))
            && (name == "version-resolution-adapter" ==>
                  VersionResolution(ss).Some? && VersionFields(data, VersionResolution(ss).value))
            && (name == "nodepool-vr-adapter" ==> NodePoolVR(ss).Some? && VersionFields(data, NodePoolVR(ss).value))
            && (name == "hc-adapter" ==> (HcAvailable(ss) <==> SaysAvailable(ss[i])))
  {
    hide Find;
    FindIs(ss, ss[i].adapter);
  }

  /** Without an entry of its adapter an accessor answers nil, and the HostedCluster is not available. */
  lemma AccessorsMissing(ss: AdapterStatuses)
    ensures Placement(ss).None? <==> forall s :: s in ss ==> s.adapter != "placement-adapter"
    ensures VersionResolution(ss).None? <==> forall s :: s in ss ==> s.adapter != "version-resolution-adapter"
    ensures NodePoolVR(ss).None? <==> forall s :: s in ss ==> s.adapter != "nodepool-vr-adapter"
    ensures (forall s :: s in ss ==> s.adapter != "hc-adapter") ==> !HcAvailable(ss)
  {
  }

  function PlacementEntry(generation: int, mc: string, domain: string): (entry: AdapterStatus)
    ensures entry.adapter == PLACEMENT && ReadPlacement(Some(entry)) == Some(PlacementData(mc, domain))
  {
    AdapterStatus(PLACEMENT, generation,
      [Condition("Applied", "True", "PlacementDecided"), Condition("Available", "True", "PlacementReady"),
       Condition("Health", "True", "PlacementReady")],
      map[MC_KEY := Text(mc), DOMAIN_KEY := Text(domain)])
  }

  function VersionEntry(adapter: string, availableReason: string, generation: int, image: string, version: string,
          channel: string): (entry: AdapterStatus)
    ensures entry.adapter == adapter && ReadVersion(Some(entry)) == Some(VersionData(image, version, channel))
  {
    AdapterStatus(adapter, generation,
      [Condition("Applied", "True", "VersionResolved"), Condition("Available", "True", availableReason),
       Condition("Health", "True", "VersionResolved")],
      map[IMAGE_KEY := Text(image), VERSION_KEY := Text(version), CHANNEL_KEY := Text(channel),
          "release_channel_group" := Text("candidate")])
  }
}
