// What every reachable state of the protocol satisfies.
module Invariants {
  import opened Wrappers
  import opened Text
  import opened Work
  import opened Generation
  import opened Documents
  import opened Status
  import opened ApiTypes
  import opened Release
  import opened Upsert
  import opened Protocol
  import Resources
  import HcManifest
  import NodePoolManifest

  // ---- Vocabulary ----

  /** The one resolution of a version: its channel's published payload. */
  ghost function ReleaseOf(s: State, version: string): Option<VersionData> {
    var channel := BuildChannel(version);
    if version != "" && (channel, version) in s.releases
    then Some(VersionData(s.releases[(channel, version)], version, channel)) else None
  }

  ghost predicate Canonical(s: State, v: Option<VersionData>) {
    v.Some? ==> ReleaseOf(s, v.value.version) == v
  }

  ghost function Placed(s: State, cid: string): Option<PlacementData> {
    var p := Placement(Rows(s, cid));
    if PlacementReady(p) then p else None
  }

  function Filed(work: ManifestWork, consumer: string): ManifestWork {
    work.(namespace := consumer)
  }

  function Unfiled(work: ManifestWork): ManifestWork {
    work.(namespace := "")
  }

  function HcName(cid: string): string { HcManifest.WorkName(cid) }
  function NpName(npid: string): string { NodePoolManifest.WorkName(npid) }

  function HcKey(cid: string, p: PlacementData): Key { (p.managementCluster, HcName(cid)) }
  function NpKey(key: PoolKey, p: PlacementData): Key { (p.managementCluster, NpName(key.1)) }

  /** The work is what Build gives for this cluster detail, its version's one resolution and this placement. */
  ghost predicate IsHcWork(s: State, cid: string, c: Cluster, p: PlacementData, work: ManifestWork) {
    var v := ReleaseOf(s, c.spec.releaseVersion);
    v.Some? && HcBuild(cid, c, v.value, p) == Ok(work)
  }

  ghost predicate IsNpWork(s: State, n: NodePool, c: Cluster, work: ManifestWork) {
    var v := ReleaseOf(s, n.releaseVersion);
    v.Some? && work == NpBuild(n, c, v.value.image)
  }

  ghost predicate Snapshot(s: State, cid: string, c: Cluster) {
    cid in s.clusters && c.generation in s.clusters[cid].history && s.clusters[cid].history[c.generation] == c
  }

  ghost predicate PoolSnapshot(s: State, key: PoolKey, n: NodePool) {
    key in s.pools && n.generation in s.pools[key].history && s.pools[key].history[n.generation] == n
  }

  ghost predicate HcThere(s: State, cid: string) {
    Placed(s, cid).Some? && HcKey(cid, Placed(s, cid).value) in s.works
  }

  // ---- Invariants, one piece per process ----

  ghost predicate SameIdentity(c: Cluster, d: Cluster) {
    c.id == d.id && c.name == d.name && c.createdBy == d.createdBy
  }

  ghost predicate RecordInv(s: State, cid: string) {
    cid in s.clusters ==>
      var r := s.clusters[cid];
      r.current in r.history
      && forall g :: g in r.history ==>
           g <= r.current && IsInt64(g) && r.history[g].generation == g && r.history[g].id == cid
           && SameIdentity(r.history[g], r.history[r.current])
  }

  ghost predicate PlInv(s: State, cid: string) {
    match PlOf(s, cid)
    case PlSelect(_) => Placed(s, cid).None?
    case PlPut(e, landed) =>
      e.adapter == PLACEMENT && if landed then Find(Rows(s, cid), PLACEMENT) == Some(e) else Placed(s, cid).None?
    case _ => true
  }

  ghost predicate VrInv(s: State, cid: string) {
    Canonical(s, VersionResolution(Rows(s, cid)))
    && match VrOf(s, cid)
       case VrStatuses(c) => c.spec.releaseVersion != ""
       case VrResolve(c) => c.spec.releaseVersion != ""
       case VrPut(e, landed) =>
         e.adapter == VERSION_RESOLUTION && Canonical(s, ReadVersion(Some(e)))
         && (landed ==> Find(Rows(s, cid), VERSION_RESOLUTION) == Some(e))
       case VrIdle => true
  }

  ghost predicate HcStoredInv(s: State, cid: string) {
    forall m :: (m, HcName(cid)) in s.works ==>
      cid in s.clusters && Placed(s, cid).Some? && Placed(s, cid).value.managementCluster == m
      && HcContent(s, cid, Placed(s, cid).value, s.works[(m, HcName(cid))].work)
  }

  /** A stored hc work is the canonical one for the generation it carries. */
  ghost predicate HcContent(s: State, cid: string, p: PlacementData, w: ManifestWork)
    requires cid in s.clusters
  {
    w.namespace == p.managementCluster && Gen(w) in s.clusters[cid].history
    && IsHcWork(s, cid, s.clusters[cid].history[Gen(w)], p, Unfiled(w))
  }

  ghost predicate HcRowInv(s: State, cid: string) {
    var row := Find(Rows(s, cid), HC);
    row.Some? ==> HcThere(s, cid) && row.value.observedGeneration <= Gen(s.works[HcKey(cid, Placed(s, cid).value)].work)
  }

  /**
   * What an hc process may rely on once it has read the cluster: nothing newer than its snapshot is stored
   * or reported.
   */
  ghost predicate HcHeld(s: State, cid: string, c: Cluster) {
    Snapshot(s, cid, c)
    && (forall m :: (m, HcName(cid)) in s.works ==> Gen(s.works[(m, HcName(cid))].work) <= c.generation)
    && var row := Find(Rows(s, cid), HC); row.Some? ==> row.value.observedGeneration <= c.generation
  }

  ghost predicate HcBuilt(s: State, cid: string, c: Cluster, p: PlacementData, work: ManifestWork) {
    HcHeld(s, cid, c) && Placed(s, cid) == Some(p) && IsHcWork(s, cid, c, p, work)
  }

  ghost predicate HcApplied(s: State, cid: string, c: Cluster, p: PlacementData, work: ManifestWork) {
    HcBuilt(s, cid, c, p, work) && HcKey(cid, p) in s.works
    && s.works[HcKey(cid, p)].work == Filed(work, p.managementCluster)
  }

  ghost predicate HcPcOk(s: State, cid: string, pc: HcPc) {
    match pc
    case HcIdle => true
    case HcStatuses(c) => HcHeld(s, cid, c)
    case HcLookup(c, p, work) => HcBuilt(s, cid, c, p, work)
    case HcWrite(c, p, work, op, landed) =>
      HcBuilt(s, cid, c, p, work)
      && if landed then HcApplied(s, cid, c, p, work) else CanWrite(s.works, HcKey(cid, p), op)
    case HcReadBack(c, p, work) => HcApplied(s, cid, c, p, work)
    case HcPut(c, p, work, e, landed) =>
      HcApplied(s, cid, c, p, work) && e.adapter == HC && e.observedGeneration == c.generation
      && (landed ==> Find(Rows(s, cid), HC) == Some(e))
  }

  ghost predicate HcInv(s: State, cid: string) {
    HcStoredInv(s, cid) && HcRowInv(s, cid) && HcPcOk(s, cid, HcOf(s, cid))
  }

  ghost predicate PoolRecordInv(s: State, key: PoolKey) {
    key in s.pools ==>
      var r := s.pools[key];
      key.0 in s.clusters && r.current in r.history
      && (forall g :: g in r.history ==>
            g <= r.current && IsInt64(g) && r.history[g].generation == g && r.history[g].id == key.1
            && r.history[g].clusterID == key.0)
      && forall k :: k in s.pools && k.1 == key.1 ==> k == key
  }

  ghost predicate NvrInv(s: State, key: PoolKey) {
    Canonical(s, NodePoolVR(PoolRows(s, key)))
    && match NvrOf(s, key)
       case NvrStatuses(n) => n.releaseVersion != ""
       case NvrResolve(n) => n.releaseVersion != "" && BuildNodePoolChannel(n.releaseVersion).Some?
       case NvrPut(e, landed) =>
         e.adapter == NODE_POOL_VR && Canonical(s, ReadVersion(Some(e)))
         && (landed ==> Find(PoolRows(s, key), NODE_POOL_VR) == Some(e))
       case NvrIdle => true
  }

  ghost predicate NpStoredInv(s: State, key: PoolKey) {
    key in s.pools ==> forall m :: (m, NpName(key.1)) in s.works ==>
      HcThere(s, key.0) && Placed(s, key.0).value.managementCluster == m
      && NpContent(s, key, m, s.works[(m, NpName(key.1))].work)
  }

  /** A stored node pool work is the one built for the generation it carries and some detail its cluster has had. */
  ghost predicate NpContent(s: State, key: PoolKey, m: string, w: ManifestWork)
    requires key in s.pools
  {
    w.namespace == m && Gen(w) > 0 && Gen(w) in s.pools[key].history && key.0 in s.clusters
    && exists k ::
         k in s.clusters[key.0].history
         && IsNpWork(s, s.pools[key].history[Gen(w)], s.clusters[key.0].history[k], Unfiled(w))
  }

  ghost predicate NpRowInv(s: State, key: PoolKey) {
    var row := Find(PoolRows(s, key), NODE_POOL);
    row.Some? ==>
      key in s.pools && HcThere(s, key.0) && NpKey(key, Placed(s, key.0).value) in s.works
      && row.value.observedGeneration <= Gen(s.works[NpKey(key, Placed(s, key.0).value)].work)
  }

  ghost predicate NpHeld(s: State, key: PoolKey, n: NodePool) {
    PoolSnapshot(s, key, n)
    && (forall m :: (m, NpName(key.1)) in s.works ==> Gen(s.works[(m, NpName(key.1))].work) <= n.generation)
    && var row := Find(PoolRows(s, key), NODE_POOL); row.Some? ==> row.value.observedGeneration <= n.generation
  }

  ghost predicate NpBuilt(s: State, key: PoolKey, n: NodePool, c: Cluster, p: PlacementData, work: ManifestWork) {
    NpHeld(s, key, n) && Snapshot(s, key.0, c) && Placed(s, key.0) == Some(p) && HcThere(s, key.0)
    && IsNpWork(s, n, c, work) && WorkValid(work)
  }

  ghost predicate NpApplied(s: State, key: PoolKey, n: NodePool, c: Cluster, p: PlacementData, work: ManifestWork) {
    NpBuilt(s, key, n, c, p, work) && NpKey(key, p) in s.works && Gen(s.works[NpKey(key, p)].work) == n.generation
  }

  ghost predicate NpPcOk(s: State, key: PoolKey, pc: NodePoolPc) {
    match pc
    case NpIdle => true
    case NpCluster(n) => NpHeld(s, key, n)
    case NpClusterStatuses(n, c) => NpHeld(s, key, n) && Snapshot(s, key.0, c)
    case NpStatuses(n, c, ss) =>
      NpHeld(s, key, n) && Snapshot(s, key.0, c)
      && (PlacementReady(Placement(ss)) ==> Placed(s, key.0) == Placement(ss))
      && (HcAvailable(ss) ==> HcThere(s, key.0))
    case NpLookup(n, c, p, work) => NpBuilt(s, key, n, c, p, work)
    case NpWrite(n, c, p, work, op, landed) =>
      NpBuilt(s, key, n, c, p, work)
      && if landed then
           NpApplied(s, key, n, c, p, work) && s.works[NpKey(key, p)].work == Filed(work, p.managementCluster)
         else CanWrite(s.works, NpKey(key, p), op)
    case NpReadBack(n, c, p, work) => NpApplied(s, key, n, c, p, work)
    case NpPut(n, c, p, work, e, landed) =>
      NpApplied(s, key, n, c, p, work) && e.adapter == NODE_POOL && e.observedGeneration == n.generation
      && (landed ==> Find(PoolRows(s, key), NODE_POOL) == Some(e))
  }

  ghost predicate NpInv(s: State, key: PoolKey) {
    NpStoredInv(s, key) && NpRowInv(s, key) && NpPcOk(s, key, NpOf(s, key))
  }

  /** Every stored work belongs to a known cluster or node pool. */
  ghost predicate OwnedInv(s: State) {
    forall k :: k in s.works ==>
      (exists cid :: cid in s.clusters && k.1 == HcName(cid)) || (exists key :: key in s.pools && k.1 == NpName(key.1))
  }

  ghost predicate Inv(s: State) {
    (forall cid :: RecordInv(s, cid) && PlInv(s, cid) && VrInv(s, cid) && HcInv(s, cid))
    && (forall key :: PoolRecordInv(s, key) && NvrInv(s, key) && NpInv(s, key))
    && OwnedInv(s)
  }

  // ---- Facts about built works ----

  lemma NamesApart()
    ensures forall a, b :: HcName(a) != NpName(b)
    ensures forall a, b :: HcName(a) == HcName(b) ==> a == b
    ensures forall a, b :: NpName(a) == NpName(b) ==> a == b
  {
    forall a, b
      ensures HcName(a) != NpName(b) && (HcName(a) == HcName(b) ==> a == b) && (NpName(a) == NpName(b) ==> a == b)
    {
      NodePoolManifest.NamesApart(a, b);
    }
  }

  lemma HcBuilds(cid: string, c: Cluster, v: VersionData, p: PlacementData)
    requires HcBuild(cid, c, v, p).Ok? && IsInt64(c.generation)
    ensures var work := HcBuild(cid, c, v, p).value;
            WorkValid(work) && Gen(work) == c.generation && work.name == HcName(cid) && work.namespace == ""
  {
    hide HcManifest.Manifests, HcManifest.ManifestConfigs, HcManifest.WorkLabels, GetGeneration, WorkValid,
      Resources.GenerationNote;
    HcManifest.BuildValid(HcInput(cid, c, v, p));
  }

  lemma NpBuilds(n: NodePool, c: Cluster, image: string)
    requires IsInt64(n.generation)
    ensures var work := NpBuild(n, c, image);
            (WorkValid(work) <==> n.generation > 0) && Gen(work) == n.generation && work.name == NpName(n.id)
            && work.namespace == ""
  {
    NodePoolManifest.BuildValid(NpInput(n, c, image));
    hide NodePoolManifest.NodePool, NodePoolManifest.ManifestConfigs, NodePoolManifest.WorkLabels, GetGeneration,
      WorkValid;
  }

  /** Patching one hc work of a cluster with another leaves exactly the other. */
  lemma HcPatchReplaces(cid: string, c: Cluster, v: VersionData, p: PlacementData, d: Cluster, u: VersionData,
          q: PlacementData, m: string)
    requires HcBuild(cid, c, v, p).Ok? && HcBuild(cid, d, u, q).Ok?
    ensures Patched(Filed(HcBuild(cid, c, v, p).value, m), HcBuild(cid, d, u, q).value) ==
      Filed(HcBuild(cid, d, u, q).value, m)
    ensures Created(HcBuild(cid, d, u, q).value, m) == Stored(Filed(HcBuild(cid, d, u, q).value, m), NO_STATUS)
  {
    hide HcManifest.Namespace, HcManifest.ExternalSecret, HcManifest.Certificate, HcManifest.HostedCluster,
      HcManifest.RbacJob, HcManifest.ManifestConfigs, HcManifest.WorkLabels, HcManifest.WorkName, FormatInt;
    LabelsNotEmpty(cid);
    var a := HcManifest.Assemble(HcManifest.WithDefaults(HcInput(cid, c, v, p)));
    var b := HcManifest.Assemble(HcManifest.WithDefaults(HcInput(cid, d, u, q)));
    assert a.labels.value + b.labels.value == b.labels.value;
    assert a.annotations.value + b.annotations.value == b.annotations.value;
    assert b.annotations.value != map[] by { assert GENERATION in b.annotations.value; }
    var full := HcManifest.WithDefaults(HcInput(cid, d, u, q));
    assert |b.spec.configs| == |HcManifest.ManifestConfigs(full)|;
    ConfigsNotEmpty(full);
    assert b.spec.manifests != [] && b.spec.configs != [];
  }

  lemma LabelsNotEmpty(cid: string)
    ensures HcManifest.WorkLabels(cid) != map[]
  {
    assert "hyperfleet.io/adapter" in HcManifest.WorkLabels(cid);
  }

  lemma ConfigsNotEmpty(input: HcManifest.Input)
    ensures HcManifest.ManifestConfigs(input) != []
  {
  }

  lemma NpPatchReplaces(n: NodePool, c: Cluster, image: string, n': NodePool, c': Cluster, image': string, m: string)
    requires n.id == n'.id && n.clusterID == n'.clusterID
    ensures Patched(Filed(NpBuild(n, c, image), m), NpBuild(n', c', image')) == Filed(NpBuild(n', c', image'), m)
    ensures Created(NpBuild(n', c', image'), m) == Stored(Filed(NpBuild(n', c', image'), m), NO_STATUS)
  {
    hide NodePoolManifest.NodePool, NodePoolManifest.WorkLabels, NodePoolManifest.WorkName, FormatInt,
      HcManifest.ClusterNamespace;
    NpLabelsNotEmpty(n.clusterID, n.id);
    var a, b := NpBuild(n, c, image), NpBuild(n', c', image');
    assert a.labels.value + b.labels.value == b.labels.value;
    assert a.annotations.value + b.annotations.value == b.annotations.value;
    assert b.annotations.value != map[] by { assert GENERATION in b.annotations.value; }
    assert b.spec.configs != [];
  }

  lemma NpLabelsNotEmpty(cid: string, npid: string)
    ensures NodePoolManifest.WorkLabels(cid, npid) != map[]
  {
    assert "hyperfleet.io/adapter" in NodePoolManifest.WorkLabels(cid, npid);
  }
}
