// What each whole reconcile leaves behind, in one step.
module Effects {
  import opened Wrappers
  import opened Work
  import opened Generation
  import opened Documents
  import opened Status
  import opened ApiTypes
  import opened Payloads
  import opened Release
  import opened Upsert
  import opened Protocol
  import opened Invariants
  import opened Preservation
  import opened World
  import opened Whole
  import PlacementReconciler
  import VersionReconciler
  import NodePoolVersionReconciler
  import HcReconciler
  import NodePoolReconciler
  import ProcessSteps
  import HcSteps
  import NpSteps

  // ---- Placement ----

  ghost predicate Open(s: State, cid: string, c: Cluster) {
    Found(s, cid) && Current(s, cid) == c && !IsReconciled(s.clusters[cid].conditions)
  }

  /** A placement reconcile records its pick unless the cluster is placed already. */
  lemma PlWholeIs(s: State, cid: string, c: Cluster, mc: string, domain: string)
    requires PlOf(s, cid) == PlIdle && Open(s, cid, c)
    ensures var t := PlWhole(s, cid, mc, domain);
            && PlOf(t, cid) == PlIdle
            && t == s.(pl := t.pl, clusterStatuses := if PlacementReady(Placement(Rows(s, cid))) then s.clusterStatuses
                                                      else PutRow(s, cid, PlacementEntry(c.generation, mc, domain)))
  {
    hide PlNext, Next, Found, Current, IsReconciled, Placement, PlacementReady, PlacementEntry, PutStatus, Rows;
    var asked := PlNext(s, cid, Read);
    PlStepIs(s, cid, Read);
    PlacementReconciler.ClusterRead(s, s, cid);
    var gated := PlNext(asked, cid, Read);
    PlStepIs(asked, cid, Read);
    PlacementReconciler.StatusesRead(asked, asked, cid, c);
    ProcessSteps.KeepRows(s, asked, cid);
    if !PlacementReady(Placement(Rows(s, cid))) {
      PlPicks(gated, cid, c, mc, domain);
      ProcessSteps.KeepRows(s, gated, cid);
    }
  }

  lemma PlPicks(s: State, cid: string, c: Cluster, mc: string, domain: string)
    requires PlOf(s, cid) == PlSelect(c)
    ensures var t := PlNext(PlNext(PlNext(s, cid, Select(mc, domain)), cid, Land), cid, Return);
            && PlOf(t, cid) == PlIdle
            && t == s.(pl := t.pl, clusterStatuses := PutRow(s, cid, PlacementEntry(c.generation, mc, domain)))
  {
    hide PlNext, Next, PlacementEntry, PutStatus, Rows, Found, Current, IsReconciled, Placement, PlacementReady;
    var picked := PlNext(s, cid, Select(mc, domain));
    PlStepIs(s, cid, Select(mc, domain));
    PlacementReconciler.PickRead(s, s, cid, c, mc, domain);
    var landed := PlNext(picked, cid, Land);
    PlStepIs(picked, cid, Land);
    PlLands(picked, cid);
    PlStepIs(landed, cid, Return);
    ProcessSteps.KeepRows(s, picked, cid);
  }

  // ---- Version resolution ----

  lemma VrWholeIs(s: State, cid: string, c: Cluster, nodes: seq<Node>)
    requires VrOf(s, cid) == VrIdle && Open(s, cid, c) && c.spec.releaseVersion != ""
    requires Consistent(s, BuildChannel(c.spec.releaseVersion), nodes) && Resolve(nodes, c.spec.releaseVersion).Some?
    ensures var t, node := VrWhole(s, cid, nodes), Resolve(nodes, c.spec.releaseVersion).value;
            && VrOf(t, cid) == VrIdle
            && t == s.(vr := t.vr,
                       clusterStatuses := if VersionReconciler.Resolved(Rows(s, cid), c) then s.clusterStatuses
                                          else PutRow(s, cid, VersionReconciler.Entry(c, node)))
  {
    hide VrNext, Next, Found, Current, IsReconciled, VersionReconciler.Resolved, VersionReconciler.Entry, PutStatus,
      Rows, BuildChannel, Resolve, Consistent;
    var asked := VrNext(s, cid, Read);
    VrStepIs(s, cid, Read);
    VersionReconciler.ClusterRead(s, s, cid);
    var gated := VrNext(asked, cid, Read);
    VrStepIs(asked, cid, Read);
    VersionReconciler.StatusesRead(asked, asked, cid, c);
    ProcessSteps.KeepRows(s, asked, cid);
    if !VersionReconciler.Resolved(Rows(s, cid), c) {
      ConsistentStays(s, gated, BuildChannel(c.spec.releaseVersion), nodes);
      VrResolves(gated, cid, c, nodes);
      ProcessSteps.KeepRows(s, gated, cid);
    }
  }

  lemma VrResolves(s: State, cid: string, c: Cluster, nodes: seq<Node>)
    requires VrOf(s, cid) == VrResolve(c)
    requires Consistent(s, BuildChannel(c.spec.releaseVersion), nodes) && Resolve(nodes, c.spec.releaseVersion).Some?
    ensures var found := VrNext(s, cid, Graph(nodes));
            var t := VrNext(VrNext(found, cid, Land), cid, Return);
            var node := Resolve(nodes, c.spec.releaseVersion).value;
            && !VrOf(found, cid).VrIdle? && VrOf(t, cid) == VrIdle
            && t == s.(vr := t.vr, clusterStatuses := PutRow(s, cid, VersionReconciler.Entry(c, node)))
  {
    hide VrNext, Next, VersionReconciler.Entry, PutStatus, Rows, BuildChannel, Resolve, Consistent, Found, Current,
      IsReconciled, VersionResolution;
    var found := VrNext(s, cid, Graph(nodes));
    VrStepIs(s, cid, Graph(nodes));
    VersionReconciler.GraphRead(s, s, cid, c, nodes);
    var landed := VrNext(found, cid, Land);
    VrStepIs(found, cid, Land);
    VrLands(found, cid);
    VrStepIs(landed, cid, Return);
    ProcessSteps.KeepRows(s, found, cid);
  }

  ghost predicate PoolOpen(s: State, key: PoolKey, n: NodePool) {
    PoolFound(s, key) && CurrentPool(s, key) == n
  }

  lemma NvrWholeIs(s: State, key: PoolKey, n: NodePool, nodes: seq<Node>)
    requires NvrOf(s, key) == NvrIdle && PoolOpen(s, key, n) && n.releaseVersion != ""
    requires BuildNodePoolChannel(n.releaseVersion).Some?
    requires Consistent(s, BuildNodePoolChannel(n.releaseVersion).value, nodes)
    requires Resolve(nodes, n.releaseVersion).Some?
    ensures var t, node := NvrWhole(s, key, nodes), Resolve(nodes, n.releaseVersion).value;
            && NvrOf(t, key) == NvrIdle
            && t == s.(nvr := t.nvr,
                       poolStatuses := if NodePoolVersionReconciler.Resolved(PoolRows(s, key), n) then s.poolStatuses
                                       else PutPoolRow(s, key, NodePoolVersionReconciler.Entry(n, node)))
  {
    hide NvrNext, Next, PoolFound, CurrentPool, NodePoolVersionReconciler.Resolved, NodePoolVersionReconciler.Entry,
      PutStatus, PoolRows, BuildNodePoolChannel, Resolve, Consistent;
    var asked := NvrNext(s, key, Read);
    NvrStepIs(s, key, Read);
    NodePoolVersionReconciler.PoolRead(s, s, key);
    var gated := NvrNext(asked, key, Read);
    NvrStepIs(asked, key, Read);
    NodePoolVersionReconciler.StatusesRead(asked, asked, key, n);
    ProcessSteps.KeepPoolRows(s, asked, key);
    if !NodePoolVersionReconciler.Resolved(PoolRows(s, key), n) {
      ConsistentStays(s, gated, BuildNodePoolChannel(n.releaseVersion).value, nodes);
      NvrResolves(gated, key, n, nodes);
      ProcessSteps.KeepPoolRows(s, gated, key);
    }
  }

  lemma NvrResolves(s: State, key: PoolKey, n: NodePool, nodes: seq<Node>)
    requires NvrOf(s, key) == NvrResolve(n) && BuildNodePoolChannel(n.releaseVersion).Some?
    requires Consistent(s, BuildNodePoolChannel(n.releaseVersion).value, nodes)
    requires Resolve(nodes, n.releaseVersion).Some?
    ensures var found := NvrNext(s, key, Graph(nodes));
            var t := NvrNext(NvrNext(found, key, Land), key, Return);
            var node := Resolve(nodes, n.releaseVersion).value;
            && !NvrOf(found, key).NvrIdle? && NvrOf(t, key) == NvrIdle
            && t == s.(nvr := t.nvr, poolStatuses := PutPoolRow(s, key, NodePoolVersionReconciler.Entry(n, node)))
  {
    hide NvrNext, Next, NodePoolVersionReconciler.Entry, PutStatus, PoolRows, BuildNodePoolChannel, Resolve, Consistent,
      PoolFound, CurrentPool, NodePoolVR;
    var found := NvrNext(s, key, Graph(nodes));
    NvrStepIs(s, key, Graph(nodes));
    NodePoolVersionReconciler.GraphRead(s, s, key, n, nodes);
    var landed := NvrNext(found, key, Land);
    NvrStepIs(found, key, Land);
    NvrLands(found, key);
    NvrStepIs(landed, key, Return);
    ProcessSteps.KeepPoolRows(s, found, key);
  }

  // ---- The hosted cluster ----

  function StatusIn(works: map<Key, Stored>, key: Key): Option<ManifestWorkStatus> {
    if key in works then Some(Reported(works[key].status)) else None
  }

  /** The works once an apply is over. */
  function AppliedWorks(s: State, key: Key, work: ManifestWork): map<Key, Stored> {
    WriteWork(s.works, key, work, DecideWork(s, key, work))
  }

  /** From the read that consults the store to the answered PUT. */
  lemma HcApplyIs(s: State, cid: string, c: Cluster, p: PlacementData, work: ManifestWork)
    requires Inv(s) && HcOf(s, cid) == HcLookup(c, p, work)
    ensures var t, key := HcApplyAndReport(s, cid), (p.managementCluster, work.name);
            && HcOf(t, cid) == HcIdle
            && t == s.(hc := t.hc, works := AppliedWorks(s, key, work),
                       clusterStatuses := PutRow(s, cid,
                                                 HcEntry(c.generation, StatusIn(AppliedWorks(s, key, work), key))))
  {
    hide HcNext, Next, Inv, HcTarget, WriteWork, DecideWork, HcEntry, PutStatus, Rows;
    var key := (p.managementCluster, work.name);
    var looked := HcNext(s, cid, Read);
    HcStepIs(s, cid, Read);
    HcSteps.HcReadIs(s, cid);
    SkipWritesNothing(s.works, key, work);
    var applied := if HcOf(looked, cid).HcWrite? then HcNext(HcNext(looked, cid, Land), cid, Return) else looked;
    if HcOf(looked, cid).HcWrite? {
      HcSteps.HcKeeps(s, cid, Read);
      HcWrites(looked, cid, c, p, work, DecideWork(s, key, work));
    }
    assert HcOf(applied, cid) == HcReadBack(c, p, work)
      && applied == s.(hc := applied.hc, works := AppliedWorks(s, key, work));
    HcReport(applied, cid, c, p, work);
    ProcessSteps.KeepRows(s, applied, cid);
  }

  lemma SkipWritesNothing(works: map<Key, Stored>, key: Key, work: ManifestWork)
    ensures WriteWork(works, key, work, Skip) == works
  {
  }

  lemma HcWrites(s: State, cid: string, c: Cluster, p: PlacementData, work: ManifestWork, op: Operation)
    requires Inv(s) && HcOf(s, cid) == HcWrite(c, p, work, op, false)
    ensures var t := HcNext(HcNext(s, cid, Land), cid, Return);
            && HcOf(t, cid) == HcReadBack(c, p, work)
            && t == s.(hc := t.hc, works := WriteWork(s.works, (p.managementCluster, work.name), work, op))
  {
    hide HcNext, Next, Inv, HcTarget, WriteWork, RecordInv, PlInv, VrInv, HcInv;
    ClusterPart(s, cid);
    HcStepIs(s, cid, Land);
    HcSteps.HcWriteTarget(s, cid);
    var landed := HcNext(s, cid, Land);
    HcStepIs(landed, cid, Return);
    HcSteps.HcTargetIs(landed, cid, Return);
  }

  lemma HcReport(s: State, cid: string, c: Cluster, p: PlacementData, work: ManifestWork)
    requires HcOf(s, cid) == HcReadBack(c, p, work)
    ensures var t := HcNext(HcNext(HcNext(s, cid, Read), cid, Land), cid, Return);
            var key := (p.managementCluster, work.name);
            && HcOf(t, cid) == HcIdle
            && t == s.(hc := t.hc, clusterStatuses := PutRow(s, cid, HcEntry(c.generation, StatusIn(s.works, key))))
  {
    hide HcNext, Next, HcTarget, HcEntry, PutStatus, Rows;
    var read := HcNext(s, cid, Read);
    HcStepIs(s, cid, Read);
    HcSteps.HcReadIs(s, cid);
    var landed := HcNext(read, cid, Land);
    HcStepIs(read, cid, Land);
    HcSteps.HcTargetIs(read, cid, Land);
    HcStepIs(landed, cid, Return);
    HcSteps.HcTargetIs(landed, cid, Return);
    ProcessSteps.KeepRows(s, read, cid);
  }

  /** Behind a closed gate nothing happens. */
  lemma HcWholeWaits(s: State, cid: string, c: Cluster)
    requires HcOf(s, cid) == HcIdle && Open(s, cid, c) && !HcGate(c, Rows(s, cid))
    ensures var t := HcWhole(s, cid); HcOf(t, cid) == HcIdle && t == s.(hc := t.hc)
  {
    hide HcNext, Next, Found, Current, IsReconciled, HcGate, Rows, HcTarget, HcApplyAndReport;
    HcStepIs(s, cid, Read);
    HcReconciler.ClusterRead(s, s, cid);
    var asked := HcNext(s, cid, Read);
    HcStepIs(asked, cid, Read);
    HcReconciler.StatusesRead(asked, asked, cid, c);
    ProcessSteps.KeepRows(s, asked, cid);
  }

  /** Behind an open one, the built work is applied and its status reported. */
  lemma HcWholeIs(s: State, cid: string, c: Cluster, p: PlacementData, work: ManifestWork)
    requires Inv(s) && HcOf(s, cid) == HcIdle && Open(s, cid, c) && HcGate(c, Rows(s, cid))
    requires Placement(Rows(s, cid)) == Some(p)
    requires HcBuild(cid, c, VersionResolution(Rows(s, cid)).value, p) == Ok(work)
    ensures var t, key := HcWhole(s, cid), (p.managementCluster, work.name);
            && HcOf(t, cid) == HcIdle
            && t == s.(hc := t.hc, works := AppliedWorks(s, key, work),
                       clusterStatuses := PutRow(s, cid,
                                                 HcEntry(c.generation, StatusIn(AppliedWorks(s, key, work), key))))
  {
    hide HcNext, Next, Inv, Found, Current, IsReconciled, Rows, HcTarget, HcApplyAndReport, HcBuild, Placement,
      VersionResolution, WriteWork, DecideWork, HcEntry, PutStatus;
    HcStepIs(s, cid, Read);
    HcReconciler.ClusterRead(s, s, cid);
    HcSteps.HcKeeps(s, cid, Read);
    var asked := HcNext(s, cid, Read);
    HcStepIs(asked, cid, Read);
    HcReconciler.StatusesRead(asked, asked, cid, c);
    ProcessSteps.KeepRows(s, asked, cid);
    HcSteps.HcKeeps(asked, cid, Read);
    var gated := HcNext(asked, cid, Read);
    HcApplyIs(gated, cid, c, p, work);
    ProcessSteps.KeepRows(s, gated, cid);
    DecideSame(s, gated, (p.managementCluster, work.name), work);
  }

  lemma DecideSame(s: State, t: State, key: Key, work: ManifestWork)
    requires t.works == s.works
    ensures DecideWork(t, key, work) == DecideWork(s, key, work)
  {
  }

  // ---- The node pool ----

  lemma NpApplyIs(s: State, key: PoolKey, n: NodePool, c: Cluster, p: PlacementData, work: ManifestWork)
    requires Inv(s) && NpOf(s, key) == NpLookup(n, c, p, work)
    ensures var t, k := NpApplyAndReport(s, key), (p.managementCluster, work.name);
            && NpOf(t, key) == NpIdle
            && t == s.(np := t.np, works := AppliedWorks(s, k, work),
                       poolStatuses := PutPoolRow(s, key,
                                                  NodePoolEntry(n.generation, StatusIn(AppliedWorks(s, k, work), k))))
  {
    hide NpNext, Next, Inv, NpTarget, WriteWork, DecideWork, NodePoolEntry, PutStatus, PoolRows;
    var k := (p.managementCluster, work.name);
    var looked := NpNext(s, key, Read);
    NpStepIs(s, key, Read);
    NpSteps.NpTargetIs(s, key, Read);
    SkipWritesNothing(s.works, k, work);
    var applied := if NpOf(looked, key).NpWrite? then NpNext(NpNext(looked, key, Land), key, Return) else looked;
    if NpOf(looked, key).NpWrite? {
      NpSteps.NpKeeps(s, key, Read);
      NpWrites(looked, key, n, c, p, work, DecideWork(s, k, work));
    }
    assert NpOf(applied, key) == NpReadBack(n, c, p, work)
      && applied == s.(np := applied.np, works := AppliedWorks(s, k, work));
    NpReport(applied, key, n, c, p, work);
    ProcessSteps.KeepPoolRows(s, applied, key);
  }

  lemma NpWrites(s: State, key: PoolKey, n: NodePool, c: Cluster, p: PlacementData, work: ManifestWork, op: Operation)
    requires Inv(s) && NpOf(s, key) == NpWrite(n, c, p, work, op, false)
    ensures var t := NpNext(NpNext(s, key, Land), key, Return);
            && NpOf(t, key) == NpReadBack(n, c, p, work)
            && t == s.(np := t.np, works := WriteWork(s.works, (p.managementCluster, work.name), work, op))
  {
    hide NpNext, Next, Inv, NpTarget, WriteWork, PoolRecordInv, NvrInv, NpInv;
    PoolPart(s, key);
    NpStepIs(s, key, Land);
    NpSteps.NpWriteTarget(s, key);
    var landed := NpNext(s, key, Land);
    NpStepIs(landed, key, Return);
    NpSteps.NpTargetIs(landed, key, Return);
  }

  lemma NpReport(s: State, key: PoolKey, n: NodePool, c: Cluster, p: PlacementData, work: ManifestWork)
    requires NpOf(s, key) == NpReadBack(n, c, p, work)
    ensures var t, k := NpNext(NpNext(NpNext(s, key, Read), key, Land), key, Return), (p.managementCluster, work.name);
            && NpOf(t, key) == NpIdle
            && t == s.(np := t.np,
                       poolStatuses := PutPoolRow(s, key, NodePoolEntry(n.generation, StatusIn(s.works, k))))
  {
    hide NpNext, Next, NpTarget, NodePoolEntry, PutStatus, PoolRows;
    var read := NpNext(s, key, Read);
    NpStepIs(s, key, Read);
    NpSteps.NpReadIs(s, key);
    var landed := NpNext(read, key, Land);
    NpStepIs(read, key, Land);
    NpPutTarget(read, key);
    NpStepIs(landed, key, Return);
    NpSteps.NpTargetIs(landed, key, Return);
    ProcessSteps.KeepPoolRows(s, read, key);
  }

  /** The four reads, up to the gate. */
  lemma NpReads(s: State, key: PoolKey, n: NodePool, c: Cluster)
    requires NpOf(s, key) == NpIdle && PoolOpen(s, key, n) && n.clusterID == key.0 && Found(s, key.0)
    requires Current(s, key.0) == c
    ensures var asked := NpNext(s, key, Read);
            var cluster := NpNext(asked, key, Read);
            var statuses := NpNext(cluster, key, Read);
            && NpOf(asked, key) == NpCluster(n) && NpOf(cluster, key) == NpClusterStatuses(n, c)
            && NpOf(statuses, key) == NpStatuses(n, c, Rows(s, key.0)) && statuses == s.(np := statuses.np)
  {
    hide NpNext, Next, NpTarget, Found, Current, PoolFound, CurrentPool, Rows;
    NpStepIs(s, key, Read);
    NodePoolReconciler.PoolRead(s, s, key);
    var asked := NpNext(s, key, Read);
    NpStepIs(asked, key, Read);
    StillFound(s, asked, key.0);
    NodePoolReconciler.ClusterRead(asked, asked, key, n);
    var cluster := NpNext(asked, key, Read);
    NpStepIs(cluster, key, Read);
    NodePoolReconciler.ClusterStatusesRead(cluster, cluster, key, n, c);
    ProcessSteps.KeepRows(s, cluster, key.0);
  }

  lemma StillFound(s: State, t: State, cid: string)
    requires t.clusters == s.clusters && Found(s, cid)
    ensures Found(t, cid) && Current(t, cid) == Current(s, cid)
  {
  }

  lemma NpWholeWaits(s: State, key: PoolKey, n: NodePool, c: Cluster)
    requires NpOf(s, key) == NpIdle && PoolOpen(s, key, n) && n.clusterID == key.0 && Found(s, key.0)
    requires Current(s, key.0) == c
    requires !NpGate(n, Rows(s, key.0), PoolRows(s, key))
    ensures var t := NpWhole(s, key); NpOf(t, key) == NpIdle && t == s.(np := t.np)
  {
    hide NpNext, Next, NpTarget, Found, Current, PoolFound, CurrentPool, Rows, PoolRows, NpGate, NpApplyAndReport;
    NpReads(s, key, n, c);
    var statuses := NpNext(NpNext(NpNext(s, key, Read), key, Read), key, Read);
    NpStepIs(statuses, key, Read);
    NodePoolReconciler.StatusesRead(statuses, statuses, key, n, c, Rows(s, key.0));
    ProcessSteps.KeepPoolRows(s, statuses, key);
  }

  lemma NpWholeIs(s: State, key: PoolKey, n: NodePool, c: Cluster, p: PlacementData, work: ManifestWork)
    requires Inv(s) && NpOf(s, key) == NpIdle && PoolOpen(s, key, n) && n.clusterID == key.0 && Found(s, key.0)
    requires Current(s, key.0) == c
    requires NpGate(n, Rows(s, key.0), PoolRows(s, key)) && Placement(Rows(s, key.0)) == Some(p)
    requires work == NpBuild(n, c, NodePoolVR(PoolRows(s, key)).value.image) && WorkValid(work)
    ensures var t, k := NpWhole(s, key), (p.managementCluster, work.name);
            && NpOf(t, key) == NpIdle
            && t == s.(np := t.np, works := AppliedWorks(s, k, work),
                       poolStatuses := PutPoolRow(s, key,
                                                  NodePoolEntry(n.generation, StatusIn(AppliedWorks(s, k, work), k))))
  {
    hide NpNext, Next, Inv, NpTarget, Found, Current, PoolFound, CurrentPool, Rows, PoolRows, NpApplyAndReport, NpBuild,
      WorkValid, Placement, NodePoolVR, HcAvailable, WriteWork, DecideWork, NodePoolEntry, PutStatus;
    NpReads(s, key, n, c);
    var statuses := NpNext(NpNext(NpNext(s, key, Read), key, Read), key, Read);
    NpReadsKeep(s, key);
    NpStepIs(statuses, key, Read);
    NodePoolReconciler.StatusesRead(statuses, statuses, key, n, c, Rows(s, key.0));
    ProcessSteps.KeepPoolRows(s, statuses, key);
    NpSteps.NpKeeps(statuses, key, Read);
    var gated := NpNext(statuses, key, Read);
    NpApplyIs(gated, key, n, c, p, work);
    ProcessSteps.KeepPoolRows(s, gated, key);
    DecideSame(s, gated, (p.managementCluster, work.name), work);
  }

  lemma NpReadsKeep(s: State, key: PoolKey)
    requires Inv(s)
    ensures Inv(NpNext(NpNext(NpNext(s, key, Read), key, Read), key, Read))
  {
    hide Inv, NpNext;
    NpSteps.NpKeeps(s, key, Read);
    NpSteps.NpKeeps(NpNext(s, key, Read), key, Read);
    NpSteps.NpKeeps(NpNext(NpNext(s, key, Read), key, Read), key, Read);
  }
}
