// Every step of the protocol keeps the invariant.
module Preservation {
  import opened Work
  import opened Generation
  import opened ApiTypes
  import opened Release
  import opened Upsert
  import opened Protocol
  import opened Invariants

  // ---- What only grows, and what follows for the parts a step leaves alone ----

  /** Releases, details and works are never taken away, and a ready placement never changes. */
  ghost predicate Grows(s: State, t: State) {
    && (forall k :: k in s.releases ==> k in t.releases && t.releases[k] == s.releases[k])
    && (forall cid :: cid in s.clusters ==> cid in t.clusters && s.clusters[cid].current <= t.clusters[cid].current)
    && (forall cid, g :: cid in s.clusters && g in s.clusters[cid].history ==>
        g in t.clusters[cid].history && t.clusters[cid].history[g] == s.clusters[cid].history[g])
    && (forall key :: key in s.pools ==> key in t.pools && s.pools[key].current <= t.pools[key].current)
    && (forall key, g :: key in s.pools && g in s.pools[key].history ==>
        g in t.pools[key].history && t.pools[key].history[g] == s.pools[key].history[g])
    && (forall cid :: Placed(s, cid).Some? ==> Placed(t, cid) == Placed(s, cid))
    && (forall k :: k in s.works ==> k in t.works)
  }

  /** Works of one name are the same up to the agent's reports. */
  ghost predicate SameWorks(s: State, t: State, name: string) {
    forall m :: ((m, name) in s.works <==> (m, name) in t.works)
      && ((m, name) in s.works ==> t.works[(m, name)].work == s.works[(m, name)].work)
  }

  ghost predicate SameRow(s: State, t: State, cid: string, adapter: string) {
    Find(Rows(t, cid), adapter) == Find(Rows(s, cid), adapter)
  }

  ghost predicate SamePoolRow(s: State, t: State, key: PoolKey, adapter: string) {
    Find(PoolRows(t, key), adapter) == Find(PoolRows(s, key), adapter)
  }

  lemma PlFrame(s: State, t: State, cid: string)
    requires PlInv(s, cid) && PlOf(t, cid) == PlOf(s, cid) && SameRow(s, t, cid, PLACEMENT)
    ensures PlInv(t, cid)
  {
  }

  lemma VrFrame(s: State, t: State, cid: string)
    requires Grows(s, t) && VrInv(s, cid) && VrOf(t, cid) == VrOf(s, cid) && SameRow(s, t, cid, VERSION_RESOLUTION)
    ensures VrInv(t, cid)
  {
    hide BuildChannel;
  }

  lemma NvrFrame(s: State, t: State, key: PoolKey)
    requires Grows(s, t) && NvrInv(s, key) && NvrOf(t, key) == NvrOf(s, key) && SamePoolRow(s, t, key, NODE_POOL_VR)
    ensures NvrInv(t, key)
  {
    hide BuildChannel, BuildNodePoolChannel;
  }

  lemma HcWorkFrame(s: State, t: State, cid: string, c: Cluster, p: PlacementData, work: ManifestWork)
    requires Grows(s, t) && IsHcWork(s, cid, c, p, work)
    ensures IsHcWork(t, cid, c, p, work)
  {
    hide BuildChannel, HcBuild;
  }

  lemma NpWorkFrame(s: State, t: State, n: NodePool, c: Cluster, work: ManifestWork)
    requires Grows(s, t) && IsNpWork(s, n, c, work)
    ensures IsNpWork(t, n, c, work)
  {
    hide BuildChannel, NpBuild;
  }

  lemma HcBuiltFrame(s: State, t: State, cid: string, c: Cluster, p: PlacementData, work: ManifestWork)
    requires Grows(s, t) && SameRow(s, t, cid, HC) && SameWorks(s, t, HcName(cid))
    requires HcBuilt(s, cid, c, p, work)
    ensures HcBuilt(t, cid, c, p, work)
    ensures HcApplied(s, cid, c, p, work) ==> HcApplied(t, cid, c, p, work)
  {
    hide IsHcWork, GetGeneration, HcName, Placed, Rows, Find;
    HcWorkFrame(s, t, cid, c, p, work);
  }

  lemma HcStoresFrame(s: State, t: State, cid: string)
    requires Grows(s, t) && HcStoredInv(s, cid) && HcRowInv(s, cid) && SameRow(s, t, cid, HC)
    requires SameWorks(s, t, HcName(cid))
    ensures HcStoredInv(t, cid) && HcRowInv(t, cid)
  {
    hide IsHcWork, GetGeneration, HcName, Placed, Rows, Find;
    forall m | (m, HcName(cid)) in t.works
      ensures cid in t.clusters && Placed(t, cid).Some? && Placed(t, cid).value.managementCluster == m
              && HcContent(t, cid, Placed(t, cid).value, t.works[(m, HcName(cid))].work)
    {
      var w := s.works[(m, HcName(cid))].work;
      HcWorkFrame(s, t, cid, s.clusters[cid].history[Gen(w)], Placed(s, cid).value, Unfiled(w));
    }
  }

  lemma HcPcFrame(s: State, t: State, cid: string, pc: HcPc)
    requires Grows(s, t) && HcPcOk(s, cid, pc) && SameRow(s, t, cid, HC) && SameWorks(s, t, HcName(cid))
    ensures HcPcOk(t, cid, pc)
  {
    hide IsHcWork, HcBuilt, GetGeneration, HcName, Placed, Rows, Find;
    if pc.HcLookup? || pc.HcWrite? || pc.HcReadBack? || pc.HcPut? {
      HcBuiltFrame(s, t, cid, pc.c, pc.p, pc.work);
    }
  }

  lemma HcFrame(s: State, t: State, cid: string)
    requires Grows(s, t) && HcInv(s, cid)
    requires HcOf(t, cid) == HcOf(s, cid) && SameRow(s, t, cid, HC) && SameWorks(s, t, HcName(cid))
    ensures HcInv(t, cid)
  {
    HcStoresFrame(s, t, cid);
    HcPcFrame(s, t, cid, HcOf(s, cid));
    hide HcStoredInv, HcRowInv, HcPcOk;
  }

  lemma NpBuiltFrame(s: State, t: State, key: PoolKey, n: NodePool, c: Cluster, p: PlacementData, work: ManifestWork)
    requires Grows(s, t) && SamePoolRow(s, t, key, NODE_POOL) && SameWorks(s, t, NpName(key.1))
    requires NpBuilt(s, key, n, c, p, work)
    ensures NpBuilt(t, key, n, c, p, work)
    ensures NpApplied(s, key, n, c, p, work) ==> NpApplied(t, key, n, c, p, work)
  {
    hide IsNpWork, GetGeneration, NpName, HcName, Placed, PoolRows, Rows, Find, WorkValid;
    NpWorkFrame(s, t, n, c, work);
  }

  lemma NpStoresFrame(s: State, t: State, key: PoolKey)
    requires Grows(s, t) && NpStoredInv(s, key) && NpRowInv(s, key) && (key in t.pools ==> key in s.pools)
    requires SamePoolRow(s, t, key, NODE_POOL) && SameWorks(s, t, NpName(key.1))
    ensures NpStoredInv(t, key) && NpRowInv(t, key)
  {
    hide IsNpWork, GetGeneration, NpName, HcName, Placed, PoolRows, Rows, Find;
    if key in t.pools {
      forall m | (m, NpName(key.1)) in t.works
        ensures HcThere(t, key.0) && Placed(t, key.0).value.managementCluster == m
        ensures NpContent(t, key, m, t.works[(m, NpName(key.1))].work)
      {
        NpContentFrame(s, t, key, m, s.works[(m, NpName(key.1))].work);
      }
    }
  }

  lemma NpPcFrame(s: State, t: State, key: PoolKey, pc: NodePoolPc)
    requires Grows(s, t) && NpPcOk(s, key, pc) && SamePoolRow(s, t, key, NODE_POOL) && SameWorks(s, t, NpName(key.1))
    ensures NpPcOk(t, key, pc)
  {
    hide IsNpWork, NpBuilt, GetGeneration, NpName, HcName, Placed, PoolRows, Rows, Find, WorkValid;
    if pc.NpLookup? || pc.NpWrite? || pc.NpReadBack? || pc.NpPut? {
      NpBuiltFrame(s, t, key, pc.n, pc.c, pc.p, pc.work);
    }
  }

  lemma NpFrame(s: State, t: State, key: PoolKey)
    requires Grows(s, t) && NpInv(s, key) && (key in t.pools ==> key in s.pools)
    requires NpOf(t, key) == NpOf(s, key) && SamePoolRow(s, t, key, NODE_POOL) && SameWorks(s, t, NpName(key.1))
    ensures NpInv(t, key)
  {
    NpStoresFrame(s, t, key);
    NpPcFrame(s, t, key, NpOf(s, key));
    hide NpStoredInv, NpRowInv, NpPcOk;
  }

  lemma NpContentFrame(s: State, t: State, key: PoolKey, m: string, w: ManifestWork)
    requires Grows(s, t) && key in s.pools && NpContent(s, key, m, w)
    ensures key in t.pools && NpContent(t, key, m, w)
  {
    hide IsNpWork, GetGeneration;
    var k :| k in s.clusters[key.0].history
      && IsNpWork(s, s.pools[key].history[Gen(w)], s.clusters[key.0].history[k], Unfiled(w));
    NpWorkFrame(s, t, s.pools[key].history[Gen(w)], s.clusters[key.0].history[k], Unfiled(w));
  }

  // ---- The invariant, one cluster or node pool at a time ----

  lemma ClusterPart(s: State, cid: string)
    requires Inv(s)
    ensures RecordInv(s, cid) && PlInv(s, cid) && VrInv(s, cid) && HcInv(s, cid)
  {
    hide RecordInv, PlInv, VrInv, HcInv, PoolRecordInv, NvrInv, NpInv, OwnedInv;
  }

  lemma PoolPart(s: State, key: PoolKey)
    requires Inv(s)
    ensures PoolRecordInv(s, key) && NvrInv(s, key) && NpInv(s, key)
  {
    hide RecordInv, PlInv, VrInv, HcInv, PoolRecordInv, NvrInv, NpInv, OwnedInv;
  }

  // ---- Pieces of the state a step did not write ----

  ghost predicate SameObjects(s: State, t: State) {
    t.clusters == s.clusters && t.pools == s.pools && t.releases == s.releases
  }

  lemma ProcessGrows(s: State, t: State)
    requires SameObjects(s, t) && s.works.Keys <= t.works.Keys
    requires forall cid :: Placed(s, cid).Some? ==> Placed(t, cid) == Placed(s, cid)
    ensures Grows(s, t)
  {
    hide Placed;
  }

  /** A step of one cluster-level process: only that cluster's rows, works and processes may differ. */
  ghost predicate OnlyCluster(s: State, t: State, cid: string) {
    SameObjects(s, t) && t.poolStatuses == s.poolStatuses && t.nvr == s.nvr && t.np == s.np
    && (forall d :: d != cid ==>
        Rows(t, d) == Rows(s, d) && PlOf(t, d) == PlOf(s, d) && VrOf(t, d) == VrOf(s, d) && HcOf(t, d) == HcOf(s, d))
    && (forall k: Key :: k.1 != HcName(cid) ==>
        (k in s.works <==> k in t.works) && (k in s.works ==> t.works[k] == s.works[k]))
  }

  /** A step of one node-pool-level process. */
  ghost predicate OnlyPool(s: State, t: State, key: PoolKey) {
    SameObjects(s, t) && t.clusterStatuses == s.clusterStatuses && t.pl == s.pl && t.vr == s.vr && t.hc == s.hc
    && (forall d :: d != key ==>
        PoolRows(t, d) == PoolRows(s, d) && NvrOf(t, d) == NvrOf(s, d) && NpOf(t, d) == NpOf(s, d))
    && (forall k: Key :: k.1 != NpName(key.1) ==>
        (k in s.works <==> k in t.works) && (k in s.works ==> t.works[k] == s.works[k]))
  }

  lemma OtherCluster(s: State, t: State, cid: string, d: string)
    requires Inv(s) && Grows(s, t) && OnlyCluster(s, t, cid) && d != cid
    ensures PlInv(t, d) && VrInv(t, d) && HcInv(t, d)
  {
    hide HcName, NpName, RecordInv, PlInv, VrInv, HcInv, Inv, Rows, Placed, Find, Grows;
    NamesApart();
    ClusterPart(s, d);
    assert SameWorks(s, t, HcName(d)) by { assert HcName(d) != HcName(cid); }
    PlFrame(s, t, d);
    VrFrame(s, t, d);
    HcFrame(s, t, d);
  }

  lemma PoolAfterClusterStep(s: State, t: State, cid: string, key: PoolKey)
    requires Inv(s) && Grows(s, t) && OnlyCluster(s, t, cid)
    ensures NvrInv(t, key) && NpInv(t, key)
  {
    hide HcName, NpName, PoolRecordInv, NvrInv, NpInv, Inv, Rows, PoolRows, Placed, Find, Grows;
    NamesApart();
    PoolPart(s, key);
    SamePoolRows(s, t, key);
    assert SameWorks(s, t, NpName(key.1)) by { assert NpName(key.1) != HcName(cid); }
    NvrFrame(s, t, key);
    NpFrame(s, t, key);
  }

  /** New works belong to the process that wrote them. */
  lemma OwnedFrame(s: State, t: State)
    requires OwnedInv(s) && Grows(s, t)
    requires forall k :: k in t.works && k !in s.works ==>
      (exists cid :: cid in t.clusters && k.1 == HcName(cid)) || (exists key :: key in t.pools && k.1 == NpName(key.1))
    ensures OwnedInv(t)
  {
    hide HcName, NpName, Placed;
  }

  lemma SameRecords(s: State, t: State)
    requires Inv(s) && SameObjects(s, t)
    ensures forall d :: RecordInv(t, d)
    ensures forall key :: PoolRecordInv(t, key)
  {
    hide Inv, RecordInv, PoolRecordInv, PlInv, VrInv, HcInv, NvrInv, NpInv;
    forall d ensures RecordInv(t, d) { ClusterPart(s, d); SameRecord(s, t, d); }
    forall key ensures PoolRecordInv(t, key) { PoolPart(s, key); SamePoolRecord(s, t, key); }
  }

  lemma SameRecord(s: State, t: State, d: string)
    requires RecordInv(s, d) && t.clusters == s.clusters
    ensures RecordInv(t, d)
  {
  }

  lemma SamePoolRecord(s: State, t: State, key: PoolKey)
    requires PoolRecordInv(s, key) && t.clusters == s.clusters && t.pools == s.pools
    ensures PoolRecordInv(t, key)
  {
  }

  lemma InvOf(t: State)
    requires forall cid :: RecordInv(t, cid)
    requires forall key :: PoolRecordInv(t, key)
    requires forall cid :: PlInv(t, cid) && VrInv(t, cid) && HcInv(t, cid)
    requires forall key :: NvrInv(t, key) && NpInv(t, key)
    requires OwnedInv(t)
    ensures Inv(t)
  {
    hide RecordInv, PlInv, VrInv, HcInv, PoolRecordInv, NvrInv, NpInv, OwnedInv;
  }

  lemma OwnedPart(s: State)
    requires Inv(s)
    ensures OwnedInv(s)
  {
    hide RecordInv, PlInv, VrInv, HcInv, PoolRecordInv, NvrInv, NpInv, OwnedInv;
  }

  /** After a cluster-level step it is enough to look at that cluster. */
  lemma ClusterStep(s: State, t: State, cid: string)
    requires Inv(s) && Grows(s, t) && OnlyCluster(s, t, cid)
    requires PlInv(t, cid) && VrInv(t, cid) && HcInv(t, cid)
    requires t.works != s.works ==> cid in s.clusters
    ensures Inv(t)
  {
    hide Inv, RecordInv, PlInv, VrInv, HcInv, PoolRecordInv, NvrInv, NpInv, OwnedInv, Grows, HcName, NpName, Rows;
    forall d ensures PlInv(t, d) && VrInv(t, d) && HcInv(t, d) {
      if d != cid { OtherCluster(s, t, cid, d); }
    }
    forall key ensures NvrInv(t, key) && NpInv(t, key) {
      PoolAfterClusterStep(s, t, cid, key);
    }
    SameRecords(s, t);
    OwnedPart(s);
    OwnedFrame(s, t);
    InvOf(t);
  }

  lemma SamePoolRows(s: State, t: State, key: PoolKey)
    requires t.poolStatuses == s.poolStatuses
    ensures PoolRows(t, key) == PoolRows(s, key)
  {
  }

  lemma SameRows(s: State, t: State, cid: string)
    requires t.clusterStatuses == s.clusterStatuses
    ensures Rows(t, cid) == Rows(s, cid) && Placed(t, cid) == Placed(s, cid)
  {
  }

  lemma AbsentPool(s: State, t: State, key: PoolKey)
    requires NpInv(s, key) && NpOf(t, key) == NpOf(s, key) && SamePoolRow(s, t, key, NODE_POOL)
    requires t.pools == s.pools && (key in s.pools ==> SameWorks(s, t, NpName(key.1)) && Grows(s, t))
    ensures NpInv(t, key)
  {
    hide GetGeneration, NpName, HcName, Placed, PoolRows, Rows, Find, WorkValid;
    if key in s.pools { NpFrame(s, t, key); }
  }

  lemma ClusterAfterPoolStep(s: State, t: State, key: PoolKey, d: string)
    requires Inv(s) && Grows(s, t) && OnlyPool(s, t, key)
    ensures PlInv(t, d) && VrInv(t, d) && HcInv(t, d)
  {
    hide HcName, NpName, RecordInv, PlInv, VrInv, HcInv, Inv, Rows, Placed, Find, Grows;
    NamesApart();
    ClusterPart(s, d);
    SameRows(s, t, d);
    assert SameWorks(s, t, HcName(d)) by { assert HcName(d) != NpName(key.1); }
    PlFrame(s, t, d);
    VrFrame(s, t, d);
    HcFrame(s, t, d);
  }

  lemma OtherPool(s: State, t: State, key: PoolKey, other: PoolKey)
    requires Inv(s) && Grows(s, t) && OnlyPool(s, t, key) && other != key
    requires key !in s.pools ==> t.works == s.works
    ensures NvrInv(t, other) && NpInv(t, other)
  {
    hide HcName, NpName, NvrInv, NpInv, Inv, PoolRows, Placed, Find, Grows;
    NamesApart();
    PoolPart(s, other);
    PoolPart(s, key);
    NvrFrame(s, t, other);
    if other in s.pools && key in s.pools {
      assert SameWorks(s, t, NpName(other.1)) by { assert NpName(other.1) != NpName(key.1); }
    }
    AbsentPool(s, t, other);
  }

  /** After a node-pool-level step it is enough to look at that node pool. */
  lemma PoolStep(s: State, t: State, key: PoolKey)
    requires Inv(s) && Grows(s, t) && OnlyPool(s, t, key)
    requires NvrInv(t, key) && NpInv(t, key)
    requires key !in s.pools ==> t.works == s.works
    ensures Inv(t)
  {
    hide Inv, RecordInv, PlInv, VrInv, HcInv, PoolRecordInv, NvrInv, NpInv, OwnedInv, Grows, HcName, NpName, PoolRows;
    forall d ensures PlInv(t, d) && VrInv(t, d) && HcInv(t, d) {
      ClusterAfterPoolStep(s, t, key, d);
    }
    forall other ensures NvrInv(t, other) && NpInv(t, other) {
      if other != key { OtherPool(s, t, key, other); }
    }
    SameRecords(s, t);
    OwnedPart(s);
    OwnedFrame(s, t);
    InvOf(t);
  }
}
