// The nodepool process's steps keep the invariant.
module NpSteps {
  import opened Wrappers
  import opened Text
  import opened Work
  import opened Generation
  import opened Documents
  import opened ApiTypes
  import opened Payloads
  import opened Release
  import opened Upsert
  import opened Protocol
  import opened Invariants
  import opened Preservation
  import opened ProcessSteps
  import HcSteps

  lemma NpWorkFacts(s: State, key: PoolKey, n: NodePool, c: Cluster, work: ManifestWork)
    requires PoolRecordInv(s, key) && PoolSnapshot(s, key, n) && IsNpWork(s, n, c, work)
    ensures IsInt64(n.generation) && n.id == key.1 && n.clusterID == key.0 && n.generation <= s.pools[key].current
    ensures Gen(work) == n.generation && work.name == NpName(key.1) && work.namespace == ""
  {
    NpBuilds(n, c, ReleaseOf(s, n.releaseVersion).value.image);
    hide NpBuild, NpName, GetGeneration, WorkValid, BuildChannel;
  }

  /** Writing a node pool work over nothing, or over an earlier one of the same node pool, leaves exactly it. */
  lemma NpWriteLeaves(s: State, key: PoolKey, n: NodePool, c: Cluster, p: PlacementData, work: ManifestWork,
          op: Operation)
    requires NpStoredInv(s, key) && PoolRecordInv(s, key) && NpBuilt(s, key, n, c, p, work)
    requires CanWrite(s.works, NpKey(key, p), op)
    ensures var after := WriteWork(s.works, NpKey(key, p), work, op);
            NpKey(key, p) in after && after[NpKey(key, p)].work == Filed(work, p.managementCluster)
  {
    var wk := NpKey(key, p);
    var image := ReleaseOf(s, n.releaseVersion).value.image;
    NpWorkFacts(s, key, n, c, work);
    if wk in s.works {
      NpPatchStored(s, key, n, c, p, work);
    } else {
      NpPatchReplaces(n, c, image, n, c, image, p.managementCluster);
    }
    hide NpBuild, NpName, GetGeneration, WorkValid, BuildChannel, Patched, Created, NpContent, HcThere, NpHeld, Placed,
      Rows;
  }

  lemma NpPatchStored(s: State, key: PoolKey, n: NodePool, c: Cluster, p: PlacementData, work: ManifestWork)
    requires NpStoredInv(s, key) && PoolRecordInv(s, key) && NpBuilt(s, key, n, c, p, work) && NpKey(key, p) in s.works
    ensures Patched(s.works[NpKey(key, p)].work, work) == Filed(work, p.managementCluster)
  {
    var w := s.works[NpKey(key, p)].work;
    assert NpContent(s, key, p.managementCluster, w);
    var was := s.pools[key].history[Gen(w)];
    var k :| k in s.clusters[key.0].history && IsNpWork(s, was, s.clusters[key.0].history[k], Unfiled(w));
    NpPatchReplaces(was, s.clusters[key.0].history[k], ReleaseOf(s, was.releaseVersion).value.image,
      n, c, ReleaseOf(s, n.releaseVersion).value.image, p.managementCluster);
    assert w == Filed(Unfiled(w), p.managementCluster);
    hide NpBuild, NpName, GetGeneration, WorkValid, BuildChannel, Patched, Created, HcThere, NpHeld, Placed, Rows;
  }

  predicate HasWork(pc: NodePoolPc) {
    pc.NpLookup? || pc.NpWrite? || pc.NpReadBack? || pc.NpPut?
  }

  lemma NpHolds(s: State, key: PoolKey)
    requires NpInv(s, key) && PoolRecordInv(s, key) && HasWork(NpOf(s, key))
    ensures var pc := NpOf(s, key);
            NpBuilt(s, key, pc.n, pc.c, pc.p, pc.work) && pc.work.name == NpName(key.1)
            && Gen(pc.work) == pc.n.generation && pc.work.namespace == ""
  {
    var pc := NpOf(s, key);
    hide IsNpWork, NpName, HcName, GetGeneration, WorkValid, Placed, Rows, Find, PoolRecordInv, NpStoredInv, NpRowInv;
    NpWorkFacts(s, key, pc.n, pc.c, pc.work);
  }

  lemma NpNeedsPool(s: State, key: PoolKey)
    requires NpInv(s, key)
    ensures !NpOf(s, key).NpIdle? ==> key in s.pools
  {
    hide IsNpWork, NpName, HcName, GetGeneration, WorkValid, Placed, Rows, Find, NpStoredInv, NpRowInv, Snapshot;
  }

  lemma NpWorksAre(s: State, key: PoolKey, m: Move)
    ensures var pc, works := NpOf(s, key), NpNext(s, key, m).works;
            if pc.NpWrite? && m.Land? then
              works == WriteWork(s.works, (pc.p.managementCluster, pc.work.name), pc.work, pc.op)
            else works == s.works
  {
    hide NpTarget, PutPoolRow, WriteWork;
  }

  lemma NpTouchesWorks(s: State, key: PoolKey, m: Move)
    requires NpInv(s, key) && PoolRecordInv(s, key)
    ensures var t := NpNext(s, key, m);
            && s.works.Keys <= t.works.Keys && (t.works != s.works ==> key in s.pools)
            && forall k: Key :: k.1 != NpName(key.1) ==>
              (k in s.works <==> k in t.works) && (k in s.works ==> t.works[k] == s.works[k])
  {
    hide NpNext, NpName, NpInv, PoolRecordInv, WriteWork, NpBuilt, WorkValid, GetGeneration;
    var pc := NpOf(s, key);
    NpNeedsPool(s, key);
    NpWorksAre(s, key, m);
    if pc.NpWrite? {
      NpHolds(s, key);
      HcSteps.WritesOneKey(s.works, NpKey(key, pc.p), pc.work, pc.op);
    }
  }

  lemma NpTouchesRows(s: State, key: PoolKey, m: Move)
    requires NpInv(s, key)
    ensures var t := NpNext(s, key, m);
            SamePoolRow(s, t, key, NODE_POOL_VR) && forall d :: d != key ==> PoolRows(t, d) == PoolRows(s, d)
  {
    var t := NpNext(s, key, m);
    AdaptersDistinct();
    hide NpName, Find, PutStatus, PoolRows, NpTarget, NpStoredInv, NpRowInv, NpBuilt, NpHeld, Snapshot, WriteWork,
      HcThere;
    if NpOf(s, key).NpPut? && m.Land? {
      PoolRowLands(s, t, key, NpOf(s, key).entry);
    }
    forall d { KeepPoolRows(s, t, d); }
  }

  /** A nodepool step touches only its own process, its own entry and its own work. */
  lemma NpTouches(s: State, key: PoolKey, m: Move)
    requires NpInv(s, key) && PoolRecordInv(s, key)
    ensures var t := NpNext(s, key, m);
            && OnlyPool(s, t, key) && s.works.Keys <= t.works.Keys && (t.works != s.works ==> key in s.pools)
            && NvrOf(t, key) == NvrOf(s, key) && SamePoolRow(s, t, key, NODE_POOL_VR)
  {
    hide NpName, Find, PoolRows, NpTarget, NpInv, PoolRecordInv, WriteWork, PutPoolRow, SamePoolRow;
    NpTouchesWorks(s, key, m);
    NpTouchesRows(s, key, m);
  }

  // ---- Reading ----

  lemma NpReadsPool(s: State, key: PoolKey)
    requires NpInv(s, key) && PoolRecordInv(s, key) && PoolFound(s, key)
    ensures NpHeld(s, key, CurrentPool(s, key))
  {
    hide IsNpWork, NpName, HcThere, GetGeneration, Placed, PoolRows, Find;
  }

  lemma NpReadsCluster(s: State, cid: string)
    requires RecordInv(s, cid) && Found(s, cid)
    ensures Snapshot(s, cid, Current(s, cid))
  {
  }

  lemma HcRowMeansThere(s: State, cid: string)
    requires HcInv(s, cid)
    ensures HcAvailable(Rows(s, cid)) ==> HcThere(s, cid)
    ensures PlacementReady(Placement(Rows(s, cid))) ==> Placed(s, cid) == Placement(Rows(s, cid))
  {
    hide HcStoredInv, HcPcOk, HcThere, Rows, Find, ReadPlacement, HcName;
  }

  /** Behind the gate: placed for good, the hc work already there, the node pool's version resolved canonically. */
  lemma NpPassesGate(s: State, key: PoolKey, n: NodePool, c: Cluster, ss: AdapterStatuses)
    requires NpPcOk(s, key, NpStatuses(n, c, ss)) && NvrInv(s, key)
    ensures NpPcOk(s, key, NpGated(s, key, n, c, ss))
  {
    hide NpBuild, NpHeld, HcThere, Placed, Snapshot, WorkValid, Find, PoolRows, ReadPlacement, ReadVersion,
      BuildChannel, HcAvailable;
  }

  /** The program text, point by point. */
  lemma NpTargetIs(s: State, key: PoolKey, m: Move)
    ensures var pc, next := NpOf(s, key), NpTarget(s, key, m);
            && (m.Read? && pc.NpLookup? ==>
                  var op := DecideWork(s, (pc.p.managementCluster, pc.work.name), pc.work);
                  next == if op == Skip then NpReadBack(pc.n, pc.c, pc.p, pc.work)
                          else NpWrite(pc.n, pc.c, pc.p, pc.work, op, false))
            && (m.Read? && pc.NpStatuses? ==> next == NpGated(s, key, pc.n, pc.c, pc.statuses))
            && (m.Land? && pc.NpWrite? ==>
                  var landed := pc.landed || CanWrite(s.works, (pc.p.managementCluster, pc.work.name), pc.op);
                  next == NpWrite(pc.n, pc.c, pc.p, pc.work, pc.op, landed))
            && (m.Fail? ==> next == NpIdle)
            && (m.Select? || m.Graph? ==> next == pc)
            && (m.Return? ==>
                  next == if pc.NpWrite? && pc.landed then NpReadBack(pc.n, pc.c, pc.p, pc.work)
                          else if pc.NpPut? && pc.landed then NpIdle else pc)
  {
    hide NpGated, DecideWork, CanWrite, Found, Current, PoolFound, CurrentPool, Rows, NodePoolEntry, ReadStatus;
  }

  lemma NpReadIs(s: State, key: PoolKey)
    ensures var pc, next := NpOf(s, key), NpTarget(s, key, Read);
            && (pc.NpIdle? ==> next == if PoolFound(s, key) then NpCluster(CurrentPool(s, key)) else NpIdle)
            && (pc.NpCluster? ==>
                  next == if Found(s, pc.n.clusterID) then NpClusterStatuses(pc.n, Current(s, pc.n.clusterID))
                    else NpIdle)
            && (pc.NpClusterStatuses? ==> next == NpStatuses(pc.n, pc.c, Rows(s, pc.n.clusterID)))
            && (pc.NpReadBack? ==> next == NpPut(pc.n, pc.c, pc.p, pc.work,
                  NodePoolEntry(pc.n.generation, ReadStatus(s, (pc.p.managementCluster, pc.work.name))), false))
            && (pc.NpWrite? || pc.NpPut? ==> next == pc)
  {
    hide NpGated, DecideWork, CanWrite, Found, Current, PoolFound, CurrentPool, Rows, NodePoolEntry, ReadStatus;
  }

  lemma NpDecides(s: State, key: PoolKey)
    requires NpInv(s, key) && PoolRecordInv(s, key) && NpOf(s, key).NpLookup?
    ensures NpPcOk(s, key, NpTarget(s, key, Read))
  {
    hide NpTarget, NpInv, NpBuilt, NpName, GetGeneration, WorkValid, NpStoredInv, NpRowInv, PoolRecordInv, HcName;
    NpHolds(s, key);
    NpTargetIs(s, key, Read);
  }

  lemma NpTargetOk(s: State, key: PoolKey, m: Move)
    requires NpInv(s, key) && PoolRecordInv(s, key) && NvrInv(s, key) && HcInv(s, key.0) && RecordInv(s, key.0)
    requires !m.Land?
    ensures NpPcOk(s, key, NpTarget(s, key, m))
  {
    hide NpTarget, NvrInv, HcInv, RecordInv, PoolRecordInv, NpStoredInv, NpRowInv;
    var pc := NpOf(s, key);
    NpTargetIs(s, key, m);
    if pc.NpLookup? && m.Read? {
      NpDecides(s, key);
    } else if pc.NpStatuses? && m.Read? {
      NpPassesGate(s, key, pc.n, pc.c, pc.statuses);
    } else if m.Read? {
      NpReadsOn(s, key);
    } else {
      NpReturnsOk(s, key, m);
    }
  }

  lemma NpReturnsOk(s: State, key: PoolKey, m: Move)
    requires NpPcOk(s, key, NpOf(s, key)) && (m.Return? || m.Fail? || m.Select? || m.Graph?)
    ensures NpPcOk(s, key, NpTarget(s, key, m))
  {
    NpTargetIs(s, key, m);
    hide NpTarget, NpHeld, NpBuilt, NpName, Snapshot, HcThere, CanWrite, Placed, NpGated, DecideWork;
  }

  lemma NpReadsOn(s: State, key: PoolKey)
    requires NpInv(s, key) && PoolRecordInv(s, key) && HcInv(s, key.0) && RecordInv(s, key.0)
    requires !NpOf(s, key).NpLookup? && !NpOf(s, key).NpStatuses?
    ensures NpPcOk(s, key, NpTarget(s, key, Read))
  {
    hide NpTarget, NpStoredInv, NpRowInv, PoolRecordInv, HcInv, RecordInv, NpHeld, NpBuilt, NpApplied, Snapshot,
      HcThere, Placed, Found, Current, PoolFound, CurrentPool, HcAvailable, Placement, PlacementReady, Rows,
      NodePoolEntry, ReadStatus;
    var pc := NpOf(s, key);
    NpReadIs(s, key);
    if pc.NpIdle? && PoolFound(s, key) { NpReadsPool(s, key); }
    if pc.NpCluster? || pc.NpClusterStatuses? { PoolOfCluster(s, key, pc.n); }
    if pc.NpCluster? && Found(s, key.0) { NpReadsCluster(s, key.0); }
    if pc.NpClusterStatuses? { HcRowMeansThere(s, key.0); }
  }

  lemma PoolOfCluster(s: State, key: PoolKey, n: NodePool)
    requires PoolRecordInv(s, key) && NpHeld(s, key, n)
    ensures n.clusterID == key.0
  {
    hide GetGeneration, NpName, PoolRows, Find;
  }

  // ---- The invariant after each kind of step ----

  lemma NpMoves(s: State, t: State, key: PoolKey)
    requires t == s.(np := t.np) && NpInv(s, key) && NpPcOk(s, key, NpOf(t, key))
    ensures NpInv(t, key)
  {
    KeepPoolRows(s, t, key);
    assert Grows(s, t) by {
      forall d { KeepRows(s, t, d); }
      ProcessGrows(s, t);
    }
    hide Grows, NpStoredInv, NpRowInv, NpPcOk, PoolRows, Placed;
    NpStoresFrame(s, t, key);
    NpPcFrame(s, t, key, NpOf(t, key));
  }

  lemma NpOwnQuiet(s: State, key: PoolKey, m: Move)
    requires NpInv(s, key) && PoolRecordInv(s, key) && NvrInv(s, key) && HcInv(s, key.0) && RecordInv(s, key.0)
    requires !m.Land?
    ensures NpInv(NpNext(s, key, m), key)
  {
    NpTargetOk(s, key, m);
    hide NpInv, NpPcOk, NpTarget, HcInv, RecordInv, NvrInv, PoolRecordInv;
    NpMoves(s, NpNext(s, key, m), key);
  }

  lemma NpLandsNothing(s: State, key: PoolKey)
    requires NpInv(s, key) && !NpOf(s, key).NpWrite? && !NpOf(s, key).NpPut?
    ensures NpInv(NpNext(s, key, Land), key)
  {
    var t := NpNext(s, key, Land);
    assert NpOf(t, key) == NpOf(s, key) by { hide NpInv, NpGated; }
    hide NpStoredInv, NpRowInv, NpPcOk, NpTarget;
    NpMoves(s, t, key);
  }

  ghost predicate StoresExactly(t: State, key: PoolKey, p: PlacementData, work: ManifestWork) {
    NpKey(key, p) in t.works && t.works[NpKey(key, p)].work == Filed(work, p.managementCluster)
    && forall m :: (m, NpName(key.1)) in t.works ==> m == p.managementCluster
  }

  lemma NpWriteEffect(s: State, key: PoolKey)
    requires NpInv(s, key) && PoolRecordInv(s, key) && NpOf(s, key).NpWrite?
    ensures var t, pc := NpNext(s, key, Land), NpOf(s, key);
            && SameObjects(s, t) && t.clusterStatuses == s.clusterStatuses && t.poolStatuses == s.poolStatuses
            && t.works == WriteWork(s.works, NpKey(key, pc.p), pc.work, pc.op)
            && NpOf(t, key) == NpWrite(pc.n, pc.c, pc.p, pc.work, pc.op, true)
  {
    hide NpInv, NpBuilt, NpName, WriteWork, PoolRecordInv, NpTarget, WorkValid, GetGeneration;
    NpHolds(s, key);
    NpWriteTarget(s, key);
  }

  /** A write in flight either has landed or still can. */
  lemma NpWriteFacts(s: State, key: PoolKey)
    requires NpInv(s, key) && NpOf(s, key).NpWrite?
    ensures var pc := NpOf(s, key); pc.landed || CanWrite(s.works, NpKey(key, pc.p), pc.op)
  {
    hide NpStoredInv, NpRowInv, NpBuilt, NpApplied, NpName, CanWrite;
  }

  lemma NpLandedFacts(s: State, key: PoolKey)
    requires NpInv(s, key) && NpOf(s, key).NpWrite? && NpOf(s, key).landed
    ensures var pc := NpOf(s, key);
            var k := NpKey(key, pc.p);
            k in s.works && s.works[k].work == Filed(pc.work, pc.p.managementCluster)
  {
    hide NpStoredInv, NpRowInv, NpBuilt, NpName, GetGeneration;
  }

  lemma NpParts(s: State, key: PoolKey)
    requires NpInv(s, key)
    ensures NpStoredInv(s, key) && NpRowInv(s, key) && NpPcOk(s, key, NpOf(s, key))
  {
    hide NpStoredInv, NpRowInv, NpPcOk;
  }

  lemma NpOneHome(s: State, key: PoolKey, n: NodePool, c: Cluster, p: PlacementData, work: ManifestWork)
    requires NpStoredInv(s, key) && key in s.pools && NpBuilt(s, key, n, c, p, work)
    ensures forall m :: (m, NpName(key.1)) in s.works ==> m == p.managementCluster
  {
    hide NpContent, NpName, Placed, HcThere, NpHeld, Snapshot, IsNpWork, WorkValid;
  }

  lemma NpWriteTarget(s: State, key: PoolKey)
    requires NpInv(s, key) && PoolRecordInv(s, key) && NpOf(s, key).NpWrite?
    ensures var pc := NpOf(s, key); NpTarget(s, key, Land) == NpWrite(pc.n, pc.c, pc.p, pc.work, pc.op, true)
  {
    hide NpTarget, NpInv, NpBuilt, NpName, PoolRecordInv, WorkValid, GetGeneration, CanWrite;
    NpHolds(s, key);
    NpWriteFacts(s, key);
    NpTargetIs(s, key, Land);
  }

  lemma NpWriteStoresExactly(s: State, key: PoolKey)
    requires NpInv(s, key) && PoolRecordInv(s, key) && NpOf(s, key).NpWrite?
    ensures StoresExactly(NpNext(s, key, Land), key, NpOf(s, key).p, NpOf(s, key).work)
  {
    hide NpNext, NpInv, NpStoredInv, NpRowInv, NpPcOk, NpBuilt, NpName, GetGeneration, WriteWork, WorkValid,
      PoolRecordInv, CanWrite;
    var t, pc := NpNext(s, key, Land), NpOf(s, key);
    var wk := NpKey(key, pc.p);
    NpWriteEffect(s, key);
    NpHolds(s, key);
    NpNeedsPool(s, key);
    NpWriteFacts(s, key);
    NpParts(s, key);
    HcSteps.WritesOneKey(s.works, wk, pc.work, pc.op);
    NpOneHome(s, key, pc.n, pc.c, pc.p, pc.work);
    if CanWrite(s.works, wk, pc.op) {
      NpWriteLeaves(s, key, pc.n, pc.c, pc.p, pc.work, pc.op);
    } else {
      NpLandedFacts(s, key);
      HcSteps.CannotWrite(s.works, wk, pc.work, pc.op);
    }
  }

  lemma ValidIsPositive(work: ManifestWork)
    requires WorkValid(work)
    ensures Gen(work) > 0
  {
    hide GetGeneration;
  }

  /** The new content is sound in the new state. */
  lemma NpWrittenStored(s: State, t: State, key: PoolKey, n: NodePool, c: Cluster, p: PlacementData, work: ManifestWork)
    requires NpBuilt(s, key, n, c, p, work) && Gen(work) == n.generation && work.namespace == "" && Grows(s, t)
    requires StoresExactly(t, key, p, work)
    ensures NpStoredInv(t, key)
  {
    ValidIsPositive(work);
    NpWorkFrame(s, t, n, c, work);
    hide IsNpWork, NpName, HcName, GetGeneration, Placed, PoolRows, Find, WorkValid;
    assert Unfiled(Filed(work, p.managementCluster)) == work;
    var w := t.works[NpKey(key, p)].work;
    assert NpContent(t, key, p.managementCluster, w) by {
      assert c.generation in t.clusters[key.0].history
        && IsNpWork(t, t.pools[key].history[Gen(w)], t.clusters[key.0].history[c.generation], Unfiled(w));
    }
  }

  /** A built work stays justified once the store and the reports are known to be no newer than it. */
  lemma NpBuiltMoves(s: State, t: State, key: PoolKey, n: NodePool, c: Cluster, p: PlacementData, work: ManifestWork)
    requires NpBuilt(s, key, n, c, p, work) && Grows(s, t)
    ensures Snapshot(t, key.0, c) && Placed(t, key.0) == Some(p) && HcThere(t, key.0) && IsNpWork(t, n, c, work)
    ensures PoolSnapshot(t, key, n)
  {
    NpWorkFrame(s, t, n, c, work);
    hide IsNpWork, NpName, HcName, GetGeneration, Placed, PoolRows, Find, WorkValid;
  }

  lemma NpWrittenApplied(s: State, t: State, key: PoolKey, n: NodePool, c: Cluster, p: PlacementData,
          work: ManifestWork)
    requires NpBuilt(s, key, n, c, p, work) && Gen(work) == n.generation && Grows(s, t)
    requires PoolRows(t, key) == PoolRows(s, key)
    requires StoresExactly(t, key, p, work)
    ensures NpRowInv(t, key) && NpApplied(t, key, n, c, p, work)
  {
    NpBuiltMoves(s, t, key, n, c, p, work);
    hide NpBuilt, NpName, HcName, GetGeneration, Placed, PoolRows, Find, WorkValid;
  }

  lemma NpInvOf(t: State, key: PoolKey)
    requires NpStoredInv(t, key) && NpRowInv(t, key) && NpPcOk(t, key, NpOf(t, key))
    ensures NpInv(t, key)
  {
    hide NpStoredInv, NpRowInv, NpPcOk;
  }

  lemma NpOwnWrite(s: State, key: PoolKey)
    requires NpInv(s, key) && PoolRecordInv(s, key) && NpOf(s, key).NpWrite? && Grows(s, NpNext(s, key, Land))
    ensures NpInv(NpNext(s, key, Land), key)
  {
    var t, pc := NpNext(s, key, Land), NpOf(s, key);
    NpWriteEffect(s, key);
    NpWriteStoresExactly(s, key);
    NpHolds(s, key);
    KeepPoolRows(s, t, key);
    hide NpNext, NpInv, NpName, IsNpWork, PoolRows, Placed, PoolRecordInv, WriteWork, GetGeneration, WorkValid, NpBuilt,
      Grows;
    NpWrittenStored(s, t, key, pc.n, pc.c, pc.p, pc.work);
    NpWrittenApplied(s, t, key, pc.n, pc.c, pc.p, pc.work);
    assert NpPcOk(t, key, NpOf(t, key)) by { hide NpStoredInv, NpRowInv; }
    NpInvOf(t, key);
  }

  lemma NpReportedOk(s: State, t: State, key: PoolKey, n: NodePool, c: Cluster, p: PlacementData,
          work: ManifestWork, entry: AdapterStatus)
    requires NpApplied(s, key, n, c, p, work) && entry.observedGeneration == n.generation
    requires Grows(s, t) && t.works == s.works && Find(PoolRows(t, key), NODE_POOL) == Some(entry)
    ensures NpRowInv(t, key) && NpApplied(t, key, n, c, p, work)
  {
    NpBuiltMoves(s, t, key, n, c, p, work);
    hide NpBuilt, NpName, HcName, GetGeneration, Placed, PoolRows, Find, WorkValid;
  }

  lemma NpStoredSame(s: State, t: State, key: PoolKey)
    requires NpStoredInv(s, key) && Grows(s, t) && t.works == s.works && t.pools == s.pools
    ensures NpStoredInv(t, key)
  {
    hide IsNpWork, NpName, HcName, GetGeneration, Placed, NpContent, Grows;
    if key in t.pools {
      forall m | (m, NpName(key.1)) in t.works
        ensures HcThere(t, key.0) && Placed(t, key.0).value.managementCluster == m
        ensures NpContent(t, key, m, t.works[(m, NpName(key.1))].work)
      {
        NpContentFrame(s, t, key, m, t.works[(m, NpName(key.1))].work);
        ThereFrame(s, t, key.0);
      }
    }
  }

  lemma ThereFrame(s: State, t: State, cid: string)
    requires Grows(s, t) && HcThere(s, cid)
    ensures HcThere(t, cid) && Placed(t, cid) == Placed(s, cid)
  {
    hide Placed, HcName;
  }

  lemma NpOwnPut(s: State, key: PoolKey)
    requires NpInv(s, key) && NpOf(s, key).NpPut? && Grows(s, NpNext(s, key, Land))
    ensures NpInv(NpNext(s, key, Land), key)
  {
    var t, pc := NpNext(s, key, Land), NpOf(s, key);
    hide NpInv, NpStoredInv, NpRowInv, NpApplied, PoolRows, Find, PutPoolRow, Placed, GetGeneration, Grows, NpTarget;
    NpPutLandsAs(s, key);
    NpParts(s, key);
    PoolRowLands(s, t, key, pc.entry);
    NpStoredSame(s, t, key);
    NpReportedOk(s, t, key, pc.n, pc.c, pc.p, pc.work, pc.entry);
    NpInvOf(t, key);
  }

  lemma NpPutLandsAs(s: State, key: PoolKey)
    requires NpOf(s, key).NpPut?
    ensures var pc, t := NpOf(s, key), NpNext(s, key, Land);
            && t.poolStatuses == PutPoolRow(s, key, pc.entry) && t.works == s.works && t.pools == s.pools
            && NpOf(t, key) == NpPut(pc.n, pc.c, pc.p, pc.work, pc.entry, true)
  {
    hide PutPoolRow, NpGated, DecideWork, CanWrite, Found, Current, PoolFound, CurrentPool, Rows, NodePoolEntry,
      ReadStatus;
  }

  lemma NpOwn(s: State, key: PoolKey, m: Move)
    requires NpInv(s, key) && PoolRecordInv(s, key) && NvrInv(s, key) && HcInv(s, key.0) && RecordInv(s, key.0)
    requires Grows(s, NpNext(s, key, m))
    ensures NpInv(NpNext(s, key, m), key)
  {
    hide NpInv, PoolRecordInv, NvrInv, HcInv, RecordInv, Grows, NpNext;
    if m.Land? && NpOf(s, key).NpWrite? {
      NpOwnWrite(s, key);
    } else if m.Land? && NpOf(s, key).NpPut? {
      NpOwnPut(s, key);
    } else if m.Land? {
      NpLandsNothing(s, key);
    } else {
      NpOwnQuiet(s, key, m);
    }
  }

  lemma NpKeeps(s: State, key: PoolKey, m: Move)
    requires Inv(s)
    ensures Inv(NpNext(s, key, m)) && Grows(s, NpNext(s, key, m))
  {
    var t := NpNext(s, key, m);
    assert PoolRecordInv(s, key) && NvrInv(s, key) && NpInv(s, key) && HcInv(s, key.0) && RecordInv(s, key.0);
    NpTouches(s, key, m);
    hide Inv, PoolRecordInv, NvrInv, NpInv, HcInv, RecordInv, NpName, Find, NpNext, Placed, Rows, PoolRows;
    assert Grows(s, t) by {
      forall d { SameRows(s, t, d); }
      ProcessGrows(s, t);
    }
    hide Grows;
    NpOwn(s, key, m);
    NvrFrame(s, t, key);
    PoolStep(s, t, key);
  }
}
