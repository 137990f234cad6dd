// The main safety results, for every run and every reachable state of the five adapters.
module Safety {
  import opened Wrappers
  import opened Json
  import opened Text
  import opened Work
  import opened Generation
  import opened Documents
  import opened ApiTypes
  import opened Release
  import opened Resources
  import opened Upsert
  import opened Protocol
  import opened Invariants
  import opened Preservation
  import opened Runs
  import HcManifest
  import NodePoolManifest
  import EnvSteps
  import HcSteps
  import NpSteps
  import ProcessSteps

  // ---- Placement ----

  /** Once ready, a cluster's placement never changes again, whatever the interleaving. */
  lemma PlacementIsFinal(run: seq<State>, i: nat, j: nat, cid: string)
    requires IsRun(run) && i <= j < |run| && PlacementReady(Placement(Rows(run[i], cid)))
    ensures Placement(Rows(run[j], cid)) == Placement(Rows(run[i], cid))
  {
    hide IsRun, Rows, Placement;
    RunGrows(run, i, j);
    assert Placed(run[i], cid).Some?;
  }

  // ---- Generations over whole runs ----

  /** A stored work is never lost, its generation never goes down and never passes the API's. */
  lemma HcGenerationMonotone(run: seq<State>, i: nat, j: nat, m: string, cid: string)
    requires IsRun(run) && i <= j < |run| && (m, HcName(cid)) in run[i].works
    ensures var k := (m, HcName(cid));
            && k in run[j].works && Gen(run[i].works[k].work) <= Gen(run[j].works[k].work)
            && cid in run[j].clusters && 0 < Gen(run[j].works[k].work) <= run[j].clusters[cid].current
  {
    var k := (m, HcName(cid));
    hide IsRun, Inv, HcName, GetGeneration, HcInv, RecordInv, PlInv, VrInv, ReportsClimb;
    RunClimbs(run, i, j);
    RunKeeps(run, j);
    ClusterPart(run[j], cid);
    HcStoredGeneration(run[j], m, cid);
  }

  lemma HcStoredGeneration(s: State, m: string, cid: string)
    requires RecordInv(s, cid) && HcInv(s, cid) && (m, HcName(cid)) in s.works
    ensures cid in s.clusters && 0 < Gen(s.works[(m, HcName(cid))].work) <= s.clusters[cid].current
  {
    hide GetGeneration, HcName, HcRowInv, HcPcOk, Placed, Rows, IsHcWork;
    var w := s.works[(m, HcName(cid))].work;
    var p := Placed(s, cid).value;
    assert HcContent(s, cid, p, w);
    HcContentPositive(s, cid, p, w);
  }

  lemma HcContentPositive(s: State, cid: string, p: PlacementData, w: ManifestWork)
    requires cid in s.clusters && RecordInv(s, cid) && HcContent(s, cid, p, w)
    ensures Gen(w) > 0
  {
    var d := s.clusters[cid].history[Gen(w)];
    HcSteps.HcWorkFacts(s, cid, d, p, Unfiled(w));
    hide GetGeneration, IsHcWork, HcName;
  }

  lemma NpGenerationMonotone(run: seq<State>, i: nat, j: nat, m: string, key: PoolKey)
    requires IsRun(run) && i <= j < |run| && key in run[i].pools && (m, NpName(key.1)) in run[i].works
    ensures var k := (m, NpName(key.1));
            && k in run[j].works && Gen(run[i].works[k].work) <= Gen(run[j].works[k].work)
            && key in run[j].pools && 0 < Gen(run[j].works[k].work) <= run[j].pools[key].current
  {
    var k := (m, NpName(key.1));
    RunClimbs(run, i, j);
    RunGrows(run, i, j);
    RunKeeps(run, j);
    assert key in run[j].pools by { hide IsRun, Inv, WorksClimb, ReportsClimb, Placed, NpName; }
    hide IsRun, Inv, Grows, NpName, GetGeneration, NpInv, PoolRecordInv, NvrInv, ReportsClimb;
    PoolPart(run[j], key);
    NpStoredGeneration(run[j], m, key);
  }

  lemma NpStoredGeneration(s: State, m: string, key: PoolKey)
    requires PoolRecordInv(s, key) && NpInv(s, key) && key in s.pools && (m, NpName(key.1)) in s.works
    ensures 0 < Gen(s.works[(m, NpName(key.1))].work) <= s.pools[key].current
  {
    hide GetGeneration, NpName, NpRowInv, NpPcOk, HcThere, Placed, IsNpWork;
    assert NpContent(s, key, m, s.works[(m, NpName(key.1))].work);
  }

  // ---- What adapters report ----

  /**
   * The hc adapter has reported generation g only if the store holds the cluster's work at g or above, on
   * its one management cluster.
   */
  lemma NothingUnappliedIsReported(s: State, cid: string)
    requires Reachable(s) && Find(Rows(s, cid), HC).Some?
    ensures var p := Placement(Rows(s, cid));
            && PlacementReady(p) && (p.value.managementCluster, HcName(cid)) in s.works
            && Find(Rows(s, cid), HC).value.observedGeneration
               <= Gen(s.works[(p.value.managementCluster, HcName(cid))].work)
  {
    hide Reachable, Inv, HcName, GetGeneration, Rows, Find, HcStoredInv, HcPcOk, RecordInv, PlInv, VrInv, ReadPlacement;
    ReachableInv(s);
    ClusterPart(s, cid);
  }

  /** Any step that changes the hc entry makes it name exactly the generation stored at that moment. */
  lemma ReportIsExactWhenItLands(s: State, a: Action, cid: string)
    requires Reachable(s) && Find(Rows(Next(s, a), cid), HC) != Find(Rows(s, cid), HC)
    ensures var t, p := Next(s, a), Placement(Rows(s, cid));
            && PlacementReady(p) && (p.value.managementCluster, HcName(cid)) in t.works && Find(Rows(t, cid), HC).Some?
            && Find(Rows(t, cid), HC).value.observedGeneration ==
              Gen(t.works[(p.value.managementCluster, HcName(cid))].work)
  {
    hide Reachable, Inv;
    ReachableInv(s);
    OnlyHcReports(s, a, cid);
    hide Rows, Find, Next, HcNext, HcName, GetGeneration, RecordInv, PlInv, VrInv, HcInv, HcTarget;
    ClusterPart(s, cid);
    HcReportLands(s, cid);
    HcSteps.HcHolds(s, cid);
    assert Next(s, a) == HcNext(s, cid, Land) by { NextHc(s, cid); }
    hide IsHcWork, Placement, PlacementReady, HcHeld;
  }

  lemma NextHc(s: State, cid: string)
    ensures Next(s, Hc(cid, Land)) == HcNext(s, cid, Land)
  {
    hide HcNext;
  }

  lemma OnlyHcReports(s: State, a: Action, cid: string)
    requires Inv(s) && Find(Rows(Next(s, a), cid), HC) != Find(Rows(s, cid), HC)
    ensures a == Hc(cid, Land) && HcOf(s, cid).HcPut?
  {
    var t := Next(s, a);
    hide Inv, PlInv, VrInv, HcInv, NvrInv, NpInv, RecordInv, PoolRecordInv, PlNext, VrNext, HcNext, NvrNext, NpNext,
      Happen, Rows, PoolRows, Find;
    match a {
      case Outside(e) => EnvSteps.EventTouches(s, e); SameRows(s, t, cid);
      case Pl(d, m) => ClusterPart(s, d); ProcessSteps.PlTouches(s, d, m);
      case Vr(d, m) => ClusterPart(s, d); ProcessSteps.VrTouches(s, d, m);
      case Hc(d, m) => HcReportsOnly(s, d, m, cid);
      case Nvr(key, m) => PoolPart(s, key); ProcessSteps.NvrTouches(s, key, m); SameRows(s, t, cid);
      case Np(key, m) => PoolPart(s, key); NpSteps.NpTouches(s, key, m); SameRows(s, t, cid);
    }
  }

  lemma HcReportsOnly(s: State, d: string, m: Move, cid: string)
    requires Inv(s)
    ensures Find(Rows(HcNext(s, d, m), cid), HC) != Find(Rows(s, cid), HC) ==> d == cid && m.Land? && HcOf(s, d).HcPut?
  {
    hide Inv, PlInv, VrInv, HcInv, RecordInv, Rows, Find, HcTarget, WriteWork, PutRow;
    ClusterPart(s, d);
    HcSteps.HcTouchesRows(s, d, m);
    KeepsRows(s, HcNext(s, d, m), cid);
  }

  lemma KeepsRows(s: State, t: State, cid: string)
    ensures t.clusterStatuses == s.clusterStatuses ==> Rows(t, cid) == Rows(s, cid)
  {
  }

  /** Likewise any step that changes the nodepool entry names exactly the generation stored at that moment. */
  lemma PoolReportIsExactWhenItLands(s: State, a: Action, key: PoolKey)
    requires Reachable(s) && Find(PoolRows(Next(s, a), key), NODE_POOL) != Find(PoolRows(s, key), NODE_POOL)
    ensures var t, p := Next(s, a), Placement(Rows(s, key.0));
            && PlacementReady(p) && (p.value.managementCluster, NpName(key.1)) in t.works
            && Find(PoolRows(t, key), NODE_POOL).Some?
            && Find(PoolRows(t, key), NODE_POOL).value.observedGeneration
               == Gen(t.works[(p.value.managementCluster, NpName(key.1))].work)
  {
    hide Reachable, Inv, Rows, PoolRows, Find, Next, NpNext, NpName, HcName, GetGeneration, PoolRecordInv, NvrInv,
      NpInv, NpTarget, IsNpWork, NpHeld, HcThere, Snapshot, WorkValid, ReadPlacement;
    ReachableInv(s);
    OnlyNpReports(s, a, key);
    PoolPart(s, key);
    NpReportLands(s, key);
    NpSteps.NpHolds(s, key);
    NextNp(s, key);
  }

  lemma NextNp(s: State, key: PoolKey)
    ensures Next(s, Np(key, Land)) == NpNext(s, key, Land)
  {
    hide NpNext;
  }

  lemma OnlyNpReports(s: State, a: Action, key: PoolKey)
    requires Inv(s) && Find(PoolRows(Next(s, a), key), NODE_POOL) != Find(PoolRows(s, key), NODE_POOL)
    ensures a == Np(key, Land) && NpOf(s, key).NpPut?
  {
    hide Inv, PlInv, VrInv, HcInv, NvrInv, NpInv, RecordInv, PoolRecordInv, PlNext, VrNext, HcNext, NvrNext, NpNext,
      Happen, Rows, PoolRows, Find;
    var t := Next(s, a);
    match a {
      case Outside(e) => EnvSteps.EventTouches(s, e); SamePoolRows(s, t, key);
      case Pl(d, m) => ClusterPart(s, d); ProcessSteps.PlTouches(s, d, m); SamePoolRows(s, t, key);
      case Vr(d, m) => ClusterPart(s, d); ProcessSteps.VrTouches(s, d, m); SamePoolRows(s, t, key);
      case Hc(d, m) => ClusterPart(s, d); HcSteps.HcTouches(s, d, m); SamePoolRows(s, t, key);
      case Nvr(k, m) => PoolPart(s, k); ProcessSteps.NvrTouches(s, k, m);
      case Np(k, m) => NpReportsOnly(s, k, m, key);
    }
  }

  lemma NpReportsOnly(s: State, k: PoolKey, m: Move, key: PoolKey)
    requires Inv(s)
    ensures Find(PoolRows(NpNext(s, k, m), key), NODE_POOL) != Find(PoolRows(s, key), NODE_POOL)
        ==> k == key && m.Land? && NpOf(s, k).NpPut?
  {
    hide Inv, PoolRecordInv, NvrInv, NpInv, PoolRows, Find, NpTarget, WriteWork, PutPoolRow;
    PoolPart(s, k);
    NpSteps.NpTouchesRows(s, k, m);
    ProcessSteps.KeepPoolRows(s, NpNext(s, k, m), key);
  }

  /** Reported generations never go down. */
  lemma ReportsMonotone(run: seq<State>, i: nat, j: nat, cid: string, key: PoolKey)
    requires IsRun(run) && i <= j < |run|
    ensures Climbs(Find(Rows(run[i], cid), HC), Find(Rows(run[j], cid), HC))
    ensures Climbs(Find(PoolRows(run[i], key), NODE_POOL), Find(PoolRows(run[j], key), NODE_POOL))
  {
    hide IsRun, Rows, PoolRows, Find, Climbs, WorksClimb;
    RunClimbs(run, i, j);
  }

  /** The nodepool adapter likewise reports only what is stored. */
  lemma NothingUnappliedIsReportedForPools(s: State, key: PoolKey)
    requires Reachable(s) && Find(PoolRows(s, key), NODE_POOL).Some?
    ensures var p := Placement(Rows(s, key.0));
            && PlacementReady(p) && (p.value.managementCluster, NpName(key.1)) in s.works
            && Find(PoolRows(s, key), NODE_POOL).value.observedGeneration
               <= Gen(s.works[(p.value.managementCluster, NpName(key.1))].work)
  {
    hide Reachable, Inv, HcName, NpName, GetGeneration, Rows, PoolRows, Find, NpStoredInv, NpPcOk, PoolRecordInv,
      NvrInv, ReadPlacement;
    ReachableInv(s);
    PoolPart(s, key);
  }

  // ---- Skipping by generation against always writing ----

  /**
   * With the work built and the store about to be consulted: if the apply decides to skip, writing
   * instead would change nothing, not even the agent's status; if it decides to write, the write
   * leaves exactly the built work.
   */
  lemma SkipAgreesWithWriting(s: State, cid: string)
    requires Reachable(s) && HcOf(s, cid).HcLookup?
    ensures var pc := HcOf(s, cid);
            var key := (pc.p.managementCluster, pc.work.name);
            var op := DecideWork(s, key, pc.work);
            var after := WriteWork(s.works, key, pc.work, if op == Skip then Update else op);
            && (op == Skip ==> after == s.works)
            && key in after && after[key].work == Filed(pc.work, pc.p.managementCluster)
  {
    hide Reachable, Inv, HcName, GetGeneration, HcInv, RecordInv, PlInv, VrInv, HcBuilt, HcApplied, CanWrite, WriteWork,
      WorkValid;
    ReachableInv(s);
    ClusterPart(s, cid);
    var pc := HcOf(s, cid);
    var key := HcKey(cid, pc.p);
    HcSteps.HcHolds(s, cid);
    HcSteps.HcDecides(s, cid);
    var op := DecideWork(s, key, pc.work);
    HcForced(s, cid, pc.c, pc.p, pc.work, if op == Skip then Update else op, op == Skip);
  }

  lemma HcForced(s: State, cid: string, c: Cluster, p: PlacementData, work: ManifestWork, op: Operation, there: bool)
    requires HcInv(s, cid) && HcBuilt(s, cid, c, p, work) && IsInt64(c.generation)
    requires if there then HcApplied(s, cid, c, p, work) && op == Update else CanWrite(s.works, HcKey(cid, p), op)
    ensures var after := WriteWork(s.works, HcKey(cid, p), work, op);
            && HcKey(cid, p) in after && after[HcKey(cid, p)].work == Filed(work, p.managementCluster)
            && (there ==> after == s.works)
  {
    var key := HcKey(cid, p);
    hide HcName, GetGeneration, HcRowInv, HcPcOk, IsHcWork, Rows, Placed, HcContent, Patched, Created;
    HcSteps.HcWriteLeaves(s, cid, c, p, work, op);
    if there {
      assert WriteWork(s.works, key, work, op)[key] == s.works[key];
    }
  }

  /**
   * After every successful hc apply the stored work is exactly what Build gives for the snapshot
   * just read, the one resolution of its version, and the cluster's placement.
   */
  lemma StoredIsBuiltFromSnapshot(s: State, cid: string)
    requires Reachable(s) && (HcOf(s, cid).HcReadBack? || HcOf(s, cid).HcPut?)
    ensures var pc := HcOf(s, cid);
            && Placement(Rows(s, cid)) == Some(pc.p) && ReleaseOf(s, pc.c.spec.releaseVersion).Some?
            && HcBuild(cid, pc.c, ReleaseOf(s, pc.c.spec.releaseVersion).value, pc.p) == Ok(pc.work)
            && (pc.p.managementCluster, pc.work.name) in s.works
            && s.works[(pc.p.managementCluster, pc.work.name)].work == Filed(pc.work, pc.p.managementCluster)
  {
    hide Reachable, Inv, HcName, GetGeneration, HcInv, RecordInv, PlInv, VrInv, HcHeld, HcBuild, ReleaseOf, Rows,
      WorkValid, Placement, PlacementReady;
    ReachableInv(s);
    ClusterPart(s, cid);
    HcSteps.HcHolds(s, cid);
    HcAppliedIs(s, cid);
  }

  lemma HcAppliedIs(s: State, cid: string)
    requires HcInv(s, cid) && (HcOf(s, cid).HcReadBack? || HcOf(s, cid).HcPut?)
    ensures var pc := HcOf(s, cid); HcApplied(s, cid, pc.c, pc.p, pc.work)
  {
    hide HcStoredInv, HcRowInv, HcApplied;
  }

  /** The subnet a stored node pool work asks for. */
  function SubnetOf(work: ManifestWork): string {
    if work.spec.manifests == [] then "" else StringAt(work.spec.manifests[0], ["spec", "platform", "gcp", "subnet"])
  }

  lemma BuiltSubnet(n: NodePool, c: Cluster, image: string)
    ensures SubnetOf(NpBuild(n, c, image)) == c.spec.gcp.subnet
  {
    hide NodePoolManifest.Build;
    NodePoolManifest.NodePoolSays(NpInput(n, c, image));
  }

  /** Nothing but a cluster's name and subnet reaches a node pool's work. */
  lemma BuiltFromNameAndSubnet(n: NodePool, c: Cluster, d: Cluster, image: string)
    requires c.name == d.name
    ensures NpBuild(n, c, image) == NpBuild(n, d, image) <==> c.spec.gcp.subnet == d.spec.gcp.subnet
  {
    BuiltSubnet(n, c, image);
    BuiltSubnet(n, d, image);
    hide NodePoolManifest.Build, SubnetOf;
  }

  /**
   * For node pools skipping agrees with writing exactly when the stored subnet is still the one in
   * the cluster snapshot: the node pool's generation does not cover it.
   */
  lemma NodePoolSkipAgreesIff(s: State, key: PoolKey)
    requires Reachable(s) && NpOf(s, key).NpLookup?
    requires DecideWork(s, (NpOf(s, key).p.managementCluster, NpOf(s, key).work.name), NpOf(s, key).work) == Skip
    ensures var pc := NpOf(s, key);
            var k := (pc.p.managementCluster, pc.work.name);
            && k in s.works
            && (WriteWork(s.works, k, pc.work, Update) == s.works <==>
                SubnetOf(s.works[k].work) == pc.c.spec.gcp.subnet)
  {
    hide Reachable, Inv, NpName, HcName, GetGeneration, NpInv, PoolRecordInv, NvrInv, NpBuilt, SubnetOf, Patched, PlInv,
      VrInv, HcInv, RecordInv, WorkValid;
    ReachableInv(s);
    PoolPart(s, key);
    ClusterPart(s, key.0);
    var pc := NpOf(s, key);
    var k := NpKey(key, pc.p);
    NpSteps.NpHolds(s, key);
    assert k in s.works && Gen(s.works[k].work) == pc.n.generation;
    NpStoredAgainstBuilt(s, key, pc.n, pc.c, pc.p, pc.work) by { hide Gen; }
  }

  lemma NpStoredAgainstBuilt(s: State, key: PoolKey, n: NodePool, c: Cluster, p: PlacementData, work: ManifestWork)
    requires NpInv(s, key) && PoolRecordInv(s, key) && RecordInv(s, key.0) && NpBuilt(s, key, n, c, p, work)
    requires NpKey(key, p) in s.works && Gen(s.works[NpKey(key, p)].work) == n.generation
    ensures var k := NpKey(key, p);
            WriteWork(s.works, k, work, Update) == s.works <==> SubnetOf(s.works[k].work) == c.spec.gcp.subnet
  {
    var k := NpKey(key, p);
    var w := s.works[k].work;
    NpSteps.NpPatchStored(s, key, n, c, p, work) by { hide PoolRecordInv, RecordInv, NpBuilt, NpRowInv, NpPcOk; }
    NpStoredSubnet(s, key, n, c, p, work);
    hide NpInv, PoolRecordInv, RecordInv, NpBuilt, Patched, GetGeneration, NpName, SubnetOf;
    var after := WriteWork(s.works, k, work, Update);
    assert after == s.works[k := Stored(Filed(work, p.managementCluster), s.works[k].status)];
    assert after == s.works <==> w == Filed(work, p.managementCluster) by {
      assert after[k].work == Filed(work, p.managementCluster);
    }
  }

  lemma NpStoredSubnet(s: State, key: PoolKey, n: NodePool, c: Cluster, p: PlacementData, work: ManifestWork)
    requires NpInv(s, key) && RecordInv(s, key.0) && NpBuilt(s, key, n, c, p, work)
    requires NpKey(key, p) in s.works && Gen(s.works[NpKey(key, p)].work) == n.generation
    ensures var w := s.works[NpKey(key, p)].work;
            w == Filed(work, p.managementCluster) <==> SubnetOf(w) == c.spec.gcp.subnet
  {
    var w := s.works[NpKey(key, p)].work;
    var d := NpStoredFor(s, key, n, c, p, work);
    var image := ReleaseOf(s, n.releaseVersion).value.image;
    BuiltFromNameAndSubnet(n, c, d, image);
    BuiltSubnet(n, d, image);
    hide NpInv, RecordInv, NpBuilt, ReleaseOf, NpBuild, GetGeneration, NpName;
    assert w == Filed(Unfiled(w), p.managementCluster);
    assert SubnetOf(Unfiled(w)) == SubnetOf(w);
  }

  /** The cluster detail the stored node pool work was built from. */
  lemma NpStoredFor(s: State, key: PoolKey, n: NodePool, c: Cluster, p: PlacementData, work: ManifestWork)
    returns (d: Cluster)
    requires NpInv(s, key) && RecordInv(s, key.0) && NpBuilt(s, key, n, c, p, work)
    requires NpKey(key, p) in s.works && Gen(s.works[NpKey(key, p)].work) == n.generation
    ensures var w := s.works[NpKey(key, p)].work;
            && ReleaseOf(s, n.releaseVersion).Some? && d.name == c.name && w.namespace == p.managementCluster
            && Unfiled(w) == NpBuild(n, d, ReleaseOf(s, n.releaseVersion).value.image)
            && work == NpBuild(n, c, ReleaseOf(s, n.releaseVersion).value.image)
  {
    hide NpBuild, ReleaseOf, GetGeneration, NpName, HcName, NpRowInv, NpPcOk, Placed, PoolRows, Find, WorkValid,
      HcThere;
    var w := s.works[NpKey(key, p)].work;
    assert NpContent(s, key, p.managementCluster, w);
    var k :| k in s.clusters[key.0].history
      && IsNpWork(s, s.pools[key].history[Gen(w)], s.clusters[key.0].history[k], Unfiled(w));
    d := s.clusters[key.0].history[k];
  }

  /**
   * A node pool's skip cannot tell two details of its cluster apart at all, and the works they call
   * for are the same exactly when their subnets are.
   */
  lemma NodePoolSkipCanBeStale(n: NodePool, c: Cluster, d: Cluster, image: string)
    requires SameIdentity(c, d) && IsInt64(n.generation)
    ensures CompareGenerations(Gen(NpBuild(n, d, image)), Gen(NpBuild(n, c, image)), true) == Skip
    ensures NpBuild(n, d, image) == NpBuild(n, c, image) <==> d.spec.gcp.subnet == c.spec.gcp.subnet
  {
    hide NpBuild, GetGeneration;
    NpBuilds(n, c, image);
    NpBuilds(n, d, image);
    BuiltFromNameAndSubnet(n, d, c, image);
  }

  // ---- Provenance ----

  /**
   * The release image and channel in a stored hc work are the published payload and the channel of
   * the version the cluster's spec had at the work's own generation, which is never empty.
   */
  lemma VersionProvenance(s: State, m: string, cid: string)
    requires Reachable(s) && (m, HcName(cid)) in s.works
    ensures var w := s.works[(m, HcName(cid))].work;
            && cid in s.clusters && Gen(w) in s.clusters[cid].history
            && var version := s.clusters[cid].history[Gen(w)].spec.releaseVersion;
            && version != "" && (BuildChannel(version), version) in s.releases && |w.spec.manifests| == 5
            && var spec := At(w.spec.manifests[HcManifest.HOSTED_CLUSTER_INDEX], ["spec"]);
            && spec.Some? && StringAt(spec.value, ["channel"]) == BuildChannel(version)
            && At(spec.value, ["release"]) ==
              Some(StringObject(map["image" := s.releases[(BuildChannel(version), version)]]))
  {
    hide Reachable, Inv, HcName, GetGeneration, HcRowInv, HcPcOk, RecordInv, PlInv, VrInv, Rows, At, StringAt,
      StringObject, BuildChannel, HcBuild, Placed;
    ReachableInv(s);
    ClusterPart(s, cid);
    var w := s.works[(m, HcName(cid))].work;
    var p := Placed(s, cid).value;
    assert HcContent(s, cid, p, w);
    var c := s.clusters[cid].history[Gen(w)];
    HcReleaseIn(cid, c, ReleaseOf(s, c.spec.releaseVersion).value, p, Unfiled(w));
  }

  lemma HcReleaseIn(cid: string, c: Cluster, v: VersionData, p: PlacementData, work: ManifestWork)
    requires HcBuild(cid, c, v, p) == Ok(work)
    ensures |work.spec.manifests| == 5
    ensures var spec := At(work.spec.manifests[HcManifest.HOSTED_CLUSTER_INDEX], ["spec"]);
            && spec.Some? && StringAt(spec.value, ["channel"]) == v.channel
            && At(spec.value, ["release"]) == Some(StringObject(map["image" := v.image]))
  {
    hide HcManifest.Build, At, StringAt, StringObject, HcManifest.HostedClusterSpec;
    HcManifest.HostedClusterRelease(HcInput(cid, c, v, p));
    HcManifest.FeedbackIsWhereReadersLook(HcInput(cid, c, v, p));
  }

  /** What the objects of a cluster's work say of the cluster's detail and its placement. */
  ghost predicate SaysCluster(work: ManifestWork, cid: string, c: Cluster, p: PlacementData) {
    && |work.spec.manifests| == 5
    && var hosted, job := work.spec.manifests[3], work.spec.manifests[4];
       && Reads(hosted, ["kind"], "HostedCluster") && Reads(hosted, ["metadata", "name"], c.name)
       && Reads(hosted, ["metadata", "namespace"], "clusters-" + cid)
       && At(hosted, ["spec"]).Some? && At(hosted, ["spec", "platform", "gcp"]).Some?
       && var spec, gcp := At(hosted, ["spec"]).value, At(hosted, ["spec", "platform", "gcp"]).value;
          && Reads(spec, ["clusterID"], c.id) && Reads(spec, ["infraID"], c.spec.infraID)
          && Reads(spec, ["issuerURL"], c.spec.issuerURL)
          && Reads(spec, ["dns", "baseDomain"], "in." + c.name + "-user." + p.baseDomain)
          && Reads(gcp, ["project"], c.spec.gcp.projectID) && Reads(gcp, ["region"], c.spec.gcp.region)
          && Reads(gcp, ["networkConfig", "network", "name"], c.spec.gcp.network)
          && Reads(gcp, ["networkConfig", "privateServiceConnectSubnet", "name"], c.spec.gcp.subnet)
          && Reads(gcp, ["endpointAccess"], if c.spec.gcp.endpointAccess == "" then "Private"
                   else c.spec.gcp.endpointAccess)
          && HcManifest.IdentityAt(gcp, c.spec.gcp.identity)
          && Reads(job, ["spec", "subject"], c.createdBy)
  }

  lemma HcBuildSays(cid: string, c: Cluster, v: VersionData, p: PlacementData)
    requires HcBuild(cid, c, v, p).Ok?
    ensures SaysCluster(HcBuild(cid, c, v, p).value, cid, c, p)
  {
    hide HcManifest.Build, At, Reads, HcManifest.IdentityAt;
    var input := HcInput(cid, c, v, p);
    HcManifest.HostedClusterSays(input);
    HcManifest.HostedClusterPlatform(input);
    HcManifest.OthersSay(input);
    var host :| Reads(At(HcManifest.Build(input).value.spec.manifests[3], ["spec"]).value, ["dns", "baseDomain"], host)
                && HcManifest.IsHost(host, "in.", input);
    assert host == "in." + c.name + "-user." + p.baseDomain;
  }

  /**
   * In every reachable state the objects of a stored cluster work say, each at its place, what the cluster's
   * spec was at the work's own generation and where the cluster was placed.
   */
  lemma StoredSaysDetail(s: State, m: string, cid: string)
    requires Reachable(s) && (m, HcName(cid)) in s.works
    ensures var w := s.works[(m, HcName(cid))].work;
            && cid in s.clusters && Gen(w) in s.clusters[cid].history && PlacementReady(Placement(Rows(s, cid)))
            && SaysCluster(w, cid, s.clusters[cid].history[Gen(w)], Placement(Rows(s, cid)).value)
  {
    hide Reachable, Inv, HcName, GetGeneration, HcRowInv, HcPcOk, RecordInv, PlInv, VrInv, Rows, HcBuild, SaysCluster,
      ReleaseOf, Placement, PlacementReady;
    ReachableInv(s);
    ClusterPart(s, cid);
    var w := s.works[(m, HcName(cid))].work;
    var p := Placed(s, cid).value;
    assert HcContent(s, cid, p, w);
    var c := s.clusters[cid].history[Gen(w)];
    HcBuildSays(cid, c, ReleaseOf(s, c.spec.releaseVersion).value, p);
    SaysUnfiled(w, cid, c, p);
  }

  lemma SaysUnfiled(w: ManifestWork, cid: string, c: Cluster, p: PlacementData)
    requires SaysCluster(Unfiled(w), cid, c, p)
    ensures SaysCluster(w, cid, c, p)
  {
    hide At, Reads, HcManifest.IdentityAt;
  }

  /**
   * What the object of a node pool's work says of the pool's detail; the disks, the replicas and the
   * machine type are defaults.
   */
  ghost predicate SaysPool(work: ManifestWork, n: NodePool) {
    && |work.spec.manifests| == 1
    && var m := work.spec.manifests[0];
       && Reads(m, ["kind"], "NodePool") && Reads(m, ["metadata", "name"], n.name)
       && Reads(m, ["metadata", "namespace"], "clusters-" + n.clusterID)
       && At(m, ["spec", "replicas"]) == Some(Num(1))
       && Reads(m, ["spec", "platform", "gcp", "machineType"], "n2-standard-4")
       && Reads(m, ["spec", "platform", "gcp", "zone"], if n.zone == "" then n.region + "-a" else n.zone)
       && At(m, ["spec", "platform", "gcp", "bootDisk", "diskSizeGB"]) == Some(Num(100))
       && Reads(m, ["spec", "platform", "gcp", "bootDisk", "diskType"], "pd-ssd")
  }

  lemma NpBuildSays(n: NodePool, c: Cluster, image: string)
    ensures SaysPool(NpBuild(n, c, image), n)
    ensures var m := NpBuild(n, c, image).spec.manifests[0];
            && Reads(m, ["spec", "clusterName"], c.name) && Reads(m, ["spec", "release", "image"], image)
            && Reads(m, ["spec", "platform", "gcp", "subnet"], c.spec.gcp.subnet)
  {
    hide NodePoolManifest.Build, At, Reads;
    var input := NpInput(n, c, image);
    NodePoolManifest.NodePoolSays(input);
    assert input.zone != "";
  }

  /** The same of a stored node pool work and the node pool's detail at the work's own generation. */
  lemma StoredSaysPool(s: State, m: string, key: PoolKey)
    requires Reachable(s) && key in s.pools && (m, NpName(key.1)) in s.works
    ensures var w := s.works[(m, NpName(key.1))].work;
            Gen(w) in s.pools[key].history && SaysPool(w, s.pools[key].history[Gen(w)])
  {
    hide Reachable, Inv, NpName, GetGeneration, NpRowInv, NpPcOk, PoolRecordInv, NvrInv, NpBuild, HcThere, Placed,
      SaysPool, ReleaseOf;
    ReachableInv(s);
    PoolPart(s, key);
    var w := s.works[(m, NpName(key.1))].work;
    assert NpContent(s, key, m, w);
    var n := s.pools[key].history[Gen(w)];
    var k :| k in s.clusters[key.0].history && IsNpWork(s, n, s.clusters[key.0].history[k], Unfiled(w));
    NpBuildSays(n, s.clusters[key.0].history[k], ReleaseOf(s, n.releaseVersion).value.image);
    PoolSaysUnfiled(w, n);
  }

  lemma PoolSaysUnfiled(w: ManifestWork, n: NodePool)
    requires SaysPool(Unfiled(w), n)
    ensures SaysPool(w, n)
  {
    hide At, Reads;
  }

  /**
   * The release image in a stored node pool work is the published payload of the version its spec had
   * at the work's own generation.
   */
  lemma PoolVersionProvenance(s: State, m: string, key: PoolKey)
    requires Reachable(s) && key in s.pools && (m, NpName(key.1)) in s.works
    ensures var w := s.works[(m, NpName(key.1))].work;
            && Gen(w) in s.pools[key].history
            && var version := s.pools[key].history[Gen(w)].releaseVersion;
            && version != "" && (BuildChannel(version), version) in s.releases && |w.spec.manifests| == 1
            && At(w.spec.manifests[0], ["spec", "release"])
               == Some(StringObject(map["image" := s.releases[(BuildChannel(version), version)]]))
  {
    hide Reachable, Inv, NpName, GetGeneration, NpRowInv, NpPcOk, PoolRecordInv, NvrInv, At, StringObject, BuildChannel,
      NpBuild, HcThere, Placed;
    ReachableInv(s);
    PoolPart(s, key);
    var w := s.works[(m, NpName(key.1))].work;
    assert NpContent(s, key, m, w);
    var n := s.pools[key].history[Gen(w)];
    var k :| k in s.clusters[key.0].history && IsNpWork(s, n, s.clusters[key.0].history[k], Unfiled(w));
    BuiltImage(n, s.clusters[key.0].history[k], ReleaseOf(s, n.releaseVersion).value.image);
  }

  lemma BuiltImage(n: NodePool, c: Cluster, image: string)
    ensures var work := NpBuild(n, c, image);
            |work.spec.manifests| == 1
            && At(work.spec.manifests[0], ["spec", "release"]) == Some(StringObject(map["image" := image]))
  {
    hide NodePoolManifest.Build, StringObject;
    NodePoolManifest.NodePoolSays(NpInput(n, c, image));
  }

  // ---- Co-location ----

  /** A cluster's work lives on at most one management cluster. */
  lemma OneManagementCluster(s: State, m: string, m': string, cid: string)
    requires Reachable(s) && (m, HcName(cid)) in s.works && (m', HcName(cid)) in s.works
    ensures m == m' && PlacementReady(Placement(Rows(s, cid))) && Placement(Rows(s, cid)).value.managementCluster == m
  {
    hide Reachable, Inv, HcName, HcContent, HcRowInv, HcPcOk, RecordInv, PlInv, VrInv, Rows, Find, ReadPlacement;
    ReachableInv(s);
    ClusterPart(s, cid);
  }

  /** What a HostedCluster in a stored work is called and where it lives. */
  lemma HostedClusterNamed(cid: string, c: Cluster, v: VersionData, p: PlacementData, work: ManifestWork)
    requires HcBuild(cid, c, v, p) == Ok(work)
    ensures |work.spec.manifests| == 5
    ensures var hosted := work.spec.manifests[HcManifest.HOSTED_CLUSTER_INDEX];
            GetName(hosted) == c.name && GetNamespace(hosted) == HcManifest.ClusterNamespace(cid)
  {
    hide HcManifest.Build, GetName, GetNamespace, HcManifest.ClusterNamespace, StringAt;
    HcManifest.FeedbackIsWhereReadersLook(HcInput(cid, c, v, p));
  }

  lemma NodePoolNamed(n: NodePool, c: Cluster, image: string)
    ensures var work := NpBuild(n, c, image);
            && |work.spec.manifests| == 1
            && GetNamespace(work.spec.manifests[0]) == HcManifest.ClusterNamespace(n.clusterID)
            && StringAt(work.spec.manifests[0], ["spec", NodePoolManifest.CLUSTER_NAME]) == c.name
  {
    NodePoolManifest.NodePoolRefersTo(NpInput(n, c, image));
    hide GetNamespace, StringAt, HcManifest.ClusterNamespace, NodePoolManifest.NodePool;
  }

  /**
   * A stored node pool work belongs to a known node pool, its cluster's work is on the same
   * management cluster, and the NodePool names the HostedCluster in that work and lives beside it.
   */
  lemma Colocation(s: State, m: string, npid: string)
    requires Reachable(s) && (m, NpName(npid)) in s.works
    ensures exists key :: key in s.pools && key.1 == npid && Colocated(s, m, key)
  {
    ReachableInv(s);
    var key := PoolOfWork(s, m, npid);
    hide Reachable, Inv, PoolRecordInv, NvrInv, NpInv, RecordInv, PlInv, VrInv, HcInv, Colocated, NpName;
    PoolPart(s, key);
    ClusterPart(s, key.0);
    PoolColocated(s, m, key);
  }

  ghost predicate Colocated(s: State, m: string, key: PoolKey) {
    && (m, NpName(key.1)) in s.works && (m, HcName(key.0)) in s.works
    && var pool := s.works[(m, NpName(key.1))].work.spec.manifests;
    var hosted := s.works[(m, HcName(key.0))].work.spec.manifests;
    && |pool| == 1 && |hosted| == 5
    && GetNamespace(pool[0]) == GetNamespace(hosted[HcManifest.HOSTED_CLUSTER_INDEX])
    && StringAt(pool[0], ["spec", NodePoolManifest.CLUSTER_NAME]) == GetName(hosted[HcManifest.HOSTED_CLUSTER_INDEX])
  }

  lemma PoolOfWork(s: State, m: string, npid: string) returns (key: PoolKey)
    requires Inv(s) && (m, NpName(npid)) in s.works
    ensures key in s.pools && key.1 == npid
  {
    NamesApart();
    assert OwnedInv(s) by { hide OwnedInv, RecordInv, PlInv, VrInv, HcInv, PoolRecordInv, NvrInv, NpInv; }
    hide Inv, HcName, NpName;
    key :| key in s.pools && (m, NpName(npid)).1 == NpName(key.1);
  }

  lemma PoolColocated(s: State, m: string, key: PoolKey)
    requires PoolRecordInv(s, key) && RecordInv(s, key.0) && NpInv(s, key) && HcInv(s, key.0)
    requires key in s.pools && (m, NpName(key.1)) in s.works
    ensures Colocated(s, m, key)
  {
    var n, d, image := StoredPool(s, m, key);
    var c, v, p := StoredHosted(s, m, key);
    NodePoolNamed(n, d, image);
    HostedClusterNamed(key.0, c, v, p, Unfiled(s.works[(m, HcName(key.0))].work));
    hide NpInv, HcInv, PoolRecordInv, NpBuild, HcBuild, GetNamespace, GetName, StringAt, HcManifest.ClusterNamespace,
      NpName, HcName;
  }

  lemma StoredPool(s: State, m: string, key: PoolKey) returns (n: NodePool, d: Cluster, image: string)
    requires PoolRecordInv(s, key) && NpInv(s, key) && key in s.pools && (m, NpName(key.1)) in s.works
    ensures n.clusterID == key.0 && Unfiled(s.works[(m, NpName(key.1))].work) == NpBuild(n, d, image)
    ensures key.0 in s.clusters && exists k :: k in s.clusters[key.0].history && d == s.clusters[key.0].history[k]
  {
    hide NpBuild, GetGeneration, NpName, HcName, NpRowInv, NpPcOk, Placed, HcThere, BuildChannel;
    var w := s.works[(m, NpName(key.1))].work;
    assert NpContent(s, key, m, w);
    n := s.pools[key].history[Gen(w)];
    var k :| k in s.clusters[key.0].history && IsNpWork(s, n, s.clusters[key.0].history[k], Unfiled(w));
    d := s.clusters[key.0].history[k];
    image := ReleaseOf(s, n.releaseVersion).value.image;
  }

  lemma StoredHosted(s: State, m: string, key: PoolKey) returns (c: Cluster, v: VersionData, p: PlacementData)
    requires NpInv(s, key) && HcInv(s, key.0) && key in s.pools && (m, NpName(key.1)) in s.works
    ensures (m, HcName(key.0)) in s.works && HcBuild(key.0, c, v, p) == Ok(Unfiled(s.works[(m, HcName(key.0))].work))
    ensures key.0 in s.clusters && exists k :: k in s.clusters[key.0].history && c == s.clusters[key.0].history[k]
  {
    hide HcBuild, GetGeneration, NpName, HcName, NpRowInv, NpPcOk, HcRowInv, HcPcOk, Placed, NpContent, BuildChannel;
    assert HcThere(s, key.0);
    p := Placed(s, key.0).value;
    var w := s.works[(m, HcName(key.0))].work;
    assert HcContent(s, key.0, p, w);
    c := s.clusters[key.0].history[Gen(w)];
    v := ReleaseOf(s, c.spec.releaseVersion).value;
  }
}
