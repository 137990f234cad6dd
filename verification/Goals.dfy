// What a cluster and one of its node pools are to become, and how much of it has been achieved.
module Goals {
  import opened Wrappers
  import opened Text
  import opened Work
  import opened Generation
  import opened Status
  import opened ApiTypes
  import opened Payloads
  import opened Release
  import opened Upsert
  import opened Protocol
  import opened Invariants
  import opened Preservation
  import opened Effects
  import ProcessSteps
  import HcManifest
  import VersionReconciler
  import NodePoolVersionReconciler

  // One cluster and one of its node pools, as specified, and the statuses the agents report for their works.
  datatype Goal = Goal(cid: string, npid: string, c: Cluster, n: NodePool, up: WorkStatus, poolUp: WorkStatus) {
    function Key(): PoolKey { (cid, npid) }
  }

  ghost predicate ValidGoal(g: Goal) {
    && g.cid != "" && g.c.name != "" && g.c.spec.gcp.projectID != "" && g.c.spec.gcp.region != "" && g.c.generation > 0
    && g.c.spec.releaseVersion != "" && g.n.generation > 0 && g.n.clusterID == g.cid
    && g.n.releaseVersion != "" && BuildNodePoolChannel(g.n.releaseVersion).Some?
    && HcAvailability(Reported(g.up)) == "True"
  }

  ghost predicate Published(s: State, version: string) {
    (BuildChannel(version), version) in s.releases && s.releases[(BuildChannel(version), version)] != ""
  }

  ghost predicate Specified(s: State, g: Goal) {
    Found(s, g.cid) && Current(s, g.cid) == g.c
  }

  /** Sentinel has not declared the cluster reconciled. */
  ghost predicate Unreconciled(s: State, g: Goal) {
    g.cid in s.clusters && !IsReconciled(s.clusters[g.cid].conditions)
  }

  /** The specifications are the current ones and their versions are published. */
  ghost predicate InForce(s: State, g: Goal) {
    && Inv(s) && Specified(s, g) && PoolOpen(s, g.Key(), g.n)
    && Published(s, g.c.spec.releaseVersion) && Published(s, g.n.releaseVersion)
  }

  ghost predicate AllIdle(s: State, g: Goal) {
    PlOf(s, g.cid) == PlIdle && VrOf(s, g.cid) == VrIdle && HcOf(s, g.cid) == HcIdle
    && NvrOf(s, g.Key()) == NvrIdle && NpOf(s, g.Key()) == NpIdle
  }

  // ---- Readiness ----

  ghost predicate IsPlaced(s: State, g: Goal) {
    Placed(s, g.cid).Some?
  }

  ghost predicate HasVersion(s: State, g: Goal) {
    VersionReconciler.Resolved(Rows(s, g.cid), g.c)
  }

  ghost predicate HasPoolVersion(s: State, g: Goal) {
    NodePoolVersionReconciler.Resolved(PoolRows(s, g.Key()), g.n)
  }

  ghost predicate HasWork(s: State, g: Goal) {
    HcThere(s, g.cid) && Gen(s.works[HcKey(g.cid, Placed(s, g.cid).value)].work) == g.c.generation
  }

  ghost predicate AgentHeard(s: State, g: Goal) {
    HasWork(s, g) && s.works[HcKey(g.cid, Placed(s, g.cid).value)].status == g.up
  }

  function UpEntry(g: Goal): AdapterStatus {
    HcEntry(g.c.generation, Some(Reported(g.up)))
  }

  /** A report the hc process may have on its way says what the agent says. */
  ghost predicate UpToDate(s: State, g: Goal) {
    HcOf(s, g.cid).HcPut? ==> HcOf(s, g.cid).entry == UpEntry(g)
  }

  ghost predicate HcReady(s: State, g: Goal) {
    AgentHeard(s, g) && Find(Rows(s, g.cid), HC) == Some(UpEntry(g)) && UpToDate(s, g)
  }

  ghost predicate PoolStored(s: State, g: Goal) {
    IsPlaced(s, g)
    && var k := NpKey(g.Key(), Placed(s, g.cid).value);
       k in s.works && Gen(s.works[k].work) == g.n.generation
  }

  ghost predicate PoolHeard(s: State, g: Goal) {
    PoolStored(s, g) && s.works[NpKey(g.Key(), Placed(s, g.cid).value)].status == g.poolUp
  }

  function PoolUpEntry(g: Goal): AdapterStatus {
    NodePoolEntry(g.n.generation, Some(Reported(g.poolUp)))
  }

  ghost predicate PoolUpToDate(s: State, g: Goal) {
    NpOf(s, g.Key()).NpPut? ==> NpOf(s, g.Key()).entry == PoolUpEntry(g)
  }

  ghost predicate PoolReady(s: State, g: Goal) {
    PoolHeard(s, g) && Find(PoolRows(s, g.Key()), NODE_POOL) == Some(PoolUpEntry(g)) && PoolUpToDate(s, g)
  }

  ghost function Count(b: bool): nat { if b then 1 else 0 }

  ghost function Readiness(s: State, g: Goal): nat {
    Count(IsPlaced(s, g)) + Count(HasVersion(s, g)) + Count(HasPoolVersion(s, g)) + Count(HasWork(s, g))
    + Count(AgentHeard(s, g)) + Count(HcReady(s, g))
    + Count(PoolStored(s, g)) + Count(PoolHeard(s, g)) + Count(PoolReady(s, g))
  }

  ghost predicate AllReady(s: State, g: Goal) {
    IsPlaced(s, g) && HasVersion(s, g) && HasPoolVersion(s, g) && HcReady(s, g) && PoolReady(s, g)
  }

  lemma Ladder(s: State, g: Goal)
    ensures IsPlaced(s, g) <==> Placed(s, g.cid).Some?
    ensures (HcReady(s, g) ==> AgentHeard(s, g)) && (AgentHeard(s, g) ==> HasWork(s, g))
    ensures (HasWork(s, g) ==> IsPlaced(s, g))
    ensures (PoolReady(s, g) ==> PoolHeard(s, g)) && (PoolHeard(s, g) ==> PoolStored(s, g))
    ensures (PoolStored(s, g) ==> IsPlaced(s, g))
    ensures HasWork(s, g) ==> HcThere(s, g.cid)
    ensures (HcReady(s, g) ==> UpToDate(s, g)) && (PoolReady(s, g) ==> PoolUpToDate(s, g))
  {
    hide Placed, HcName, NpName, GetGeneration, Find, Rows, PoolRows, UpEntry, UpToDate, PoolUpEntry, PoolUpToDate;
  }

  /** No part of readiness is undone. */
  ghost predicate Lasts(s: State, t: State, g: Goal) {
    && (IsPlaced(s, g) ==> IsPlaced(t, g)) && (HasVersion(s, g) ==> HasVersion(t, g))
    && (HasPoolVersion(s, g) ==> HasPoolVersion(t, g))
    && (HasWork(s, g) ==> HasWork(t, g)) && (AgentHeard(s, g) ==> AgentHeard(t, g)) && (HcReady(s, g) ==> HcReady(t, g))
    && (PoolStored(s, g) ==> PoolStored(t, g)) && (PoolHeard(s, g) ==> PoolHeard(t, g))
    && (PoolReady(s, g) ==> PoolReady(t, g))
  }

  lemma LastsTransitive(s: State, t: State, u: State, g: Goal)
    requires Lasts(s, t, g) && Lasts(t, u, g)
    ensures Lasts(s, u, g)
  {
    hide IsPlaced, HasVersion, HasPoolVersion, HasWork, AgentHeard, HcReady, PoolStored, PoolHeard, PoolReady;
  }

  lemma LastsReflexive(s: State, g: Goal)
    ensures Lasts(s, s, g)
  {
    hide IsPlaced, HasVersion, HasPoolVersion, HasWork, AgentHeard, HcReady, PoolStored, PoolHeard, PoolReady;
  }

  /** The works of one name, status included. */
  ghost predicate SameStored(s: State, t: State, name: string) {
    forall k: Key :: k.1 == name ==> (k in t.works <==> k in s.works) && (k in s.works ==> t.works[k] == s.works[k])
  }

  /** Everything stored about the cluster and the node pool is the same. */
  ghost predicate SameView(s: State, t: State, g: Goal) {
    Rows(t, g.cid) == Rows(s, g.cid) && PoolRows(t, g.Key()) == PoolRows(s, g.Key())
    && SameStored(s, t, HcName(g.cid)) && SameStored(s, t, NpName(g.npid))
  }

  lemma ViewReflexive(s: State, g: Goal)
    ensures SameView(s, s, g)
  {
  }

  lemma ViewTransitive(s: State, t: State, u: State, g: Goal)
    requires SameView(s, t, g) && SameView(t, u, g)
    ensures SameView(s, u, g)
  {
    hide Rows, PoolRows, HcName, NpName;
  }

  // ---- What a step may leave different without undoing anything ----

  lemma VersionReads(s: State, t: State, g: Goal)
    requires SameRow(s, t, g.cid, VERSION_RESOLUTION)
    ensures HasVersion(t, g) <==> HasVersion(s, g)
  {
    hide Find, Rows, ReadVersion;
  }

  lemma PoolVersionReads(s: State, t: State, g: Goal)
    requires SamePoolRow(s, t, g.Key(), NODE_POOL_VR)
    ensures HasPoolVersion(t, g) <==> HasPoolVersion(s, g)
  {
    hide Find, PoolRows, ReadVersion;
  }

  lemma SameWork(s: State, t: State, g: Goal)
    requires IsPlaced(s, g) ==> Placed(t, g.cid) == Placed(s, g.cid)
    requires SameStored(s, t, HcName(g.cid))
    ensures (HasWork(s, g) ==> HasWork(t, g)) && (AgentHeard(s, g) ==> AgentHeard(t, g))
  {
    hide Placed, HcName, GetGeneration;
  }

  lemma SamePoolWork(s: State, t: State, g: Goal)
    requires IsPlaced(s, g) ==> Placed(t, g.cid) == Placed(s, g.cid)
    requires SameStored(s, t, NpName(g.npid))
    ensures (PoolStored(s, g) ==> PoolStored(t, g)) && (PoolHeard(s, g) ==> PoolHeard(t, g))
  {
    hide Placed, NpName, GetGeneration;
  }

  lemma SameHcReady(s: State, t: State, g: Goal)
    requires AgentHeard(s, g) ==> AgentHeard(t, g)
    requires SameRow(s, t, g.cid, HC) && (HcReady(s, g) ==> UpToDate(t, g))
    ensures HcReady(s, g) ==> HcReady(t, g)
  {
    hide AgentHeard, UpEntry, Find, Rows, UpToDate;
  }

  lemma SamePoolReady(s: State, t: State, g: Goal)
    requires PoolHeard(s, g) ==> PoolHeard(t, g)
    requires SamePoolRow(s, t, g.Key(), NODE_POOL) && (PoolReady(s, g) ==> PoolUpToDate(t, g))
    ensures PoolReady(s, g) ==> PoolReady(t, g)
  {
    hide PoolHeard, PoolUpEntry, Find, PoolRows, PoolUpToDate;
  }

  /** A step that leaves the view alone undoes nothing, unless it sends an old report. */
  lemma ViewLasts(s: State, t: State, g: Goal)
    requires SameView(s, t, g) && (HcReady(s, g) ==> UpToDate(t, g)) && (PoolReady(s, g) ==> PoolUpToDate(t, g))
    ensures Lasts(s, t, g) && (AllReady(s, g) ==> AllReady(t, g))
  {
    ViewRows(s, t, g);
    hide Rows, PoolRows, Find, HcName, NpName, Placed, HasVersion, HasPoolVersion, HasWork, AgentHeard, HcReady,
      PoolStored, PoolHeard, PoolReady, UpToDate, PoolUpToDate;
    VersionReads(s, t, g);
    PoolVersionReads(s, t, g);
    SameWork(s, t, g);
    SamePoolWork(s, t, g);
    SamePoolReady(s, t, g);
    SameHcReady(s, t, g);
  }

  lemma ViewRows(s: State, t: State, g: Goal)
    requires SameView(s, t, g)
    ensures SameRow(s, t, g.cid, HC) && SameRow(s, t, g.cid, VERSION_RESOLUTION) && Placed(t, g.cid) == Placed(s, g.cid)
    ensures SamePoolRow(s, t, g.Key(), NODE_POOL) && SamePoolRow(s, t, g.Key(), NODE_POOL_VR)
    ensures SameStored(s, t, HcName(g.cid)) && SameStored(s, t, NpName(g.npid))
  {
    ProcessSteps.PlacedFollowsRows(s, t, g.cid);
    hide Rows, PoolRows, Find, HcName, NpName, Placed;
  }

  lemma StoresSame(s: State, t: State, g: Goal)
    requires t.works == s.works && t.poolStatuses == s.poolStatuses && t.clusterStatuses == s.clusterStatuses
    ensures SameView(s, t, g)
  {
    ProcessSteps.KeepRows(s, t, g.cid);
    SamePoolRows(s, t, g.Key());
    hide Rows, PoolRows, HcName, NpName;
  }

  /** A PUT of the entry that is there changes nothing. */
  lemma PutAgain(s: State, t: State, g: Goal, entry: AdapterStatus)
    requires t.works == s.works && t.poolStatuses == s.poolStatuses && t.clusterStatuses == PutRow(s, g.cid, entry)
    requires Find(Rows(s, g.cid), entry.adapter) == Some(entry)
    ensures SameView(s, t, g)
  {
    PutSame(Rows(s, g.cid), entry);
    SamePoolRows(s, t, g.Key());
    hide PoolRows, HcName, NpName, PutStatus, Find;
  }

  lemma PoolPutAgain(s: State, t: State, g: Goal, entry: AdapterStatus)
    requires t.works == s.works && t.clusterStatuses == s.clusterStatuses
    requires t.poolStatuses == PutPoolRow(s, g.Key(), entry)
    requires Find(PoolRows(s, g.Key()), entry.adapter) == Some(entry)
    ensures SameView(s, t, g)
  {
    PutSame(PoolRows(s, g.Key()), entry);
    SameRows(s, t, g.cid);
    hide Rows, HcName, NpName, PutStatus, Find;
  }

  /** What a PUT to the cluster's entries leaves alone. */
  lemma RowStep(s: State, t: State, g: Goal, entry: AdapterStatus)
    requires t.works == s.works && t.poolStatuses == s.poolStatuses && t.clusterStatuses == PutRow(s, g.cid, entry)
    ensures Find(Rows(t, g.cid), entry.adapter) == Some(entry)
    ensures entry.adapter != HC ==> SameRow(s, t, g.cid, HC)
    ensures entry.adapter != VERSION_RESOLUTION ==> SameRow(s, t, g.cid, VERSION_RESOLUTION)
    ensures entry.adapter != PLACEMENT ==> Placed(t, g.cid) == Placed(s, g.cid)
    ensures PoolRows(t, g.Key()) == PoolRows(s, g.Key())
    ensures SamePoolRow(s, t, g.Key(), NODE_POOL) && SamePoolRow(s, t, g.Key(), NODE_POOL_VR)
    ensures SameStored(s, t, HcName(g.cid)) && SameStored(s, t, NpName(g.npid))
  {
    hide Find, Rows, PoolRows, PutRow, HcName, NpName, Placed;
    ProcessSteps.RowLands(s, t, g.cid, entry);
    SamePoolRows(s, t, g.Key());
    ProcessSteps.PlacedFollowsRows(s, t, g.cid);
  }

  lemma PoolRowStep(s: State, t: State, g: Goal, entry: AdapterStatus)
    requires t.works == s.works && t.clusterStatuses == s.clusterStatuses
    requires t.poolStatuses == PutPoolRow(s, g.Key(), entry)
    ensures Find(PoolRows(t, g.Key()), entry.adapter) == Some(entry)
    ensures entry.adapter != NODE_POOL ==> SamePoolRow(s, t, g.Key(), NODE_POOL)
    ensures entry.adapter != NODE_POOL_VR ==> SamePoolRow(s, t, g.Key(), NODE_POOL_VR)
    ensures Rows(t, g.cid) == Rows(s, g.cid) && Placed(t, g.cid) == Placed(s, g.cid)
    ensures SameRow(s, t, g.cid, HC) && SameRow(s, t, g.cid, VERSION_RESOLUTION)
    ensures SameStored(s, t, HcName(g.cid)) && SameStored(s, t, NpName(g.npid))
  {
    hide Find, Rows, PoolRows, PutPoolRow, HcName, NpName, Placed;
    ProcessSteps.PoolRowLands(s, t, g.Key(), entry);
    SameRows(s, t, g.cid);
  }

  // ---- Facts about specifications in force ----

  lemma InForceParts(s: State, g: Goal)
    requires InForce(s, g)
    ensures Inv(s) && Specified(s, g) && PoolOpen(s, g.Key(), g.n)
    ensures Published(s, g.c.spec.releaseVersion) && Published(s, g.n.releaseVersion)
  {
    hide Inv, Specified, PoolOpen, Published;
  }

  lemma CurrentSound(s: State, g: Goal)
    requires InForce(s, g)
    ensures IsInt64(g.c.generation) && g.cid in s.clusters && s.clusters[g.cid].current == g.c.generation
    ensures IsInt64(g.n.generation) && g.Key() in s.pools && s.pools[g.Key()].current == g.n.generation
    ensures g.n.id == g.npid && g.n.clusterID == g.cid
  {
    hide Inv, Published, PlInv, VrInv, HcInv, NvrInv, NpInv;
    ClusterPart(s, g.cid);
    PoolPart(s, g.Key());
  }

  /** The gate is open exactly when the cluster is placed and its version resolved. */
  lemma GateIs(s: State, g: Goal)
    ensures HcGate(g.c, Rows(s, g.cid)) <==> IsPlaced(s, g) && HasVersion(s, g)
    ensures IsPlaced(s, g) ==> Placement(Rows(s, g.cid)) == Placed(s, g.cid)
  {
    hide Rows, Placement, VersionResolution;
  }

  /** Behind the gate the build succeeds. */
  lemma BuildsFor(s: State, g: Goal) returns (work: ManifestWork)
    requires ValidGoal(g) && InForce(s, g) && IsPlaced(s, g) && HasVersion(s, g)
    ensures HcBuild(g.cid, g.c, VersionResolution(Rows(s, g.cid)).value, Placed(s, g.cid).value) == Ok(work)
    ensures work.name == HcName(g.cid) && Gen(work) == g.c.generation
  {
    hide Inv, IsReconciled, BuildChannel, BuildNodePoolChannel, Rows, Placement, VersionResolution, HcAvailability,
      Reported, HcName, GetGeneration, HcManifest.Assemble, WorkValid, Published;
    var v, p := VersionResolution(Rows(s, g.cid)).value, Placed(s, g.cid).value;
    HcManifest.BuildFails(HcInput(g.cid, g.c, v, p));
    CurrentSound(s, g);
    assert HcManifest.Buildable(HcInput(g.cid, g.c, v, p));
    HcBuilds(g.cid, g.c, v, p) by { hide HcManifest.Build, HcManifest.Buildable; }
    work := HcBuild(g.cid, g.c, v, p).value;
  }

  /** The three-way gate. */
  lemma PoolGateIs(s: State, g: Goal)
    ensures NpGate(g.n, Rows(s, g.cid), PoolRows(s, g.Key())) <==>
      IsPlaced(s, g) && HcAvailable(Rows(s, g.cid)) && HasPoolVersion(s, g)
    ensures IsPlaced(s, g) ==> Placement(Rows(s, g.cid)) == Placed(s, g.cid)
  {
    hide Rows, PoolRows, Placement, NodePoolVR, HcAvailable;
  }

  lemma ReadyIsAvailable(s: State, g: Goal)
    requires ValidGoal(g) && HcReady(s, g)
    ensures HcAvailable(Rows(s, g.cid))
  {
    hide Rows, Find, Placed, HcName, GetGeneration, HcEntry, Reported, HcAvailability, ReadAvailable,
      BuildNodePoolChannel, UpToDate;
    AvailableMeans(g.c.generation, Some(Reported(g.up)));
  }
}
