// A run in which a node pool's skip keeps a work that writing would have changed.
module Staleness {
  import opened Wrappers
  import opened Text
  import opened Work
  import opened Generation
  import opened Status
  import opened ApiTypes
  import opened Payloads
  import opened Release
  import opened Protocol
  import opened Invariants
  import opened Preservation
  import opened Runs
  import opened Whole
  import opened Effects
  import opened Goals
  import opened Convergence
  import opened Settling
  import Safety
  import HcManifest
  import ProcessSteps
  import NodePoolReconciler
  import World

  // ---- A schedule continues a run ----

  lemma StepReaches(s: State, a: Action)
    requires Reachable(s)
    ensures Reachable(Next(s, a))
  {
    hide Next, InRun;
    var run :| InRun(run, s);
    RunReaches(run, s, a);
  }

  lemma RunReaches(run: seq<State>, s: State, a: Action)
    requires InRun(run, s)
    ensures Reachable(Next(s, a))
  {
    hide Next, IsRun;
    var i :| 0 <= i < |run| && run[i] == s;
    PrefixIsRun(run, i);
    World.ExtendRun(run[..i + 1], s, a);
    var longer := run[..i + 1] + [Next(s, a)];
    assert longer[i + 1] == Next(s, a);
    assert InRun(longer, Next(s, a));
  }

  lemma PrefixIsRun(run: seq<State>, i: nat)
    requires IsRun(run) && i < |run|
    ensures IsRun(run[..i + 1])
  {
    hide Next, Step;
    var front := run[..i + 1];
    forall j | 0 <= j < |front| - 1 ensures Step(front[j], front[j + 1]) {
      assert Step(run[j], run[j + 1]);
    }
  }

  lemma EventReaches(s: State, e: Event)
    requires Reachable(s)
    ensures Reachable(Happen(s, e))
  {
    hide Happen, Reachable;
    StepReaches(s, Outside(e));
  }

  /** Schedules lead from reachable states to reachable ones. */
  lemma {:induction false} AfterReaches(s: State, acts: seq<Action>, i: nat)
    requires Reachable(s) && i <= |acts|
    ensures Reachable(After(s, acts, i))
  {
    hide Reachable, Next;
    if i > 0 {
      AfterReaches(s, acts, i - 1);
      StepReaches(After(s, acts, i - 1), acts[i - 1]);
    }
  }

  lemma LeadsReaches(s: State, t: State, g: Goal)
    requires Reachable(s) && Leads(s, t, g)
    ensures Reachable(t)
  {
    hide Reachable, After, GoodActions;
    var acts :| GoodActions(g, acts) && After(s, acts, |acts|) == t;
    AfterReaches(s, acts, |acts|);
  }

  // ---- The setting ----

  /** The node pool was settled, then nothing but the cluster's subnet was edited. */
  ghost predicate Edited(s: State, g: Goal, d: Cluster) {
    && Reachable(s) && AllReady(s, g) && HcAvailable(Rows(s, g.cid)) && AllIdle(s, g)
    && Found(s, g.cid) && Current(s, g.cid) == d && PoolOpen(s, g.Key(), g.n)
    && d.name == g.c.name && d.spec.gcp.subnet != g.c.spec.gcp.subnet
    && StoredFrom(s, g)
  }

  /** The stored node pool work was built for the cluster as it was before. */
  ghost predicate StoredFrom(s: State, g: Goal) {
    IsPlaced(s, g)
    && var k := NpKey(g.Key(), Placed(s, g.cid).value);
       k in s.works && Safety.SubnetOf(s.works[k].work) == g.c.spec.gcp.subnet
  }

  /** The next node pool reconcile then skips, and what it keeps is not what it built. */
  lemma SkipsStale(s: State, g: Goal, d: Cluster) returns (t: State)
    requires ValidGoal(g) && IsInt64(g.n.generation) && g.n.id == g.npid && Edited(s, g, d)
    ensures Reachable(t) && StaleSkip(t, g.Key())
  {
    hide Reachable, ValidGoal, AllReady, AllIdle, Found, Current, PoolOpen, StoredFrom, Rows, PoolRows, HcAvailable,
      StaleSkip, NpGate, NpBuild, GetGeneration, NpName, HasPoolVersion, PoolReady, Placement, NodePoolVR, WorkValid;
    var key := g.Key();
    GoalPool(g);
    NpIsIdle(s, g);
    ReadyParts(s, g);
    PoolGateIs(s, g);
    PlacedGate(s, g);
    PoolVersionSome(s, g);
    t := Gated(s, g, d);
    NpBuilds(g.n, d, NodePoolVR(PoolRows(s, key)).value.image);
    Stale(s, t, g, d, NpBuild(g.n, d, NodePoolVR(PoolRows(s, key)).value.image));
  }

  /** The nodepool process at its lookup, with the work it has built. */
  lemma Gated(s: State, g: Goal, d: Cluster) returns (t: State)
    requires Reachable(s) && NpOf(s, g.Key()) == NpIdle && PoolOpen(s, g.Key(), g.n) && g.n.clusterID == g.cid
    requires Found(s, g.cid) && Current(s, g.cid) == d
    requires NpGate(g.n, Rows(s, g.cid), PoolRows(s, g.Key())) && NodePoolVR(PoolRows(s, g.Key())).Some?
    requires IsInt64(g.n.generation) && g.n.generation > 0
    ensures Reachable(t) && t == s.(np := t.np)
    ensures NpOf(t, g.Key()) ==
      NpLookup(g.n, d, Placement(Rows(s, g.cid)).GetOr(PlacementData("", "")),
               NpBuild(g.n, d, NodePoolVR(PoolRows(s, g.Key())).value.image))
  {
    hide Reachable, Found, Current, PoolOpen, Rows, PoolRows, HcAvailable, Placement, NodePoolVR, Next, NpNext,
      NpTarget, NpBuild, WorkValid, GetGeneration, NpName;
    var key := g.Key();
    NpReads(s, key, g.n, d);
    var statuses := NpNext(NpNext(NpNext(s, key, Read), key, Read), key, Read);
    ReadsReach(s, key);
    NpStepIs(statuses, key, Read);
    NodePoolReconciler.StatusesRead(statuses, statuses, key, g.n, d, Rows(s, g.cid));
    ProcessSteps.KeepPoolRows(s, statuses, key);
    NpBuilds(g.n, d, NodePoolVR(PoolRows(s, key)).value.image);
    t := NpNext(statuses, key, Read);
    StepReaches(statuses, Np(key, Read));
  }

  lemma NpIsIdle(s: State, g: Goal)
    requires AllIdle(s, g)
    ensures NpOf(s, g.Key()) == NpIdle
  {
  }

  lemma GoalPool(g: Goal)
    requires ValidGoal(g)
    ensures g.n.clusterID == g.cid && g.n.generation > 0
  {
    hide BuildNodePoolChannel, HcAvailability, Reported;
  }

  lemma ReadyParts(s: State, g: Goal)
    requires AllReady(s, g)
    ensures IsPlaced(s, g) && HasPoolVersion(s, g) && PoolReady(s, g)
  {
    hide IsPlaced, HasPoolVersion, PoolReady, HcReady, HasVersion;
  }

  lemma PlacedGate(s: State, g: Goal)
    ensures IsPlaced(s, g) ==>
      Placement(Rows(s, g.cid)).GetOr(PlacementData("", "")) == Placed(s, g.cid).GetOr(PlacementData("", ""))
  {
    hide Rows, Placement;
  }

  lemma PoolVersionSome(s: State, g: Goal)
    requires HasPoolVersion(s, g)
    ensures NodePoolVR(PoolRows(s, g.Key())).Some?
  {
    hide PoolRows, NodePoolVR;
  }

  lemma ReadsReach(s: State, key: PoolKey)
    requires Reachable(s)
    ensures Reachable(NpNext(NpNext(NpNext(s, key, Read), key, Read), key, Read))
  {
    hide NpNext, NpOf, Next, Reachable;
    forall x, m | Reachable(x) ensures Reachable(NpNext(x, key, m)) { NpStepIs(x, key, m); StepReaches(x, Np(key, m)); }
  }

  ghost predicate StaleSkip(t: State, key: PoolKey) {
    NpOf(t, key).NpLookup?
    && var pc := NpOf(t, key);
       var k := (pc.p.managementCluster, pc.work.name);
       DecideWork(t, k, pc.work) == Skip && k in t.works && WriteWork(t.works, k, pc.work, Update) != t.works
  }

  lemma Stale(s: State, t: State, g: Goal, d: Cluster, work: ManifestWork)
    requires Reachable(t) && StoredFrom(s, g) && PoolReady(s, g) && t.works == s.works
    requires d.spec.gcp.subnet != g.c.spec.gcp.subnet
    requires work.name == NpName(g.npid) && Gen(work) == g.n.generation
    requires NpOf(t, g.Key()) == NpLookup(g.n, d, Placed(s, g.cid).GetOr(PlacementData("", "")), work)
    ensures StaleSkip(t, g.Key())
  {
    hide Reachable, Safety.SubnetOf, NpName, GetGeneration, Placed, Find, PoolRows, NodePoolEntry, WriteWork;
    Safety.NodePoolSkipAgreesIff(t, g.Key());
  }

  // ---- A concrete instance ----

  function Version(): string { "4.22.0" }
  function Image(): string { "quay.io/release:4.22.0" }

  function SpecWith(subnet: string): ClusterSpec {
    ClusterSpec("infra", "https://issuer", Version(),
      HcManifest.GcpConfig("project", "us-central1", "network", subnet, "",
                           HcManifest.WorkloadIdentity("", "", "", "", "", "", "", "", "")))
  }

  function Earlier(): Cluster { Cluster("c1", "demo", 1, "user", SpecWith("subnet-a")) }
  function Later(): Cluster { Cluster("c1", "demo", 2, "user", SpecWith("subnet-b")) }
  function Pool(): NodePool { NodePool("n1", "c1", "pool", 1, Version(), "us-central1", "") }

  function Up(): WorkStatus {
    WorkStatus([], [[], [], [], [Feedback(HcManifest.AVAILABLE_FEEDBACK, StringValue(Some("True")))]])
  }

  function Example(): Goal { Goal("c1", "n1", Earlier(), Pool(), Up(), WorkStatus([], [])) }

  lemma UpMeansAvailable()
    ensures HcAvailability(Reported(Up())) == "True"
  {
    var values := Up().resources[3];
    assert FeedbackMap(values[..0]) == map[];
    assert Reported(Up()).resourceStatuses[3] == FeedbackMap(values);
  }

  lemma VersionChannels()
    ensures BuildNodePoolChannel(Version()) == Some(BuildChannel(Version()))
  {
    assert Version()[1] == '.';
    ChannelsAgree(Version());
  }

  lemma ExampleValid()
    ensures ValidGoal(Example())
  {
    hide HcAvailability, Reported, BuildChannel, BuildNodePoolChannel, Up;
    UpMeansAvailable();
    VersionChannels();
  }

  function Start(): State {
    var created := Happen(INITIAL, CreateCluster("c1", Earlier()));
    var pooled := Happen(created, CreatePool(("c1", "n1"), Pool()));
    Happen(pooled, Publish(BuildChannel(Version()), Version(), Image()))
  }

  lemma InitialReachable()
    ensures Reachable(INITIAL)
  {
    assert InRun([INITIAL], INITIAL);
  }

  lemma StartReachable()
    ensures Reachable(Start())
  {
    hide Happen, Reachable, BuildChannel, Earlier, Pool;
    InitialReachable();
    EventReaches(INITIAL, CreateCluster("c1", Earlier()));
    var created := Happen(INITIAL, CreateCluster("c1", Earlier()));
    EventReaches(created, CreatePool(("c1", "n1"), Pool()));
    EventReaches(Happen(created, CreatePool(("c1", "n1"), Pool())),
                 Publish(BuildChannel(Version()), Version(), Image()));
  }

  lemma StartIs()
    ensures Start() == INITIAL.(clusters := map["c1" := ClusterRecord(map[1 := Earlier()], 1, [], false)],
                                pools := map[("c1", "n1") := PoolRecord(map[1 := Pool()], 1, false)],
                                releases := map[(BuildChannel(Version()), Version()) := Image()])
  {
    hide BuildChannel, SpecWith, Version, Image;
  }

  lemma StartQuiet()
    ensures InForce(Start(), Example()) && Unreconciled(Start(), Example()) && AllIdle(Start(), Example())
  {
    hide Inv, BuildChannel, Start, Reachable, Up, Version;
    StartReachable();
    ReachableInv(Start());
    StartIs();
    assert Image() != "";
  }

  /** The settled state, reached by a run. */
  lemma Settle() returns (s: State)
    ensures InForce(s, Example()) && AllIdle(s, Example()) && AllReady(s, Example()) && Reachable(s)
    ensures s.clusters == map["c1" := ClusterRecord(map[1 := Earlier()], 1, [], false)]
  {
    hide InForce, AllIdle, AllReady, Reachable, Start, Example, ValidGoal, Earlier, BuildChannel, After, GoodActions;
    StartReachable();
    StartQuiet();
    StartIs();
    ExampleValid();
    s := AllSettle(Start(), Example());
    LeadsReaches(Start(), s, Example());
  }

  /** There is only one detail the stored node pool work can have been built from. */
  lemma OneDetail(s: State, g: Goal)
    requires Inv(s) && PoolReady(s, g) && g.cid in s.clusters
    requires (forall k :: k in s.clusters[g.cid].history ==> s.clusters[g.cid].history[k] == g.c)
    requires g.Key() in s.pools
    ensures StoredFrom(s, g)
  {
    hide Inv, NvrInv, PoolRecordInv, NpName, GetGeneration, Placed, Find, PoolRows, NodePoolEntry, NpRowInv, NpPcOk,
      HcThere, NpBuild, Safety.SubnetOf, Reported, ReleaseOf;
    PoolPart(s, g.Key());
    var k := NpKey(g.Key(), Placed(s, g.cid).value);
    var w := s.works[k].work;
    assert NpContent(s, g.Key(), k.0, w);
    var i :| i in s.clusters[g.cid].history
      && IsNpWork(s, s.pools[g.Key()].history[Gen(w)], s.clusters[g.cid].history[i], Unfiled(w));
    var n := s.pools[g.Key()].history[Gen(w)];
    Safety.BuiltSubnet(n, g.c, ReleaseOf(s, n.releaseVersion).value.image);
    UnfiledSubnet(w);
  }

  lemma UnfiledSubnet(w: ManifestWork)
    ensures Safety.SubnetOf(Unfiled(w)) == Safety.SubnetOf(w)
  {
    hide StringAt;
  }

  lemma Details()
    ensures Earlier().generation == 1 && Later().generation == 2
    ensures Earlier().id == Later().id && Earlier().name == Later().name && Earlier().createdBy == Later().createdBy
  {
    hide SpecWith;
  }

  lemma EditIs(s: State, cid: string)
    requires cid in s.clusters && s.clusters[cid] == ClusterRecord(map[1 := Earlier()], 1, [], false)
    ensures var t := Happen(s, EditCluster(cid, Later()));
            && t == s.(clusters := t.clusters) && Found(t, cid) && Current(t, cid) == Later()
  {
    hide Earlier, Later;
    Details();
  }

  lemma EditKeepsView(s: State, t: State, g: Goal)
    requires t == s.(clusters := t.clusters) && PoolOpen(s, g.Key(), g.n) && AllIdle(s, g)
    ensures SameView(s, t, g) && PoolOpen(t, g.Key(), g.n) && AllIdle(t, g)
    ensures UpToDate(t, g) && PoolUpToDate(t, g)
  {
    hide HcName, NpName;
  }

  lemma EditedFrom(s: State) returns (t: State)
    requires InForce(s, Example()) && AllIdle(s, Example()) && AllReady(s, Example()) && Reachable(s)
    requires s.clusters == map["c1" := ClusterRecord(map[1 := Earlier()], 1, [], false)]
    ensures Edited(t, Example(), Later())
  {
    hide Inv, InForce, AllReady, Reachable, ValidGoal, Happen, SpecWith, SameView, PoolOpen, AllIdle, Open, Found,
      Current, StoredFrom, PoolReady, HcReady, IsPlaced, HasVersion, HasPoolVersion, HcAvailable, Rows, Up, Lasts,
      UpToDate, PoolUpToDate;
    var g := Example();
    ExampleValid();
    InForceParts(s, g);
    CurrentSound(s, g);
    ReadyParts(s, g);
    OneDetail(s, g);
    EditIs(s, "c1");
    EventReaches(s, EditCluster("c1", Later()));
    t := Happen(s, EditCluster("c1", Later()));
    EditKeepsView(s, t, g);
    ViewLasts(s, t, g);
    HcReadyOf(t, g);
    ReadyIsAvailable(t, g);
    StoredStays(s, t, g);
    SubnetsDiffer();
  }

  lemma HcReadyOf(s: State, g: Goal)
    requires AllReady(s, g)
    ensures HcReady(s, g)
  {
    hide IsPlaced, HasPoolVersion, PoolReady, HcReady, HasVersion;
  }

  lemma StoredStays(s: State, t: State, g: Goal)
    requires StoredFrom(s, g) && SameView(s, t, g)
    ensures StoredFrom(t, g)
  {
    ViewRows(s, t, g);
    hide Rows, PoolRows, Placed, NpName, HcName, Safety.SubnetOf;
  }

  lemma SubnetsDiffer()
    ensures Earlier().name == Later().name && Earlier().spec.gcp.subnet != Later().spec.gcp.subnet
  {
    assert "subnet-a"[7] != "subnet-b"[7];
  }

  /** A reachable state in which the node pool's apply skips although writing would change the store. */
  lemma SomeRunGoesStale()
    ensures exists s: State, key: PoolKey :: Reachable(s) && StaleSkip(s, key)
  {
    hide Reachable, StaleSkip, InForce, AllReady, Edited, ValidGoal, SpecWith, Up, Earlier, Later;
    var settled := Settle();
    var edited := EditedFrom(settled);
    ExampleValid();
    var stale := SkipsStale(edited, Example(), Later());
  }
}
