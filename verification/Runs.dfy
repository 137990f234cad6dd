// The invariant over whole runs, and what runs never undo.
module Runs {
  import opened Wrappers
  import opened Work
  import opened Generation
  import opened ApiTypes
  import opened Upsert
  import opened Protocol
  import opened Invariants
  import opened Preservation
  import ProcessSteps
  import HcSteps
  import NpSteps
  import EnvSteps

  lemma ActionKeeps(s: State, a: Action)
    requires Inv(s)
    ensures Inv(Next(s, a)) && Grows(s, Next(s, a))
  {
    hide Inv, Grows, PlNext, VrNext, HcNext, NvrNext, NpNext, Happen;
    match a {
      case Outside(e) => EnvSteps.EventKeeps(s, e);
      case Pl(cid, m) => ProcessSteps.PlKeeps(s, cid, m);
      case Vr(cid, m) => ProcessSteps.VrKeeps(s, cid, m);
      case Hc(cid, m) => HcSteps.HcKeeps(s, cid, m);
      case Nvr(key, m) => ProcessSteps.NvrKeeps(s, key, m);
      case Np(key, m) => NpSteps.NpKeeps(s, key, m);
    }
  }

  lemma InitialInv()
    ensures Inv(INITIAL)
  {
  }

  lemma GrowsReflexive(s: State)
    ensures Grows(s, s)
  {
    hide Placed;
  }

  lemma GrowsTransitive(s: State, t: State, u: State)
    requires Grows(s, t) && Grows(t, u)
    ensures Grows(s, u)
  {
    hide Placed;
  }

  /** Every state of every run satisfies the invariant. */
  lemma {:induction false} RunKeeps(run: seq<State>, i: nat)
    requires IsRun(run) && i < |run|
    ensures Inv(run[i])
  {
    hide Inv, Grows, Next;
    if i == 0 {
      InitialInv();
    } else {
      RunKeeps(run, i - 1);
      assert Step(run[i - 1], run[i - 1 + 1]);
      var a :| run[i] == Next(run[i - 1], a);
      ActionKeeps(run[i - 1], a);
    }
  }

  lemma {:induction false} RunGrows(run: seq<State>, i: nat, j: nat)
    requires IsRun(run) && i <= j < |run|
    ensures Grows(run[i], run[j])
    decreases j - i
  {
    hide Inv, Grows, Next;
    if i == j {
      GrowsReflexive(run[i]);
    } else {
      RunGrows(run, i, j - 1);
      RunKeeps(run, j - 1);
      assert Step(run[j - 1], run[j - 1 + 1]);
      var a :| run[j] == Next(run[j - 1], a);
      ActionKeeps(run[j - 1], a);
      GrowsTransitive(run[i], run[j - 1], run[j]);
    }
  }

  ghost predicate InRun(run: seq<State>, s: State) {
    IsRun(run) && s in run
  }

  ghost predicate Reachable(s: State) {
    exists run :: InRun(run, s)
  }

  lemma ReachableInv(s: State)
    requires Reachable(s)
    ensures Inv(s)
  {
    hide Inv, InRun;
    var run :| InRun(run, s);
    InRunInv(run, s);
  }

  lemma InRunInv(run: seq<State>, s: State)
    requires InRun(run, s)
    ensures Inv(s)
  {
    hide Inv, IsRun;
    var i :| 0 <= i < |run| && s == run[i];
    RunKeeps(run, i);
  }

  // ---- Generations only rise ----

  /** No step lowers the generation of a stored work. */
  ghost predicate WorksClimb(s: State, t: State) {
    forall k :: k in s.works ==> k in t.works && Gen(s.works[k].work) <= Gen(t.works[k].work)
  }

  /** No step lowers a generation the hc or nodepool adapter has reported. */
  ghost predicate ReportsClimb(s: State, t: State) {
    && (forall cid :: Climbs(Find(Rows(s, cid), HC), Find(Rows(t, cid), HC)))
    && (forall key :: Climbs(Find(PoolRows(s, key), NODE_POOL), Find(PoolRows(t, key), NODE_POOL)))
  }

  ghost predicate Climbs(was: Option<AdapterStatus>, now: Option<AdapterStatus>) {
    was.Some? ==> now.Some? && was.value.observedGeneration <= now.value.observedGeneration
  }

  lemma HcWorksClimb(s: State, cid: string, m: Move)
    requires HcInv(s, cid) && RecordInv(s, cid)
    ensures WorksClimb(s, HcNext(s, cid, m))
  {
    var t, pc := HcNext(s, cid, m), HcOf(s, cid);
    HcSteps.HcTouchesWorks(s, cid, m);
    if pc.HcWrite? && m.Land? {
      HcSteps.HcHolds(s, cid);
      HcSteps.HcWriteStoresExactly(s, cid);
      HcLandingClimbs(s, t, cid, pc.c, pc.p, pc.work);
    } else {
      assert t.works == s.works by { hide HcInv, RecordInv, HcTarget, PutRow; }
    }
  }

  lemma HcLandingClimbs(s: State, t: State, cid: string, c: Cluster, p: PlacementData, work: ManifestWork)
    requires HcHeld(s, cid, c) && Gen(work) == c.generation && HcSteps.StoresExactly(s, t, cid, p, work)
    requires s.works.Keys <= t.works.Keys
    requires forall k: Key :: k.1 != HcName(cid) ==>
      (k in s.works <==> k in t.works) && (k in s.works ==> t.works[k] == s.works[k])
    ensures WorksClimb(s, t)
  {
    hide HcName, GetGeneration, Rows, Find, Snapshot;
    forall k | k in s.works ensures Gen(s.works[k].work) <= Gen(t.works[k].work) {
      if k.1 == HcName(cid) { assert k == (k.0, HcName(cid)); }
    }
  }

  lemma NpWorksClimb(s: State, key: PoolKey, m: Move)
    requires NpInv(s, key) && PoolRecordInv(s, key)
    ensures WorksClimb(s, NpNext(s, key, m))
  {
    var t, pc := NpNext(s, key, m), NpOf(s, key);
    NpSteps.NpTouchesWorks(s, key, m);
    if pc.NpWrite? && m.Land? {
      NpSteps.NpHolds(s, key);
      NpSteps.NpWriteStoresExactly(s, key);
      NpLandingClimbs(s, t, key, pc.n, pc.p, pc.work) by {
        hide NpInv, PoolRecordInv, NpNext, HcThere, WorkValid, IsNpWork;
      }
    } else {
      assert t.works == s.works by { hide NpInv, PoolRecordInv, NpTarget, PutPoolRow; }
    }
  }

  lemma NpLandingClimbs(s: State, t: State, key: PoolKey, n: NodePool, p: PlacementData, work: ManifestWork)
    requires NpHeld(s, key, n) && Gen(work) == n.generation && NpSteps.StoresExactly(t, key, p, work)
    requires s.works.Keys <= t.works.Keys
    requires forall k: Key :: k.1 != NpName(key.1) ==>
      (k in s.works <==> k in t.works) && (k in s.works ==> t.works[k] == s.works[k])
    ensures WorksClimb(s, t)
  {
    hide NpName, GetGeneration, PoolRows, Find, PoolSnapshot;
    forall k | k in s.works ensures Gen(s.works[k].work) <= Gen(t.works[k].work) {
      if k.1 == NpName(key.1) { assert k == (k.0, NpName(key.1)); }
    }
  }

  lemma UntouchedClimbs(s: State, t: State)
    requires EnvSteps.Untouched(s, t)
    ensures WorksClimb(s, t) && ReportsClimb(s, t)
  {
    hide GetGeneration, Find;
    forall cid { SameRows(s, t, cid); }
    forall key { SamePoolRows(s, t, key); }
  }

  /** The entries other processes own stay as they are. */
  lemma OthersReport(s: State, t: State, cid: string)
    requires t.poolStatuses == s.poolStatuses && (forall d :: d != cid ==> Rows(t, d) == Rows(s, d))
    requires Climbs(Find(Rows(s, cid), HC), Find(Rows(t, cid), HC))
    ensures ReportsClimb(s, t)
  {
    forall key { SamePoolRows(s, t, key); }
    hide Find, Rows, PoolRows;
  }

  lemma OthersPoolReport(s: State, t: State, key: PoolKey)
    requires t.clusterStatuses == s.clusterStatuses && (forall d :: d != key ==> PoolRows(t, d) == PoolRows(s, d))
    requires Climbs(Find(PoolRows(s, key), NODE_POOL), Find(PoolRows(t, key), NODE_POOL))
    ensures ReportsClimb(s, t)
  {
    forall cid { SameRows(s, t, cid); }
    hide Find, Rows, PoolRows;
  }

  /** When an hc report lands, its entry is the one reported and names the generation that is stored. */
  lemma HcReportLands(s: State, cid: string)
    requires HcInv(s, cid) && RecordInv(s, cid) && HcOf(s, cid).HcPut?
    ensures var t, pc := HcNext(s, cid, Land), HcOf(s, cid);
            && Find(Rows(t, cid), HC) == Some(pc.entry) && pc.entry.observedGeneration == pc.c.generation
            && HcKey(cid, pc.p) in t.works && Gen(t.works[HcKey(cid, pc.p)].work) == pc.c.generation
            && Climbs(Find(Rows(s, cid), HC), Some(pc.entry))
  {
    var t, pc := HcNext(s, cid, Land), HcOf(s, cid);
    hide HcInv, HcApplied, RecordInv, PutRow, HcTarget, Rows, Find, Placed, HcName, WorkValid, GetGeneration, HcBuilt,
      Climbs;
    HcSteps.HcHolds(s, cid);
    HcReporting(s, cid);
    assert t.clusterStatuses == PutRow(s, cid, pc.entry) && t.works == s.works;
    ProcessSteps.RowLands(s, t, cid, pc.entry);
  }

  /** What an hc process is about to report: the generation stored, and no less than was reported before. */
  lemma HcReporting(s: State, cid: string)
    requires HcInv(s, cid) && RecordInv(s, cid) && HcOf(s, cid).HcPut?
    ensures var pc := HcOf(s, cid);
            && pc.entry.adapter == HC && pc.entry.observedGeneration == pc.c.generation
            && HcKey(cid, pc.p) in s.works && Gen(s.works[HcKey(cid, pc.p)].work) == pc.c.generation
            && Climbs(Find(Rows(s, cid), HC), Some(pc.entry))
  {
    hide HcInv, HcStoredInv, HcRowInv, Rows, Find, Placed, RecordInv, WorkValid, HcName, IsHcWork, Snapshot,
      GetGeneration;
    HcSteps.HcHolds(s, cid);
    HcSteps.HcParts(s, cid);
  }

  lemma HcReportsClimb(s: State, cid: string, m: Move)
    requires HcInv(s, cid) && RecordInv(s, cid)
    ensures ReportsClimb(s, HcNext(s, cid, m))
  {
    var t := HcNext(s, cid, m);
    HcSteps.HcTouchesRows(s, cid, m);
    if HcOf(s, cid).HcPut? && m.Land? {
      HcReportLands(s, cid);
    } else {
      assert t.clusterStatuses == s.clusterStatuses by { hide HcInv, RecordInv, HcTarget, WriteWork; }
      SameRows(s, t, cid);
    }
    assert t.poolStatuses == s.poolStatuses by { hide HcInv, RecordInv, HcTarget, WriteWork, PutRow; }
    hide HcNext, HcInv, RecordInv, Rows, Find;
    OthersReport(s, t, cid);
  }

  /** When a node pool report lands, its entry is the one reported and names the generation that is stored. */
  lemma NpReportLands(s: State, key: PoolKey)
    requires NpInv(s, key) && NpOf(s, key).NpPut?
    ensures var t, pc := NpNext(s, key, Land), NpOf(s, key);
            && Find(PoolRows(t, key), NODE_POOL) == Some(pc.entry) && pc.entry.observedGeneration == pc.n.generation
            && NpKey(key, pc.p) in t.works && Gen(t.works[NpKey(key, pc.p)].work) == pc.n.generation
            && Climbs(Find(PoolRows(s, key), NODE_POOL), Some(pc.entry))
  {
    var t, pc := NpNext(s, key, Land), NpOf(s, key);
    assert t.poolStatuses == PutPoolRow(s, key, pc.entry) && t.works == s.works by { hide NpInv, PutPoolRow, NpTarget; }
    ProcessSteps.PoolRowLands(s, t, key, pc.entry);
    hide NpNext, NpStoredInv, NpRowInv, PoolRows, Find, PutPoolRow, Placed, WorkValid, NpName, HcName, IsNpWork,
      PoolSnapshot, Snapshot, HcThere, GetGeneration;
  }

  lemma NpReportsClimb(s: State, key: PoolKey, m: Move)
    requires NpInv(s, key)
    ensures ReportsClimb(s, NpNext(s, key, m))
  {
    var t := NpNext(s, key, m);
    NpSteps.NpTouchesRows(s, key, m);
    if NpOf(s, key).NpPut? && m.Land? {
      NpReportLands(s, key);
    } else {
      assert t.poolStatuses == s.poolStatuses by { hide NpInv, NpTarget, WriteWork; }
      SamePoolRows(s, t, key);
    }
    assert t.clusterStatuses == s.clusterStatuses by { hide NpInv, NpTarget, WriteWork, PutPoolRow; }
    hide NpNext, NpInv, PoolRows, Find;
    OthersPoolReport(s, t, key);
  }

  lemma SameWorksClimb(s: State, t: State)
    requires t.works == s.works
    ensures WorksClimb(s, t)
  {
    hide GetGeneration;
  }

  lemma SameEntry(s: State, t: State, cid: string)
    requires SameRow(s, t, cid, HC)
    ensures Climbs(Find(Rows(s, cid), HC), Find(Rows(t, cid), HC))
  {
    hide Find, Rows;
  }

  lemma SamePoolEntry(s: State, t: State, key: PoolKey)
    requires SamePoolRow(s, t, key, NODE_POOL)
    ensures Climbs(Find(PoolRows(s, key), NODE_POOL), Find(PoolRows(t, key), NODE_POOL))
  {
    hide Find, PoolRows;
  }

  /** Whatever happens, no stored and no reported generation goes down. */
  lemma ActionClimbs(s: State, a: Action)
    requires Inv(s)
    ensures WorksClimb(s, Next(s, a)) && ReportsClimb(s, Next(s, a))
  {
    hide Inv, PlInv, VrInv, HcInv, NvrInv, NpInv, RecordInv, PoolRecordInv, Grows, WorksClimb, ReportsClimb, Climbs,
      PlNext, VrNext, HcNext, NvrNext, NpNext, Happen, Rows, PoolRows, Find, SameRow, SamePoolRow, EnvSteps.Untouched;
    var t := Next(s, a);
    match a {
      case Outside(e) =>
        EnvSteps.EventTouches(s, e);
        UntouchedClimbs(s, t);
      case Pl(cid, m) =>
        ClusterPart(s, cid);
        ProcessSteps.PlTouches(s, cid, m);
        SameWorksClimb(s, t);
        SameEntry(s, t, cid);
        OthersReport(s, t, cid);
      case Vr(cid, m) =>
        ClusterPart(s, cid);
        ProcessSteps.VrTouches(s, cid, m);
        SameWorksClimb(s, t);
        SameEntry(s, t, cid);
        OthersReport(s, t, cid);
      case Hc(cid, m) =>
        ClusterPart(s, cid);
        HcWorksClimb(s, cid, m);
        HcReportsClimb(s, cid, m);
      case Nvr(key, m) =>
        PoolPart(s, key);
        ProcessSteps.NvrTouches(s, key, m);
        SameWorksClimb(s, t);
        SamePoolEntry(s, t, key);
        OthersPoolReport(s, t, key);
      case Np(key, m) =>
        PoolPart(s, key);
        NpWorksClimb(s, key, m);
        NpReportsClimb(s, key, m);
    }
  }

  lemma ClimbsTransitive(s: State, t: State, u: State)
    requires WorksClimb(s, t) && WorksClimb(t, u) && ReportsClimb(s, t) && ReportsClimb(t, u)
    ensures WorksClimb(s, u) && ReportsClimb(s, u)
  {
    hide GetGeneration, Find, Rows, PoolRows;
    forall cid ensures Climbs(Find(Rows(s, cid), HC), Find(Rows(u, cid), HC)) {
      assert Climbs(Find(Rows(s, cid), HC), Find(Rows(t, cid), HC))
        && Climbs(Find(Rows(t, cid), HC), Find(Rows(u, cid), HC));
    }
    forall key ensures Climbs(Find(PoolRows(s, key), NODE_POOL), Find(PoolRows(u, key), NODE_POOL)) {
      assert Climbs(Find(PoolRows(s, key), NODE_POOL), Find(PoolRows(t, key), NODE_POOL));
      assert Climbs(Find(PoolRows(t, key), NODE_POOL), Find(PoolRows(u, key), NODE_POOL));
    }
  }

  lemma ClimbsReflexive(s: State)
    ensures WorksClimb(s, s) && ReportsClimb(s, s)
  {
    hide GetGeneration, Find, Rows, PoolRows;
  }

  lemma {:induction false} RunClimbs(run: seq<State>, i: nat, j: nat)
    requires IsRun(run) && i <= j < |run|
    ensures WorksClimb(run[i], run[j]) && ReportsClimb(run[i], run[j])
    decreases j - i
  {
    hide Inv, Next, WorksClimb, ReportsClimb;
    if i == j {
      ClimbsReflexive(run[i]);
    } else {
      RunClimbs(run, i, j - 1);
      RunKeeps(run, j - 1);
      assert Step(run[j - 1], run[j - 1 + 1]);
      var a :| run[j] == Next(run[j - 1], a);
      ActionClimbs(run[j - 1], a);
      ClimbsTransitive(run[i], run[j - 1], run[j]);
    }
  }
}
