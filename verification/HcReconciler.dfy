// The hc adapter's reconcile loop.
module HcReconciler {
  import opened Wrappers
  import opened Work
  import opened Generation
  import opened ApiTypes
  import opened Payloads
  import opened Protocol
  import opened Invariants
  import opened Preservation
  import opened Runs
  import opened Whole
  import opened World
  import HcManifest
  import ProcessSteps
  import HcSteps

  const REQUEUE_READY: nat := 300

  // Where each answer takes the process, from the point it was at when the call was made.

  lemma ClusterRead(was: State, s: State, cid: string)
    requires SamePoint(HcProcess(cid), was, s) && HcOf(was, cid) == HcIdle
    ensures HcOf(Next(s, Act(HcProcess(cid), Read)), cid) ==
      if Found(s, cid) && !IsReconciled(s.clusters[cid].conditions) then HcStatuses(Current(s, cid)) else HcIdle
  {
    HcSteps.HcReadIs(s, cid);
    hide HcTarget, Found, Current, IsReconciled, Rows;
  }

  lemma StatusesRead(was: State, s: State, cid: string, c: Cluster)
    requires SamePoint(HcProcess(cid), was, s) && HcOf(was, cid) == HcStatuses(c)
    ensures var ss, next := Rows(s, cid), HcOf(Next(s, Act(HcProcess(cid), Read)), cid);
            && HcOf(s, cid) == HcStatuses(c)
            && (!HcGate(c, ss) ==> next == HcIdle)
            && (HcGate(c, ss) ==>
                  var p := Placement(ss).value;
                  var built := HcBuild(cid, c, VersionResolution(ss).value, p);
                  next == if built.Err? then HcIdle else HcLookup(c, p, built.value))
  {
    HcSteps.HcReadIs(s, cid);
    hide HcTarget, Rows, Placement, VersionResolution, PlacementReady, VersionReady, HcBuild;
  }

  /** A work that was built and is about to be applied passes the validation an apply starts with. */
  lemma LookupValid(trace: seq<State>, s: State, cid: string)
    requires |trace| > 0 && IsRun(trace) && trace[|trace| - 1] == s && HcOf(s, cid).HcLookup?
    ensures WorkValid(HcOf(s, cid).work)
    ensures Applying(HcProcess(cid), s, HcOf(s, cid).p.managementCluster, HcOf(s, cid).work)
  {
    hide IsRun, Inv, PlInv, VrInv, HcInv, RecordInv, WorkValid, HcBuilt, GetGeneration, HcName;
    RunKeeps(trace, |trace| - 1);
    ClusterPart(s, cid);
    HcSteps.HcHolds(s, cid);
  }

  lemma StatusRead(was: State, s: State, cid: string)
    requires SamePoint(HcProcess(cid), was, s) && HcOf(was, cid).HcReadBack?
    ensures var pc := HcOf(was, cid);
            HcOf(Next(s, Act(HcProcess(cid), Read)), cid)
            == HcPut(pc.c, pc.p, pc.work,
                     HcEntry(pc.c.generation, ReadStatus(s, (pc.p.managementCluster, pc.work.name))), false)
  {
    HcSteps.HcReadIs(s, cid);
    hide HcTarget, HcEntry, ReadStatus;
  }

  lemma Sending(s: State, cid: string, c: Cluster, p: PlacementData, work: ManifestWork, entry: AdapterStatus)
    requires HcOf(s, cid) == HcPut(c, p, work, entry, false)
    ensures InFlight(HcProcess(cid), s) && NextCall(HcProcess(cid), s) == PutCall(entry)
  {
  }

  /**
   * The store holds exactly what Build gives for the cluster detail, its version's one resolution and
   * its placement, and the adapter's entry reports that generation.
   */
  ghost predicate Reports(s: State, cid: string, c: Cluster) {
    exists p, work, status ::
      HcApplied(s, cid, c, p, work) && Find(Rows(s, cid), HC) == Some(HcEntry(c.generation, status))
  }

  /** Once the status PUT is answered, what was applied is stored and what was sent is reported. */
  lemma Sent(trace: seq<State>, before: seq<State>, was: State, seen: State, cid: string, c: Cluster,
          p: PlacementData, work: ManifestWork, entry: AdapterStatus)
    requires IsRun(trace) && Called(before, trace, seen)
    requires HcOf(was, cid) == HcPut(c, p, work, entry, false) && Landed(HcProcess(cid), was, seen)
    ensures var t := Next(seen, Act(HcProcess(cid), Return));
            HcOf(t, cid) == HcIdle && HcApplied(t, cid, c, p, work) && Find(Rows(t, cid), HC) == Some(entry)
  {
    hide IsRun, Inv, PlInv, VrInv, HcInv, RecordInv, HcApplied, Find, HcNext, HcTarget, HcName, Grows;
    InRunInv(trace, seen) by { assert seen in trace; }
    ClusterPart(seen, cid);
    SentHolds(seen, cid);
    HcSteps.HcTargetIs(seen, cid, Return);
    HcSteps.HcKeeps(seen, cid, Return);
    AnswerKeeps(seen, cid);
    AppliedStays(seen, HcNext(seen, cid, Return), cid, c, p, work);
  }

  lemma SentHolds(s: State, cid: string)
    requires HcInv(s, cid) && HcOf(s, cid).HcPut? && HcOf(s, cid).landed
    ensures var pc := HcOf(s, cid); HcApplied(s, cid, pc.c, pc.p, pc.work) && Find(Rows(s, cid), HC) == Some(pc.entry)
  {
    hide HcStoredInv, HcRowInv, HcApplied, Find, Rows;
  }

  lemma AnswerKeeps(s: State, cid: string)
    requires HcOf(s, cid).HcPut?
    ensures var t := HcNext(s, cid, Return);
            t.works == s.works && Rows(t, cid) == Rows(s, cid) && HcOf(t, cid) == HcTarget(s, cid, Return)
  {
    hide HcTarget;
    ProcessSteps.KeepRows(s, HcNext(s, cid, Return), cid);
  }

  lemma AppliedStays(s: State, t: State, cid: string, c: Cluster, p: PlacementData, work: ManifestWork)
    requires Grows(s, t) && HcApplied(s, cid, c, p, work) && t.works == s.works && Rows(t, cid) == Rows(s, cid)
    ensures HcApplied(t, cid, c, p, work)
  {
    hide Grows, HcApplied, HcBuilt, Rows, Find, HcName, SameRow, SameWorks;
    AppliedIsBuiltHere(s, cid, c, p, work);
    SameOwn(s, t, cid);
    HcBuiltFrame(s, t, cid, c, p, work);
  }

  lemma SameOwn(s: State, t: State, cid: string)
    requires t.works == s.works && Rows(t, cid) == Rows(s, cid)
    ensures SameRow(s, t, cid, HC) && SameWorks(s, t, HcName(cid))
  {
    hide Rows, Find, HcName;
  }

  lemma AppliedIsBuiltHere(s: State, cid: string, c: Cluster, p: PlacementData, work: ManifestWork)
    requires HcApplied(s, cid, c, p, work)
    ensures HcBuilt(s, cid, c, p, work)
  {
    hide HcBuilt;
  }

  /** At `s` the cluster was reconciled, or what it was then is applied and reported at `t`. */
  ghost predicate Settled(s: State, t: State, cid: string) {
    Found(s, cid) && (IsReconciled(s.clusters[cid].conditions) || Reports(t, cid, Current(s, cid)))
  }

  // ---- The calls of the loop, in order, and what it returns ----

  ghost predicate Behaves(cid: string, made: seq<Made>, r: Result<nat, string>) {
    && |made| >= 1 && made[0].call == ClusterCall(cid)
    && var s := made[0].seen;
       if made[0].answer.Lost? then |made| == 1 && r.Err?
       else if !Found(s, cid) then |made| == 1 && r == Ok(0)
       else if IsReconciled(s.clusters[cid].conditions) then |made| == 1 && r == Ok(REQUEUE_READY)
       else GateBehaves(cid, Current(s, cid), made[1..], r)
  }

  ghost predicate GateBehaves(cid: string, c: Cluster, made: seq<Made>, r: Result<nat, string>) {
    && |made| >= 1 && made[0].call == StatusesCall(cid)
    && var ss := Rows(made[0].seen, cid);
       if made[0].answer.Lost? then |made| == 1 && r.Err?
       else if !HcGate(c, ss) then |made| == 1 && r == Ok(0)
       else
         var p := Placement(ss).value;
         var built := HcBuild(cid, c, VersionResolution(ss).value, p);
         if built.Err? then |made| == 1 && r.Err?
         else
           ApplyBehaves(HcProcess(cid), made[1..], (p.managementCluster, built.value.name), built.value, c.generation,
                        REQUEUE_READY, r)
  }

  /** The cluster, as read, is behind an open gate but no work can be built for it. */
  ghost predicate Unbuildable(cid: string, made: seq<Made>) {
    |made| == 2 && Found(made[0].seen, cid)
    && var c, ss := Current(made[0].seen, cid), Rows(made[1].seen, cid);
       HcGate(c, ss) && HcBuild(cid, c, VersionResolution(ss).value, Placement(ss).value).Err?
  }

  /** The cluster, as read, is gone, or waits for the other adapters. */
  ghost predicate Waits(cid: string, made: seq<Made>) {
    (|made| == 1 && !Found(made[0].seen, cid))
    || (|made| == 2 && Found(made[0].seen, cid) && !HcGate(Current(made[0].seen, cid), Rows(made[1].seen, cid)))
  }

  /**
   * The loop fails exactly when a call is lost or the work cannot be built, and ends without a requeue
   * exactly when the cluster is gone or its gate is closed.
   */
  lemma Outcomes(cid: string, made: seq<Made>, r: Result<nat, string>)
    requires Behaves(cid, made, r)
    ensures r.Err? <==> !AllAnswered(made) || Unbuildable(cid, made)
    ensures r == Ok(0) <==> AllAnswered(made) && Waits(cid, made)
    ensures r == Ok(0) || Unbuildable(cid, made) ==> OnlyReads(made)
    ensures r.Ok? ==> r.value == 0 || r.value == 300
  {
    hide Current, IsReconciled, HcBuild, Rows, ReadPlacement, ReadVersion, Find, ApplyBehaves;
    var s := made[0].seen;
    if !made[0].answer.Lost? && Found(s, cid) && !IsReconciled(s.clusters[cid].conditions) {
      var rest := made[1..];
      assert made == [made[0]] + rest;
      var ss := Rows(rest[0].seen, cid);
      if !rest[0].answer.Lost? && HcGate(Current(s, cid), ss) {
        var p := Placement(ss).value;
        var built := HcBuild(cid, Current(s, cid), VersionResolution(ss).value, p);
        if built.Ok? {
          ApplyFails(HcProcess(cid), rest[1..], (p.managementCluster, built.value.name), built.value,
                     Current(s, cid).generation, REQUEUE_READY, r);
        }
      }
    }
  }

  // ---- The loop with nobody interfering ----

  lemma IsNext(s: State, cid: string, m: Move)
    ensures Next(s, Act(HcProcess(cid), m)) == HcNext(s, cid, m)
  {
    hide HcNext;
  }

  lemma CalmApply(s: State, cid: string)
    requires HcOf(s, cid).HcLookup?
    ensures var pc, me := HcOf(s, cid), HcProcess(cid);
            var applied := AppliedCalmly(me, s, (pc.p.managementCluster, pc.work.name), pc.work);
            HcApplyAndReport(s, cid) == HcNext(HcNext(HcNext(applied, cid, Read), cid, Land), cid, Return)
  {
    hide HcNext, Next, Act, HcTarget, DecideWork;
    var looked := HcNext(s, cid, Read);
    IsNext(s, cid, Read);
    IsNext(looked, cid, Land);
    IsNext(HcNext(looked, cid, Land), cid, Return);
    HcStepIs(s, cid, Read);
    HcSteps.HcReadIs(s, cid);
  }

  class Reconciler {
    const stores: Stores

    constructor (stores: Stores)
      ensures this.stores == stores
    {
      this.stores := stores;
    }

    /**
     * Every remote call is one step of the protocol, made in the protocol's order; which calls are
     * made and what is returned is `Behaves`. After a requeue the cluster was reconciled, or the store
     * holds exactly the work built for the cluster as this call read it and the adapter's entry
     * reports that generation, whatever the others did meanwhile. With nobody interfering the loop is
     * `HcWhole`.
     */
    method Reconcile(clusterID: string) returns (r: Result<nat, string>)
      requires stores.Valid() && HcOf(stores.st, clusterID) == HcIdle
      modifies stores
      ensures stores.Valid() && Extends(old(stores.Now()), stores.Now()) && HcOf(stores.st, clusterID) == HcIdle
      ensures Behaves(clusterID, Since(old(stores.Now()), stores.Now()), r)
      ensures r == Ok(REQUEUE_READY) ==>
        Settled(Since(old(stores.Now()), stores.Now())[0].seen, stores.st, clusterID)
      ensures Calm(old(stores.script), 6, First(old(stores.script))) ==> stores.st == HcWhole(old(stores.st), clusterID)
    {
      hide Next, IsRun, IsReconciled, Found, Current, Find, Rows, SamePoint, Act, Reports, GateBehaves, Extends, Since,
        Calm, Undisturbed, HcNext, HcFromGate;
      ghost var start, like := stores.Now(), First(stores.script);
      if Calm(stores.script, 6, like) { CalmRest(stores.script, 5, like); }
      var me := HcProcess(clusterID);
      var got, asked := stores.GetCluster(me, clusterID);
      ghost var first := stores.Now();
      IsNext(asked, clusterID, Read);
      if got.Err? {
        FailedIsIdle(me, asked);
        return Err(got.error);
      }
      ClusterRead(start.st, asked, clusterID);
      if got.value.None? {
        return Ok(0);
      }
      var (cluster, conditions) := got.value.value;
      var reconciled := AlreadyReconciled(conditions);
      if reconciled {
        return Ok(REQUEUE_READY);
      }
      r := BuildAndApply(clusterID, cluster);
      ExtendsTransitive(start, first, stores.Now());
      ghost var rest := Since(first, stores.Now());
      assert (Since(start, first) + rest)[1..] == rest;
    }

    /** The gate and the build. */
    method BuildAndApply(clusterID: string, cluster: Cluster) returns (r: Result<nat, string>)
      requires stores.Valid() && HcOf(stores.st, clusterID) == HcStatuses(cluster)
      modifies stores
      ensures stores.Valid() && Extends(old(stores.Now()), stores.Now()) && HcOf(stores.st, clusterID) == HcIdle
      ensures GateBehaves(clusterID, cluster, Since(old(stores.Now()), stores.Now()), r)
      ensures r == Ok(REQUEUE_READY) ==> Reports(stores.st, clusterID, cluster)
      ensures Calm(old(stores.script), 5, First(old(stores.script))) ==>
        stores.st == HcFromGate(old(stores.st), clusterID)
    {
      hide Next, IsRun, Rows, SamePoint, Act, Reports, HcManifest.Build, Placement, VersionResolution, Found, Current,
        Extends, Since, ApplyBehaves, Calm, Undisturbed, HcNext, HcApplyAndReport;
      ghost var start, like := stores.Now(), First(stores.script);
      if Calm(stores.script, 5, like) { CalmRest(stores.script, 4, like); }
      var me := HcProcess(clusterID);
      var statuses, gate := stores.GetClusterStatuses(me, clusterID);
      ghost var gated := stores.Now();
      IsNext(gate, clusterID, Read);
      if statuses.Err? {
        FailedIsIdle(me, gate);
        return Err(statuses.error);
      }
      StatusesRead(start.st, gate, clusterID, cluster);
      var placement := Placement(statuses.value);
      var vr := VersionResolution(statuses.value);
      if !PlacementReady(placement) || !VersionReady(vr) || vr.value.version != cluster.spec.releaseVersion {
        return Ok(0);
      }
      var mw := HcManifest.Build(HcInput(clusterID, cluster, vr.value, placement.value));
      if mw.Err? {
        return Err("build manifest work");
      }
      r := ApplyAndReport(clusterID, cluster, placement.value, mw.value);
      ExtendsTransitive(start, gated, stores.Now());
      ghost var rest := Since(gated, stores.Now());
      assert (Since(start, gated) + rest)[1..] == rest;
    }

    /** The apply, the status read-back and the report. */
    method ApplyAndReport(clusterID: string, cluster: Cluster, placement: PlacementData, mw: ManifestWork)
      returns (r: Result<nat, string>)
      requires stores.Valid() && HcOf(stores.st, clusterID) == HcLookup(cluster, placement, mw)
      modifies stores
      ensures stores.Valid() && Extends(old(stores.Now()), stores.Now()) && HcOf(stores.st, clusterID) == HcIdle
      ensures ApplyBehaves(HcProcess(clusterID), Since(old(stores.Now()), stores.Now()),
                           (placement.managementCluster, mw.name), mw, cluster.generation, REQUEUE_READY, r)
      ensures r.Ok? ==> Reports(stores.st, clusterID, cluster)
      ensures Calm(old(stores.script), 4, First(old(stores.script))) ==>
        stores.st == HcApplyAndReport(old(stores.st), clusterID)
    {
      hide Next, IsRun, Find, Rows, SamePoint, Act, Landed, InFlight, Applying, WorkValid, HcApplied, HcEntry,
        ReadStatus, Extends, Since, ApplyBehaves, ApplyCalls, AllAnswered, Calm, Undisturbed, HcNext, HcApplyAndReport,
        AppliedCalmly, Called;
      var me := HcProcess(clusterID);
      ghost var key := (placement.managementCluster, mw.name);
      ghost var start, like := stores.Now(), First(stores.script);
      LookupValid(stores.trace, stores.st, clusterID);
      CalmApply(stores.st, clusterID);
      var applied := stores.Apply(me, placement.managementCluster, mw);
      ghost var after := stores.Now();
      ghost var calls := Since(start, after);
      CalmAfterApply(start.script, after.script, like);
      if applied.Err? {
        ApplyLost(me, calls, key, mw, cluster.generation, REQUEUE_READY, Err("apply manifest work"));
        return Err("apply manifest work");
      }
      var mwStatus, reading := stores.GetStatus(me, (placement.managementCluster, mw.name));
      ghost var read := stores.Now();
      ghost var status := Made(StatusCall(key), reading, Replied(mwStatus.Ok?));
      ExtendsTransitive(start, after, read);
      IsNext(reading, clusterID, Read);
      if mwStatus.Err? {
        FailedIsIdle(me, reading);
        ApplyThenStatusLost(me, calls, status, key, mw, cluster.generation, REQUEUE_READY, Err(mwStatus.error));
        return Err(mwStatus.error);
      }
      StatusRead(after.st, reading, clusterID);
      var payload := BuildHcPayload(cluster.generation, mwStatus.value);
      Sending(stores.st, clusterID, cluster, placement, mw, payload);
      var ok, sent := stores.PutStatus(me, payload);
      ghost var put := Made(PutCall(payload), sent, Replied(ok));
      ExtendsTransitive(start, read, stores.Now());
      r := if ok then Ok(REQUEUE_READY) else Err("put cluster status");
      ApplyThenPut(me, calls, status, put, key, mw, cluster.generation, REQUEUE_READY, r);
      IsNext(read.st, clusterID, Land);
      IsNext(sent, clusterID, Return);
      if !ok {
        FailedIsIdle(me, sent);
        return;
      }
      SeenDuring(read, stores.Now(), put);
      Sent(stores.trace, read.trace, read.st, sent, clusterID, cluster, placement, mw, payload);
    }
  }
}
