// The nodepool adapter's reconcile loop.
module NodePoolReconciler {
  import opened Wrappers
  import opened Keys
  import opened Text
  import opened Work
  import opened Generation
  import opened Status
  import opened ApiTypes
  import opened Payloads
  import opened Protocol
  import opened Invariants
  import opened Preservation
  import opened Runs
  import opened Whole
  import opened World
  import NodePoolManifest
  import ProcessSteps
  import NpSteps

  const REQUEUE_AFTER_APPLY: nat := 300

  // Where each answer takes the process, from the point it was at when the call was made.

  lemma PoolRead(was: State, s: State, key: PoolKey)
    requires SamePoint(NpProcess(key), was, s) && NpOf(was, key) == NpIdle
    ensures NpOf(Next(s, Act(NpProcess(key), Read)), key) ==
      if PoolFound(s, key) then NpCluster(CurrentPool(s, key)) else NpIdle
  {
    NpSteps.NpReadIs(s, key);
    hide NpTarget, Found, Current, PoolFound, CurrentPool, Rows;
  }

  lemma ClusterRead(was: State, s: State, key: PoolKey, n: NodePool)
    requires SamePoint(NpProcess(key), was, s) && NpOf(was, key) == NpCluster(n)
    ensures NpOf(Next(s, Act(NpProcess(key), Read)), key) ==
      if Found(s, n.clusterID) then NpClusterStatuses(n, Current(s, n.clusterID)) else NpIdle
  {
    NpSteps.NpReadIs(s, key);
    hide NpTarget, Found, Current, PoolFound, CurrentPool, Rows;
  }

  lemma ClusterStatusesRead(was: State, s: State, key: PoolKey, n: NodePool, c: Cluster)
    requires SamePoint(NpProcess(key), was, s) && NpOf(was, key) == NpClusterStatuses(n, c)
    ensures NpOf(Next(s, Act(NpProcess(key), Read)), key) == NpStatuses(n, c, Rows(s, n.clusterID))
  {
    NpSteps.NpReadIs(s, key);
    hide NpTarget, Found, Current, PoolFound, CurrentPool, Rows;
  }

  lemma StatusesRead(was: State, s: State, key: PoolKey, n: NodePool, c: Cluster, ss: AdapterStatuses)
    requires SamePoint(NpProcess(key), was, s) && NpOf(was, key) == NpStatuses(n, c, ss)
    ensures var next := NpOf(Next(s, Act(NpProcess(key), Read)), key);
            && NpOf(s, key) == NpStatuses(n, c, ss)
            && (!NpGate(n, ss, PoolRows(s, key)) ==> next == NpIdle)
            && (NpGate(n, ss, PoolRows(s, key)) ==>
                  var work := NpBuild(n, c, NodePoolVR(PoolRows(s, key)).value.image);
                  next == if !WorkValid(work) then NpIdle else NpLookup(n, c, Placement(ss).value, work))
  {
    NpSteps.NpTargetIs(s, key, Read);
    hide NpTarget, PoolRows, Placement, NodePoolVR, PlacementReady, VersionReady, HcAvailable, NpBuild, WorkValid;
  }

  lemma StatusRead(was: State, s: State, key: PoolKey)
    requires SamePoint(NpProcess(key), was, s) && NpOf(was, key).NpReadBack?
    ensures var pc := NpOf(was, key);
            var entry := NodePoolEntry(pc.n.generation, ReadStatus(s, (pc.p.managementCluster, pc.work.name)));
            NpOf(Next(s, Act(NpProcess(key), Read)), key) == NpPut(pc.n, pc.c, pc.p, pc.work, entry, false)
  {
    NpSteps.NpReadIs(s, key);
    hide NpTarget, NodePoolEntry, ReadStatus;
  }

  lemma Sending(s: State, key: PoolKey, entry: AdapterStatus)
    requires NpOf(s, key).NpPut? && NpOf(s, key).entry == entry && !NpOf(s, key).landed
    ensures InFlight(NpProcess(key), s) && NextCall(NpProcess(key), s) == PutCall(entry)
  {
  }

  /** The store holds the node pool's work at this generation and the adapter's entry reports it. */
  ghost predicate Reports(s: State, key: PoolKey, n: NodePool) {
    exists p, status ::
      Placed(s, key.0) == Some(p) && HcThere(s, key.0) && NpKey(key, p) in s.works
      && Gen(s.works[NpKey(key, p)].work) == n.generation
      && Find(PoolRows(s, key), NODE_POOL) == Some(NodePoolEntry(n.generation, status))
  }

  lemma Sent(trace: seq<State>, before: seq<State>, was: State, seen: State, key: PoolKey)
    requires IsRun(trace) && Called(before, trace, seen) && Landed(NpProcess(key), was, seen) && NpOf(was, key).NpPut?
    ensures var t, pc := Next(seen, Act(NpProcess(key), Return)), NpOf(was, key);
            && NpOf(t, key) == NpIdle && Placed(t, key.0) == Some(pc.p) && HcThere(t, key.0)
            && NpKey(key, pc.p) in t.works && Gen(t.works[NpKey(key, pc.p)].work) == pc.n.generation
            && Find(PoolRows(t, key), NODE_POOL) == Some(pc.entry)
  {
    hide IsRun, Inv, PoolRecordInv, NvrInv, NpInv, Find, NpNext, NpTarget, NpName, HcThere, GetGeneration, Placed;
    InRunInv(trace, seen) by { assert seen in trace; }
    PoolPart(seen, key);
    SentHolds(seen, key);
    NpSteps.NpTargetIs(seen, key, Return);
    AnswerKeeps(seen, key);
  }

  lemma SentHolds(s: State, key: PoolKey)
    requires NpInv(s, key) && NpOf(s, key).NpPut? && NpOf(s, key).landed
    ensures var pc := NpOf(s, key);
            && Placed(s, key.0) == Some(pc.p) && HcThere(s, key.0) && NpKey(key, pc.p) in s.works
            && Gen(s.works[NpKey(key, pc.p)].work) == pc.n.generation
            && Find(PoolRows(s, key), NODE_POOL) == Some(pc.entry)
  {
    hide NpStoredInv, NpRowInv, Find, PoolRows, NpHeld, Snapshot, HcThere, NpName, GetGeneration, Placed, IsNpWork,
      WorkValid;
  }

  lemma AnswerKeeps(s: State, key: PoolKey)
    requires NpOf(s, key).NpPut?
    ensures var t := NpNext(s, key, Return);
            && t.works == s.works && PoolRows(t, key) == PoolRows(s, key) && NpOf(t, key) == NpTarget(s, key, Return)
            && Placed(t, key.0) == Placed(s, key.0) && (HcThere(s, key.0) ==> HcThere(t, key.0))
  {
    hide NpTarget, HcName;
    ProcessSteps.KeepPoolRows(s, NpNext(s, key, Return), key);
    ProcessSteps.KeepRows(s, NpNext(s, key, Return), key.0);
  }

  /** The node pool as it was at `s` is applied and reported at `t`. */
  ghost predicate Settled(s: State, t: State, key: PoolKey) {
    PoolFound(s, key) && Reports(t, key, CurrentPool(s, key))
  }

  // ---- The calls of the loop, in order, and what it returns ----

  ghost predicate Behaves(key: PoolKey, made: seq<Made>, r: Result<nat, string>) {
    && |made| >= 1 && made[0].call == PoolCall(key)
    && if made[0].answer.Lost? then |made| == 1 && r.Err?
       else if !PoolFound(made[0].seen, key) then |made| == 1 && r == Ok(0)
       else ClusterBehaves(key, CurrentPool(made[0].seen, key), made[1..], r)
  }

  ghost predicate ClusterBehaves(key: PoolKey, n: NodePool, made: seq<Made>, r: Result<nat, string>) {
    && |made| >= 1 && made[0].call == ClusterCall(n.clusterID)
    && if made[0].answer.Lost? then |made| == 1 && r.Err?
       else if !Found(made[0].seen, n.clusterID) then |made| == 1 && r == Ok(0)
       else
         && |made| >= 2 && made[1].call == StatusesCall(n.clusterID)
         && if made[1].answer.Lost? then |made| == 2 && r.Err?
            else GateBehaves(key, n, Current(made[0].seen, n.clusterID), Rows(made[1].seen, n.clusterID), made[2..], r)
  }

  ghost predicate GateBehaves(key: PoolKey, n: NodePool, c: Cluster, ss: AdapterStatuses, made: seq<Made>,
                              r: Result<nat, string>) {
    && |made| >= 1 && made[0].call == PoolStatusesCall(key)
    && var ps := PoolRows(made[0].seen, key);
       if made[0].answer.Lost? then |made| == 1 && r.Err?
       else if !NpGate(n, ss, ps) then |made| == 1 && r == Ok(0)
       else
         var work := NpBuild(n, c, NodePoolVR(ps).value.image);
         if !WorkValid(work) then |made| == 1 && r.Err?
         else
           var at := (Placement(ss).value.managementCluster, work.name);
           ApplyBehaves(NpProcess(key), made[1..], at, work, n.generation, REQUEUE_AFTER_APPLY, r)
  }

  /** The gate of the node pool, as the loop's four reads saw it. */
  ghost predicate GateOpen(key: PoolKey, made: seq<Made>) {
    |made| == 4 && PoolFound(made[0].seen, key)
    && var n := CurrentPool(made[0].seen, key);
       Found(made[1].seen, n.clusterID) && NpGate(n, Rows(made[2].seen, n.clusterID), PoolRows(made[3].seen, key))
  }

  /** The node pool or its cluster, as read, is gone, or the node pool waits for the other adapters. */
  ghost predicate Waits(key: PoolKey, made: seq<Made>) {
    (|made| == 1 && !PoolFound(made[0].seen, key))
    || (|made| == 2 && PoolFound(made[0].seen, key) && !Found(made[1].seen, CurrentPool(made[0].seen, key).clusterID))
    || (|made| == 4 && !GateOpen(key, made))
  }

  /** The node pool, as read, is behind an open gate but has no positive generation, so its work is refused. */
  ghost predicate Refused(key: PoolKey, made: seq<Made>) {
    GateOpen(key, made) && CurrentPool(made[0].seen, key).generation <= 0
  }

  /** The generation of the node pool, if one was read, is an int64. */
  ghost predicate ReadsInt64(key: PoolKey, made: seq<Made>) {
    made != [] && PoolFound(made[0].seen, key) ==> IsInt64(CurrentPool(made[0].seen, key).generation)
  }

  /** What a reconcile reads is in a state of a run, and there all generations are. */
  lemma RunsReadInt64(key: PoolKey, before: Moment, after: Moment)
    requires Extends(before, after) && IsRun(after.trace)
    ensures ReadsInt64(key, Since(before, after))
  {
    hide IsRun, Inv, NvrInv, NpInv;
    var made := Since(before, after);
    if made != [] {
      assert made[0] == after.log[|before.log|];
      var s := made[0].seen;
      assert Called(before.trace, after.trace, s);
      InRunInv(after.trace, s) by { assert s in after.trace; }
      PoolPart(s, key);
    }
  }

  /**
   * The loop fails exactly when a call is lost or the work is refused, and ends without a requeue
   * exactly when something is gone or the gate is closed; in these last it asks the store nothing.
   */
  lemma Outcomes(key: PoolKey, made: seq<Made>, r: Result<nat, string>)
    requires Behaves(key, made, r) && ReadsInt64(key, made)
    ensures r.Err? <==> !AllAnswered(made) || Refused(key, made)
    ensures r == Ok(0) <==> AllAnswered(made) && Waits(key, made)
    ensures r == Ok(0) || Refused(key, made) ==> OnlyReads(made)
    ensures r.Ok? ==> r.value == 0 || r.value == 300
  {
    hide CurrentPool, Current, Rows, PoolRows, NpGate, GateBehaves;
    if !made[0].answer.Lost? && PoolFound(made[0].seen, key) {
      var n, rest := CurrentPool(made[0].seen, key), made[1..];
      assert made == [made[0]] + rest;
      if !rest[0].answer.Lost? && Found(rest[0].seen, n.clusterID) && !rest[1].answer.Lost? {
        assert rest == [rest[0], rest[1]] + rest[2..];
        GateOutcomes(key, n, Current(rest[0].seen, n.clusterID), Rows(rest[1].seen, n.clusterID), rest[2..], r);
      }
    }
  }

  lemma GateOutcomes(key: PoolKey, n: NodePool, c: Cluster, ss: AdapterStatuses, made: seq<Made>,
                     r: Result<nat, string>)
    requires GateBehaves(key, n, c, ss, made, r) && IsInt64(n.generation)
    ensures made != [] && (|made| == 1 || NpGate(n, ss, PoolRows(made[0].seen, key)))
    ensures var open := |made| == 1 && NpGate(n, ss, PoolRows(made[0].seen, key));
            && (r.Err? <==> !AllAnswered(made) || (open && n.generation <= 0))
            && (r == Ok(0) <==> AllAnswered(made) && |made| == 1 && !open) && (|made| == 1 ==> OnlyReads(made))
            && (r.Ok? ==> r.value == 0 || r.value == 300)
  {
    hide NpGate, PoolRows, ApplyBehaves, WorkValid, NodePoolManifest.Build, NodePoolVR, Placement;
    var ps := PoolRows(made[0].seen, key);
    if !made[0].answer.Lost? && NpGate(n, ss, ps) {
      var work := NpBuild(n, c, NodePoolVR(ps).value.image) by { GateHasVersion(n, ss, ps); }
      NodePoolManifest.BuildValid(NpInput(n, c, NodePoolVR(ps).value.image));
      if WorkValid(work) {
        var at := (Placement(ss).value.managementCluster, work.name) by { GateHasVersion(n, ss, ps); }
        ApplyFails(NpProcess(key), made[1..], at, work, n.generation, REQUEUE_AFTER_APPLY, r);
        assert made == [made[0]] + made[1..];
      }
    }
  }

  lemma GateHasVersion(n: NodePool, ss: AdapterStatuses, ps: AdapterStatuses)
    requires NpGate(n, ss, ps)
    ensures NodePoolVR(ps).Some? && Placement(ss).Some?
  {
    hide NodePoolVR, Placement;
  }

  // ---- The loop with nobody interfering ----

  lemma IsNext(s: State, key: PoolKey, m: Move)
    ensures Next(s, Act(NpProcess(key), m)) == NpNext(s, key, m)
  {
    hide NpNext;
  }

  lemma CalmApply(s: State, key: PoolKey)
    requires NpOf(s, key).NpLookup?
    ensures var pc, me := NpOf(s, key), NpProcess(key);
            var applied := AppliedCalmly(me, s, (pc.p.managementCluster, pc.work.name), pc.work);
            NpApplyAndReport(s, key) == NpNext(NpNext(NpNext(applied, key, Read), key, Land), key, Return)
  {
    hide NpNext, Next, Act, NpTarget, DecideWork;
    var looked := NpNext(s, key, Read);
    IsNext(s, key, Read);
    IsNext(looked, key, Land);
    IsNext(NpNext(looked, key, Land), key, Return);
    NpStepIs(s, key, Read);
    NpSteps.NpTargetIs(s, key, Read);
  }

  class Reconciler {
    const stores: Stores

    constructor (stores: Stores)
      ensures this.stores == stores
    {
      this.stores := stores;
    }

    /**
     * A key without a slash is an error and nothing is called. Otherwise every remote call is one
     * step of the protocol, in the protocol's order; which calls are made and what is returned is
     * `Behaves`. After a requeue the store holds the node pool's work at the generation this call
     * read, on the management cluster that holds its cluster's work, and the entry reports that
     * generation. With nobody interfering the loop is `NpWhole`.
     */
    method Reconcile(id: string) returns (r: Result<nat, string>, ghost key: PoolKey)
      requires stores.Valid() && forall k: PoolKey :: IsKey(id, k) ==> NpOf(stores.st, k) == NpIdle
      modifies stores
      ensures stores.Valid() && Extends(old(stores.Now()), stores.Now())
      ensures '/' !in id ==> r.Err? && stores.Now() == old(stores.Now())
      ensures '/' in id ==> IsKey(id, key) && NpOf(stores.st, key) == NpIdle
      ensures '/' in id ==> Behaves(key, Since(old(stores.Now()), stores.Now()), r)
      ensures r == Ok(REQUEUE_AFTER_APPLY) ==>
        Settled(Since(old(stores.Now()), stores.Now())[0].seen, stores.st, key)
      ensures '/' in id && Calm(old(stores.script), 8, First(old(stores.script))) ==>
        stores.st == NpWhole(old(stores.st), key)
    {
      hide Next, IsRun, PoolFound, CurrentPool, Settled, Reports, IsKey, SplitKey, SamePoint, Act, ClusterBehaves,
        Extends, Since, Calm, Undisturbed, NpNext, NpFromCluster;
      var parts := SplitKey(id);
      key := parts.GetOr(("", ""));
      if parts.None? {
        ExtendsReflexive(stores.Now());
        return Err("invalid workqueue key"), key;
      }
      ghost var start, like := stores.Now(), First(stores.script);
      if Calm(stores.script, 8, like) { CalmRest(stores.script, 7, like); }
      var me := NpProcess(parts.value);
      var np, asked := stores.GetNodePool(me, parts.value);
      ghost var first := stores.Now();
      IsNext(asked, parts.value, Read);
      if np.Err? {
        FailedIsIdle(me, asked);
        return Err(np.error), key;
      }
      PoolRead(start.st, asked, parts.value);
      if np.value.None? {
        return Ok(0), key;
      }
      r := ReconcileFound(parts.value, np.value.value);
      ExtendsTransitive(start, first, stores.Now());
      ghost var rest := Since(first, stores.Now());
      assert (Since(start, first) + rest)[1..] == rest;
      if r == Ok(REQUEUE_AFTER_APPLY) {
        SettledFrom(asked, stores.st, parts.value, np.value.value);
      }
    }

    /** The cluster's reads. */
    method ReconcileFound(key: PoolKey, np: NodePool) returns (r: Result<nat, string>)
      requires stores.Valid() && NpOf(stores.st, key) == NpCluster(np)
      modifies stores
      ensures stores.Valid() && Extends(old(stores.Now()), stores.Now()) && NpOf(stores.st, key) == NpIdle
      ensures ClusterBehaves(key, np, Since(old(stores.Now()), stores.Now()), r)
      ensures r == Ok(REQUEUE_AFTER_APPLY) ==> Reports(stores.st, key, np)
      ensures Calm(old(stores.script), 7, First(old(stores.script))) ==> stores.st == NpFromCluster(old(stores.st), key)
    {
      hide Next, IsRun, Found, Current, Rows, Reports, SamePoint, Act, GateBehaves, Extends, Since, Calm, Undisturbed,
        NpNext, NpFromGate;
      ghost var start, like := stores.Now(), First(stores.script);
      if Calm(stores.script, 7, like) {
        CalmRest(stores.script, 6, like);
        CalmRest(Rest(stores.script), 5, like);
      }
      var me := NpProcess(key);
      var got, asked := stores.GetCluster(me, np.clusterID);
      ghost var first := stores.Now();
      IsNext(asked, key, Read);
      if got.Err? {
        FailedIsIdle(me, asked);
        return Err(got.error);
      }
      ClusterRead(start.st, asked, key, np);
      if got.value.None? {
        return Ok(0);
      }
      var cluster := got.value.value.0;
      var clusterStatuses, read := stores.GetClusterStatuses(me, np.clusterID);
      ghost var second := stores.Now();
      ExtendsTransitive(start, first, second);
      IsNext(read, key, Read);
      if clusterStatuses.Err? {
        FailedIsIdle(me, read);
        return Err(clusterStatuses.error);
      }
      ClusterStatusesRead(first.st, read, key, np, cluster);
      r := GateAndApply(key, np, cluster, clusterStatuses.value);
      ExtendsTransitive(start, second, stores.Now());
      ghost var rest := Since(second, stores.Now());
      assert (Since(start, second) + rest)[2..] == rest;
    }

    /** The three-way gate and the build. */
    method GateAndApply(key: PoolKey, np: NodePool, cluster: Cluster, clusterStatuses: AdapterStatuses)
      returns (r: Result<nat, string>)
      requires stores.Valid() && NpOf(stores.st, key) == NpStatuses(np, cluster, clusterStatuses)
      modifies stores
      ensures stores.Valid() && Extends(old(stores.Now()), stores.Now()) && NpOf(stores.st, key) == NpIdle
      ensures GateBehaves(key, np, cluster, clusterStatuses, Since(old(stores.Now()), stores.Now()), r)
      ensures r == Ok(REQUEUE_AFTER_APPLY) ==> Reports(stores.st, key, np)
      ensures Calm(old(stores.script), 5, First(old(stores.script))) ==> stores.st == NpFromGate(old(stores.st), key)
    {
      hide Next, IsRun, PoolRows, Reports, SamePoint, Act, Placement, NodePoolVR, HcAvailable, NodePoolManifest.Build,
        WorkValid, Extends, Since, ApplyBehaves, Calm, Undisturbed, NpNext, NpApplyAndReport;
      ghost var start, like := stores.Now(), First(stores.script);
      if Calm(stores.script, 5, like) { CalmRest(stores.script, 4, like); }
      var me := NpProcess(key);
      var nodepoolStatuses, gate := stores.GetNodePoolStatuses(me, key);
      ghost var gated := stores.Now();
      IsNext(gate, key, Read);
      if nodepoolStatuses.Err? {
        FailedIsIdle(me, gate);
        return Err(nodepoolStatuses.error);
      }
      StatusesRead(start.st, gate, key, np, cluster, clusterStatuses);
      var placement := Placement(clusterStatuses);
      var hcAvailable := HcIsAvailable(clusterStatuses);
      var nodepoolVR := NodePoolVR(nodepoolStatuses.value);
      if !PlacementReady(placement) {
        return Ok(0);
      }
      if !hcAvailable {
        return Ok(0);
      }
      if !VersionReady(nodepoolVR) {
        return Ok(0);
      }
      if nodepoolVR.value.version != np.releaseVersion {
        return Ok(0);
      }
      var mw := NodePoolManifest.Build(NpInput(np, cluster, nodepoolVR.value.image));
      r := ApplyAndReport(key, np, cluster, placement.value, mw);
      ExtendsTransitive(start, gated, stores.Now());
      ghost var rest := Since(gated, stores.Now());
      assert (Since(start, gated) + rest)[1..] == rest;
    }

    /** The apply, which refuses a work without a positive generation, the status read-back and the report. */
    method ApplyAndReport(key: PoolKey, np: NodePool, ghost cluster: Cluster, placement: PlacementData,
                          mw: ManifestWork)
      returns (r: Result<nat, string>)
      requires stores.Valid()
      requires NpOf(stores.st, key) == if WorkValid(mw) then NpLookup(np, cluster, placement, mw) else NpIdle
      modifies stores
      ensures stores.Valid() && Extends(old(stores.Now()), stores.Now()) && NpOf(stores.st, key) == NpIdle
      ensures !WorkValid(mw) ==> r.Err? && stores.Now() == old(stores.Now())
      ensures WorkValid(mw) ==>
        ApplyBehaves(NpProcess(key), Since(old(stores.Now()), stores.Now()), (placement.managementCluster, mw.name),
                     mw, np.generation, REQUEUE_AFTER_APPLY, r)
      ensures r.Ok? ==> Reports(stores.st, key, np)
      ensures WorkValid(mw) && Calm(old(stores.script), 4, First(old(stores.script))) ==>
        stores.st == NpApplyAndReport(old(stores.st), key)
    {
      hide Next, IsRun, Find, PoolRows, SamePoint, Act, Landed, InFlight, Applying, WorkValid, Reports, NodePoolEntry,
        ReadStatus, Extends, Since, ApplyBehaves, ApplyCalls, AllAnswered, Calm, Undisturbed, NpNext, NpApplyAndReport,
        AppliedCalmly, Called;
      var me := NpProcess(key);
      ghost var at := (placement.managementCluster, mw.name);
      ghost var start, like := stores.Now(), First(stores.script);
      if WorkValid(mw) {
        LookupApplies(stores.st, key);
        CalmApply(stores.st, key);
      }
      var applied := stores.Apply(me, placement.managementCluster, mw);
      ghost var after := stores.Now();
      ghost var calls := Since(start, after);
      if WorkValid(mw) { CalmAfterApply(start.script, after.script, like); }
      if applied.Err? {
        if WorkValid(mw) {
          ApplyLost(me, calls, at, mw, np.generation, REQUEUE_AFTER_APPLY, Err("apply manifest work"));
        }
        return Err("apply manifest work");
      }
      var mwStatus, reading := stores.GetStatus(me, (placement.managementCluster, mw.name));
      ghost var read := stores.Now();
      ghost var status := Made(StatusCall(at), reading, Replied(mwStatus.Ok?));
      ExtendsTransitive(start, after, read);
      IsNext(reading, key, Read);
      if mwStatus.Err? {
        FailedIsIdle(me, reading);
        ApplyThenStatusLost(me, calls, status, at, mw, np.generation, REQUEUE_AFTER_APPLY, Err(mwStatus.error));
        return Err(mwStatus.error);
      }
      StatusRead(after.st, reading, key);
      var payload := BuildNodePoolPayload(np.generation, mwStatus.value);
      Sending(stores.st, key, payload);
      var ok, sent := stores.PutStatus(me, payload);
      ghost var put := Made(PutCall(payload), sent, Replied(ok));
      ExtendsTransitive(start, read, stores.Now());
      r := if ok then Ok(REQUEUE_AFTER_APPLY) else Err("put nodepool status");
      ApplyThenPut(me, calls, status, put, at, mw, np.generation, REQUEUE_AFTER_APPLY, r);
      IsNext(read.st, key, Land);
      IsNext(sent, key, Return);
      if !ok {
        FailedIsIdle(me, sent);
        return;
      }
      SeenDuring(read, stores.Now(), put);
      Sent(stores.trace, read.trace, read.st, sent, key);
      ReportsWhat(stores.st, key, np, placement, mwStatus.value);
    }
  }

  lemma ReportsWhat(s: State, key: PoolKey, n: NodePool, p: PlacementData, status: Option<ManifestWorkStatus>)
    requires Placed(s, key.0) == Some(p) && HcThere(s, key.0) && NpKey(key, p) in s.works
    requires Gen(s.works[NpKey(key, p)].work) == n.generation
    requires Find(PoolRows(s, key), NODE_POOL) == Some(NodePoolEntry(n.generation, status))
    ensures Reports(s, key, n)
  {
    hide Placed, HcThere, NpName, GetGeneration, Find, PoolRows, NodePoolEntry;
  }

  lemma SettledFrom(s: State, t: State, key: PoolKey, n: NodePool)
    requires PoolFound(s, key) && n == CurrentPool(s, key) && Reports(t, key, n)
    ensures Settled(s, t, key)
  {
    hide PoolFound, CurrentPool, Reports;
  }

  lemma LookupApplies(s: State, key: PoolKey)
    requires NpOf(s, key).NpLookup?
    ensures Applying(NpProcess(key), s, NpOf(s, key).p.managementCluster, NpOf(s, key).work)
  {
  }
}
