// The version-resolution adapter's reconcile loop.
module VersionReconciler {
  import opened Wrappers
  import opened ApiTypes
  import opened Release
  import opened Protocol
  import opened Invariants
  import opened Preservation
  import opened Runs
  import opened Whole
  import opened World
  import Payloads
  import ProcessSteps

  const REQUEUE_LONG: nat := 300

  /** The entry a process writes once the graph has answered. */
  function Entry(c: Cluster, node: Node): AdapterStatus {
    VersionEntry(VERSION_RESOLUTION, "VersionResolved", c.generation, node.payload, node.version,
                 BuildChannel(c.spec.releaseVersion))
  }

  // Where each answer takes the process, from the point it was at when the call was made.

  lemma ClusterRead(was: State, s: State, cid: string)
    requires SamePoint(VrProcess(cid), was, s) && VrOf(was, cid) == VrIdle
    ensures VrOf(Next(s, Act(VrProcess(cid), Read)), cid) ==
      if Wanted(s, cid) then VrStatuses(Current(s, cid)) else VrIdle
  {
    hide Found, Current, IsReconciled, Rows, BuildChannel, Resolve, Consistent;
  }

  lemma StatusesRead(was: State, s: State, cid: string, c: Cluster)
    requires SamePoint(VrProcess(cid), was, s) && VrOf(was, cid) == VrStatuses(c)
    ensures VrOf(Next(s, Act(VrProcess(cid), Read)), cid) == if Resolved(Rows(s, cid), c) then VrIdle else VrResolve(c)
  {
    hide Found, Current, IsReconciled, Rows, VersionResolution, BuildChannel, Resolve, Consistent;
  }

  lemma GraphRead(was: State, s: State, cid: string, c: Cluster, nodes: seq<Node>)
    requires SamePoint(VrProcess(cid), was, s) && VrOf(was, cid) == VrResolve(c)
    requires Consistent(s, BuildChannel(c.spec.releaseVersion), nodes)
    ensures var found := Resolve(nodes, c.spec.releaseVersion);
            VrOf(Next(s, Act(VrProcess(cid), Graph(nodes))), cid) ==
              if found.None? then VrIdle else VrPut(Entry(c, found.value), false)
  {
    hide Found, Current, IsReconciled, Rows, VersionResolution, BuildChannel, Resolve, Consistent, VersionEntry;
  }

  predicate Wanted(s: State, cid: string) {
    Found(s, cid) && !IsReconciled(s.clusters[cid].conditions) && Current(s, cid).spec.releaseVersion != ""
  }

  predicate Resolved(ss: AdapterStatuses, c: Cluster) {
    VersionReady(VersionResolution(ss)) && VersionResolution(ss).value.version == c.spec.releaseVersion
  }

  lemma ResolvedIs(ss: AdapterStatuses, c: Cluster)
    ensures Resolved(ss, c) <==>
      VersionReady(VersionResolution(ss)) && VersionResolution(ss).value.version == c.spec.releaseVersion
  {
  }

  lemma Sending(s: State, cid: string, entry: AdapterStatus)
    requires VrOf(s, cid) == VrPut(entry, false)
    ensures InFlight(VrProcess(cid), s) && NextCall(VrProcess(cid), s) == PutCall(entry)
  {
  }

  lemma Asking(s: State, cid: string, c: Cluster)
    requires VrOf(s, cid) == VrResolve(c)
    ensures NextCall(VrProcess(cid), s) == GraphCall(BuildChannel(c.spec.releaseVersion))
  {
  }

  /** The version a process resolved is the version its cluster's entry now names. */
  ghost predicate Names(s: State, cid: string, version: string) {
    var v := VersionResolution(Rows(s, cid));
    v.Some? && v.value.version == version && ReleaseOf(s, version) == v
  }

  /** What is in the cluster's entry at the end of a run is the one resolution of its version. */
  lemma EntryIsCanonical(trace: seq<State>, cid: string)
    requires IsRun(trace) && |trace| > 0 && VersionResolution(Rows(trace[|trace| - 1], cid)).Some?
    ensures var s := trace[|trace| - 1]; Names(s, cid, VersionResolution(Rows(s, cid)).value.version)
  {
    hide IsRun, Inv, RecordInv, PlInv, HcInv, Rows, BuildChannel;
    RunKeeps(trace, |trace| - 1);
    ClusterPart(trace[|trace| - 1], cid);
  }

  /** At `s` the cluster was reconciled, or it asked for the version its entry names at `t`. */
  ghost predicate Settled(s: State, t: State, cid: string) {
    Found(s, cid)
    && (IsReconciled(s.clusters[cid].conditions)
        || (Current(s, cid).spec.releaseVersion != "" && Names(t, cid, Current(s, cid).spec.releaseVersion)))
  }

  /** Answering the PUT leaves the entry it wrote. */
  lemma Sent(trace: seq<State>, before: seq<State>, was: State, seen: State, cid: string)
    requires IsRun(trace) && Called(before, trace, seen) && Landed(VrProcess(cid), was, seen)
    ensures var t := Next(seen, Act(VrProcess(cid), Return));
            VrOf(t, cid) == VrIdle && VersionResolution(Rows(t, cid)) == ReadVersion(Some(VrOf(was, cid).entry))
  {
    hide IsRun, Inv, RecordInv, PlInv, HcInv, Find, PutRow, Found, Current, IsReconciled, VersionReady, BuildChannel,
      Resolve, Consistent;
    InRunInv(trace, seen) by { assert seen in trace; }
    ClusterPart(seen, cid);
    ProcessSteps.KeepRows(seen, VrNext(seen, cid, Return), cid);
  }

  /** Once the PUT is answered, the entry is the resolution of the version of the node it was made from. */
  lemma Reported(trace: seq<State>, before: seq<State>, was: State, seen: State, cid: string, c: Cluster, node: Node)
    requires |trace| > 0 && IsRun(trace) && Called(before, trace, seen) && Landed(VrProcess(cid), was, seen)
    requires VrOf(was, cid) == VrPut(Entry(c, node), false)
    requires trace[|trace| - 1] == Next(seen, Act(VrProcess(cid), Return))
    ensures VrOf(trace[|trace| - 1], cid) == VrIdle && Names(trace[|trace| - 1], cid, node.version)
  {
    hide IsRun, Called, Landed, Next, Act, Rows, Names, VersionResolution;
    Sent(trace, before, was, seen, cid);
    EntryNames(c, node);
    EntryIsCanonical(trace, cid);
  }

  lemma EntryNames(c: Cluster, node: Node)
    ensures ReadVersion(Some(Entry(c, node))).Some? && ReadVersion(Some(Entry(c, node))).value.version == node.version
  {
  }

  lemma ReadsKeepRows(s: State, cid: string, m: Move)
    requires !m.Land?
    ensures Rows(Next(s, Act(VrProcess(cid), m)), cid) == Rows(s, cid)
  {
    hide VrTarget;
    ProcessSteps.KeepRows(s, VrNext(s, cid, m), cid);
  }

  // ---- The calls of the loop, in order, and what it returns ----

  ghost predicate Behaves(cid: string, made: seq<Made>, r: Result<nat, string>) {
    && |made| >= 1 && made[0].call == ClusterCall(cid)
    && var s := made[0].seen;
       if made[0].answer.Lost? then |made| == 1 && r.Err?
       else if !Found(s, cid) then |made| == 1 && r == Ok(0)
       else if IsReconciled(s.clusters[cid].conditions) then |made| == 1 && r == Ok(REQUEUE_LONG)
       else if Current(s, cid).spec.releaseVersion == "" then |made| == 1 && r == Ok(0)
       else GateBehaves(cid, Current(s, cid), made[1..], r)
  }

  ghost predicate GateBehaves(cid: string, c: Cluster, made: seq<Made>, r: Result<nat, string>) {
    && |made| >= 1 && made[0].call == StatusesCall(cid)
    && if made[0].answer.Lost? then |made| == 1 && r.Err?
       else if Resolved(Rows(made[0].seen, cid), c) then |made| == 1 && r == Ok(REQUEUE_LONG)
       else GraphBehaves(c, made[1..], r)
  }

  ghost predicate GraphBehaves(c: Cluster, made: seq<Made>, r: Result<nat, string>) {
    && |made| >= 1 && made[0].call == GraphCall(BuildChannel(c.spec.releaseVersion))
    && if !made[0].answer.Page? then |made| == 1 && made[0].answer.Lost? && r.Err?
       else
         var found := Resolve(made[0].answer.nodes, c.spec.releaseVersion);
         if found.None? then |made| == 1 && r == Ok(0)
         else
           && |made| == 2 && made[1].call == PutCall(Entry(c, found.value))
           && if made[1].answer.Lost? then r.Err? else r == Ok(REQUEUE_LONG)
  }

  /** The cluster, as read, is gone or names no version, or names one that the graph's page does not list. */
  ghost predicate Waits(cid: string, made: seq<Made>) {
    (|made| == 1 && (!Found(made[0].seen, cid) || NamesNoVersion(made[0].seen, cid)))
    || (|made| == 3 && Found(made[0].seen, cid) && made[2].answer.Page?
        && forall node :: node in made[2].answer.nodes ==>
          node.version != Current(made[0].seen, cid).spec.releaseVersion)
  }

  ghost predicate NamesNoVersion(s: State, cid: string) {
    Found(s, cid) && !IsReconciled(s.clusters[cid].conditions) && Current(s, cid).spec.releaseVersion == ""
  }

  /**
   * The loop fails exactly when a call is lost, and ends without a requeue exactly when the cluster is
   * gone, names no version, or names one that the answered page of the graph does not list.
   */
  lemma Outcomes(cid: string, made: seq<Made>, r: Result<nat, string>)
    requires Behaves(cid, made, r)
    ensures r.Err? <==> !AllAnswered(made)
    ensures r == Ok(0) <==> AllAnswered(made) && Waits(cid, made)
    ensures r == Ok(0) ==> OnlyReads(made)
    ensures r.Ok? ==> r.value == 0 || r.value == 300
  {
    hide Current, IsReconciled, Rows, Resolved, VersionEntry, BuildChannel, Resolve;
    if |made| > 1 {
      assert made == [made[0]] + made[1..];
    }
    if |made| > 2 {
      assert made == [made[0], made[1]] + made[1..][1..];
    }
  }

  /** What is put, if anything is: the release of the version asked for, for the generation read. */
  lemma PutSays(cid: string, made: seq<Made>, r: Result<nat, string>)
    requires Behaves(cid, made, r)
    ensures forall i :: 0 <= i < |made| ==> (made[i].call.PutCall? <==> i == 3)
    ensures |made| > 3 ==>
      && Found(made[0].seen, cid) && made[2].answer.Page?
      && var c, entry := Current(made[0].seen, cid), made[3].call.entry;
      && made[2].call == GraphCall(BuildChannel(c.spec.releaseVersion))
      && entry.adapter == "version-resolution-adapter" && entry.observedGeneration == c.generation
      && Payloads.ConditionIs(entry, "Available", "True", "VersionResolved")
      && exists node ::
        && node in made[2].answer.nodes && node.version == c.spec.releaseVersion
        && VersionFields(entry.data,
                         VersionData(node.payload, c.spec.releaseVersion, BuildChannel(c.spec.releaseVersion)))
  {
    hide Current, IsReconciled, Rows, Resolved, VersionEntry, BuildChannel, Resolve, Payloads.ConditionIs;
    if |made| > 3 {
      var c, nodes := Current(made[0].seen, cid), made[2].answer.nodes;
      var node := Resolve(nodes, c.spec.releaseVersion).value;
      assert made[1..][1..][1] == made[3] && made[1..][1..][0] == made[2];
      Payloads.VersionEntryMeans("version-resolution-adapter", "VersionResolved", c.generation,
        VersionData(node.payload, node.version, BuildChannel(c.spec.releaseVersion)));
      assert node in nodes;
    }
  }

  // ---- The loop with nobody interfering ----

  lemma IsNext(s: State, cid: string, m: Move)
    ensures Next(s, Act(VrProcess(cid), m)) == VrNext(s, cid, m)
  {
    hide VrNext;
  }

  /** The page the graph answers with fits what is published when the loop starts. */
  ghost predicate Fits(s: State, cid: string, nodes: seq<Node>) {
    Found(s, cid) ==> Consistent(s, BuildChannel(Current(s, cid).spec.releaseVersion), nodes)
  }

  /** A read of the process publishes nothing. */
  lemma StillFits(s: State, cid: string, channel: string, nodes: seq<Node>)
    requires Consistent(s, channel, nodes)
    ensures Consistent(VrNext(s, cid, Read), channel, nodes)
  {
    hide VrTarget;
    ConsistentStays(s, VrNext(s, cid, Read), channel, nodes);
  }

  class Reconciler {
    const stores: Stores

    constructor (stores: Stores)
      ensures this.stores == stores
    {
      this.stores := stores;
    }

    /**
     * Every remote call is one step of the protocol, in the protocol's order; which calls are made and
     * what is returned is `Behaves`. After a requeue the cluster was reconciled, or its entry, at the
     * gate or after the PUT, is the resolution of the version it asked for. With nobody interfering
     * the loop is `VrWhole` with the graph's page.
     */
    method Reconcile(clusterID: string) returns (r: Result<nat, string>)
      requires stores.Valid() && VrOf(stores.st, clusterID) == VrIdle
      modifies stores
      ensures stores.Valid() && Extends(old(stores.Now()), stores.Now()) && VrOf(stores.st, clusterID) == VrIdle
      ensures Behaves(clusterID, Since(old(stores.Now()), stores.Now()), r)
      ensures r == Ok(REQUEUE_LONG) ==>
        Settled(Since(old(stores.Now()), stores.Now())[0].seen, stores.st, clusterID)
      ensures var like := First(old(stores.script));
              Calm(old(stores.script), 4, like) && Fits(old(stores.st), clusterID, like.nodes) ==>
                stores.st == VrWhole(old(stores.st), clusterID, like.nodes)
    {
      hide Next, IsRun, IsReconciled, Found, Current, Rows, SamePoint, Act, BuildChannel, Consistent, Names, Extends,
        Since, GateBehaves, Calm, Undisturbed, VrNext, VrFromGate;
      ghost var start, like := stores.Now(), First(stores.script);
      if Calm(stores.script, 4, like) { CalmRest(stores.script, 3, like); }
      var me := VrProcess(clusterID);
      var got, asked := stores.GetCluster(me, clusterID);
      ghost var first := stores.Now();
      IsNext(asked, clusterID, Read);
      if got.Err? {
        FailedIsIdle(me, asked);
        return Err(got.error);
      }
      ClusterRead(start.st, asked, clusterID);
      if got.value.None? {
        return Ok(0);
      }
      var (cluster, conditions) := got.value.value;
      var reconciled := AlreadyReconciled(conditions);
      if reconciled {
        return Ok(REQUEUE_LONG);
      }
      if cluster.spec.releaseVersion == "" {
        return Ok(0);
      }
      if Consistent(asked, BuildChannel(cluster.spec.releaseVersion), like.nodes) {
        StillFits(asked, clusterID, BuildChannel(cluster.spec.releaseVersion), like.nodes);
      }
      r := GateAndResolve(clusterID, cluster);
      ExtendsTransitive(start, first, stores.Now());
      ghost var rest := Since(first, stores.Now());
      assert (Since(start, first) + rest)[1..] == rest;
    }

    /** The rest of the loop, for a cluster that names a version. */
    method GateAndResolve(clusterID: string, cluster: Cluster) returns (r: Result<nat, string>)
      requires stores.Valid() && VrOf(stores.st, clusterID) == VrStatuses(cluster)
      modifies stores
      ensures stores.Valid() && Extends(old(stores.Now()), stores.Now()) && VrOf(stores.st, clusterID) == VrIdle
      ensures GateBehaves(clusterID, cluster, Since(old(stores.Now()), stores.Now()), r)
      ensures r == Ok(REQUEUE_LONG) ==> Names(stores.st, clusterID, cluster.spec.releaseVersion)
      ensures var like := First(old(stores.script));
              Calm(old(stores.script), 3, like)
              && Consistent(old(stores.st), BuildChannel(cluster.spec.releaseVersion), like.nodes) ==>
                stores.st == VrFromGate(old(stores.st), clusterID, like.nodes)
    {
      hide Next, IsRun, Rows, VersionResolution, SamePoint, Act, BuildChannel, Consistent, Names, Extends, Since,
        GraphBehaves, Resolved, Calm, Undisturbed, VrNext, VrFromGraph;
      ghost var start, like := stores.Now(), First(stores.script);
      if Calm(stores.script, 3, like) { CalmRest(stores.script, 2, like); }
      var me := VrProcess(clusterID);
      var statuses, gate := stores.GetClusterStatuses(me, clusterID);
      ghost var gated := stores.Now();
      IsNext(gate, clusterID, Read);
      if statuses.Err? {
        FailedIsIdle(me, gate);
        return Err(statuses.error);
      }
      StatusesRead(start.st, gate, clusterID, cluster);
      ResolvedIs(statuses.value, cluster);
      var vr := VersionResolution(statuses.value);
      if VersionReady(vr) && vr.value.version == cluster.spec.releaseVersion {
        ReadsKeepRows(gate, clusterID, Read);
        EntryIsCanonical(stores.trace, clusterID);
        return Ok(REQUEUE_LONG);
      }
      if Consistent(gate, BuildChannel(cluster.spec.releaseVersion), like.nodes) {
        StillFits(gate, clusterID, BuildChannel(cluster.spec.releaseVersion), like.nodes);
      }
      r := ResolveAndReport(clusterID, cluster);
      ExtendsTransitive(start, gated, stores.Now());
      ghost var rest := Since(gated, stores.Now());
      assert (Since(start, gated) + rest)[1..] == rest;
    }

    /** The rest of the loop, once the cluster's version has to be looked up. */
    method ResolveAndReport(clusterID: string, cluster: Cluster) returns (r: Result<nat, string>)
      requires stores.Valid() && VrOf(stores.st, clusterID) == VrResolve(cluster)
      modifies stores
      ensures stores.Valid() && Extends(old(stores.Now()), stores.Now()) && VrOf(stores.st, clusterID) == VrIdle
      ensures GraphBehaves(cluster, Since(old(stores.Now()), stores.Now()), r)
      ensures r == Ok(REQUEUE_LONG) ==> Names(stores.st, clusterID, cluster.spec.releaseVersion)
      ensures var like := First(old(stores.script));
              Calm(old(stores.script), 2, like)
              && Consistent(old(stores.st), BuildChannel(cluster.spec.releaseVersion), like.nodes) ==>
                stores.st == VrFromGraph(old(stores.st), clusterID, like.nodes)
    {
      hide Next, IsRun, Find, Rows, VersionResolution, SamePoint, Act, Landed, InFlight, BuildChannel, Resolve,
        Consistent, Names, Called, Extends, Since, Calm, Undisturbed, VrNext, NextCall, VersionEntry;
      ghost var start, like := stores.Now(), First(stores.script);
      if Calm(stores.script, 2, like) {
        CalmRest(stores.script, 1, like);
        CalmRest(Rest(stores.script), 0, like);
      }
      var me := VrProcess(clusterID);
      var version := cluster.spec.releaseVersion;
      var channel := BuildChannel(version);
      Asking(stores.st, clusterID, cluster);
      var graph, asking := stores.GetGraph(me, channel);
      ghost var answered := stores.Now();
      if graph.Err? {
        FailedIsIdle(me, asking);
        return Err(graph.error);
      }
      IsNext(asking, clusterID, Graph(graph.value));
      GraphRead(start.st, asking, clusterID, cluster, graph.value);
      var info := ScanGraph(graph.value, version);
      if info.None? {
        return Ok(0);
      }
      var payload := VersionEntry(VERSION_RESOLUTION, "VersionResolved", cluster.generation, info.value.payload,
        info.value.version, channel);
      r := Report(clusterID, payload, cluster, info.value);
      ExtendsTransitive(start, answered, stores.Now());
    }

    /** The status PUT. */
    method Report(clusterID: string, payload: AdapterStatus, ghost c: Cluster, ghost node: Node)
      returns (r: Result<nat, string>)
      requires stores.Valid() && VrOf(stores.st, clusterID) == VrPut(payload, false) && payload == Entry(c, node)
      modifies stores
      ensures stores.Valid() && Extends(old(stores.Now()), stores.Now()) && VrOf(stores.st, clusterID) == VrIdle
      ensures exists seen, answer ::
        Since(old(stores.Now()), stores.Now()) == [Made(PutCall(payload), seen, answer)]
        && if answer.Lost? then r.Err? else r == Ok(REQUEUE_LONG)
      ensures r.Ok? ==> Names(stores.st, clusterID, node.version)
      ensures Undisturbed(First(old(stores.script))) ==>
        stores.st == VrNext(VrNext(old(stores.st), clusterID, Land), clusterID, Return)
    {
      hide Next, IsRun, Rows, SamePoint, Act, Landed, InFlight, Names, Called, Extends, Since, Undisturbed, VrNext,
        Entry, NextCall;
      ghost var start := stores.Now();
      var me := VrProcess(clusterID);
      Sending(stores.st, clusterID, payload);
      var ok, sent := stores.PutStatus(me, payload);
      IsNext(start.st, clusterID, Land);
      IsNext(sent, clusterID, Return);
      if !ok {
        FailedIsIdle(me, sent);
        return Err("put cluster status");
      }
      SeenDuring(start, stores.Now(), Made(PutCall(payload), sent, Given));
      Reported(stores.trace, start.trace, start.st, sent, clusterID, c, node);
      return Ok(REQUEUE_LONG);
    }
  }
}
