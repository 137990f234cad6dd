// The nodepool-vr adapter's reconcile loop.
module NodePoolVersionReconciler {
  import opened Wrappers
  import opened Keys
  import opened ApiTypes
  import opened Release
  import opened Protocol
  import opened Invariants
  import opened Preservation
  import opened Runs
  import opened Whole
  import opened World
  import Payloads
  import ProcessSteps

  const REQUEUE_LONG: nat := 300

  function Entry(n: NodePool, node: Node): AdapterStatus {
    var channel := BuildNodePoolChannel(n.releaseVersion).GetOr("");
    VersionEntry(NODE_POOL_VR, "ReleaseImageAvailable", n.generation, node.payload, n.releaseVersion, channel)
  }

  // Where each answer takes the process, from the point it was at when the call was made.

  predicate Wanted(s: State, key: PoolKey) {
    PoolFound(s, key) && CurrentPool(s, key).releaseVersion != ""
  }

  predicate Resolved(ss: AdapterStatuses, n: NodePool) {
    VersionReady(NodePoolVR(ss)) && NodePoolVR(ss).value.version == n.releaseVersion
  }

  lemma PoolRead(was: State, s: State, key: PoolKey)
    requires SamePoint(NvrProcess(key), was, s) && NvrOf(was, key) == NvrIdle
    ensures NvrOf(Next(s, Act(NvrProcess(key), Read)), key) ==
      if Wanted(s, key) then NvrStatuses(CurrentPool(s, key)) else NvrIdle
  {
    hide PoolFound, CurrentPool, PoolRows, BuildNodePoolChannel, Resolve, Consistent;
  }

  lemma StatusesRead(was: State, s: State, key: PoolKey, n: NodePool)
    requires SamePoint(NvrProcess(key), was, s) && NvrOf(was, key) == NvrStatuses(n)
    ensures NvrOf(Next(s, Act(NvrProcess(key), Read)), key) ==
      if Resolved(PoolRows(s, key), n) || BuildNodePoolChannel(n.releaseVersion).None? then NvrIdle else NvrResolve(n)
  {
    hide PoolFound, CurrentPool, PoolRows, NodePoolVR, BuildNodePoolChannel, Resolve, Consistent;
  }

  lemma GraphRead(was: State, s: State, key: PoolKey, n: NodePool, nodes: seq<Node>)
    requires SamePoint(NvrProcess(key), was, s) && NvrOf(was, key) == NvrResolve(n)
    requires Consistent(s, BuildNodePoolChannel(n.releaseVersion).GetOr(""), nodes)
    ensures var found := Resolve(nodes, n.releaseVersion);
            NvrOf(Next(s, Act(NvrProcess(key), Graph(nodes))), key) ==
              if found.None? then NvrIdle else NvrPut(Entry(n, found.value), false)
  {
    hide PoolFound, CurrentPool, PoolRows, NodePoolVR, BuildNodePoolChannel, Resolve, Consistent, VersionEntry;
  }

  lemma ResolvedIs(ss: AdapterStatuses, n: NodePool)
    ensures Resolved(ss, n) <==> VersionReady(NodePoolVR(ss)) && NodePoolVR(ss).value.version == n.releaseVersion
  {
  }

  lemma Sending(s: State, key: PoolKey, entry: AdapterStatus)
    requires NvrOf(s, key) == NvrPut(entry, false)
    ensures InFlight(NvrProcess(key), s) && NextCall(NvrProcess(key), s) == PutCall(entry)
  {
  }

  lemma Asking(s: State, key: PoolKey, n: NodePool)
    requires NvrOf(s, key) == NvrResolve(n)
    ensures NextCall(NvrProcess(key), s) == GraphCall(BuildNodePoolChannel(n.releaseVersion).GetOr(""))
  {
  }

  /** The node pool's entry names the version, as its one resolution. */
  ghost predicate Names(s: State, key: PoolKey, version: string) {
    var v := NodePoolVR(PoolRows(s, key));
    v.Some? && v.value.version == version && ReleaseOf(s, version) == v
  }

  lemma EntryIsCanonical(trace: seq<State>, key: PoolKey)
    requires IsRun(trace) && |trace| > 0 && NodePoolVR(PoolRows(trace[|trace| - 1], key)).Some?
    ensures var s := trace[|trace| - 1]; Names(s, key, NodePoolVR(PoolRows(s, key)).value.version)
  {
    hide IsRun, Inv, PoolRecordInv, NpInv, PoolRows, BuildChannel;
    RunKeeps(trace, |trace| - 1);
    PoolPart(trace[|trace| - 1], key);
  }

  /** Answering the PUT leaves the entry it wrote. */
  lemma Sent(trace: seq<State>, before: seq<State>, was: State, seen: State, key: PoolKey)
    requires IsRun(trace) && Called(before, trace, seen) && Landed(NvrProcess(key), was, seen)
    ensures var t := Next(seen, Act(NvrProcess(key), Return));
            NvrOf(t, key) == NvrIdle && NodePoolVR(PoolRows(t, key)) == ReadVersion(Some(NvrOf(was, key).entry))
  {
    hide IsRun, Inv, PoolRecordInv, NpInv, Find, PutPoolRow, PoolFound, CurrentPool, VersionReady, BuildNodePoolChannel,
      Resolve, Consistent;
    InRunInv(trace, seen) by { assert seen in trace; }
    PoolPart(seen, key);
    ProcessSteps.KeepPoolRows(seen, NvrNext(seen, key, Return), key);
  }

  /** Once the PUT is answered, the entry is the resolution of the version it was made for. */
  lemma Reported(trace: seq<State>, before: seq<State>, was: State, seen: State, key: PoolKey, n: NodePool, node: Node)
    requires |trace| > 0 && IsRun(trace) && Called(before, trace, seen) && Landed(NvrProcess(key), was, seen)
    requires NvrOf(was, key) == NvrPut(Entry(n, node), false)
    requires trace[|trace| - 1] == Next(seen, Act(NvrProcess(key), Return))
    ensures NvrOf(trace[|trace| - 1], key) == NvrIdle && Names(trace[|trace| - 1], key, n.releaseVersion)
  {
    hide IsRun, Called, Landed, Next, Act, PoolRows, Names, NodePoolVR;
    Sent(trace, before, was, seen, key);
    EntryNames(n, node);
    EntryIsCanonical(trace, key);
  }

  lemma EntryNames(n: NodePool, node: Node)
    ensures ReadVersion(Some(Entry(n, node))).Some?
    ensures ReadVersion(Some(Entry(n, node))).value.version == n.releaseVersion
  {
    hide BuildNodePoolChannel;
  }

  lemma ReadsKeepRows(s: State, key: PoolKey, m: Move)
    requires !m.Land?
    ensures PoolRows(Next(s, Act(NvrProcess(key), m)), key) == PoolRows(s, key)
  {
    hide NvrTarget;
    ProcessSteps.KeepPoolRows(s, NvrNext(s, key, m), key);
  }

  /** At `s` the node pool asked for the version its entry names at `t`. */
  ghost predicate Settled(s: State, t: State, key: PoolKey) {
    PoolFound(s, key) && CurrentPool(s, key).releaseVersion != "" && Names(t, key, CurrentPool(s, key).releaseVersion)
  }

  // ---- The calls of the loop, in order, and what it returns ----

  ghost predicate Behaves(key: PoolKey, made: seq<Made>, r: Result<nat, string>) {
    && |made| >= 1 && made[0].call == PoolCall(key)
    && var s := made[0].seen;
       if made[0].answer.Lost? then |made| == 1 && r.Err?
       else if !PoolFound(s, key) || CurrentPool(s, key).releaseVersion == "" then |made| == 1 && r == Ok(0)
       else GateBehaves(key, CurrentPool(s, key), made[1..], r)
  }

  ghost predicate GateBehaves(key: PoolKey, n: NodePool, made: seq<Made>, r: Result<nat, string>) {
    && |made| >= 1 && made[0].call == PoolStatusesCall(key)
    && if made[0].answer.Lost? then |made| == 1 && r.Err?
       else if Resolved(PoolRows(made[0].seen, key), n) then |made| == 1 && r == Ok(REQUEUE_LONG)
       else if '.' !in n.releaseVersion then |made| == 1 && r.Err?
       else GraphBehaves(n, made[1..], r)
  }

  ghost predicate GraphBehaves(n: NodePool, made: seq<Made>, r: Result<nat, string>) {
    && |made| >= 1 && made[0].call == GraphCall(BuildNodePoolChannel(n.releaseVersion).GetOr(""))
    && if !made[0].answer.Page? then |made| == 1 && made[0].answer.Lost? && r.Err?
       else
         var found := Resolve(made[0].answer.nodes, n.releaseVersion);
         if found.None? then |made| == 1 && r == Ok(0)
         else
           && |made| == 2 && made[1].call == PutCall(Entry(n, found.value))
           && if made[1].answer.Lost? then r.Err? else r == Ok(REQUEUE_LONG)
  }

  /** The node pool, as read, is gone or names no version, or names one that the graph's page does not list. */
  ghost predicate Waits(key: PoolKey, made: seq<Made>) {
    (|made| == 1 && (!PoolFound(made[0].seen, key) || CurrentPool(made[0].seen, key).releaseVersion == ""))
    || (|made| == 3 && PoolFound(made[0].seen, key) && made[2].answer.Page?
        && forall node :: node in made[2].answer.nodes ==>
          node.version != CurrentPool(made[0].seen, key).releaseVersion)
  }

  /** The node pool's version, as read, is not resolved yet and has no channel. */
  ghost predicate Dotless(key: PoolKey, made: seq<Made>) {
    |made| == 2 && PoolFound(made[0].seen, key)
    && var n := CurrentPool(made[0].seen, key); '.' !in n.releaseVersion && !Resolved(PoolRows(made[1].seen, key), n)
  }

  /**
   * The loop fails exactly when a call is lost or an unresolved version has no dot, and ends without a
   * requeue exactly when the node pool is gone, names no version, or names one that the answered page
   * of the graph does not list.
   */
  lemma Outcomes(key: PoolKey, made: seq<Made>, r: Result<nat, string>)
    requires Behaves(key, made, r)
    ensures r.Err? <==> !AllAnswered(made) || Dotless(key, made)
    ensures r == Ok(0) <==> AllAnswered(made) && Waits(key, made)
    ensures r == Ok(0) || Dotless(key, made) ==> OnlyReads(made)
    ensures r.Ok? ==> r.value == 0 || r.value == 300
  {
    hide CurrentPool, PoolRows, Resolved, VersionEntry, BuildNodePoolChannel, Resolve;
    if |made| > 1 {
      assert made == [made[0]] + made[1..];
    }
    if |made| > 2 {
      assert made == [made[0], made[1]] + made[1..][1..];
    }
  }

  /** What is put, if anything is: the release of the version asked for, for the generation read. */
  lemma PutSays(key: PoolKey, made: seq<Made>, r: Result<nat, string>)
    requires Behaves(key, made, r)
    ensures forall i :: 0 <= i < |made| ==> (made[i].call.PutCall? <==> i == 3)
    ensures |made| > 3 ==>
      && PoolFound(made[0].seen, key) && made[2].answer.Page?
      && var n, entry := CurrentPool(made[0].seen, key), made[3].call.entry;
      && made[2].call == GraphCall(BuildNodePoolChannel(n.releaseVersion).GetOr(""))
      && entry.adapter == "nodepool-vr-adapter" && entry.observedGeneration == n.generation
      && Payloads.ConditionIs(entry, "Available", "True", "ReleaseImageAvailable")
      && exists node ::
        && node in made[2].answer.nodes && node.version == n.releaseVersion
        && VersionFields(entry.data,
                         VersionData(node.payload, n.releaseVersion,
                                     BuildNodePoolChannel(n.releaseVersion).GetOr("")))
  {
    hide CurrentPool, PoolRows, Resolved, VersionEntry, BuildNodePoolChannel, Resolve, Payloads.ConditionIs;
    if |made| > 3 {
      var n, nodes := CurrentPool(made[0].seen, key), made[2].answer.nodes;
      var node := Resolve(nodes, n.releaseVersion).value;
      assert made[1..][1..][1] == made[3] && made[1..][1..][0] == made[2];
      Payloads.VersionEntryMeans("nodepool-vr-adapter", "ReleaseImageAvailable", n.generation,
        VersionData(node.payload, n.releaseVersion, BuildNodePoolChannel(n.releaseVersion).GetOr("")));
      assert node in nodes;
    }
  }

  // ---- The loop with nobody interfering ----

  lemma IsNext(s: State, key: PoolKey, m: Move)
    ensures Next(s, Act(NvrProcess(key), m)) == NvrNext(s, key, m)
  {
    hide NvrNext;
  }

  /** The page the graph answers with fits what is published when the loop starts. */
  ghost predicate Fits(s: State, key: PoolKey, nodes: seq<Node>) {
    PoolFound(s, key) ==> ChannelFits(s, CurrentPool(s, key), nodes)
  }

  ghost predicate ChannelFits(s: State, n: NodePool, nodes: seq<Node>) {
    Consistent(s, BuildNodePoolChannel(n.releaseVersion).GetOr(""), nodes)
  }

  /** A read of the process publishes nothing. */
  lemma StillFits(s: State, key: PoolKey, n: NodePool, nodes: seq<Node>)
    requires ChannelFits(s, n, nodes)
    ensures ChannelFits(NvrNext(s, key, Read), n, nodes)
  {
    hide NvrTarget, BuildNodePoolChannel;
    ConsistentStays(s, NvrNext(s, key, Read), BuildNodePoolChannel(n.releaseVersion).GetOr(""), nodes);
  }

  class Reconciler {
    const stores: Stores

    constructor (stores: Stores)
      ensures this.stores == stores
    {
      this.stores := stores;
    }

    /**
     * A key without a slash is an error and nothing is called. Otherwise every remote call is one
     * step of the protocol, in the protocol's order; which calls are made and what is returned is
     * `Behaves`. After a requeue the node pool's entry is the one resolution of the version the node
     * pool asked for. With nobody interfering the loop is `NvrWhole` with the graph's page.
     */
    method Reconcile(id: string) returns (r: Result<nat, string>, ghost key: PoolKey)
      requires stores.Valid() && forall k: PoolKey :: IsKey(id, k) ==> NvrOf(stores.st, k) == NvrIdle
      modifies stores
      ensures stores.Valid() && Extends(old(stores.Now()), stores.Now())
      ensures '/' !in id ==> r.Err? && stores.Now() == old(stores.Now())
      ensures '/' in id ==> IsKey(id, key) && NvrOf(stores.st, key) == NvrIdle
      ensures '/' in id ==> Behaves(key, Since(old(stores.Now()), stores.Now()), r)
      ensures r == Ok(REQUEUE_LONG) ==>
        Settled(Since(old(stores.Now()), stores.Now())[0].seen, stores.st, key)
      ensures var like := First(old(stores.script));
              '/' in id && Calm(old(stores.script), 4, like) && Fits(old(stores.st), key, like.nodes) ==>
                stores.st == NvrWhole(old(stores.st), key, like.nodes)
    {
      hide Next, IsRun, IsKey, SplitKey, Behaves, Settled, Calm, Fits, NvrWhole;
      var parts := SplitKey(id);
      key := parts.GetOr(("", ""));
      if parts.None? {
        ExtendsReflexive(stores.Now());
        return Err("invalid workqueue key"), key;
      }
      r := ReconcilePool(parts.value);
    }

    method ReconcilePool(key: PoolKey) returns (r: Result<nat, string>)
      requires stores.Valid() && NvrOf(stores.st, key) == NvrIdle
      modifies stores
      ensures stores.Valid() && Extends(old(stores.Now()), stores.Now()) && NvrOf(stores.st, key) == NvrIdle
      ensures Behaves(key, Since(old(stores.Now()), stores.Now()), r)
      ensures r == Ok(REQUEUE_LONG) ==>
        Since(old(stores.Now()), stores.Now()) != []
        && Settled(Since(old(stores.Now()), stores.Now())[0].seen, stores.st, key)
      ensures var like := First(old(stores.script));
              Calm(old(stores.script), 4, like) && Fits(old(stores.st), key, like.nodes) ==>
                stores.st == NvrWhole(old(stores.st), key, like.nodes)
    {
      hide Next, IsRun, PoolFound, CurrentPool, PoolRows, SamePoint, Act, ChannelFits, Names, Extends, Since,
        GateBehaves, Calm, Undisturbed, NvrNext, NvrFromGate;
      ghost var start, like := stores.Now(), First(stores.script);
      if Calm(stores.script, 4, like) { CalmRest(stores.script, 3, like); }
      var me := NvrProcess(key);
      var got, asked := stores.GetNodePool(me, key);
      ghost var first := stores.Now();
      IsNext(asked, key, Read);
      if got.Err? {
        FailedIsIdle(me, asked);
        return Err(got.error);
      }
      PoolRead(start.st, asked, key);
      if got.value.None? {
        return Ok(0);
      }
      var pool := got.value.value;
      if pool.releaseVersion == "" {
        return Ok(0);
      }
      if ChannelFits(asked, pool, like.nodes) {
        StillFits(asked, key, pool, like.nodes);
      }
      r := GateAndResolve(key, pool);
      ExtendsTransitive(start, first, stores.Now());
      ghost var rest := Since(first, stores.Now());
      assert (Since(start, first) + rest)[1..] == rest;
    }

    /** The rest of the loop, for a node pool that names a version. */
    method GateAndResolve(key: PoolKey, pool: NodePool) returns (r: Result<nat, string>)
      requires stores.Valid() && NvrOf(stores.st, key) == NvrStatuses(pool)
      modifies stores
      ensures stores.Valid() && Extends(old(stores.Now()), stores.Now()) && NvrOf(stores.st, key) == NvrIdle
      ensures GateBehaves(key, pool, Since(old(stores.Now()), stores.Now()), r)
      ensures r == Ok(REQUEUE_LONG) ==> Names(stores.st, key, pool.releaseVersion)
      ensures var like := First(old(stores.script));
              Calm(old(stores.script), 3, like) && ChannelFits(old(stores.st), pool, like.nodes) ==>
                stores.st == NvrFromGate(old(stores.st), key, like.nodes)
    {
      hide Next, IsRun, PoolRows, NodePoolVR, SamePoint, Act, BuildNodePoolChannel, ChannelFits, Names, Extends, Since,
        GraphBehaves, Resolved, Calm, Undisturbed, NvrNext, NvrFromGraph;
      ghost var start, like := stores.Now(), First(stores.script);
      if Calm(stores.script, 3, like) { CalmRest(stores.script, 2, like); }
      var me := NvrProcess(key);
      var statuses, gate := stores.GetNodePoolStatuses(me, key);
      ghost var gated := stores.Now();
      IsNext(gate, key, Read);
      if statuses.Err? {
        FailedIsIdle(me, gate);
        return Err(statuses.error);
      }
      StatusesRead(start.st, gate, key, pool);
      ResolvedIs(statuses.value, pool);
      var vr := NodePoolVR(statuses.value);
      if VersionReady(vr) && vr.value.version == pool.releaseVersion {
        ReadsKeepRows(gate, key, Read);
        EntryIsCanonical(stores.trace, key);
        return Ok(REQUEUE_LONG);
      }
      var channel := BuildNodePoolChannel(pool.releaseVersion);
      ChannelNeedsDot(pool.releaseVersion);
      if channel.None? {
        return Err("invalid version string");
      }
      if ChannelFits(gate, pool, like.nodes) {
        StillFits(gate, key, pool, like.nodes);
      }
      r := ResolveAndReport(key, pool, channel.value);
      ExtendsTransitive(start, gated, stores.Now());
      ghost var rest := Since(gated, stores.Now());
      assert (Since(start, gated) + rest)[1..] == rest;
    }

    /** The rest of the loop, once the version has to be looked up. */
    method ResolveAndReport(key: PoolKey, pool: NodePool, channel: string) returns (r: Result<nat, string>)
      requires stores.Valid() && NvrOf(stores.st, key) == NvrResolve(pool)
      requires BuildNodePoolChannel(pool.releaseVersion) == Some(channel)
      modifies stores
      ensures stores.Valid() && Extends(old(stores.Now()), stores.Now()) && NvrOf(stores.st, key) == NvrIdle
      ensures GraphBehaves(pool, Since(old(stores.Now()), stores.Now()), r)
      ensures r == Ok(REQUEUE_LONG) ==> Names(stores.st, key, pool.releaseVersion)
      ensures var like := First(old(stores.script));
              Calm(old(stores.script), 2, like) && ChannelFits(old(stores.st), pool, like.nodes) ==>
                stores.st == NvrFromGraph(old(stores.st), key, like.nodes)
    {
      hide Next, IsRun, Find, PoolRows, NodePoolVR, SamePoint, Act, Landed, InFlight, BuildNodePoolChannel, Resolve,
        Consistent, Names, Called, Extends, Since, Calm, Undisturbed, NvrNext, NextCall, VersionEntry;
      ghost var start, like := stores.Now(), First(stores.script);
      if Calm(stores.script, 2, like) {
        CalmRest(stores.script, 1, like);
        CalmRest(Rest(stores.script), 0, like);
      }
      var me := NvrProcess(key);
      Asking(stores.st, key, pool);
      var graph, asking := stores.GetGraph(me, channel);
      ghost var answered := stores.Now();
      if graph.Err? {
        FailedIsIdle(me, asking);
        return Err(graph.error);
      }
      IsNext(asking, key, Graph(graph.value));
      GraphRead(start.st, asking, key, pool, graph.value);
      var info := ScanGraph(graph.value, pool.releaseVersion);
      if info.None? {
        return Ok(0);
      }
      var payload := VersionEntry(NODE_POOL_VR, "ReleaseImageAvailable", pool.generation, info.value.payload,
                                  pool.releaseVersion, channel);
      r := Report(key, payload, pool, info.value);
      ExtendsTransitive(start, answered, stores.Now());
    }

    /** The status PUT. */
    method Report(key: PoolKey, payload: AdapterStatus, ghost pool: NodePool, ghost node: Node)
      returns (r: Result<nat, string>)
      requires stores.Valid() && NvrOf(stores.st, key) == NvrPut(payload, false) && payload == Entry(pool, node)
      modifies stores
      ensures stores.Valid() && Extends(old(stores.Now()), stores.Now()) && NvrOf(stores.st, key) == NvrIdle
      ensures exists seen, answer ::
        Since(old(stores.Now()), stores.Now()) == [Made(PutCall(payload), seen, answer)]
        && if answer.Lost? then r.Err? else r == Ok(REQUEUE_LONG)
      ensures r.Ok? ==> Names(stores.st, key, pool.releaseVersion)
      ensures Undisturbed(First(old(stores.script))) ==>
        stores.st == NvrNext(NvrNext(old(stores.st), key, Land), key, Return)
    {
      hide Next, IsRun, PoolRows, SamePoint, Act, Landed, InFlight, Names, Called, Extends, Since, Undisturbed, NvrNext,
        Entry, NextCall;
      ghost var start := stores.Now();
      var me := NvrProcess(key);
      Sending(stores.st, key, payload);
      var ok, sent := stores.PutStatus(me, payload);
      IsNext(start.st, key, Land);
      IsNext(sent, key, Return);
      if !ok {
        FailedIsIdle(me, sent);
        return Err("put nodepool status");
      }
      SeenDuring(start, stores.Now(), Made(PutCall(payload), sent, Given));
      Reported(stores.trace, start.trace, start.st, sent, key, pool, node);
      return Ok(REQUEUE_LONG);
    }
  }
}
