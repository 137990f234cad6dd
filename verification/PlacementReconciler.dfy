// The placement adapter's reconcile loop.
module PlacementReconciler {
  import opened Wrappers
  import opened ApiTypes
  import opened Protocol
  import opened Invariants
  import opened Preservation
  import opened Runs
  import opened Whole
  import opened World
  import Payloads
  import ProcessSteps

  const REQUEUE_AFTER: nat := 300

  // Where each answer takes the process, from the point it was at when the call was made.

  lemma ClusterRead(was: State, s: State, cid: string)
    requires SamePoint(PlProcess(cid), was, s) && PlOf(was, cid) == PlIdle
    ensures PlOf(Next(s, Act(PlProcess(cid), Read)), cid) ==
      if Found(s, cid) && !IsReconciled(s.clusters[cid].conditions) then PlStatuses(Current(s, cid)) else PlIdle
  {
    hide Found, Current, IsReconciled, Rows;
  }

  lemma StatusesRead(was: State, s: State, cid: string, c: Cluster)
    requires SamePoint(PlProcess(cid), was, s) && PlOf(was, cid) == PlStatuses(c)
    ensures PlOf(Next(s, Act(PlProcess(cid), Read)), cid) ==
      if PlacementReady(Placement(Rows(s, cid))) then PlIdle else PlSelect(c)
  {
    hide Found, Current, IsReconciled, Rows, Placement;
  }

  lemma PickRead(was: State, s: State, cid: string, c: Cluster, mc: string, domain: string)
    requires SamePoint(PlProcess(cid), was, s) && PlOf(was, cid) == PlSelect(c)
    ensures PlOf(Next(s, Act(PlProcess(cid), Select(mc, domain))), cid) ==
      PlPut(PlacementEntry(c.generation, mc, domain), false)
  {
    hide Found, Current, IsReconciled, Rows, Placement, PlacementEntry;
  }

  /** A PUT may be sent from its point. */
  lemma Sending(s: State, cid: string, entry: AdapterStatus)
    requires PlOf(s, cid) == PlPut(entry, false)
    ensures InFlight(PlProcess(cid), s) && NextCall(PlProcess(cid), s) == PutCall(entry)
  {
  }

  /** Answering the PUT leaves the entry it wrote. */
  lemma Sent(trace: seq<State>, before: seq<State>, was: State, seen: State, cid: string)
    requires IsRun(trace) && Called(before, trace, seen) && Landed(PlProcess(cid), was, seen)
    ensures var t := Next(seen, Act(PlProcess(cid), Return));
            PlOf(t, cid) == PlIdle && Find(Rows(t, cid), PLACEMENT) == Some(PlOf(was, cid).entry)
  {
    hide IsRun, Inv, RecordInv, VrInv, HcInv, Find, PutRow, Found, Current, IsReconciled, PlacementReady,
      PlacementEntry;
    InRunInv(trace, seen) by { assert seen in trace; }
    ClusterPart(seen, cid);
    ProcessSteps.KeepRows(seen, PlNext(seen, cid, Return), cid);
  }

  /** Between two points of a run a ready placement stays as it is. */
  lemma PlacedStays(trace: seq<State>, before: seq<State>, cid: string)
    requires IsRun(trace) && |before| > 0 && before <= trace
    ensures var s, t := before[|before| - 1], trace[|trace| - 1];
            PlacementReady(Placement(Rows(s, cid))) ==> Placement(Rows(t, cid)) == Placement(Rows(s, cid))
  {
    hide IsRun, Rows, Placement;
    RunGrows(trace, |before| - 1, |trace| - 1);
    assert trace[|before| - 1] == before[|before| - 1];
    assert PlacementReady(Placement(Rows(before[|before| - 1], cid))) ==> Placed(before[|before| - 1], cid).Some?;
  }

  // ---- The calls of the loop, in order, and what it returns ----

  ghost predicate Behaves(cid: string, made: seq<Made>, r: Result<nat, string>) {
    && |made| >= 1 && made[0].call == ClusterCall(cid)
    && var s := made[0].seen;
       if made[0].answer.Lost? then |made| == 1 && r.Err?
       else if !Found(s, cid) then |made| == 1 && r == Ok(0)
       else if IsReconciled(s.clusters[cid].conditions) then |made| == 1 && r == Ok(REQUEUE_AFTER)
       else PlaceBehaves(cid, Current(s, cid), made[1..], r)
  }

  ghost predicate PlaceBehaves(cid: string, c: Cluster, made: seq<Made>, r: Result<nat, string>) {
    && |made| >= 1 && made[0].call == StatusesCall(cid)
    && if made[0].answer.Lost? then |made| == 1 && r.Err?
       else if PlacementReady(Placement(Rows(made[0].seen, cid))) then |made| == 1 && r == Ok(REQUEUE_AFTER)
       else PickBehaves(c, made[1..], r)
  }

  ghost predicate PickBehaves(c: Cluster, made: seq<Made>, r: Result<nat, string>) {
    && |made| >= 1 && made[0].call == PickCall
    && if !made[0].answer.Picked? then |made| == 1 && made[0].answer.Lost? && r.Err?
       else
         && |made| == 2
         && made[1].call == PutCall(PlacementEntry(c.generation, made[0].answer.mc, made[0].answer.domain))
         && if made[1].answer.Lost? then r.Err? else r == Ok(REQUEUE_AFTER)
  }

  /** The last of two calls was a PUT, and what it put is the entry left. */
  ghost predicate Put(cid: string, made: seq<Made>, t: State) {
    |made| == 2 && made[1].call.PutCall? && Find(Rows(t, cid), PLACEMENT) == Some(made[1].call.entry)
  }

  /** What success leaves: the entry the gate saw, if that was ready, and else the entry of the pick. */
  ghost predicate Leaves(cid: string, made: seq<Made>, t: State) {
    if |made| == 1 then
      PlacementReady(Placement(Rows(made[0].seen, cid)))
      && Find(Rows(t, cid), PLACEMENT) == Find(Rows(made[0].seen, cid), PLACEMENT)
    else |made| == 3 && Put(cid, made[1..], t)
  }

  /** The loop fails exactly when a call is lost, and ends without a requeue exactly when the cluster is gone. */
  lemma Outcomes(cid: string, made: seq<Made>, r: Result<nat, string>)
    requires Behaves(cid, made, r)
    ensures r.Err? <==> !AllAnswered(made)
    ensures r == Ok(0) <==> AllAnswered(made) && !Found(made[0].seen, cid)
    ensures r == Ok(0) ==> OnlyReads(made)
    ensures r.Ok? ==> r.value == 0 || r.value == 300
  {
    hide Current, IsReconciled, Rows, Placement, PlacementReady, PlacementEntry;
    if |made| > 1 {
      assert made == [made[0]] + made[1..];
    }
  }

  /** What is put, if anything is: the selector's pick, for the generation read. */
  lemma PutSays(cid: string, made: seq<Made>, r: Result<nat, string>)
    requires Behaves(cid, made, r)
    ensures forall i :: 0 <= i < |made| ==> (made[i].call.PutCall? <==> i == 3)
    ensures |made| > 3 ==>
      && Found(made[0].seen, cid) && made[2].answer.Picked?
      && var entry := made[3].call.entry;
      && entry.adapter == "placement-adapter"
      && entry.observedGeneration == Current(made[0].seen, cid).generation
      && FieldIs(entry.data, "managementClusterName", made[2].answer.mc)
      && FieldIs(entry.data, "baseDomain", made[2].answer.domain)
  {
    hide Current, IsReconciled, Rows, Placement, PlacementReady, PlacementEntry;
    if |made| > 3 {
      assert made[1..][1..][1] == made[3] && made[1..][1..][0] == made[2];
      Payloads.PlacementEntryMeans(Current(made[0].seen, cid).generation, made[2].answer.mc, made[2].answer.domain);
    }
  }

  // ---- The loop with nobody interfering ----

  lemma IsNext(s: State, cid: string, m: Move)
    ensures Next(s, Act(PlProcess(cid), m)) == PlNext(s, cid, m)
  {
    hide PlNext;
  }

  class Reconciler {
    const stores: Stores

    constructor (stores: Stores)
      ensures this.stores == stores
    {
      this.stores := stores;
    }

    /**
     * Every remote call is one step of the protocol, in the protocol's order; which calls are made and
     * what is returned is `Behaves`. Whatever the outcome, a placement that was ready before the call
     * is unchanged after it. With nobody interfering the loop is `PlWhole` with the selector's pick.
     */
    method Reconcile(clusterID: string) returns (r: Result<nat, string>)
      requires stores.Valid() && PlOf(stores.st, clusterID) == PlIdle
      modifies stores
      ensures stores.Valid() && Extends(old(stores.Now()), stores.Now()) && PlOf(stores.st, clusterID) == PlIdle
      ensures Behaves(clusterID, Since(old(stores.Now()), stores.Now()), r)
      ensures r.Ok? && |Since(old(stores.Now()), stores.Now())| > 1 ==>
        Leaves(clusterID, Since(old(stores.Now()), stores.Now())[1..], stores.st)
      ensures PlacementReady(Placement(Rows(old(stores.st), clusterID))) ==>
        Placement(Rows(stores.st, clusterID)) == Placement(Rows(old(stores.st), clusterID))
      ensures var like := First(old(stores.script));
              Calm(old(stores.script), 4, like) ==>
                stores.st == PlWhole(old(stores.st), clusterID, like.mc, like.domain)
    {
      hide Next, IsRun, IsReconciled, Found, Current, Find, Rows, Placement, SamePoint, Act, PlacementReady, Called,
        Since, PlaceBehaves, Leaves, Calm, Undisturbed, PlNext, PlFromGate;
      ghost var start, like := stores.Now(), First(stores.script);
      if Calm(stores.script, 4, like) { CalmRest(stores.script, 3, like); }
      var me := PlProcess(clusterID);
      var got, asked := stores.GetCluster(me, clusterID);
      ghost var first := stores.Now();
      PlacedStays(stores.trace, start.trace, clusterID);
      IsNext(asked, clusterID, Read);
      if got.Err? {
        FailedIsIdle(me, asked);
        return Err(got.error);
      }
      ClusterRead(start.st, asked, clusterID);
      if got.value.None? {
        return Ok(0);
      }
      var (cluster, conditions) := got.value.value;
      var reconciled := AlreadyReconciled(conditions);
      if reconciled {
        return Ok(REQUEUE_AFTER);
      }
      r := Place(clusterID, cluster);
      ExtendsTransitive(start, first, stores.Now());
      PlacedStays(stores.trace, start.trace, clusterID);
      ghost var rest := Since(first, stores.Now());
      assert (Since(start, first) + rest)[1..] == rest;
    }

    /** The rest of the loop, for a cluster that is known and not reconciled. */
    method Place(clusterID: string, cluster: Cluster) returns (r: Result<nat, string>)
      requires stores.Valid() && PlOf(stores.st, clusterID) == PlStatuses(cluster)
      modifies stores
      ensures stores.Valid() && Extends(old(stores.Now()), stores.Now()) && PlOf(stores.st, clusterID) == PlIdle
      ensures PlaceBehaves(clusterID, cluster, Since(old(stores.Now()), stores.Now()), r)
      ensures r.Ok? ==> Leaves(clusterID, Since(old(stores.Now()), stores.Now()), stores.st)
      ensures var like := First(old(stores.script));
              Calm(old(stores.script), 3, like) ==>
                stores.st == PlFromGate(old(stores.st), clusterID, like.mc, like.domain)
    {
      hide Next, IsRun, Found, Current, Find, Rows, Placement, SamePoint, Act, Landed, InFlight, PlacementReady,
        PlacementEntry, Called, Extends, Since, Calm, Undisturbed, PlNext, PlFromPick, PickBehaves;
      ghost var start, like := stores.Now(), First(stores.script);
      if Calm(stores.script, 3, like) { CalmRest(stores.script, 2, like); }
      var me := PlProcess(clusterID);
      var statuses, gate := stores.GetClusterStatuses(me, clusterID);
      ghost var gated := stores.Now();
      IsNext(gate, clusterID, Read);
      if statuses.Err? {
        FailedIsIdle(me, gate);
        return Err(statuses.error);
      }
      StatusesRead(start.st, gate, clusterID, cluster);
      var placement := Placement(statuses.value);
      if PlacementReady(placement) {
        EntryKept(gate, stores.st, clusterID);
        return Ok(REQUEUE_AFTER);
      }
      r := Choose(clusterID, cluster);
      ExtendsTransitive(start, gated, stores.Now());
      ghost var rest := Since(gated, stores.Now());
      assert (Since(start, gated) + rest)[1..] == rest;
    }

    /** The selection, for a cluster without a ready placement. */
    method Choose(clusterID: string, cluster: Cluster) returns (r: Result<nat, string>)
      requires stores.Valid() && PlOf(stores.st, clusterID) == PlSelect(cluster)
      modifies stores
      ensures stores.Valid() && Extends(old(stores.Now()), stores.Now()) && PlOf(stores.st, clusterID) == PlIdle
      ensures PickBehaves(cluster, Since(old(stores.Now()), stores.Now()), r)
      ensures r.Ok? ==> Put(clusterID, Since(old(stores.Now()), stores.Now()), stores.st)
      ensures var like := First(old(stores.script));
              Calm(old(stores.script), 2, like) ==>
                stores.st == PlFromPick(old(stores.st), clusterID, like.mc, like.domain)
    {
      hide Next, IsRun, Found, Current, Find, Rows, Placement, SamePoint, Act, Landed, InFlight, PlacementReady,
        PlacementEntry, Called, Extends, Since, Calm, Undisturbed, PlNext;
      ghost var start, like := stores.Now(), First(stores.script);
      if Calm(stores.script, 2, like) {
        CalmRest(stores.script, 1, like);
        CalmRest(Rest(stores.script), 0, like);
      }
      var me := PlProcess(clusterID);
      var picked, choice := stores.Pick(me);
      ghost var chosen := stores.Now();
      if picked.Err? {
        FailedIsIdle(me, choice);
        return Err(picked.error);
      }
      var mc, domain := picked.value.0, picked.value.1;
      IsNext(choice, clusterID, Select(mc, domain));
      PickRead(start.st, choice, clusterID, cluster, mc, domain);
      r := Report(clusterID, PlacementEntry(cluster.generation, mc, domain));
      ExtendsTransitive(start, chosen, stores.Now());
    }

    /** The status PUT. */
    method Report(clusterID: string, payload: AdapterStatus) returns (r: Result<nat, string>)
      requires stores.Valid() && PlOf(stores.st, clusterID) == PlPut(payload, false)
      modifies stores
      ensures stores.Valid() && Extends(old(stores.Now()), stores.Now()) && PlOf(stores.st, clusterID) == PlIdle
      ensures exists seen, answer ::
        Since(old(stores.Now()), stores.Now()) == [Made(PutCall(payload), seen, answer)]
        && if answer.Lost? then r.Err? else r == Ok(REQUEUE_AFTER)
      ensures r.Ok? ==> Find(Rows(stores.st, clusterID), PLACEMENT) == Some(payload)
      ensures Undisturbed(First(old(stores.script))) ==>
        stores.st == PlNext(PlNext(old(stores.st), clusterID, Land), clusterID, Return)
    {
      hide Next, IsRun, Find, Rows, SamePoint, Act, Landed, InFlight, Called, Extends, Since, Undisturbed, PlNext,
        NextCall;
      ghost var start := stores.Now();
      var me := PlProcess(clusterID);
      Sending(stores.st, clusterID, payload);
      var ok, sent := stores.PutStatus(me, payload);
      IsNext(start.st, clusterID, Land);
      IsNext(sent, clusterID, Return);
      if !ok {
        FailedIsIdle(me, sent);
        return Err("put cluster status");
      }
      SeenDuring(start, stores.Now(), Made(PutCall(payload), sent, Given));
      Sent(stores.trace, start.trace, start.st, sent, clusterID);
      return Ok(REQUEUE_AFTER);
    }
  }

  lemma EntryKept(s: State, t: State, cid: string)
    requires t == Next(s, Act(PlProcess(cid), Read))
    ensures Find(Rows(t, cid), PLACEMENT) == Find(Rows(s, cid), PLACEMENT)
  {
    hide PlTarget, Find, Rows;
    ProcessSteps.KeepRows(s, t, cid);
  }
}
