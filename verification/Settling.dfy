// From every state with valid specifications in force and nobody half-way, some schedule gets everything ready.
module Settling {
  import opened Generation
  import opened ApiTypes
  import opened Payloads
  import opened Release
  import opened Status
  import opened Upsert
  import opened Protocol
  import opened Invariants
  import opened Preservation
  import opened World
  import opened Whole
  import opened Effects
  import opened Goals
  import opened Points
  import opened Convergence
  import HcSteps
  import NpSteps
  import ProcessSteps

  /** A schedule that leaves all specifications as they are takes one state to the other. */
  ghost predicate Leads(s: State, t: State, g: Goal) {
    SameObjects(s, t) && exists acts :: GoodActions(g, acts) && After(s, acts, |acts|) == t
  }

  lemma {:induction false} AfterConcat(s: State, first: seq<Action>, rest: seq<Action>, i: nat)
    requires i <= |rest|
    ensures After(s, first + rest, |first| + i) == After(After(s, first, |first|), rest, i)
  {
    hide Next;
    if i == 0 {
      AfterPrefix(s, first, rest, |first|);
    } else {
      AfterConcat(s, first, rest, i - 1);
    }
  }

  lemma {:induction false} AfterPrefix(s: State, first: seq<Action>, rest: seq<Action>, i: nat)
    requires i <= |first|
    ensures After(s, first + rest, i) == After(s, first, i)
  {
    hide Next;
    if i > 0 { AfterPrefix(s, first, rest, i - 1); }
  }

  lemma LeadsTransitive(s: State, t: State, u: State, g: Goal)
    requires Leads(s, t, g) && Leads(t, u, g)
    ensures Leads(s, u, g)
  {
    hide GoodAction, After;
    var first :| GoodActions(g, first) && After(s, first, |first|) == t;
    var rest :| GoodActions(g, rest) && After(t, rest, |rest|) == u;
    AfterConcat(s, first, rest, |rest|);
    assert GoodActions(g, first + rest);
  }

  lemma LeadsReflexive(s: State, g: Goal)
    ensures Leads(s, s, g)
  {
    hide Next;
    assert GoodActions(g, []) && After(s, [], 0) == s;
  }

  lemma LeadsOn(s: State, t: State, g: Goal, a: Action)
    requires Leads(s, t, g) && GoodAction(g, a) && SameObjects(t, Next(t, a))
    ensures Leads(s, Next(t, a), g)
  {
    hide GoodAction, Next;
    assert GoodActions(g, [a]);
    assert After(t, [a], 1) == Next(t, a) by { assert After(t, [a], 0) == t; }
    assert Leads(t, Next(t, a), g);
    LeadsTransitive(s, t, Next(t, a), g);
  }

  // ---- One uninterrupted reconcile ----

  /** Where an uninterrupted reconcile that began at `s` can be. */
  ghost predicate OnTheWay(s: State, t: State, g: Goal, me: Process, heard: bool) {
    && ValidGoal(g) && Serves(me, g) && InForce(t, g) && Fits(t, g) && Lasts(s, t, g) && Leads(s, t, g)
    && Waited(me, t, g, heard) && OthersIdle(t, g, me) && Unreconciled(t, g)
  }

  ghost predicate OthersIdle(s: State, g: Goal, me: Process) {
    && (me == PlProcess(g.cid) || PlOf(s, g.cid) == PlIdle) && (me == VrProcess(g.cid) || VrOf(s, g.cid) == VrIdle)
    && (me == HcProcess(g.cid) || HcOf(s, g.cid) == HcIdle)
    && (me == NvrProcess(g.Key()) || NvrOf(s, g.Key()) == NvrIdle)
    && (me == NpProcess(g.Key()) || NpOf(s, g.Key()) == NpIdle)
  }

  ghost predicate Starts(s: State, g: Goal, me: Process, heard: bool) {
    ValidGoal(g) && InForce(s, g) && Unreconciled(s, g) && AllIdle(s, g) && Serves(me, g) && Waited(me, s, g, heard)
  }

  lemma Begins(s: State, g: Goal, me: Process, heard: bool)
    requires Starts(s, g, me, heard)
    ensures OnTheWay(s, s, g, me, heard) && MayBegin(me, s, g) && ValidGoal(g) && InForce(s, g) && Unreconciled(s, g)
    ensures VrFits(s, g) && NvrFits(s, g) && HcFits(s, g) && NpFits(s, g) && Waited(me, s, g, heard)
  {
    hide InForce, ValidGoal, VrFits, NvrFits, HcFits, NpFits, Lasts, Waited, Leads;
    IdleFits(s, g);
    LastsReflexive(s, g);
    LeadsReflexive(s, g);
  }

  lemma OthersStayIdle(t: State, g: Goal, me: Process, m: Move)
    requires Serves(me, g) && OthersIdle(t, g, me)
    ensures OthersIdle(Next(t, Act(me, m)), g, me)
  {
    hide PlNext, VrNext, HcNext, NvrNext, NpNext;
    match me {
      case PlProcess(cid) => PlStepIs(t, cid, m);
      case VrProcess(cid) => VrStepIs(t, cid, m);
      case NvrProcess(key) => NvrStepIs(t, key, m);
      case HcProcess(cid) => HcStepIs(t, cid, m);
      case NpProcess(key) => NpStepIs(t, key, m);
    }
  }

  lemma WaitedLasts(me: Process, s: State, t: State, g: Goal, heard: bool)
    requires Lasts(s, t, g) && Waited(me, s, g, heard)
    ensures Waited(me, t, g, heard)
  {
    hide IsPlaced, HasVersion, HasPoolVersion, HasWork, AgentHeard, HcReady, PoolStored, PoolHeard, PoolReady;
  }

  /** One move on, with what a reconcile may rely on carried along. */
  lemma MovesOn(s: State, t: State, g: Goal, me: Process, m: Move, heard: bool)
    requires OnTheWay(s, t, g, me, heard) && GoodAction(g, Act(me, m)) && GoesOn(me, t, g, m, heard)
    ensures OnTheWay(s, Next(t, Act(me, m)), g, me, heard) && Underway(me, Next(t, Act(me, m)), g, heard)
  {
    hide InForce, ValidGoal, Fits, Fit, Lasts, Waited, Leads, Next, GoodAction, GoesOn, Underway, OthersIdle, AllReady,
      SameView, Serves;
    var u := Next(t, Act(me, m));
    ActionAdvances(t, g, Act(me, m));
    LastsTransitive(s, t, u, g);
    WaitedLasts(me, t, u, g, heard);
    ObjectsStay(t, Act(me, m));
    FitsOf(t, g);
    LeadsOn(s, t, g, Act(me, m));
    OthersStayIdle(t, g, me, m);
    OwnContinues(me, t, g, m, heard);
  }

  /** A reconcile that is idle again leaves everybody idle and its part done. */
  lemma Ends(s: State, t: State, g: Goal, me: Process, heard: bool)
    requires OnTheWay(s, t, g, me, heard) && Underway(me, t, g, heard) && Idle(me, t)
    ensures InForce(t, g) && AllIdle(t, g) && Lasts(s, t, g) && Leads(s, t, g) && Done(me, t, g, heard)
  {
    hide InForce, ValidGoal, Fits, Lasts, Waited, Leads, Done, InHand;
  }

  lemma StillUnderway(me: Process, t: State, g: Goal, m: Move, heard: bool)
    requires !m.Fail? && Underway(me, t, g, heard)
    ensures GoesOn(me, t, g, m, heard)
  {
    hide Underway;
  }

  lemma FirstMove(me: Process, t: State, g: Goal, heard: bool)
    requires MayBegin(me, t, g)
    ensures GoesOn(me, t, g, Read, heard)
  {
    hide Underway;
  }

  /** The next move of a reconcile, or its first. */
  lemma Moved(s: State, t: State, g: Goal, me: Process, m: Move, heard: bool) returns (u: State)
    requires OnTheWay(s, t, g, me, heard) && GoodAction(g, Act(me, m)) && !m.Fail?
    requires Underway(me, t, g, heard) || (MayBegin(me, t, g) && m.Read?)
    ensures u == Next(t, Act(me, m)) && OnTheWay(s, u, g, me, heard) && Underway(me, u, g, heard)
    ensures InForce(u, g) && VrFits(u, g) && NvrFits(u, g) && HcFits(u, g) && NpFits(u, g) && Waited(me, u, g, heard)
    ensures Unreconciled(u, g)
  {
    hide Unreconciled, InForce, VrFits, NvrFits, HcFits, NpFits, Waited, OnTheWay, GoodAction, Idle, Underway, GoesOn,
      Next;
    if Underway(me, t, g, heard) { StillUnderway(me, t, g, m, heard); } else { FirstMove(me, t, g, heard); }
    MovesOn(s, t, g, me, m, heard);
    u := Next(t, Act(me, m));
    OnTheWayParts(s, u, g, me, heard);
  }

  lemma OnTheWayParts(s: State, t: State, g: Goal, me: Process, heard: bool)
    requires OnTheWay(s, t, g, me, heard)
    ensures InForce(t, g) && VrFits(t, g) && NvrFits(t, g) && HcFits(t, g) && NpFits(t, g) && Waited(me, t, g, heard)
    ensures Unreconciled(t, g)
  {
    hide Unreconciled, InForce, ValidGoal, VrFits, NvrFits, HcFits, NpFits, Lasts, Waited, Leads, OthersIdle;
  }

  /** What an uninterrupted reconcile leaves. */
  ghost predicate Settles(s: State, t: State, g: Goal, me: Process, heard: bool) {
    InForce(t, g) && AllIdle(t, g) && Lasts(s, t, g) && Leads(s, t, g) && Done(me, t, g, heard)
  }

  // ---- Placement ----

  lemma PlPoints(t: State, g: Goal, m: Move)
    requires InForce(t, g) && Unreconciled(t, g)
    ensures var pc, next := PlOf(t, g.cid), PlOf(Next(t, Act(PlProcess(g.cid), m)), g.cid);
            && (pc.PlIdle? && m.Read? ==> next.PlStatuses?)
            && (pc.PlStatuses? && m.Read? ==> next.PlIdle? || next.PlSelect?)
            && (pc.PlSelect? && m.Select? ==> next.PlPut?) && (pc.PlPut? && m.Land? ==> next.PlPut? && next.landed)
            && (pc.PlPut? && pc.landed && m.Return? ==> next.PlIdle?)
  {
    hide Inv, PoolOpen, Published, PlNext, IsReconciled, Placement, Rows, PlacementReady, PlacementEntry;
    PlStepIs(t, g.cid, m);
    InForceParts(t, g);
  }

  lemma PlSettles(s: State, g: Goal, mc: string, domain: string) returns (t: State)
    requires Starts(s, g, PlProcess(g.cid), false) && mc != "" && domain != ""
    ensures Settles(s, t, g, PlProcess(g.cid), false)
  {
    hide Starts, OnTheWay, Unreconciled, Underway, InForce, AllIdle, Lasts, Leads, Done, Next, Act, ValidGoal, VrFits,
      NvrFits, HcFits, NpFits, Waited;
    var me := PlProcess(g.cid);
    GoodMoves(g, mc, domain);
    Begins(s, g, me, false);
    PlPoints(s, g, Read);
    t := Moved(s, s, g, me, Read, false);
    PlPoints(t, g, Read);
    t := Moved(s, t, g, me, Read, false);
    if !PlOf(t, g.cid).PlIdle? {
      PlPoints(t, g, Select(mc, domain));
      t := Moved(s, t, g, me, Select(mc, domain), false);
      PlPoints(t, g, Land);
      t := Moved(s, t, g, me, Land, false);
      PlPoints(t, g, Return);
      t := Moved(s, t, g, me, Return, false);
    }
    Ends(s, t, g, me, false);
  }

  lemma GoodMoves(g: Goal, mc: string, domain: string)
    ensures forall me: Process, m: Move :: !me.Outsider? && !m.Select? && !m.Graph? ==> GoodAction(g, Act(me, m))
    ensures mc != "" && domain != "" ==> GoodAction(g, Act(PlProcess(g.cid), Select(mc, domain)))
  {
    hide Resolve;
  }

  // ---- Version resolution ----

  /** A page of the channel's graph that lists the version. */
  ghost predicate Lists(s: State, channel: string, version: string, nodes: seq<Node>) {
    Consistent(s, channel, nodes) && Resolve(nodes, version).Some?
  }

  lemma VrPoints(t: State, g: Goal, m: Move)
    requires ValidGoal(g) && InForce(t, g) && Unreconciled(t, g) && VrFits(t, g)
    ensures var pc, next := VrOf(t, g.cid), VrOf(Next(t, Act(VrProcess(g.cid), m)), g.cid);
            var version := g.c.spec.releaseVersion;
            && (pc.VrIdle? && m.Read? ==> next.VrStatuses?)
            && (pc.VrStatuses? && m.Read? ==> next.VrIdle? || next.VrResolve?)
            && (pc.VrResolve? && m.Graph? && Lists(t, BuildChannel(version), version, m.nodes) ==> next.VrPut?)
            && (pc.VrPut? && m.Land? ==> next.VrPut? && next.landed)
            && (pc.VrPut? && pc.landed && m.Return? ==> next.VrIdle?)
  {
    hide Inv, ValidGoal, VrFits, PoolOpen, Published, VrNext, IsReconciled, VersionResolution, Rows, VersionReady,
      VersionEntry, Resolve, Consistent, BuildChannel;
    VrStepIs(t, g.cid, m);
    InForceParts(t, g);
    GoalParts(g);
    VrHolds(t, g);
  }

  /** The published version, listed. */
  function Listing(s: State, version: string): seq<Node>
    requires Published(s, version)
  {
    [Node(version, s.releases[(BuildChannel(version), version)])]
  }

  lemma ListingFits(s: State, version: string)
    requires Published(s, version)
    ensures Lists(s, BuildChannel(version), version, Listing(s, version))
    ensures Resolve(Listing(s, version), version).Some?
  {
    hide BuildChannel;
  }

  lemma VrSettles(s: State, g: Goal) returns (t: State)
    requires Starts(s, g, VrProcess(g.cid), false)
    ensures Settles(s, t, g, VrProcess(g.cid), false)
  {
    hide Starts, OnTheWay, Unreconciled, Underway, AllIdle, Lasts, Leads, Done, Next, Act, ValidGoal, VrFits, NvrFits,
      HcFits, NpFits, Waited, Inv, Specified, PoolOpen, Published, Listing, Lists, Resolve, BuildChannel;
    var me, version := VrProcess(g.cid), g.c.spec.releaseVersion;
    GoodMoves(g, "", "");
    Begins(s, g, me, false);
    VrPoints(s, g, Read);
    t := Moved(s, s, g, me, Read, false);
    VrPoints(t, g, Read);
    t := Moved(s, t, g, me, Read, false);
    if !VrOf(t, g.cid).VrIdle? {
      var nodes := Listing(t, version);
      ListingFits(t, version);
      GoodPages(g, nodes);
      VrPoints(t, g, Graph(nodes));
      t := Moved(s, t, g, me, Graph(nodes), false);
      VrPoints(t, g, Land);
      t := Moved(s, t, g, me, Land, false);
      VrPoints(t, g, Return);
      t := Moved(s, t, g, me, Return, false);
    }
    Ends(s, t, g, me, false);
  }

  lemma GoodPages(g: Goal, nodes: seq<Node>)
    ensures Resolve(nodes, g.c.spec.releaseVersion).Some? ==> GoodAction(g, Act(VrProcess(g.cid), Graph(nodes)))
    ensures Resolve(nodes, g.n.releaseVersion).Some? ==> GoodAction(g, Act(NvrProcess(g.Key()), Graph(nodes)))
  {
    hide Resolve;
  }

  lemma NvrPoints(t: State, g: Goal, m: Move)
    requires ValidGoal(g) && InForce(t, g) && NvrFits(t, g)
    ensures var pc, next := NvrOf(t, g.Key()), NvrOf(Next(t, Act(NvrProcess(g.Key()), m)), g.Key());
            var version := g.n.releaseVersion;
            && (pc.NvrIdle? && m.Read? ==> next.NvrStatuses?)
            && (pc.NvrStatuses? && m.Read? ==> next.NvrIdle? || next.NvrResolve?)
            && (pc.NvrResolve? && m.Graph? && Lists(t, BuildNodePoolChannel(version).GetOr(""), version, m.nodes) ==>
                next.NvrPut?)
            && (pc.NvrPut? && m.Land? ==> next.NvrPut? && next.landed)
            && (pc.NvrPut? && pc.landed && m.Return? ==> next.NvrIdle?)
  {
    hide Inv, ValidGoal, NvrFits, Specified, Published, NvrNext, NodePoolVR, PoolRows, VersionReady, VersionEntry,
      Resolve, Consistent, BuildNodePoolChannel;
    NvrStepIs(t, g.Key(), m);
    InForceParts(t, g);
    GoalParts(g);
    NvrHolds(t, g);
  }

  lemma NvrSettles(s: State, g: Goal) returns (t: State)
    requires Starts(s, g, NvrProcess(g.Key()), false)
    ensures Settles(s, t, g, NvrProcess(g.Key()), false)
  {
    hide Starts, OnTheWay, Unreconciled, Underway, AllIdle, Lasts, Leads, Done, Next, Act, ValidGoal, VrFits, NvrFits,
      HcFits, NpFits, Waited, Inv, Specified, PoolOpen, Published, Listing, Lists, Resolve, BuildChannel,
      BuildNodePoolChannel;
    var me, version := NvrProcess(g.Key()), g.n.releaseVersion;
    GoodMoves(g, "", "");
    Begins(s, g, me, false);
    GoalParts(g);
    ProcessSteps.NodePoolChannel(version);
    NvrPoints(s, g, Read);
    t := Moved(s, s, g, me, Read, false);
    NvrPoints(t, g, Read);
    t := Moved(s, t, g, me, Read, false);
    if !NvrOf(t, g.Key()).NvrIdle? {
      var nodes := Listing(t, version);
      ListingFits(t, version);
      GoodPages(g, nodes);
      NvrPoints(t, g, Graph(nodes));
      t := Moved(s, t, g, me, Graph(nodes), false);
      NvrPoints(t, g, Land);
      t := Moved(s, t, g, me, Land, false);
      NvrPoints(t, g, Return);
      t := Moved(s, t, g, me, Return, false);
    }
    Ends(s, t, g, me, false);
  }

  // ---- The hc process ----

  lemma HcPoints(t: State, g: Goal, m: Move)
    requires ValidGoal(g) && InForce(t, g) && HcFits(t, g) && IsPlaced(t, g) && HasVersion(t, g) && Unreconciled(t, g)
    ensures var pc, next := HcOf(t, g.cid), HcOf(Next(t, Act(HcProcess(g.cid), m)), g.cid);
            && (pc.HcIdle? && m.Read? ==> next.HcStatuses?) && (pc.HcStatuses? && m.Read? ==> next.HcLookup?)
            && (pc.HcLookup? && m.Read? ==> next.HcReadBack? || next.HcWrite?)
            && (pc.HcWrite? && m.Land? ==> next.HcWrite? && next.landed)
            && (pc.HcWrite? && pc.landed && m.Return? ==> next.HcReadBack?)
            && (pc.HcReadBack? && (m.Land? || m.Return?) ==> next.HcReadBack?)
            && (pc.HcReadBack? && m.Read? ==> next.HcPut?)
            && (pc.HcPut? && m.Land? ==> next.HcPut? && next.landed)
            && (pc.HcPut? && pc.landed && m.Return? ==> next.HcIdle?)
  {
    hide Inv, InForce, ValidGoal, HcFits, HcNext, HcTarget, IsPlaced, HasVersion, HcInv, PlInv, VrInv, RecordInv,
      HcGate, HcBuild, DecideWork, CanWrite, HcEntry, ReadStatus, Found, Current, IsReconciled, HcName, Rows;
    HcStepIs(t, g.cid, m);
    InForceParts(t, g);
    ClusterPart(t, g.cid);
    HcNeverWaits(t, g);
    HcSteps.HcReadIs(t, g.cid);
    HcSteps.HcTargetIs(t, g.cid, m);
    if HcOf(t, g.cid).HcWrite? { HcSteps.HcWriteTarget(t, g.cid); }
  }

  lemma HcSettles(s: State, g: Goal, heard: bool) returns (t: State)
    requires Starts(s, g, HcProcess(g.cid), heard)
    ensures Settles(s, t, g, HcProcess(g.cid), heard)
  {
    hide Starts, OnTheWay, Unreconciled, Underway, InForce, AllIdle, Lasts, Leads, Done, Next, Act, ValidGoal, VrFits,
      NvrFits, HcFits, NpFits, IsPlaced, HasVersion, AgentHeard;
    var me := HcProcess(g.cid);
    GoodMoves(g, "", "");
    Begins(s, g, me, heard);
    HcPoints(s, g, Read);
    t := Moved(s, s, g, me, Read, heard);
    HcPoints(t, g, Read);
    t := Moved(s, t, g, me, Read, heard);
    HcPoints(t, g, Read);
    t := Moved(s, t, g, me, Read, heard);
    HcPoints(t, g, Land);
    t := Moved(s, t, g, me, Land, heard);
    HcPoints(t, g, Return);
    t := Moved(s, t, g, me, Return, heard);
    HcPoints(t, g, Read);
    t := Moved(s, t, g, me, Read, heard);
    HcPoints(t, g, Land);
    t := Moved(s, t, g, me, Land, heard);
    HcPoints(t, g, Return);
    t := Moved(s, t, g, me, Return, heard);
    Ends(s, t, g, me, heard);
  }

  // ---- The nodepool process ----

  lemma NpPoints(t: State, g: Goal, m: Move)
    requires ValidGoal(g) && InForce(t, g) && NpFits(t, g) && HcReady(t, g) && HasPoolVersion(t, g)
    requires NpOf(t, g.Key()).NpStatuses? ==> GateReady(NpOf(t, g.Key()).statuses)
    ensures var pc, next := NpOf(t, g.Key()), NpOf(Next(t, Act(NpProcess(g.Key()), m)), g.Key());
            && (pc.NpIdle? && m.Read? ==> next.NpCluster?) && (pc.NpCluster? && m.Read? ==> next.NpClusterStatuses?)
            && (pc.NpClusterStatuses? && m.Read? ==> next.NpStatuses?) && (pc.NpStatuses? && m.Read? ==> next.NpLookup?)
            && (pc.NpLookup? && m.Read? ==> next.NpReadBack? || next.NpWrite?)
            && (pc.NpWrite? && m.Land? ==> next.NpWrite? && next.landed)
            && (pc.NpWrite? && pc.landed && m.Return? ==> next.NpReadBack?)
            && (pc.NpReadBack? && (m.Land? || m.Return?) ==> next.NpReadBack?)
            && (pc.NpReadBack? && m.Read? ==> next.NpPut?)
            && (pc.NpPut? && m.Land? ==> next.NpPut? && next.landed)
            && (pc.NpPut? && pc.landed && m.Return? ==> next.NpIdle?)
  {
    hide Inv, InForce, ValidGoal, NpFits, NpNext, NpTarget, HcReady, HasPoolVersion, NpInv, NvrInv, PoolRecordInv,
      NpGate, NpBuild, WorkValid, GateReady, DecideWork, CanWrite, NodePoolEntry, ReadStatus, Found, Current, PoolFound,
      CurrentPool, NpName, Rows, PoolRows;
    NpStepIs(t, g.Key(), m);
    InForceParts(t, g);
    PoolPart(t, g.Key());
    NpNeverWaits(t, g);
    NpSteps.NpReadIs(t, g.Key());
    NpSteps.NpTargetIs(t, g.Key(), m);
    if NpOf(t, g.Key()).NpWrite? { NpSteps.NpWriteTarget(t, g.Key()); }
    NpOtherMoves(t, g, m);
  }

  lemma NpOtherMoves(t: State, g: Goal, m: Move)
    ensures var pc, next := NpOf(t, g.Key()), NpTarget(t, g.Key(), m);
            && (pc.NpWrite? && pc.landed && m.Return? ==> next.NpReadBack?)
            && (pc.NpReadBack? && (m.Land? || m.Return?) ==> next.NpReadBack?)
            && (pc.NpPut? && m.Land? ==> next.NpPut? && next.landed)
            && (pc.NpPut? && pc.landed && m.Return? ==> next.NpIdle?)
  {
    hide NpGated, DecideWork, CanWrite, Found, Current, PoolFound, CurrentPool, Rows, NodePoolEntry, ReadStatus;
  }

  lemma NpSettles(s: State, g: Goal, heard: bool) returns (t: State)
    requires Starts(s, g, NpProcess(g.Key()), heard)
    ensures Settles(s, t, g, NpProcess(g.Key()), heard)
  {
    hide Starts, OnTheWay, Unreconciled, InForce, AllIdle, Lasts, Leads, Done, Next, Act, ValidGoal, VrFits, NvrFits,
      HcFits, NpFits, HcReady, HasPoolVersion, GateReady;
    var me := NpProcess(g.Key());
    GoodMoves(g, "", "");
    Begins(s, g, me, heard);
    NpPoints(s, g, Read);
    t := Moved(s, s, g, me, Read, heard);
    NpPoints(t, g, Read);
    t := Moved(s, t, g, me, Read, heard);
    NpPoints(t, g, Read);
    t := Moved(s, t, g, me, Read, heard);
    NpPoints(t, g, Read);
    t := Moved(s, t, g, me, Read, heard);
    NpPoints(t, g, Read);
    t := Moved(s, t, g, me, Read, heard);
    NpPoints(t, g, Land);
    t := Moved(s, t, g, me, Land, heard);
    NpPoints(t, g, Return);
    t := Moved(s, t, g, me, Return, heard);
    NpPoints(t, g, Read);
    t := Moved(s, t, g, me, Read, heard);
    NpPoints(t, g, Land);
    t := Moved(s, t, g, me, Land, heard);
    NpPoints(t, g, Return);
    t := Moved(s, t, g, me, Return, heard);
    Ends(s, t, g, me, heard);
  }

  // ---- All of them ----

  /** How far a schedule has come, with everybody idle again. */
  ghost predicate Between(s: State, t: State, g: Goal) {
    ValidGoal(g) && InForce(t, g) && Unreconciled(t, g) && AllIdle(t, g) && Leads(s, t, g)
  }

  lemma SettledNext(s: State, t: State, u: State, g: Goal, me: Process, heard: bool)
    requires Between(s, t, g) && Settles(t, u, g, me, heard)
    ensures Between(s, u, g) && Lasts(t, u, g) && Done(me, u, g, heard)
  {
    hide ValidGoal, InForce, AllIdle, Lasts, Leads, Done;
    LeadsTransitive(s, t, u, g);
    StillUnreconciled(t, u, g);
  }

  lemma StillUnreconciled(s: State, t: State, g: Goal)
    requires Unreconciled(s, g) && Leads(s, t, g)
    ensures Unreconciled(t, g)
  {
    hide IsReconciled;
  }

  /** The work the process has stored, and what the agent says of it. */
  ghost predicate Says(me: Process, s: State, g: Goal, k: Key, status: WorkStatus) {
    k in s.works
    && if me.HcProcess? then k.1 == HcName(g.cid) && status == g.up
       else me.NpProcess? && k.1 == NpName(g.npid) && status == g.poolUp
  }

  lemma AgentSettles(s: State, t: State, g: Goal, me: Process) returns (u: State)
    requires Between(s, t, g) && Serves(me, g) && (me.HcProcess? || me.NpProcess?) && Done(me, t, g, false)
    ensures Between(s, u, g) && Lasts(t, u, g) && Heard(me, u, g)
  {
    hide ValidGoal, InForce, Unreconciled, Lasts, Leads, Done, Heard, Happen, GoodAction, Fits, Fit, SameView, AllReady,
      AllIdle, Serves, Says;
    var k, status := StoredWork(t, g, me);
    var a := Outside(Report(k, status));
    SaysGood(me, t, g, k, status);
    u := Next(t, a);
    SameButWorks(t, u, g, k, status);
    IdleFits(t, g);
    FitsOf(t, g);
    ActionAdvances(t, g, a);
    AgentReportHeard(me, t, g, a);
    LeadsOn(s, t, g, a);
  }

  lemma StoredWork(s: State, g: Goal, me: Process) returns (k: Key, status: WorkStatus)
    requires Serves(me, g) && (me.HcProcess? || me.NpProcess?) && Done(me, s, g, false)
    ensures Says(me, s, g, k, status)
  {
    hide HcName, NpName, GetGeneration, Placed;
    if me.HcProcess? {
      k, status := HcKey(g.cid, Placed(s, g.cid).value), g.up;
    } else {
      k, status := NpKey(g.Key(), Placed(s, g.cid).value), g.poolUp;
    }
  }

  lemma SaysGood(me: Process, s: State, g: Goal, k: Key, status: WorkStatus)
    requires Says(me, s, g, k, status)
    ensures GoodAction(g, Outside(Report(k, status))) && AgentReports(me, s, g, Outside(Report(k, status)))
  {
    hide HcName, NpName, AgentHeard, PoolHeard;
    NamesApart();
  }

  lemma SameButWorks(s: State, t: State, g: Goal, k: Key, status: WorkStatus)
    requires t == Happen(s, Report(k, status))
    ensures SameObjects(s, t) && (AllIdle(s, g) ==> AllIdle(t, g)) && (Unreconciled(s, g) ==> Unreconciled(t, g))
  {
    hide Happen, IsReconciled;
    ReportIs(s, k, status);
  }

  lemma BetweenStarts(s: State, t: State, g: Goal, me: Process, heard: bool)
    requires Between(s, t, g) && Serves(me, g) && Waited(me, t, g, heard)
    ensures Starts(t, g, me, heard)
  {
    hide ValidGoal, InForce, Unreconciled, AllIdle, Leads, Waited;
  }

  /** The cluster's part: placed, resolved, applied, reported on, and reported. */
  lemma ClusterSettles(s: State, g: Goal) returns (t: State)
    requires ValidGoal(g) && InForce(s, g) && Unreconciled(s, g) && AllIdle(s, g)
    ensures Between(s, t, g) && IsPlaced(t, g) && HasVersion(t, g) && HcReady(t, g)
  {
    hide ValidGoal, InForce, AllIdle, Leads, Starts, Between, Settles, IsPlaced, HasVersion, HasPoolVersion, HasWork,
      AgentHeard, HcReady, PoolStored, PoolHeard, PoolReady;
    LeadsReflexive(s, g);
    BetweenOf(s, s, g);
    BetweenStarts(s, s, g, PlProcess(g.cid), false);
    var placed := PlSettles(s, g, "mc", "domain");
    SettledNext(s, s, placed, g, PlProcess(g.cid), false);
    BetweenStarts(s, placed, g, VrProcess(g.cid), false);
    var resolved := VrSettles(placed, g);
    SettledNext(s, placed, resolved, g, VrProcess(g.cid), false);
    BetweenStarts(s, resolved, g, HcProcess(g.cid), false);
    var applied := HcSettles(resolved, g, false);
    SettledNext(s, resolved, applied, g, HcProcess(g.cid), false);
    var heard := AgentSettles(s, applied, g, HcProcess(g.cid));
    BetweenStarts(s, heard, g, HcProcess(g.cid), true);
    t := HcSettles(heard, g, true);
    SettledNext(s, heard, t, g, HcProcess(g.cid), true);
  }

  lemma BetweenOf(s: State, t: State, g: Goal)
    requires ValidGoal(g) && InForce(t, g) && Unreconciled(t, g) && AllIdle(t, g) && Leads(s, t, g)
    ensures Between(s, t, g)
  {
    hide ValidGoal, InForce, AllIdle, Leads;
  }

  /** And then the node pool's. */
  lemma AllSettle(s: State, g: Goal) returns (t: State)
    requires ValidGoal(g) && InForce(s, g) && Unreconciled(s, g) && AllIdle(s, g)
    ensures Between(s, t, g) && AllReady(t, g)
  {
    hide ValidGoal, InForce, AllIdle, Leads, Starts, Between, Settles, IsPlaced, HasVersion, HasPoolVersion, HasWork,
      AgentHeard, HcReady, PoolStored, PoolHeard, PoolReady;
    var ready := ClusterSettles(s, g);
    BetweenStarts(s, ready, g, NvrProcess(g.Key()), false);
    var resolved := NvrSettles(ready, g);
    SettledNext(s, ready, resolved, g, NvrProcess(g.Key()), false);
    BetweenStarts(s, resolved, g, NpProcess(g.Key()), false);
    var applied := NpSettles(resolved, g, false);
    SettledNext(s, resolved, applied, g, NpProcess(g.Key()), false);
    var heard := AgentSettles(s, applied, g, NpProcess(g.Key()));
    BetweenStarts(s, heard, g, NpProcess(g.Key()), true);
    t := NpSettles(heard, g, true);
    SettledNext(s, heard, t, g, NpProcess(g.Key()), true);
  }

  /** Wherever nobody is half-way, some schedule gets everything ready. */
  lemma SomeScheduleSettles(s: State, g: Goal)
    requires ValidGoal(g) && InForce(s, g) && Unreconciled(s, g) && AllIdle(s, g)
    ensures exists acts :: Schedule(s, g, acts) && AllReady(After(s, acts, |acts|), g)
  {
    hide ValidGoal, InForce, Unreconciled, AllReady, GoodAction, After, AllIdle;
    var t := AllSettle(s, g);
    var acts :| GoodActions(g, acts) && After(s, acts, |acts|) == t;
    assert Schedule(s, g, acts);
  }
}
