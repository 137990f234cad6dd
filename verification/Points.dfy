// The adapters' processes, step by step, while the specifications of a cluster and a node pool stay in force.
module Points {
  import opened Wrappers
  import opened Work
  import opened Generation
  import opened Documents
  import opened Status
  import opened ApiTypes
  import opened Payloads
  import opened Release
  import opened Upsert
  import opened Protocol
  import opened Invariants
  import opened Preservation
  import opened World
  import opened Whole
  import opened Effects
  import opened Goals
  import ProcessSteps
  import HcSteps
  import NpSteps

  // ---- What a process may hold ----

  // A process fits the goal if it holds the specification that is in force and a request of its own that
  // has not reached the store yet is still needed.

  ghost predicate VrFits(s: State, g: Goal) {
    match VrOf(s, g.cid)
    case VrIdle => true
    case VrStatuses(c) => c == g.c
    case VrResolve(c) => c == g.c && !HasVersion(s, g)
    case VrPut(e, landed) => (landed || !HasVersion(s, g)) && EntryFor(e, g.c.spec.releaseVersion)
  }

  ghost predicate NvrFits(s: State, g: Goal) {
    match NvrOf(s, g.Key())
    case NvrIdle => true
    case NvrStatuses(n) => n == g.n
    case NvrResolve(n) => n == g.n && !HasPoolVersion(s, g)
    case NvrPut(e, landed) => (landed || !HasPoolVersion(s, g)) && EntryFor(e, g.n.releaseVersion)
  }

  ghost predicate EntryFor(e: AdapterStatus, version: string) {
    ReadVersion(Some(e)).Some? && ReadVersion(Some(e)).value.version == version
  }

  ghost predicate HcFits(s: State, g: Goal) {
    HcPointFits(s, g, HcOf(s, g.cid))
  }

  ghost predicate HcPointFits(s: State, g: Goal, pc: HcPc) {
    match pc
    case HcIdle => true
    case HcStatuses(c) => c == g.c
    case HcLookup(c, _, _) => c == g.c
    case HcWrite(c, _, _, _, landed) => c == g.c && (landed || !HasWork(s, g))
    case HcReadBack(c, _, _) => c == g.c
    case HcPut(c, _, _, _, _) => c == g.c
  }

  ghost predicate NpFits(s: State, g: Goal) {
    NpPointFits(s, g, NpOf(s, g.Key()))
  }

  ghost predicate NpPointFits(s: State, g: Goal, pc: NodePoolPc) {
    match pc
    case NpIdle => true
    case NpCluster(n) => n == g.n
    case NpClusterStatuses(n, _) => n == g.n
    case NpStatuses(n, _, _) => n == g.n
    case NpLookup(n, _, _, _) => n == g.n
    case NpWrite(n, _, _, _, _, landed) => n == g.n && (landed || !PoolStored(s, g))
    case NpReadBack(n, _, _, _) => n == g.n
    case NpPut(n, _, _, _, _, _) => n == g.n
  }

  ghost predicate Fit(me: Process, s: State, g: Goal) {
    match me
    case VrProcess(_) => VrFits(s, g)
    case NvrProcess(_) => NvrFits(s, g)
    case HcProcess(_) => HcFits(s, g)
    case NpProcess(_) => NpFits(s, g)
    case _ => true
  }

  /** The five processes that serve the goal. */
  ghost predicate Serves(me: Process, g: Goal) {
    me == PlProcess(g.cid) || me == VrProcess(g.cid) || me == HcProcess(g.cid) || me == NvrProcess(g.Key())
    || me == NpProcess(g.Key())
  }

  /** All of them fit. */
  ghost predicate Fits(s: State, g: Goal) {
    VrFits(s, g) && NvrFits(s, g) && HcFits(s, g) && NpFits(s, g)
  }

  lemma IdleFit(me: Process, s: State, g: Goal)
    requires Serves(me, g) && Idle(me, s)
    ensures Fit(me, s, g)
  {
  }

  lemma IdleFits(s: State, g: Goal)
    requires AllIdle(s, g)
    ensures Fits(s, g)
  {
  }

  lemma FitsOf(s: State, g: Goal)
    ensures Fits(s, g) <==> VrFits(s, g) && NvrFits(s, g) && HcFits(s, g) && NpFits(s, g)
    ensures Fits(s, g) <==> forall me: Process :: Serves(me, g) ==> Fit(me, s, g)
  {
    hide VrFits, NvrFits, HcFits, NpFits;
    assert Serves(VrProcess(g.cid), g) && Serves(NvrProcess(g.Key()), g);
    assert Serves(HcProcess(g.cid), g) && Serves(NpProcess(g.Key()), g);
    assert Fit(VrProcess(g.cid), s, g) == VrFits(s, g) && Fit(NvrProcess(g.Key()), s, g) == NvrFits(s, g);
    assert Fit(HcProcess(g.cid), s, g) == HcFits(s, g) && Fit(NpProcess(g.Key()), s, g) == NpFits(s, g);
  }

  // ---- What one process is answerable for ----

  /** The process still fits, and its own part of what is achieved is not undone. */
  ghost predicate Keeps(me: Process, s: State, t: State, g: Goal) {
    Fit(me, t, g)
    && match me
       case Outsider => true
       case PlProcess(_) => IsPlaced(s, g) ==> IsPlaced(t, g)
       case VrProcess(_) => HasVersion(s, g) ==> HasVersion(t, g)
       case NvrProcess(_) => HasPoolVersion(s, g) ==> HasPoolVersion(t, g)
       case HcProcess(_) =>
         (HasWork(s, g) ==> HasWork(t, g)) && (AgentHeard(s, g) ==> AgentHeard(t, g))
         && (HcReady(s, g) ==> HcReady(t, g))
       case NpProcess(_) =>
         (PoolStored(s, g) ==> PoolStored(t, g)) && (PoolHeard(s, g) ==> PoolHeard(t, g))
         && (PoolReady(s, g) ==> PoolReady(t, g))
  }

  lemma KeepsReflexive(me: Process, s: State, g: Goal)
    requires Fit(me, s, g)
    ensures Keeps(me, s, s, g)
  {
    hide Fit, IsPlaced, HasVersion, HasPoolVersion, HasWork, AgentHeard, HcReady, PoolStored, PoolHeard, PoolReady;
  }

  lemma KeepsTransitive(me: Process, s: State, t: State, u: State, g: Goal)
    requires Keeps(me, s, t, g) && Keeps(me, t, u, g)
    ensures Keeps(me, s, u, g)
  {
    hide Fit, IsPlaced, HasVersion, HasPoolVersion, HasWork, AgentHeard, HcReady, PoolStored, PoolHeard, PoolReady;
  }

  /** The process has nothing left to change. */
  ghost predicate Ready(me: Process, s: State, g: Goal) {
    match me
    case Outsider => false
    case PlProcess(_) => IsPlaced(s, g)
    case VrProcess(_) => HasVersion(s, g)
    case NvrProcess(_) => HasPoolVersion(s, g)
    case HcProcess(_) => HcReady(s, g)
    case NpProcess(_) => PoolReady(s, g)
  }

  /** What a process's own step owes. */
  ghost predicate Owes(me: Process, s: State, t: State, g: Goal) {
    Keeps(me, s, t, g) && (Ready(me, s, g) ==> SameView(s, t, g))
  }

  // ---- What others may change ----

  /** A step of somebody else: what the process goes by is untouched. */
  ghost predicate Apart(me: Process, s: State, t: State, g: Goal) {
    match me
    case Outsider => true
    case PlProcess(_) => true
    case VrProcess(_) => VrOf(t, g.cid) == VrOf(s, g.cid) && SameRow(s, t, g.cid, VERSION_RESOLUTION)
    case NvrProcess(_) => NvrOf(t, g.Key()) == NvrOf(s, g.Key()) && SamePoolRow(s, t, g.Key(), NODE_POOL_VR)
    case HcProcess(_) =>
      HcOf(t, g.cid) == HcOf(s, g.cid) && SameRow(s, t, g.cid, HC) && SameStored(s, t, HcName(g.cid))
    case NpProcess(_) =>
      NpOf(t, g.Key()) == NpOf(s, g.Key()) && SamePoolRow(s, t, g.Key(), NODE_POOL) && SameStored(s, t, NpName(g.npid))
  }

  lemma VrFitsFrame(s: State, t: State, g: Goal)
    requires VrFits(s, g) && VrOf(t, g.cid) == VrOf(s, g.cid) && SameRow(s, t, g.cid, VERSION_RESOLUTION)
    ensures VrFits(t, g)
  {
    hide HasVersion, EntryFor;
    VersionReads(s, t, g);
  }

  lemma NvrFitsFrame(s: State, t: State, g: Goal)
    requires NvrFits(s, g) && NvrOf(t, g.Key()) == NvrOf(s, g.Key()) && SamePoolRow(s, t, g.Key(), NODE_POOL_VR)
    ensures NvrFits(t, g)
  {
    hide HasPoolVersion, EntryFor;
    PoolVersionReads(s, t, g);
  }

  lemma HcFitsFrame(s: State, t: State, g: Goal)
    requires HcFits(s, g) && HcInv(s, g.cid) && HcOf(t, g.cid) == HcOf(s, g.cid)
    requires IsPlaced(s, g) ==> Placed(t, g.cid) == Placed(s, g.cid)
    requires SameWorks(s, t, HcName(g.cid))
    ensures HcFits(t, g)
  {
    hide HcName, GetGeneration, Placed, HcStoredInv, HcRowInv, HcHeld, IsHcWork, Rows, Find;
  }

  lemma NpFitsFrame(s: State, t: State, g: Goal)
    requires NpFits(s, g) && NpInv(s, g.Key()) && NpOf(t, g.Key()) == NpOf(s, g.Key())
    requires IsPlaced(s, g) ==> Placed(t, g.cid) == Placed(s, g.cid)
    requires SameWorks(s, t, NpName(g.npid))
    ensures NpFits(t, g)
  {
    hide NpName, HcName, GetGeneration, Placed, NpStoredInv, NpRowInv, NpHeld, IsNpWork, Snapshot, HcThere, WorkValid,
      NodePoolEntry, Rows, PoolRows, Find, Reported;
  }

  lemma StoredIsSame(s: State, t: State, name: string)
    requires SameStored(s, t, name)
    ensures SameWorks(s, t, name)
  {
  }

  lemma SamePointUpToDate(s: State, t: State, g: Goal)
    ensures HcOf(t, g.cid) == HcOf(s, g.cid) && HcReady(s, g) ==> UpToDate(t, g)
    ensures NpOf(t, g.Key()) == NpOf(s, g.Key()) && PoolReady(s, g) ==> PoolUpToDate(t, g)
  {
    hide AgentHeard, UpEntry, PoolHeard, PoolUpEntry, Find, Rows, PoolRows;
  }

  lemma ApartKeeps(me: Process, s: State, t: State, g: Goal)
    requires Inv(s) && Grows(s, t) && Fit(me, s, g) && Apart(me, s, t, g)
    ensures Keeps(me, s, t, g)
  {
    hide Inv, Grows, VrFits, NvrFits, HcFits, NpFits, PlInv, VrInv, HcInv, RecordInv, NvrInv, NpInv, PoolRecordInv,
      HasVersion, HasPoolVersion, HasWork, AgentHeard, HcReady, PoolStored, PoolHeard, PoolReady, SameRow, SamePoolRow,
      SameStored, SameWorks, HcName, NpName, Placed, UpToDate, PoolUpToDate;
    ClusterPart(s, g.cid);
    PoolPart(s, g.Key());
    PlacedGrows(s, t, g);
    SamePointUpToDate(s, t, g);
    match me {
      case VrProcess(_) => VersionReads(s, t, g); VrFitsFrame(s, t, g);
      case NvrProcess(_) => PoolVersionReads(s, t, g); NvrFitsFrame(s, t, g);
      case HcProcess(_) =>
        SameWork(s, t, g);
        SameHcReady(s, t, g);
        StoredIsSame(s, t, HcName(g.cid));
        HcFitsFrame(s, t, g);
      case NpProcess(_) =>
        SamePoolWork(s, t, g);
        SamePoolReady(s, t, g);
        StoredIsSame(s, t, NpName(g.npid));
        NpFitsFrame(s, t, g);
      case _ =>
    }
  }

  lemma PlacedGrows(s: State, t: State, g: Goal)
    requires Grows(s, t)
    ensures IsPlaced(s, g) ==> Placed(t, g.cid) == Placed(s, g.cid)
  {
    hide Placed;
  }

  // ---- Placement ----

  lemma PlOwes(s: State, g: Goal, m: Move)
    requires Inv(s)
    ensures Owes(PlProcess(g.cid), s, PlNext(s, g.cid, m), g)
  {
    hide Inv, SameView, PlNext, PutRow, PlInv, VrInv, RecordInv, HcInv, Placed, PlOf;
    var t, pc := PlNext(s, g.cid, m), PlOf(s, g.cid);
    PlStepIs(s, g.cid, m);
    ClusterPart(s, g.cid);
    ProcessSteps.PlOwn(s, g.cid, m);
    if pc.PlPut? && m.Land? {
      PlPutFacts(s, g.cid);
      if IsPlaced(s, g) { PutAgain(s, t, g, pc.entry); }
    } else {
      StoresSame(s, t, g);
    }
  }

  lemma PlPutFacts(s: State, cid: string)
    requires PlInv(s, cid) && PlOf(s, cid).PlPut?
    ensures PlOf(s, cid).entry.adapter == PLACEMENT
    ensures Placed(s, cid).Some? ==> Find(Rows(s, cid), PLACEMENT) == Some(PlOf(s, cid).entry)
  {
    hide Find, Rows, Placed;
  }

  // ---- Version resolution ----

  /** Where a step that writes nothing takes the version process. */
  lemma VrTargetFits(s: State, g: Goal, m: Move)
    requires Specified(s, g) && VrFits(s, g)
    ensures var t := s.(vr := s.vr[g.cid := VrTarget(s, g.cid, m)]); VrFits(t, g)
  {
    hide Found, Current, IsReconciled, Rows, ReadVersion, BuildChannel, Resolve, Consistent, VersionResolution;
    var t := s.(vr := s.vr[g.cid := VrTarget(s, g.cid, m)]);
    SameVersion(s, t, g);
    VersionIs(s, g);
    if VrOf(s, g.cid).VrResolve? && m.Graph? { ResolvedEntry(g, m.nodes); }
  }

  lemma SameVersion(s: State, t: State, g: Goal)
    requires t.clusterStatuses == s.clusterStatuses
    ensures HasVersion(t, g) <==> HasVersion(s, g)
  {
    ProcessSteps.KeepRows(s, t, g.cid);
    hide Rows;
    VersionReads(s, t, g);
  }

  lemma VersionIs(s: State, g: Goal)
    ensures var v := VersionResolution(Rows(s, g.cid));
            HasVersion(s, g) <==> VersionReady(v) && v.value.version == g.c.spec.releaseVersion
  {
    hide Rows, VersionResolution;
  }

  lemma ResolvedEntry(g: Goal, nodes: seq<Node>)
    ensures var found, version := Resolve(nodes, g.c.spec.releaseVersion), g.c.spec.releaseVersion;
            found.Some? ==>
              var node := found.value;
              EntryFor(VersionEntry(VERSION_RESOLUTION, "VersionResolved", g.c.generation, node.payload, node.version,
                                    BuildChannel(version)), version)
  {
    hide Resolve, BuildChannel;
  }

  lemma VrOwes(s: State, g: Goal, m: Move)
    requires InForce(s, g) && VrFits(s, g)
    ensures Owes(VrProcess(g.cid), s, VrNext(s, g.cid, m), g)
  {
    hide Inv, InForce, Specified, PoolOpen, VrFits, SameView, VrNext, VrTarget, PutRow, HasVersion;
    var t, pc := VrNext(s, g.cid, m), VrOf(s, g.cid);
    VrStepIs(s, g.cid, m);
    InForceParts(s, g);
    if pc.VrPut? && m.Land? {
      VrLandOwes(s, g);
    } else {
      VrTargetFits(s, g, m);
      VrFitsCopy(s.(vr := s.vr[g.cid := VrTarget(s, g.cid, m)]), t, g);
      StoresSame(s, t, g);
      SameVersion(s, t, g);
    }
  }

  lemma VrFitsCopy(s: State, t: State, g: Goal)
    requires VrFits(s, g) && t.clusterStatuses == s.clusterStatuses && VrOf(t, g.cid) == VrOf(s, g.cid)
    ensures VrFits(t, g)
  {
    hide HasVersion, EntryFor;
    SameVersion(s, t, g);
  }

  lemma VrPutFacts(s: State, g: Goal)
    requires VrInv(s, g.cid) && VrFits(s, g) && VrOf(s, g.cid).VrPut?
    ensures var e := VrOf(s, g.cid).entry;
            && e.adapter == VERSION_RESOLUTION && EntryFor(e, g.c.spec.releaseVersion)
            && Canonical(s, ReadVersion(Some(e)))
            && (HasVersion(s, g) ==> Find(Rows(s, g.cid), VERSION_RESOLUTION) == Some(e))
  {
    hide Find, Rows, HasVersion, ReadVersion;
  }

  /** The one resolution of a published version is ready. */
  lemma CanonicalReady(s: State, e: AdapterStatus, version: string)
    requires EntryFor(e, version) && Canonical(s, ReadVersion(Some(e))) && Published(s, version)
    ensures VersionReady(ReadVersion(Some(e)))
  {
    hide ReadVersion, BuildChannel;
  }

  lemma ResolvedBy(t: State, g: Goal, e: AdapterStatus)
    requires EntryFor(e, g.c.spec.releaseVersion) && VersionReady(ReadVersion(Some(e)))
    requires Find(Rows(t, g.cid), VERSION_RESOLUTION) == Some(e)
    ensures HasVersion(t, g)
  {
    hide Find, Rows, ReadVersion;
  }

  lemma VrLandOwes(s: State, g: Goal)
    requires InForce(s, g) && VrFits(s, g) && VrOf(s, g.cid).VrPut?
    ensures Owes(VrProcess(g.cid), s, VrNext(s, g.cid, Land), g)
  {
    hide Inv, InForce, Specified, PoolOpen, VrFits, SameView, VrNext, VrTarget, PutRow, PlInv, VrInv, RecordInv, HcInv,
      HasVersion, Canonical, EntryFor, Published, Find;
    var t, e := VrNext(s, g.cid, Land), VrOf(s, g.cid).entry;
    VrStepIs(s, g.cid, Land);
    VrLandsAs(s, g);
    InForceParts(s, g);
    ClusterPart(s, g.cid);
    VrPutFacts(s, g);
    VrLandedFits(t, g, e);
    RowStep(s, t, g, e);
    CanonicalReady(s, e, g.c.spec.releaseVersion);
    ResolvedBy(t, g, e);
    if HasVersion(s, g) { PutAgain(s, t, g, e); }
  }

  lemma VrLandsAs(s: State, g: Goal)
    requires VrOf(s, g.cid).VrPut?
    ensures VrTarget(s, g.cid, Land) == VrPut(VrOf(s, g.cid).entry, true)
  {
  }

  lemma VrLandedFits(t: State, g: Goal, e: AdapterStatus)
    requires VrOf(t, g.cid) == VrPut(e, true) && EntryFor(e, g.c.spec.releaseVersion)
    ensures VrFits(t, g)
  {
    hide EntryFor;
  }

  // ---- Node pool version resolution ----

  /** Where a step that writes nothing takes the node pool's version process. */
  lemma NvrTargetFits(s: State, g: Goal, m: Move)
    requires PoolOpen(s, g.Key(), g.n) && NvrFits(s, g)
    ensures var t := s.(nvr := s.nvr[g.Key() := NvrTarget(s, g.Key(), m)]); NvrFits(t, g)
  {
    hide PoolFound, CurrentPool, PoolRows, ReadVersion, BuildNodePoolChannel, Resolve, Consistent, NodePoolVR;
    var t := s.(nvr := s.nvr[g.Key() := NvrTarget(s, g.Key(), m)]);
    SamePoolVersion(s, t, g);
    PoolVersionIs(s, g);
    if NvrOf(s, g.Key()).NvrResolve? && m.Graph? { ResolvedPoolEntry(g, m.nodes); }
  }

  lemma SamePoolVersion(s: State, t: State, g: Goal)
    requires t.poolStatuses == s.poolStatuses
    ensures HasPoolVersion(t, g) <==> HasPoolVersion(s, g)
  {
    ProcessSteps.KeepPoolRows(s, t, g.Key());
    hide PoolRows;
    PoolVersionReads(s, t, g);
  }

  lemma PoolVersionIs(s: State, g: Goal)
    ensures var v := NodePoolVR(PoolRows(s, g.Key()));
            HasPoolVersion(s, g) <==> VersionReady(v) && v.value.version == g.n.releaseVersion
  {
    hide PoolRows, NodePoolVR;
  }

  lemma ResolvedPoolEntry(g: Goal, nodes: seq<Node>)
    ensures var found, version := Resolve(nodes, g.n.releaseVersion), g.n.releaseVersion;
            var channel := BuildNodePoolChannel(version).GetOr("");
            found.Some? ==>
              EntryFor(VersionEntry(NODE_POOL_VR, "ReleaseImageAvailable", g.n.generation, found.value.payload, version,
                                    channel), version)
  {
    hide Resolve, BuildNodePoolChannel;
  }

  lemma NvrOwes(s: State, g: Goal, m: Move)
    requires InForce(s, g) && NvrFits(s, g)
    ensures Owes(NvrProcess(g.Key()), s, NvrNext(s, g.Key(), m), g)
  {
    hide Inv, InForce, Specified, PoolOpen, NvrFits, SameView, NvrNext, NvrTarget, PutPoolRow, HasPoolVersion;
    var t, pc := NvrNext(s, g.Key(), m), NvrOf(s, g.Key());
    NvrStepIs(s, g.Key(), m);
    InForceParts(s, g);
    if pc.NvrPut? && m.Land? {
      NvrLandOwes(s, g);
    } else {
      NvrTargetFits(s, g, m);
      NvrFitsCopy(s.(nvr := s.nvr[g.Key() := NvrTarget(s, g.Key(), m)]), t, g);
      StoresSame(s, t, g);
      SamePoolVersion(s, t, g);
    }
  }

  lemma NvrFitsCopy(s: State, t: State, g: Goal)
    requires NvrFits(s, g) && t.poolStatuses == s.poolStatuses && NvrOf(t, g.Key()) == NvrOf(s, g.Key())
    ensures NvrFits(t, g)
  {
    hide HasPoolVersion, EntryFor;
    SamePoolVersion(s, t, g);
  }

  lemma NvrPutFacts(s: State, g: Goal)
    requires NvrInv(s, g.Key()) && NvrFits(s, g) && NvrOf(s, g.Key()).NvrPut?
    ensures var e := NvrOf(s, g.Key()).entry;
            && e.adapter == NODE_POOL_VR && EntryFor(e, g.n.releaseVersion) && Canonical(s, ReadVersion(Some(e)))
            && (HasPoolVersion(s, g) ==> Find(PoolRows(s, g.Key()), NODE_POOL_VR) == Some(e))
  {
    hide Find, PoolRows, HasPoolVersion, ReadVersion;
  }

  lemma PoolResolvedBy(t: State, g: Goal, e: AdapterStatus)
    requires EntryFor(e, g.n.releaseVersion) && VersionReady(ReadVersion(Some(e)))
    requires Find(PoolRows(t, g.Key()), NODE_POOL_VR) == Some(e)
    ensures HasPoolVersion(t, g)
  {
    hide Find, PoolRows, ReadVersion;
  }

  lemma NvrLandOwes(s: State, g: Goal)
    requires InForce(s, g) && NvrFits(s, g) && NvrOf(s, g.Key()).NvrPut?
    ensures Owes(NvrProcess(g.Key()), s, NvrNext(s, g.Key(), Land), g)
  {
    hide Inv, InForce, Specified, PoolOpen, NvrFits, SameView, NvrNext, NvrTarget, PutPoolRow, NvrInv, NpInv,
      PoolRecordInv, HasPoolVersion, Canonical, EntryFor, Published, Find;
    var t, e := NvrNext(s, g.Key(), Land), NvrOf(s, g.Key()).entry;
    NvrStepIs(s, g.Key(), Land);
    NvrLandsAs(s, g);
    InForceParts(s, g);
    PoolPart(s, g.Key());
    NvrPutFacts(s, g);
    NvrLandedFits(t, g, e);
    PoolRowStep(s, t, g, e);
    CanonicalReady(s, e, g.n.releaseVersion);
    PoolResolvedBy(t, g, e);
    if HasPoolVersion(s, g) { PoolPutAgain(s, t, g, e); }
  }

  lemma NvrLandsAs(s: State, g: Goal)
    requires NvrOf(s, g.Key()).NvrPut?
    ensures NvrTarget(s, g.Key(), Land) == NvrPut(NvrOf(s, g.Key()).entry, true)
  {
  }

  lemma NvrLandedFits(t: State, g: Goal, e: AdapterStatus)
    requires NvrOf(t, g.Key()) == NvrPut(e, true) && EntryFor(e, g.n.releaseVersion)
    ensures NvrFits(t, g)
  {
    hide EntryFor;
  }

  // ---- The hc process ----

  /** Where a step that writes nothing takes the hc process. */
  lemma HcTargetFits(s: State, g: Goal, m: Move)
    requires InForce(s, g) && HcFits(s, g) && (m.Land? ==> !HcOf(s, g.cid).HcWrite? && !HcOf(s, g.cid).HcPut?)
    ensures HcPointFits(s, g, HcTarget(s, g.cid, m))
    ensures HcReady(s, g) && HcTarget(s, g.cid, m).HcPut? ==> HcTarget(s, g.cid, m).entry == UpEntry(g)
  {
    hide Inv, HcInv, RecordInv, PlInv, VrInv, InForce, Found, Current, IsReconciled, HasWork, AgentHeard, HcReady,
      UpToDate, HcTarget, DecideWork, HcEntry, UpEntry, ReadStatus, HcGate, HcBuild, HcName;
    var pc := HcOf(s, g.cid);
    InForceParts(s, g);
    ClusterPart(s, g.cid);
    Ladder(s, g);
    if !m.Read? { HcTargetIs(s, g, m); }
    HcSteps.HcReadIs(s, g.cid);
    if pc.HcPut? && HcReady(s, g) { PutUpToDate(s, g); }
    if pc.HcLookup? && HasWork(s, g) { SkipsAtGoal(s, g); }
    if pc.HcReadBack? && AgentHeard(s, g) { ReadsUp(s, g); }
  }

  lemma HcTargetIs(s: State, g: Goal, m: Move)
    requires !m.Read? && (m.Land? ==> !HcOf(s, g.cid).HcWrite? && !HcOf(s, g.cid).HcPut?)
    ensures var pc, next := HcOf(s, g.cid), HcTarget(s, g.cid, m);
            next == pc || next == HcIdle || (pc.HcWrite? && next == HcReadBack(pc.c, pc.p, pc.work))
  {
    hide HcTarget;
    HcSteps.HcTargetIs(s, g.cid, m);
  }

  lemma PutUpToDate(s: State, g: Goal)
    requires HcOf(s, g.cid).HcPut? && HcReady(s, g)
    ensures HcOf(s, g.cid).entry == UpEntry(g)
  {
    hide AgentHeard, UpEntry, Find, Rows;
  }

  /** A lookup that finds the goal's generation asks for no write. */
  lemma SkipsAtGoal(s: State, g: Goal)
    requires HcInv(s, g.cid) && RecordInv(s, g.cid) && HcOf(s, g.cid).HcLookup? && HcOf(s, g.cid).c == g.c
    requires HasWork(s, g)
    ensures var pc := HcOf(s, g.cid); DecideWork(s, (pc.p.managementCluster, pc.work.name), pc.work) == Skip
  {
    hide HcInv, RecordInv, HcName, GetGeneration, Placed, WorkValid, HcHeld, IsHcWork;
    HcSteps.HcHolds(s, g.cid);
  }

  /** A status read once the agent was heard is what the agent said. */
  lemma ReadsUp(s: State, g: Goal)
    requires HcInv(s, g.cid) && RecordInv(s, g.cid) && HcOf(s, g.cid).HcReadBack? && HcOf(s, g.cid).c == g.c
    requires AgentHeard(s, g)
    ensures var pc := HcOf(s, g.cid);
            HcEntry(g.c.generation, ReadStatus(s, (pc.p.managementCluster, pc.work.name))) == UpEntry(g)
  {
    hide HcInv, RecordInv, HcName, GetGeneration, Placed, WorkValid, HcHeld, IsHcWork, HcEntry, Reported;
    HcSteps.HcHolds(s, g.cid);
  }

  lemma HcFitsOf(s: State, t: State, g: Goal)
    requires HcPointFits(s, g, HcOf(t, g.cid)) && (HasWork(t, g) ==> HasWork(s, g))
    ensures HcFits(t, g)
  {
    hide HasWork;
  }

  lemma HcOwes(s: State, g: Goal, m: Move)
    requires InForce(s, g) && HcFits(s, g)
    ensures Owes(HcProcess(g.cid), s, HcNext(s, g.cid, m), g)
  {
    hide Inv, InForce, HcFits, HcPointFits, SameView, HcNext, HcTarget, Lasts, HcReady, HasWork, AgentHeard, UpEntry;
    var t, pc := HcNext(s, g.cid, m), HcOf(s, g.cid);
    if pc.HcWrite? && m.Land? {
      HcWriteOwes(s, g);
    } else if pc.HcPut? && m.Land? {
      HcPutOwes(s, g);
    } else {
      HcStepIs(s, g.cid, m);
      HcTargetFits(s, g, m);
      StoresSame(s, t, g);
      StoresSame(t, s, g);
      ViewWork(t, s, g);
      HcViewKeeps(s, t, g);
      HcFitsOf(s, t, g);
    }
  }

  lemma ViewWork(s: State, t: State, g: Goal)
    requires SameView(s, t, g)
    ensures HasWork(s, g) ==> HasWork(t, g)
  {
    hide SameView, SameStored, HasWork, AgentHeard, Placed, SameRow, SamePoolRow;
    ViewRows(s, t, g);
    SameWork(s, t, g);
  }

  lemma HcViewKeeps(s: State, t: State, g: Goal)
    requires SameView(s, t, g) && (HcReady(s, g) ==> UpToDate(t, g))
    ensures (HasWork(s, g) ==> HasWork(t, g)) && (AgentHeard(s, g) ==> AgentHeard(t, g))
    ensures (HcReady(s, g) ==> HcReady(t, g))
  {
    hide SameView, SameStored, HasWork, AgentHeard, HcReady, UpToDate, Placed, SameRow, SamePoolRow;
    ViewRows(s, t, g);
    SameWork(s, t, g);
    SameHcReady(s, t, g);
  }

  lemma RewritesSame(works: map<Key, Stored>, key: Key, work: ManifestWork, op: Operation)
    requires key in works && key in WriteWork(works, key, work, op)
    requires WriteWork(works, key, work, op)[key].work == works[key].work
    ensures WriteWork(works, key, work, op) == works
  {
    hide Patched, Created;
    HcSteps.WritesOneKey(works, key, work, op);
  }

  lemma HcWriteOwes(s: State, g: Goal)
    requires InForce(s, g) && HcFits(s, g) && HcOf(s, g.cid).HcWrite?
    ensures Owes(HcProcess(g.cid), s, HcNext(s, g.cid, Land), g)
  {
    hide Inv, InForce, HcFits, HcPointFits, SameView, HcNext, HcTarget, HcReady, HasWork, AgentHeard, UpEntry, PlInv,
      VrInv, HcInv, RecordInv, WriteWork, HcName, NpName, Placed;
    var t, pc := HcNext(s, g.cid, Land), HcOf(s, g.cid);
    InForceParts(s, g);
    ClusterPart(s, g.cid);
    HcStepIs(s, g.cid, Land);
    HcSteps.HcWriteEffect(s, g.cid);
    HcSteps.HcWriteStoresExactly(s, g.cid);
    HcLandedFits(s, t, g);
    Ladder(s, g);
    if pc.landed {
      HcSteps.HcLandedFacts(s, g.cid);
      RewritesSame(s.works, HcKey(g.cid, pc.p), pc.work, pc.op);
      StoresSame(s, t, g);
      HcViewKeeps(s, t, g);
    }
  }

  lemma HcLandedFits(s: State, t: State, g: Goal)
    requires HcFits(s, g) && HcOf(s, g.cid).HcWrite?
    requires var pc := HcOf(s, g.cid); HcOf(t, g.cid) == HcWrite(pc.c, pc.p, pc.work, pc.op, true)
    ensures HcFits(t, g) && (!HcOf(s, g.cid).landed ==> !HasWork(s, g))
  {
    hide HasWork;
  }

  lemma HcPutOwes(s: State, g: Goal)
    requires InForce(s, g) && HcFits(s, g) && HcOf(s, g.cid).HcPut?
    ensures Owes(HcProcess(g.cid), s, HcNext(s, g.cid, Land), g)
  {
    hide Inv, InForce, HcFits, SameView, HcNext, HcTarget, HcReady, HasWork, AgentHeard, UpEntry, PlInv, VrInv, HcInv,
      RecordInv, HcName, NpName, Placed, Find, Rows, PutRow, UpToDate;
    var t, pc := HcNext(s, g.cid, Land), HcOf(s, g.cid);
    InForceParts(s, g);
    ClusterPart(s, g.cid);
    HcStepIs(s, g.cid, Land);
    HcPutLands(s, g);
    HcPutStays(s, t, g);
    ProcessSteps.AdaptersDistinct();
    RowStep(s, t, g, pc.entry);
    SameWork(s, t, g);
    if HcReady(s, g) {
      PutUpToDate(s, g);
      ReadyRow(s, g);
      PutAgain(s, t, g, pc.entry);
      HcViewKeeps(s, t, g);
    }
  }

  lemma HcPutLands(s: State, g: Goal)
    requires HcInv(s, g.cid) && HcOf(s, g.cid).HcPut?
    ensures HcTarget(s, g.cid, Land) == HcOf(s, g.cid).(landed := true) && HcOf(s, g.cid).entry.adapter == HC
  {
    hide HcTarget, HcStoredInv, HcRowInv, HcApplied, Find, Rows;
    HcSteps.HcTargetIs(s, g.cid, Land);
  }

  lemma HcPutStays(s: State, t: State, g: Goal)
    requires HcFits(s, g) && HcOf(s, g.cid).HcPut? && HcOf(t, g.cid) == HcOf(s, g.cid).(landed := true)
    ensures HcFits(t, g) && (UpToDate(s, g) ==> UpToDate(t, g))
  {
    hide UpEntry;
  }

  lemma ReadyRow(s: State, g: Goal)
    requires HcReady(s, g)
    ensures Find(Rows(s, g.cid), HC) == Some(UpEntry(g)) && UpToDate(s, g)
  {
    hide Find, Rows, UpEntry, AgentHeard;
  }

  // ---- The nodepool process ----

  /** Where a step that writes nothing takes the nodepool process. */
  lemma NpTargetFits(s: State, g: Goal, m: Move)
    requires InForce(s, g) && NpFits(s, g)
    requires m.Land? ==> !NpOf(s, g.Key()).NpWrite? && !NpOf(s, g.Key()).NpPut?
    ensures NpPointFits(s, g, NpTarget(s, g.Key(), m))
    ensures PoolReady(s, g) && NpTarget(s, g.Key(), m).NpPut? ==> NpTarget(s, g.Key(), m).entry == PoolUpEntry(g)
  {
    hide Inv, NpInv, PoolRecordInv, NvrInv, InForce, Specified, PoolFound, CurrentPool, Found, Current, PoolStored,
      PoolHeard, PoolReady, NpTarget, DecideWork, NodePoolEntry, PoolUpEntry, ReadStatus, NpGate, NpBuild, NpName,
      WorkValid;
    var pc := NpOf(s, g.Key());
    InForceParts(s, g);
    PoolPart(s, g.Key());
    Ladder(s, g);
    if pc.NpPut? && PoolReady(s, g) { PoolPutUpToDate(s, g); }
    if m.Read? {
      NpSteps.NpReadIs(s, g.Key());
      NpSteps.NpTargetIs(s, g.Key(), m);
      if pc.NpLookup? && PoolStored(s, g) { SkipsAtPoolGoal(s, g); }
      if pc.NpReadBack? && PoolHeard(s, g) { ReadsPoolUp(s, g); }
    } else {
      NpTargetIs(s, g, m);
    }
  }

  lemma NpTargetIs(s: State, g: Goal, m: Move)
    requires !m.Read? && (m.Land? ==> !NpOf(s, g.Key()).NpWrite? && !NpOf(s, g.Key()).NpPut?)
    ensures var pc, next := NpOf(s, g.Key()), NpTarget(s, g.Key(), m);
            next == pc || next == NpIdle || (pc.NpWrite? && next == NpReadBack(pc.n, pc.c, pc.p, pc.work))
  {
    hide NpGated, DecideWork, CanWrite, Found, Current, PoolFound, CurrentPool, Rows, NodePoolEntry, ReadStatus;
  }

  lemma PoolPutUpToDate(s: State, g: Goal)
    requires NpOf(s, g.Key()).NpPut? && PoolReady(s, g)
    ensures NpOf(s, g.Key()).entry == PoolUpEntry(g)
  {
    hide PoolHeard, PoolUpEntry, Find, PoolRows;
  }

  lemma SkipsAtPoolGoal(s: State, g: Goal)
    requires NpInv(s, g.Key()) && PoolRecordInv(s, g.Key()) && NpOf(s, g.Key()).NpLookup? && NpOf(s, g.Key()).n == g.n
    requires PoolStored(s, g)
    ensures var pc := NpOf(s, g.Key()); DecideWork(s, (pc.p.managementCluster, pc.work.name), pc.work) == Skip
  {
    hide NpInv, PoolRecordInv, NpName, GetGeneration, Placed, WorkValid, NpHeld, IsNpWork, Snapshot, HcThere;
    NpSteps.NpHolds(s, g.Key());
  }

  lemma ReadsPoolUp(s: State, g: Goal)
    requires NpInv(s, g.Key()) && PoolRecordInv(s, g.Key()) && NpOf(s, g.Key()).NpReadBack? && NpOf(s, g.Key()).n == g.n
    requires PoolHeard(s, g)
    ensures var pc := NpOf(s, g.Key());
            NodePoolEntry(g.n.generation, ReadStatus(s, (pc.p.managementCluster, pc.work.name))) == PoolUpEntry(g)
  {
    hide NpInv, PoolRecordInv, NpName, GetGeneration, Placed, WorkValid, NpHeld, IsNpWork, Snapshot, HcThere,
      NodePoolEntry, Reported;
    NpSteps.NpHolds(s, g.Key());
  }

  lemma NpFitsOf(s: State, t: State, g: Goal)
    requires NpPointFits(s, g, NpOf(t, g.Key())) && (PoolStored(t, g) ==> PoolStored(s, g))
    ensures NpFits(t, g)
  {
    hide PoolStored;
  }

  lemma NpViewKeeps(s: State, t: State, g: Goal)
    requires SameView(s, t, g)
    ensures (PoolStored(s, g) ==> PoolStored(t, g)) && (PoolHeard(s, g) ==> PoolHeard(t, g))
    ensures (PoolReady(s, g) ==> PoolUpToDate(t, g)) ==> (PoolReady(s, g) ==> PoolReady(t, g))
  {
    hide SameView, SameStored, PoolStored, PoolHeard, PoolReady, PoolUpToDate, Placed, SameRow, SamePoolRow;
    ViewRows(s, t, g);
    SamePoolWork(s, t, g);
    if PoolReady(s, g) ==> PoolUpToDate(t, g) { SamePoolReady(s, t, g); }
  }

  lemma NpOwes(s: State, g: Goal, m: Move)
    requires InForce(s, g) && NpFits(s, g)
    ensures Owes(NpProcess(g.Key()), s, NpNext(s, g.Key(), m), g)
  {
    hide Inv, InForce, NpFits, NpPointFits, SameView, NpNext, NpTarget, PoolStored, PoolHeard, PoolReady, PoolUpEntry;
    var t, pc := NpNext(s, g.Key(), m), NpOf(s, g.Key());
    if pc.NpWrite? && m.Land? {
      NpWriteOwes(s, g);
    } else if pc.NpPut? && m.Land? {
      NpPutOwes(s, g);
    } else {
      NpStepIs(s, g.Key(), m);
      NpTargetFits(s, g, m);
      StoresSame(s, t, g);
      StoresSame(t, s, g);
      NpViewKeeps(t, s, g);
      NpViewKeeps(s, t, g);
      NpFitsOf(s, t, g);
    }
  }

  lemma NpWriteOwes(s: State, g: Goal)
    requires InForce(s, g) && NpFits(s, g) && NpOf(s, g.Key()).NpWrite?
    ensures Owes(NpProcess(g.Key()), s, NpNext(s, g.Key(), Land), g)
  {
    hide Inv, InForce, NpFits, NpPointFits, SameView, NpNext, NpTarget, PoolStored, PoolHeard, PoolReady, PoolUpEntry,
      NvrInv, NpInv, PoolRecordInv, WriteWork, HcName, NpName, Placed;
    var t, pc := NpNext(s, g.Key(), Land), NpOf(s, g.Key());
    InForceParts(s, g);
    PoolPart(s, g.Key());
    NpStepIs(s, g.Key(), Land);
    NpSteps.NpWriteEffect(s, g.Key());
    NpSteps.NpWriteStoresExactly(s, g.Key());
    NpLandedFits(s, t, g);
    Ladder(s, g);
    if pc.landed {
      NpSteps.NpLandedFacts(s, g.Key());
      RewritesSame(s.works, NpKey(g.Key(), pc.p), pc.work, pc.op);
      StoresSame(s, t, g);
      NpViewKeeps(s, t, g);
    }
  }

  lemma NpLandedFits(s: State, t: State, g: Goal)
    requires NpFits(s, g) && NpOf(s, g.Key()).NpWrite?
    requires var pc := NpOf(s, g.Key()); NpOf(t, g.Key()) == NpWrite(pc.n, pc.c, pc.p, pc.work, pc.op, true)
    ensures NpFits(t, g) && (!NpOf(s, g.Key()).landed ==> !PoolStored(s, g))
  {
    hide PoolStored;
  }

  lemma NpPutOwes(s: State, g: Goal)
    requires InForce(s, g) && NpFits(s, g) && NpOf(s, g.Key()).NpPut?
    ensures Owes(NpProcess(g.Key()), s, NpNext(s, g.Key(), Land), g)
  {
    hide Inv, InForce, NpFits, SameView, NpNext, NpTarget, PoolStored, PoolHeard, PoolReady, PoolUpEntry, NvrInv, NpInv,
      PoolRecordInv, HcName, NpName, Placed, Find, PoolRows, PutPoolRow, PoolUpToDate;
    var t, pc := NpNext(s, g.Key(), Land), NpOf(s, g.Key());
    InForceParts(s, g);
    PoolPart(s, g.Key());
    NpStepIs(s, g.Key(), Land);
    NpPutLands(s, g);
    NpPutStays(s, t, g);
    ProcessSteps.AdaptersDistinct();
    PoolRowStep(s, t, g, pc.entry);
    SamePoolWork(s, t, g);
    if PoolReady(s, g) {
      PoolPutUpToDate(s, g);
      ReadyPoolRow(s, g);
      PoolPutAgain(s, t, g, pc.entry);
      NpViewKeeps(s, t, g);
    }
  }

  lemma NpPutLands(s: State, g: Goal)
    requires NpInv(s, g.Key()) && NpOf(s, g.Key()).NpPut?
    ensures NpTarget(s, g.Key(), Land) == NpOf(s, g.Key()).(landed := true)
    ensures NpOf(s, g.Key()).entry.adapter == NODE_POOL
  {
    hide NpStoredInv, NpRowInv, NpApplied, NpGated, DecideWork, CanWrite, Found, Current, PoolFound, CurrentPool, Find,
      Rows, PoolRows, NodePoolEntry, ReadStatus;
  }

  lemma NpPutStays(s: State, t: State, g: Goal)
    requires NpFits(s, g) && NpOf(s, g.Key()).NpPut? && NpOf(t, g.Key()) == NpOf(s, g.Key()).(landed := true)
    ensures NpFits(t, g) && (PoolUpToDate(s, g) ==> PoolUpToDate(t, g))
  {
    hide PoolUpEntry;
  }

  lemma ReadyPoolRow(s: State, g: Goal)
    requires PoolReady(s, g)
    ensures Find(PoolRows(s, g.Key()), NODE_POOL) == Some(PoolUpEntry(g)) && PoolUpToDate(s, g)
  {
    hide Find, PoolRows, PoolUpEntry, PoolHeard;
  }
}
