// While a cluster's and a node pool's specifications stay in force, nothing achieved for them is undone
// however the processes and the environment interleave, and reconciles that come to an end in the right
// order achieve everything.
module Convergence {
  import opened Wrappers
  import opened Text
  import opened Generation
  import opened Status
  import opened ApiTypes
  import opened Payloads
  import opened Release
  import opened Upsert
  import opened Protocol
  import opened Invariants
  import opened Preservation
  import opened World
  import opened Whole
  import opened Effects
  import opened Goals
  import opened Points
  import EnvSteps
  import HcSteps
  import NpSteps
  import ProcessSteps
  import Runs

  // ---- What may happen meanwhile ----

  /**
   * Users leave the two objects alone, and the agents say of the two works what they are expected to
   * say. Everything else in the world may change, conditions of the cluster included.
   */
  ghost predicate LeavesAlone(g: Goal, e: Event) {
    match e
    case CreateCluster(_, _) => true
    case EditCluster(cid, _) => cid != g.cid
    case SetConditions(_, _) => true
    case DeleteCluster(cid) => cid != g.cid
    case CreatePool(_, _) => true
    case EditPool(key, _) => key != g.Key()
    case DeletePool(key) => key != g.Key()
    case Report(work, status) =>
      (work.1 == HcName(g.cid) ==> status == g.up) && (work.1 == NpName(g.npid) ==> status == g.poolUp)
    case Publish(_, _, _) => true
  }

  /**
   * Any step of any process is good, a failure or a repeated write too; selectors pick something and
   * graphs list the version asked for.
   */
  ghost predicate GoodAction(g: Goal, a: Action) {
    match a
    case Outside(e) => LeavesAlone(g, e)
    case Pl(cid, Select(mc, domain)) => cid == g.cid ==> mc != "" && domain != ""
    case Vr(cid, Graph(nodes)) => cid == g.cid ==> Resolve(nodes, g.c.spec.releaseVersion).Some?
    case Nvr(key, Graph(nodes)) => key == g.Key() ==> Resolve(nodes, g.n.releaseVersion).Some?
    case _ => true
  }

  // ---- Specifications stay in force ----

  lemma InForceFrame(s: State, t: State, g: Goal)
    requires InForce(s, g) && Inv(t) && Grows(s, t) && Specified(t, g) && PoolOpen(t, g.Key(), g.n)
    ensures InForce(t, g)
  {
    hide Inv, Specified, PoolOpen, BuildChannel, Placed;
  }

  lemma SameObjectsOpen(s: State, t: State, g: Goal)
    requires InForce(s, g) && SameObjects(s, t)
    ensures Specified(t, g) && PoolOpen(t, g.Key(), g.n)
  {
    hide Inv, IsReconciled, Published;
  }

  lemma EventSpecified(s: State, g: Goal, e: Event)
    requires Specified(s, g) && LeavesAlone(g, e)
    ensures Specified(Happen(s, e), g)
  {
    hide HcName, NpName;
  }

  lemma EventPoolOpen(s: State, g: Goal, e: Event)
    requires PoolOpen(s, g.Key(), g.n) && LeavesAlone(g, e)
    ensures PoolOpen(Happen(s, e), g.Key(), g.n)
  {
    hide IsReconciled, HcName, NpName;
  }

  lemma ActionInForce(s: State, g: Goal, a: Action)
    requires InForce(s, g) && GoodAction(g, a)
    ensures InForce(Next(s, a), g)
  {
    hide Inv, InForce, Grows, Happen, PlNext, VrNext, HcNext, NvrNext, NpNext, Specified, PoolOpen, LeavesAlone;
    InForceParts(s, g);
    Runs.ActionKeeps(s, a);
    if a.Outside? {
      EventSpecified(s, g, a.event);
      EventPoolOpen(s, g, a.event);
    } else {
      ObjectsStay(s, a);
      SameObjectsOpen(s, Next(s, a), g);
    }
    InForceFrame(s, Next(s, a), g);
  }

  /** No process edits specifications or publishes releases. */
  lemma ObjectsStay(s: State, a: Action)
    requires !a.Outside?
    ensures SameObjects(s, Next(s, a))
  {
    hide PlNext, VrNext, HcNext, NvrNext, NpNext;
    match a {
      case Pl(cid, m) => PlStepIs(s, cid, m);
      case Vr(cid, m) => VrStepIs(s, cid, m);
      case Hc(cid, m) => HcStepIs(s, cid, m);
      case Nvr(key, m) => NvrStepIs(s, key, m);
      case Np(key, m) => NpStepIs(s, key, m);
    }
  }

  // ---- Every step advances ----

  /** Neither what is stored about the two objects nor their processes are touched. */
  ghost predicate Elsewhere(s: State, t: State, g: Goal) {
    SameView(s, t, g) && VrOf(t, g.cid) == VrOf(s, g.cid) && NvrOf(t, g.Key()) == NvrOf(s, g.Key())
    && HcOf(t, g.cid) == HcOf(s, g.cid) && NpOf(t, g.Key()) == NpOf(s, g.Key())
  }

  lemma OtherClusterStep(s: State, t: State, g: Goal, d: string)
    requires OnlyCluster(s, t, d) && d != g.cid
    ensures Elsewhere(s, t, g)
  {
    NamesApart();
    SamePoolRows(s, t, g.Key());
    hide Rows, PoolRows, HcName, NpName;
  }

  lemma OtherPoolStep(s: State, t: State, g: Goal, k: PoolKey)
    requires OnlyPool(s, t, k) && k != g.Key() && PoolRecordInv(s, k) && g.Key() in s.pools
    requires (t.works != s.works ==> k in s.pools)
    ensures Elsewhere(s, t, g)
  {
    NamesApart();
    SameRows(s, t, g.cid);
    hide Rows, PoolRows, HcName, NpName, Placed, IsInt64;
  }

  lemma OthersStep(s: State, g: Goal, a: Action)
    requires Inv(s) && g.Key() in s.pools && !a.Outside?
    requires a.Pl? || a.Vr? || a.Hc? ==> a.cid != g.cid
    requires a.Nvr? || a.Np? ==> a.key != g.Key()
    ensures Elsewhere(s, Next(s, a), g)
  {
    hide Inv, PlInv, VrInv, HcInv, NvrInv, NpInv, RecordInv, PoolRecordInv, PlNext, VrNext, HcNext, NvrNext, NpNext,
      Rows, PoolRows, Find, HcName, NpName, OnlyCluster, OnlyPool, Elsewhere;
    var t := Next(s, a);
    match a {
      case Pl(d, m) => ClusterPart(s, d); ProcessSteps.PlTouches(s, d, m); OtherClusterStep(s, t, g, d);
      case Vr(d, m) => ClusterPart(s, d); ProcessSteps.VrTouches(s, d, m); OtherClusterStep(s, t, g, d);
      case Hc(d, m) => ClusterPart(s, d); HcSteps.HcTouches(s, d, m); OtherClusterStep(s, t, g, d);
      case Nvr(k, m) => PoolPart(s, k); ProcessSteps.NvrTouches(s, k, m); OtherPoolStep(s, t, g, k);
      case Np(k, m) => PoolPart(s, k); NpSteps.NpTouches(s, k, m); OtherPoolStep(s, t, g, k);
    }
  }

  lemma EventTouches(s: State, e: Event, g: Goal)
    ensures var t := Happen(s, e);
            && Rows(t, g.cid) == Rows(s, g.cid) && PoolRows(t, g.Key()) == PoolRows(s, g.Key())
            && t.pl == s.pl && t.vr == s.vr && t.hc == s.hc && t.nvr == s.nvr && t.np == s.np
  {
    EnvSteps.EventTouches(s, e);
    SameRows(s, Happen(s, e), g.cid);
    SamePoolRows(s, Happen(s, e), g.Key());
    hide Happen, Rows, PoolRows;
  }

  /** An event changes no work of a name that it does not report on. */
  lemma EventWorks(s: State, e: Event, name: string)
    requires e.Report? ==> e.work.1 != name
    ensures SameStored(s, Happen(s, e), name)
  {
    EnvSteps.ReportsKnown(s, e);
    hide Allowed;
  }

  /** The event is a report on the work that the process writes. */
  ghost predicate About(me: Process, g: Goal, e: Event) {
    e.Report? && ((me.HcProcess? && e.work.1 == HcName(g.cid)) || (me.NpProcess? && e.work.1 == NpName(g.npid)))
  }

  lemma EventApart(me: Process, s: State, g: Goal, e: Event)
    requires Serves(me, g) && !About(me, g, e)
    ensures Apart(me, s, Happen(s, e), g)
  {
    hide Happen, HcName, NpName, SameStored, Find, Rows, PoolRows;
    EventTouches(s, e, g);
    if me.HcProcess? { EventWorks(s, e, HcName(g.cid)); }
    if me.NpProcess? { EventWorks(s, e, NpName(g.npid)); }
  }

  lemma ReportKeeps(me: Process, s: State, g: Goal, e: Event)
    requires InForce(s, g) && Serves(me, g) && Fit(me, s, g) && LeavesAlone(g, e) && About(me, g, e)
    ensures Keeps(me, s, Happen(s, e), g)
  {
    hide Inv, InForce, HcFits, NpFits, Keeps, Happen, LeavesAlone, HcName, NpName;
    InForceParts(s, g);
    ReportsUp(g, e);
    if me.HcProcess? {
      AgentKeeps(s, g, e.work);
    } else {
      PoolAgentKeeps(s, g, e.work);
    }
  }

  lemma ReportsUp(g: Goal, e: Event)
    requires LeavesAlone(g, e) && e.Report?
    ensures e.work.1 == HcName(g.cid) ==> e == Report(e.work, g.up)
    ensures e.work.1 == NpName(g.npid) ==> e == Report(e.work, g.poolUp)
  {
    hide HcName, NpName;
  }

  /** There is at most one work of the cluster, and it is where the placement says. */
  lemma OneHome(s: State, g: Goal, k: Key)
    requires Inv(s) && k in s.works && k.1 == HcName(g.cid)
    ensures HcThere(s, g.cid) && k == HcKey(g.cid, Placed(s, g.cid).value)
  {
    hide Inv, HcName, Placed, PlInv, VrInv, RecordInv, HcContent, HcRowInv, HcPcOk;
    ClusterPart(s, g.cid);
    assert (k.0, HcName(g.cid)) in s.works;
  }

  lemma OnePoolHome(s: State, g: Goal, k: Key)
    requires Inv(s) && g.Key() in s.pools && k in s.works && k.1 == NpName(g.npid)
    ensures IsPlaced(s, g) && k == NpKey(g.Key(), Placed(s, g.cid).value)
  {
    hide Inv, NpName, HcName, Placed, NvrInv, PoolRecordInv, NpContent, NpRowInv, NpPcOk;
    PoolPart(s, g.Key());
    assert (k.0, NpName(g.npid)) in s.works;
  }

  lemma ReportIs(s: State, k: Key, status: WorkStatus)
    ensures Happen(s, Report(k, status)) ==
      if k in s.works then s.(works := s.works[k := s.works[k].(status := status)]) else s
  {
  }

  /** The agent is heard. */
  lemma AgentKeeps(s: State, g: Goal, k: Key)
    requires Inv(s) && HcFits(s, g) && k.1 == HcName(g.cid)
    ensures var t := Happen(s, Report(k, g.up));
            Keeps(HcProcess(g.cid), s, t, g) && (k in s.works && HasWork(s, g) ==> AgentHeard(t, g))
  {
    hide Inv, HcFits, Happen, HcName, Placed, Rows, Find, PlInv, VrInv, HcInv, RecordInv, GetGeneration, UpToDate,
      UpEntry;
    ReportIs(s, k, g.up);
    if k in s.works {
      OneHome(s, g, k);
      var t := s.(works := s.works[k := s.works[k].(status := g.up)]);
      ProcessSteps.KeepRows(s, t, g.cid);
      SamePointUpToDate(s, t, g);
      ClusterPart(s, g.cid);
      HcFitsFrame(s, t, g);
    }
  }

  lemma PoolAgentKeeps(s: State, g: Goal, k: Key)
    requires InForce(s, g) && NpFits(s, g) && k.1 == NpName(g.npid)
    ensures var t := Happen(s, Report(k, g.poolUp));
            Keeps(NpProcess(g.Key()), s, t, g) && (k in s.works && PoolStored(s, g) ==> PoolHeard(t, g))
  {
    hide Inv, InForce, NpFits, Happen, NpName, Placed, Rows, PoolRows, Find, NvrInv, NpInv, PoolRecordInv,
      GetGeneration, PoolUpToDate, PoolUpEntry;
    InForceParts(s, g);
    CurrentSound(s, g);
    ReportIs(s, k, g.poolUp);
    if k in s.works {
      OnePoolHome(s, g, k);
      var t := s.(works := s.works[k := s.works[k].(status := g.poolUp)]);
      ProcessSteps.KeepRows(s, t, g.cid);
      ProcessSteps.KeepPoolRows(s, t, g.Key());
      SamePointUpToDate(s, t, g);
      PoolPart(s, g.Key());
      NpFitsFrame(s, t, g);
    }
  }

  // ---- What each process is answerable for outlasts every action ----

  lemma OwnOwes(me: Process, s: State, g: Goal, m: Move)
    requires InForce(s, g) && Serves(me, g) && Fit(me, s, g)
    ensures Owes(me, s, Next(s, Act(me, m)), g)
  {
    hide InForce, Inv, VrFits, NvrFits, HcFits, NpFits, Owes, PlNext, VrNext, HcNext, NvrNext, NpNext;
    InForceParts(s, g);
    match me {
      case PlProcess(_) => PlOwes(s, g, m);
      case VrProcess(_) => VrOwes(s, g, m);
      case NvrProcess(_) => NvrOwes(s, g, m);
      case HcProcess(_) => HcOwes(s, g, m);
      case NpProcess(_) => NpOwes(s, g, m);
    }
  }

  /** The processes of one goal leave each other's entries and works alone. */
  lemma OthersApart(me: Process, you: Process, s: State, g: Goal, m: Move)
    requires Inv(s) && Serves(me, g) && Serves(you, g) && me != you
    ensures Apart(me, s, Next(s, Act(you, m)), g)
  {
    hide Inv, PlNext, VrNext, HcNext, NvrNext, NpNext, Apart;
    if you.PlProcess? || you.VrProcess? || you.HcProcess? {
      ClusterApart(me, you, s, g, m);
    } else {
      PoolApart(me, you, s, g, m);
    }
  }

  lemma ClusterApart(me: Process, you: Process, s: State, g: Goal, m: Move)
    requires Inv(s) && Serves(me, g) && Serves(you, g) && me != you
    requires you.PlProcess? || you.VrProcess? || you.HcProcess?
    ensures Apart(me, s, Next(s, Act(you, m)), g)
  {
    hide Inv, PlInv, VrInv, HcInv, RecordInv, PlNext, VrNext, HcNext, HcName, NpName, Find, Rows, PoolRows, OnlyCluster;
    var t := Next(s, Act(you, m));
    ClusterPart(s, g.cid);
    match you {
      case PlProcess(_) => ProcessSteps.PlTouches(s, g.cid, m);
      case VrProcess(_) => ProcessSteps.VrTouches(s, g.cid, m);
      case HcProcess(_) => HcSteps.HcTouches(s, g.cid, m);
    }
    if me.NvrProcess? || me.NpProcess? { ClusterStepApart(me, s, t, g); }
  }

  lemma ClusterStepApart(me: Process, s: State, t: State, g: Goal)
    requires OnlyCluster(s, t, g.cid) && Serves(me, g) && (me.NvrProcess? || me.NpProcess?)
    ensures Apart(me, s, t, g)
  {
    NamesApart();
    SamePoolRows(s, t, g.Key());
    hide HcName, NpName, Find, Rows, PoolRows;
  }

  lemma PoolApart(me: Process, you: Process, s: State, g: Goal, m: Move)
    requires Inv(s) && Serves(me, g) && Serves(you, g) && me != you && (you.NvrProcess? || you.NpProcess?)
    ensures Apart(me, s, Next(s, Act(you, m)), g)
  {
    hide Inv, NvrInv, NpInv, PoolRecordInv, NvrNext, NpNext, HcName, NpName, Find, Rows, PoolRows, OnlyPool;
    var t := Next(s, Act(you, m));
    PoolPart(s, g.Key());
    match you {
      case NvrProcess(_) => ProcessSteps.NvrTouches(s, g.Key(), m);
      case NpProcess(_) => NpSteps.NpTouches(s, g.Key(), m);
    }
    if !me.NvrProcess? && !me.NpProcess? { PoolStepApart(me, s, t, g); }
  }

  lemma PoolStepApart(me: Process, s: State, t: State, g: Goal)
    requires OnlyPool(s, t, g.Key()) && Serves(me, g) && !me.NvrProcess? && !me.NpProcess?
    ensures Apart(me, s, t, g)
  {
    NamesApart();
    SameRows(s, t, g.cid);
    hide HcName, NpName, Find, Rows, PoolRows, Placed;
  }

  lemma ElsewhereApart(me: Process, s: State, t: State, g: Goal)
    requires Serves(me, g) && Elsewhere(s, t, g)
    ensures Apart(me, s, t, g)
  {
    hide SameView, SameStored, SameRow, SamePoolRow, Placed;
    ViewRows(s, t, g);
  }

  /** What a process is answerable for outlasts every action, whatever the other processes hold. */
  lemma ActionKeeps(me: Process, s: State, g: Goal, a: Action)
    requires InForce(s, g) && Serves(me, g) && Fit(me, s, g) && GoodAction(g, a)
    ensures InForce(Next(s, a), g) && Keeps(me, s, Next(s, a), g)
  {
    hide Inv, InForce, Fit, Keeps, Ready, SameView, Elsewhere, Apart, Happen, PlNext, VrNext, HcNext, NvrNext, NpNext,
      Serves, Grows, LeavesAlone, About;
    ActionInForce(s, g, a);
    InForceParts(s, g);
    CurrentSound(s, g);
    Runs.ActionKeeps(s, a);
    if a.Outside? {
      if About(me, g, a.event) {
        ReportKeeps(me, s, g, a.event);
      } else {
        EventApart(me, s, g, a.event);
        ApartKeeps(me, s, Next(s, a), g);
      }
    } else if Actor(a) == me {
      assert a == Act(me, a.move);
      OwnOwes(me, s, g, a.move);
    } else if Serves(Actor(a), g) {
      assert a == Act(Actor(a), a.move);
      OthersApart(me, Actor(a), s, g, a.move);
      ApartKeeps(me, s, Next(s, a), g);
    } else {
      Strangers(a, g);
      OthersStep(s, g, a);
      ElsewhereApart(me, s, Next(s, a), g);
      ApartKeeps(me, s, Next(s, a), g);
    }
  }

  lemma Strangers(a: Action, g: Goal)
    requires !a.Outside? && !Serves(Actor(a), g)
    ensures a.Pl? || a.Vr? || a.Hc? ==> a.cid != g.cid
    ensures a.Nvr? || a.Np? ==> a.key != g.Key()
  {
  }

  // ---- All of it together ----

  /** Nothing achieved is undone, every process still fits, and once all is ready nothing changes at all. */
  ghost predicate Advances(s: State, t: State, g: Goal) {
    Lasts(s, t, g) && Fits(t, g) && (AllReady(s, g) ==> SameView(s, t, g))
  }

  /** Once all is ready an action changes nothing. */
  lemma ActionViews(s: State, g: Goal, a: Action)
    requires InForce(s, g) && Fits(s, g) && GoodAction(g, a) && AllReady(s, g)
    ensures SameView(s, Next(s, a), g)
  {
    hide Inv, InForce, Fits, Fit, Keeps, AllReady, Ready, SameView, Happen, PlNext, VrNext, HcNext, NvrNext, NpNext,
      LeavesAlone;
    InForceParts(s, g);
    CurrentSound(s, g);
    if a.Outside? {
      EventViews(s, g, a.event);
    } else if Serves(Actor(a), g) {
      assert a == Act(Actor(a), a.move);
      FitsOf(s, g);
      AllReadyOf(Actor(a), s, g);
      OwnOwes(Actor(a), s, g, a.move);
    } else {
      Strangers(a, g);
      OthersStep(s, g, a);
    }
  }

  lemma AllReadyOf(me: Process, s: State, g: Goal)
    requires AllReady(s, g) && Serves(me, g)
    ensures Ready(me, s, g)
  {
    hide IsPlaced, HasVersion, HasPoolVersion, HcReady, PoolReady;
  }

  /** The agents only repeat themselves. */
  lemma EventViews(s: State, g: Goal, e: Event)
    requires InForce(s, g) && LeavesAlone(g, e) && AllReady(s, g)
    ensures SameView(s, Happen(s, e), g)
  {
    hide Inv, InForce, AllReady, LeavesAlone, Happen, HcName, NpName, SameStored, Rows, PoolRows;
    EventTouches(s, e, g);
    if e.Report? && (e.work.1 == HcName(g.cid) || e.work.1 == NpName(g.npid)) {
      ReportsUp(g, e);
      ReportsStored(s, g, e.work);
      ViewReflexive(s, g);
    } else {
      EventWorks(s, e, HcName(g.cid));
      EventWorks(s, e, NpName(g.npid));
    }
  }

  lemma ReportsStored(s: State, g: Goal, k: Key)
    requires InForce(s, g) && AllReady(s, g)
    ensures k.1 == HcName(g.cid) ==> Happen(s, Report(k, g.up)) == s
    ensures k.1 == NpName(g.npid) ==> Happen(s, Report(k, g.poolUp)) == s
  {
    hide Inv, InForce, Happen, HcName, NpName, IsPlaced, HasVersion, HasPoolVersion, Placed, GetGeneration, Find, Rows,
      PoolRows, UpEntry, PoolUpEntry, UpToDate, PoolUpToDate;
    InForceParts(s, g);
    CurrentSound(s, g);
    ReportIs(s, k, g.up);
    ReportIs(s, k, g.poolUp);
    if k in s.works {
      if k.1 == HcName(g.cid) { OneHome(s, g, k); }
      if k.1 == NpName(g.npid) { OnePoolHome(s, g, k); }
    }
  }

  /** No action undoes anything, and none changes anything once all is ready. */
  lemma ActionAdvances(s: State, g: Goal, a: Action)
    requires InForce(s, g) && Fits(s, g) && GoodAction(g, a)
    ensures InForce(Next(s, a), g) && Advances(s, Next(s, a), g)
  {
    hide InForce, Fits, Fit, GoodAction, AllReady, SameView, Next, IsPlaced, HasVersion, HasPoolVersion, HasWork,
      AgentHeard, HcReady, PoolStored, PoolHeard, PoolReady;
    FitsOf(s, g);
    FitsOf(Next(s, a), g);
    forall me: Process | Serves(me, g) ensures Keeps(me, s, Next(s, a), g) {
      ActionKeeps(me, s, g, a);
    }
    ActionKeeps(PlProcess(g.cid), s, g, a);
    assert Keeps(VrProcess(g.cid), s, Next(s, a), g) && Keeps(NvrProcess(g.Key()), s, Next(s, a), g);
    assert Keeps(HcProcess(g.cid), s, Next(s, a), g) && Keeps(NpProcess(g.Key()), s, Next(s, a), g);
    if AllReady(s, g) { ActionViews(s, g, a); }
  }

  /** Readiness only rises. */
  lemma ReadinessNeverFalls(s: State, g: Goal, a: Action)
    requires InForce(s, g) && Fits(s, g) && GoodAction(g, a)
    ensures Readiness(Next(s, a), g) >= Readiness(s, g)
    ensures Readiness(s, g) == 9 <==> AllReady(s, g)
  {
    hide Next, InForce, Fits, IsPlaced, HasVersion, HasPoolVersion, HasWork, AgentHeard, HcReady, PoolStored, PoolHeard,
      PoolReady, SameView, GoodAction;
    ActionAdvances(s, g, a);
    Ladder(s, g);
  }

  // ---- Schedules ----

  /** The state after the first `i` actions. */
  ghost function After(s: State, acts: seq<Action>, i: nat): State
    requires i <= |acts|
  {
    if i == 0 then s else Next(After(s, acts, i - 1), acts[i - 1])
  }

  ghost predicate GoodActions(g: Goal, acts: seq<Action>) {
    forall i :: 0 <= i < |acts| ==> GoodAction(g, acts[i])
  }

  /** A goal in force, and a schedule that leaves it in force. */
  ghost predicate Schedule(s: State, g: Goal, acts: seq<Action>) {
    ValidGoal(g) && InForce(s, g) && GoodActions(g, acts)
  }

  lemma {:induction false} AfterInForce(s: State, g: Goal, acts: seq<Action>, i: nat)
    requires Schedule(s, g, acts) && i <= |acts|
    ensures InForce(After(s, acts, i), g)
  {
    hide ValidGoal, InForce, Next, GoodAction;
    if i > 0 {
      AfterInForce(s, g, acts, i - 1);
      ActionInForce(After(s, acts, i - 1), g, acts[i - 1]);
    }
  }

  /** From the moment a process fits, it keeps what it is answerable for. */
  lemma {:induction false} AfterKeeps(s: State, g: Goal, acts: seq<Action>, me: Process, i: nat, j: nat)
    requires Schedule(s, g, acts) && Serves(me, g) && i <= j <= |acts| && Fit(me, After(s, acts, i), g)
    ensures Keeps(me, After(s, acts, i), After(s, acts, j), g) && Fit(me, After(s, acts, j), g)
    decreases j - i
  {
    hide InForce, ValidGoal, GoodAction, Serves, Fit, Next, IsPlaced, HasVersion, HasPoolVersion, HasWork, AgentHeard,
      HcReady, PoolStored, PoolHeard, PoolReady;
    if i == j {
      KeepsReflexive(me, After(s, acts, i), g);
    } else {
      AfterKeeps(s, g, acts, me, i, j - 1);
      AfterInForce(s, g, acts, j - 1);
      ActionKeeps(me, After(s, acts, j - 1), g, acts[j - 1]);
      KeepsTransitive(me, After(s, acts, i), After(s, acts, j - 1), After(s, acts, j), g);
    }
  }

  /** Once all is ready, no schedule changes an entry or a work of the cluster or the node pool. */
  lemma {:induction false} SettledForGood(s: State, g: Goal, acts: seq<Action>, i: nat)
    requires Schedule(s, g, acts) && AllReady(s, g) && Fits(s, g) && i <= |acts|
    ensures SameView(s, After(s, acts, i), g) && AllReady(After(s, acts, i), g) && Fits(After(s, acts, i), g)
  {
    hide InForce, ValidGoal, GoodAction, Fits, Next, AllReady, Lasts, SameView;
    if i == 0 {
      ViewReflexive(s, g);
    } else {
      SettledForGood(s, g, acts, i - 1);
      AfterInForce(s, g, acts, i - 1);
      ActionAdvances(After(s, acts, i - 1), g, acts[i - 1]);
      ViewTransitive(s, After(s, acts, i - 1), After(s, acts, i), g);
      ReadyLasts(After(s, acts, i - 1), After(s, acts, i), g);
    }
  }

  lemma ReadyLasts(s: State, t: State, g: Goal)
    requires Lasts(s, t, g) && AllReady(s, g)
    ensures AllReady(t, g)
  {
    hide IsPlaced, HasVersion, HasPoolVersion, HasWork, AgentHeard, HcReady, PoolStored, PoolHeard, PoolReady;
  }

  // ---- A reconcile that comes to an end has done its part ----

  // What a reconcile waits for, what it has in hand on the way, and what it has done when it is over.
  // `heard` says the agent's report was in before it began.

  ghost predicate Waited(me: Process, s: State, g: Goal, heard: bool) {
    match me
    case HcProcess(_) => IsPlaced(s, g) && HasVersion(s, g) && (heard ==> AgentHeard(s, g))
    case NpProcess(_) => HcReady(s, g) && HasPoolVersion(s, g) && (heard ==> PoolHeard(s, g))
    case _ => true
  }

  ghost predicate Done(me: Process, s: State, g: Goal, heard: bool) {
    match me
    case Outsider => true
    case PlProcess(_) => IsPlaced(s, g)
    case VrProcess(_) => HasVersion(s, g)
    case NvrProcess(_) => HasPoolVersion(s, g)
    case HcProcess(_) => HasWork(s, g) && (heard ==> HcReady(s, g))
    case NpProcess(_) => PoolStored(s, g) && (heard ==> PoolReady(s, g))
  }

  ghost predicate InHand(me: Process, s: State, g: Goal, heard: bool) {
    match me
    case PlProcess(_) => PlOf(s, g.cid).PlPut? ==> PlacementReady(ReadPlacement(Some(PlOf(s, g.cid).entry)))
    case HcProcess(_) => heard ==> UpToDate(s, g)
    case NpProcess(_) =>
      (NpOf(s, g.Key()).NpStatuses? ==> GateReady(NpOf(s, g.Key()).statuses)) && (heard ==> PoolUpToDate(s, g))
    case _ => true
  }

  ghost predicate GateReady(ss: AdapterStatuses) {
    PlacementReady(Placement(ss)) && HcAvailable(ss)
  }

  ghost predicate Underway(me: Process, s: State, g: Goal, heard: bool) {
    InHand(me, s, g, heard) && (Idle(me, s) ==> Done(me, s, g, heard))
  }

  /** Another's step leaves a reconcile where it is, and what it has done done. */
  lemma OthersKeepUnderway(me: Process, s: State, t: State, g: Goal, heard: bool)
    requires Serves(me, g) && SamePoint(me, s, t) && Keeps(me, s, t, g) && Underway(me, s, g, heard)
    ensures Underway(me, t, g, heard)
  {
    hide Fit, IsPlaced, HasVersion, HasPoolVersion, HasWork, AgentHeard, HcReady, PoolStored, PoolHeard, PoolReady,
      GateReady, UpEntry, PoolUpEntry, ReadPlacement;
  }

  lemma DoneStays(me: Process, s: State, t: State, g: Goal, heard: bool)
    requires Keeps(me, s, t, g) && Done(me, s, g, heard)
    ensures Done(me, t, g, heard)
  {
    hide Fit, IsPlaced, HasVersion, HasPoolVersion, HasWork, AgentHeard, HcReady, PoolStored, PoolHeard, PoolReady;
  }

  /** A reconcile may begin: for the adapters that skip reconciled clusters, the cluster is none yet. */
  ghost predicate MayBegin(me: Process, s: State, g: Goal) {
    Idle(me, s) && (me.PlProcess? || me.VrProcess? || me.HcProcess? ==> Unreconciled(s, g))
  }

  /** A step of a reconcile that goes on, or of one that begins. */
  ghost predicate GoesOn(me: Process, s: State, g: Goal, m: Move, heard: bool) {
    !m.Fail? && (Underway(me, s, g, heard) || (MayBegin(me, s, g) && m.Read?))
  }

  // Where each process's step may end a reconcile: only with its part done.

  lemma PlEnds(s: State, g: Goal, m: Move)
    requires InForce(s, g) && GoesOn(PlProcess(g.cid), s, g, m, false)
    requires m.Select? ==> m.mc != "" && m.domain != ""
    ensures PlTarget(s, g.cid, m) == PlIdle ==> IsPlaced(s, g)
    ensures PlTarget(s, g.cid, m).PlPut? ==> PlacementReady(ReadPlacement(Some(PlTarget(s, g.cid, m).entry)))
  {
    hide Inv, Published, PoolOpen, IsReconciled, RecordInv, VrInv, HcInv, Rows, Find, ReadPlacement;
    InForceParts(s, g);
    ClusterPart(s, g.cid);
  }

  lemma VrEnds(s: State, g: Goal, m: Move)
    requires InForce(s, g) && VrFits(s, g) && GoesOn(VrProcess(g.cid), s, g, m, false)
    requires m.Graph? ==> Resolve(m.nodes, g.c.spec.releaseVersion).Some?
    requires g.c.spec.releaseVersion != ""
    ensures VrTarget(s, g.cid, m) == VrIdle ==> HasVersion(s, g)
  {
    hide Inv, PoolOpen, IsReconciled, RecordInv, PlInv, HcInv, Rows, HasVersion, VersionResolution, Resolve, Consistent,
      BuildChannel, Published, VrFits, Find, EntryFor, Canonical;
    InForceParts(s, g);
    ClusterPart(s, g.cid);
    VersionIs(s, g);
    if VrOf(s, g.cid).VrPut? && VrOf(s, g.cid).landed { VrLandedHas(s, g); }
    VrHolds(s, g);
  }

  lemma VrHolds(s: State, g: Goal)
    requires VrFits(s, g)
    ensures VrOf(s, g.cid).VrStatuses? || VrOf(s, g.cid).VrResolve? ==> VrOf(s, g.cid).c == g.c
  {
    hide HasVersion, EntryFor;
  }

  lemma VrLandedHas(s: State, g: Goal)
    requires VrInv(s, g.cid) && VrFits(s, g) && Published(s, g.c.spec.releaseVersion)
    requires VrOf(s, g.cid).VrPut? && VrOf(s, g.cid).landed
    ensures HasVersion(s, g)
  {
    hide Canonical, Find, Rows, HasVersion, ReadVersion, Published, EntryFor;
    var e := VrOf(s, g.cid).entry;
    CanonicalReady(s, e, g.c.spec.releaseVersion);
    ResolvedBy(s, g, e);
  }

  lemma NvrEnds(s: State, g: Goal, m: Move)
    requires InForce(s, g) && NvrFits(s, g) && GoesOn(NvrProcess(g.Key()), s, g, m, false)
    requires m.Graph? ==> Resolve(m.nodes, g.n.releaseVersion).Some?
    requires g.n.releaseVersion != "" && BuildNodePoolChannel(g.n.releaseVersion).Some?
    ensures NvrTarget(s, g.Key(), m) == NvrIdle ==> HasPoolVersion(s, g)
  {
    hide Inv, Specified, PoolRecordInv, NpInv, PoolRows, HasPoolVersion, NodePoolVR, Resolve, Consistent,
      BuildNodePoolChannel, BuildChannel, Published, NvrFits, Find, EntryFor, Canonical;
    InForceParts(s, g);
    PoolPart(s, g.Key());
    PoolVersionIs(s, g);
    if NvrOf(s, g.Key()).NvrPut? && NvrOf(s, g.Key()).landed { NvrLandedHas(s, g); }
    NvrHolds(s, g);
  }

  lemma NvrHolds(s: State, g: Goal)
    requires NvrFits(s, g)
    ensures NvrOf(s, g.Key()).NvrStatuses? || NvrOf(s, g.Key()).NvrResolve? ==> NvrOf(s, g.Key()).n == g.n
  {
    hide HasPoolVersion, EntryFor;
  }

  lemma NvrLandedHas(s: State, g: Goal)
    requires NvrInv(s, g.Key()) && NvrFits(s, g) && Published(s, g.n.releaseVersion)
    requires NvrOf(s, g.Key()).NvrPut? && NvrOf(s, g.Key()).landed
    ensures HasPoolVersion(s, g)
  {
    hide Canonical, Find, PoolRows, HasPoolVersion, ReadVersion, Published, EntryFor;
    var e := NvrOf(s, g.Key()).entry;
    CanonicalReady(s, e, g.n.releaseVersion);
    PoolResolvedBy(s, g, e);
  }

  lemma HcEnds(s: State, g: Goal, m: Move, heard: bool)
    requires ValidGoal(g) && InForce(s, g) && HcFits(s, g)
    requires Waited(HcProcess(g.cid), s, g, heard) && GoesOn(HcProcess(g.cid), s, g, m, heard)
    ensures HcTarget(s, g.cid, m) == HcIdle ==> HasWork(s, g) && (heard ==> HcReady(s, g))
    ensures heard && HcTarget(s, g.cid, m).HcPut? ==> HcTarget(s, g.cid, m).entry == UpEntry(g)
  {
    hide Inv, ValidGoal, InForce, HcInv, RecordInv, PlInv, VrInv, HcFits, HcTarget, HasWork, AgentHeard, HcReady,
      HasVersion, IsPlaced, UpEntry, HcGate, HcBuild, DecideWork, CanWrite, HcEntry, ReadStatus, HcName;
    InForceParts(s, g);
    ClusterPart(s, g.cid);
    HcHolds(s, g);
    HcSteps.HcTargetIs(s, g.cid, m);
    if m.Read? && (!HcOf(s, g.cid).HcIdle? || Unreconciled(s, g)) {
      HcNeverWaits(s, g);
    }
    if HcOf(s, g.cid).HcPut? && HcOf(s, g.cid).landed { HcLandedReady(s, g, heard); }
    if m.Read? { HcSteps.HcReadIs(s, g.cid); }
    if m.Read? && heard && HcOf(s, g.cid).HcReadBack? { ReadsUp(s, g); }
  }

  lemma HcHolds(s: State, g: Goal)
    requires HcFits(s, g)
    ensures HcOf(s, g.cid).HcIdle? || HcOf(s, g.cid).c == g.c
  {
    hide HasWork;
  }

  /** With the gate open no read ends the reconcile. */
  lemma HcNeverWaits(s: State, g: Goal)
    requires ValidGoal(g) && InForce(s, g) && HcFits(s, g) && IsPlaced(s, g) && HasVersion(s, g)
    requires HcOf(s, g.cid).HcIdle? ==> Unreconciled(s, g)
    ensures HcTarget(s, g.cid, Read) != HcIdle
    ensures HcTarget(s, g.cid, Read).HcPut? ==> HcOf(s, g.cid).HcPut? || HcOf(s, g.cid).HcReadBack?
    ensures HcOf(s, g.cid).HcPut? ==> HcTarget(s, g.cid, Read) == HcOf(s, g.cid)
  {
    hide Inv, ValidGoal, InForce, HcFits, HcTarget, HasVersion, IsPlaced, HcGate, HcBuild, DecideWork, HcEntry,
      ReadStatus, Rows, Placement, VersionResolution, HcName, GetGeneration, Found, Current, IsReconciled,
      PlacementReady;
    InForceParts(s, g);
    HcHolds(s, g);
    HcSteps.HcReadIs(s, g.cid);
    if HcOf(s, g.cid).HcStatuses? {
      GateIs(s, g);
      var work := BuildsFor(s, g);
      Ladder(s, g);
    }
  }

  lemma HcLandedReady(s: State, g: Goal, heard: bool)
    requires HcInv(s, g.cid) && RecordInv(s, g.cid) && HcOf(s, g.cid).HcPut? && HcOf(s, g.cid).landed
    requires HcOf(s, g.cid).c == g.c
    requires heard ==> AgentHeard(s, g) && UpToDate(s, g)
    ensures HasWork(s, g) && (heard ==> HcReady(s, g))
  {
    hide HcStoredInv, HcRowInv, RecordInv, HcName, GetGeneration, Placed, Rows, Find, UpEntry, HcHeld, IsHcWork,
      AgentHeard, WorkValid;
    HcSteps.HcHolds(s, g.cid);
  }

  lemma NpEnds(s: State, g: Goal, m: Move, heard: bool)
    requires ValidGoal(g) && InForce(s, g) && NpFits(s, g)
    requires Waited(NpProcess(g.Key()), s, g, heard) && GoesOn(NpProcess(g.Key()), s, g, m, heard)
    ensures NpTarget(s, g.Key(), m) == NpIdle ==> PoolStored(s, g) && (heard ==> PoolReady(s, g))
    ensures NpTarget(s, g.Key(), m).NpStatuses? ==> GateReady(NpTarget(s, g.Key(), m).statuses)
    ensures heard && NpTarget(s, g.Key(), m).NpPut? ==> NpTarget(s, g.Key(), m).entry == PoolUpEntry(g)
  {
    hide Inv, ValidGoal, InForce, PoolOpen, NpInv, PoolRecordInv, NvrInv, NpFits, NpTarget, PoolStored, PoolHeard,
      PoolReady, HcReady, HasPoolVersion, GateReady, DecideWork, CanWrite, NodePoolEntry, PoolUpEntry, ReadStatus,
      NpName;
    InForceParts(s, g);
    PoolPart(s, g.Key());
    NpHolds(s, g);
    if m.Read? {
      NpNeverWaits(s, g);
      NpSteps.NpReadIs(s, g.Key());
      if heard && NpOf(s, g.Key()).NpReadBack? { ReadsPoolUp(s, g); }
    } else if !(m.Land? && (NpOf(s, g.Key()).NpWrite? || NpOf(s, g.Key()).NpPut?)) {
      NpReturns(s, g, m);
    } else {
      NpLandsOn(s, g);
    }
    if NpOf(s, g.Key()).NpPut? && NpOf(s, g.Key()).landed { NpLandedReady(s, g, heard); }
  }

  lemma NpHolds(s: State, g: Goal)
    requires NpFits(s, g)
    ensures NpOf(s, g.Key()).NpIdle? || NpOf(s, g.Key()).n == g.n
  {
    hide PoolStored;
  }

  lemma NpReturns(s: State, g: Goal, m: Move)
    requires !m.Read? && !m.Fail? && (m.Land? ==> !NpOf(s, g.Key()).NpWrite? && !NpOf(s, g.Key()).NpPut?)
    ensures var pc, next := NpOf(s, g.Key()), NpTarget(s, g.Key(), m);
            next == pc || (pc.NpPut? && pc.landed && next == NpIdle) || next.NpReadBack?
  {
    hide NpGated, DecideWork, CanWrite, Found, Current, PoolFound, CurrentPool, Rows, NodePoolEntry, ReadStatus;
  }

  lemma NpLandsOn(s: State, g: Goal)
    requires NpOf(s, g.Key()).NpWrite? || NpOf(s, g.Key()).NpPut?
    ensures var pc := NpOf(s, g.Key());
            NpTarget(s, g.Key(), Land).NpWrite? || (pc.NpPut? && NpTarget(s, g.Key(), Land) == pc.(landed := true))
  {
    hide NpGated, DecideWork, CanWrite, Found, Current, PoolFound, CurrentPool, Rows, NodePoolEntry, ReadStatus;
  }

  /** With the cluster ready and the node pool's version resolved no read ends the reconcile. */
  lemma NpNeverWaits(s: State, g: Goal)
    requires ValidGoal(g) && InForce(s, g) && NpFits(s, g) && HcReady(s, g) && HasPoolVersion(s, g)
    requires NpOf(s, g.Key()).NpStatuses? ==> GateReady(NpOf(s, g.Key()).statuses)
    ensures NpTarget(s, g.Key(), Read) != NpIdle
    ensures NpTarget(s, g.Key(), Read).NpPut? ==> NpOf(s, g.Key()).NpPut? || NpOf(s, g.Key()).NpReadBack?
    ensures NpOf(s, g.Key()).NpPut? ==> NpTarget(s, g.Key(), Read) == NpOf(s, g.Key())
    ensures NpTarget(s, g.Key(), Read).NpStatuses? ==> GateReady(NpTarget(s, g.Key(), Read).statuses)
  {
    hide Inv, ValidGoal, InForce, NpFits, NpTarget, HcReady, HasPoolVersion, IsPlaced, DecideWork, NodePoolEntry,
      ReadStatus, Rows, PoolRows, Placement, NodePoolVR, HcAvailable, NpName, Found, Current, PoolFound, CurrentPool,
      IsReconciled, NpGated;
    InForceParts(s, g);
    CurrentSound(s, g);
    NpHolds(s, g);
    NpSteps.NpReadIs(s, g.Key());
    NpSteps.NpTargetIs(s, g.Key(), Read);
    Ladder(s, g);
    if NpOf(s, g.Key()).NpClusterStatuses? {
      ReadyIsAvailable(s, g);
      PlacedIs(s, g);
    } else if NpOf(s, g.Key()).NpStatuses? {
      PositivePool(g);
      NpGateOpens(s, g, NpOf(s, g.Key()).c, NpOf(s, g.Key()).statuses);
    }
  }

  lemma NpGateOpens(s: State, g: Goal, c: Cluster, ss: AdapterStatuses)
    requires GateReady(ss) && HasPoolVersion(s, g) && IsInt64(g.n.generation) && g.n.generation > 0
    ensures NpGated(s, g.Key(), g.n, c, ss).NpLookup?
  {
    hide Placement, NodePoolVR, HcAvailable, HasPoolVersion, PoolRows, NpBuild, WorkValid, GetGeneration, NpName,
      IsInt64;
    PoolVersionIs(s, g);
    NpBuilds(g.n, c, NodePoolVR(PoolRows(s, g.Key())).value.image);
  }

  lemma PositivePool(g: Goal)
    requires ValidGoal(g)
    ensures g.n.generation > 0
  {
    hide BuildNodePoolChannel, HcAvailability, Reported;
  }

  lemma PlacedIs(s: State, g: Goal)
    requires IsPlaced(s, g)
    ensures PlacementReady(Placement(Rows(s, g.cid)))
  {
    hide Rows, Placement;
  }

  lemma NpLandedReady(s: State, g: Goal, heard: bool)
    requires NpInv(s, g.Key()) && NpOf(s, g.Key()).NpPut? && NpOf(s, g.Key()).landed && NpOf(s, g.Key()).n == g.n
    requires heard ==> PoolHeard(s, g) && PoolUpToDate(s, g)
    ensures PoolStored(s, g) && (heard ==> PoolReady(s, g))
  {
    hide NpStoredInv, NpRowInv, NpName, HcName, GetGeneration, Placed, PoolRows, Find, PoolUpEntry, PoolHeard, NpHeld,
      IsNpWork, Snapshot, HcThere, WorkValid;
  }

  // ---- From the first read to the end ----

  /** Where a process's own step leaves a reconcile, given what it may end with. */
  lemma OwnContinues(me: Process, s: State, g: Goal, m: Move, heard: bool)
    requires ValidGoal(g) && InForce(s, g) && Fit(me, s, g) && Serves(me, g) && Waited(me, s, g, heard)
    requires GoodAction(g, Act(me, m)) && GoesOn(me, s, g, m, heard)
    ensures Underway(me, Next(s, Act(me, m)), g, heard)
  {
    hide ValidGoal, Inv, InForce, VrFits, NvrFits, HcFits, NpFits, Waited, GoesOn, Keeps, PlNext, VrNext, HcNext,
      NvrNext, NpNext, PlTarget, VrTarget, HcTarget, NvrTarget, NpTarget, IsPlaced, HasVersion, HasPoolVersion, HasWork,
      HcReady, PoolStored, PoolReady, GateReady, UpEntry, PoolUpEntry, ReadPlacement, PlacementReady, Resolve,
      GoodAction, Done;
    var t := Next(s, Act(me, m));
    ActionKeeps(me, s, g, Act(me, m));
    GoalParts(g);
    GoodMove(me, g, m);
    match me {
      case PlProcess(cid) => GoesOnUnheard(me, s, g, m, heard); PlEnds(s, g, m); PlStepIs(s, cid, m);
      case VrProcess(cid) => GoesOnUnheard(me, s, g, m, heard); VrEnds(s, g, m); VrStepIs(s, cid, m);
      case NvrProcess(key) => GoesOnUnheard(me, s, g, m, heard); NvrEnds(s, g, m); NvrStepIs(s, key, m);
      case HcProcess(cid) => HcEnds(s, g, m, heard); HcStepIs(s, cid, m);
      case NpProcess(key) => NpEnds(s, g, m, heard); NpStepIs(s, key, m);
    }
    if Idle(me, t) {
      IsDone(me, s, g, heard);
      DoneStays(me, s, t, g, heard);
    }
  }

  lemma IsDone(me: Process, s: State, g: Goal, heard: bool)
    ensures me.PlProcess? && IsPlaced(s, g) ==> Done(me, s, g, heard)
    ensures me.VrProcess? && HasVersion(s, g) ==> Done(me, s, g, heard)
    ensures me.NvrProcess? && HasPoolVersion(s, g) ==> Done(me, s, g, heard)
    ensures me.HcProcess? && HasWork(s, g) && (heard ==> HcReady(s, g)) ==> Done(me, s, g, heard)
    ensures me.NpProcess? && PoolStored(s, g) && (heard ==> PoolReady(s, g)) ==> Done(me, s, g, heard)
  {
    hide IsPlaced, HasVersion, HasPoolVersion, HasWork, HcReady, PoolStored, PoolReady;
  }

  lemma GoesOnUnheard(me: Process, s: State, g: Goal, m: Move, heard: bool)
    requires GoesOn(me, s, g, m, heard) && !me.HcProcess? && !me.NpProcess?
    ensures GoesOn(me, s, g, m, false)
  {
    hide IsPlaced, HasVersion, HasPoolVersion, ReadPlacement;
  }

  lemma GoalParts(g: Goal)
    requires ValidGoal(g)
    ensures g.c.spec.releaseVersion != "" && g.n.releaseVersion != "" && BuildNodePoolChannel(g.n.releaseVersion).Some?
  {
    hide BuildNodePoolChannel, HcAvailability, Reported;
  }

  lemma GoodMove(me: Process, g: Goal, m: Move)
    requires Serves(me, g) && GoodAction(g, Act(me, m))
    ensures me.PlProcess? && m.Select? ==> m.mc != "" && m.domain != ""
    ensures me.VrProcess? && m.Graph? ==> Resolve(m.nodes, g.c.spec.releaseVersion).Some?
    ensures me.NvrProcess? && m.Graph? ==> Resolve(m.nodes, g.n.releaseVersion).Some?
  {
    hide Resolve;
  }

  /** A step of a reconcile, its own or another's, brings it on. */
  lemma Continues(me: Process, s: State, g: Goal, a: Action, heard: bool)
    requires ValidGoal(g) && InForce(s, g) && Fit(me, s, g) && GoodAction(g, a) && Serves(me, g)
    requires Waited(me, s, g, heard)
    requires Actor(a) == me ==> GoesOn(me, s, g, a.move, heard)
    requires Actor(a) != me ==> Underway(me, s, g, heard)
    ensures Underway(me, Next(s, a), g, heard)
  {
    hide ValidGoal, InForce, Fit, GoodAction, Waited, GoesOn, Underway, Next, Keeps, SamePoint;
    if Actor(a) != me {
      ActionKeeps(me, s, g, a);
      OthersLeavePoint(me, s, a);
      OthersKeepUnderway(me, s, Next(s, a), g, heard);
    } else {
      assert a == Act(me, a.move);
      OwnContinues(me, s, g, a.move, heard);
    }
  }

  // The actions from `start` on and before `end`.
  datatype Span = Span(start: nat, end: nat)

  /**
   * A reconcile begins at the start of the span, does not fail, and is over at its end; whatever else
   * happens in between.
   */
  ghost predicate Completes(s: State, g: Goal, acts: seq<Action>, me: Process, span: Span) {
    && span.start < span.end <= |acts| && !me.Outsider? && acts[span.start] == Act(me, Read)
    && MayBegin(me, After(s, acts, span.start), g) && Idle(me, After(s, acts, span.end))
    && forall k :: span.start <= k < span.end ==> acts[k] != Act(me, Fail)
  }

  /** What the reconcile waits for is there as long as it runs. */
  ghost predicate WaitedIn(s: State, g: Goal, acts: seq<Action>, me: Process, span: Span, heard: bool)
    requires span.end <= |acts|
  {
    forall i :: span.start <= i <= span.end ==> Waited(me, After(s, acts, i), g, heard)
  }

  lemma {:induction false} StaysUnderway(s: State, g: Goal, acts: seq<Action>, me: Process, span: Span, heard: bool,
                                         k: nat)
    requires Schedule(s, g, acts) && Serves(me, g) && Completes(s, g, acts, me, span) && span.start < k <= span.end
    requires WaitedIn(s, g, acts, me, span, heard)
    ensures Underway(me, After(s, acts, k), g, heard)
  {
    hide InForce, ValidGoal, Fit, Keeps, Waited, Underway, Idle, Unreconciled, Next, GoodAction, Serves;
    var before := After(s, acts, k - 1);
    if k - 1 > span.start { StaysUnderway(s, g, acts, me, span, heard, k - 1); }
    IdleFit(me, After(s, acts, span.start), g);
    AfterKeeps(s, g, acts, me, span.start, k - 1);
    AfterInForce(s, g, acts, k - 1);
    assert Waited(me, before, g, heard);
    assert GoodAction(g, acts[k - 1]);
    if Actor(acts[k - 1]) == me { GoesOnNow(me, before, g, acts[k - 1], k - 1 == span.start, heard); }
    Continues(me, before, g, acts[k - 1], heard);
  }

  lemma GoesOnNow(me: Process, s: State, g: Goal, a: Action, first: bool, heard: bool)
    requires !me.Outsider? && Actor(a) == me && a != Act(me, Fail)
    requires if first then MayBegin(me, s, g) && a == Act(me, Read) else Underway(me, s, g, heard)
    ensures GoesOn(me, s, g, a.move, heard)
  {
    hide MayBegin, Underway;
  }

  /** A reconcile that has come to an end without failing has done its part, and it stays done. */
  lemma CompletedIsDone(s: State, g: Goal, acts: seq<Action>, me: Process, span: Span, heard: bool, k: nat)
    requires Schedule(s, g, acts) && Serves(me, g) && Completes(s, g, acts, me, span) && span.end <= k <= |acts|
    requires WaitedIn(s, g, acts, me, span, heard)
    ensures Done(me, After(s, acts, k), g, heard) && Fit(me, After(s, acts, k), g)
  {
    hide Schedule, Fit, Keeps, WaitedIn, Idle, Unreconciled, Done, InHand, Serves, Next;
    StaysUnderway(s, g, acts, me, span, heard, span.end);
    IdleFit(me, After(s, acts, span.end), g);
    AfterKeeps(s, g, acts, me, span.end, k);
    DoneStays(me, After(s, acts, span.end), After(s, acts, k), g, heard);
  }

  /** The agent reports on the process's stored work, or its report is in already. */
  ghost predicate AgentReports(me: Process, s: State, g: Goal, a: Action) {
    match me
    case HcProcess(_) =>
      AgentHeard(s, g) || exists k: Key :: k in s.works && k.1 == HcName(g.cid) && a == Outside(Report(k, g.up))
    case NpProcess(_) =>
      PoolHeard(s, g) || exists k: Key :: k in s.works && k.1 == NpName(g.npid) && a == Outside(Report(k, g.poolUp))
    case _ => true
  }

  ghost predicate Heard(me: Process, s: State, g: Goal) {
    match me
    case HcProcess(_) => AgentHeard(s, g)
    case NpProcess(_) => PoolHeard(s, g)
    case _ => true
  }

  lemma AgentReportHeard(me: Process, s: State, g: Goal, a: Action)
    requires InForce(s, g) && GoodAction(g, a) && Serves(me, g) && Fit(me, s, g) && AgentReports(me, s, g, a)
    requires Done(me, s, g, false)
    ensures Heard(me, Next(s, a), g)
  {
    hide Inv, Happen, HasWork, AgentHeard, PoolStored, PoolHeard, HcReady, PoolReady, HcName, NpName, InForce, HcFits,
      NpFits, GoodAction;
    InForceParts(s, g);
    ActionKeeps(me, s, g, a);
    if me.HcProcess? && !AgentHeard(s, g) {
      var work: Key :| work in s.works && work.1 == HcName(g.cid) && a == Outside(Report(work, g.up));
      AgentKeeps(s, g, work);
    } else if me.NpProcess? && !PoolHeard(s, g) {
      var work: Key :| work in s.works && work.1 == NpName(g.npid) && a == Outside(Report(work, g.poolUp));
      PoolAgentKeeps(s, g, work);
    }
  }

  lemma HeardStays(me: Process, s: State, t: State, g: Goal)
    requires Keeps(me, s, t, g) && Heard(me, s, g)
    ensures Heard(me, t, g)
  {
    hide Fit, IsPlaced, HasVersion, HasPoolVersion, HasWork, AgentHeard, HcReady, PoolStored, PoolHeard, PoolReady;
  }

  lemma AfterNext(s: State, acts: seq<Action>, i: nat)
    requires i < |acts|
    ensures After(s, acts, i + 1) == Next(After(s, acts, i), acts[i])
  {
    hide Next;
  }

  lemma ReportIsHeard(s: State, g: Goal, acts: seq<Action>, me: Process, a: nat, k: nat)
    requires Schedule(s, g, acts) && Serves(me, g) && a < k <= |acts| && Fit(me, After(s, acts, a), g)
    requires AgentReports(me, After(s, acts, a), g, acts[a]) && Done(me, After(s, acts, a), g, false)
    ensures Heard(me, After(s, acts, k), g)
  {
    hide After, Next, AgentReports, Done, Heard, Keeps, Serves, InForce, ValidGoal, Fit, GoodAction;
    AfterInForce(s, g, acts, a);
    AfterNext(s, acts, a);
    assert GoodAction(g, acts[a]);
    AgentReportHeard(me, After(s, acts, a), g, acts[a]);
    AfterKeeps(s, g, acts, me, a, a + 1);
    AfterKeeps(s, g, acts, me, a + 1, k);
    HeardStays(me, After(s, acts, a + 1), After(s, acts, k), g);
  }

  // Two reconciles of one process with the agent's report in between.
  datatype Round = Round(apply: Span, report: nat, readBack: Span)

  ghost predicate InOrder(s: State, g: Goal, acts: seq<Action>, me: Process, round: Round) {
    && Completes(s, g, acts, me, round.apply) && Completes(s, g, acts, me, round.readBack)
    && round.apply.end <= round.report < round.readBack.start
    && AgentReports(me, After(s, acts, round.report), g, acts[round.report])
  }

  /** What a process waits for, but for its own agent's report. */
  ghost predicate WaitedFrom(s: State, g: Goal, acts: seq<Action>, me: Process, i: nat) {
    forall k :: i <= k <= |acts| ==> Waited(me, After(s, acts, k), g, false)
  }

  lemma WaitedHeard(me: Process, s: State, g: Goal)
    requires Waited(me, s, g, false) && Heard(me, s, g)
    ensures Waited(me, s, g, true)
  {
    hide IsPlaced, HasVersion, HasPoolVersion, AgentHeard, HcReady, PoolHeard;
  }

  /** After a round what the process stores is stored, and what the agent said of it is reported. */
  lemma RoundIsDone(s: State, g: Goal, acts: seq<Action>, me: Process, round: Round, k: nat)
    requires Schedule(s, g, acts) && Serves(me, g) && InOrder(s, g, acts, me, round)
    requires round.readBack.end <= k <= |acts|
    requires WaitedFrom(s, g, acts, me, round.apply.start)
    ensures Done(me, After(s, acts, k), g, true) && Fit(me, After(s, acts, k), g)
  {
    hide Schedule, Completes, Next, AgentReports, Waited, Heard, Done, Fit, Serves;
    RoundEnds(s, g, acts, me, round);
    assert WaitedIn(s, g, acts, me, round.apply, false);
    CompletedIsDone(s, g, acts, me, round.apply, false, round.report);
    assert WaitedIn(s, g, acts, me, round.readBack, true) by {
      forall i | round.readBack.start <= i <= round.readBack.end ensures Waited(me, After(s, acts, i), g, true) {
        ReportIsHeard(s, g, acts, me, round.report, i);
        WaitedHeard(me, After(s, acts, i), g);
      }
    }
    CompletedIsDone(s, g, acts, me, round.readBack, true, k);
  }

  lemma RoundEnds(s: State, g: Goal, acts: seq<Action>, me: Process, round: Round)
    requires InOrder(s, g, acts, me, round)
    ensures round.apply.start < round.apply.end <= round.report < round.readBack.start < round.readBack.end <= |acts|
  {
    hide After, Idle, AgentReports, Unreconciled;
  }

  // Where in a schedule the reconciles that are needed run, and where the agents report.
  datatype Plan = Plan(placement: Span, version: Span, cluster: Round, poolVersion: Span, pool: Round)

  /**
   * A placement and a version reconcile are over before an hc reconcile begins; after that one the
   * agent reports and a second hc reconcile runs. After it, and after a pool version reconcile, the
   * same happens with nodepool reconciles.
   */
  ghost predicate Covers(s: State, g: Goal, acts: seq<Action>, plan: Plan) {
    && Completes(s, g, acts, PlProcess(g.cid), plan.placement) && plan.placement.end <= plan.cluster.apply.start
    && Completes(s, g, acts, VrProcess(g.cid), plan.version) && plan.version.end <= plan.cluster.apply.start
    && InOrder(s, g, acts, HcProcess(g.cid), plan.cluster) && plan.cluster.readBack.end <= plan.pool.apply.start
    && Completes(s, g, acts, NvrProcess(g.Key()), plan.poolVersion) && plan.poolVersion.end <= plan.pool.apply.start
    && InOrder(s, g, acts, NpProcess(g.Key()), plan.pool)
  }

  /**
   * However the needed reconciles are interleaved with each other, with failing and repeated ones, with
   * other processes and with the environment, and whatever the processes held at first: from the end
   * of the last one on everything is ready, and every process fits.
   */
  lemma Converges(s: State, g: Goal, acts: seq<Action>, plan: Plan, k: nat)
    requires Schedule(s, g, acts) && Covers(s, g, acts, plan) && plan.pool.readBack.end <= k <= |acts|
    ensures AllReady(After(s, acts, k), g) && Fits(After(s, acts, k), g)
  {
    hide Schedule, Completes, InOrder, After, IsPlaced, HasVersion, HasPoolVersion, HasWork, AgentHeard, HcReady,
      PoolStored, PoolHeard, PoolReady, VrFits, NvrFits, HcFits, NpFits;
    SpansEnd(s, g, acts, plan);
    forall i | plan.cluster.apply.start <= i <= |acts|
      ensures IsPlaced(After(s, acts, i), g) && HasVersion(After(s, acts, i), g) && VrFits(After(s, acts, i), g)
    {
      CompletedIsDone(s, g, acts, PlProcess(g.cid), plan.placement, false, i);
      CompletedIsDone(s, g, acts, VrProcess(g.cid), plan.version, false, i);
    }
    forall i | plan.pool.apply.start <= i <= |acts|
      ensures HcReady(After(s, acts, i), g) && HcFits(After(s, acts, i), g)
      ensures HasPoolVersion(After(s, acts, i), g) && NvrFits(After(s, acts, i), g)
    {
      RoundIsDone(s, g, acts, HcProcess(g.cid), plan.cluster, i);
      CompletedIsDone(s, g, acts, NvrProcess(g.Key()), plan.poolVersion, false, i);
    }
    RoundIsDone(s, g, acts, NpProcess(g.Key()), plan.pool, k);
  }

  lemma SpansEnd(s: State, g: Goal, acts: seq<Action>, plan: Plan)
    requires Covers(s, g, acts, plan)
    ensures plan.placement.end <= plan.cluster.apply.start && plan.version.end <= plan.cluster.apply.start
    ensures plan.cluster.apply.start < plan.cluster.readBack.end <= plan.pool.apply.start
    ensures plan.poolVersion.end <= plan.pool.apply.start < plan.pool.readBack.end <= |acts|
  {
    hide After, Completes, AgentReports;
    RoundEnds(s, g, acts, HcProcess(g.cid), plan.cluster);
    RoundEnds(s, g, acts, NpProcess(g.Key()), plan.pool);
  }
}
