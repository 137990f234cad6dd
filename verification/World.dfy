// The two remote stores as one reconcile sees them: other processes and the environment act between
// its calls, and a call may be answered, fail, or fail after taking effect.
module World {
  import opened Wrappers
  import opened Work
  import opened Generation
  import opened Status
  import opened ApiTypes
  import opened Payloads
  import opened Release
  import opened Upsert
  import opened Protocol
  import opened Invariants
  import opened Preservation
  import opened Runs
  import EnvSteps
  import HcSteps
  import NpSteps

  // One attempt at a write: what others do first, and whether the request then reaches the store.
  datatype Attempt = Attempt(others: seq<Action>, lands: bool)

  // How one remote call goes: what others do first, whether it is answered, and, for the calls that
  // ask for them, the selector's pick, the graph's page and the attempts of a write.
  datatype Turn = Turn(others: seq<Action>, answered: bool, mc: string, domain: string, nodes: seq<Node>,
                       attempts: seq<Attempt>)

  const LOST := Turn([], false, "", "", [], [])

  function First(script: seq<Turn>): Turn {
    if script == [] then LOST else script[0]
  }

  function Rest(script: seq<Turn>): seq<Turn> {
    if script == [] then [] else script[1..]
  }

  /** Nobody interferes, and the call is answered after one attempt. */
  predicate Undisturbed(turn: Turn) {
    turn.others == [] && turn.answered && turn.attempts == [Attempt([], true)]
  }

  /** A script of at least `k` turns, all alike and undisturbed. */
  ghost predicate Calm(script: seq<Turn>, k: nat, like: Turn) {
    k <= |script| && Undisturbed(like) && forall i :: 0 <= i < |script| ==> script[i] == like
  }

  lemma CalmRest(script: seq<Turn>, k: nat, like: Turn)
    requires Calm(script, k + 1, like)
    ensures First(script) == like && Undisturbed(like) && Calm(Rest(script), k, like)
  {
  }

  datatype Process =
    | Outsider
    | PlProcess(cid: string)
    | VrProcess(cid: string)
    | HcProcess(cid: string)
    | NvrProcess(key: PoolKey)
    | NpProcess(key: PoolKey)

  function Actor(a: Action): Process {
    match a
    case Outside(_) => Outsider
    case Pl(cid, _) => PlProcess(cid)
    case Vr(cid, _) => VrProcess(cid)
    case Hc(cid, _) => HcProcess(cid)
    case Nvr(key, _) => NvrProcess(key)
    case Np(key, _) => NpProcess(key)
  }

  function Act(me: Process, m: Move): Action
    requires !me.Outsider?
    ensures Actor(Act(me, m)) == me
  {
    match me
    case PlProcess(cid) => Pl(cid, m)
    case VrProcess(cid) => Vr(cid, m)
    case HcProcess(cid) => Hc(cid, m)
    case NvrProcess(key) => Nvr(key, m)
    case NpProcess(key) => Np(key, m)
  }

  /** A process is at the same program point in both states. */
  ghost predicate SamePoint(me: Process, s: State, t: State) {
    match me
    case Outsider => true
    case PlProcess(cid) => PlOf(t, cid) == PlOf(s, cid)
    case VrProcess(cid) => VrOf(t, cid) == VrOf(s, cid)
    case HcProcess(cid) => HcOf(t, cid) == HcOf(s, cid)
    case NvrProcess(key) => NvrOf(t, key) == NvrOf(s, key)
    case NpProcess(key) => NpOf(t, key) == NpOf(s, key)
  }

  // The remote calls.
  datatype Call =
    | ClusterCall(cid: string)
    | StatusesCall(id: string)
    | PoolCall(key: PoolKey)
    | PoolStatusesCall(pool: PoolKey)
    | PickCall
    | GraphCall(channel: string)
    | LookupCall(work: Key)
    | WriteCall(target: Key, op: Operation)
    | StatusCall(applied: Key)
    | PutCall(entry: AdapterStatus)

  function PlCall(cid: string, pc: PlacementPc): Call {
    match pc
    case PlIdle => ClusterCall(cid)
    case PlStatuses(_) => StatusesCall(cid)
    case PlSelect(_) => PickCall
    case PlPut(entry, _) => PutCall(entry)
  }

  function VrCall(cid: string, pc: VersionPc): Call {
    match pc
    case VrIdle => ClusterCall(cid)
    case VrStatuses(_) => StatusesCall(cid)
    case VrResolve(c) => GraphCall(BuildChannel(c.spec.releaseVersion))
    case VrPut(entry, _) => PutCall(entry)
  }

  function HcCall(cid: string, pc: HcPc): Call {
    match pc
    case HcIdle => ClusterCall(cid)
    case HcStatuses(_) => StatusesCall(cid)
    case HcLookup(_, p, work) => LookupCall((p.managementCluster, work.name))
    case HcWrite(_, p, work, op, _) => WriteCall((p.managementCluster, work.name), op)
    case HcReadBack(_, p, work) => StatusCall((p.managementCluster, work.name))
    case HcPut(_, _, _, entry, _) => PutCall(entry)
  }

  function NvrCall(key: PoolKey, pc: PoolVersionPc): Call {
    match pc
    case NvrIdle => PoolCall(key)
    case NvrStatuses(_) => PoolStatusesCall(key)
    case NvrResolve(n) => GraphCall(BuildNodePoolChannel(n.releaseVersion).GetOr(""))
    case NvrPut(entry, _) => PutCall(entry)
  }

  function NpCall(key: PoolKey, pc: NodePoolPc): Call {
    match pc
    case NpIdle => PoolCall(key)
    case NpCluster(n) => ClusterCall(n.clusterID)
    case NpClusterStatuses(n, _) => StatusesCall(n.clusterID)
    case NpStatuses(_, _, _) => PoolStatusesCall(key)
    case NpLookup(_, _, p, work) => LookupCall((p.managementCluster, work.name))
    case NpWrite(_, _, p, work, op, _) => WriteCall((p.managementCluster, work.name), op)
    case NpReadBack(_, _, p, work) => StatusCall((p.managementCluster, work.name))
    case NpPut(_, _, _, _, entry, _) => PutCall(entry)
  }

  /** The one remote call that a process may make from its program point. */
  ghost function NextCall(me: Process, s: State): Call
    requires !me.Outsider?
  {
    match me
    case PlProcess(cid) => PlCall(cid, PlOf(s, cid))
    case VrProcess(cid) => VrCall(cid, VrOf(s, cid))
    case HcProcess(cid) => HcCall(cid, HcOf(s, cid))
    case NvrProcess(key) => NvrCall(key, NvrOf(s, key))
    case NpProcess(key) => NpCall(key, NpOf(s, key))
  }

  // How a call ended: lost whether or not it took effect, given, or given with a pick or a page.
  datatype Answer = Lost | Given | Picked(mc: string, domain: string) | Page(nodes: seq<Node>)

  // A call that was made, and the state it was answered in, or, if it was lost, the state it was given up in.
  datatype Made = Made(call: Call, seen: State, answer: Answer)

  ghost predicate AllAnswered(made: seq<Made>) {
    forall i :: 0 <= i < |made| ==> !made[i].answer.Lost?
  }

  /** Neither an apply was begun nor an entry put. */
  ghost predicate OnlyReads(made: seq<Made>) {
    forall i :: 0 <= i < |made| ==>
      var call := made[i].call; !call.LookupCall? && !call.WriteCall? && !call.StatusCall? && !call.PutCall?
  }

  /** Nobody else moves a process. */
  lemma OthersLeavePoint(me: Process, s: State, a: Action)
    requires Actor(a) != me
    ensures SamePoint(me, s, Next(s, a))
  {
    hide PlTarget, VrTarget, HcTarget, NvrTarget, NpTarget, PutRow, PutPoolRow, WriteWork, Happen;
    if a.Outside? { EventLeavesPoint(me, s, a.event); }
  }

  lemma EventLeavesPoint(me: Process, s: State, e: Event)
    ensures SamePoint(me, s, Happen(s, e))
  {
    EnvSteps.EventTouches(s, e);
    hide Happen;
  }

  lemma ExtendRun(trace: seq<State>, s: State, a: Action)
    requires IsRun(trace) && trace[|trace| - 1] == s
    ensures IsRun(trace + [Next(s, a)])
  {
    hide Next;
    var longer := trace + [Next(s, a)];
    forall i | 0 <= i < |longer| - 1 ensures Step(longer[i], longer[i + 1]) {
      if i == |trace| - 1 {
        assert longer[i + 1] == Next(longer[i], a);
      } else {
        assert Step(trace[i], trace[i + 1]);
      }
    }
  }

  /** `seen` lies on the run between the start and the end of a call. */
  ghost predicate Called(before: seq<State>, after: seq<State>, seen: State) {
    |before| > 0 && before <= after && seen in after[|before| - 1..]
  }

  lemma SeenStill(trace: seq<State>, s: State)
    ensures forall before, seen :: Called(before, trace, seen) ==> Called(before, trace + [s], seen)
  {
    forall before, seen | Called(before, trace, seen) ensures Called(before, trace + [s], seen) {
      assert (trace + [s])[|before| - 1..] == trace[|before| - 1..] + [s];
    }
  }

  lemma SeenLast(before: seq<State>, after: seq<State>)
    requires |before| > 0 && before <= after
    ensures Called(before, after, after[|after| - 1])
  {
    assert after[|before| - 1..][|after| - |before|] == after[|after| - 1];
  }

  // Everything a reconcile shares with the others, and what has happened so far: the run, and the calls made.
  datatype Moment = Moment(st: State, script: seq<Turn>, trace: seq<State>, log: seq<Made>)

  /** From one moment to a later one the run and the calls only grow, and every new call saw a state of the new part. */
  ghost predicate Extends(before: Moment, after: Moment) {
    |before.trace| > 0 && before.trace <= after.trace && before.log <= after.log
    && forall i :: |before.log| <= i < |after.log| ==> Called(before.trace, after.trace, after.log[i].seen)
  }

  /** The calls made from one moment to a later one. */
  ghost function Since(before: Moment, after: Moment): seq<Made> {
    if |before.log| <= |after.log| then after.log[|before.log|..] else []
  }

  lemma ExtendsTransitive(a: Moment, b: Moment, c: Moment)
    requires Extends(a, b) && Extends(b, c)
    ensures Extends(a, c) && Since(a, c) == Since(a, b) + Since(b, c)
  {
    forall i | |a.log| <= i < |c.log| ensures Called(a.trace, c.trace, c.log[i].seen) {
      if i < |b.log| {
        assert c.log[i] == b.log[i];
        CalledLater(a.trace, b.trace, c.trace, b.log[i].seen);
      } else {
        CalledEarlier(a.trace, b.trace, c.trace, c.log[i].seen);
      }
    }
  }

  lemma CalledLater(a: seq<State>, b: seq<State>, c: seq<State>, seen: State)
    requires Called(a, b, seen) && b <= c
    ensures Called(a, c, seen)
  {
    var i :| 0 <= i < |b[|a| - 1..]| && b[|a| - 1..][i] == seen;
    assert c[|a| - 1..][i] == seen;
  }

  lemma CalledEarlier(a: seq<State>, b: seq<State>, c: seq<State>, seen: State)
    requires |a| > 0 && a <= b && Called(b, c, seen)
    ensures Called(a, c, seen)
  {
    var i :| 0 <= i < |c[|b| - 1..]| && c[|b| - 1..][i] == seen;
    assert c[|a| - 1..][|b| - |a| + i] == seen;
  }

  lemma OneCall(before: Moment, after: Moment, made: Made)
    requires after.log == before.log + [made] && Called(before.trace, after.trace, made.seen)
    ensures Extends(before, after) && Since(before, after) == [made]
  {
  }

  lemma SeenDuring(before: Moment, after: Moment, made: Made)
    requires Extends(before, after) && Since(before, after) == [made]
    ensures Called(before.trace, after.trace, made.seen)
  {
    hide Called;
    assert after.log[|before.log|] == Since(before, after)[0];
  }

  /** A calm script stays calm over an apply, which takes one turn or two. */
  lemma CalmAfterApply(script: seq<Turn>, after: seq<Turn>, like: Turn)
    requires after == Rest(script) || after == Rest(Rest(script))
    ensures Calm(script, 4, like) ==>
      Calm(script, 2, like) && Undisturbed(First(after)) && Undisturbed(First(Rest(after)))
  {
  }

  lemma ExtendsReflexive(a: Moment)
    requires |a.trace| > 0
    ensures Extends(a, a) && Since(a, a) == []
  {
  }

  /**
   * One call that reads: made at the process's point, answered or lost in `seen`, and followed by the
   * process's own step.
   */
  ghost predicate CallMade(before: Moment, after: Moment, me: Process, call: Call, seen: State, answer: Answer, m: Move)
    requires !me.Outsider?
  {
    && Extends(before, after) && Since(before, after) == [Made(call, seen, answer)]
    && after.script == Rest(before.script)
    && SamePoint(me, before.st, seen) && after.st == Next(seen, Act(me, m))
  }

  class Stores {
    var st: State
    var script: seq<Turn>
    ghost var trace: seq<State>
    ghost var log: seq<Made>

    ghost function Now(): Moment
      reads this
    {
      Moment(st, script, trace, log)
    }

    /** What happened so far is a run of the protocol that ends in the present state. */
    ghost predicate Valid()
      reads this
    {
      |trace| > 0 && IsRun(trace) && trace[|trace| - 1] == st
    }

    method Advance(a: Action)
      requires Valid()
      modifies this`st, this`trace
      ensures Valid() && st == Next(old(st), a) && trace == old(trace) + [st]
      ensures forall before, seen :: Called(before, old(trace), seen) ==> Called(before, trace, seen)
    {
      hide Next, IsRun;
      SeenStill(trace, Next(st, a));
      ExtendRun(trace, st, a);
      st := Next(st, a);
      trace := trace + [st];
    }

    /** Others take their steps; the work queue never runs a second copy of this process. */
    method Others(me: Process, actions: seq<Action>)
      requires Valid()
      modifies this`st, this`trace
      ensures Valid() && old(trace) <= trace && SamePoint(me, old(st), st)
      ensures actions == [] ==> st == old(st)
    {
      hide Next, IsRun, SamePoint;
      SamePointRefl(me, st);
      for i := 0 to |actions|
        invariant Valid() && old(trace) <= trace && SamePoint(me, old(st), st)
        invariant actions == [] ==> st == old(st)
      {
        if Actor(actions[i]) != me {
          ghost var before := st;
          OthersLeavePoint(me, st, actions[i]);
          Advance(actions[i]);
          SamePointTrans(me, old(st), before, st);
        }
      }
    }

    /** What is left of the script decides the next call; a call past its end is lost. */
    method TakeTurn() returns (turn: Turn)
      modifies this`script
      ensures turn == First(old(script)) && script == Rest(old(script))
    {
      turn := First(script);
      script := Rest(script);
    }

    /** Everything others do before a call that only reads is answered. */
    method BeforeCall(me: Process) returns (turn: Turn)
      requires Valid()
      modifies this`st, this`script, this`trace
      ensures Valid() && Called(old(trace), trace, st) && SamePoint(me, old(st), st)
      ensures turn == First(old(script)) && script == Rest(old(script)) && (turn.others == [] ==> st == old(st))
    {
      hide Next, IsRun, SamePoint;
      turn := TakeTurn();
      Others(me, turn.others);
      SeenLast(old(trace), trace);
    }

    /** The step that ends the call begun at `start`, and the call's place in the record. */
    method Finish(me: Process, m: Move, ghost start: Moment, ghost call: Call, ghost answer: Answer)
      requires Valid() && !me.Outsider? && start.log == log && Called(start.trace, trace, st)
      modifies this`st, this`trace, this`log
      ensures Valid() && st == Next(old(st), Act(me, m))
      ensures Extends(start, Now()) && Since(start, Now()) == [Made(call, old(st), answer)]
    {
      hide Next, IsRun, Act, Extends, Since, Called;
      ghost var made := Made(call, st, answer);
      log := log + [made];
      Advance(Act(me, m));
      OneCall(start, Now(), made);
    }

    /** `seen` is the state the call was answered in. */
    method GetCluster(me: Process, cid: string)
      returns (r: Result<Option<(Cluster, seq<Condition>)>, string>, ghost seen: State)
      requires Valid() && !me.Outsider? && NextCall(me, st) == ClusterCall(cid)
      modifies this
      ensures Valid()
      ensures CallMade(old(Now()), Now(), me, ClusterCall(cid), seen, Replied(r.Ok?), if r.Ok? then Read else Fail)
      ensures Undisturbed(First(old(script))) ==> r.Ok? && seen == old(st)
      ensures r.Ok? ==>
        r.value == if Found(seen, cid) then Some((Current(seen, cid), seen.clusters[cid].conditions)) else None
    {
      hide Next, IsRun, SamePoint, Act, Extends, Since, Called;
      ghost var start := Now();
      var turn := BeforeCall(me);
      seen := st;
      if !turn.answered {
        Finish(me, Fail, start, ClusterCall(cid), Lost);
        return Err("get cluster"), seen;
      }
      r := Ok(if Found(st, cid) then Some((Current(st, cid), st.clusters[cid].conditions)) else None);
      Finish(me, Read, start, ClusterCall(cid), Given);
    }

    method GetClusterStatuses(me: Process, cid: string) returns (r: Result<AdapterStatuses, string>, ghost seen: State)
      requires Valid() && !me.Outsider? && NextCall(me, st) == StatusesCall(cid)
      modifies this
      ensures Valid()
      ensures CallMade(old(Now()), Now(), me, StatusesCall(cid), seen, Replied(r.Ok?), if r.Ok? then Read else Fail)
      ensures Undisturbed(First(old(script))) ==> r.Ok? && seen == old(st)
      ensures r.Ok? ==> r.value == Rows(seen, cid)
    {
      hide Next, IsRun, SamePoint, Act, Extends, Since, Called;
      ghost var start := Now();
      var turn := BeforeCall(me);
      seen := st;
      if !turn.answered {
        Finish(me, Fail, start, StatusesCall(cid), Lost);
        return Err("get cluster statuses"), seen;
      }
      r := Ok(Rows(st, cid));
      Finish(me, Read, start, StatusesCall(cid), Given);
    }

    method GetNodePool(me: Process, key: PoolKey) returns (r: Result<Option<NodePool>, string>, ghost seen: State)
      requires Valid() && !me.Outsider? && NextCall(me, st) == PoolCall(key)
      modifies this
      ensures Valid()
      ensures CallMade(old(Now()), Now(), me, PoolCall(key), seen, Replied(r.Ok?), if r.Ok? then Read else Fail)
      ensures Undisturbed(First(old(script))) ==> r.Ok? && seen == old(st)
      ensures r.Ok? ==> r.value == if PoolFound(seen, key) then Some(CurrentPool(seen, key)) else None
    {
      hide Next, IsRun, SamePoint, Act, Extends, Since, Called;
      ghost var start := Now();
      var turn := BeforeCall(me);
      seen := st;
      if !turn.answered {
        Finish(me, Fail, start, PoolCall(key), Lost);
        return Err("get nodepool"), seen;
      }
      r := Ok(if PoolFound(st, key) then Some(CurrentPool(st, key)) else None);
      Finish(me, Read, start, PoolCall(key), Given);
    }

    method GetNodePoolStatuses(me: Process, key: PoolKey)
      returns (r: Result<AdapterStatuses, string>, ghost seen: State)
      requires Valid() && !me.Outsider? && NextCall(me, st) == PoolStatusesCall(key)
      modifies this
      ensures Valid()
      ensures CallMade(old(Now()), Now(), me, PoolStatusesCall(key), seen, Replied(r.Ok?), if r.Ok? then Read else Fail)
      ensures Undisturbed(First(old(script))) ==> r.Ok? && seen == old(st)
      ensures r.Ok? ==> r.value == PoolRows(seen, key)
    {
      hide Next, IsRun, SamePoint, Act, Extends, Since, Called;
      ghost var start := Now();
      var turn := BeforeCall(me);
      seen := st;
      if !turn.answered {
        Finish(me, Fail, start, PoolStatusesCall(key), Lost);
        return Err("get nodepool statuses"), seen;
      }
      r := Ok(PoolRows(st, key));
      Finish(me, Read, start, PoolStatusesCall(key), Given);
    }

    /** The selector's pick, or its error. */
    method Pick(me: Process) returns (r: Result<(string, string), string>, ghost seen: State)
      requires Valid() && !me.Outsider? && NextCall(me, st) == PickCall
      modifies this
      ensures r.Ok? ==>
        Valid()
        && CallMade(old(Now()), Now(), me, PickCall, seen, Picked(r.value.0, r.value.1), Select(r.value.0, r.value.1))
      ensures r.Err? ==> Valid() && CallMade(old(Now()), Now(), me, PickCall, seen, Lost, Fail)
      ensures Undisturbed(First(old(script))) ==>
        r == Ok((First(old(script)).mc, First(old(script)).domain)) && seen == old(st)
    {
      hide Next, IsRun, SamePoint, Act, Extends, Since, Called;
      ghost var start := Now();
      var turn := BeforeCall(me);
      seen := st;
      if !turn.answered {
        Finish(me, Fail, start, PickCall, Lost);
        return Err("select MC"), seen;
      }
      r := Ok((turn.mc, turn.domain));
      Finish(me, Select(turn.mc, turn.domain), start, PickCall, Picked(turn.mc, turn.domain));
    }

    /** One page of the release graph; it lists only what is published, each version with its one payload. */
    method GetGraph(me: Process, channel: string) returns (r: Result<seq<Node>, string>, ghost seen: State)
      requires Valid() && !me.Outsider? && NextCall(me, st) == GraphCall(channel)
      modifies this
      ensures r.Ok? ==>
        Valid() && CallMade(old(Now()), Now(), me, GraphCall(channel), seen, Page(r.value), Graph(r.value))
      ensures r.Err? ==> Valid() && CallMade(old(Now()), Now(), me, GraphCall(channel), seen, Lost, Fail)
      ensures r.Ok? ==> Consistent(seen, channel, r.value)
      ensures Undisturbed(First(old(script))) && Consistent(old(st), channel, First(old(script)).nodes) ==>
        r == Ok(First(old(script)).nodes) && seen == old(st)
    {
      hide Next, IsRun, SamePoint, Act, Extends, Since, Called;
      ghost var start := Now();
      var turn := BeforeCall(me);
      seen := st;
      if !turn.answered || !Consistent(st, channel, turn.nodes) {
        Finish(me, Fail, start, GraphCall(channel), Lost);
        return Err("cincinnati resolve"), seen;
      }
      r := Ok(turn.nodes);
      Finish(me, Graph(turn.nodes), start, GraphCall(channel), Page(turn.nodes));
    }

    /**
     * A write request already in flight: it may reach the store any number of times, each time with
     * the same body, and is answered only if it reached it. Success leaves `seen` the last state
     * before the answer.
     */
    method Send(me: Process, ghost call: Call) returns (ok: bool, ghost seen: State)
      requires Valid() && !me.Outsider? && InFlight(me, st) && NextCall(me, st) == call
      modifies this
      ensures Valid() && Extends(old(Now()), Now()) && Since(old(Now()), Now()) == [Made(call, seen, Replied(ok))]
      ensures script == Rest(old(script))
      ensures ok ==> Landed(me, old(st), seen) && st == Next(seen, Act(me, Return))
      ensures !ok ==> st == Next(seen, Act(me, Fail))
      ensures Undisturbed(First(old(script))) ==> ok && seen == Next(old(st), Act(me, Land))
    {
      hide Next, IsRun, SamePoint, Landed, InFlight, NextCall, Act, Extends, Since, Called;
      ghost var start := Now();
      var turn := TakeTurn();
      var attempts := turn.attempts;
      var landed := false;
      SamePointRefl(me, st);
      for i := 0 to |attempts|
        invariant Valid() && old(trace) <= trace && log == old(log) && script == Rest(old(script))
        invariant if landed then Landed(me, old(st), st) else SamePoint(me, old(st), st)
        invariant attempts == [Attempt([], true)] ==>
          if i == 0 then st == old(st) else landed && st == Next(old(st), Act(me, Land))
      {
        ghost var before := st;
        Others(me, attempts[i].others);
        PointMoves(me, old(st), before, st);
        if attempts[i].lands {
          LandsNow(me, trace, old(st), st);
          Advance(Act(me, Land));
          landed := true;
        }
      }
      seen := st;
      SeenLast(old(trace), trace);
      ok := landed && turn.answered;
      Finish(me, if ok then Return else Fail, start, call, Replied(ok));
    }

    /** A status PUT; the API client retries it with the same body. */
    method PutStatus(me: Process, payload: AdapterStatus) returns (ok: bool, ghost seen: State)
      requires Valid() && !me.Outsider? && InFlight(me, st) && NextCall(me, st) == PutCall(payload)
      modifies this
      ensures Valid() && Extends(old(Now()), Now())
      ensures Since(old(Now()), Now()) == [Made(PutCall(payload), seen, Replied(ok))]
      ensures script == Rest(old(script))
      ensures ok ==> Landed(me, old(st), seen) && st == Next(seen, Act(me, Return))
      ensures !ok ==> st == Next(seen, Act(me, Fail))
      ensures Undisturbed(First(old(script))) ==> ok && seen == Next(old(st), Act(me, Land))
    {
      hide Next, IsRun, SamePoint, Landed, InFlight, NextCall, Extends;
      ok, seen := Send(me, PutCall(payload));
    }

    /** The lookup that opens an apply: the generation stored, if there is a work. */
    method Lookup(me: Process, key: Key) returns (r: Result<Option<int>, string>, ghost seen: State)
      requires Valid() && !me.Outsider? && NextCall(me, st) == LookupCall(key)
      modifies this
      ensures Valid()
      ensures CallMade(old(Now()), Now(), me, LookupCall(key), seen, Replied(r.Ok?), if r.Ok? then Read else Fail)
      ensures Undisturbed(First(old(script))) ==> r.Ok? && seen == old(st)
      ensures r.Ok? ==> r.value == if key in seen.works then Some(Gen(seen.works[key].work)) else None
    {
      hide Next, IsRun, SamePoint, Act, GetGeneration, Extends, Since, Called;
      ghost var start := Now();
      var turn := BeforeCall(me);
      seen := st;
      if !turn.answered {
        Finish(me, Fail, start, LookupCall(key), Lost);
        return Err("get manifest work"), seen;
      }
      r := Ok(if key in st.works then Some(Gen(st.works[key].work)) else None);
      Finish(me, Read, start, LookupCall(key), Given);
    }

    /**
     * `ApplyManifestWork` as an adapter calls it: nothing is asked of the store for an invalid work;
     * otherwise the store is consulted once, and written exactly when that one answer calls for it.
     */
    method Apply(me: Process, consumer: string, work: ManifestWork) returns (r: Result<Operation, ApplyError>)
      requires Valid()
      requires WorkValid(work) ==> Applying(me, st, consumer, work)
      modifies this
      ensures Valid() && Extends(old(Now()), Now())
      ensures !WorkValid(work) ==> r.Err? && Now() == old(Now())
      ensures WorkValid(work) ==> ApplyCalls(Since(old(Now()), Now()), (consumer, work.name), work)
      ensures WorkValid(work) ==> (r.Ok? <==> AllAnswered(Since(old(Now()), Now())))
      ensures WorkValid(work) && r.Err? ==> Idle(me, st)
      ensures r.Ok? ==> AppliedBy(me, old(st), st)
      ensures WorkValid(work) ==> script == Rest(old(script)) || script == Rest(Rest(old(script)))
      ensures WorkValid(work) && Calm(old(script), 2, First(old(script))) ==>
        r.Ok? && st == AppliedCalmly(me, old(st), (consumer, work.name), work)
    {
      hide Now, Extends, Since, Calm, WorkValid, Applying, Idle, AppliedBy, AppliedCalmly, ApplyCalls, AllAnswered,
        IsRun;
      var checked := ValidateManifestWorkGeneration(work);
      if checked.Err? {
        Unchanged();
        return Err(Invalid(checked.error));
      }
      r := LookUpAndWrite(me, consumer, work);
    }

    lemma Unchanged()
      requires Valid()
      ensures Extends(Now(), Now())
    {
      ExtendsReflexive(Now());
    }

    /** The one lookup and the one write it calls for. */
    method LookUpAndWrite(me: Process, consumer: string, work: ManifestWork) returns (r: Result<Operation, ApplyError>)
      requires Valid() && Applying(me, st, consumer, work)
      modifies this
      ensures Valid() && Extends(old(Now()), Now())
      ensures ApplyCalls(Since(old(Now()), Now()), (consumer, work.name), work)
      ensures r.Ok? <==> AllAnswered(Since(old(Now()), Now()))
      ensures r.Err? ==> Idle(me, st)
      ensures r.Ok? ==> AppliedBy(me, old(st), st)
      ensures script == Rest(old(script)) || script == Rest(Rest(old(script)))
      ensures Calm(old(script), 2, First(old(script))) ==>
        r.Ok? && st == AppliedCalmly(me, old(st), (consumer, work.name), work)
    {
      hide Next, IsRun, SamePoint, Landed, InFlight, Applying, Idle, AppliedBy, WorkValid, Called, Extends, Since,
        GetGeneration, NextCall, Act, Calm, DecideWork, Writes;
      ghost var start, like := Now(), First(script);
      if Calm(script, 2, like) {
        CalmRest(script, 1, like);
        CalmRest(Rest(script), 0, like);
      }
      ApplierIsNotOutside(me, st, consumer, work);
      var key := (consumer, work.name);
      var existing, seen := Lookup(me, key);
      ghost var asked := Now();
      if existing.Err? {
        FailedIsIdle(me, seen);
        return Err(Backend(existing.error));
      }
      StillApplying(me, start.st, seen, consumer, work);
      var decision := CompareGenerations(Gen(work), existing.value.GetOr(0), existing.value.Some?);
      Decided(seen, key, work);
      LookedUp(me, seen, consumer, work, decision);
      if decision == Skip {
        AppliedFrom(me, start.st, seen, st);
        return Ok(decision);
      }
      var ok, sent := Write(me, key, decision, seen);
      ExtendsTransitive(start, asked, Now());
      if !ok {
        return Err(Backend("write manifest work"));
      }
      AppliedFrom(me, start.st, seen, st);
      return Ok(decision);
    }

    /** The write an apply has decided on, once the lookup was answered in `looked`. */
    method Write(me: Process, ghost key: Key, decision: Operation, ghost looked: State)
      returns (ok: bool, ghost sent: State)
      requires Valid() && !me.Outsider? && InFlight(me, st) && NextCall(me, st) == WriteCall(key, decision)
      requires Writes(me, looked, st, decision)
      modifies this
      ensures Valid() && Extends(old(Now()), Now()) && script == Rest(old(script))
      ensures Since(old(Now()), Now()) == [Made(WriteCall(key, decision), sent, Replied(ok))]
      ensures if ok then AppliedBy(me, looked, st) else Idle(me, st)
      ensures Undisturbed(First(old(script))) ==>
        ok && sent == Next(old(st), Act(me, Land)) && st == Next(sent, Act(me, Return))
    {
      hide Next, IsRun, SamePoint, Landed, InFlight, Writes, Idle, AppliedBy, Extends, Since, NextCall, Act,
        Undisturbed;
      ghost var asked := st;
      ok, sent := Send(me, WriteCall(key, decision));
      if ok { WriteAnswered(me, looked, asked, sent, decision); } else { FailedIsIdle(me, sent); }
    }

    method GetStatus(me: Process, key: Key) returns (r: Result<Option<ManifestWorkStatus>, string>, ghost seen: State)
      requires Valid() && !me.Outsider? && NextCall(me, st) == StatusCall(key)
      modifies this
      ensures Valid()
      ensures CallMade(old(Now()), Now(), me, StatusCall(key), seen, Replied(r.Ok?), if r.Ok? then Read else Fail)
      ensures Undisturbed(First(old(script))) ==> r.Ok? && seen == old(st)
      ensures r.Ok? ==> r.value == ReadStatus(seen, key)
    {
      hide Next, IsRun, SamePoint, Act, Extends, Since, Called;
      ghost var start := Now();
      var turn := BeforeCall(me);
      seen := st;
      if !turn.answered {
        Finish(me, Fail, start, StatusCall(key), Lost);
        return Err("get manifest work status"), seen;
      }
      if key in st.works {
        var status := MapStatus(st.works[key].status);
        r := Ok(Some(status));
      } else {
        r := Ok(None);
      }
      Finish(me, Read, start, StatusCall(key), Given);
    }
  }

  function Replied(ok: bool): Answer {
    if ok then Given else Lost
  }

  /** One lookup, and then the one write it calls for, unless the lookup is lost or calls for none. */
  ghost predicate ApplyCalls(made: seq<Made>, key: Key, work: ManifestWork) {
    |made| >= 1 && made[0].call == LookupCall(key)
    && if WritesNext(made[0], key, work) then
         |made| == 2 && made[1].call == WriteCall(key, DecideWork(made[0].seen, key, work))
       else |made| == 1
  }

  ghost predicate WritesNext(lookup: Made, key: Key, work: ManifestWork) {
    !lookup.answer.Lost? && DecideWork(lookup.seen, key, work) != Skip
  }

  /** How many calls an apply makes. */
  ghost function ApplyCount(made: seq<Made>, key: Key, work: ManifestWork): nat {
    if made != [] && WritesNext(made[0], key, work) then 2 else 1
  }

  /** The entry an adapter derives from a work's status. */
  function EntryOf(me: Process, generation: int, status: Option<ManifestWorkStatus>): AdapterStatus {
    if me.HcProcess? then HcEntry(generation, status) else NodePoolEntry(generation, status)
  }

  /**
   * The end of a loop that applies: the apply's calls, the status read and the PUT of what was read,
   * in this order and no further than the first lost one. The loop fails exactly if one is lost.
   */
  ghost predicate ApplyBehaves(me: Process, made: seq<Made>, key: Key, work: ManifestWork, generation: int,
                               requeue: nat,
                               r: Result<nat, string>) {
    var n := ApplyCount(made, key, work);
    && n <= |made| && ApplyCalls(made[..n], key, work)
    && if !AllAnswered(made[..n]) then |made| == n && r.Err?
       else if n == |made| || made[n].answer.Lost? then |made| == n + 1 && made[n].call == StatusCall(key) && r.Err?
       else
         && |made| == n + 2 && made[n].call == StatusCall(key)
         && made[n + 1].call == PutCall(EntryOf(me, generation, ReadStatus(made[n].seen, key)))
         && if made[n + 1].answer.Lost? then r.Err? else r == Ok(requeue)
  }

  lemma ApplyLost(me: Process, made: seq<Made>, key: Key, work: ManifestWork, generation: int, requeue: nat,
                  r: Result<nat, string>)
    requires ApplyCalls(made, key, work) && !AllAnswered(made) && r.Err?
    ensures ApplyBehaves(me, made, key, work, generation, requeue, r)
  {
    assert made[..|made|] == made;
  }

  lemma ApplyThenStatusLost(me: Process, made: seq<Made>, status: Made, key: Key, work: ManifestWork, generation: int,
                            requeue: nat, r: Result<nat, string>)
    requires ApplyCalls(made, key, work) && AllAnswered(made) && r.Err? && status.call == StatusCall(key)
    requires status.answer.Lost?
    ensures ApplyBehaves(me, made + [status], key, work, generation, requeue, r)
  {
    assert (made + [status])[..|made|] == made;
  }

  lemma ApplyThenPut(me: Process, made: seq<Made>, status: Made, put: Made, key: Key, work: ManifestWork,
                     generation: int,
                     requeue: nat, r: Result<nat, string>)
    requires ApplyCalls(made, key, work) && AllAnswered(made) && status.call == StatusCall(key) && !status.answer.Lost?
    requires put.call == PutCall(EntryOf(me, generation, ReadStatus(status.seen, key)))
    requires if put.answer.Lost? then r.Err? else r == Ok(requeue)
    ensures ApplyBehaves(me, made + [status] + [put], key, work, generation, requeue, r)
  {
    hide ReadStatus, EntryOf, DecideWork;
    assert (made + [status] + [put])[..|made|] == made;
  }

  /** Whether the loop fails is a matter of its calls alone. */
  lemma ApplyFails(me: Process, made: seq<Made>, key: Key, work: ManifestWork, generation: int, requeue: nat,
                   r: Result<nat, string>)
    requires ApplyBehaves(me, made, key, work, generation, requeue, r)
    ensures made != [] && (r.Err? <==> !AllAnswered(made)) && (r.Ok? ==> r.value == requeue)
  {
    hide ReadStatus, EntryOf, DecideWork;
    var n := ApplyCount(made, key, work);
    if !AllAnswered(made[..n]) {
      assert made[..n] == made;
    } else {
      forall i | 0 <= i < n ensures !made[i].answer.Lost? { assert made[..n][i] == made[i]; }
    }
  }

  /** The state after an apply nobody interferes with. */
  ghost function AppliedCalmly(me: Process, s: State, key: Key, work: ManifestWork): State {
    if me.Outsider? then s
    else
      var asked := Next(s, Act(me, Read));
      if DecideWork(s, key, work) == Skip then asked else Next(Next(asked, Act(me, Land)), Act(me, Return))
  }

  lemma SamePointRefl(me: Process, s: State)
    ensures SamePoint(me, s, s)
  {
  }

  lemma SamePointTrans(me: Process, s: State, t: State, u: State)
    requires SamePoint(me, s, t) && SamePoint(me, t, u)
    ensures SamePoint(me, s, u)
  {
  }

  /** The process has a write request out that has not reached the store yet. */
  ghost predicate InFlight(me: Process, s: State) {
    match me
    case Outsider => false
    case PlProcess(cid) => PlOf(s, cid).PlPut? && !PlOf(s, cid).landed
    case VrProcess(cid) => VrOf(s, cid).VrPut? && !VrOf(s, cid).landed
    case HcProcess(cid) => (HcOf(s, cid).HcWrite? || HcOf(s, cid).HcPut?) && !HcOf(s, cid).landed
    case NvrProcess(key) => NvrOf(s, key).NvrPut? && !NvrOf(s, key).landed
    case NpProcess(key) => (NpOf(s, key).NpWrite? || NpOf(s, key).NpPut?) && !NpOf(s, key).landed
  }

  /** The same request, now known to have reached the store. */
  ghost predicate Landed(me: Process, s: State, t: State) {
    match me
    case Outsider => false
    case PlProcess(cid) => PlOf(s, cid).PlPut? && PlOf(t, cid) == PlOf(s, cid).(landed := true)
    case VrProcess(cid) => VrOf(s, cid).VrPut? && VrOf(t, cid) == VrOf(s, cid).(landed := true)
    case HcProcess(cid) =>
      (HcOf(s, cid).HcWrite? || HcOf(s, cid).HcPut?) && HcOf(t, cid) == HcOf(s, cid).(landed := true)
    case NvrProcess(key) => NvrOf(s, key).NvrPut? && NvrOf(t, key) == NvrOf(s, key).(landed := true)
    case NpProcess(key) =>
      (NpOf(s, key).NpWrite? || NpOf(s, key).NpPut?) && NpOf(t, key) == NpOf(s, key).(landed := true)
  }

  lemma PointMoves(me: Process, s: State, t: State, u: State)
    requires SamePoint(me, t, u)
    ensures SamePoint(me, s, t) ==> SamePoint(me, s, u)
    ensures Landed(me, s, t) ==> Landed(me, s, u)
  {
  }

  lemma LandsNow(me: Process, trace: seq<State>, s: State, t: State)
    requires |trace| > 0 && IsRun(trace) && trace[|trace| - 1] == t && InFlight(me, s)
    requires (SamePoint(me, s, t) || Landed(me, s, t))
    ensures !me.Outsider? && Landed(me, s, Next(t, Act(me, Land)))
  {
    hide IsRun, Inv, PlNext, VrNext, HcNext, NvrNext, NpNext;
    RunKeeps(trace, |trace| - 1);
    match me {
      case PlProcess(cid) => PlLands(t, cid);
      case VrProcess(cid) => VrLands(t, cid);
      case HcProcess(cid) => HcLands(t, cid);
      case NvrProcess(key) => NvrLands(t, key);
      case NpProcess(key) => NpLands(t, key);
    }
  }

  lemma PlLands(t: State, cid: string)
    requires PlOf(t, cid).PlPut?
    ensures PlOf(PlNext(t, cid, Land), cid) == PlOf(t, cid).(landed := true)
  {
    hide PutRow, Found, Current, IsReconciled, Placement, PlacementReady, Rows;
  }

  lemma VrLands(t: State, cid: string)
    requires VrOf(t, cid).VrPut?
    ensures VrOf(VrNext(t, cid, Land), cid) == VrOf(t, cid).(landed := true)
  {
    hide PutRow, Found, Current, IsReconciled, VersionResolution, VersionReady, Rows, BuildChannel, Resolve, Consistent;
  }

  lemma HcLands(t: State, cid: string)
    requires Inv(t) && (HcOf(t, cid).HcWrite? || HcOf(t, cid).HcPut?)
    ensures HcOf(HcNext(t, cid, Land), cid) == HcOf(t, cid).(landed := true)
  {
    hide Inv, HcInv, RecordInv, PlInv, VrInv, HcTarget, PutRow, WriteWork;
    ClusterPart(t, cid);
    if HcOf(t, cid).HcWrite? {
      HcSteps.HcWriteTarget(t, cid);
    } else {
      HcSteps.HcTargetIs(t, cid, Land);
    }
  }

  lemma NvrLands(t: State, key: PoolKey)
    requires NvrOf(t, key).NvrPut?
    ensures NvrOf(NvrNext(t, key, Land), key) == NvrOf(t, key).(landed := true)
  {
    hide PutPoolRow, PoolFound, CurrentPool, NodePoolVR, VersionReady, PoolRows, BuildNodePoolChannel, Resolve,
      Consistent;
  }

  lemma NpLands(t: State, key: PoolKey)
    requires Inv(t) && (NpOf(t, key).NpWrite? || NpOf(t, key).NpPut?)
    ensures NpOf(NpNext(t, key, Land), key) == NpOf(t, key).(landed := true)
  {
    hide Inv, NpInv, PoolRecordInv, NvrInv, NpTarget, PutPoolRow, WriteWork;
    PoolPart(t, key);
    if NpOf(t, key).NpWrite? {
      NpSteps.NpWriteTarget(t, key);
    } else {
      NpPutTarget(t, key);
    }
  }

  lemma NpPutTarget(t: State, key: PoolKey)
    requires NpOf(t, key).NpPut?
    ensures NpTarget(t, key, Land) == NpOf(t, key).(landed := true)
  {
    hide NpGated, DecideWork, CanWrite, Found, Current, PoolFound, CurrentPool, Rows, NodePoolEntry, ReadStatus;
  }

  // ---- The program points of an apply ----

  ghost predicate Applying(me: Process, s: State, consumer: string, work: ManifestWork) {
    match me
    case HcProcess(cid) =>
      HcOf(s, cid).HcLookup? && HcOf(s, cid).p.managementCluster == consumer && HcOf(s, cid).work == work
    case NpProcess(key) =>
      NpOf(s, key).NpLookup? && NpOf(s, key).p.managementCluster == consumer && NpOf(s, key).work == work
    case _ => false
  }

  ghost predicate Idle(me: Process, s: State) {
    match me
    case Outsider => true
    case PlProcess(cid) => PlOf(s, cid) == PlIdle
    case VrProcess(cid) => VrOf(s, cid) == VrIdle
    case HcProcess(cid) => HcOf(s, cid) == HcIdle
    case NvrProcess(key) => NvrOf(s, key) == NvrIdle
    case NpProcess(key) => NpOf(s, key) == NpIdle
  }

  /** The process that was about to apply a work has applied it and will read its status next. */
  ghost predicate AppliedBy(me: Process, s: State, t: State) {
    match me
    case HcProcess(cid) =>
      HcOf(s, cid).HcLookup? && HcOf(t, cid) == HcReadBack(HcOf(s, cid).c, HcOf(s, cid).p, HcOf(s, cid).work)
    case NpProcess(key) =>
      var pc := NpOf(s, key);
      pc.NpLookup? && NpOf(t, key) == NpReadBack(pc.n, pc.c, pc.p, pc.work)
    case _ => false
  }

  lemma Decided(s: State, key: Key, work: ManifestWork)
    ensures DecideWork(s, key, work)
         == CompareGenerations(Gen(work), if key in s.works then Gen(s.works[key].work) else 0, key in s.works)
  {
  }

  lemma ApplierIsNotOutside(me: Process, s: State, consumer: string, work: ManifestWork)
    requires Applying(me, s, consumer, work)
    ensures !me.Outsider? && NextCall(me, s) == LookupCall((consumer, work.name))
  {
  }

  lemma StillApplying(me: Process, s: State, t: State, consumer: string, work: ManifestWork)
    requires Applying(me, s, consumer, work) && SamePoint(me, s, t)
    ensures Applying(me, t, consumer, work)
  {
  }

  lemma FailedIsIdle(me: Process, s: State)
    requires !me.Outsider?
    ensures Idle(me, Next(s, Act(me, Fail)))
  {
    hide PutRow, PutPoolRow, WriteWork, Found, Current, PoolFound, CurrentPool, IsReconciled, HcGated, NpGated,
      DecideWork, CanWrite, HcEntry, NodePoolEntry, ReadStatus, Rows, PoolRows, BuildChannel, BuildNodePoolChannel,
      Resolve, Consistent, Placement, VersionResolution, NodePoolVR;
  }

  /** Once the store has been consulted, the process either has what it wants or has the write in flight. */
  lemma LookedUp(me: Process, s: State, consumer: string, work: ManifestWork, op: Operation)
    requires Applying(me, s, consumer, work) && op == DecideWork(s, (consumer, work.name), work)
    ensures var t := Next(s, Act(me, Read)); if op == Skip then AppliedBy(me, s, t)
            else InFlight(me, t) && Writes(me, s, t, op) && NextCall(me, t) == WriteCall((consumer, work.name), op)
  {
    match me {
      case HcProcess(cid) => HcSteps.HcReadIs(s, cid);
      case NpProcess(key) => NpSteps.NpTargetIs(s, key, Read);
      case _ =>
    }
    hide PutRow, PutPoolRow, WriteWork, HcTarget, NpTarget, DecideWork;
  }

  ghost predicate Writes(me: Process, s: State, t: State, op: Operation) {
    match me
    case HcProcess(cid) =>
      var pc := HcOf(s, cid);
      pc.HcLookup? && HcOf(t, cid) == HcWrite(pc.c, pc.p, pc.work, op, false)
    case NpProcess(key) =>
      var pc := NpOf(s, key);
      pc.NpLookup? && NpOf(t, key) == NpWrite(pc.n, pc.c, pc.p, pc.work, op, false)
    case _ => false
  }

  lemma WriteAnswered(me: Process, s: State, asked: State, sent: State, op: Operation)
    requires Writes(me, s, asked, op) && Landed(me, asked, sent)
    ensures !me.Outsider? && AppliedBy(me, s, Next(sent, Act(me, Return)))
  {
    match me {
      case HcProcess(cid) => HcSteps.HcTargetIs(sent, cid, Return);
      case NpProcess(key) => NpSteps.NpTargetIs(sent, key, Return);
      case _ =>
    }
    hide PutRow, PutPoolRow, WriteWork, HcTarget, NpTarget;
  }

  lemma AppliedFrom(me: Process, s: State, t: State, u: State)
    requires SamePoint(me, s, t) && AppliedBy(me, t, u)
    ensures AppliedBy(me, s, u)
  {
  }
}
