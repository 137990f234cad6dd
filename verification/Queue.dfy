// The work queue as client-go promises it, one worker's loop, and many workers sharing a queue.
module Queue {
  import opened Wrappers

  // An item that is not a string is dropped by the worker.
  datatype Item = Id(id: string) | Alien(tag: int)

  // `dirty` needs processing, `processing` is with a worker, `items` is ready to be handed out,
  // `delayed` waits for its time.
  datatype QueueState = QueueState(items: seq<Item>, dirty: set<Item>, processing: set<Item>, delayed: set<Item>,
                                   down: bool)

  const EMPTY := QueueState([], {}, {}, {}, false)

  function AddTo(q: QueueState, item: Item): QueueState {
    if q.down || item in q.dirty then q
    else q.(dirty := q.dirty + {item}, items := if item in q.processing then q.items else q.items + [item])
  }

  function GetFrom(q: QueueState): QueueState
    requires q.items != []
  {
    q.(items := q.items[1..], dirty := q.dirty - {q.items[0]}, processing := q.processing + {q.items[0]})
  }

  function DoneWith(q: QueueState, item: Item): QueueState {
    q.(processing := q.processing - {item}, items := if item in q.dirty then q.items + [item] else q.items)
  }

  function Delay(q: QueueState, item: Item): QueueState {
    if q.down then q else q.(delayed := q.delayed + {item})
  }

  function Fire(q: QueueState, item: Item): QueueState {
    if item in q.delayed then AddTo(q.(delayed := q.delayed - {item}), item) else q
  }

  // ---- One worker ----

  datatype Outcome = Failed | Succeeded(requeueAfter: nat)

  datatype Op =
    | Got(item: Item)
    | AddedRateLimited(id: string)
    | AddedAfter(id: string, delay: nat)
    | Finished(item: Item)
    | SawShutdown

  // Between two operations of the worker others may add items, delays may run out, and the queue may be shut down.
  datatype Outside = Arrive(item: Item) | Expire(item: Item) | ShutDown

  function Happens(q: QueueState, e: Outside): QueueState {
    match e
    case Arrive(item) => AddTo(q, item)
    case Expire(item) => Fire(q, item)
    case ShutDown => q.(down := true)
  }

  class WorkQueue {
    var q: QueueState
    var ops: seq<Op>

    constructor ()
      ensures q == EMPTY && ops == []
    {
      q, ops := EMPTY, [];
    }

    /**
     * Blocks until an item is ready or the queue is shut down and drained; `events` is what happens outside
     * while it blocks.
     */
    method Get(events: seq<Outside>) returns (item: Option<Item>, used: nat)
      modifies this
      ensures used <= |events|
      ensures item.Some? ==>
        exists ready: QueueState :: ready.items != [] && item.value == ready.items[0] && q == GetFrom(ready)
      ensures item.None? ==> q.items == [] && q.down
      ensures ops == old(ops) + [if item.Some? then Got(item.value) else SawShutdown]
    {
      used := 0;
      while q.items == [] && !q.down
        invariant used <= |events| && ops == old(ops)
        decreases |events| - used, !q.down
      {
        // A script that ends stands for the shutdown that ends every worker.
        if used < |events| {
          q := Happens(q, events[used]);
          used := used + 1;
        } else {
          q := q.(down := true);
        }
      }
      if q.items == [] {
        ops := ops + [SawShutdown];
        return None, used;
      }
      item := Some(q.items[0]);
      q := GetFrom(q);
      ops := ops + [Got(item.value)];
    }

    method Done(item: Item)
      modifies this
      ensures q == DoneWith(old(q), item) && ops == old(ops) + [Finished(item)]
    {
      q := DoneWith(q, item);
      ops := ops + [Finished(item)];
    }

    method AddRateLimited(id: string)
      modifies this
      ensures q == Delay(old(q), Id(id)) && ops == old(ops) + [AddedRateLimited(id)]
    {
      q := Delay(q, Id(id));
      ops := ops + [AddedRateLimited(id)];
    }

    method AddAfter(id: string, delay: nat)
      modifies this
      ensures q == Delay(old(q), Id(id)) && ops == old(ops) + [AddedAfter(id, delay)]
    {
      q := Delay(q, Id(id));
      ops := ops + [AddedAfter(id, delay)];
    }
  }

  datatype Round = Round(item: Item, outcome: Outcome)

  /** What the worker does to the queue for one item, whatever the reconcile returned. */
  function Block(r: Round): seq<Op> {
    [Got(r.item)]
    + (match r.item
       case Alien(_) => []
       case Id(id) => (match r.outcome
                       case Failed => [AddedRateLimited(id)]
                       case Succeeded(after) => if after > 0 then [AddedAfter(id, after)] else []))
    + [Finished(r.item)]
  }

  function Blocks(rounds: seq<Round>): seq<Op> {
    if rounds == [] then [] else Blocks(rounds[..|rounds| - 1]) + Block(rounds[|rounds| - 1])
  }

  /**
   * One item, once its reconcile has returned. A failed id is put back with rate limiting, one that asked
   * to come back is put back with its delay, and unless the queue is down both then wait in it.
   */
  method Process(queue: WorkQueue, round: Round)
    modifies queue
    ensures queue.ops == old(queue.ops) + Block(round)[1..]
    ensures round.item.Alien? || round.outcome == Succeeded(0) ==> queue.q.delayed == old(queue.q.delayed)
    ensures round.item.Id? && round.outcome != Succeeded(0) && !old(queue.q.down) ==>
      queue.q.delayed == old(queue.q.delayed) + {round.item}
    ensures queue.q.down == old(queue.q.down) && round.item !in queue.q.processing
  {
    if round.item.Alien? {
      queue.Done(round.item);
      assert Block(round)[1..] == [Finished(round.item)];
      return;
    }
    // The reconcile runs here.
    var result := round.outcome;
    if result.Failed? {
      queue.AddRateLimited(round.item.id);
      queue.Done(round.item);
      assert Block(round)[1..] == [AddedRateLimited(round.item.id), Finished(round.item)];
      return;
    }
    if result.requeueAfter > 0 {
      queue.AddAfter(round.item.id, result.requeueAfter);
    }
    queue.Done(round.item);
    assert Block(round)[1..] ==
      (if result.requeueAfter > 0 then [AddedAfter(round.item.id, result.requeueAfter)] else []) +
        [Finished(round.item)];
  }

  /**
   * `runWorker`, up to the end of a finite script of outside events and reconcile outcomes: the
   * operations it performs are one block per item, and after the last one it sees the shutdown.
   */
  method RunWorker(queue: WorkQueue, events: seq<Outside>, outcomes: seq<Outcome>) returns (rounds: seq<Round>)
    modifies queue
    ensures |rounds| <= |outcomes|
    ensures forall i :: 0 <= i < |rounds| ==> rounds[i].outcome == outcomes[i]
    ensures queue.ops == old(queue.ops) + Blocks(rounds) || queue.ops == old(queue.ops) + Blocks(rounds) + [SawShutdown]
    ensures |rounds| < |outcomes| ==>
      queue.ops == old(queue.ops) + Blocks(rounds) + [SawShutdown] && queue.q.down && queue.q.items == []
  {
    rounds := [];
    var at := 0;
    while |rounds| < |outcomes|
      invariant 0 <= at <= |events| && |rounds| <= |outcomes|
      invariant forall i :: 0 <= i < |rounds| ==> rounds[i].outcome == outcomes[i]
      invariant queue.ops == old(queue.ops) + Blocks(rounds)
      decreases |outcomes| - |rounds|
    {
      var got, used := queue.Get(events[at..]);
      at := at + used;
      if got.None? {
        return;
      }
      var item := got.value;
      var round := Round(item, outcomes[|rounds|]);
      ghost var before := rounds;
      rounds := rounds + [round];
      assert rounds[..|rounds| - 1] == before;
      Process(queue, round);
      assert Block(round) == [Got(item)] + Block(round)[1..];
    }
  }

  // ---- What the operations are, without reading the worker ----

  /** How often an operation occurs. */
  function Times(ops: seq<Op>, op: Op): nat {
    if ops == [] then 0 else (if ops[0] == op then 1 else 0) + Times(ops[1..], op)
  }

  /** How many rounds were with this item and had this outcome. */
  function Ended(rounds: seq<Round>, item: Item, outcome: Outcome): nat {
    if rounds == [] then 0
    else Ended(rounds[..|rounds| - 1], item, outcome) + if rounds[|rounds| - 1] == Round(item, outcome) then 1 else 0
  }

  lemma {:induction false} TimesAdd(a: seq<Op>, b: seq<Op>, op: Op)
    ensures Times(a + b, op) == Times(a, op) + Times(b, op)
  {
    if a == [] {
      assert a + b == b;
    } else {
      TimesAdd(a[1..], b, op);
      assert (a + b)[1..] == a[1..] + b;
    }
  }

  lemma TimesOfTwo(a: Op, b: Op, op: Op)
    ensures Times([a, b], op) == (if a == op then 1 else 0) + if b == op then 1 else 0
  {
    assert Times([b], op) == if b == op then 1 else 0 by { assert [b][1..] == []; }
    assert [a, b][1..] == [b];
  }

  lemma BlockTimes(r: Round, op: Op)
    ensures Times(Block(r), op) ==
      (if op == Got(r.item) then 1 else 0) + (if op == Finished(r.item) then 1 else 0)
      + if r.item.Id? && r.outcome == Failed then if op == AddedRateLimited(r.item.id) then 1 else 0
        else if r.item.Id? && r.outcome.requeueAfter > 0 then
          if op == AddedAfter(r.item.id, r.outcome.requeueAfter) then 1 else 0
        else 0
  {
    var got, done := Got(r.item), Finished(r.item);
    TimesOfTwo(got, done, op);
    if r.item.Id? && r.outcome != Succeeded(0) {
      var back := if r.outcome == Failed then AddedRateLimited(r.item.id)
        else AddedAfter(r.item.id, r.outcome.requeueAfter);
      assert Block(r) == [got] + [back, done];
      TimesAdd([got], [back, done], op);
      TimesOfTwo(back, done, op);
      assert [got][1..] == [];
    } else {
      assert Block(r) == [got, done];
    }
  }

  /**
   * An id is put back with rate limiting exactly as often as its reconcile failed, and with a delay exactly
   * as often as it asked for that delay, a positive one; nothing else is put back.
   */
  lemma {:induction false} RequeuesMatchOutcomes(rounds: seq<Round>, id: string, delay: nat)
    ensures Times(Blocks(rounds), AddedRateLimited(id)) == Ended(rounds, Id(id), Failed)
    ensures Times(Blocks(rounds), AddedAfter(id, delay)) == if delay > 0 then Ended(rounds, Id(id), Succeeded(delay))
      else 0
  {
    if rounds != [] {
      var front, last := rounds[..|rounds| - 1], rounds[|rounds| - 1];
      RequeuesMatchOutcomes(front, id, delay);
      TimesAdd(Blocks(front), Block(last), AddedRateLimited(id));
      TimesAdd(Blocks(front), Block(last), AddedAfter(id, delay));
      BlockTimes(last, AddedRateLimited(id));
      BlockTimes(last, AddedAfter(id, delay));
    }
  }

  /**
   * The operations of a round stand together: the Get of its item, the one requeue its outcome calls for,
   * and the Done of the item.
   */
  lemma {:induction false} RoundStands(rounds: seq<Round>, i: nat) returns (before: seq<Op>, after: seq<Op>)
    requires i < |rounds|
    ensures var item, outcome := rounds[i].item, rounds[i].outcome;
            Blocks(rounds) ==
              before
              + (if item.Id? && outcome == Failed then [Got(item), AddedRateLimited(item.id), Finished(item)]
                 else if item.Id? && outcome.requeueAfter > 0 then
                   [Got(item), AddedAfter(item.id, outcome.requeueAfter), Finished(item)]
                 else [Got(item), Finished(item)])
              + after
  {
    var front, last := rounds[..|rounds| - 1], rounds[|rounds| - 1];
    if i == |rounds| - 1 {
      before, after := Blocks(front), [];
    } else {
      before, after := RoundStands(front, i);
      after := after + Block(last);
    }
  }

  function Gets(ops: seq<Op>, item: Item): nat {
    if ops == [] then 0 else (if ops[0] == Got(item) then 1 else 0) + Gets(ops[1..], item)
  }

  function Dones(ops: seq<Op>, item: Item): nat {
    if ops == [] then 0 else (if ops[0] == Finished(item) then 1 else 0) + Dones(ops[1..], item)
  }

  lemma {:induction false} CountsAdd(a: seq<Op>, b: seq<Op>, item: Item)
    ensures Gets(a + b, item) == Gets(a, item) + Gets(b, item) && Dones(a + b, item) == Dones(a, item) + Dones(b, item)
  {
    if a == [] {
      assert a + b == b;
    } else {
      CountsAdd(a[1..], b, item);
      assert (a + b)[1..] == a[1..] + b;
    }
  }

  /** Over all paths through the loop, every Get of an item is matched by exactly one Done of it. */
  lemma {:induction false} EveryGetIsDone(rounds: seq<Round>, item: Item)
    ensures Gets(Blocks(rounds), item) == Dones(Blocks(rounds), item)
  {
    if rounds != [] {
      var front, last := rounds[..|rounds| - 1], rounds[|rounds| - 1];
      EveryGetIsDone(front, item);
      CountsAdd(Blocks(front), Block(last), item);
      BlockCounts(last, item);
    }
  }

  lemma BlockCounts(r: Round, item: Item)
    ensures Gets(Block(r), item) == Dones(Block(r), item) == if item == r.item then 1 else 0
  {
    var middle := Block(r)[1..|Block(r)| - 1];
    assert Block(r) == [Got(r.item)] + middle + [Finished(r.item)];
    CountsAdd([Got(r.item)] + middle, [Finished(r.item)], item);
    CountsAdd([Got(r.item)], middle, item);
    if |middle| == 1 { assert middle == [middle[0]] && middle[1..] == []; }
    assert [Got(r.item)][1..] == [] && [Finished(r.item)][1..] == [];
  }

  // ---- Many workers ----

  datatype Worker =
    | Idle
    | Reconciling(item: Item)
    | Requeuing(item: Item, outcome: Outcome)
    | Finishing(item: Item, outcome: Outcome)
    | Exited

  datatype Pool = Pool(q: QueueState, workers: seq<Worker>)

  // Outside events, and one queue call or one returning reconcile of a worker.
  datatype Event =
    | Happening(e: Outside)
    | TakeItem(w: nat)
    | ReconcileReturns(w: nat, outcome: Outcome)
    | Requeue(w: nat)
    | Finish(w: nat)

  function Busy(worker: Worker): Option<Item> {
    match worker
    case Idle => None
    case Exited => None
    case Reconciling(item) => Some(item)
    case Requeuing(item, _) => Some(item)
    case Finishing(item, _) => Some(item)
  }

  function Apply(s: Pool, e: Event): Pool {
    match e
    case Happening(o) => s.(q := Happens(s.q, o))
    case TakeItem(w) =>
      if w >= |s.workers| || s.workers[w] != Idle then s
      else if s.q.items != [] then
        var item := s.q.items[0];
        Pool(GetFrom(s.q), s.workers[w := if item.Id? then Reconciling(item) else Finishing(item, Succeeded(0))])
      else if s.q.down then s.(workers := s.workers[w := Exited])
      else s
    case ReconcileReturns(w, outcome) =>
      if w < |s.workers| && s.workers[w].Reconciling? then
        var item := s.workers[w].item;
        s.(workers :=
          s.workers[w := if outcome == Succeeded(0) then Finishing(item, outcome) else Requeuing(item, outcome)])
      else s
    case Requeue(w) =>
      if w < |s.workers| && s.workers[w].Requeuing? then
        Pool(Delay(s.q, s.workers[w].item), s.workers[w := Finishing(s.workers[w].item, s.workers[w].outcome)])
      else s
    case Finish(w) =>
      if w < |s.workers| && s.workers[w].Finishing? then
        Pool(DoneWith(s.q, s.workers[w].item), s.workers[w := Idle])
      else s
  }

  ghost predicate QueueInv(q: QueueState) {
    (forall i, j :: 0 <= i < j < |q.items| ==> q.items[i] != q.items[j])
    && forall x :: x in q.items <==> x in q.dirty && x !in q.processing
  }

  ghost predicate WorkersInv(s: Pool) {
    (forall x :: x in s.q.processing <==> exists w :: 0 <= w < |s.workers| && Busy(s.workers[w]) == Some(x))
    && forall v, w :: 0 <= v < w < |s.workers| && Busy(s.workers[v]).Some? ==> Busy(s.workers[v]) != Busy(s.workers[w])
  }

  ghost predicate PoolInv(s: Pool) {
    QueueInv(s.q) && WorkersInv(s)
  }

  lemma AddKeeps(q: QueueState, item: Item)
    requires QueueInv(q)
    ensures QueueInv(AddTo(q, item)) && AddTo(q, item).processing == q.processing
  {
  }

  lemma GetKeeps(q: QueueState)
    requires QueueInv(q) && q.items != []
    ensures QueueInv(GetFrom(q)) && q.items[0] !in q.processing
  {
    var t := GetFrom(q);
    assert q.items[0] in q.items;
    forall x ensures x in t.items <==> x in q.items && x != q.items[0] {
      if x in q.items {
        var i :| 0 <= i < |q.items| && q.items[i] == x;
        if i > 0 { assert t.items[i - 1] == x; }
      }
      if x in t.items {
        var i :| 0 <= i < |t.items| && t.items[i] == x;
        assert q.items[i + 1] == x;
      }
    }
  }

  lemma DoneKeeps(q: QueueState, item: Item)
    requires QueueInv(q) && item in q.processing
    ensures QueueInv(DoneWith(q, item))
  {
  }

  lemma ApplyKeeps(s: Pool, e: Event)
    requires PoolInv(s)
    ensures PoolInv(Apply(s, e)) && |Apply(s, e).workers| == |s.workers|
  {
    hide QueueInv;
    match e {
      case Happening(o) => HappensKeeps(s.q, o);
      case TakeItem(w) => if w < |s.workers| && s.workers[w] == Idle { TakeKeeps(s, w); }
      case ReconcileReturns(w, outcome) => SameHolders(s, e);
      case Requeue(w) =>
        SameHolders(s, e);
        if w < |s.workers| && s.workers[w].Requeuing? { DelayKeeps(s.q, s.workers[w].item); }
      case Finish(w) => if w < |s.workers| && s.workers[w].Finishing? { FinishKeeps(s, w); }
    }
  }

  lemma DelayKeeps(q: QueueState, item: Item)
    requires QueueInv(q)
    ensures QueueInv(Delay(q, item))
  {
  }

  lemma HappensKeeps(q: QueueState, o: Outside)
    requires QueueInv(q)
    ensures QueueInv(Happens(q, o)) && Happens(q, o).processing == q.processing
  {
    match o {
      case Arrive(item) => AddKeeps(q, item);
      case Expire(item) => AddKeeps(q.(delayed := q.delayed - {item}), item);
      case ShutDown =>
    }
  }

  lemma SameHolders(s: Pool, e: Event)
    requires WorkersInv(s) && (e.ReconcileReturns? || e.Requeue?)
    ensures WorkersInv(Apply(s, e))
  {
    var t := Apply(s, e);
    assert |t.workers| == |s.workers| && forall w :: 0 <= w < |s.workers| ==> Busy(t.workers[w]) == Busy(s.workers[w]);
    forall x ensures x in t.q.processing <==> exists w :: 0 <= w < |t.workers| && Busy(t.workers[w]) == Some(x) {
      if x in t.q.processing {
        var w :| 0 <= w < |s.workers| && Busy(s.workers[w]) == Some(x);
        assert Busy(t.workers[w]) == Some(x);
      }
    }
  }

  lemma TakeKeeps(s: Pool, w: nat)
    requires PoolInv(s) && w < |s.workers| && s.workers[w] == Idle
    ensures PoolInv(Apply(s, TakeItem(w)))
  {
    var t := Apply(s, TakeItem(w));
    if s.q.items != [] { GetKeeps(s.q); }
    forall x ensures x in t.q.processing <==> exists v :: 0 <= v < |t.workers| && Busy(t.workers[v]) == Some(x) {
      if x in s.q.processing {
        var v :| 0 <= v < |s.workers| && Busy(s.workers[v]) == Some(x);
        assert Busy(t.workers[v]) == Some(x);
      }
      assert s.q.items != [] ==> Busy(t.workers[w]) == Some(s.q.items[0]);
    }
  }

  lemma FinishKeeps(s: Pool, w: nat)
    requires PoolInv(s) && w < |s.workers| && s.workers[w].Finishing?
    ensures PoolInv(Apply(s, Finish(w)))
  {
    var t, item := Apply(s, Finish(w)), s.workers[w].item;
    assert Busy(s.workers[w]) == Some(item);
    DoneKeeps(s.q, item);
    forall x ensures x in t.q.processing <==> exists v :: 0 <= v < |t.workers| && Busy(t.workers[v]) == Some(x) {
      if x in t.q.processing {
        var v :| 0 <= v < |s.workers| && Busy(s.workers[v]) == Some(x);
        assert Busy(t.workers[v]) == Some(x);
      }
    }
  }

  function Started(workers: nat): Pool {
    Pool(EMPTY, seq(workers, i => Idle))
  }

  /** The state after the first `i` events of a run of `n` workers on an empty queue. */
  function At(n: nat, run: seq<Event>, i: nat): Pool
    requires i <= |run|
  {
    if i == 0 then Started(n) else Apply(At(n, run, i - 1), run[i - 1])
  }

  lemma {:induction false} RunInv(n: nat, run: seq<Event>, i: nat)
    requires i <= |run|
    ensures PoolInv(At(n, run, i)) && |At(n, run, i).workers| == n
  {
    if i > 0 {
      RunInv(n, run, i - 1);
      ApplyKeeps(At(n, run, i - 1), run[i - 1]);
    }
  }

  /** In no run do two workers ever hold the same item. */
  lemma NoTwoWorkers(n: nat, run: seq<Event>, i: nat, v: nat, w: nat)
    requires i <= |run| && v < w < n
    ensures var s := At(n, run, i);
            |s.workers| == n && (Busy(s.workers[v]).Some? ==> Busy(s.workers[v]) != Busy(s.workers[w]))
  {
    RunInv(n, run, i);
  }

  // ---- Each of the many runs the one worker's loop ----

  /** The queue operation, or the end, that an event is for worker `w`. */
  ghost function Doing(s: Pool, e: Event, w: nat): seq<Op>
    requires w < |s.workers|
  {
    match (e, s.workers[w])
    case (TakeItem(v), Idle) =>
      if v != w then [] else if s.q.items != [] then [Got(s.q.items[0])] else if s.q.down then [SawShutdown] else []
    case (Requeue(v), Requeuing(Id(id), Failed)) => if v == w then [AddedRateLimited(id)] else []
    case (Requeue(v), Requeuing(Id(id), Succeeded(delay))) => if v == w then [AddedAfter(id, delay)] else []
    case (Finish(v), Finishing(item, _)) => if v == w then [Finished(item)] else []
    case _ => []
  }

  /** What worker `w` has done to the queue by the first `i` events. */
  ghost function Performed(n: nat, run: seq<Event>, i: nat, w: nat): seq<Op>
    requires i <= |run| && w < n
  {
    if i == 0 then []
    else
      RunInv(n, run, i - 1);
      Performed(n, run, i - 1, w) + Doing(At(n, run, i - 1), run[i - 1], w)
  }

  /** What its reconciles have returned by then. */
  ghost function Returned(n: nat, run: seq<Event>, i: nat, w: nat): seq<Outcome>
    requires i <= |run| && w < n
  {
    if i == 0 then []
    else
      RunInv(n, run, i - 1);
      Returned(n, run, i - 1, w) + Returning(At(n, run, i - 1), run[i - 1], w)
  }

  /** The part of a block that is behind a worker. */
  ghost function Begun(worker: Worker): seq<Op> {
    match worker
    case Idle => []
    case Reconciling(item) => [Got(item)]
    case Requeuing(item, _) => [Got(item)]
    case Finishing(item, outcome) => var b := Block(Round(item, outcome)); b[..|b| - 1]
    case Exited => [SawShutdown]
  }

  /** The outcomes of the rounds in which something was reconciled. */
  ghost function Outcomes(rounds: seq<Round>): seq<Outcome> {
    if rounds == [] then []
    else
      var last := rounds[|rounds| - 1];
      Outcomes(rounds[..|rounds| - 1]) + if last.item.Id? then [last.outcome] else []
  }

  ghost function Held(worker: Worker): seq<Outcome> {
    if (worker.Requeuing? || worker.Finishing?) && worker.item.Id? then [worker.outcome] else []
  }

  /** Only ids are reconciled, only an outcome that asks for it leads to a requeue, only a shutdown ends a worker. */
  ghost predicate Follows(s: Pool, w: nat)
    requires w < |s.workers|
  {
    var worker := s.workers[w];
    && (worker.Reconciling? ==> worker.item.Id?)
    && (worker.Requeuing? ==> worker.item.Id? && worker.outcome != Succeeded(0))
    && (worker.Exited? ==> s.q.down)
  }

  lemma BlockIs(item: Item, outcome: Outcome)
    ensures Block(Round(item, outcome)) == Begun(Finishing(item, outcome)) + [Finished(item)]
    ensures item.Alien? || outcome == Succeeded(0) ==> Begun(Finishing(item, outcome)) == [Got(item)]
    ensures item.Id? && outcome == Failed ==>
      Begun(Finishing(item, outcome)) == [Got(item)] + [AddedRateLimited(item.id)]
    ensures item.Id? && outcome.Succeeded? && outcome.requeueAfter > 0 ==>
      Begun(Finishing(item, outcome)) == [Got(item)] + [AddedAfter(item.id, outcome.requeueAfter)]
  {
    var b := Block(Round(item, outcome));
    assert b == b[..|b| - 1] + [Finished(item)];
  }

  ghost function Returning(s: Pool, e: Event, w: nat): seq<Outcome>
    requires w < |s.workers|
  {
    if e.ReconcileReturns? && e.w == w && s.workers[w].Reconciling? then [e.outcome] else []
  }

  /** A worker whose round ends is idle again, and any other has one more operation of its round behind it. */
  ghost predicate Advances(s: Pool, e: Event, w: nat)
    requires w < |s.workers|
  {
    var t := Apply(s, e);
    && w < |t.workers| && Follows(t, w)
    && if e == Finish(w) && s.workers[w].Finishing? then
         && t.workers[w] == Idle && Returning(s, e, w) == []
         && Begun(s.workers[w]) + Doing(s, e, w) == Block(Round(s.workers[w].item, s.workers[w].outcome))
       else
         && Begun(t.workers[w]) == Begun(s.workers[w]) + Doing(s, e, w)
         && Held(t.workers[w]) == Held(s.workers[w]) + Returning(s, e, w)
  }

  lemma OthersAdvance(s: Pool, e: Event, w: nat)
    requires w < |s.workers| && Follows(s, w) && (e.Happening? || e.w != w)
    ensures Advances(s, e, w)
  {
    hide Begun, Held, Happens, GetFrom, DoneWith, Delay;
    StaysUp(s, e);
    assert Apply(s, e).workers[w] == s.workers[w] && Doing(s, e, w) == [] && Returning(s, e, w) == [];
    assert Begun(s.workers[w]) + [] == Begun(s.workers[w]) && Held(s.workers[w]) + [] == Held(s.workers[w]);
  }

  lemma TakeAdvances(s: Pool, w: nat)
    requires w < |s.workers| && Follows(s, w)
    ensures Advances(s, TakeItem(w), w)
  {
    hide Block, GetFrom;
    StaysUp(s, TakeItem(w));
    if s.workers[w] == Idle && s.q.items != [] {
      BlockIs(s.q.items[0], Succeeded(0));
    }
  }

  lemma ReturnAdvances(s: Pool, w: nat, outcome: Outcome)
    requires w < |s.workers| && Follows(s, w)
    ensures Advances(s, ReconcileReturns(w, outcome), w)
  {
    hide Block;
    if s.workers[w].Reconciling? {
      BlockIs(s.workers[w].item, outcome);
    }
  }

  lemma RequeueAdvances(s: Pool, w: nat)
    requires w < |s.workers| && Follows(s, w)
    ensures Advances(s, Requeue(w), w)
  {
    hide Block, Delay;
    StaysUp(s, Requeue(w));
    if s.workers[w].Requeuing? {
      BlockIs(s.workers[w].item, s.workers[w].outcome);
    }
  }

  lemma FinishAdvances(s: Pool, w: nat)
    requires w < |s.workers| && Follows(s, w)
    ensures Advances(s, Finish(w), w)
  {
    hide Block, DoneWith;
    StaysUp(s, Finish(w));
    if s.workers[w].Finishing? {
      BlockIs(s.workers[w].item, s.workers[w].outcome);
    }
  }

  lemma StepAdvances(s: Pool, e: Event, w: nat)
    requires w < |s.workers| && Follows(s, w)
    ensures Advances(s, e, w)
  {
    hide Advances, Follows;
    if e.Happening? || e.w != w {
      OthersAdvance(s, e, w);
    } else {
      match e
      case TakeItem(_) => TakeAdvances(s, w);
      case ReconcileReturns(_, outcome) => ReturnAdvances(s, w, outcome);
      case Requeue(_) => RequeueAdvances(s, w);
      case Finish(_) => FinishAdvances(s, w);
    }
  }

  /**
   * In every run every worker does exactly what the one worker's loop does: blocks, one per item, each with
   * the outcome its reconcile returned, and the part of a block it is in.
   */
  lemma {:induction false} WorkerRunsBlocks(n: nat, run: seq<Event>, i: nat, w: nat) returns (rounds: seq<Round>)
    requires i <= |run| && w < n
    ensures |At(n, run, i).workers| == n && Follows(At(n, run, i), w)
    ensures Performed(n, run, i, w) == Blocks(rounds) + Begun(At(n, run, i).workers[w])
    ensures Returned(n, run, i, w) == Outcomes(rounds) + Held(At(n, run, i).workers[w])
  {
    hide Apply, Doing, Block, Begun, Held, Follows, Blocks, Outcomes, PoolInv;
    if i == 0 {
      StartFollows(n, w);
      return [];
    }
    RunInv(n, run, i - 1);
    RunInv(n, run, i);
    var s, e := At(n, run, i - 1), run[i - 1];
    rounds := WorkerRunsBlocks(n, run, i - 1, w);
    StepAdvances(s, e, w);
    var worker, done := s.workers[w], Doing(s, e, w);
    assert (Blocks(rounds) + Begun(worker)) + done == Blocks(rounds) + (Begun(worker) + done);
    if e == Finish(w) && worker.Finishing? {
      RoundEnds(rounds, worker);
      rounds := rounds + [Round(worker.item, worker.outcome)];
    }
  }

  lemma StartFollows(n: nat, w: nat)
    requires w < n
    ensures Follows(Started(n), w) && Blocks([]) == [] && Outcomes([]) == []
    ensures Begun(Started(n).workers[w]) == [] && Held(Started(n).workers[w]) == []
  {
  }

  lemma RoundEnds(rounds: seq<Round>, worker: Worker)
    requires worker.Finishing?
    ensures var more := rounds + [Round(worker.item, worker.outcome)];
            && Blocks(more) + Begun(Idle) == Blocks(rounds) + Block(Round(worker.item, worker.outcome))
            && Outcomes(more) + Held(Idle) == Outcomes(rounds) + Held(worker)
  {
    hide Block;
    assert (rounds + [Round(worker.item, worker.outcome)])[..|rounds|] == rounds;
  }

  /** The `l`-th event hands the item to a worker. */
  ghost predicate Starts(n: nat, run: seq<Event>, l: nat, item: Item)
    requires l < |run|
  {
    var s := At(n, run, l);
    run[l].TakeItem? && run[l].w < |s.workers| && s.workers[run[l].w] == Idle && s.q.items != [] && s.q.items[0] == item
  }

  lemma DirtyStays(s: Pool, e: Event, item: Item)
    requires item in s.q.dirty
    requires !(e.TakeItem? && e.w < |s.workers| && s.workers[e.w] == Idle && s.q.items != [] && s.q.items[0] == item)
    ensures item in Apply(s, e).q.dirty
  {
  }

  /**
   * No lost wake-up: after an Add before shutdown the item stays dirty until a reconcile of it starts
   * after that Add; while dirty it is queued, or it is with a worker whose Done will queue it.
   */
  lemma {:induction false} NoLostWakeUp(n: nat, run: seq<Event>, i: nat, j: nat, item: Item)
    requires i < j <= |run| && run[i] == Happening(Arrive(item)) && !At(n, run, i).q.down
    ensures var s := At(n, run, j);
            (exists l :: i < l < j && Starts(n, run, l, item))
            || (item in s.q.dirty
                && if item in s.q.processing then item in DoneWith(s.q, item).items else item in s.q.items)
    decreases j
  {
    hide PoolInv, DoneWith, GetFrom, Delay, Fire;
    RunInv(n, run, j);
    if j == i + 1 {
      assert item in At(n, run, j).q.dirty;
    } else {
      NoLostWakeUp(n, run, i, j - 1, item);
      if !(exists l :: i < l < j - 1 && Starts(n, run, l, item)) && !Starts(n, run, j - 1, item) {
        DirtyStays(At(n, run, j - 1), run[j - 1], item);
      }
    }
    DirtyIsQueued(At(n, run, j), item);
  }

  lemma DirtyIsQueued(s: Pool, item: Item)
    requires PoolInv(s)
    ensures item in s.q.dirty ==>
      if item in s.q.processing then item in DoneWith(s.q, item).items else item in s.q.items
  {
  }

  /**
   * No lost retry: an item put back before shutdown waits for its time or needs processing, until a
   * reconcile of it starts after that; a delay that runs out before shutdown leaves it to be processed.
   */
  lemma {:induction false} NoLostRetry(n: nat, run: seq<Event>, i: nat, j: nat, item: Item)
    requires i < j <= |run| && run[i].Requeue? && !At(n, run, j).q.down
    requires var s, w := At(n, run, i), run[i].w;
             w < |s.workers| && s.workers[w].Requeuing? && s.workers[w].item == item
    ensures var s := At(n, run, j);
            (exists l :: i < l < j && Starts(n, run, l, item)) || item in s.q.delayed || item in s.q.dirty
    decreases j
  {
    RunInv(n, run, i);
    StaysUp(At(n, run, j - 1), run[j - 1]);
    if j > i + 1 {
      NoLostRetry(n, run, i, j - 1, item);
      if !(exists l :: i < l < j - 1 && Starts(n, run, l, item)) && !Starts(n, run, j - 1, item) {
        WaitsOn(At(n, run, j - 1), run[j - 1], item);
      }
    }
  }

  lemma StaysUp(s: Pool, e: Event)
    ensures s.q.down ==> Apply(s, e).q.down
  {
  }

  lemma WaitsOn(s: Pool, e: Event, item: Item)
    requires item in s.q.delayed || item in s.q.dirty
    requires !s.q.down
    requires !(e.TakeItem? && e.w < |s.workers| && s.workers[e.w] == Idle && s.q.items != [] && s.q.items[0] == item)
    ensures item in Apply(s, e).q.delayed || item in Apply(s, e).q.dirty
    ensures e == Happening(Expire(item)) ==> item in Apply(s, e).q.dirty
  {
  }

  /** How many items are handed out by the events from `i` up to `j`. */
  ghost function Taken(n: nat, run: seq<Event>, i: nat, j: nat): nat
    requires i <= j <= |run|
    decreases j - i
  {
    if i == j then 0
    else Taken(n, run, i, j - 1) + if Hands(At(n, run, j - 1), run[j - 1]) then 1 else 0
  }

  predicate Hands(s: Pool, e: Event) {
    e.TakeItem? && e.w < |s.workers| && s.workers[e.w] == Idle && s.q.items != []
  }

  ghost predicate WasHanded(n: nat, run: seq<Event>, i: nat, j: nat, item: Item)
    requires j <= |run|
  {
    exists l :: i <= l < j && Starts(n, run, l, item)
  }

  predicate InLine(s: Pool, p: nat, item: Item) {
    p < |s.q.items| && s.q.items[p] == item
  }

  lemma HandedStays(n: nat, run: seq<Event>, i: nat, j: nat, item: Item)
    requires 0 < j <= |run| && WasHanded(n, run, i, j - 1, item)
    ensures WasHanded(n, run, i, j, item)
  {
    hide Starts;
  }

  lemma HandedNow(n: nat, run: seq<Event>, i: nat, j: nat, item: Item)
    requires i < j <= |run| && Hands(At(n, run, j - 1), run[j - 1]) && InLine(At(n, run, j - 1), 0, item)
    ensures WasHanded(n, run, i, j, item)
  {
    assert Starts(n, run, j - 1, item) by { HandsFirst(n, run, j - 1); }
    hide Starts;
  }

  /** First in, first out: an item at position `p` is handed out by the next `p + 1` items handed out. */
  lemma {:induction false} HandedOutInTurn(n: nat, run: seq<Event>, i: nat, j: nat, p: nat, item: Item)
    requires i <= j <= |run| && InLine(At(n, run, i), p, item)
    ensures var taken := Taken(n, run, i, j);
            if taken > p then WasHanded(n, run, i, j, item) else InLine(At(n, run, j), p - taken, item)
    decreases j - i
  {
    hide Apply, Starts, Hands, At, WasHanded, InLine;
    if i < j {
      HandedOutInTurn(n, run, i, j - 1, p, item);
      var s, e := At(n, run, j - 1), run[j - 1];
      AtNext(n, run, j);
      var taken := Taken(n, run, i, j - 1);
      if taken > p {
        HandedStays(n, run, i, j, item);
      } else {
        PositionFalls(s, e, p - taken, item);
        if taken == p && Hands(s, e) { HandedNow(n, run, i, j, item); }
      }
    }
  }

  lemma AtNext(n: nat, run: seq<Event>, j: nat)
    requires 0 < j <= |run|
    ensures At(n, run, j) == Apply(At(n, run, j - 1), run[j - 1])
  {
    hide Apply;
  }

  lemma HandsFirst(n: nat, run: seq<Event>, l: nat)
    requires l < |run| && Hands(At(n, run, l), run[l])
    ensures Starts(n, run, l, At(n, run, l).q.items[0])
  {
  }

  /** One event lowers a position by one if it hands out an item, and leaves it alone otherwise. */
  lemma PositionFalls(s: Pool, e: Event, p: nat, item: Item)
    requires InLine(s, p, item)
    ensures !Hands(s, e) ==> InLine(Apply(s, e), p, item)
    ensures Hands(s, e) && p > 0 ==> InLine(Apply(s, e), p - 1, item)
  {
  }
}
