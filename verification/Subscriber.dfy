// The Pub/Sub subscriber: what it queues, and how it gets rid of messages it cannot parse.
module Subscriber {
  import opened Wrappers
  import opened Keys

  const MAX_NACK_COUNT: nat := 3

  datatype Data = Data(id: string, owner: Option<string>)

  // A message either is no CloudEvent at all, or is one whose data may or may not be readable.
  datatype Body = Garbage | CloudEvent(data: Option<Data>)

  datatype Message = Message(id: string, body: Body)

  datatype Reply = Ack | Nack

  type Counts = map<string, nat>

  function CountOf(counts: Counts, id: string): nat {
    if id in counts then counts[id] else 0
  }

  /** The resource a readable event is about, as a work queue key; an empty owner id counts as none. */
  function Resource(body: Body): Option<string> {
    if body.Garbage? || body.data.None? || body.data.value.id == "" then None
    else Some(ResourceKey(body.data.value.owner.GetOr(""), body.data.value.id))
  }

  /** The nack counters and the reply after a message is handled in one go. */
  function Handled(counts: Counts, msg: Message): (Counts, Reply) {
    if !msg.body.Garbage? then (counts, Ack)
    else
      var count := CountOf(counts, msg.id) + 1;
      if count < MAX_NACK_COUNT then (counts[msg.id := count], Nack) else (counts - {msg.id}, Ack)
  }

  class Subscriber {
    var nackCount: Counts
    var queued: seq<string>
    var replies: seq<(string, Reply)>

    constructor ()
      ensures nackCount == map[] && queued == [] && replies == []
    {
      nackCount, queued, replies := map[], [], [];
    }

    method Reply(msg: Message, reply: Reply)
      modifies this`replies
      ensures replies == old(replies) + [(msg.id, reply)]
    {
      replies := replies + [(msg.id, reply)];
    }

    /** The callback, when nobody else runs between its two lock sections. */
    method Handle(msg: Message)
      modifies this
      ensures nackCount == Handled(old(nackCount), msg).0
      ensures replies == old(replies) + [(msg.id, Handled(old(nackCount), msg).1)]
      ensures queued == old(queued) + if Resource(msg.body).Some? then [Resource(msg.body).value] else []
      ensures match msg.body
              case CloudEvent(Some(Data(id, owner))) =>
                queued == old(queued) + (if id == "" then []
                                         else if owner == None || owner == Some("") then [id]
                                         else [owner.value + "/" + id])
              case _ => queued == old(queued)
      ensures msg.body.CloudEvent? ==> replies == old(replies) + [(msg.id, Ack)] && nackCount == old(nackCount)
      ensures msg.body.Garbage? ==>
        var count := if msg.id in old(nackCount) then old(nackCount)[msg.id] + 1 else 1;
        && replies == old(replies) + [(msg.id, if count < 3 then Nack else Ack)]
        && nackCount == if count < 3 then old(nackCount)[msg.id := count] else old(nackCount) - {msg.id}
    {
      if msg.body.Garbage? {
        var count := CountOf(nackCount, msg.id) + 1;
        nackCount := nackCount[msg.id := count];
        if count < MAX_NACK_COUNT {
          Reply(msg, Nack);
          return;
        }
        nackCount := nackCount - {msg.id};
        assert nackCount == old(nackCount) - {msg.id};
        Reply(msg, Ack);
        return;
      }
      if msg.body.data.None? || msg.body.data.value.id == "" {
        Reply(msg, Ack);
        return;
      }
      var data := msg.body.data.value;
      var resourceID := data.id;
      if data.owner.Some? && data.owner.value != "" {
        resourceID := data.owner.value + "/" + data.id;
      }
      queued := queued + [resourceID];
      Reply(msg, Ack);
    }
  }

  /**
   * A node pool event's key gives the reconcilers back both ids exactly when the owner's id is not empty
   * and has no slash.
   */
  lemma QueuedKeySplits(owner: string, id: string)
    requires id != ""
    ensures var key := Resource(CloudEvent(Some(Data(id, Some(owner)))));
            key.Some? && (SplitKey(key.value) == Some((owner, id)) <==> owner != "" && '/' !in owner)
  {
    KeyRoundTrip(owner, id);
  }

  // ---- One delivery at a time ----

  function CountsAfter(msgs: seq<Message>): Counts {
    if msgs == [] then map[] else Handled(CountsAfter(msgs[..|msgs| - 1]), msgs[|msgs| - 1]).0
  }

  /** How many of the deliveries were of this message and could not be parsed. */
  function Failures(msgs: seq<Message>, id: string): nat {
    if msgs == [] then 0
    else Failures(msgs[..|msgs| - 1], id) + if msgs[|msgs| - 1].id == id && msgs[|msgs| - 1].body.Garbage? then 1 else 0
  }

  lemma {:induction false} CountIsFailures(msgs: seq<Message>, id: string)
    ensures CountOf(CountsAfter(msgs), id) == Failures(msgs, id) % MAX_NACK_COUNT
  {
    if msgs != [] {
      CountIsFailures(msgs[..|msgs| - 1], id);
    }
  }

  /**
   * Redelivered one at a time, among any other messages, an unparseable message is nacked twice, then
   * acked, and so on.
   */
  lemma EveryThirdIsAcked(msgs: seq<Message>, id: string)
    ensures Handled(CountsAfter(msgs), Message(id, Garbage)).1 == Ack <==>
      (Failures(msgs, id) + 1) % MAX_NACK_COUNT == 0
  {
    CountIsFailures(msgs, id);
  }

  // ---- Handlers side by side ----

  // The callback's two lock sections are separate steps; `Counted` has left the first one.
  datatype Handler = Received(msg: Message) | Counted(msg: Message,
        count: nat) | Dropped(msg: Message) | Replied(msg: Message, reply: Reply)

  datatype State = State(counts: Counts, handlers: seq<Handler>, log: seq<(nat, Reply)>, deletions: map<string, nat>)

  const IDLE := State(map[], [], [], map[])

  // A delivery starts a handler; each handler then moves on its own.
  datatype Event = Deliver(msg: Message) | Move(h: nat)

  function Answer(s: State, h: nat, reply: Reply): State
    requires h < |s.handlers|
  {
    s.(handlers := s.handlers[h := Replied(s.handlers[h].msg, reply)], log := s.log + [(h, reply)])
  }

  function Step(s: State, e: Event): State {
    match e
    case Deliver(msg) => s.(handlers := s.handlers + [Received(msg)])
    case Move(h) =>
      if h >= |s.handlers| then s
      else
        match s.handlers[h]
        case Received(msg) =>
          if msg.body.Garbage? then
            var count := CountOf(s.counts, msg.id) + 1;
            s.(counts := s.counts[msg.id := count], handlers := s.handlers[h := Counted(msg, count)])
          else Answer(s, h, Ack)
        case Counted(msg, count) =>
          if count < MAX_NACK_COUNT then Answer(s, h, Nack)
          else s.(counts := s.counts - {msg.id}, handlers := s.handlers[h := Dropped(msg)],
                  deletions := s.deletions[msg.id := CountOf(s.deletions, msg.id) + 1])
        case Dropped(_) => Answer(s, h, Ack)
        case Replied(_, _) => s
  }

  function Run(events: seq<Event>): State {
    if events == [] then IDLE else Step(Run(events[..|events| - 1]), events[|events| - 1])
  }

  /** A handler of this message that was told to nack, or has. */
  predicate Nacking(h: Handler, id: string) {
    h.msg.id == id && ((h.Counted? && h.count < MAX_NACK_COUNT) || (h.Replied? && h.reply == Nack))
  }

  function Nackings(handlers: seq<Handler>, id: string): nat {
    if handlers == [] then 0
    else Nackings(handlers[..|handlers| - 1], id) + if Nacking(handlers[|handlers| - 1], id) then 1 else 0
  }

  /** Handlers of this message that have nacked it. */
  function Nacks(handlers: seq<Handler>, id: string): nat {
    if handlers == [] then 0
    else
      var last := handlers[|handlers| - 1];
      Nacks(handlers[..|handlers| - 1], id) + if last.msg.id == id && last == Replied(last.msg, Nack) then 1 else 0
  }

  lemma {:induction false} NacksAreNackings(handlers: seq<Handler>, id: string)
    ensures Nacks(handlers, id) <= Nackings(handlers, id)
  {
    if handlers != [] {
      NacksAreNackings(handlers[..|handlers| - 1], id);
    }
  }

  lemma {:induction false} NackingsUpdate(handlers: seq<Handler>, h: nat, now: Handler, id: string)
    requires h < |handlers|
    ensures Nackings(handlers[h := now], id) - (if Nacking(now, id) then 1 else 0)
         == Nackings(handlers, id) - if Nacking(handlers[h], id) then 1 else 0
  {
    var last := |handlers| - 1;
    if h < last {
      NackingsUpdate(handlers[..last], h, now, id);
      assert handlers[h := now][..last] == handlers[..last][h := now];
    } else {
      assert handlers[h := now][..last] == handlers[..last];
    }
  }

  function Capped(n: nat): nat {
    if n < MAX_NACK_COUNT then n else MAX_NACK_COUNT - 1
  }

  /** The budget a message has used up: two nacks for each deletion, and those counted since. */
  ghost predicate WithinBudget(s: State, id: string) {
    Nackings(s.handlers, id) <= 2 * CountOf(s.deletions, id) + Capped(CountOf(s.counts, id))
  }

  lemma MoveKeepsBudget(s: State, h: nat, id: string)
    requires WithinBudget(s, id) && h < |s.handlers|
    ensures WithinBudget(Step(s, Move(h)), id)
  {
    hide Nackings;
    var t := Step(s, Move(h));
    NackingsUpdate(s.handlers, h, t.handlers[h], id);
    assert t.handlers == s.handlers[h := t.handlers[h]];
  }

  lemma DeliveryKeepsBudget(s: State, msg: Message, id: string)
    requires WithinBudget(s, id)
    ensures WithinBudget(Step(s, Deliver(msg)), id)
  {
    var t := Step(s, Deliver(msg));
    assert t.handlers[..|s.handlers|] == s.handlers;
  }

  lemma {:induction false} NackingsBounded(events: seq<Event>, id: string)
    ensures WithinBudget(Run(events), id)
  {
    hide WithinBudget, Step;
    if events == [] {
      IdleWithinBudget(id);
    } else {
      var before, e := Run(events[..|events| - 1]), events[|events| - 1];
      NackingsBounded(events[..|events| - 1], id);
      if e.Deliver? {
        DeliveryKeepsBudget(before, e.msg, id);
      } else if e.h < |before.handlers| {
        MoveKeepsBudget(before, e.h, id);
      } else {
        NobodyMoves(before, e.h);
      }
    }
  }

  lemma IdleWithinBudget(id: string)
    ensures WithinBudget(IDLE, id)
  {
  }

  lemma NobodyMoves(s: State, h: nat)
    requires h >= |s.handlers|
    ensures Step(s, Move(h)) == s
  {
  }

  /** In every interleaving a message is nacked at most twice for each time its counter started from nothing. */
  lemma PoisonPillBound(events: seq<Event>, id: string)
    ensures var s := Run(events);
            Nacks(s.handlers, id) <= (MAX_NACK_COUNT - 1) * (CountOf(s.deletions, id) + 1)
  {
    NackingsBounded(events, id);
    NacksAreNackings(Run(events).handlers, id);
  }

  function Replies(log: seq<(nat, Reply)>, h: nat): nat {
    if log == [] then 0 else Replies(log[..|log| - 1], h) + if log[|log| - 1].0 == h then 1 else 0
  }

  predicate HasReplied(s: State, h: nat) {
    h < |s.handlers| && s.handlers[h].Replied?
  }

  lemma AnswerReplies(s: State, a: nat, reply: Reply, h: nat)
    requires a < |s.handlers| && !s.handlers[a].Replied?
    requires Replies(s.log, h) == if HasReplied(s, h) then 1 else 0
    ensures var t := Answer(s, a, reply); Replies(t.log, h) == if HasReplied(t, h) then 1 else 0
  {
    var t := Answer(s, a, reply);
    assert t.log[..|s.log|] == s.log;
  }

  lemma StepReplies(s: State, e: Event, h: nat)
    requires Replies(s.log, h) == if HasReplied(s, h) then 1 else 0
    ensures var t := Step(s, e); Replies(t.log, h) == if HasReplied(t, h) then 1 else 0
  {
    hide Replies, Answer;
    if e.Move? && e.h < |s.handlers| {
      match s.handlers[e.h] {
        case Received(msg) => if !msg.body.Garbage? { AnswerReplies(s, e.h, Ack, h); }
        case Counted(msg, count) => if count < MAX_NACK_COUNT { AnswerReplies(s, e.h, Nack, h); }
        case Dropped(_) => AnswerReplies(s, e.h, Ack, h);
        case Replied(_, _) =>
      }
    }
  }

  /** Every handler that is done has answered exactly once, and no other has answered. */
  lemma {:induction false} OneReplyEach(events: seq<Event>, h: nat)
    ensures var s := Run(events); Replies(s.log, h) == if HasReplied(s, h) then 1 else 0
  {
    hide Step, HasReplied;
    if events == [] {
      NobodyReplied(h);
    } else {
      OneReplyEach(events[..|events| - 1], h);
      StepReplies(Run(events[..|events| - 1]), events[|events| - 1], h);
    }
  }

  lemma NobodyReplied(h: nat)
    ensures !HasReplied(IDLE, h) && Replies(IDLE.log, h) == 0
  {
  }

  // ---- The bound by the number of deliveries ----

  /** The unparseable deliveries of this message. */
  function Deliveries(handlers: seq<Handler>, id: string): nat {
    if handlers == [] then 0
    else
      var msg := handlers[|handlers| - 1].msg;
      Deliveries(handlers[..|handlers| - 1], id) + if msg.id == id && msg.body.Garbage? then 1 else 0
  }

  /** A handler of this unparseable message that dropped the counter. */
  predicate Sparing(h: Handler, id: string) {
    h.msg.id == id && h.msg.body.Garbage? && (h.Dropped? || (h.Replied? && h.reply == Ack))
  }

  function Sparings(handlers: seq<Handler>, id: string): nat {
    if handlers == [] then 0
    else Sparings(handlers[..|handlers| - 1], id) + if Sparing(handlers[|handlers| - 1], id) then 1 else 0
  }

  /** Only an unparseable message is counted or nacked. */
  ghost predicate Sound(handlers: seq<Handler>) {
    forall i :: 0 <= i < |handlers| ==>
      var h := handlers[i]; h.Counted? || h.Dropped? || (h.Replied? && h.reply == Nack) ==> h.msg.body.Garbage?
  }

  lemma {:induction false} SparingsUpdate(handlers: seq<Handler>, h: nat, now: Handler, id: string)
    requires h < |handlers|
    ensures Sparings(handlers[h := now], id) - (if Sparing(now, id) then 1 else 0)
         == Sparings(handlers, id) - if Sparing(handlers[h], id) then 1 else 0
  {
    var last := |handlers| - 1;
    if h < last {
      SparingsUpdate(handlers[..last], h, now, id);
      assert handlers[h := now][..last] == handlers[..last][h := now];
    } else {
      assert handlers[h := now][..last] == handlers[..last];
    }
  }

  /** No delivery is both nacked and spared. */
  lemma {:induction false} NackedOrSpared(handlers: seq<Handler>, id: string)
    requires Sound(handlers)
    ensures Nackings(handlers, id) + Sparings(handlers, id) <= Deliveries(handlers, id)
  {
    if handlers != [] {
      NackedOrSpared(handlers[..|handlers| - 1], id);
    }
  }

  /** Each deletion of the counter was by a handler of its own, which spares its delivery. */
  ghost predicate DeletionsSpare(s: State, id: string) {
    Sound(s.handlers) && CountOf(s.deletions, id) == Sparings(s.handlers, id)
  }

  lemma StepSpares(s: State, e: Event, id: string)
    requires DeletionsSpare(s, id)
    ensures DeletionsSpare(Step(s, e), id)
  {
    hide Sparings;
    var t := Step(s, e);
    if e.Deliver? {
      OneMore(s.handlers, Received(e.msg), id);
    } else if e.h < |s.handlers| {
      SparingsUpdate(s.handlers, e.h, t.handlers[e.h], id);
      assert t.handlers == s.handlers[e.h := t.handlers[e.h]];
    }
  }

  lemma OneMore(handlers: seq<Handler>, h: Handler, id: string)
    ensures Sparings(handlers + [h], id) == Sparings(handlers, id) + if Sparing(h, id) then 1 else 0
    ensures Nacks(handlers + [h], id) ==
      Nacks(handlers, id) + if h.msg.id == id && h == Replied(h.msg, Nack) then 1 else 0
    ensures Deliveries(handlers + [h], id) ==
      Deliveries(handlers, id) + if h.msg.id == id && h.msg.body.Garbage? then 1 else 0
  {
    assert (handlers + [h])[..|handlers|] == handlers;
  }

  lemma {:induction false} RunSpares(events: seq<Event>, id: string)
    ensures DeletionsSpare(Run(events), id)
  {
    hide Step, DeletionsSpare;
    if events == [] {
      IdleSpares(id);
    } else {
      RunSpares(events[..|events| - 1], id);
      StepSpares(Run(events[..|events| - 1]), events[|events| - 1], id);
    }
  }

  lemma IdleSpares(id: string)
    ensures DeletionsSpare(IDLE, id)
  {
  }

  /** The nacks of n deliveries handled one at a time: every third is acked. */
  function SerialNacks(n: nat): nat {
    n - n / MAX_NACK_COUNT
  }

  /** No interleaving nacks a message more often than its deliveries handled one at a time would be. */
  lemma NacksByDeliveries(events: seq<Event>, id: string)
    ensures var s := Run(events); Nacks(s.handlers, id) <= SerialNacks(Deliveries(s.handlers, id))
  {
    hide Run, Nacks, Nackings, Sparings, Deliveries;
    var s := Run(events);
    RunSpares(events, id);
    NackingsBounded(events, id);
    NacksAreNackings(s.handlers, id);
    NackedOrSpared(s.handlers, id);
  }

  lemma {:induction false} RunAppend(events: seq<Event>, e: Event)
    ensures Run(events + [e]) == Step(Run(events), e)
  {
    assert (events + [e])[..|events|] == events;
  }

  /** After n deliveries of one unparseable message, each handled to its end before the next. */
  ghost predicate Served(s: State, m: Message, n: nat) {
    && |s.handlers| == n && CountOf(s.counts, m.id) == n % MAX_NACK_COUNT
    && Deliveries(s.handlers, m.id) == n && Nacks(s.handlers, m.id) == SerialNacks(n)
  }

  /** One more delivery, handled to its end. */
  function ServedOnce(s: State, m: Message): State {
    var h := |s.handlers|;
    Step(Step(Step(Step(s, Deliver(m)), Move(h)), Move(h)), Move(h))
  }

  lemma CountedNext(s: State, m: Message)
    requires m.body.Garbage?
    ensures var t, h, count := Step(Step(s, Deliver(m)), Move(|s.handlers|)), |s.handlers|, CountOf(s.counts, m.id) + 1;
            t.handlers == s.handlers + [Counted(m, count)] && t.counts == s.counts[m.id := count]
  {
  }

  lemma ServedOnceIs(s: State, m: Message)
    requires m.body.Garbage?
    ensures var t, count := ServedOnce(s, m), CountOf(s.counts, m.id) + 1;
            && t.handlers == s.handlers + [Replied(m, if count < MAX_NACK_COUNT then Nack else Ack)]
            && CountOf(t.counts, m.id) == if count < MAX_NACK_COUNT then count else 0
  {
    CountedNext(s, m);
    var h, count := |s.handlers|, CountOf(s.counts, m.id) + 1;
    var counted := Step(Step(s, Deliver(m)), Move(h));
    assert counted.handlers[h] == Counted(m, count);
    if count >= MAX_NACK_COUNT {
      assert Step(counted, Move(h)).handlers[h] == Dropped(m);
    }
  }

  lemma ServesNext(s: State, m: Message, n: nat)
    requires m.body.Garbage? && Served(s, m, n)
    ensures Served(ServedOnce(s, m), m, n + 1)
  {
    hide Deliveries, Nacks, ServedOnce;
    ServedOnceIs(s, m);
    OneMore(s.handlers, Replied(m, if n % MAX_NACK_COUNT + 1 < MAX_NACK_COUNT then Nack else Ack), m.id);
  }

  lemma {:induction false} Serially(m: Message, n: nat) returns (events: seq<Event>)
    requires m.body.Garbage?
    ensures Served(Run(events), m, n)
  {
    hide Step, Served;
    if n == 0 {
      events := [];
      NoneServed(m);
    } else {
      events := Serially(m, n - 1);
      ServesNext(Run(events), m, n - 1);
      ServedCount(Run(events), m, n - 1);
      RunAppend(events, Deliver(m));
      events := events + [Deliver(m)];
      RunAppend(events, Move(n - 1));
      events := events + [Move(n - 1)];
      RunAppend(events, Move(n - 1));
      events := events + [Move(n - 1)];
      RunAppend(events, Move(n - 1));
      events := events + [Move(n - 1)];
    }
  }

  lemma ServedCount(s: State, m: Message, n: nat)
    requires Served(s, m, n)
    ensures |s.handlers| == n
  {
  }

  lemma NoneServed(m: Message)
    ensures Served(Run([]), m, 0)
  {
  }

  lemma SerialNacksGrow(a: nat, b: nat)
    requires a <= b
    ensures SerialNacks(a) <= SerialNacks(b)
  {
  }

  /** A number of nacks is never exceeded in n deliveries exactly if it is not when they are handled one at a time. */
  lemma NacksWithin(id: string, n: nat, bound: nat)
    ensures (forall events :: Deliveries(Run(events).handlers, id) <= n ==> Nacks(Run(events).handlers, id) <= bound)
       <==> SerialNacks(n) <= bound
  {
    hide Run, Nacks, Deliveries, SerialNacks;
    if SerialNacks(n) <= bound {
      forall events | Deliveries(Run(events).handlers, id) <= n ensures Nacks(Run(events).handlers, id) <= bound {
        NacksByDeliveries(events, id);
        SerialNacksGrow(Deliveries(Run(events).handlers, id), n);
      }
    } else {
      var events := Serially(Message(id, Garbage), n);
      assert Deliveries(Run(events).handlers, id) == n && Nacks(Run(events).handlers, id) > bound;
    }
  }

  /** The limit on nacks is kept per message exactly as long as it is delivered no more often than the limit counts. */
  lemma NackLimitHoldsIff(id: string, n: nat)
    ensures (forall events :: Deliveries(Run(events).handlers, id) <= n ==>
               Nacks(Run(events).handlers, id) <= MAX_NACK_COUNT - 1)
       <==> n <= MAX_NACK_COUNT
  {
    hide Run, Nacks, Deliveries;
    NacksWithin(id, n, MAX_NACK_COUNT - 1);
  }

  /** So a message can be nacked more than MAX_NACK_COUNT - 1 times. */
  lemma MoreThanTwoNacks(m: Message)
    requires m.body.Garbage?
    ensures exists events :: Nacks(Run(events).handlers, m.id) > MAX_NACK_COUNT - 1
  {
    hide Run, Nacks, Deliveries;
    var events := Serially(m, MAX_NACK_COUNT + 1);
    assert Nacks(Run(events).handlers, m.id) > MAX_NACK_COUNT - 1;
  }
}
