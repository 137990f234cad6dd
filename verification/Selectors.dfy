// Round-robin choice of a management cluster and a base domain.
module Selectors {
  import opened Wrappers
  import opened Text

  datatype Candidate = Candidate(name: string, baseDomains: seq<string>)

  datatype SelectError =
    | NoCandidates
    | NoBaseDomains(name: string)
    | IndexOutOfRange
    | Lookup(step: string)
    | NoneEligible
    | NoDomains

  /** Go's `int` increment. */
  function NextInt(n: int): int {
    if n == MAX_INT64 then MIN_INT64 else n + 1
  }

  /** Go's `%` truncates toward zero. */
  function GoRem(a: int, n: nat): int
    requires n > 0
  {
    if a >= 0 then a % n else -((-a) % n)
  }

  /** What the call that draws this ticket returns; a negative index is a panic. */
  function Outcome(candidates: seq<Candidate>, ticket: int): Result<(string, string), SelectError>
    requires candidates != []
  {
    var idx := GoRem(ticket, |candidates|);
    if idx < 0 then Err(IndexOutOfRange)
    else
      var c := candidates[idx];
      if c.baseDomains == [] then Err(NoBaseDomains(c.name)) else Ok((c.name, c.baseDomains[0]))
  }

  class RoundRobinSelector {
    var counter: int

    constructor ()
      ensures counter == 0
    {
      counter := 0;
    }

    /** Every call with candidates draws the next ticket, also when it then fails. */
    method Select(candidates: seq<Candidate>) returns (r: Result<(string, string), SelectError>)
      requires IsInt64(counter)
      modifies this
      ensures IsInt64(counter)
      ensures candidates == [] ==> r == Err(NoCandidates) && counter == old(counter)
      ensures candidates != [] ==> r == Outcome(candidates, old(counter)) && counter == NextInt(old(counter))
    {
      if |candidates| == 0 {
        return Err(NoCandidates);
      }
      var idx := GoRem(counter, |candidates|);
      counter := NextInt(counter);
      if idx < 0 {
        return Err(IndexOutOfRange);
      }
      var c := candidates[idx];
      if |c.baseDomains| == 0 {
        return Err(NoBaseDomains(c.name));
      }
      return Ok((c.name, c.baseDomains[0]));
    }
  }

  // ---- Fairness ----

  /** How many of the tickets s, s+1, ..., s+len-1 pick index i out of n. */
  function Hits(s: nat, len: nat, n: nat, i: nat): nat
    requires n > 0
  {
    if len == 0 then 0 else Hits(s, len - 1, n, i) + if (s + len - 1) % n == i then 1 else 0
  }

  lemma {:induction false} HitsSplit(s: nat, a: nat, b: nat, n: nat, i: nat)
    requires n > 0
    ensures Hits(s, a + b, n, i) == Hits(s, a, n, i) + Hits(s + a, b, n, i)
  {
    if b > 0 {
      HitsSplit(s, a, b - 1, n, i);
    }
  }

  lemma NextRem(t: nat, n: nat)
    requires n > 0
    ensures (t + 1) % n == if t % n == n - 1 then 0 else t % n + 1
  {
    var q, r := t / n, t % n;
    assert t == q * n + r;
    if r == n - 1 {
      assert t + 1 == (q + 1) * n;
      RemOf(q + 1, 0, n);
    } else {
      RemOf(q, r + 1, n);
    }
  }

  lemma RemOf(q: int, r: nat, n: nat)
    requires r < n
    ensures (q * n + r) % n == r
  {
    var t := q * n + r;
    var p := t / n;
    assert t == p * n + t % n;
    assert (p - q) * n == r - t % n;
    if p > q { MulLe(1, p - q, n); }
    if p < q { MulLe(1, q - p, n); }
  }

  lemma MulLe(a: int, b: int, n: nat)
    requires a <= b
    ensures a * n <= b * n
  {
  }

  /** Within one round, starting at residue r, exactly the len residues from r on are hit. */
  lemma {:induction false} PartOfRound(s: nat, len: nat, n: nat, i: nat)
    requires n > 0 && len <= n && i < n
    ensures Hits(s, len, n, i) == if (i - s % n) % n < len then 1 else 0
    decreases len
  {
    if len > 0 {
      PartOfRound(s, len - 1, n, i);
      ShiftRem(s, len - 1, n, i);
    }
  }

  lemma {:induction false} ShiftRem(s: nat, k: nat, n: nat, i: nat)
    requires k < n && i < n
    ensures (s + k) % n == i <==> (i - s % n) % n == k
    decreases k
  {
    var r := s % n;
    assert (i - r) % n == if i >= r then i - r else i - r + n by {
      if i >= r { RemOf(0, i - r, n); } else { NegRem(i - r, n); }
    }
    if k == 0 {
    } else {
      ShiftRem(s, k - 1, n, i);
      NextRem(s + k - 1, n);
      SumRem(s, k, n);
    }
  }

  lemma NegRem(x: int, n: nat)
    requires n > 0 && x < 0 < x + n
    ensures x % n == x + n
  {
  }

  /** The residue of a sum of a ticket and a step shorter than a round. */
  lemma {:induction false} SumRem(s: nat, k: nat, n: nat)
    requires k < n
    ensures (s + k) % n == if s % n + k < n then s % n + k else s % n + k - n
    decreases k
  {
    if k > 0 {
      SumRem(s, k - 1, n);
      NextRem(s + k - 1, n);
    }
  }

  /** Any n consecutive tickets pick each of the n candidates exactly once. */
  lemma EachOnceARound(s: nat, n: nat, i: nat)
    requires i < n
    ensures Hits(s, n, n, i) == 1
  {
    PartOfRound(s, n, n, i);
  }

  /** So pick counts never differ by more than one, however many tickets have been drawn. */
  lemma {:induction false} CountsWithinOne(s: nat, len: nat, n: nat, i: nat, j: nat)
    requires i < n && j < n
    ensures -1 <= Hits(s, len, n, i) - Hits(s, len, n, j) <= 1
    decreases len
  {
    if len <= n {
      PartOfRound(s, len, n, i);
      PartOfRound(s, len, n, j);
    } else {
      HitsSplit(s, n, len - n, n, i);
      HitsSplit(s, n, len - n, n, j);
      EachOnceARound(s, n, i);
      EachOnceARound(s, n, j);
      CountsWithinOne(s + n, len - n, n, i, j);
    }
  }

  // ---- Calls in any order ----

  /** The results of successive calls, whoever makes them, with the candidates each brings. */
  function Serve(counter: int, calls: seq<seq<Candidate>>): (int, seq<Result<(string, string), SelectError>>) {
    if calls == [] then (counter, [])
    else
      var (c, rs) := Serve(counter, calls[..|calls| - 1]);
      var candidates := calls[|calls| - 1];
      if candidates == [] then (c, rs + [Err(NoCandidates)]) else (NextInt(c), rs + [Outcome(candidates, c)])
  }

  /**
   * With one fixed list the k-th call gets the k-th candidate round and round, as long as the counter has
   * not reached its limit.
   */
  lemma {:induction false} ServesInTurn(counter: nat, candidates: seq<Candidate>, calls: seq<seq<Candidate>>)
    requires candidates != [] && (forall k :: 0 <= k < |calls| ==> calls[k] == candidates)
    requires counter + |calls| <= MAX_INT64
    ensures var (end, rs) := Serve(counter, calls);
            end == counter + |calls| && |rs| == |calls|
            && forall k :: 0 <= k < |rs| ==>
                 var c := candidates[(counter + k) % |candidates|];
                 rs[k] == if c.baseDomains == [] then Err(NoBaseDomains(c.name)) else Ok((c.name, c.baseDomains[0]))
  {
    if calls != [] {
      ServesInTurn(counter, candidates, calls[..|calls| - 1]);
    }
  }

  /**
   * A call panics exactly on a negative ticket that the number of candidates does not divide. The
   * counter draws such tickets once it has passed its limit.
   */
  lemma LimitPanics(candidates: seq<Candidate>, ticket: int)
    requires candidates != []
    ensures Outcome(candidates, ticket) == Err(IndexOutOfRange) <==> ticket < 0 && ticket % |candidates| != 0
    ensures GoRem(ticket, |candidates|) == 0 <==> ticket % |candidates| == 0
  {
    var n := |candidates|;
    if ticket < 0 {
      NegatedRem(-ticket, n);
    }
  }

  /** Divisibility does not depend on the sign. */
  lemma NegatedRem(t: int, n: nat)
    requires n > 0
    ensures t % n == 0 <==> (0 - t) % n == 0
  {
    if t % n == 0 { NegatedMultiple(t, n); }
    if (0 - t) % n == 0 { NegatedMultiple(0 - t, n); }
  }

  lemma NegatedMultiple(t: int, n: nat)
    requires n > 0 && t % n == 0
    ensures (0 - t) % n == 0
  {
    var q := t / n;
    assert t == q * n;
    NegatedProduct(q, n);
    RemOf(0 - q, 0, n);
  }

  lemma NegatedProduct(q: int, n: int)
    ensures 0 - q * n == (0 - q) * n
  {
  }

  /** The ticket after the last int is negative, and only lists of a length that divides 2^63 survive it. */
  lemma FirstTicketPastLimit(candidates: seq<Candidate>)
    requires candidates != []
    ensures Outcome(candidates, NextInt(MAX_INT64)) == Err(IndexOutOfRange) <==>
      0x8000_0000_0000_0000 % |candidates| != 0
  {
    LimitPanics(candidates, MIN_INT64);
    NegatedRem(0x8000_0000_0000_0000, |candidates|);
  }

  // ---- The dynamic selector ----

  const WRAP: nat := 0x1_0000_0000_0000_0000

  /** `atomic.Uint64.Add(1)`. */
  function NextUint(n: nat): nat {
    (n + 1) % WRAP
  }

  function Eligible(secrets: seq<string>, consumers: seq<string>): seq<string> {
    if secrets == [] then []
    else
      Eligible(secrets[..|secrets| - 1], consumers)
      + if secrets[|secrets| - 1] in consumers then [secrets[|secrets| - 1]] else []
  }

  /** The clusters that are in both listings, in the order and as often as the secrets list them. */
  method EligibleMCs(secrets: Result<seq<string>, SelectError>, consumers: Result<seq<string>, SelectError>)
    returns (r: Result<seq<string>, SelectError>)
    ensures r.Ok? <==> secrets.Ok? && consumers.Ok?
    ensures r.Err? ==> r.error == if secrets.Err? then secrets.error else consumers.error
    ensures r.Ok? ==> r.value == Eligible(secrets.value, consumers.value)
  {
    if secrets.Err? {
      return Err(secrets.error);
    }
    if consumers.Err? {
      return Err(consumers.error);
    }
    var registered: map<string, bool> := map[];
    for i := 0 to |consumers.value|
      invariant forall k :: k in registered <==> k in consumers.value[..i]
      invariant forall k :: k in registered ==> registered[k]
    {
      registered := registered[consumers.value[i] := true];
    }
    assert consumers.value[..|consumers.value|] == consumers.value;
    var eligible: seq<string> := [];
    for i := 0 to |secrets.value|
      invariant eligible == Eligible(secrets.value[..i], consumers.value)
    {
      assert secrets.value[..i + 1][..i] == secrets.value[..i];
      if secrets.value[i] in registered && registered[secrets.value[i]] {
        eligible := eligible + [secrets.value[i]];
      }
    }
    assert secrets.value[..|secrets.value|] == secrets.value;
    return Ok(eligible);
  }

  /** Filtering keeps exactly the registered names, each as often as it was listed. */
  lemma {:induction false} EligibleIsIntersection(secrets: seq<string>, consumers: seq<string>, x: string)
    ensures multiset(Eligible(secrets, consumers))[x] == if x in consumers then multiset(secrets)[x] else 0
  {
    if secrets != [] {
      var front, last := secrets[..|secrets| - 1], secrets[|secrets| - 1];
      EligibleIsIntersection(front, consumers, x);
      assert secrets == front + [last];
    }
  }

  /** And keeps their order: the listing is scanned once, left to right. */
  lemma {:induction false} EligibleKeepsOrder(a: seq<string>, b: seq<string>, consumers: seq<string>)
    ensures Eligible(a + b, consumers) == Eligible(a, consumers) + Eligible(b, consumers)
  {
    if b == [] {
      assert a + b == a;
    } else {
      EligibleKeepsOrder(a, b[..|b| - 1], consumers);
      assert (a + b)[..|a + b| - 1] == a + b[..|b| - 1];
    }
  }

  // What the three lookups of one call answer.
  datatype Listing = Listing(
    secrets: Result<seq<string>, SelectError>,
    consumers: Result<seq<string>, SelectError>,
    domains: Result<seq<string>, SelectError>)

  /** The counters and the result after one call. */
  function Draw(mc: nat, dom: nat, l: Listing): (nat, nat, Result<(string, string), SelectError>) {
    if l.secrets.Err? then (mc, dom, Err(l.secrets.error))
    else if l.consumers.Err? then (mc, dom, Err(l.consumers.error))
    else
      var eligible := Eligible(l.secrets.value, l.consumers.value);
      if eligible == [] then (mc, dom, Err(NoneEligible))
      else if l.domains.Err? then (NextUint(mc), dom, Err(l.domains.error))
      else if l.domains.value == [] then (NextUint(mc), dom, Err(NoDomains))
      else
        var domains := l.domains.value;
        var pick := (eligible[NextUint(mc) % |eligible|], domains[NextUint(dom) % |domains|]);
        (NextUint(mc), NextUint(dom), Ok(pick))
  }

  class DynamicSelector {
    var mcCounter: nat
    var domCounter: nat

    constructor ()
      ensures mcCounter == 0 && domCounter == 0
    {
      mcCounter, domCounter := 0, 0;
    }

    /**
     * The arguments are what the lookups answered. A call that finds eligible clusters draws a
     * cluster ticket even if it then finds no domain; a domain ticket is drawn only on success.
     */
    method Select(secrets: Result<seq<string>, SelectError>, consumers: Result<seq<string>, SelectError>,
            domains: Result<seq<string>, SelectError>)
      returns (r: Result<(string, string), SelectError>)
      requires mcCounter < WRAP && domCounter < WRAP
      modifies this
      ensures mcCounter < WRAP && domCounter < WRAP
      ensures (mcCounter, domCounter, r) == Draw(old(mcCounter), old(domCounter), Listing(secrets, consumers, domains))
      ensures var found := secrets.Ok? && consumers.Ok? && Eligible(secrets.value, consumers.value) != [];
              && mcCounter == (if found then (old(mcCounter) + 1) % 0x1_0000_0000_0000_0000 else old(mcCounter))
              && domCounter == (if found && domains.Ok? && domains.value != []
                                then (old(domCounter) + 1) % 0x1_0000_0000_0000_0000 else old(domCounter))
              && (r.Ok? <==> found && domains.Ok? && domains.value != [])
      ensures r.Ok? ==>
        var eligible := Eligible(secrets.value, consumers.value);
        r.value == (eligible[mcCounter % |eligible|], domains.value[domCounter % |domains.value|])
    {
      var eligible := EligibleMCs(secrets, consumers);
      if eligible.Err? {
        return Err(eligible.error);
      }
      if |eligible.value| == 0 {
        return Err(NoneEligible);
      }
      mcCounter := NextUint(mcCounter);
      var mc := eligible.value[mcCounter % |eligible.value|];
      if domains.Err? {
        return Err(domains.error);
      }
      if |domains.value| == 0 {
        return Err(NoDomains);
      }
      domCounter := NextUint(domCounter);
      var domain := domains.value[domCounter % |domains.value|];
      return Ok((mc, domain));
    }
  }

  // ---- Successive calls of the dynamic selector ----

  /** The counters after successive calls, whoever makes them, and their results. */
  function Drawn(mc: nat, dom: nat, calls: seq<Listing>): (nat, nat, seq<Result<(string, string), SelectError>>) {
    if calls == [] then (mc, dom, [])
    else
      var (m, d, rs) := Drawn(mc, dom, calls[..|calls| - 1]);
      var (m', d', r) := Draw(m, d, calls[|calls| - 1]);
      (m', d', rs + [r])
  }

  /** How many of the calls find domains. */
  function WithDomains(calls: seq<Listing>): nat {
    if calls == [] then 0
    else
      var domains := calls[|calls| - 1].domains;
      WithDomains(calls[..|calls| - 1]) + if domains.Ok? && domains.value != [] then 1 else 0
  }

  lemma NextOf(start: nat, k: nat)
    requires start < WRAP
    ensures ((start + k) % WRAP + 1) % WRAP == (start + k + 1) % WRAP
  {
  }

  /** The call finds exactly these clusters, and these domains or none. */
  ghost predicate Lists(l: Listing, eligible: seq<string>, domains: seq<string>) {
    && l.secrets.Ok? && l.consumers.Ok? && Eligible(l.secrets.value, l.consumers.value) == eligible
    && (l.domains.Ok? ==> l.domains.value == domains || l.domains.value == [])
  }

  /** What a call answers once the cluster and the domain drawn are known. */
  ghost predicate Answers(r: Result<(string, string), SelectError>, l: Listing, mc: string, domain: string) {
    r == if l.domains.Err? then Err(l.domains.error)
         else if l.domains.value == [] then Err(NoDomains)
         else Ok((mc, domain))
  }

  lemma DrawIs(mc: nat, dom: nat, j: nat, w: nat, l: Listing, eligible: seq<string>, domains: seq<string>)
    requires mc < WRAP && dom < WRAP && eligible != [] && domains != [] && Lists(l, eligible, domains)
    ensures var (m, d, r) := Draw((mc + j) % WRAP, (dom + w) % WRAP, l);
            && m == (mc + j + 1) % WRAP
            && d == (if l.domains.Ok? && l.domains.value != [] then (dom + w + 1) % WRAP else (dom + w) % WRAP)
            && Answers(r, l, eligible[(mc + 1 + j) % WRAP % |eligible|], domains[(dom + 1 + w) % WRAP % |domains|])
  {
    hide Eligible;
    NextOf(mc, j);
    NextOf(dom, w);
  }

  /** The k-th of these calls is answered in turn. */
  ghost predicate InTurn(mc: nat, dom: nat, calls: seq<Listing>, r: Result<(string, string), SelectError>, k: nat,
                         eligible: seq<string>, domains: seq<string>)
    requires k < |calls| && eligible != [] && domains != []
  {
    Answers(r, calls[k], eligible[(mc + 1 + k) % 0x1_0000_0000_0000_0000 % |eligible|],
            domains[(dom + 1 + WithDomains(calls[..k])) % 0x1_0000_0000_0000_0000 % |domains|])
  }

  lemma TurnStays(mc: nat, dom: nat, calls: seq<Listing>, r: Result<(string, string), SelectError>, k: nat,
                  eligible: seq<string>, domains: seq<string>)
    requires k < |calls| - 1 && eligible != [] && domains != []
    requires InTurn(mc, dom, calls[..|calls| - 1], r, k, eligible, domains)
    ensures InTurn(mc, dom, calls, r, k, eligible, domains)
  {
    assert calls[..|calls| - 1][..k] == calls[..k];
  }

  /**
   * With fixed listings of clusters the k-th call, counting from 0, draws the cluster at
   * (mc + 1 + k) mod 2^64, whether or not it then finds domains; a domain is drawn by those that do,
   * one after the other in the same way.
   */
  lemma {:induction false} DynamicServesInTurn(mc: nat, dom: nat, calls: seq<Listing>, eligible: seq<string>,
                                               domains: seq<string>)
    requires mc < 0x1_0000_0000_0000_0000 && dom < 0x1_0000_0000_0000_0000 && eligible != [] && domains != []
    requires forall k :: 0 <= k < |calls| ==> Lists(calls[k], eligible, domains)
    ensures var (m, d, rs) := Drawn(mc, dom, calls);
            && m == (mc + |calls|) % 0x1_0000_0000_0000_0000
            && d == (dom + WithDomains(calls)) % 0x1_0000_0000_0000_0000
            && |rs| == |calls|
            && forall k :: 0 <= k < |rs| ==> InTurn(mc, dom, calls, rs[k], k, eligible, domains)
  {
    hide Draw, Lists, InTurn;
    if calls == [] {
      Small(mc, WRAP);
      Small(dom, WRAP);
    } else {
      var front, last := calls[..|calls| - 1], |calls| - 1;
      DynamicServesInTurn(mc, dom, front, eligible, domains);
      DrawIs(mc, dom, last, WithDomains(front), calls[last], eligible, domains);
      var before, rs := Drawn(mc, dom, front).2, Drawn(mc, dom, calls).2;
      assert forall k :: 0 <= k < last ==> rs[k] == before[k];
      forall k | 0 <= k < last ensures InTurn(mc, dom, calls, rs[k], k, eligible, domains) {
        TurnStays(mc, dom, calls, rs[k], k, eligible, domains);
      }
      LastInTurn(mc, dom, calls, rs[last], eligible, domains);
    }
  }

  lemma LastInTurn(mc: nat, dom: nat, calls: seq<Listing>, r: Result<(string, string), SelectError>,
                   eligible: seq<string>, domains: seq<string>)
    requires calls != [] && eligible != [] && domains != []
    requires var j, w := |calls| - 1, WithDomains(calls[..|calls| - 1]);
             Answers(r, calls[j], eligible[(mc + 1 + j) % WRAP % |eligible|], domains[(dom + 1 + w) % WRAP % |domains|])
    ensures InTurn(mc, dom, calls, r, |calls| - 1, eligible, domains)
  {
    hide Answers;
  }

  /** A call that finds no eligible cluster, or whose listings fail, draws nothing. */
  lemma NothingDrawn(mc: nat, dom: nat, l: Listing)
    ensures l.secrets.Err? || l.consumers.Err? || Eligible(l.secrets.value, l.consumers.value) == [] ==>
      Draw(mc, dom, l).0 == mc && Draw(mc, dom, l).1 == dom && Draw(mc, dom, l).2.Err?
  {
  }

  /** How many of the results name this cluster. */
  function Chosen(rs: seq<Result<(string, string), SelectError>>, name: string): nat {
    if rs == [] then 0
    else
      var r := rs[|rs| - 1];
      Chosen(rs[..|rs| - 1], name) + if r.Ok? && r.value.0 == name then 1 else 0
  }

  /** Hits among len tickets of a counter that starts at s and wraps at w. */
  function WrappedHits(s: nat, len: nat, w: nat, n: nat, i: nat): nat
    requires n > 0 && w > 0
  {
    if len == 0 then 0 else WrappedHits(s, len - 1, w, n, i) + if (s + len - 1) % w % n == i then 1 else 0
  }

  lemma Small(t: nat, w: nat)
    requires t < w
    ensures t % w == t
  {
  }

  lemma Compose(t: nat, q: nat, r: nat, w: nat)
    requires w > 0 && q == t / w && r == t % w
    ensures t == q * w + r
  {
  }

  lemma Regroup(q: nat, m: nat, n: nat, q': nat, r': nat)
    ensures q * (m * n) + (q' * n + r') == (q * m + q') * n + r'
  {
  }

  lemma ModOfMultiple(t: nat, m: nat, n: nat)
    requires n > 0 && m > 0
    ensures t % (m * n) % n == t % n
  {
    var w := m * n;
    assert w > 0 by { MulLe(1, m, n); }
    var q, r := t / w, t % w;
    var q', r' := r / n, r % n;
    Compose(t, q, r, w);
    Compose(r, q', r', n);
    Regroup(q, m, n, q', r');
    RemOf(q * m + q', r', n);
  }

  lemma {:induction false} WrapUnseen(s: nat, len: nat, m: nat, n: nat, i: nat)
    requires n > 0 && m > 0 && m * n > 0
    ensures WrappedHits(s, len, m * n, n, i) == Hits(s, len, n, i)
  {
    if len > 0 {
      WrapUnseen(s, len - 1, m, n, i);
      ModOfMultiple(s + len - 1, m, n);
    }
  }

  /** After the last ticket before the wrap, the next n - 1 tickets are 0, 1, ..., n - 2. */
  lemma {:induction false} AcrossTheWrap(w: nat, len: nat, n: nat, i: nat)
    requires 0 < len <= n <= w && i < n
    ensures WrappedHits(w - 1, len, w, n, i) == (if (w - 1) % n == i then 1 else 0) + if i < len - 1 then 1 else 0
  {
    if len == 1 {
      assert WrappedHits(w - 1, 0, w, n, i) == 0;
      Small(w - 1, w);
    } else {
      AcrossTheWrap(w, len - 1, n, i);
      PastTheWrap(w, len - 2, n);
    }
  }

  lemma PastTheWrap(w: nat, k: nat, n: nat)
    requires k < n <= w
    ensures (w + k) % w % n == k
  {
    assert w + k == 1 * w + k;
    RemOf(1, k, w);
    Small(k, n);
  }

  /** With distinct clusters, results that follow the counter choose each as often as its index is hit. */
  lemma {:induction false} ChosenAreHits(mc: nat, rs: seq<Result<(string, string), SelectError>>, eligible: seq<string>,
                                         i: nat)
    requires i < |eligible| && forall a, b :: 0 <= a < b < |eligible| ==> eligible[a] != eligible[b]
    requires forall k :: 0 <= k < |rs| ==> rs[k].Ok? && rs[k].value.0 == eligible[(mc + 1 + k) % WRAP % |eligible|]
    ensures Chosen(rs, eligible[i]) == WrappedHits(mc + 1, |rs|, WRAP, |eligible|, i)
  {
    if rs != [] {
      ChosenAreHits(mc, rs[..|rs| - 1], eligible, i);
      var at := (mc + 1 + (|rs| - 1)) % WRAP % |eligible|;
      assert eligible[at] == eligible[i] <==> at == i;
    }
  }

  /** A whole round is a hit each wherever it starts, the wrap itself included. */
  lemma {:induction false} WrappedShift(s: nat, len: nat, w: nat, n: nat, i: nat)
    requires n > 0 && w > 0
    ensures WrappedHits(s + w, len, w, n, i) == WrappedHits(s, len, w, n, i)
  {
    if len > 0 {
      WrappedShift(s, len - 1, w, n, i);
      PlusWrap(s + len - 1, w);
    }
  }

  lemma PlusWrap(t: nat, w: nat)
    requires w > 0
    ensures (t + w) % w == t % w
  {
    assert t + w == (t / w + 1) * w + t % w;
    RemOf(t / w + 1, t % w, w);
  }

  ghost predicate FairEverywhere(w: nat, n: nat) {
    n > 0 && w > 0 && forall s: nat, i: nat :: s < w && i < n ==> WrappedHits(s, n, w, n, i) == 1
  }

  /**
   * A counter that wraps stays fair in every round, the one across the wrap included, exactly when the
   * list's length divides the wrap.
   */
  lemma FairAcrossWrapIff(w: nat, n: nat)
    requires 0 < n <= w
    ensures FairEverywhere(w, n) <==> w % n == 0
  {
    if w % n == 0 {
      var m := w / n;
      assert w == m * n;
      forall s: nat, i: nat | s < w && i < n ensures WrappedHits(s, n, w, n, i) == 1 {
        WrapUnseen(s, n, m, n, i);
        EachOnceARound(s, n, i);
      }
    } else {
      NextRem(w - 1, n);
      AcrossTheWrap(w, n, n, n - 1);
      assert WrappedHits(w - 1, n, w, n, n - 1) == 0;
    }
  }

  /** The results of a round of calls with one listing that all succeed, from a given counter. */
  ghost predicate RoundFrom(mc: nat, calls: seq<Listing>, eligible: seq<string>, domains: seq<string>) {
    && mc < WRAP && domains != [] && |calls| == |eligible|
    && forall k :: 0 <= k < |calls| ==>
         Lists(calls[k], eligible, domains) && calls[k].domains == Ok(domains)
  }

  /**
   * n successive calls that find the same n distinct clusters choose each of them once, from whatever
   * value the counter starts, exactly when n divides 2^64.
   */
  lemma DynamicFairIff(eligible: seq<string>)
    requires 0 < |eligible| <= 0x1_0000_0000_0000_0000
    requires forall a, b :: 0 <= a < b < |eligible| ==> eligible[a] != eligible[b]
    ensures (forall mc: nat, dom: nat, calls, domains, i: nat ::
               RoundFrom(mc, calls, eligible, domains) && dom < WRAP && i < |eligible| ==>
                 Chosen(Drawn(mc, dom, calls).2, eligible[i]) == 1)
       <==> 0x1_0000_0000_0000_0000 % |eligible| == 0
  {
    hide Draw, Drawn, Chosen, WrappedHits;
    var n := |eligible|;
    FairAcrossWrapIff(WRAP, n);
    forall mc: nat, dom: nat, calls, domains, i: nat |
        RoundFrom(mc, calls, eligible, domains) && dom < WRAP && i < n
      ensures Chosen(Drawn(mc, dom, calls).2, eligible[i]) == WrappedHits(mc + 1, n, WRAP, n, i)
    {
      RoundHits(mc, dom, calls, eligible, domains, i);
    }
    if FairEverywhere(WRAP, n) {
      forall s: nat, i: nat | s <= WRAP && i < n ensures WrappedHits(s, n, WRAP, n, i) == 1 {
        if s == WRAP { WrappedShift(0, n, WRAP, n, i); }
      }
    } else {
      var s: nat, i: nat :| s < WRAP && i < n && WrappedHits(s, n, WRAP, n, i) != 1;
      WrappedShift(0, n, WRAP, n, i);
      var mc: nat := if s == 0 then WRAP - 1 else s - 1;
      var l := Listing(Ok(eligible), Ok(eligible), Ok(["domain"]));
      var calls := seq(n, k => l);
      AllEligible(eligible, eligible);
      assert RoundFrom(mc, calls, eligible, ["domain"]);
      assert Chosen(Drawn(mc, 0, calls).2, eligible[i]) != 1;
    }
  }

  lemma RoundHits(mc: nat, dom: nat, calls: seq<Listing>, eligible: seq<string>, domains: seq<string>, i: nat)
    requires RoundFrom(mc, calls, eligible, domains) && dom < WRAP && i < |eligible|
    requires forall a, b :: 0 <= a < b < |eligible| ==> eligible[a] != eligible[b]
    ensures Chosen(Drawn(mc, dom, calls).2, eligible[i]) == WrappedHits(mc + 1, |eligible|, WRAP, |eligible|, i)
  {
    hide Draw, Drawn, Chosen, WrappedHits, WithDomains;
    DynamicServesInTurn(mc, dom, calls, eligible, domains);
    ChosenAreHits(mc, Drawn(mc, dom, calls).2, eligible, i);
  }

  lemma {:induction false} AllEligible(secrets: seq<string>, consumers: seq<string>)
    requires forall x :: x in secrets ==> x in consumers
    ensures Eligible(secrets, consumers) == secrets
  {
    if secrets != [] {
      AllEligible(secrets[..|secrets| - 1], consumers);
    }
  }
}
