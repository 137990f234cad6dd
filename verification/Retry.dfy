// The API client's retry loop.
module Retry {
  import opened Wrappers

  // What one attempt yields. A failed connection and a response body that cannot be read are one case.
  datatype Response = NetworkError | Status(code: nat, body: string)

  datatype Failure = NotFound | Rejected(code: nat) | Unreadable | Cancelled | Exhausted(attempts: nat)

  const MAX_ATTEMPTS: nat := 3

  // What the loop does to the outside world.
  datatype Effect = Sent(body: string) | Slept(units: nat)

  predicate Transient(r: Response) {
    r.NetworkError? || r.code >= 500
  }

  /** The result of a response that is not retried; `readable` says whether a 2xx body can be decoded. */
  function Decisive(r: Response, readable: string -> bool): Result<string, Failure>
    requires !Transient(r)
  {
    if r.code == 404 then Err(NotFound)
    else if r.code < 200 || r.code >= 300 then Err(Rejected(r.code))
    else if r.body == "" || readable(r.body) then Ok(r.body)
    else Err(Unreadable)
  }

  /** The first response among the first n that is not transient, if any. */
  function FirstDecisive(responses: seq<Response>, n: nat): (k: Option<nat>)
    ensures k.Some? ==> k.value < n && k.value < |responses| && !Transient(responses[k.value])
    ensures k.Some? ==> forall i :: 0 <= i < k.value ==> Transient(responses[i])
    ensures k.None? ==> forall i :: 0 <= i < n && i < |responses| ==> Transient(responses[i])
  {
    if n == 0 || responses == [] then None
    else if !Transient(responses[0]) then Some(0)
    else
      var rest := FirstDecisive(responses[1..], n - 1);
      if rest.None? then None else Some(rest.value + 1)
  }

  function Pow2(k: nat): nat {
    if k == 0 then 1 else 2 * Pow2(k - 1)
  }

  /** Time slept, in units of the initial backoff. */
  function SleepOf(effects: seq<Effect>): nat {
    if effects == [] then 0
    else SleepOf(effects[..|effects| - 1]) + if effects[|effects| - 1].Slept? then effects[|effects| - 1].units else 0
  }

  function Sends(effects: seq<Effect>): nat {
    if effects == [] then 0 else Sends(effects[..|effects| - 1]) + if effects[|effects| - 1].Sent? then 1 else 0
  }

  /** k attempts with a doubling wait between each two. */
  function Attempts(body: string, k: nat): seq<Effect> {
    if k == 0 then [] else if k == 1 then [Sent(body)] else Attempts(body, k - 1) + [Slept(Pow2(k - 2)), Sent(body)]
  }

  lemma {:induction false} AttemptsCost(body: string, k: nat)
    ensures var es := Attempts(body, k);
            && Sends(es) == k && (k > 0 ==> SleepOf(es) == Pow2(k - 1) - 1) && (k == 0 ==> SleepOf(es) == 0)
            && forall e :: e in es && e.Sent? ==> e.body == body
  {
    var es := Attempts(body, k);
    if k == 1 {
      assert es[..0] == [];
    } else if k > 1 {
      AttemptsCost(body, k - 1);
      var front := Attempts(body, k - 1);
      assert es == front + [Slept(Pow2(k - 2)), Sent(body)];
      assert es[..|es| - 1] == front + [Slept(Pow2(k - 2))];
      assert (front + [Slept(Pow2(k - 2))])[..|front|] == front;
    }
  }

  /**
   * The context ends in a wait the loop gets to: one that follows a transient response and precedes another
   * attempt.
   */
  ghost predicate CutShort(responses: seq<Response>, limit: nat, cancelledAt: Option<nat>)
    requires |responses| >= limit
  {
    cancelledAt.Some? && cancelledAt.value + 1 < limit
    && forall i :: 0 <= i <= cancelledAt.value ==> Transient(responses[i])
  }

  /**
   * `doWithRetry` for any attempt limit. `responses[i]` is what attempt i + 1 meets, and
   * `cancelledAt` the wait during which the context ends, if it does.
   */
  method DoWithRetry(body: string, limit: nat, responses: seq<Response>, readable: string -> bool,
          cancelledAt: Option<nat>)
    returns (r: Result<string, Failure>, effects: seq<Effect>)
    requires |responses| >= limit
    ensures CutShort(responses, limit, cancelledAt) ==>
      r == Err(Cancelled) && effects == Attempts(body, cancelledAt.value + 1)
    ensures !CutShort(responses, limit, cancelledAt) ==>
      var k := FirstDecisive(responses, limit);
      if k.Some? then r == Decisive(responses[k.value], readable) && effects == Attempts(body, k.value + 1)
      else r == Err(Exhausted(limit)) && effects == Attempts(body, limit)
    ensures exists k: nat :: k <= limit && effects == Attempts(body, k)
    ensures forall i: nat ::
      i < limit && (forall j :: 0 <= j < i ==> responses[j].NetworkError? || responses[j].code >= 500)
      && responses[i].Status? && responses[i].code < 500 && !(cancelledAt.Some? && cancelledAt.value < i) ==>
        var code, answer := responses[i].code, responses[i].body;
        && Sends(effects) == i + 1
        && r == if code == 404 then Err(NotFound)
                else if code < 200 || code > 299 then Err(Rejected(code))
                else if answer == "" || readable(answer) then Ok(answer)
                else Err(Unreadable)
    ensures (forall j :: 0 <= j < limit ==> responses[j].NetworkError? || responses[j].code >= 500)
            && !(cancelledAt.Some? && cancelledAt.value + 1 < limit) ==>
              r == Err(Exhausted(limit)) && Sends(effects) == limit
    ensures cancelledAt.Some? && cancelledAt.value + 1 < limit
            && (forall j :: 0 <= j <= cancelledAt.value ==> responses[j].NetworkError? || responses[j].code >= 500) ==>
              r == Err(Cancelled) && Sends(effects) == cancelledAt.value + 1
  {
    hide Attempts, Pow2, FirstDecisive, Decisive;
    effects := [];
    var backoff := 1;
    NoAttempts(body);
    for attempt := 1 to limit + 1
      invariant attempt <= limit ==> backoff == Pow2(attempt - 1)
      invariant effects ==
        if attempt == 1 then []
        else if attempt <= limit then Attempts(body, attempt - 1) + [Slept(Pow2(attempt - 2))]
        else Attempts(body, limit)
      invariant forall i :: 0 <= i < attempt - 1 ==> Transient(responses[i])
      invariant cancelledAt.Some? && cancelledAt.value + 1 < limit ==> attempt <= cancelledAt.value + 1
    {
      effects := effects + [Sent(body)];
      assert effects == Attempts(body, attempt) by { AttemptsStep(body, attempt); }
      var response := responses[attempt - 1];
      if Transient(response) {
        if attempt < limit {
          if cancelledAt == Some(attempt - 1) {
            AttemptsCost(body, attempt);
            return Err(Cancelled), effects;
          }
          effects := effects + [Slept(backoff)];
          backoff := backoff * 2;
          Doubles(attempt - 1);
        }
        continue;
      }
      FirstIs(responses, limit, attempt - 1);
      AttemptsCost(body, attempt);
      DecidesByCode(response, readable);
      return Decisive(response, readable), effects;
    }
    NoneIs(responses, limit);
    AttemptsCost(body, limit);
    return Err(Exhausted(limit)), effects;
  }

  lemma DecidesByCode(r: Response, readable: string -> bool)
    requires !Transient(r)
    ensures Decisive(r, readable) ==
      if r.code == 404 then Err(NotFound)
      else if r.code < 200 || r.code > 299 then Err(Rejected(r.code))
      else if r.body == "" || readable(r.body) then Ok(r.body)
      else Err(Unreadable)
  {
  }

  lemma NoAttempts(body: string)
    ensures Attempts(body, 0) == [] && Pow2(0) == 1
  {
  }

  lemma Doubles(k: nat)
    ensures Pow2(k + 1) == 2 * Pow2(k)
  {
  }

  lemma AttemptsStep(body: string, k: nat)
    requires k > 0
    ensures Attempts(body, k) ==
      if k == 1 then [Sent(body)] else Attempts(body, k - 1) + [Slept(Pow2(k - 2))] + [Sent(body)]
  {
    if k > 1 {
      assert Attempts(body, k - 1) + [Slept(Pow2(k - 2)), Sent(body)] ==
        Attempts(body, k - 1) + [Slept(Pow2(k - 2))] + [Sent(body)];
    }
  }

  lemma {:induction false} FirstIs(responses: seq<Response>, n: nat, k: nat)
    requires k < n && k < |responses| && !Transient(responses[k]) && forall i :: 0 <= i < k ==> Transient(responses[i])
    ensures FirstDecisive(responses, n) == Some(k)
  {
    if k > 0 {
      FirstIs(responses[1..], n - 1, k - 1);
    }
  }

  lemma NoneIs(responses: seq<Response>, n: nat)
    requires n <= |responses| && forall i :: 0 <= i < n ==> Transient(responses[i])
    ensures FirstDecisive(responses, n) == None
  {
  }

  /** Request, wait, request, and so on; the waits start at one initial backoff and double. */
  lemma {:induction false} AttemptsAt(body: string, k: nat, i: nat)
    requires i < k
    ensures var es := Attempts(body, k);
            |es| == 2 * k - 1 && es[2 * i] == Sent(body) && (i + 1 < k ==> es[2 * i + 1] == Slept(Pow2(i)))
    ensures Pow2(0) == 1 && Pow2(i + 1) == 2 * Pow2(i)
  {
    if k > 1 {
      AttemptsAt(body, k - 1, if i < k - 1 then i else i - 1);
    }
  }

  /**
   * Whatever happens, at most `limit` requests go out, all with the same body, and the time slept is at
   * most 2^(limit-1) - 1 initial backoffs.
   */
  lemma CostBound(body: string, limit: nat, k: nat)
    requires k <= limit && limit > 0
    ensures var es := Attempts(body, k);
            && Sends(es) <= limit && SleepOf(es) <= Pow2(limit - 1) - 1
            && forall e :: e in es && e.Sent? ==> e.body == body
  {
    AttemptsCost(body, k);
    Pow2Monotone(if k == 0 then 0 else k - 1, limit - 1);
  }

  lemma {:induction false} Pow2Monotone(a: nat, b: nat)
    requires a <= b
    ensures 1 <= Pow2(a) <= Pow2(b)
    decreases b
  {
    if a < b {
      Pow2Monotone(a, b - 1);
    } else if a > 0 {
      Pow2Monotone(a - 1, b - 1);
    }
  }

  /** With the client's own limit: at most three requests and three initial backoffs of waiting. */
  lemma ClientBound(body: string, k: nat)
    requires k <= MAX_ATTEMPTS
    ensures Sends(Attempts(body, k)) <= 3 && SleepOf(Attempts(body, k)) <= 3
  {
    CostBound(body, MAX_ATTEMPTS, k);
    assert Pow2(2) == 4;
  }
}
