/**
 * The retry policy of `HLTVBase.make_request`.  Each attempt has an
 * outcome supplied by the environment: an HTTP status, or a transport
 * exception whose message does or does not mention a redirect.  Sleeping is
 * not modelled; the waits the source would sleep are returned instead, with
 * the random jitter of each attempt supplied as a parameter.
 */
module Fetch {
  import opened Wrappers

  /** What one attempt produced. */
  datatype Outcome = Status(code: int) | Exn(mentionsRedirect: bool)

  /** Why `make_request` raised `HTTPException`. */
  datatype Cause = ClientError | Redirect | Transport | Exhausted

  /** The response that was returned, or the `HTTPException` that was raised, with its status. */
  datatype Reply = Returned(status: int) | Raised(status: int, cause: Cause)

  /** Rate limiting or a Cloudflare block: back off and try again. */
  predicate Blocked(code: int) { code == 403 || code == 429 || code == 503 }

  /** Outcomes after which the loop goes on to the next attempt. */
  predicate Retryable(o: Outcome) {
    match o
    case Status(c) => Blocked(c)
    case Exn(redirect) => !redirect
  }

  /** The reply of an attempt whose outcome ends the loop. */
  function Decide(o: Outcome): (r: Reply)
    requires !Retryable(o)
    ensures r.Returned? ==> o == Status(r.status) && !Blocked(r.status) && !(400 <= r.status < 500)
    ensures r.Raised? && r.cause == ClientError ==> o == Status(r.status) && 400 <= r.status < 500
    ensures r.Raised? ==> r.cause == ClientError || (r.cause == Redirect && r.status == 404 && o == Exn(true))
  {
    match o
    case Status(c) => if 400 <= c < 500 then Raised(c, ClientError) else Returned(c)
    case Exn(_) => Raised(404, Redirect)
  }

  function Pow2(n: nat): (p: nat)
    ensures p >= 1
  {
    if n == 0 then 1 else 2 * Pow2(n - 1)
  }

  /** The wait after a failed attempt: `2 ** attempt + uniform(2, 5)`. */
  function Backoff(attempt: nat, jitter: nat -> real): real {
    Pow2(attempt) as real + jitter(attempt)
  }

  /**
   * The attempts from `attempt` on: the reply, the waits slept, and the
   * number of attempts made.  `transport` records whether an earlier attempt
   * stored a transport error in `last_exception`.
   */
  function Attempts(outcome: nat -> Outcome, jitter: nat -> real, attempt: nat, maxRetries: int, transport: bool)
    : (res: (Reply, seq<real>, nat))
    decreases maxRetries - attempt
  {
    if attempt >= maxRetries then
      (Raised(500, if transport then Transport else Exhausted), [], 0)
    else if Retryable(outcome(attempt)) then
      var rest := Attempts(outcome, jitter, attempt + 1, maxRetries, transport || outcome(attempt).Exn?);
      (rest.0, [Backoff(attempt, jitter)] + rest.1, 1 + rest.2)
    else
      (Decide(outcome(attempt)), [], 1)
  }

  /** A retried attempt backs off once and hands over to the next attempt. */
  lemma RetryStep(outcome: nat -> Outcome, jitter: nat -> real, attempt: nat, maxRetries: int, transport: bool, waits: seq<real>)
    requires attempt < maxRetries && Retryable(outcome(attempt))
    ensures var cur := Attempts(outcome, jitter, attempt, maxRetries, transport);
      var next := Attempts(outcome, jitter, attempt + 1, maxRetries, transport || outcome(attempt).Exn?);
      && cur.0 == next.0
      && (waits + [Backoff(attempt, jitter)]) + next.1 == waits + cur.1
      && cur.2 == 1 + next.2
  {
    var next := Attempts(outcome, jitter, attempt + 1, maxRetries, transport || outcome(attempt).Exn?);
    assert waits + ([Backoff(attempt, jitter)] + next.1) == (waits + [Backoff(attempt, jitter)]) + next.1;
  }

  /** A decisive attempt is the last one and gives the reply. */
  lemma DecisiveStep(outcome: nat -> Outcome, jitter: nat -> real, attempt: nat, maxRetries: int, transport: bool)
    requires attempt < maxRetries && !Retryable(outcome(attempt))
    ensures Attempts(outcome, jitter, attempt, maxRetries, transport) == (Decide(outcome(attempt)), [], 1)
  {
  }

  /** `make_request(url, max_retries)`: a loop over at most `maxRetries` attempts. */
  method MakeRequest(outcome: nat -> Outcome, jitter: nat -> real, maxRetries: int)
    returns (r: Reply, waits: seq<real>, attempts: nat)
    ensures (r, waits, attempts) == Attempts(outcome, jitter, 0, maxRetries, false)
  {
    var attempt: nat := 0;
    var transport := false;
    waits := [];
    ghost var total := Attempts(outcome, jitter, 0, maxRetries, false);
    while attempt < maxRetries
      invariant Attempts(outcome, jitter, attempt, maxRetries, transport).0 == total.0
      invariant waits + Attempts(outcome, jitter, attempt, maxRetries, transport).1 == total.1
      invariant attempt + Attempts(outcome, jitter, attempt, maxRetries, transport).2 == total.2
      invariant |waits| == attempt
      decreases maxRetries - attempt
    {
      var o := outcome(attempt);
      if o.Status? && Blocked(o.code) {
        RetryStep(outcome, jitter, attempt, maxRetries, transport, waits);
        waits := waits + [Backoff(attempt, jitter)];
        attempt := attempt + 1;
        continue;
      }
      if o.Status? && 400 <= o.code < 500 {
        DecisiveStep(outcome, jitter, attempt, maxRetries, transport);
        r, attempts := Raised(o.code, ClientError), attempt + 1;
        assert waits + [] == waits;
        return;
      }
      if o.Status? {
        DecisiveStep(outcome, jitter, attempt, maxRetries, transport);
        r, attempts := Returned(o.code), attempt + 1;
        assert waits + [] == waits;
        return;
      }
      if o.mentionsRedirect {
        DecisiveStep(outcome, jitter, attempt, maxRetries, transport);
        r, attempts := Raised(404, Redirect), attempt + 1;
        assert waits + [] == waits;
        return;
      }
      RetryStep(outcome, jitter, attempt, maxRetries, transport, waits);
      transport := true;
      waits := waits + [Backoff(attempt, jitter)];
      attempt := attempt + 1;
    }
    r := Raised(500, if transport then Transport else Exhausted);
    attempts := attempt;
    assert waits + [] == waits;
  }

  // ---------------------------------------------------------------- a declarative reading

  /** The first attempt below `maxRetries`, from `from` on, whose outcome ends the loop. */
  function FirstDecisive(outcome: nat -> Outcome, from: nat, maxRetries: int): (k: Option<nat>)
    ensures k.Some? ==> (from <= k.value < maxRetries && !Retryable(outcome(k.value))
      && forall j :: from <= j < k.value ==> Retryable(outcome(j)))
    ensures k.None? ==> forall j :: from <= j < maxRetries ==> Retryable(outcome(j))
    decreases maxRetries - from
  {
    if from >= maxRetries then None
    else if !Retryable(outcome(from)) then Some(from)
    else FirstDecisive(outcome, from + 1, maxRetries)
  }

  /** Some attempt in `[from, upTo)` ended in a transport error. */
  predicate TransportBetween(outcome: nat -> Outcome, from: nat, upTo: int) {
    exists j :: from <= j < upTo && outcome(j) == Exn(false)
  }

  /**
   * What `make_request` does, stated without the loop: the first decisive
   * attempt decides the reply, after a backoff for each attempt before it;
   * with none, every attempt backs off and the error is 500, from the last
   * transport error if there was one.
   */
  lemma AttemptsCharacterised(outcome: nat -> Outcome, jitter: nat -> real, from: nat, maxRetries: int, transport: bool)
    ensures var res := Attempts(outcome, jitter, from, maxRetries, transport);
      match FirstDecisive(outcome, from, maxRetries)
      case Some(k) =>
        res.0 == Decide(outcome(k)) && res.2 == k - from + 1 && |res.1| == k - from
        && forall j :: 0 <= j < |res.1| ==> res.1[j] == Backoff(from + j, jitter)
      case None =>
        res.0 == Raised(500, if transport || TransportBetween(outcome, from, maxRetries) then Transport else Exhausted)
        && res.2 == (if maxRetries > from then maxRetries - from else 0) && |res.1| == res.2
        && forall j :: 0 <= j < |res.1| ==> res.1[j] == Backoff(from + j, jitter)
  {
    AttemptsReply(outcome, jitter, from, maxRetries, transport);
    AttemptsCount(outcome, jitter, from, maxRetries, transport);
    AttemptsWaits(outcome, jitter, from, maxRetries, transport);
  }

  /** The reply is decided by the first decisive attempt, or is the 500 of exhausted retries. */
  lemma {:induction false} AttemptsReply(outcome: nat -> Outcome, jitter: nat -> real, from: nat, maxRetries: int, transport: bool)
    ensures Attempts(outcome, jitter, from, maxRetries, transport).0 ==
      match FirstDecisive(outcome, from, maxRetries)
      case Some(k) => Decide(outcome(k))
      case None => Raised(500, if transport || TransportBetween(outcome, from, maxRetries) then Transport else Exhausted)
    decreases maxRetries - from
  {
    if from < maxRetries && Retryable(outcome(from)) {
      var t := transport || outcome(from).Exn?;
      AttemptsReply(outcome, jitter, from + 1, maxRetries, t);
      assert FirstDecisive(outcome, from, maxRetries) == FirstDecisive(outcome, from + 1, maxRetries);
      if FirstDecisive(outcome, from, maxRetries).None? {
        if TransportBetween(outcome, from + 1, maxRetries) {
          var j :| from + 1 <= j < maxRetries && outcome(j) == Exn(false);
          assert from <= j;
        }
        if outcome(from).Exn? {
          assert outcome(from) == Exn(false);
        }
        if TransportBetween(outcome, from, maxRetries) && !TransportBetween(outcome, from + 1, maxRetries) {
          var j :| from <= j < maxRetries && outcome(j) == Exn(false);
          assert j == from;
        }
      }
    } else if from >= maxRetries {
      assert !TransportBetween(outcome, from, maxRetries);
    }
  }

  /** One attempt per retried outcome and one for the decisive one; a wait for each retried one. */
  lemma {:induction false} AttemptsCount(outcome: nat -> Outcome, jitter: nat -> real, from: nat, maxRetries: int, transport: bool)
    ensures var res := Attempts(outcome, jitter, from, maxRetries, transport);
      match FirstDecisive(outcome, from, maxRetries)
      case Some(k) => res.2 == k - from + 1 && |res.1| == k - from
      case None => res.2 == (if maxRetries > from then maxRetries - from else 0) && |res.1| == res.2
    decreases maxRetries - from
  {
    if from < maxRetries && Retryable(outcome(from)) {
      AttemptsCount(outcome, jitter, from + 1, maxRetries, transport || outcome(from).Exn?);
      assert FirstDecisive(outcome, from, maxRetries) == FirstDecisive(outcome, from + 1, maxRetries);
    }
  }

  /** The j-th wait is the backoff of attempt `from + j`. */
  lemma {:induction false} AttemptsWaits(outcome: nat -> Outcome, jitter: nat -> real, from: nat, maxRetries: int, transport: bool)
    ensures forall j :: 0 <= j < |Attempts(outcome, jitter, from, maxRetries, transport).1| ==>
      Attempts(outcome, jitter, from, maxRetries, transport).1[j] == Backoff(from + j, jitter)
    decreases maxRetries - from
  {
    if from < maxRetries && Retryable(outcome(from)) {
      var t := transport || outcome(from).Exn?;
      AttemptsWaits(outcome, jitter, from + 1, maxRetries, t);
      var rest := Attempts(outcome, jitter, from + 1, maxRetries, t).1;
      var waits := Attempts(outcome, jitter, from, maxRetries, transport).1;
      assert waits == [Backoff(from, jitter)] + rest;
      forall j | 0 <= j < |waits|
        ensures waits[j] == Backoff(from + j, jitter)
      {
        if j > 0 {
          assert waits[j] == rest[j - 1] == Backoff(from + 1 + (j - 1), jitter);
        } else {
          assert waits[0] == Backoff(from, jitter);
        }
      }
    }
  }

  /** A blocked status is never returned, nor is any other 4xx status. */
  lemma NeverReturnsBlockedOrClientError(outcome: nat -> Outcome, jitter: nat -> real, maxRetries: int)
    ensures var r := Attempts(outcome, jitter, 0, maxRetries, false).0;
      r.Returned? ==> !Blocked(r.status) && !(400 <= r.status < 500)
  {
    AttemptsCharacterised(outcome, jitter, 0, maxRetries, false);
  }

  /** A 4xx status other than 403 and 429 raises at once with that status. */
  lemma ClientErrorIsFinal(outcome: nat -> Outcome, jitter: nat -> real, maxRetries: int, k: nat)
    requires k < maxRetries && forall j :: 0 <= j < k ==> Retryable(outcome(j))
    requires outcome(k).Status? && 400 <= outcome(k).code < 500 && !Blocked(outcome(k).code)
    ensures Attempts(outcome, jitter, 0, maxRetries, false) == (Raised(outcome(k).code, ClientError), Attempts(outcome, jitter, 0, maxRetries, false).1, k + 1)
  {
    AttemptsCharacterised(outcome, jitter, 0, maxRetries, false);
    var f := FirstDecisive(outcome, 0, maxRetries);
    assert f == Some(k);
  }

  /** At most `maxRetries` attempts are made, and a wait follows each failed attempt except a decisive one. */
  lemma AttemptsBounded(outcome: nat -> Outcome, jitter: nat -> real, maxRetries: int)
    ensures var res := Attempts(outcome, jitter, 0, maxRetries, false);
      res.2 <= (if maxRetries > 0 then maxRetries else 0) && res.2 - 1 <= |res.1| <= res.2
  {
    AttemptsCharacterised(outcome, jitter, 0, maxRetries, false);
  }

  /** With jitter drawn from [2, 5], the wait after attempt `j` lies in [2^j + 2, 2^j + 5]. */
  lemma WaitsBounded(outcome: nat -> Outcome, jitter: nat -> real, maxRetries: int)
    requires forall j: nat :: 2.0 <= jitter(j) <= 5.0
    ensures var w := Attempts(outcome, jitter, 0, maxRetries, false).1;
      forall j :: 0 <= j < |w| ==> Pow2(j) as real + 2.0 <= w[j] <= Pow2(j) as real + 5.0
  {
    AttemptsCharacterised(outcome, jitter, 0, maxRetries, false);
  }
}
