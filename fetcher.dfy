/** The retry loop every outbound GET of the server goes through
    (`fetchData`, server/index.js:17-37).

    The HTTP client is not modelled: what the `attempt`-th request produced
    is an input, `outcome(attempt)`, and each `sleep` the loop performs is
    recorded, in order, as the wait it asked for in milliseconds. */
module Fetcher {
  import opened Js

  /** What one `axios.get` produced: a response with its status and parsed
      body, or an exception (network error, timeout). */
  datatype Attempt = Reply(status: int, body: Json) | Failed

  /** The outcomes after which the loop sleeps and tries again: status 429
      and a thrown error. */
  predicate Retryable(a: Attempt) {
    a.Failed? || a.status == 429
  }

  /** The value `fetchData` resolves to (`None` is its `return null`), the
      number of requests it issued and the waits it slept, in order. */
  datatype FetchResult = FetchResult(data: Option<Json>, attempts: nat, waits: seq<int>)

  /** The defaults of `retries` and `backoffFactor`, which every call of the
      handler uses (the soil call spells them out). */
  const DefaultRetries: int := 3
  const DefaultBackoff: int := 2000

  function Pow2(k: nat): (r: nat)
    ensures r >= 1
  {
    if k == 0 then 1 else 2 * Pow2(k - 1)
  }

  /** `backoffFactor * Math.pow(2, attempt)`: the wait after a retryable
      outcome of the `attempt`-th request (0-based). */
  function Backoff(backoffFactor: int, attempt: nat): int {
    backoffFactor * Pow2(attempt)
  }

  /** The loop from iteration `attempt` on, with no wait recorded yet. */
  function FetchFrom(attempt: nat, retries: int, backoffFactor: int, outcome: nat -> Attempt): (r: FetchResult)
    ensures attempt >= retries ==> r == FetchResult(None, attempt, [])
    ensures attempt < retries ==> attempt < r.attempts
    ensures |r.waits| <= r.attempts - attempt
    decreases retries - attempt
  {
    if attempt >= retries then FetchResult(None, attempt, [])
    else
      match outcome(attempt)
      case Reply(status, body) =>
        if status == 200 then FetchResult(Some(body), attempt + 1, [])
        else if status == 429 then
          var rest := FetchFrom(attempt + 1, retries, backoffFactor, outcome);
          rest.(waits := [Backoff(backoffFactor, attempt)] + rest.waits)
        else FetchResult(None, attempt + 1, [])
      case Failed =>
        var rest := FetchFrom(attempt + 1, retries, backoffFactor, outcome);
        rest.(waits := [Backoff(backoffFactor, attempt)] + rest.waits)
  }

  /** The reference definition of a whole `fetchData` call. */
  function Fetch(retries: int, backoffFactor: int, outcome: nat -> Attempt): (r: FetchResult)
    ensures r.attempts == 0 <==> retries <= 0
    ensures |r.waits| <= r.attempts
  {
    FetchFrom(0, retries, backoffFactor, outcome)
  }

  /** The number of iterations `for (attempt = 0; attempt < retries; ...)`
      can run. */
  function MaxAttempts(retries: int): nat {
    if retries > 0 then retries else 0
  }

  /** `fetchData` itself: the loop, with an early return on 200, a `break`
      on any other status than 429, and a sleep after a 429 or a thrown
      error. */
  method FetchData(retries: int, backoffFactor: int, outcome: nat -> Attempt)
    returns (data: Option<Json>, attempts: nat, waits: seq<int>)
    ensures FetchResult(data, attempts, waits) == Fetch(retries, backoffFactor, outcome)
  {
    data, attempts, waits := None, 0, [];
    var attempt: nat := 0;
    while attempt < retries
      invariant attempts == attempt
      invariant var rest := FetchFrom(attempt, retries, backoffFactor, outcome);
        Fetch(retries, backoffFactor, outcome) == FetchResult(rest.data, rest.attempts, waits + rest.waits)
      decreases retries - attempt
    {
      attempts := attempts + 1;
      match outcome(attempt) {
        case Reply(status, body) =>
          if status == 200 {
            data := Some(body);
            return;
          } else if status == 429 {
            RetryStep(waits, attempt, retries, backoffFactor, outcome);
            waits := waits + [Backoff(backoffFactor, attempt)];
          } else {
            break;
          }
        case Failed =>
          RetryStep(waits, attempt, retries, backoffFactor, outcome);
          waits := waits + [Backoff(backoffFactor, attempt)];
      }
      attempt := attempt + 1;
    }
  }

  /** One retried iteration moves its wait from the rest of the loop to the
      waits already slept. */
  lemma RetryStep(waits: seq<int>, attempt: nat, retries: int, backoffFactor: int, outcome: nat -> Attempt)
    requires attempt < retries && Retryable(outcome(attempt))
    ensures var here := FetchFrom(attempt, retries, backoffFactor, outcome);
      var rest := FetchFrom(attempt + 1, retries, backoffFactor, outcome);
      && here.data == rest.data && here.attempts == rest.attempts
      && waits + here.waits == (waits + [Backoff(backoffFactor, attempt)]) + rest.waits
  {
  }

  /** Everything that holds of the loop run from iteration `k` on: it stops
      within the budget, every request but the last one got a retryable
      outcome, a body comes back exactly when the last request got 200, and
      the waits are the doubling backoffs of the retryable requests, one per
      request except a last non-retryable one. */
  lemma {:induction false} FetchFromFacts(k: nat, retries: int, backoffFactor: int, outcome: nat -> Attempt)
    ensures var r := FetchFrom(k, retries, backoffFactor, outcome);
      && k <= r.attempts
      && (k < retries ==> r.attempts <= retries)
      && (k >= retries ==> r == FetchResult(None, k, []))
      && (forall j :: k <= j < r.attempts - 1 ==> Retryable(outcome(j)))
      && (r.attempts < retries ==> k < r.attempts && !Retryable(outcome(r.attempts - 1)))
      && (r.data.Some? <==> k < r.attempts && outcome(r.attempts - 1).Reply? && outcome(r.attempts - 1).status == 200)
      && (r.data.Some? ==> r.data == Some(outcome(r.attempts - 1).body))
      && |r.waits| == (if k < r.attempts && !Retryable(outcome(r.attempts - 1)) then r.attempts - k - 1 else r.attempts - k)
      && (forall i :: 0 <= i < |r.waits| ==> r.waits[i] == Backoff(backoffFactor, k + i))
    decreases retries - k
  {
    if k < retries {
      var a := outcome(k);
      if Retryable(a) {
        FetchFromFacts(k + 1, retries, backoffFactor, outcome);
        var rest := FetchFrom(k + 1, retries, backoffFactor, outcome);
        var r := FetchFrom(k, retries, backoffFactor, outcome);
        assert r.waits == [Backoff(backoffFactor, k)] + rest.waits;
        forall i | 0 <= i < |r.waits|
          ensures r.waits[i] == Backoff(backoffFactor, k + i)
        {
          if i > 0 {
            assert r.waits[i] == rest.waits[i - 1];
          }
        }
      }
    }
  }

  /** `fetchData` issues at most `retries` requests, and none at all (and
      returns `null`) when `retries` is not positive. */
  lemma AttemptsWithinBudget(retries: int, backoffFactor: int, outcome: nat -> Attempt)
    ensures Fetch(retries, backoffFactor, outcome).attempts <= MaxAttempts(retries)
    ensures retries <= 0 ==> Fetch(retries, backoffFactor, outcome) == FetchResult(None, 0, [])
  {
    FetchFromFacts(0, retries, backoffFactor, outcome);
  }

  /** A body is returned exactly when the last request issued got status
      200, and it is that request's body: a 200 ends the loop at once. */
  lemma BodyOnlyFrom200(retries: int, backoffFactor: int, outcome: nat -> Attempt)
    ensures var r := Fetch(retries, backoffFactor, outcome);
      && (r.data.Some? <==> r.attempts > 0 && outcome(r.attempts - 1).Reply? && outcome(r.attempts - 1).status == 200)
      && (r.data.Some? ==> r.data == Some(outcome(r.attempts - 1).body))
  {
    FetchFromFacts(0, retries, backoffFactor, outcome);
  }

  /** Every request before the last one got a 429 or threw, and the loop
      stops before using its budget only because of a non-retryable
      outcome. */
  lemma RetriesOnlyAfterRetryable(retries: int, backoffFactor: int, outcome: nat -> Attempt)
    ensures var r := Fetch(retries, backoffFactor, outcome);
      && (forall j :: 0 <= j < r.attempts - 1 ==> Retryable(outcome(j)))
      && (r.attempts < MaxAttempts(retries) ==> r.attempts > 0 && !Retryable(outcome(r.attempts - 1)))
  {
    FetchFromFacts(0, retries, backoffFactor, outcome);
  }

  /** The `i`-th wait is `backoffFactor * 2^i`, with no cap; there is one
      wait per request, the final one included, unless the last request got
      a status other than 429, which ends the loop without a wait. */
  lemma WaitsDouble(retries: int, backoffFactor: int, outcome: nat -> Attempt)
    ensures var r := Fetch(retries, backoffFactor, outcome);
      && (forall i :: 0 <= i < |r.waits| ==> r.waits[i] == backoffFactor * Pow2(i))
      && (forall i :: 0 < i < |r.waits| ==> r.waits[i] == 2 * r.waits[i - 1])
      && |r.waits| == (if r.attempts > 0 && !Retryable(outcome(r.attempts - 1)) then r.attempts - 1 else r.attempts)
  {
    FetchFromFacts(0, retries, backoffFactor, outcome);
    var r := Fetch(retries, backoffFactor, outcome);
    forall i | 0 < i < |r.waits|
      ensures r.waits[i] == 2 * r.waits[i - 1]
    {
      calc {
        r.waits[i];
        backoffFactor * (2 * Pow2(i - 1));
        2 * (backoffFactor * Pow2(i - 1));
      }
    }
  }

  /** A status other than 200 and 429 on request `k`, after `k` retryable
      outcomes, ends the call with `null` after exactly `k + 1` requests and
      no wait for the last one. */
  lemma {:induction false} NonRetryableStops(k: nat, retries: int, backoffFactor: int, outcome: nat -> Attempt)
    requires k < retries
    requires forall j :: 0 <= j < k ==> Retryable(outcome(j))
    requires outcome(k).Reply? && outcome(k).status != 200 && outcome(k).status != 429
    ensures var r := Fetch(retries, backoffFactor, outcome);
      r.data == None && r.attempts == k + 1 && |r.waits| == k
  {
    FirstDecisive(0, k, retries, backoffFactor, outcome);
  }

  /** A 200 on request `k`, after `k` retryable outcomes, returns its body
      after exactly `k + 1` requests and `k` waits. */
  lemma {:induction false} SucceedsAt(k: nat, retries: int, backoffFactor: int, outcome: nat -> Attempt)
    requires k < retries
    requires forall j :: 0 <= j < k ==> Retryable(outcome(j))
    requires outcome(k).Reply? && outcome(k).status == 200
    ensures var r := Fetch(retries, backoffFactor, outcome);
      r.data == Some(outcome(k).body) && r.attempts == k + 1 && |r.waits| == k
  {
    FirstDecisive(0, k, retries, backoffFactor, outcome);
  }

  /** When every request within the budget gets a 429 or throws, the call
      returns `null` after `retries` requests and `retries` waits, the last
      one slept after the final request. */
  lemma {:induction false} ExhaustedReturnsNull(retries: int, backoffFactor: int, outcome: nat -> Attempt)
    requires forall j :: 0 <= j < retries ==> Retryable(outcome(j))
    ensures var r := Fetch(retries, backoffFactor, outcome);
      r.data == None && r.attempts == MaxAttempts(retries) && |r.waits| == MaxAttempts(retries)
  {
    FetchFromFacts(0, retries, backoffFactor, outcome);
  }

  /** Iterations `k` to `n - 1` retry, and iteration `n` decides. */
  lemma {:induction false} FirstDecisive(k: nat, n: nat, retries: int, backoffFactor: int, outcome: nat -> Attempt)
    requires k <= n < retries
    requires forall j :: k <= j < n ==> Retryable(outcome(j))
    requires !Retryable(outcome(n))
    ensures var r := FetchFrom(k, retries, backoffFactor, outcome);
      && r.attempts == n + 1 && |r.waits| == n - k
      && r.data == (if outcome(n).status == 200 then Some(outcome(n).body) else None)
    decreases n - k
  {
    if k < n {
      FirstDecisive(k + 1, n, retries, backoffFactor, outcome);
    }
  }

  /** Two 429 responses and then a 200: three requests, the 200 body, and
      waits of 2 and 4 seconds. */
  lemma RateLimitedTwiceThenOk(body: Json)
    ensures var outcome := (i: nat) => if i < 2 then Reply(429, JNull) else Reply(200, body);
      Fetch(DefaultRetries, DefaultBackoff, outcome) == FetchResult(Some(body), 3, [2000, 4000])
  {
  }

  /** A source that always times out: three requests, `null`, and a wait
      after each of them, the last included. */
  lemma AlwaysFailingSource()
    ensures Fetch(DefaultRetries, DefaultBackoff, (i: nat) => Failed) == FetchResult(None, 3, [2000, 4000, 8000])
  {
  }

  /** A 404 is not retried: one request, `null`, no wait. */
  lemma NotFoundIsFinal(body: Json)
    ensures Fetch(DefaultRetries, DefaultBackoff, (i: nat) => Reply(404, body)) == FetchResult(None, 1, [])
  {
  }
}
