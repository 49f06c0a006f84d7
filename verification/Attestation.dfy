// pollAttestationByTx (packages/core/src/attestation/index.ts): a retry loop with
// capped exponential backoff, over an arbitrary script of replies.

module Attestation {
  import opened Wrappers
  import Locks

  /** The first message row of an Iris v2 answer; an absent field is None. */
  datatype Row = Row(
    message: Option<string>, attestation: Option<string>, status: Option<string>,
    finalityThresholdExecuted: Option<int>, delayReason: Option<string>)

  /** One fetch: it throws, answers with an error status, or answers with a row or none. */
  datatype Reply = Threw | NotOk | Frame(row: Option<Row>)

  datatype AttestationResult = AttestationResult(
    attestation: string, message: string, signature: string, attempts: int,
    finalityThresholdExecuted: Option<int>, delayReason: Option<string>)

  datatype PollOutcome = Complete(result: AttestationResult) | TimedOut

  predicate IsComplete(r: Reply) {
    && r.Frame? && r.row.Some?
    && var row := r.row.value;
       && row.message.Some? && row.message.value != ""
       && row.attestation.Some? && row.attestation.value != "" && row.attestation.value != "PENDING"
       && row.status == Some("complete")
  }

  function ResultOf(r: Reply, attempt: int): AttestationResult
    requires IsComplete(r)
  {
    var row := r.row.value;
    AttestationResult(row.attestation.value, row.message.value, row.attestation.value, attempt,
                      row.finalityThresholdExecuted, row.delayReason)
  }

  function Pow(base: real, k: nat): real {
    if k == 0 then 1.0 else base * Pow(base, k - 1)
  }

  /** `Math.min(pollIntervalMs * 1.5 ** (attempt - 1), maxIntervalMs)` */
  function Backoff(pollIntervalMs: real, maxIntervalMs: real, attempt: nat): real
    requires attempt >= 1
  {
    var interval := pollIntervalMs * Pow(1.5, attempt - 1);
    if interval <= maxIntervalMs then interval else maxIntervalMs
  }

  function Backoffs(pollIntervalMs: real, maxIntervalMs: real, n: nat): seq<real> {
    seq(n, i requires 0 <= i < n => Backoff(pollIntervalMs, maxIntervalMs, i + 1))
  }

  /** The reply is a row marked complete that carries this message and this attestation, neither empty nor pending. */
  predicate Carries(r: Reply, message: string, attestation: string) {
    match r
    case Frame(Some(Row(m, a, status, _, _))) =>
      && status == Some("complete") && m == Some(message) && message != ""
      && a == Some(attestation) && attestation != "" && attestation != "PENDING"
    case _ => false
  }

  /** The least attempt below `limit` whose reply is complete, counting from one. */
  ghost predicate FirstComplete(script: nat -> Reply, k: int) {
    k >= 1 && IsComplete(script(k - 1)) && forall i: nat :: i < k - 1 ==> !IsComplete(script(i))
  }

  /**
   * The poll returns the first complete frame if it is among the first maxRetries
   * replies and times out otherwise: that row's own message, its attestation both as
   * attestation and as signature, its threshold and its delay reason. onPoll fires once,
   * with its number, for every reply before it; and the sleeps are the backoffs between
   * consecutive fetches.
   */
  method PollAttestationByTx(script: nat -> Reply, maxRetries: int, pollIntervalMs: real, maxIntervalMs: real)
    returns (outcome: PollOutcome, polls: seq<int>, sleeps: seq<real>)
    ensures outcome.Complete? <==> exists k :: k <= maxRetries && FirstComplete(script, k)
    ensures outcome.Complete? ==>
      var k := outcome.result.attempts;
      && k <= maxRetries && FirstComplete(script, k)
      && Carries(script(k - 1), outcome.result.message, outcome.result.attestation)
      && outcome.result.signature == outcome.result.attestation
      && outcome.result.finalityThresholdExecuted == script(k - 1).row.value.finalityThresholdExecuted
      && outcome.result.delayReason == script(k - 1).row.value.delayReason
      && (forall i: nat, m, a :: i < k - 1 ==> !Carries(script(i), m, a))
      && polls == seq(k - 1, i => i + 1)
      && sleeps == Backoffs(pollIntervalMs, maxIntervalMs, k - 1)
    ensures outcome.TimedOut? ==>
      && (forall i: nat, m, a :: i < maxRetries ==> !Carries(script(i), m, a))
      && (maxRetries >= 1 ==>
            polls == seq(maxRetries, i => i + 1) && sleeps == Backoffs(pollIntervalMs, maxIntervalMs, maxRetries - 1))
      && (maxRetries < 1 ==> polls == [] && sleeps == [])
  {
    polls, sleeps := [], [];
    var attempt := 1;
    while attempt <= maxRetries
      invariant 1 <= attempt && (attempt <= maxRetries + 1 || attempt == 1)
      invariant forall i: nat :: i < attempt - 1 ==> !IsComplete(script(i))
      invariant polls == seq(attempt - 1, i => i + 1)
      invariant sleeps == Backoffs(pollIntervalMs, maxIntervalMs,
        if attempt == maxRetries + 1 && attempt > 1 then attempt - 2 else attempt - 1)
    {
      var reply := script(attempt - 1);
      if IsComplete(reply) {
        assert FirstComplete(script, attempt);
        return Complete(ResultOf(reply, attempt)), polls, sleeps;
      }
      polls := polls + [attempt];
      if attempt == maxRetries {
        attempt := attempt + 1;
        break;
      }
      sleeps := sleeps + [Backoff(pollIntervalMs, maxIntervalMs, attempt)];
      attempt := attempt + 1;
    }
    forall k | k <= maxRetries ensures !FirstComplete(script, k) {
      assert k >= 1 ==> !IsComplete(script(k - 1));
    }
    return TimedOut, polls, sleeps;
  }

  // ----- The sleeps of a run

  function Sum(xs: seq<real>): real {
    if xs == [] then 0.0 else Sum(xs[..|xs| - 1]) + xs[|xs| - 1]
  }

  lemma {:induction false} PowGrows(k: nat)
    ensures Pow(1.5, k) >= 1.0 && Pow(1.5, k + 1) == 1.5 * Pow(1.5, k)
  {
    if k > 0 { PowGrows(k - 1); }
  }

  lemma MulMonotone(p: real, x: real, y: real)
    requires p >= 0.0 && x <= y
    ensures p * x <= p * y
  {
    assert p * (y - x) >= 0.0;
  }

  lemma BackoffGrows(poll: real, max: real, attempt: nat)
    requires attempt >= 1 && poll >= 0.0
    ensures Backoff(poll, max, attempt) <= Backoff(poll, max, attempt + 1) <= max
  {
    PowGrows(attempt - 1);
    MulMonotone(poll, Pow(1.5, attempt - 1), Pow(1.5, attempt));
  }

  /** Later sleeps are never shorter. */
  lemma {:induction false} SleepsNonDecreasing(poll: real, max: real, n: nat, i: nat, j: nat)
    requires poll >= 0.0 && i <= j < n
    ensures Backoffs(poll, max, n)[i] <= Backoffs(poll, max, n)[j] <= max
    decreases j - i
  {
    if i < j {
      SleepsNonDecreasing(poll, max, n, i, j - 1);
      BackoffGrows(poll, max, j);
    }
  }

  /** The number of sleeps below the cap: the geometric part of the schedule. */
  function Uncapped(poll: real, max: real, n: nat): (c: nat)
    ensures c <= n
  {
    if n == 0 then 0
    else if poll * Pow(1.5, n - 1) <= max then n
    else Uncapped(poll, max, n - 1)
  }

  lemma BelowCap(poll: real, max: real, i: nat, j: nat)
    requires poll >= 0.0 && i <= j && poll * Pow(1.5, j) <= max
    ensures Backoff(poll, max, i + 1) == poll * Pow(1.5, i)
  {
    PowMonotone(i, j);
    MulMonotone(poll, Pow(1.5, i), Pow(1.5, j));
  }

  lemma {:induction false} UncappedPart(poll: real, max: real, n: nat, i: nat)
    requires poll >= 0.0 && i < n
    ensures Backoff(poll, max, i + 1) == if i < Uncapped(poll, max, n) then poll * Pow(1.5, i) else max
    decreases n
  {
    var last := poll * Pow(1.5, n - 1);
    if last <= max {
      BelowCap(poll, max, i, n - 1);
    } else if i < n - 1 {
      UncappedPart(poll, max, n - 1, i);
    }
  }

  lemma {:induction false} PowMonotone(i: nat, j: nat)
    requires i <= j
    ensures Pow(1.5, i) <= Pow(1.5, j)
    decreases j - i
  {
    if i < j {
      PowMonotone(i, j - 1);
      PowGrows(j - 1);
    }
  }

  /** Closed form: a geometric series of at most c terms, then the cap. */
  function Closed(poll: real, max: real, c: nat, n: nat): real {
    if n <= c then 2.0 * poll * (Pow(1.5, n) - 1.0)
    else 2.0 * poll * (Pow(1.5, c) - 1.0) + (n - c) as real * max
  }

  lemma ClosedStep(poll: real, max: real, c: nat, n: nat)
    ensures Closed(poll, max, c, n + 1) == Closed(poll, max, c, n) + (if n < c then poll * Pow(1.5, n) else max)
  {
    if n < c {
      GeometricStep(poll, n);
    } else {
      MulSucc((n - c) as real, max);
      assert (n + 1 - c) as real == (n - c) as real + 1.0;
    }
  }

  lemma MulSucc(x: real, y: real)
    ensures (x + 1.0) * y == x * y + y
  {
  }

  lemma {:induction false} SumOfRun(poll: real, max: real, c: nat, xs: seq<real>)
    requires forall i :: 0 <= i < |xs| ==> xs[i] == if i < c then poll * Pow(1.5, i) else max
    ensures Sum(xs) == Closed(poll, max, c, |xs|)
  {
    if xs != [] {
      var front := xs[..|xs| - 1];
      SumOfRun(poll, max, c, front);
      ClosedStep(poll, max, c, |front|);
    }
  }

  lemma GeometricStep(poll: real, k: nat)
    ensures 2.0 * poll * (Pow(1.5, k) - 1.0) + poll * Pow(1.5, k) == 2.0 * poll * (Pow(1.5, k + 1) - 1.0)
  {
    var x := Pow(1.5, k);
    assert Pow(1.5, k + 1) == 1.5 * x;
    assert 2.0 * poll * (x - 1.0) + poll * x == 3.0 * (poll * x) - 2.0 * poll;
    assert 2.0 * poll * (1.5 * x - 1.0) == 3.0 * (poll * x) - 2.0 * poll;
  }

  /** The whole wait of a run with n sleeps: a geometric series, then the cap for the rest. */
  lemma TotalSleep(poll: real, max: real, n: nat)
    requires poll >= 0.0
    ensures Sum(Backoffs(poll, max, n)) == Closed(poll, max, Uncapped(poll, max, n), n)
  {
    var xs := Backoffs(poll, max, n);
    forall i | 0 <= i < n ensures xs[i] == if i < Uncapped(poll, max, n) then poll * Pow(1.5, i) else max {
      UncappedPart(poll, max, n, i);
    }
    SumOfRun(poll, max, Uncapped(poll, max, n), xs);
  }

  /** And it is never more than n times the cap, whatever the interval. */
  lemma {:induction false} TotalSleepBound(poll: real, max: real, n: nat)
    ensures Sum(Backoffs(poll, max, n)) <= n as real * max
  {
    if n > 0 {
      TotalSleepBound(poll, max, n - 1);
      assert Backoffs(poll, max, n)[..n - 1] == Backoffs(poll, max, n - 1);
      MulSucc((n - 1) as real, max);
    }
  }

  const DEFAULT_POLL_MS: real := 2_000.0
  const DEFAULT_MAX_MS: real := 15_000.0
  const SETTLE_MAX_RETRIES: nat := 10

  /**
   * The settle path's budget of ten attempts can sleep 86 375 ms with the default
   * intervals, which is more than the settle lock's lifetime.
   */
  lemma SettleWaitOutlastsLock()
    ensures Sum(Backoffs(DEFAULT_POLL_MS, DEFAULT_MAX_MS, SETTLE_MAX_RETRIES - 1)) == 86_375.0
    ensures 86_375.0 > Locks.SETTLE_LOCK_TTL_MS as real
  {
    TotalSleep(DEFAULT_POLL_MS, DEFAULT_MAX_MS, 9);
    assert Pow(1.5, 4) == 5.0625 && Pow(1.5, 5) == 7.59375;
    forall k: nat | 5 <= k < 9 ensures DEFAULT_POLL_MS * Pow(1.5, k) > DEFAULT_MAX_MS {
      PowMonotone(5, k);
    }
    assert Uncapped(DEFAULT_POLL_MS, DEFAULT_MAX_MS, 5) == 5;
    assert Uncapped(DEFAULT_POLL_MS, DEFAULT_MAX_MS, 6) == 5;
    assert Uncapped(DEFAULT_POLL_MS, DEFAULT_MAX_MS, 7) == 5;
    assert Uncapped(DEFAULT_POLL_MS, DEFAULT_MAX_MS, 8) == 5;
    assert Uncapped(DEFAULT_POLL_MS, DEFAULT_MAX_MS, 9) == 5;
  }
}
