/**
 The timed loops and the retry policy, over integer nanoseconds. A loop is run
 against a script of what the calls it makes take and answer; it is cancelled
 when the script ends.
 */
module Backoff {

  const TWO63 := 0x8000_0000_0000_0000

  newtype Int64 = x: int | -TWO63 <= x < TWO63

  /** Two's complement: what a 64-bit signed result keeps of an integer. */
  function Wrap(x: int): int {
    var m := x % (2 * TWO63);
    if m < TWO63 then m else m - 2 * TWO63
  }

  function Pow2(n: nat): nat {
    if n == 0 then 1 else 2 * Pow2(n - 1)
  }

  function Doubled(base: int, n: nat): int {
    base * Pow2(n)
  }

  lemma WrapDoubles(d: int)
    requires 0 < d < TWO63
    ensures 2 * d < TWO63 ==> Wrap(d * 2) == 2 * d
    ensures 2 * d >= TWO63 ==> Wrap(d * 2) < 0
  {
    if 2 * d >= TWO63 {
      assert Wrap(d * 2) == 2 * d - 2 * TWO63;
    }
  }

  lemma DoubledStep(base: int, n: nat)
    ensures Doubled(base, n + 1) == 2 * Doubled(base, n)
  {
  }

  lemma {:induction false} DoubledGrows(base: int, m: nat, n: nat)
    requires base > 0 && m <= n
    ensures 0 < Doubled(base, m) <= Doubled(base, n)
    decreases n
  {
    if n == 0 {
      assert Doubled(base, 0) == base;
    } else if m < n {
      DoubledGrows(base, m, n - 1);
      DoubledStep(base, n - 1);
    } else {
      DoubledGrows(base, n - 1, n - 1);
      DoubledStep(base, n - 1);
    }
  }

  /** The wait before an attempt: the base doubled that often, capped; without a
      cap, whatever the cap field holds once doubling no longer fits. */
  function Expected(base: int, max: int, n: nat): int {
    var d := Doubled(base, n);
    if max > 0 then (if d < max then d else max)
    else if d < TWO63 then d else max
  }

  /** The loop in wrapping 64-bit arithmetic computes the unbounded law. */
  method Next(base: Int64, max: Int64, attempt: int) returns (d: Int64)
    requires base > 0
    ensures d as int == Expected(base as int, max as int, if attempt < 0 then 0 else attempt)
  {
    var n := if attempt < 0 then 0 else attempt;
    var w := base as int;
    assert Doubled(w, 0) == w;
    var i := 0;
    while i < n
      invariant 0 <= i <= n
      invariant 0 < w < TWO63 && w == Doubled(base as int, i)
      invariant i > 0 && max > 0 ==> w < max as int
    {
      DoubledStep(base as int, i);
      WrapDoubles(w);
      DoubledGrows(base as int, i + 1, n);
      w := Wrap(w * 2);
      if max > 0 && w >= max as int {
        return max;
      }
      if w <= 0 {
        return max;
      }
      i := i + 1;
    }
    if max > 0 && w > max as int {
      return max;
    }
    return w as Int64;
  }

  /** With a cap the waits are positive, never fall from one attempt to the
      next, and never pass the cap. */
  lemma CappedIsMonotone(base: int, max: int, m: nat, n: nat)
    requires 0 < base && 0 < max && m <= n
    ensures 0 < Expected(base, max, m) <= Expected(base, max, n) <= max
  {
    DoubledGrows(base, m, n);
  }

  /** Without a cap a wait is positive exactly while doubling fits 64 bits. */
  lemma UncappedWaitsWhileItFits(base: int, max: int, n: nat)
    requires 0 < base && max <= 0
    ensures Expected(base, max, n) > 0 <==> Doubled(base, n) < TWO63
  {
    DoubledGrows(base, n, n);
  }

  /** A nanosecond doubled 63 times no longer fits: the wait is none at all. */
  lemma UncappedWaitRunsOut()
    ensures Expected(1, 0, 62) > 0 && Expected(1, 0, 63) == 0
  {
    Pow2Of63();
    assert Pow2(63) == 2 * Pow2(62);
  }

  lemma Pow2Of63()
    ensures Pow2(63) == TWO63
  {
    var n: nat := 9;
    assert Pow2(n) == 512;
    Pow2Sum(n, n);
    Pow2Sum(2 * n, n);
    Pow2Sum(3 * n, 3 * n);
    Pow2Sum(6 * n, n);
  }

  lemma {:induction false} Pow2Sum(m: nat, n: nat)
    ensures Pow2(m + n) == Pow2(m) * Pow2(n)
  {
    if n > 0 {
      Pow2Sum(m, n - 1);
      assert Pow2(m + n) == 2 * Pow2(m + n - 1) && Pow2(n) == 2 * Pow2(n - 1);
      assert 2 * (Pow2(m) * Pow2(n - 1)) == Pow2(m) * (2 * Pow2(n - 1));
    }
  }
}

module KeepAlive {
  import opened Basics

  /** One millisecond. */
  function MinDelay(): int {
    1_000_000
  }

  /** How long to wait before the next heartbeat. */
  function Delay(expiresAt: int, now: int, interval: int, backoff: nat -> int, attempt: nat): int {
    var half := (expiresAt - now) / 2;
    var paced := if 0 < interval < half then interval else half;
    var retried := if attempt > 0 && backoff(attempt - 1) < paced then backoff(attempt - 1) else paced;
    if retried < MinDelay() then MinDelay() else retried
  }

  lemma DelayBounds(expiresAt: int, now: int, interval: int, backoff: nat -> int, attempt: nat)
    ensures var d := Delay(expiresAt, now, interval, backoff, attempt);
            && MinDelay() <= d <= Allowed(expiresAt, now)
            && (interval > 0 ==> d <= Max(interval, MinDelay()))
            && (attempt > 0 ==> d <= Max(backoff(attempt - 1), MinDelay()))
            && (d <= (expiresAt - now) / 2 <==> (expiresAt - now) / 2 >= MinDelay())
  {
  }

  /** What a wait is asked to keep to: the least delay, half of what is left of the
      Lease, the interval if there is one, and the backoff after a failure. */
  predicate Permits(expiresAt: int, now: int, interval: int, backoff: nat -> int, attempt: nat, d: int) {
    && MinDelay() <= d <= (expiresAt - now) / 2
    && (interval > 0 ==> d <= interval)
    && (attempt > 0 ==> d <= backoff(attempt - 1))
  }

  /** The wait is the longest of those permitted, or the least delay when none is. */
  lemma DelayIsLongest(expiresAt: int, now: int, interval: int, backoff: nat -> int, attempt: nat, d: int)
    requires Permits(expiresAt, now, interval, backoff, attempt, d)
    ensures d <= Delay(expiresAt, now, interval, backoff, attempt)
    ensures Permits(expiresAt, now, interval, backoff, attempt, Delay(expiresAt, now, interval, backoff, attempt))
  {
  }

  lemma DelayWhenNonePermitted(expiresAt: int, now: int, interval: int, backoff: nat -> int, attempt: nat)
    requires forall d :: !Permits(expiresAt, now, interval, backoff, attempt, d)
    ensures Delay(expiresAt, now, interval, backoff, attempt) == MinDelay()
  {
    assert !Permits(expiresAt, now, interval, backoff, attempt, Delay(expiresAt, now, interval, backoff, attempt));
  }

  /** With a millisecond left the wait is all of it. */
  lemma WaitPassesHalf(now: int, interval: int, backoff: nat -> int, attempt: nat)
    ensures Delay(now + MinDelay(), now, interval, backoff, attempt) == MinDelay() > MinDelay() / 2
  {
  }

  datatype Answer = Renewed(expiresAt: int) | NotFound | Failed

  datatype Call = Call(latency: nat, answer: Answer)

  datatype Outcome = Cancelled | Expired | ToldGone

  /** The expiry last received, after k calls. */
  function LastExpiry(first: int, calls: seq<Call>, k: nat): int
    requires k <= |calls|
  {
    if k == 0 then first
    else match calls[k - 1].answer
         case Renewed(e) => e
         case _ => LastExpiry(first, calls, k - 1)
  }

  /** What a round may wait at most. */
  function Allowed(expiresAt: int, now: int): int {
    Max((expiresAt - now) / 2, MinDelay())
  }

  ghost predicate Bounded(calls: seq<Call>, deadline: nat) {
    forall c :: c in calls ==> c.latency <= deadline
  }

  /** One round of the loop: when it began, the expiry it went by, its wait. */
  datatype Round = Round(at: int, expiresAt: int, wait: int)

  lemma AllowedOvershoot(expiresAt: int, now: int)
    requires now < expiresAt
    ensures now + Allowed(expiresAt, now) < expiresAt + MinDelay()
  {
  }

  /** How many calls in a row failed just before call k. */
  function Fails(calls: seq<Call>, k: nat): nat
    requires k <= |calls|
  {
    if k == 0 || !calls[k - 1].answer.Failed? then 0 else Fails(calls, k - 1) + 1
  }

  /** That many failed, and the one before them did not. */
  lemma {:induction false} FailsInARow(calls: seq<Call>, k: nat)
    requires k <= |calls|
    ensures var n := Fails(calls, k);
            && n <= k && (forall j :: k - n <= j < k ==> calls[j].answer.Failed?)
            && (n < k ==> !calls[k - n - 1].answer.Failed?)
  {
    if k > 0 && calls[k - 1].answer.Failed? {
      FailsInARow(calls, k - 1);
    }
  }

  /** The answer to the last call that renewed the Lease, or what the claim was given. */
  lemma {:induction false} ExpiryLastReceived(first: int, calls: seq<Call>, k: nat, j: nat)
    requires j <= k <= |calls| && forall i :: j <= i < k ==> !calls[i].answer.Renewed?
    requires j > 0 ==> calls[j - 1].answer.Renewed?
    ensures LastExpiry(first, calls, k) == if j > 0 then calls[j - 1].answer.expiresAt else first
  {
    if k > j {
      ExpiryLastReceived(first, calls, k - 1, j);
    }
  }

  /** The Pool's configured interval and the backoff of failed calls. */
  datatype Pace = Pace(interval: int, backoff: nat -> int)

  /** Each round goes by the expiry last received, which has not passed, and
      backs off by the failures since; the next begins when its call returns. */
  ghost predicate Paced(pace: Pace, start: int, expiry: int, calls: seq<Call>, rounds: seq<Round>) {
    && |rounds| <= |calls|
    && (forall k :: 0 <= k < |rounds| ==>
          && rounds[k].expiresAt == LastExpiry(expiry, calls, k)
          && rounds[k].at < rounds[k].expiresAt
          && rounds[k].wait == Delay(rounds[k].expiresAt, rounds[k].at, pace.interval, pace.backoff, Fails(calls, k))
          && rounds[k].at == EndOf(start, calls, rounds, k))
  }

  /** Round k could have waited this long. */
  predicate RoundPermits(pace: Pace, calls: seq<Call>, rounds: seq<Round>, k: nat, d: int) {
    k < |rounds| <= |calls|
    && Permits(rounds[k].expiresAt, rounds[k].at, pace.interval, pace.backoff, Fails(calls, k), d)
  }

  /** When the first k rounds are over. */
  function EndOf(start: int, calls: seq<Call>, rounds: seq<Round>, k: nat): int
    requires k <= |rounds| <= |calls|
  {
    if k == 0 then start else rounds[k - 1].at + rounds[k - 1].wait + calls[k - 1].latency
  }

  lemma PacedExtend(pace: Pace, start: int, expiry: int, calls: seq<Call>, rounds: seq<Round>, r: Round)
    requires Paced(pace, start, expiry, calls, rounds) && |rounds| < |calls|
    requires r.expiresAt == LastExpiry(expiry, calls, |rounds|)
    requires r.at < r.expiresAt && r.at == EndOf(start, calls, rounds, |rounds|)
    requires r.wait == Delay(r.expiresAt, r.at, pace.interval, pace.backoff, Fails(calls, |rounds|))
    ensures Paced(pace, start, expiry, calls, rounds + [r])
  {
    hide Delay, Fails;
    var more := rounds + [r];
    forall k | 0 <= k < |rounds|
      ensures more[k] == rounds[k] && EndOf(start, calls, more, k) == EndOf(start, calls, rounds, k)
    {
    }
    assert EndOf(start, calls, more, |rounds|) == EndOf(start, calls, rounds, |rounds|);
  }

  lemma NothingYet(start: int, calls: seq<Call>)
    ensures EndOf(start, calls, [], 0) == start && Fails(calls, 0) == 0
  {
  }

  lemma RoundEnds(start: int, calls: seq<Call>, rounds: seq<Round>, r: Round)
    requires |rounds| < |calls|
    ensures EndOf(start, calls, rounds + [r], |rounds| + 1) == r.at + r.wait + calls[|rounds|].latency
    ensures Fails(calls, |rounds| + 1) == if calls[|rounds|].answer.Failed? then Fails(calls, |rounds|) + 1 else 0
  {
  }

  /** What a verdict on the Lease rests on. Lost means that the Pool Manager said
      so or that the last expiry received has passed; and if the last call failed,
      that verdict comes before that expiry plus the least delay plus one call
      deadline. */
  ghost predicate Justified(outcome: Outcome, at: int, expiry: int, deadline: nat, calls: seq<Call>, n: nat) {
    && n <= |calls|
    && (forall k :: 0 <= k < n && calls[k].answer.NotFound? ==> k == n - 1)
    && (outcome.ToldGone? <==> n > 0 && calls[n - 1].answer.NotFound?)
    && (outcome.Expired? ==> at >= LastExpiry(expiry, calls, n))
    && (outcome.Expired? && n > 0 && calls[n - 1].answer.Failed? ==>
          at < LastExpiry(expiry, calls, n) + MinDelay() + deadline)
    && (outcome.Cancelled? ==> n == |calls| && at < LastExpiry(expiry, calls, n))
  }

  /** The state of the loop between rounds: nothing so far has said the Lease is
      gone. */
  ghost predicate Waiting(expiry: int, deadline: nat, calls: seq<Call>, n: nat, lease: int, now: int) {
    && n <= |calls| && lease == LastExpiry(expiry, calls, n)
    && (forall k :: 0 <= k < n ==> !calls[k].answer.NotFound?)
    && (n > 0 && calls[n - 1].answer.Failed? ==> now < lease + MinDelay() + deadline)
  }

  method HeartbeatLoop(pace: Pace, start: int, expiry: int, deadline: nat, calls: seq<Call>)
    returns (outcome: Outcome, at: int, rounds: seq<Round>)
    requires Bounded(calls, deadline)
    ensures Paced(pace, start, expiry, calls, rounds)
    ensures at == EndOf(start, calls, rounds, |rounds|)
    ensures Justified(outcome, at, expiry, deadline, calls, |rounds|)
    ensures forall k: nat, d :: RoundPermits(pace, calls, rounds, k, d) ==> d <= rounds[k].wait
    ensures forall k :: Outlasts(start, expiry, calls, rounds, k) ==>
              outcome.Expired? && at < LastExpiry(expiry, calls, k) + MinDelay() + deadline
  {
    hide Delay, Allowed, LastExpiry, EndOf, Fails;
    var lease, attempt := expiry, 0;
    at, rounds := start, [];
    Unheard(expiry, deadline, calls, start);
    NothingYet(start, calls);
    while true
      invariant |rounds| <= |calls| && Paced(pace, start, expiry, calls, rounds)
      invariant at == EndOf(start, calls, rounds, |rounds|) && attempt == Fails(calls, |rounds|)
      invariant Waiting(expiry, deadline, calls, |rounds|, lease, at)
      decreases |calls| - |rounds|
    {
      if at >= lease {
        outcome := Expired;
        break;
      }
      if |rounds| == |calls| {
        outcome := Cancelled;
        break;
      }
      var call := calls[|rounds|];
      var d := Delay(lease, at, pace.interval, pace.backoff, attempt);
      DelayBounds(lease, at, pace.interval, pace.backoff, attempt);
      HeardNext(expiry, deadline, calls, |rounds|, lease, at, d);
      hide Paced, Waiting, Justified;
      PacedExtend(pace, start, expiry, calls, rounds, Round(at, lease, d));
      RoundEnds(start, calls, rounds, Round(at, lease, d));
      rounds := rounds + [Round(at, lease, d)];
      at := at + d + call.latency;
      match call.answer
      case Renewed(e) =>
        attempt := 0;
        lease := e;
      case NotFound =>
        outcome := ToldGone;
        break;
      case Failed =>
        attempt := attempt + 1;
    }
    WaitsAreLongest(pace, start, expiry, calls, rounds);
    forall k | Outlasts(start, expiry, calls, rounds, k)
      ensures outcome.Expired? && at < LastExpiry(expiry, calls, k) + MinDelay() + deadline
    {
      FailingLoopEndsInTime(pace, start, expiry, deadline, calls, outcome, at, rounds, k);
    }
  }

  /** After k calls the loop still runs on a Lease that has not expired, every call
      from there on fails, and there are enough of them to outlast the Lease, were
      each to take the least delay and no time to answer. */
  ghost predicate Outlasts(start: int, expiry: int, calls: seq<Call>, rounds: seq<Round>, k: nat) {
    && k <= |rounds| <= |calls| && (k > 0 ==> !calls[k - 1].answer.NotFound?)
    && (forall j :: k <= j < |calls| ==> calls[j].answer.Failed?)
    && EndOf(start, calls, rounds, k) < LastExpiry(expiry, calls, k)
       <= EndOf(start, calls, rounds, k) + (|calls| - k) * MinDelay()
  }

  /** If calls keep failing, from the first or from any later one on, the loop
      declares the Lease lost, before the last expiry received plus the least delay
      plus one call deadline. */
  lemma FailingLoopEndsInTime(pace: Pace, start: int, expiry: int, deadline: nat, calls: seq<Call>,
                              outcome: Outcome, at: int, rounds: seq<Round>, k: nat)
    requires Paced(pace, start, expiry, calls, rounds) && |rounds| <= |calls|
    requires at == EndOf(start, calls, rounds, |rounds|)
    requires Justified(outcome, at, expiry, deadline, calls, |rounds|) && Outlasts(start, expiry, calls, rounds, k)
    ensures outcome.Expired? && at < LastExpiry(expiry, calls, k) + MinDelay() + deadline
  {
    hide Paced, Delay, Allowed, LastExpiry, EndOf, MinDelay;
    var n := |rounds|;
    ExpiryStands(expiry, calls, k, n);
    RoundsTakeTime(pace, start, expiry, calls, rounds, k);
    LeastDelay();
    UsedUp(EndOf(start, calls, rounds, k), LastExpiry(expiry, calls, k), at, n - k, |calls| - k, MinDelay());
  }

  lemma LeastDelay()
    ensures MinDelay() > 0
  {
  }

  /** `n` rounds of at least `d` each, of `all` that would use up what was left. */
  lemma UsedUp(start: int, expiry: int, at: int, n: nat, all: nat, d: int)
    requires start < expiry <= start + all * d && at >= start + n * d && n <= all && d > 0
    ensures n == all ==> at >= expiry && n > 0
  {
    assert all == 0 ==> all * d == 0;
  }

  lemma RoundsTakeTime(pace: Pace, start: int, expiry: int, calls: seq<Call>, rounds: seq<Round>, k: nat)
    requires Paced(pace, start, expiry, calls, rounds) && k <= |rounds| <= |calls|
    requires forall j :: k <= j < |calls| ==> calls[j].answer.Failed?
    ensures EndOf(start, calls, rounds, |rounds|) >= EndOf(start, calls, rounds, k) + (|rounds| - k) * MinDelay()
  {
    hide Paced, Delay, Allowed, LastExpiry, EndOf, MinDelay;
    var n := |rounds|;
    if n > k {
      RoundStarts(pace, start, expiry, calls, rounds, k);
      WaitsAreBounded(pace, start, expiry, calls, rounds, n - 1);
      EndOfLast(start, calls, rounds);
      FailingCallsUseUpLease(pace, start, expiry, calls, rounds, k, n);
      OneMoreDelay(n - k, MinDelay());
    } else {
      assert (n - k) * MinDelay() == 0;
    }
  }

  lemma EndOfLast(start: int, calls: seq<Call>, rounds: seq<Round>)
    requires 0 < |rounds| <= |calls|
    ensures EndOf(start, calls, rounds, |rounds|) >= rounds[|rounds| - 1].at + rounds[|rounds| - 1].wait
  {
  }

  lemma OneMoreDelay(n: int, d: int)
    ensures n * d == (n - 1) * d + d
  {
  }

  lemma Unheard(expiry: int, deadline: nat, calls: seq<Call>, start: int)
    ensures Waiting(expiry, deadline, calls, 0, expiry, start)
  {
  }

  lemma HeardNext(expiry: int, deadline: nat, calls: seq<Call>, n: nat, lease: int, now: int, d: int)
    requires Bounded(calls, deadline) && n < |calls| && Waiting(expiry, deadline, calls, n, lease, now)
    requires now < lease && d <= Allowed(lease, now)
    ensures lease == LastExpiry(expiry, calls, n)
    ensures match calls[n].answer
            case Renewed(e) => Waiting(expiry, deadline, calls, n + 1, e, now + d + calls[n].latency)
            case NotFound => Justified(ToldGone, now + d + calls[n].latency, expiry, deadline, calls, n + 1)
            case Failed => Waiting(expiry, deadline, calls, n + 1, lease, now + d + calls[n].latency)
  {
    assert calls[n] in calls;
    AllowedOvershoot(lease, now);
  }

  lemma {:induction false} ExpiryStands(expiry: int, calls: seq<Call>, k: nat, n: nat)
    requires k <= n <= |calls| && forall j :: k <= j < n ==> !calls[j].answer.Renewed?
    ensures LastExpiry(expiry, calls, n) == LastExpiry(expiry, calls, k)
  {
    if n > k {
      ExpiryStands(expiry, calls, k, n - 1);
    }
  }

  /** Every wait is at most half of what is left of the Lease, or the least delay. */
  lemma WaitsAreBounded(pace: Pace, start: int, expiry: int, calls: seq<Call>, rounds: seq<Round>, k: nat)
    requires Paced(pace, start, expiry, calls, rounds) && k < |rounds|
    ensures MinDelay() <= rounds[k].wait <= Allowed(LastExpiry(expiry, calls, k), rounds[k].at)
  {
    DelayBounds(rounds[k].expiresAt, rounds[k].at, pace.interval, pace.backoff, Fails(calls, k));
  }

  /** And is no shorter than it has to be. */
  lemma WaitsAreLongest(pace: Pace, start: int, expiry: int, calls: seq<Call>, rounds: seq<Round>)
    requires Paced(pace, start, expiry, calls, rounds)
    ensures forall k: nat, d :: RoundPermits(pace, calls, rounds, k, d) ==> d <= rounds[k].wait
  {
    forall k: nat, d | RoundPermits(pace, calls, rounds, k, d)
      ensures d <= rounds[k].wait
    {
      DelayIsLongest(rounds[k].expiresAt, rounds[k].at, pace.interval, pace.backoff, Fails(calls, k), d);
    }
  }

  /** While no call renews it, a Lease is used up: each round takes the least
      delay at least, so the rounds are bounded by what was left of it. */
  lemma {:induction false} FailingCallsUseUpLease(pace: Pace, start: int, expiry: int, calls: seq<Call>,
                                                  rounds: seq<Round>, k: nat, n: nat)
    requires Paced(pace, start, expiry, calls, rounds) && k < n <= |rounds| <= |calls|
    requires forall j :: k <= j < n - 1 ==> !calls[j].answer.Renewed?
    ensures rounds[k].at + (n - 1 - k) * MinDelay() <= rounds[n - 1].at < LastExpiry(expiry, calls, k)
  {
    hide Paced, Allowed, Delay;
    RoundStarts(pace, start, expiry, calls, rounds, n - 1);
    ExpiryStands(expiry, calls, k, n - 1);
    hide LastExpiry;
    if n > k + 1 {
      WaitsAreBounded(pace, start, expiry, calls, rounds, n - 2);
      hide MinDelay;
      FailingCallsUseUpLease(pace, start, expiry, calls, rounds, k, n - 1);
      OneMoreDelay(n - 1 - k, MinDelay());
    }
  }

  lemma RoundStarts(pace: Pace, start: int, expiry: int, calls: seq<Call>, rounds: seq<Round>, k: nat)
    requires Paced(pace, start, expiry, calls, rounds) && k < |rounds|
    ensures rounds[k].at == EndOf(start, calls, rounds, k) && rounds[k].at < LastExpiry(expiry, calls, k)
  {
  }
}

module AgentProbe {
  import opened Basics

  datatype Probe = Probe(ok: bool, latency: nat)

  /** When probe k returns: each is due one interval after the last returned. */
  function ReturnsAt(start: int, interval: nat, probes: seq<Probe>, k: nat): int
    requires k < |probes|
  {
    (if k == 0 then start else ReturnsAt(start, interval, probes, k - 1)) + interval + probes[k].latency
  }

  /** `n` probes in a row that failed, the last of them probe k - 1. */
  ghost predicate FailedRow(probes: seq<Probe>, k: nat, n: nat) {
    n <= k <= |probes| && forall j :: k - n <= j < k ==> !probes[j].ok
  }

  lemma OneMore(n: nat, c: nat)
    ensures (n + 1) * c == n * c + c
  {
  }

  lemma Within(n: nat, m: nat, c: nat)
    requires n <= m
    ensures n * c <= m * c
  {
  }

  /** The Job is aborted exactly at the first row of `threshold` failed probes.
      `x` is when the Exec Agent stopped answering: no later probe passes. The
      loop never goes on past `threshold` intervals and deadlines after it. */
  method ProbeLoop(start: int, interval: nat, deadline: nat, threshold: nat, probes: seq<Probe>, ghost x: int)
    returns (aborted: bool, made: nat, at: int)
    requires threshold > 0
    requires forall p :: p in probes ==> p.latency <= deadline
    requires forall k :: 0 <= k < |probes| && probes[k].ok ==> ReturnsAt(start, interval, probes, k) <= x
    ensures made <= |probes|
    ensures aborted <==> FailedRow(probes, made, threshold)
    ensures forall k :: 0 <= k < made ==> !FailedRow(probes, k, threshold)
    ensures !aborted ==> made == |probes|
    ensures at == if made == 0 then start else ReturnsAt(start, interval, probes, made - 1)
    ensures at <= Max(x, start) + threshold * (interval + deadline)
  {
    var failures := 0;
    made, at := 0, start;
    ghost var c := interval + deadline;
    while made < |probes|
      invariant 0 <= made <= |probes|
      invariant at == if made == 0 then start else ReturnsAt(start, interval, probes, made - 1)
      invariant failures < threshold && FailedRow(probes, made, failures)
      invariant failures < made ==> probes[made - failures - 1].ok
      invariant forall k :: 0 <= k <= made ==> !FailedRow(probes, k, threshold)
      invariant at <= Max(x, start) + failures * c
    {
      assert probes[made] in probes;
      OneMore(failures, c);
      at := at + interval + probes[made].latency;
      made := made + 1;
      if probes[made - 1].ok {
        failures := 0;
      } else {
        failures := failures + 1;
        if failures >= threshold {
          return true, made, at;
        }
      }
      assert failures < made ==> probes[made - failures - 1].ok;
    }
    Within(failures, threshold, c);
    return false, made, at;
  }
}
