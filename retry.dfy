/** The retry policy of `executeWithRetry` (app/hooks/useImageGeneration.ts:50-98)
    as a function of the attempts' outcomes, with the facts it promises: rate
    limits are waited out without counting, other failures back off 1 s, 2 s and
    4 s, and the fourth such failure is rethrown. */
module Retry {
  import opened Types
  import opened Providers
  import opened Gallery

  const MaxRetries: nat := 3
  const BaseBackoffMs: nat := 1000

  function Pow2(n: nat): (r: nat)
    ensures r >= 1
  {
    if n == 0 then 1 else 2 * Pow2(n - 1)
  }

  /** `BASE_BACKOFF_MS * Math.pow(2, retryCount)` */
  function BackoffMs(retryCount: nat): nat
  {
    BaseBackoffMs * Pow2(retryCount)
  }

  /** `Math.ceil(ms / 1000)` for a non-negative number of milliseconds. */
  function CeilSeconds(ms: nat): (s: nat)
    ensures 1000 * s >= ms && (s == 0 || 1000 * (s - 1) < ms)
  {
    (ms + 999) / 1000
  }

  /** The retry-after shown for a backoff is exactly 2^retryCount seconds. */
  lemma BackoffSeconds(retryCount: nat)
    ensures CeilSeconds(BackoffMs(retryCount)) == Pow2(retryCount)
  {
  }

  /** The clock after `sleep(ms)`: `setTimeout` treats a negative delay as none. */
  function AfterSleep(clock: int, ms: int): (c: int)
    ensures c >= clock && (ms >= 0 ==> c == clock + ms)
  {
    if ms < 0 then clock else clock + ms
  }

  /** How a run of `executeWithRetry` ends: resolved, rethrown, or never settled
      because the next attempt never settles. */
  datatype RunResult = Done(result: ImageResult) | Threw(error: Thrown) | Unsettled

  /** A run: how it ends, the `updateItem` calls it makes on the task's item,
      the durations passed to `sleep`, the number of provider calls, and the clock
      at the end. */
  datatype Trace = Trace(result: RunResult, updates: seq<ItemUpdate>, sleeps: seq<int>, attempts: nat, clock: int)

  /** A provider call: how `executeGeneration(task, apiKeys)` settles for a task
      when the provider answers as the reply says. */
  type Exec = (GenerationTask, AttemptReply) -> Outcome

  /** The providers' `executeGeneration` under the stored API keys, the call the
      hook makes. */
  function ProviderCall(keys: ApiKeys, parse: string -> JsonParse): Exec
  {
    (t, r) => ExecuteGeneration(t, keys, r, parse)
  }

  /** How the successive provider calls for a task settle. */
  function Outcomes(exec: Exec, task: GenerationTask, replies: seq<AttemptReply>): (outs: seq<Outcome>)
    ensures |outs| == |replies|
    decreases |replies|
  {
    if replies == [] then []
    else [exec(task, replies[0])] + Outcomes(exec, task, replies[1..])
  }

  /** The k-th outcome is how the k-th call settles. */
  lemma {:induction false} OutcomesAt(exec: Exec, task: GenerationTask, replies: seq<AttemptReply>, k: nat)
    requires k < |replies|
    ensures Outcomes(exec, task, replies)[k] == exec(task, replies[k])
    decreases k
  {
    if k > 0 {
      OutcomesAt(exec, task, replies[1..], k - 1);
    }
  }

  /** The wait the `catch` block of `executeWithRetry` schedules: the retry
      count written while waiting and after, the milliseconds slept, and the
      seconds shown as `retryAfter`. */
  datatype Wait = Wait(retryCount: nat, ms: int, retryAfter: int)

  /** The wait an attempt leads to: `retryAfter` seconds under the same retry
      count after a rate limit, `BASE_BACKOFF_MS * 2^retryCount` under the next
      count after another failure while `retryCount < MAX_RETRIES`, and none
      after a success or the last failure. */
  function NextWait(o: Outcome, retryCount: nat): (w: Option<Wait>)
    ensures w.Some? <==> o.RateLimited? || (o.Failure? && retryCount < MaxRetries)
    ensures w.Some? && o.RateLimited? ==> w.value == Wait(retryCount, o.retryAfter * 1000, o.retryAfter)
    ensures w.Some? && o.Failure? ==>
      w.value == Wait(retryCount + 1, BackoffMs(retryCount), CeilSeconds(BackoffMs(retryCount)))
  {
    match o
    case Success(_) => None
    case RateLimited(_, retryAfter) => Some(Wait(retryCount, retryAfter * 1000, retryAfter))
    case Failure(_) =>
      if retryCount < MaxRetries then Some(Wait(retryCount + 1, BackoffMs(retryCount), CeilSeconds(BackoffMs(retryCount))))
      else None
  }

  /** The two `updateItem` calls around the sleep: waiting until the wait ends,
      then generating again, both under the wait's retry count. */
  function WaitUpdates(w: Wait, clock: int): (us: seq<ItemUpdate>)
    ensures |us| == 2 && us[1].ToGenerating?
  {
    [ToWaiting(w.retryCount, clock + w.ms, w.retryAfter), ToGenerating(Some(w.retryCount))]
  }

  /** `executeWithRetry(task, apiKeys, retryCount)` when its calls of
      `executeGeneration` settle as `outs` says, in order, and `Date.now()` reads
      `clock`. */
  function RetryRun(outs: seq<Outcome>, retryCount: nat, clock: int): (t: Trace)
    ensures t.attempts <= |outs| && t.clock >= clock
    ensures t.result.Unsettled? ==> t.attempts == |outs| && |t.sleeps| == |outs|
    ensures !t.result.Unsettled? ==> t.attempts == |t.sleeps| + 1
    ensures |t.updates| == 2 * |t.sleeps|
    ensures t.updates != [] ==> t.updates[|t.updates| - 1].ToGenerating?
    decreases |outs|, 1
  {
    if outs == [] then Trace(Unsettled, [], [], 0, clock)
    else RetryFrom(outs[0], outs[1..], retryCount, clock)
  }

  /** The run once the first attempt has settled as `o`, the later ones
      settling as `later`: it ends there unless `o` leads to a wait, after which
      the later attempts run under the wait's retry count. */
  function RetryFrom(o: Outcome, later: seq<Outcome>, retryCount: nat, clock: int): (t: Trace)
    ensures t.attempts <= |later| + 1 && t.clock >= clock
    ensures t.result.Unsettled? ==> t.attempts == |later| + 1 && |t.sleeps| == |later| + 1
    ensures !t.result.Unsettled? ==> t.attempts == |t.sleeps| + 1
    ensures |t.updates| == 2 * |t.sleeps|
    ensures t.updates != [] ==> t.updates[|t.updates| - 1].ToGenerating?
    decreases |later| + 1, 0
  {
    match NextWait(o, retryCount)
    case None => Trace(if o.Success? then Done(o.result) else Threw(o.error), [], [], 1, clock)
    case Some(w) =>
      var rest := RetryRun(later, w.retryCount, AfterSleep(clock, w.ms));
      Trace(rest.result, WaitUpdates(w, clock) + rest.updates, [w.ms] + rest.sleeps, rest.attempts + 1, rest.clock)
  }

  /** An attempt that leads to no wait ends the run. */
  lemma FinalRun(outs: seq<Outcome>, retryCount: nat, clock: int)
    requires outs != [] && NextWait(outs[0], retryCount).None?
    ensures RetryRun(outs, retryCount, clock) ==
      Trace(if outs[0].Success? then Done(outs[0].result) else Threw(outs[0].error), [], [], 1, clock)
  {
  }

  /** An attempt that leads to a wait: the wait, then the rest of the run under
      the wait's retry count. */
  lemma WaitRun(outs: seq<Outcome>, retryCount: nat, clock: int)
    requires outs != [] && NextWait(outs[0], retryCount).Some?
    ensures var w := NextWait(outs[0], retryCount).value;
      var rest := RetryRun(outs[1..], w.retryCount, AfterSleep(clock, w.ms));
      RetryRun(outs, retryCount, clock) ==
        Trace(rest.result, WaitUpdates(w, clock) + rest.updates, [w.ms] + rest.sleeps, rest.attempts + 1, rest.clock)
  {
  }

  /** A rate-limited attempt: a wait of `retryAfter` seconds under the same
      retry count, then the rest of the run. */
  lemma RateLimitedRun(outs: seq<Outcome>, retryCount: nat, clock: int)
    requires outs != [] && outs[0].RateLimited?
    ensures var w := Wait(retryCount, outs[0].retryAfter * 1000, outs[0].retryAfter);
      var rest := RetryRun(outs[1..], retryCount, AfterSleep(clock, w.ms));
      RetryRun(outs, retryCount, clock) ==
        Trace(rest.result, WaitUpdates(w, clock) + rest.updates, [w.ms] + rest.sleeps, rest.attempts + 1, rest.clock)
  {
  }

  /** A failed attempt with retries left: the backoff under the next retry
      count, then the rest of the run. */
  lemma BackoffRun(outs: seq<Outcome>, retryCount: nat, clock: int)
    requires outs != [] && outs[0].Failure? && retryCount < MaxRetries
    ensures var w := Wait(retryCount + 1, BackoffMs(retryCount), CeilSeconds(BackoffMs(retryCount)));
      var rest := RetryRun(outs[1..], retryCount + 1, AfterSleep(clock, w.ms));
      RetryRun(outs, retryCount, clock) ==
        Trace(rest.result, WaitUpdates(w, clock) + rest.updates, [w.ms] + rest.sleeps, rest.attempts + 1, rest.clock)
  {
  }

  /** The run over the outcomes of a non-empty list of replies starts with the
      first reply's outcome. */
  lemma RetryRunReplies(exec: Exec, task: GenerationTask, replies: seq<AttemptReply>, retryCount: nat, clock: int)
    requires replies != []
    ensures RetryRun(Outcomes(exec, task, replies), retryCount, clock) ==
      RetryFrom(exec(task, replies[0]), Outcomes(exec, task, replies[1..]), retryCount, clock)
  {
    var outs := Outcomes(exec, task, replies);
    assert outs[0] == exec(task, replies[0]) && outs[1..] == Outcomes(exec, task, replies[1..]);
  }

  /** The retry count an update writes, if it writes one. */
  function CountWritten(u: ItemUpdate): Option<int>
  {
    match u
    case ToWaiting(c, _, _) => Some(c)
    case ToGenerating(c) => c
    case _ => None
  }

  predicate AllRateLimited(outs: seq<Outcome>)
  {
    forall k :: 0 <= k < |outs| ==> outs[k].RateLimited?
  }

  /** Rate limits are waited out without bound and without counting: while every
      attempt is rate limited the run never settles, waits `retryAfter` seconds
      after each attempt, and writes no retry count but the one it started with. */
  lemma {:induction false} RateLimitsNeverCount(outs: seq<Outcome>, retryCount: nat, clock: int)
    requires AllRateLimited(outs)
    ensures var t := RetryRun(outs, retryCount, clock);
      t.result == Unsettled && |t.sleeps| == |outs| &&
      (forall k :: 0 <= k < |outs| ==> t.sleeps[k] == outs[k].retryAfter * 1000) &&
      forall k :: 0 <= k < |t.updates| ==> CountWritten(t.updates[k]) == Some(retryCount)
    decreases |outs|
  {
    if outs != [] {
      var ms := outs[0].retryAfter * 1000;
      assert AllRateLimited(outs[1..]) by {
        forall k | 0 <= k < |outs[1..]| ensures outs[1..][k].RateLimited? { assert outs[1..][k] == outs[k + 1]; }
      }
      RateLimitsNeverCount(outs[1..], retryCount, AfterSleep(clock, ms));
      var rest := RetryRun(outs[1..], retryCount, AfterSleep(clock, ms));
      var t := RetryRun(outs, retryCount, clock);
      RateLimitedRun(outs, retryCount, clock);
      forall k | 1 <= k < |outs| ensures t.sleeps[k] == outs[k].retryAfter * 1000 {
        assert outs[1..][k - 1] == outs[k];
      }
      forall k | 2 <= k < |t.updates| ensures CountWritten(t.updates[k]) == Some(retryCount) {
        assert t.updates[k] == rest.updates[k - 2];
      }
    }
  }

  /** However many rate limits come first, the attempt after them that succeeds
      ends the run with its result, after one wait per rate limit. */
  lemma {:induction false} SuccessAfterRateLimits(outs: seq<Outcome>, retryCount: nat, clock: int, n: nat)
    requires n < |outs| && AllRateLimited(outs[..n]) && outs[n].Success?
    ensures var t := RetryRun(outs, retryCount, clock);
      t.result == Done(outs[n].result) && t.attempts == n + 1 && |t.sleeps| == n &&
      forall k :: 0 <= k < |t.updates| ==> CountWritten(t.updates[k]) == Some(retryCount)
    decreases n
  {
    if n > 0 {
      assert outs[..n][0] == outs[0];
      var ms := outs[0].retryAfter * 1000;
      var tail := outs[1..][..n - 1];
      assert AllRateLimited(tail) by {
        forall k | 0 <= k < |tail| ensures tail[k].RateLimited? {
          assert tail[k] == outs[..n][k + 1];
        }
      }
      assert outs[1..][n - 1] == outs[n];
      SuccessAfterRateLimits(outs[1..], retryCount, AfterSleep(clock, ms), n - 1);
    }
  }

  predicate NoneRateLimited(outs: seq<Outcome>)
  {
    forall k :: 0 <= k < |outs| ==> !outs[k].RateLimited?
  }

  /** Without rate limits a run makes at most MAX_RETRIES + 1 attempts and waits at
      most MAX_RETRIES times; when it rethrows it has used them all. */
  lemma {:induction false} AttemptBound(outs: seq<Outcome>, retryCount: nat, clock: int)
    requires retryCount <= MaxRetries && NoneRateLimited(outs)
    ensures var t := RetryRun(outs, retryCount, clock);
      t.attempts <= MaxRetries + 1 - retryCount && |t.sleeps| <= MaxRetries - retryCount &&
      (t.result.Threw? ==> t.attempts == MaxRetries + 1 - retryCount)
    decreases |outs|
  {
    if outs != [] {
      if outs[0].Failure? && retryCount < MaxRetries {
        assert NoneRateLimited(outs[1..]) by {
          forall k | 0 <= k < |outs[1..]| ensures !outs[1..][k].RateLimited? { assert outs[1..][k] == outs[k + 1]; }
        }
        AttemptBound(outs[1..], retryCount + 1, AfterSleep(clock, BackoffMs(retryCount)));
        BackoffRun(outs, retryCount, clock);
      } else {
        FinalRun(outs, retryCount, clock);
      }
    }
  }

  /** Four failures in a row from a fresh start: waits of 1000, 2000 and 4000 ms,
      the item marked waiting with retry counts 1, 2, 3 and retry-afters 1, 2, 4
      seconds, and the fourth error rethrown. */
  lemma BackoffSchedule(outs: seq<Outcome>, clock: int)
    requires |outs| >= 4 && outs[0].Failure? && outs[1].Failure? && outs[2].Failure? && outs[3].Failure?
    ensures var t := RetryRun(outs, 0, clock);
      t.result == Threw(outs[3].error) && t.sleeps == [1000, 2000, 4000] && t.attempts == 4 &&
      t.updates == [ToWaiting(1, clock + 1000, 1), ToGenerating(Some(1)),
                    ToWaiting(2, clock + 3000, 2), ToGenerating(Some(2)),
                    ToWaiting(3, clock + 7000, 4), ToGenerating(Some(3))]
  {
    var o1, o2, o3 := outs[1..], outs[2..], outs[3..];
    assert o1[0] == outs[1] && o2[0] == outs[2] && o3[0] == outs[3];
    assert o1[1..] == o2 && o2[1..] == o3;
    assert BackoffMs(0) == 1000 && BackoffMs(1) == 2000 && BackoffMs(2) == 4000;
    BackoffSeconds(0);
    BackoffSeconds(1);
    BackoffSeconds(2);
    FinalRun(o3, 3, clock + 7000);
    var t3 := RetryRun(o3, 3, clock + 7000);
    assert t3 == Trace(Threw(outs[3].error), [], [], 1, clock + 7000);
    BackoffRun(o2, 2, clock + 3000);
    var t2 := RetryRun(o2, 2, clock + 3000);
    assert t2.updates == [ToWaiting(3, clock + 7000, 4), ToGenerating(Some(3))];
    BackoffRun(o1, 1, clock + 1000);
    var t1 := RetryRun(o1, 1, clock + 1000);
    assert t1.updates == [ToWaiting(2, clock + 3000, 2), ToGenerating(Some(2))] + t2.updates;
    BackoffRun(outs, 0, clock);
  }

  /** A task whose provider has no key is retried like any failure: three backoff
      waits, then the "No API key" error. */
  lemma MissingKeyBacksOff(task: GenerationTask, keys: ApiKeys, replies: seq<AttemptReply>,
                           parse: string -> JsonParse, clock: int)
    requires |replies| >= 4 && !HasKey(keys, task.provider)
    ensures RetryRun(Outcomes(ProviderCall(keys, parse), task, replies), 0, clock).result == Threw(NoKeyError(task.provider))
    ensures RetryRun(Outcomes(ProviderCall(keys, parse), task, replies), 0, clock).sleeps == [1000, 2000, 4000]
  {
    var exec := ProviderCall(keys, parse);
    OutcomesAt(exec, task, replies, 0);
    OutcomesAt(exec, task, replies, 1);
    OutcomesAt(exec, task, replies, 2);
    OutcomesAt(exec, task, replies, 3);
    BackoffSchedule(Outcomes(exec, task, replies), clock);
  }

  /** How a run ends, how many calls it makes and how long it sleeps do not
      depend on the clock; only the `waitingUntil` times do. */
  lemma {:induction false} ClockIndependent(outs: seq<Outcome>, retryCount: nat, c1: int, c2: int)
    ensures RetryRun(outs, retryCount, c1).result == RetryRun(outs, retryCount, c2).result
    ensures RetryRun(outs, retryCount, c1).attempts == RetryRun(outs, retryCount, c2).attempts
    ensures RetryRun(outs, retryCount, c1).sleeps == RetryRun(outs, retryCount, c2).sleeps
    decreases |outs|
  {
    if outs != [] {
      match NextWait(outs[0], retryCount)
      case None =>
        FinalRun(outs, retryCount, c1);
        FinalRun(outs, retryCount, c2);
      case Some(w) =>
        ClockIndependent(outs[1..], w.retryCount, AfterSleep(c1, w.ms), AfterSleep(c2, w.ms));
        WaitRun(outs, retryCount, c1);
        WaitRun(outs, retryCount, c2);
    }
  }
}
