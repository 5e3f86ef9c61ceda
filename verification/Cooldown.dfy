// How long an error keeps a provider or model out: CooldownCalculator.
// Durations are in seconds.
module Cooldown {
  import opened Arithmetic
  import opened Text
  import opened Clock

  const MAX_COOLDOWN_SECONDS := 24.0 * 3600.0
  const MAX_FAILURES := 30
  const YEAR_2101 := 4_133_980_800 * SECOND

  const RATE_LIMIT_TYPES: set<string> := {
    "generic_429", "rate_limit_rpm", "rate_limit_until", "rate_limit_tpd", "gateway_quota",
    "daily_free_exhausted", "daily_quota_exceeded", "worker_request_limit", "weekly_limit", "monthly_limit"
  }

  const TRANSPORT_TYPES: set<string> := {
    "fetch_failed", "connect_timeout", "timeout", "provider_unavailable", "unknown_500", "generic_500"
  }

  const MAX_FAILURES_SUFFIX := " (max_failures)"
  const PROBING_SUFFIX := " (probing)"

  predicate RequestScoped(errorType: string) {
    "context_length" <= errorType || "max_tokens_exceeded" <= errorType || "input_too_long" <= errorType
  }

  // What the error parser reports about one error.
  datatype ErrorInfo = ErrorInfo(errorType: string, hours: real, minutes: real, permanent: bool,
                                 modelSpecific: bool, global: bool)

  // The deadline handed in as "current": ISO text is compared, anything else
  // makes the comparison raise, and the exception is swallowed.
  datatype Current = Absent | IsoText(at: int) | Other

  datatype Verdict = Verdict(until: Option<int>, reason: string, permanent: bool, failures: nat)

  function MinReal(a: real, b: real): real {
    if a < b then a else b
  }

  // `x * 2 ** n`.
  function Doubled(x: real, n: nat): real {
    if n == 0 then x else 2.0 * Doubled(x, n - 1)
  }

  function BaseSeconds(info: ErrorInfo): real {
    info.hours * 3600.0 + info.minutes * 60.0
  }

  // Backoff before jitter, for the failures-th failure in a row.
  function BackoffSeconds(base: real, failures: nat): real {
    var backoff :=
      if failures > 1 then MinReal(Doubled(base, Min(failures - 1, 30)), MAX_COOLDOWN_SECONDS) else base;
    if 0.0 < backoff < 30.0 then 30.0 else backoff
  }

  // `int(x)`: truncation toward zero.
  function Truncate(x: real): int {
    if x >= 0.0 then x.Floor else -((-x).Floor)
  }

  function Jittered(backoff: real, jitter: real): real {
    backoff * jitter
  }

  // The jittered backoff, in whole seconds.
  function JitteredSeconds(base: real, failures: nat, jitter: real): int {
    Truncate(Jittered(BackoffSeconds(base, failures), jitter))
  }

  function Calculate(info: ErrorInfo, currentFailures: nat, current: Current, jitter: real, now: int): Verdict {
    var failures := currentFailures + 1;
    if info.errorType in TRANSPORT_TYPES then
      var clamped := Min(failures, 2);
      Verdict(Some(now + (if clamped <= 1 then 30 else 60) * SECOND), info.errorType, false, clamped)
    else if failures >= MAX_FAILURES then
      var reason := info.errorType + MAX_FAILURES_SUFFIX;
      if info.errorType in RATE_LIMIT_TYPES then
        Verdict(Some(now + 86400 * SECOND), reason, false, failures)
      else if RequestScoped(info.errorType) then
        Verdict(Some(now + 120 * SECOND), reason, false, failures)
      else
        Verdict(None, reason, true, failures)
    else if info.permanent then
      Verdict(None, info.errorType, true, failures)
    else
      var until := now + JitteredSeconds(BaseSeconds(info), failures, jitter) * SECOND;
      Verdict(Some(if current.IsoText? && current.at > until then current.at else until),
              info.errorType, false, failures)
  }

  // A deadline outside 1970..2100 counts as expired, no deadline as permanent.
  predicate IsExpired(until: Option<int>, now: int) {
    until.Some? && (until.value < 0 || until.value >= YEAR_2101 || now >= until.value)
  }

  // `_base_error_type`: one suffix off.
  function BaseErrorType(reason: string): string {
    if EndsWith(reason, MAX_FAILURES_SUFFIX) then reason[..|reason| - |MAX_FAILURES_SUFFIX|]
    else if EndsWith(reason, PROBING_SUFFIX) then reason[..|reason| - |PROBING_SUFFIX|]
    else reason
  }

  // ---- Backoff ----------------------------------------------------------------

  lemma {:induction false} DoubledMonotone(x: real, a: nat, b: nat)
    requires x >= 0.0 && a <= b
    ensures 0.0 <= x <= Doubled(x, a) <= Doubled(x, b)
    decreases b
  {
    if a < b {
      DoubledMonotone(x, a, b - 1);
    } else if a > 0 {
      DoubledMonotone(x, a - 1, a - 1);
    }
  }

  // Over consecutive failures the backoff never shrinks and never passes the
  // cap, exactly when the base itself is at most the cap: a longer base (the
  // weekly limit) drops to 24 hours on the second failure.
  lemma {:induction false} BackoffGrowsIffBaseWithinCap(base: real)
    requires base >= 0.0
    ensures (forall m: nat, n: nat :: 1 <= m <= n ==> BackoffSeconds(base, m) <= BackoffSeconds(base, n))
            <==> base <= MAX_COOLDOWN_SECONDS
  {
    if base <= MAX_COOLDOWN_SECONDS {
      forall m: nat, n: nat | 1 <= m <= n ensures BackoffSeconds(base, m) <= BackoffSeconds(base, n) {
        BackoffMonotone(base, m, n);
      }
    } else {
      assert Doubled(base, 1) == 2.0 * base;
      assert BackoffSeconds(base, 1) == base;
      assert BackoffSeconds(base, 2) == MAX_COOLDOWN_SECONDS;
    }
  }

  lemma {:induction false} BackoffMonotone(base: real, m: nat, n: nat)
    requires 0.0 <= base <= MAX_COOLDOWN_SECONDS && 1 <= m <= n
    ensures BackoffSeconds(base, m) <= BackoffSeconds(base, n)
  {
    if n > 1 {
      DoubledMonotone(base, if m > 1 then Min(m - 1, 30) else 0, Min(n - 1, 30));
    }
  }

  // `2 ** n`.
  function Power(n: nat): real {
    if n == 0 then 1.0 else 2.0 * Power(n - 1)
  }

  function Scaled(base: real, n: nat): real {
    base * Power(n)
  }

  // The wait the n-th failure in a row calls for: the base, doubled with every further
  // failure up to a day, and at least half a minute unless it is nothing.
  function Wait(base: real, n: nat): real
    requires n >= 1
  {
    AtLeastHalfAMinute(if n > 1 && Scaled(base, n - 1) > 86400.0 then 86400.0 else Scaled(base, n - 1))
  }

  function AtLeastHalfAMinute(wait: real): real {
    if 0.0 < wait < 30.0 then 30.0 else wait
  }

  lemma {:induction false} ScaledStep(base: real, n: nat)
    ensures Scaled(base, n) == if n == 0 then base else 2.0 * Scaled(base, n - 1)
  {
    if n == 0 {
      assert Power(0) == 1.0;
    } else {
      assert Power(n) == 2.0 * Power(n - 1);
      assert base * (2.0 * Power(n - 1)) == 2.0 * (base * Power(n - 1));
    }
  }

  lemma {:induction false} DoubledIsScaled(base: real, n: nat)
    ensures Doubled(base, n) == Scaled(base, n)
  {
    ScaledStep(base, n);
    if n == 0 {
    } else {
      DoubledIsScaled(base, n - 1);
    }
  }

  // The backoff is that wait; from the 31st failure on it stays what it was.
  lemma {:induction false} BackoffIsWait(base: real, n: nat)
    requires n >= 1
    ensures BackoffSeconds(base, n) == Wait(base, if n <= 31 then n else 31)
  {
    var k := if n <= 31 then n else 31;
    DoubledIsScaled(base, k - 1);
    assert Min(n - 1, 30) == k - 1;
    CappedWait(base, k, Doubled(base, k - 1), BackoffSeconds(base, n));
  }

  lemma {:induction false} CappedWait(base: real, n: nat, doubled: real, backoff: real)
    requires n >= 1 && doubled == Scaled(base, n - 1)
    requires n == 1 ==> doubled == base
    requires backoff == AtLeastHalfAMinute(if n > 1 then MinReal(doubled, MAX_COOLDOWN_SECONDS) else base)
    ensures backoff == Wait(base, n)
  {
  }

  // From half a minute up, the next failure doubles the wait while that is within a day,
  // and makes it a day once it is not.
  lemma {:induction false} BackoffDoubles(base: real, n: nat)
    requires base >= 30.0 && 1 <= n < 30
    ensures BackoffSeconds(base, n + 1)
         == if 2.0 * BackoffSeconds(base, n) <= 86400.0 then 2.0 * BackoffSeconds(base, n) else 86400.0
  {
    BackoffIsWait(base, n);
    BackoffIsWait(base, n + 1);
    ScaledStep(base, n);
    DoubledIsScaled(base, n - 1);
    DoubledMonotone(base, 0, n - 1);
  }

  // The cooldown is a whole number of seconds within 15% of the backoff.
  lemma {:induction false} JitterBand(info: ErrorInfo, failures: nat, current: Current, jitter: real, now: int)
    returns (seconds: int)
    requires 0.85 <= jitter <= 1.15 && !current.IsoText?
    requires info.errorType !in TRANSPORT_TYPES && failures + 1 < MAX_FAILURES && !info.permanent
    requires BaseSeconds(info) >= 0.0
    ensures Calculate(info, failures, current, jitter, now).until == Some(now + seconds * SECOND)
    ensures var backoff := BackoffSeconds(info.hours * 3600.0 + info.minutes * 60.0, failures + 1);
            0.85 * backoff - 1.0 < seconds as real <= 1.15 * backoff
  {
    seconds := JitteredSeconds(BaseSeconds(info), failures + 1, jitter);
    SecondsBand(BaseSeconds(info), failures + 1, jitter);
  }

  lemma {:induction false} SecondsBand(base: real, failures: nat, jitter: real)
    requires 0.85 <= jitter <= 1.15 && base >= 0.0 && failures >= 1
    ensures var backoff := BackoffSeconds(base, failures);
            0.85 * backoff - 1.0 < JitteredSeconds(base, failures, jitter) as real <= 1.15 * backoff
  {
    var backoff := BackoffSeconds(base, failures);
    DoubledMonotone(base, 0, Min(failures - 1, 30));
    assert backoff >= 0.0;
    TruncateBand(backoff, jitter);
  }

  // The whole number next to x on the side of zero.
  lemma {:induction false} TowardZero(x: real)
    ensures x >= 0.0 ==> x - 1.0 < Truncate(x) as real <= x
    ensures x <= 0.0 ==> x <= Truncate(x) as real < x + 1.0
  {
  }

  lemma {:induction false} TruncateBand(backoff: real, jitter: real)
    requires 0.85 <= jitter <= 1.15 && backoff >= 0.0
    ensures 0.85 * backoff - 1.0 < Truncate(Jittered(backoff, jitter)) as real <= 1.15 * backoff
  {
    JitteredMonotone(backoff, 0.85, jitter);
    JitteredMonotone(backoff, jitter, 1.15);
    assert Jittered(backoff, 0.85) == 0.85 * backoff && Jittered(backoff, 1.15) == 1.15 * backoff;
    TowardZero(Jittered(backoff, jitter));
  }

  // The shortest wait the jitter can draw.
  function LeastSeconds(base: real, failures: nat): int {
    Min(JitteredSeconds(base, failures, 0.85), JitteredSeconds(base, failures, 1.15))
  }

  lemma {:induction false} JitterOrder(base: real, failures: nat, jitter: real)
    requires 0.85 <= jitter <= 1.15
    ensures LeastSeconds(base, failures) <= JitteredSeconds(base, failures, jitter)
  {
    var backoff := BackoffSeconds(base, failures);
    if backoff >= 0.0 {
      JitteredMonotone(backoff, 0.85, jitter);
      TruncateMonotone(Jittered(backoff, 0.85), Jittered(backoff, jitter));
    } else {
      JitteredMonotone(backoff, jitter, 1.15);
      TruncateMonotone(Jittered(backoff, 1.15), Jittered(backoff, jitter));
    }
  }

  lemma {:induction false} JitteredMonotone(backoff: real, low: real, high: real)
    requires low <= high
    ensures backoff >= 0.0 ==> Jittered(backoff, low) <= Jittered(backoff, high)
    ensures backoff <= 0.0 ==> Jittered(backoff, high) <= Jittered(backoff, low)
  {
    assert Jittered(backoff, high) - Jittered(backoff, low) == backoff * (high - low);
  }

  lemma {:induction false} TruncateMonotone(x: real, y: real)
    requires x <= y
    ensures Truncate(x) <= Truncate(y)
  {
  }

  // ---- Which errors lock -----------------------------------------------------------

  // Transport errors never cool anything down for more than a minute, and their
  // count never gets near the lock.
  lemma {:induction false} TransportStaysShort(info: ErrorInfo, failures: nat, current: Current, jitter: real, now: int)
    requires info.errorType in TRANSPORT_TYPES
    ensures var v := Calculate(info, failures, current, jitter, now);
      && !v.permanent && v.failures <= 2 && v.until.Some?
      && v.until.value == now + (if failures == 0 then 30 else 60) * SECOND
  {
  }

  predicate Transport(errorType: string) {
    || errorType == "fetch_failed" || errorType == "connect_timeout" || errorType == "timeout"
    || errorType == "provider_unavailable" || errorType == "unknown_500" || errorType == "generic_500"
  }

  predicate RateLimited(errorType: string) {
    || errorType == "generic_429" || errorType == "rate_limit_rpm" || errorType == "rate_limit_until"
    || errorType == "rate_limit_tpd" || errorType == "gateway_quota" || errorType == "daily_free_exhausted"
    || errorType == "daily_quota_exceeded" || errorType == "worker_request_limit"
    || errorType == "weekly_limit" || errorType == "monthly_limit"
  }

  predicate PromptTooLong(errorType: string) {
    || (|errorType| >= 14 && errorType[..14] == "context_length")
    || (|errorType| >= 19 && errorType[..19] == "max_tokens_exceeded")
    || (|errorType| >= 14 && errorType[..14] == "input_too_long")
  }

  // The next error locks, after this many in a row.
  predicate Locks(info: ErrorInfo, failures: nat) {
    && !Transport(info.errorType)
    && if failures >= 29 then !RateLimited(info.errorType) && !PromptTooLong(info.errorType) else info.permanent
  }

  // An error locks exactly when it is the thirtieth or a later one in a row and neither a
  // rate limit nor a prompt that is too long, or an earlier one reported as permanent;
  // transport errors never do.  A lock is what has no deadline.
  lemma {:induction false} LocksIff(info: ErrorInfo, failures: nat, current: Current, jitter: real, now: int)
    ensures var v, t := Calculate(info, failures, current, jitter, now), info.errorType;
            && (v.permanent <==> Locks(info, failures))
            && (v.until.None? <==> v.permanent)
            && v.reason == t + (if failures >= 29 && !Transport(t) then " (max_failures)" else "")
            && (!Transport(t) ==> v.failures == failures + 1)
  {
    var t := info.errorType;
    assert t in TRANSPORT_TYPES <==> Transport(t);
    assert t in RATE_LIMIT_TYPES <==> RateLimited(t);
    assert RequestScoped(t) <==> PromptTooLong(t);
    assert t + "" == t;
  }

  lemma {:induction false} ScopedIsNoLimit(errorType: string)
    requires RequestScoped(errorType)
    ensures errorType !in RATE_LIMIT_TYPES && errorType !in TRANSPORT_TYPES
  {
    if "context_length" <= errorType {
      assert errorType[0] == 'c' && errorType[3] == 't';
    } else if "max_tokens_exceeded" <= errorType {
      assert errorType[0] == 'm' && errorType[1] == 'a';
    } else {
      assert errorType[0] == 'i';
    }
  }

  // From the thirtieth error in a row on, a rate limit keeps out for a day and a prompt
  // that is too long for two minutes, whatever was reported.
  lemma {:induction false} ThirtiethWaits(info: ErrorInfo, failures: nat, current: Current, jitter: real, now: int)
    requires failures >= 29
    ensures var v, t := Calculate(info, failures, current, jitter, now), info.errorType;
            && (RateLimited(t) ==> v.until == Some(now + 24 * 3600 * SECOND))
            && (PromptTooLong(t) ==> v.until == Some(now + 2 * 60 * SECOND))
  {
    var t := info.errorType;
    assert t in TRANSPORT_TYPES <==> Transport(t);
    assert t in RATE_LIMIT_TYPES <==> RateLimited(t);
    assert RequestScoped(t) <==> PromptTooLong(t);
    if PromptTooLong(t) {
      ScopedIsNoLimit(t);
    }
  }

  // A current deadline given as text replaces the one drawn exactly when it is later.
  lemma {:induction false} LaterTextWins(info: ErrorInfo, failures: nat, at: int, jitter: real, now: int)
    requires info.errorType !in TRANSPORT_TYPES && failures + 1 < MAX_FAILURES && !info.permanent
    ensures var drawn := Calculate(info, failures, Absent, jitter, now).until;
            drawn.Some? && Calculate(info, failures, IsoText(at), jitter, now).until
                        == if at > drawn.value then Some(at) else drawn
  {
  }

  // A rate limit reported as permanent locks, exactly until the thirtieth one,
  // which turns the lock into a cooldown.
  lemma {:induction false} PermanentLimitLocksIff(info: ErrorInfo, failures: nat, current: Current, jitter: real,
                                                  now: int)
    requires RateLimited(info.errorType) && info.permanent
    ensures Calculate(info, failures, current, jitter, now).permanent <==> failures + 1 < 30
  {
    LocksIff(info, failures, current, jitter, now);
  }

  // A deadline from 1970 to 2100 expires when it comes; any other counts as expired, and no
  // deadline never does.
  lemma {:induction false} ExpiresIff(until: Option<int>, now: int)
    ensures IsExpired(until, now) <==>
              until.Some? && !(0 <= until.value < 4_133_980_800_000_000 && now < until.value)
  {
  }

  // ---- Reason strings -----------------------------------------------------------

  lemma {:induction false} BaseOfMaxed(base: string)
    ensures BaseErrorType(base + MAX_FAILURES_SUFFIX) == base
  {
    assert (base + MAX_FAILURES_SUFFIX)[|base|..] == MAX_FAILURES_SUFFIX;
  }

  lemma {:induction false} BaseOfPlain(reason: string)
    requires reason == "" || reason[|reason| - 1] != ')'
    ensures BaseErrorType(reason) == reason
  {
    if |reason| >= |MAX_FAILURES_SUFFIX| {
      assert reason[|reason| - |MAX_FAILURES_SUFFIX|..][|MAX_FAILURES_SUFFIX| - 1] == reason[|reason| - 1];
    }
    if |reason| >= |PROBING_SUFFIX| {
      assert reason[|reason| - |PROBING_SUFFIX|..][|PROBING_SUFFIX| - 1] == reason[|reason| - 1];
    }
    assert MAX_FAILURES_SUFFIX[|MAX_FAILURES_SUFFIX| - 1] == ')';
    assert PROBING_SUFFIX[|PROBING_SUFFIX| - 1] == ')';
  }

  lemma {:induction false} BaseOfRateLimit(errorType: string)
    requires errorType in RATE_LIMIT_TYPES
    ensures BaseErrorType(errorType) == errorType
    ensures BaseErrorType(errorType + MAX_FAILURES_SUFFIX) == errorType
  {
    BaseOfMaxed(errorType);
    BaseOfPlain(errorType);
  }
}
