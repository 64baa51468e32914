/** Rate bounds read off a genuine log: what the fixed-window limiter guarantees, and how much it lets through. */
module RateLimit {
  import opened Base
  import opened Permissions
  import opened Accounts
  import opened Engine
  import opened AuditLog

  /** Admitted entries with a timestamp in [a, b). */
  function AllowedIn(log: Log, a: int, b: int): nat {
    if log == [] then 0
    else
      var r := Last(log).record;
      AllowedIn(Init(log), a, b) + if r.allowed && a <= r.timestamp < b then 1 else 0
  }

  /** No policy in force had a shorter window than one in force before it. */
  ghost predicate NeverShrinks(log: Log) {
    forall i, j :: 0 <= i <= j < |log| ==> log[i].context.limits.windowSeconds <= log[j].context.limits.windowSeconds
  }

  /** Every policy in force was at most as generous as `limits`. */
  ghost predicate Within(log: Log, limits: Limits) {
    forall i :: 0 <= i < |log| ==>
      && log[i].context.limits.maxRequests <= limits.maxRequests
      && limits.windowSeconds <= log[i].context.limits.windowSeconds
  }

  // ---------------------------------------------------------------- arithmetic

  /** `m` for every full window of length `w` in `x`. */
  function Pay(m: nat, x: nat, w: int): nat
    requires w > 0
  {
    if x < w then 0 else m + Pay(m, x - w, w)
  }

  lemma {:induction false} PayMonotone(m: nat, x: nat, y: nat, w: int)
    requires w > 0 && x <= y
    ensures Pay(m, x, w) <= Pay(m, y, w)
  {
    if x < w {
    } else {
      PayMonotone(m, x - w, y - w, w);
    }
  }

  lemma {:induction false} PayIsProduct(m: nat, x: nat, w: int)
    requires w > 0
    ensures Pay(m, x, w) == m * (x / w)
  {
    if x < w {
      DivisionIsUnique(x, w, 0, x);
    } else {
      var q := (x - w) / w;
      PayIsProduct(m, x - w, w);
      NextMultiple(x - w, w);
      OneMore(m, q, x / w);
    }
  }

  lemma OneMore(m: nat, q: int, next: int)
    requires next == q + 1
    ensures m * next == m * q + m
  {
  }

  lemma NextMultiple(x: nat, w: int)
    requires w > 0
    ensures (x + w) / w == x / w + 1
  {
    DivisionIsUnique(x + w, w, x / w + 1, x % w);
  }

  lemma DivisionIsUnique(x: nat, w: int, q: int, r: int)
    requires w > 0 && x == w * q + r && 0 <= r < w
    ensures x / w == q
  {
    var d := x / w - q;
    assert w * d == r - x % w;
    assert d >= 1 ==> w * d >= w;
    assert d <= -1 ==> w * d <= -w;
  }

  // ---------------------------------------------------------------- prefixes

  lemma {:induction false} GenuinePrefix(t0: i64, log: Log, n: nat)
    requires Genuine(t0, log) && n <= |log|
    ensures Genuine(t0, log[..n])
  {
    if n < |log| {
      GenuinePrefix(t0, Init(log), n);
      assert Init(log)[..n] == log[..n];
    } else {
      assert log[..n] == log;
    }
  }

  /** Entry `i` carries the verdict of the window replayed from the entries before it. */
  lemma GenuineAt(t0: i64, log: Log, i: nat)
    requires Genuine(t0, log) && i < |log|
    ensures GenuineEntry(i + 1, log[i], WindowAfter(t0, log[..i]))
  {
    GenuinePrefix(t0, log, i + 1);
    assert Init(log[..i + 1]) == log[..i];
  }

  lemma MonotonePrefix(t0: i64, log: Log, n: nat)
    requires Monotone(t0, log) && n < |log|
    ensures Monotone(t0, log[..n])
    ensures n > 0 ==> Last(log[..n]).record.timestamp <= log[n].record.timestamp
  {
  }

  lemma {:induction false} CountPrefix(log: Log, n: nat, a: int, b: int)
    requires n <= |log|
    ensures AllowedIn(log[..n], a, b) <= AllowedIn(log, a, b)
  {
    if n < |log| {
      CountPrefix(Init(log), n, a, b);
      assert Init(log)[..n] == log[..n];
    } else {
      assert log[..n] == log;
    }
  }

  lemma {:induction false} CountWider(log: Log, a: int, b: int, a': int, b': int)
    requires a' <= a && b <= b'
    ensures AllowedIn(log, a, b) <= AllowedIn(log, a', b')
  {
    if log == [] {
    } else {
      CountWider(Init(log), a, b, a', b');
    }
  }

  lemma {:induction false} UsedWithinLimit(t0: i64, log: Log, limits: Limits)
    requires Genuine(t0, log) && Within(log, limits)
    ensures WindowAfter(t0, log).used <= limits.maxRequests
  {
    if log == [] {
    } else {
      UsedWithinLimit(t0, Init(log), limits);
    }
  }

  // ---------------------------------------------------------------- windows that never shrink

  /** While policies stay within (M, W) and no window shrinks, a window has run out before the next one
      opens, by any policy's measure: the current start pays `M` for every window that can have
      contributed to [a, b) before it. Holds for any clock. */
  lemma {:induction false} WindowsPay(t0: i64, log: Log, limits: Limits, a: int, b: int)
    requires Genuine(t0, log) && Within(log, limits) && NeverShrinks(log) && Positive(limits)
    ensures var w := WindowAfter(t0, log);
      var W := limits.windowSeconds;
      var n := AllowedIn(log, a, b);
      && (w.startedAt < a ==> n <= w.used)
      && (log != [] && w.startedAt + Last(log).context.limits.windowSeconds <= a ==> n == 0)
      && (w.startedAt >= a ==> n <= Pay(limits.maxRequests, w.startedAt - a + W - 1, W) + w.used)
  {
    if log == [] {
    } else {
      var M, W := limits.maxRequests, limits.windowSeconds;
      var before := WindowAfter(t0, Init(log));
      var after := WindowAfter(t0, log);
      WindowsPay(t0, Init(log), limits, a, b);
      UsedWithinLimit(t0, Init(log), limits);
      if before.startedAt + W <= after.startedAt && a <= after.startedAt {
        PayMonotone(M, if a <= before.startedAt then before.startedAt - a + W - 1 else 0,
                    after.startedAt - a - 1 + if after.startedAt == a then 1 else 0, W);
      }
    }
  }

  /** The start of the window is initialization or the time of some entry. */
  lemma {:induction false} StartIsPast(t0: i64, log: Log)
    requires Genuine(t0, log) && Monotone(t0, log)
    ensures WindowAfter(t0, log).startedAt <= if log == [] then t0 else Last(log).record.timestamp
  {
    if log == [] {
    } else {
      StartIsPast(t0, Init(log));
    }
  }

  lemma {:induction false} IntervalPays(t0: i64, log: Log, limits: Limits, a: int, L: int)
    requires Genuine(t0, log) && Monotone(t0, log) && Within(log, limits) && NeverShrinks(log) && Positive(limits)
    requires L >= 1
    ensures AllowedIn(log, a, a + L)
         <= Pay(limits.maxRequests, L + limits.windowSeconds - 2, limits.windowSeconds) + limits.maxRequests
  {
    var M, W := limits.maxRequests, limits.windowSeconds;
    if log == [] {
    } else if Last(log).record.timestamp >= a + L {
      IntervalPays(t0, Init(log), limits, a, L);
    } else {
      var w := WindowAfter(t0, log);
      WindowsPay(t0, log, limits, a, a + L);
      UsedWithinLimit(t0, log, limits);
      StartIsPast(t0, log);
      if w.startedAt >= a {
        PayMonotone(M, w.startedAt - a + W - 1, L + W - 2, W);
      }
    }
  }

  /** Rate bound: under a policy (M, W), and under any sequence of policies within it whose windows never
      shrink, no interval of L seconds admits more than M * (floor((L + W - 2) / W) + 1) requests. */
  lemma RateBound(t0: i64, log: Log, limits: Limits, a: int, L: int)
    requires Genuine(t0, log) && Monotone(t0, log) && Within(log, limits) && NeverShrinks(log) && Positive(limits)
    requires L >= 1
    ensures AllowedIn(log, a, a + L)
         <= limits.maxRequests * ((L + limits.windowSeconds - 2) / limits.windowSeconds + 1)
  {
    var M, W := limits.maxRequests, limits.windowSeconds;
    IntervalPays(t0, log, limits, a, L);
    PayIsProduct(M, L + W - 2, W);
    assert M * ((L + W - 2) / W + 1) == M * ((L + W - 2) / W) + M;
  }

  /** Hence never more than 2M in any span of up to W + 1 seconds, so in any two consecutive ones, and
      never more than M in a single second. */
  lemma BurstBound(t0: i64, log: Log, limits: Limits, a: int, L: int)
    requires Genuine(t0, log) && Monotone(t0, log) && Within(log, limits) && NeverShrinks(log) && Positive(limits)
    requires 1 <= L <= limits.windowSeconds + 1
    ensures AllowedIn(log, a, a + L) <= 2 * limits.maxRequests
    ensures L == 1 ==> AllowedIn(log, a, a + L) <= limits.maxRequests
  {
    IntervalPays(t0, log, limits, a, L);
  }

  // ---------------------------------------------------------------- any reconfiguration

  lemma {:induction false} LifetimePays(t0: i64, log: Log, limits: Limits)
    requires Genuine(t0, log) && Within(log, limits) && Positive(limits)
    ensures var w := WindowAfter(t0, log);
      w.startedAt >= t0
      && CountAllowed(log) <= Pay(limits.maxRequests, w.startedAt - t0, limits.windowSeconds) + w.used
  {
    if log == [] {
    } else {
      var M, W := limits.maxRequests, limits.windowSeconds;
      var before := WindowAfter(t0, Init(log));
      var after := WindowAfter(t0, log);
      LifetimePays(t0, Init(log), limits);
      UsedWithinLimit(t0, Init(log), limits);
      if before.startedAt + W <= after.startedAt {
        PayMonotone(M, before.startedAt - t0, after.startedAt - t0 - W, W);
      }
    }
  }

  /** Lifetime bound: whatever sequence of policies within (M, W) is installed, by any time t no earlier
      than the last entry, at most M * (floor((t - t0) / W) + 1) requests were admitted. */
  lemma LifetimeBound(t0: i64, log: Log, limits: Limits, t: int)
    requires Genuine(t0, log) && Monotone(t0, log) && Within(log, limits) && Positive(limits)
    requires t0 <= t && (log != [] ==> Last(log).record.timestamp <= t)
    ensures CountAllowed(log) <= limits.maxRequests * ((t - t0) / limits.windowSeconds + 1)
  {
    var M, W := limits.maxRequests, limits.windowSeconds;
    LifetimePays(t0, log, limits);
    UsedWithinLimit(t0, log, limits);
    StartIsPast(t0, log);
    PayMonotone(M, WindowAfter(t0, log).startedAt - t0, t - t0, W);
    PayIsProduct(M, t - t0, W);
    assert M * ((t - t0) / W + 1) == M * ((t - t0) / W) + M;
  }

  /** As `WindowsPay`, when policies change but stay within (M, W). A window may now open in the very
      second in which the previous one last admitted, which costs one more window. */
  lemma {:induction false} ReconfiguredWindowsPay(t0: i64, log: Log, limits: Limits, a: int, b: int)
    requires Genuine(t0, log) && Monotone(t0, log) && Within(log, limits) && Positive(limits)
    ensures var w := WindowAfter(t0, log);
      var M := limits.maxRequests;
      var n := AllowedIn(log, a, b);
      && (w.startedAt < a ==> n <= w.used)
      && (log != [] && Last(log).record.timestamp < a ==> n == 0)
      && (w.startedAt >= a ==> n <= Pay(M, w.startedAt - a, limits.windowSeconds) + M + w.used)
  {
    if log == [] {
    } else {
      var M, W := limits.maxRequests, limits.windowSeconds;
      var before := WindowAfter(t0, Init(log));
      var after := WindowAfter(t0, log);
      ReconfiguredWindowsPay(t0, Init(log), limits, a, b);
      UsedWithinLimit(t0, Init(log), limits);
      if before.startedAt + W <= after.startedAt && a <= before.startedAt {
        PayMonotone(M, before.startedAt - a, after.startedAt - a - W, W);
      }
    }
  }

  lemma {:induction false} ReconfiguredIntervalPays(t0: i64, log: Log, limits: Limits, a: int, L: int)
    requires Genuine(t0, log) && Monotone(t0, log) && Within(log, limits) && Positive(limits)
    requires L >= 1
    ensures AllowedIn(log, a, a + L)
         <= Pay(limits.maxRequests, L - 1, limits.windowSeconds) + 2 * limits.maxRequests
  {
    if log == [] {
    } else if Last(log).record.timestamp >= a + L {
      ReconfiguredIntervalPays(t0, Init(log), limits, a, L);
    } else {
      var w := WindowAfter(t0, log);
      ReconfiguredWindowsPay(t0, log, limits, a, a + L);
      UsedWithinLimit(t0, log, limits);
      StartIsPast(t0, log);
      if w.startedAt >= a {
        PayMonotone(limits.maxRequests, w.startedAt - a, L - 1, limits.windowSeconds);
      }
    }
  }

  /** Whatever sequence of policies an operator installs, as long as each is within (M, W), an
      interval of L seconds admits at most M * (floor((L - 1) / W) + 2) requests. */
  lemma ReconfiguredRateBound(t0: i64, log: Log, limits: Limits, a: int, L: int)
    requires Genuine(t0, log) && Monotone(t0, log) && Within(log, limits) && Positive(limits)
    requires L >= 1
    ensures AllowedIn(log, a, a + L) <= limits.maxRequests * ((L - 1) / limits.windowSeconds + 2)
  {
    var M, W := limits.maxRequests, limits.windowSeconds;
    ReconfiguredIntervalPays(t0, log, limits, a, L);
    PayIsProduct(M, L - 1, W);
    assert M * ((L - 1) / W + 2) == M * ((L - 1) / W) + 2 * M;
  }

  // ---------------------------------------------------------------- no false rejection

  /** All of the current usage was admitted at or after the window's start. */
  lemma {:induction false} UsageIsRecent(t0: i64, log: Log)
    requires Genuine(t0, log) && Monotone(t0, log)
    ensures var w := WindowAfter(t0, log);
      log != [] ==> w.used <= AllowedIn(log, w.startedAt, Last(log).record.timestamp + 1)
    ensures log == [] ==> WindowAfter(t0, log).used == 0
  {
    if log == [] {
    } else {
      var before := WindowAfter(t0, Init(log));
      UsageIsRecent(t0, Init(log));
      StartIsPast(t0, Init(log));
      if Init(log) != [] {
        CountWider(Init(log), before.startedAt, Last(Init(log)).record.timestamp + 1,
                   before.startedAt, Last(log).record.timestamp + 1);
      }
    }
  }

  /** A quota rejection at time t under (M, W) is never spurious: at least M entries before it were
      admitted in (t - W, t], however often the policy was reconfigured. */
  lemma NoFalseQuotaRejection(t0: i64, log: Log, i: nat)
    requires Genuine(t0, log) && Monotone(t0, log) && i < |log|
    requires log[i].record.reason == QuotaExceeded.Code()
    ensures var t := log[i].record.timestamp;
      var limits := log[i].context.limits;
      limits.maxRequests <= AllowedIn(log[..i], t - limits.windowSeconds + 1, t + 1)
                         <= AllowedIn(log, t - limits.windowSeconds + 1, t + 1)
  {
    hide AllowedIn, Monotone, Genuine;
    var t := log[i].record.timestamp;
    var limits := log[i].context.limits;
    var w := WindowAfter(t0, log[..i]);
    MonotonePrefix(t0, log, i);
    GenuineAt(t0, log, i);
    GenuinePrefix(t0, log, i);
    UsageIsRecent(t0, log[..i]);
    assert log[..i] != [];
    CountWider(log[..i], w.startedAt, Last(log[..i]).record.timestamp + 1,
               t - limits.windowSeconds + 1, t + 1);
    CountPrefix(log, i, t - limits.windowSeconds + 1, t + 1);
  }

  /** Exactly when a request is admitted: authorized, and the window has run out or has room. A window
      that has run out always has room, because configured limits are positive. */
  lemma AdmittedExactlyWhen(rt: RuntimeState, c: Context, action: u8, now: i64)
    requires rt.totalAllowed + rt.totalRejected == rt.rollingSequence < MAX_U64
    requires Positive(c.limits)
    requires !Overflows(rt, c, action)
    ensures var r := Consume(rt, c, action, now);
      var windowEnd := rt.currentWindowStartedAt + c.limits.windowSeconds;
      && r.Ok?
      && (LastDecision(r.value).allowed <==>
            Authorized(c, action) && (now >= windowEnd || rt.currentWindowUsed < c.limits.maxRequests))
      && (Authorized(c, action) && now >= windowEnd ==>
            r.value.currentWindowUsed == 1 && r.value.currentWindowStartedAt == now)
      && (!LastDecision(r.value).allowed ==>
            WindowOf(r.value) == WindowOf(rt) && r.value.totalAllowed == rt.totalAllowed)
  {
    ConsumeTakesVerdict(rt, c, action, now);
  }

  // ---------------------------------------------------------------- the trail certifies itself

  function UsedBefore(log: Log, i: nat): int
    requires i <= |log|
  {
    if i == 0 then 0 else log[i - 1].record.quotaUsedAfter
  }

  /** The window start as an auditor would reconstruct it: the latest admitted entry that brought
      usage to 1 opened the window, except that the first admission may still fall in the window
      opened by initialization. */
  function AuditedStart(t0: i64, log: Log): i64 {
    if log == [] then t0
    else
      var e := Last(log);
      var first := CountAllowed(Init(log)) == 0;
      if e.record.allowed && e.record.quotaUsedAfter == 1
         && !(first && e.record.timestamp < t0 + e.context.limits.windowSeconds)
      then e.record.timestamp
      else AuditedStart(t0, Init(log))
  }

  lemma {:induction false} ReplayIsAudit(t0: i64, log: Log)
    requires Genuine(t0, log)
    ensures WindowAfter(t0, log) == Window(AuditedStart(t0, log), UsedBefore(log, |log|))
    ensures WindowAfter(t0, log).used == 0 <==> CountAllowed(log) == 0
    ensures CountAllowed(log) == 0 ==> WindowAfter(t0, log).startedAt == t0
  {
    if log == [] {
    } else {
      ReplayIsAudit(t0, Init(log));
      assert UsedBefore(log, |log| - 1) == UsedBefore(Init(log), |log| - 1);
    }
  }

  /** Entry by entry: an admission counts up by one or restarts at 1 and stays within the limit then
      in force; a rejection repeats the value before it. */
  lemma TrailCertifiesItself(t0: i64, log: Log, i: nat)
    requires Genuine(t0, log) && i < |log|
    ensures var r := log[i].record;
      && r.sequence == i + 1
      && (r.allowed <==> r.reason == Allowed.Code())
      && (r.allowed ==>
            && (r.quotaUsedAfter == UsedBefore(log, i) + 1 || r.quotaUsedAfter == 1)
            && 1 <= r.quotaUsedAfter <= log[i].context.limits.maxRequests)
      && (!r.allowed ==> r.quotaUsedAfter == UsedBefore(log, i))
  {
  }

  /** Every admitted entry was permitted by the mask then attached, on a key then active. */
  lemma AdmissionsWereAuthorized(t0: i64, log: Log, i: nat)
    requires Genuine(t0, log) && i < |log| && log[i].record.allowed
    ensures Authorized(log[i].context, log[i].record.action) && ValidMask(log[i].context.mask)
  {
  }
}
