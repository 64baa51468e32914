/** The bound under reconfiguration is attained too: shrinking the window of a policy at the moment its
    quota is used up lets one more full quota through than any fixed policy would. And only shrinking does:
    the smaller bound for a fixed policy survives exactly the reconfigurations that never shrink a window. */
module Reconfiguration {
  import opened Base
  import opened Accounts
  import opened Engine
  import opened AuditLog
  import opened RateLimit
  import opened StateMachine
  import opened Invariants
  import opened Guarantees
  import opened Tightness

  /** The same quota over a window one second longer. */
  function Longer(limits: Limits): Limits
    requires limits.windowSeconds < MAX_I64
  {
    limits.(windowSeconds := limits.windowSeconds + 1)
  }

  function Configure(limits: Limits, now: i64): Event {
    Event(Instruction.CreateQuotaPolicy(OPERATOR, ORGANIZATION, KEY, limits.maxRequests, limits.windowSeconds), now)
  }

  predicate Fits(limits: Limits, t0: i64, windows: nat) {
    && Positive(limits) && limits.windowSeconds < MAX_I64
    && t0 + limits.windowSeconds < MAX_I64 && t0 + Times(limits.windowSeconds, windows) <= MAX_I64
  }

  /** `M` requests W seconds into a window of W + 1, then the window is shortened to W, then `M` requests
      in the same second and at the opening of each later window. */
  function Shrinking(limits: Limits, t0: i64, windows: nat): seq<Event>
    requires Fits(limits, t0, windows)
    decreases windows
  {
    var M, W := limits.maxRequests, limits.windowSeconds;
    if windows == 0 then UsedUp(limits, t0) + [Configure(limits, t0 + W)]
    else Shrinking(limits, t0, windows - 1) + Repeat(Request(t0 + Times(W, windows)), M)
  }

  // ---------------------------------------------------------------- the reconfiguration

  ghost predicate Operated(w: World) {
    ORGANIZATION in w.store.organizations && w.store.organizations[ORGANIZATION].authority == OPERATOR
  }

  lemma RequestKeepsOperator(w: World, now: i64)
    requires Inv(w) && Operated(w)
    ensures Operated(Apply(w, Request(now)))
  {
    hide Inv, Execute, RefinesLane;
    if Step(w, Request(now)).Ok? { RuntimeStepOpened(w, Request(now)); }
  }

  lemma {:induction false} RequestsKeepOperator(w: World, now: i64, n: nat)
    requires Inv(w) && Operated(w)
    ensures Operated(Run(w, Repeat(Request(now), n)))
    decreases n
  {
    hide Inv, Apply;
    if n == 0 {
    } else {
      var e := Request(now);
      RequestKeepsOperator(w, now);
      InvKept(w, e);
      assert Repeat(e, n)[1..] == Repeat(e, n - 1);
      RequestsKeepOperator(Apply(w, e), now, n - 1);
    }
  }

  /** Configuring changes the limits of the next decision and nothing about the window or the log. */
  lemma ConfigureTakesEffect(w: World, before: Limits, limits: Limits, s: int, u: int, n: int, now: i64)
    requires At(w, before, s, u, n) && Operated(w) && Positive(limits)
    ensures var w' := Apply(w, Configure(limits, now));
      At(w', limits, s, u, n) && w'.histories == w.histories && Operated(w')
    ensures Step(w, Configure(limits, now)).Ok? && ClockAdvances(w, Configure(limits, now))
  {
    hide Inv;
    InvKept(w, Configure(limits, now));
  }

  // ---------------------------------------------------------------- the run

  /** After `windows` windows of the shorter policy: `M` admissions before it, and `M` in each. */
  ghost predicate Doubled(limits: Limits, t0: i64, windows: nat, b: int, w: World)
    requires Positive(limits)
  {
    var M, W := limits.maxRequests, limits.windowSeconds;
    && At(w, limits, t0 + Times(W, windows), M, Times(M, windows + 1))
    && StartOf(w, KEY) == t0
    && AllowedIn(LogOf(w, KEY), t0 + W, b) == Times(M, windows + 1)
    && LastSeen(w.histories[RUNTIME]) <= t0 + (if windows == 0 then W else Times(W, windows))
  }

  function UsedUp(limits: Limits, t0: i64): seq<Event>
    requires Fits(limits, t0, 0)
  {
    SetUp(Longer(limits), t0) + Repeat(Request(t0 + limits.windowSeconds), limits.maxRequests)
  }

  lemma LongerQuota(limits: Limits, t0: i64, b: int)
    requires Fits(limits, t0, 0) && t0 + limits.windowSeconds < b
    ensures var M, now := limits.maxRequests, t0 + limits.windowSeconds;
      var w := Run(Genesis(OPERATOR), UsedUp(limits, t0));
      && Timely(Genesis(OPERATOR), UsedUp(limits, t0)) && Operated(w)
      && At(w, Longer(limits), t0, M, M) && Admitted(Opened(Longer(limits), t0), w, M, now, now, b)
  {
    hide Apply, Ready, Inv, Genesis, SetUp;
    var M, now := limits.maxRequests, t0 + limits.windowSeconds;
    var before := Longer(limits);
    var w0, w1 := Genesis(OPERATOR), Opened(before, t0);
    OpenedIsReady(before, t0);
    SetUpOpens(before, t0);
    ReadyKeepsInv(w1, before);
    Burst(w1, before, t0, 0, 0, now, M, now, b);
    RequestsKeepOperator(w1, now, M);
    RunConcat(w0, SetUp(before, t0), Repeat(Request(now), M));
    TimelyConcat(w0, SetUp(before, t0), Repeat(Request(now), M));
  }

  lemma FirstQuota(limits: Limits, t0: i64, b: int)
    requires Fits(limits, t0, 0) && t0 + limits.windowSeconds < b
    ensures var events := Shrinking(limits, t0, 0);
      Timely(Genesis(OPERATOR), events) && Doubled(limits, t0, 0, b, Run(Genesis(OPERATOR), events))
  {
    hide Apply, Ready, Inv, Genesis, UsedUp;
    var M, now := limits.maxRequests, t0 + limits.windowSeconds;
    var w0, shrink := Genesis(OPERATOR), [Configure(limits, now)];
    LongerQuota(limits, t0, b);
    var w := Run(w0, UsedUp(limits, t0));
    ConfigureTakesEffect(w, Longer(limits), limits, t0, M, M, now);
    RunConcat(w0, UsedUp(limits, t0), shrink);
    assert Run(w, shrink) == Apply(w, shrink[0]) && Timely(w, shrink);
    TimelyConcat(w0, UsedUp(limits, t0), shrink);
    ReadyHas(Run(w, shrink), limits);
    assert Times(M, 1) == M && Times(limits.windowSeconds, 0) == 0;
  }

  lemma ReadyKeepsInv(w: World, limits: Limits)
    requires Ready(w, limits)
    ensures Inv(w)
  {
  }

  lemma {:induction false} ShrinkingAdmits(limits: Limits, t0: i64, windows: nat, b: int)
    requires Fits(limits, t0, windows) && t0 + Times(limits.windowSeconds, windows + 1) <= MAX_I64
    requires Times(limits.maxRequests, windows + 1) <= MAX_U64
    requires t0 + limits.windowSeconds < b && t0 + Times(limits.windowSeconds, windows) < b
    ensures var events := Shrinking(limits, t0, windows);
      Timely(Genesis(OPERATOR), events) && Doubled(limits, t0, windows, b, Run(Genesis(OPERATOR), events))
    decreases windows
  {
    hide Apply, Ready, Genesis, SetUp;
    var M, W := limits.maxRequests, limits.windowSeconds;
    if windows == 0 {
      FirstQuota(limits, t0, b);
    } else {
      var w0, now := Genesis(OPERATOR), t0 + Times(W, windows);
      ShrinkingAdmits(limits, t0, windows - 1, b);
      var before := Shrinking(limits, t0, windows - 1);
      var w := Run(w0, before);
      assert Times(W, 1) == W;
      FullWindow(w, limits, t0 + Times(W, windows - 1), M, Times(M, windows), now, t0 + W, b);
      RunConcat(w0, before, Repeat(Request(now), M));
      TimelyConcat(w0, before, Repeat(Request(now), M));
    }
  }

  lemma {:induction false} ShrinkingConfigures(limits: Limits, t0: i64, windows: nat)
    requires Fits(limits, t0, windows)
    ensures Configured(Shrinking(limits, t0, windows), KEY, NoMoreGenerousThan(limits))
    decreases windows
  {
    var M, W := limits.maxRequests, limits.windowSeconds;
    if windows == 0 {
      RepeatRequests(t0 + W, M);
    } else {
      ShrinkingConfigures(limits, t0, windows - 1);
      RepeatRequests(t0 + Times(W, windows), M);
    }
  }

  /** For every (M, W) and every L for which the counters and the clock have room, some run whose policies
      all stay within (M, W) admits exactly M * (floor((L - 1) / W) + 2) requests in L seconds; with L = 1,
      twice the quota in a single second. */
  lemma ReconfiguredBoundIsTight(limits: Limits, t0: i64, L: int)
    requires Positive(limits) && limits.windowSeconds < MAX_I64 && L >= 1
    requires limits.maxRequests * ((L - 1) / limits.windowSeconds + 2) <= MAX_U64
    requires t0 + limits.windowSeconds * ((L - 1) / limits.windowSeconds + 2) <= MAX_I64
    ensures var M, W := limits.maxRequests, limits.windowSeconds;
      exists events ::
        && Timely(Genesis(OPERATOR), events) && Configured(events, KEY, NoMoreGenerousThan(limits))
        && HasRuntime(Run(Genesis(OPERATOR), events), KEY)
        && AllowedIn(LogOf(Run(Genesis(OPERATOR), events), KEY), t0 + W, t0 + W + L) == M * ((L - 1) / W + 2)
  {
    hide Inv, Run, Timely, Configured, Ready;
    var M, W := limits.maxRequests, limits.windowSeconds;
    var windows := (L - 1) / W + 1;
    TimesIsProduct(W, windows);
    TimesIsProduct(W, windows + 1);
    TimesIsProduct(M, windows + 1);
    assert W * windows == W * ((L - 1) / W) + W <= L - 1 + W;
    assert W * (windows + 1) == W * windows + W >= W + W;
    ShrinkingAdmits(limits, t0, windows, t0 + W + L);
    ShrinkingConfigures(limits, t0, windows);
    ReadyHas(Run(Genesis(OPERATOR), Shrinking(limits, t0, windows)), limits);
  }

  // ---------------------------------------------------------------- exactly which reconfigurations matter

  /** Running `events` from `w` ends in `w'`, on an advancing clock, and configures the key with `policies`. */
  ghost predicate Leads(w: World, events: seq<Event>, policies: seq<Limits>, w': World) {
    Run(w, events) == w' && Timely(w, events) && Policies(Successes(w, events), KEY) == policies
  }

  lemma {:induction false} PoliciesConcat(a: seq<Event>, b: seq<Event>)
    ensures Policies(a + b, KEY) == Policies(a, KEY) + Policies(b, KEY)
  {
    if a == [] {
      assert a + b == b;
    } else {
      assert (a + b)[1..] == a[1..] + b;
      PoliciesConcat(a[1..], b);
    }
  }

  lemma {:induction false} SuccessesConcat(w: World, a: seq<Event>, b: seq<Event>)
    ensures Successes(w, a + b) == Successes(w, a) + Successes(Run(w, a), b)
    decreases |a|
  {
    hide Step, Apply;
    if a == [] {
      assert a + b == b;
    } else {
      assert (a + b)[1..] == a[1..] + b;
      SuccessesConcat(Apply(w, a[0]), a[1..], b);
    }
  }

  lemma LeadsOn(w: World, a: seq<Event>, ps: seq<Limits>, w1: World, b: seq<Event>, qs: seq<Limits>, w2: World)
    requires Leads(w, a, ps, w1) && Leads(w1, b, qs, w2)
    ensures Leads(w, a + b, ps + qs, w2)
  {
    hide Run, Timely, Successes, Policies;
    RunConcat(w, a, b);
    TimelyConcat(w, a, b);
    SuccessesConcat(w, a, b);
    PoliciesConcat(Successes(w, a), Successes(w1, b));
  }

  /** Events that configure nothing. */
  lemma {:induction false} NoPolicies(w: World, events: seq<Event>)
    requires forall i :: 0 <= i < |events| ==> !events[i].instruction.CreateQuotaPolicy?
    ensures Policies(Successes(w, events), KEY) == []
    decreases |events|
  {
    hide Step, Apply;
    if events == [] {
    } else {
      NoPolicies(Apply(w, events[0]), events[1..]);
      SuccessesUnfold(w, events);
    }
  }

  lemma SetUpLeads(limits: Limits, t0: i64)
    requires Positive(limits)
    ensures Leads(Genesis(OPERATOR), SetUp(limits, t0), [limits], Opened(limits, t0))
  {
    hide Apply, Step, SetUp, Stage, Opened;
    var es, w0, w4, w5 := SetUp(limits, t0), Genesis(OPERATOR), Stage(limits, t0, 4), Stage(limits, t0, 5);
    SetUpOpens(limits, t0);
    SetUpConfigures(limits, t0);
    SuccessesConcat(w0, es[..4], es[4..]);
    SuccessesConcat(w4, [es[4]], [es[5]]);
    NoPolicies(w0, es[..4]);
    NoPolicies(w5, [es[5]]);
    assert es == es[..4] + es[4..] && es[4..] == [es[4]] + [es[5]];
    assert Successes(w4, [es[4]]) == [es[4]];
    PoliciesConcat(Successes(w0, es[..4]), Successes(w4, es[4..]));
    PoliciesConcat(Successes(w4, [es[4]]), Successes(w5, [es[5]]));
    assert Policies([es[4]], KEY) == PolicyOf(es[4].instruction, KEY) == [limits];
  }

  lemma SetUpConfigures(limits: Limits, t0: i64)
    requires Positive(limits)
    ensures var es := SetUp(limits, t0);
      && |es| == 6 && (forall i :: 0 <= i < 6 && i != 4 ==> !es[i].instruction.CreateQuotaPolicy?)
      && PolicyOf(es[4].instruction, KEY) == [limits]
      && Run(Genesis(OPERATOR), es[..4]) == Stage(limits, t0, 4)
      && Step(Stage(limits, t0, 4), es[4]).Ok? && Run(Stage(limits, t0, 4), [es[4]]) == Stage(limits, t0, 5)
  {
    hide Apply, Step;
    var es := SetUp(limits, t0);
    TenantSetUp(limits, t0);
    KeySetUp(limits, t0);
    FourSteps(es[..4], Genesis(OPERATOR), Stage(limits, t0, 1), Stage(limits, t0, 2), Stage(limits, t0, 3),
              Stage(limits, t0, 4));
    assert POLICY in Stage(limits, t0, 5).store.policies && POLICY !in Stage(limits, t0, 4).store.policies;
    ChangedSoSucceeded(Stage(limits, t0, 4), es[4]);
  }

  lemma FourSteps(es: seq<Event>, w0: World, w1: World, w2: World, w3: World, w4: World)
    requires |es| == 4 && Apply(w0, es[0]) == w1 && Apply(w1, es[1]) == w2
    requires Apply(w2, es[2]) == w3 && Apply(w3, es[3]) == w4
    ensures Run(w0, es) == w4
  {
    hide Apply;
    assert es[1..][0] == es[1] && es[1..][1..] == es[2..];
    assert es[2..][0] == es[2] && es[2..][1..] == es[3..];
    assert es[3..][0] == es[3] && es[3..][1..] == [];
    assert Run(w3, es[3..]) == w4;
    assert Run(w2, es[2..]) == w4;
    assert Run(w1, es[1..]) == w4;
  }

  lemma ChangedSoSucceeded(w: World, e: Event)
    requires Apply(w, e) != w
    ensures Step(w, e).Ok?
  {
  }

  lemma RequestsLead(w: World, limits: Limits, s: int, u: int, n: int, now: i64, m: nat, a: int, b: int)
    requires At(w, limits, s, u, n) && Positive(limits) && n + m <= MAX_U64
    requires if s + limits.windowSeconds <= now then m == limits.maxRequests
             else s <= now && u + m <= limits.maxRequests
    requires s + limits.windowSeconds <= MAX_I64 && now + limits.windowSeconds <= MAX_I64
    requires LastSeen(w.histories[RUNTIME]) <= now && a <= now < b && Operated(w)
    ensures var w' := Run(w, Repeat(Request(now), m));
      && Leads(w, Repeat(Request(now), m), [], w') && Operated(w')
      && Admitted(w, w', m, now, a, b)
      && (if s + limits.windowSeconds <= now then At(w', limits, now, m, n + m) else At(w', limits, s, u + m, n + m))
  {
    hide Ready, Apply, Inv;
    if s + limits.windowSeconds <= now {
      FullWindow(w, limits, s, u, n, now, a, b);
    } else {
      Burst(w, limits, s, u, n, now, m, a, b);
    }
    ReadyKeepsInv(w, limits);
    RequestsKeepOperator(w, now, m);
    RepeatRequests(now, m);
    NoPolicies(w, Repeat(Request(now), m));
  }

  /** Configure one policy after another. */
  function ConfigureAll(policies: seq<Limits>, now: i64): seq<Event> {
    if policies == [] then [] else [Configure(policies[0], now)] + ConfigureAll(policies[1..], now)
  }

  ghost predicate AllPositive(policies: seq<Limits>) {
    forall i :: 0 <= i < |policies| ==> Positive(policies[i])
  }

  function LastOr(policies: seq<Limits>, otherwise: Limits): Limits {
    if policies == [] then otherwise else Last(policies)
  }

  lemma {:induction false} ConfigureAllLeads(w: World, before: Limits, policies: seq<Limits>, s: int, u: int, n: int,
                                             now: i64)
    requires At(w, before, s, u, n) && Operated(w) && AllPositive(policies)
    ensures var w' := Run(w, ConfigureAll(policies, now));
      && Leads(w, ConfigureAll(policies, now), policies, w')
      && At(w', LastOr(policies, before), s, u, n) && Operated(w') && w'.histories == w.histories
    decreases |policies|
  {
    hide Apply, Step, Ready;
    if policies == [] {
    } else {
      var e, w1 := Configure(policies[0], now), Apply(w, Configure(policies[0], now));
      var events, rest := ConfigureAll(policies, now), ConfigureAll(policies[1..], now);
      ConfigureTakesEffect(w, before, policies[0], s, u, n, now);
      ConfigureAllLeads(w1, policies[0], policies[1..], s, u, n, now);
      assert events[0] == e && events[1..] == rest;
      SuccessesUnfold(w, events);
      assert policies == [policies[0]] + policies[1..];
    }
  }

  /** All these policies have the same quota, and windows of at least W. */
  ghost predicate SameQuota(policies: seq<Limits>, limits: Limits) {
    forall i :: 0 <= i < |policies| ==>
      policies[i].maxRequests == limits.maxRequests && limits.windowSeconds <= policies[i].windowSeconds
  }

  /** Up to the last second of a window: the key is configured with the first policies, and `M` requests are
      admitted. */
  lemma UsedUpLate(limits: Limits, policies: seq<Limits>, t0: i64, now: i64) returns (events: seq<Event>)
    requires policies != [] && Positive(limits) && SameQuota(policies, limits)
    requires now == t0 + Last(policies).windowSeconds - 1 && now + Last(policies).windowSeconds <= MAX_I64
    ensures var w := Run(Genesis(OPERATOR), events);
      && Leads(Genesis(OPERATOR), events, policies, w) && Operated(w)
      && At(w, Last(policies), t0, limits.maxRequests, limits.maxRequests)
      && LastSeen(w.histories[RUNTIME]) <= now
      && AllowedIn(LogOf(w, KEY), now, now + 1) == limits.maxRequests
  {
    hide Ready, Run, Genesis, SetUp, Leads;
    var first, M := policies[0], limits.maxRequests;
    var w1 := Opened(first, t0);
    SetUpLeads(first, t0);
    OpenedIsReady(first, t0);
    ConfigureAllLeads(w1, first, policies[1..], t0, 0, 0, t0);
    var w2 := Run(w1, ConfigureAll(policies[1..], t0));
    assert LastOr(policies[1..], first) == Last(policies);
    RequestsLead(w2, Last(policies), t0, 0, 0, now, M, now, now + 1);
    var w3 := Run(w2, Repeat(Request(now), M));
    var configured := SetUp(first, t0) + ConfigureAll(policies[1..], t0);
    assert [first] + policies[1..] == policies && policies + [] == policies;
    LeadsOn(Genesis(OPERATOR), SetUp(first, t0), [first], w1, ConfigureAll(policies[1..], t0), policies[1..], w2);
    LeadsOn(Genesis(OPERATOR), configured, policies, w2, Repeat(Request(now), M), [], w3);
    events := configured + Repeat(Request(now), M);
    LeadsTo(Genesis(OPERATOR), events, policies, w3);
  }

  lemma LeadsTo(w: World, events: seq<Event>, policies: seq<Limits>, w': World)
    requires Leads(w, events, policies, w')
    ensures Run(w, events) == w'
  {
  }

  /** Wherever in a sequence of policies with quota `M` a window shrinks, some run that configures exactly this
      sequence admits `2M` requests in one second. */
  lemma ShrinkingDoubles(limits: Limits, policies: seq<Limits>, i: nat, t0: i64) returns (events: seq<Event>, now: i64)
    requires Positive(limits) && SameQuota(policies, limits) && 2 * limits.maxRequests <= MAX_U64
    requires i + 1 < |policies| && policies[i + 1].windowSeconds < policies[i].windowSeconds
    requires t0 + 2 * policies[i].windowSeconds <= MAX_I64
    ensures var w := Run(Genesis(OPERATOR), events);
      && Leads(Genesis(OPERATOR), events, policies, w) && HasRuntime(w, KEY)
      && AllowedIn(LogOf(w, KEY), now, now + 1) == 2 * limits.maxRequests
  {
    hide Ready, Run, Genesis, Leads;
    var M, w0 := limits.maxRequests, Genesis(OPERATOR);
    var before, next, after := policies[..i + 1], [policies[i + 1]], policies[i + 2..];
    now := t0 + policies[i].windowSeconds - 1;
    var used := UsedUpLate(limits, before, t0, now);
    var w1 := Run(w0, used);
    ConfigureAllLeads(w1, policies[i], next, t0, M, M, now);
    var w2 := Run(w1, ConfigureAll(next, now));
    RequestsLead(w2, policies[i + 1], t0, M, M, now, M, now, now + 1);
    var w3 := Run(w2, Repeat(Request(now), M));
    ConfigureAllLeads(w3, policies[i + 1], after, now, M, 2 * M, now);
    var w4 := Run(w3, ConfigureAll(after, now));
    LeadsOn(w0, used, before, w1, ConfigureAll(next, now), next, w2);
    LeadsOn(w0, used + ConfigureAll(next, now), before + next, w2, Repeat(Request(now), M), [], w3);
    LeadsOn(w0, used + ConfigureAll(next, now) + Repeat(Request(now), M), before + next + [], w3,
            ConfigureAll(after, now), after, w4);
    events := used + ConfigureAll(next, now) + Repeat(Request(now), M) + ConfigureAll(after, now);
    assert before + next + [] + after == policies;
    LeadsTo(w0, events, policies, w4);
    ReadyHas(w2, policies[i + 1]);
    ReadyHas(w4, LastOr(after, policies[i + 1]));
  }

  /** A run, from the gateway's creation on and on an advancing clock, whose successful configurations of `k`
      are exactly these. */
  ghost predicate Configures(authority: Pubkey, events: seq<Event>, k: Pubkey, policies: seq<Limits>) {
    var run := Successes(Genesis(authority), events);
    Timely(Genesis(authority), run) && Policies(run, k) == policies
  }

  /** The bound that holds under one policy (M, W). */
  ghost predicate Bounded(authority: Pubkey, events: seq<Event>, k: Pubkey, limits: Limits, a: int, L: int)
    requires Positive(limits)
  {
    var w := Run(Genesis(authority), events);
    HasRuntime(w, k) && L >= 1 ==>
      AllowedIn(LogOf(w, k), a, a + L)
      <= limits.maxRequests * ((L + limits.windowSeconds - 2) / limits.windowSeconds + 1)
  }

  lemma SteadyIsBounded(limits: Limits, policies: seq<Limits>, authority: Pubkey, events: seq<Event>, k: Pubkey,
                        a: int, L: int)
    requires Positive(limits) && SameQuota(policies, limits) && WindowsNeverShrink(policies)
    requires Configures(authority, events, k, policies)
    ensures Bounded(authority, events, k, limits, a, L)
  {
    hide Run, Successes, Timely, Policies, Genesis;
    var w := Run(Genesis(authority), events);
    if HasRuntime(w, k) && L >= 1 {
      ConfiguredPolicies(Successes(Genesis(authority), events), k, NoMoreGenerousThan(limits));
      SteadyRateBoundOverRuns(authority, events, k, limits, a, L);
    }
  }

  /** Exactly which reconfigurations the bound for a fixed policy survives: take any sequence of policies with
      quota M and windows of at least W. Every run that configures this sequence keeps to
      M * (floor((L + W - 2) / W) + 1) in every L seconds if and only if no policy in the sequence has a
      shorter window than the one before it. */
  lemma FixedBoundSurvivesExactlyWhen(limits: Limits, policies: seq<Limits>)
    requires Positive(limits) && SameQuota(policies, limits) && 2 * limits.maxRequests <= MAX_U64
    ensures WindowsNeverShrink(policies) <==>
      (forall authority, events, k, a, L :: Configures(authority, events, k, policies)
                                            ==> Bounded(authority, events, k, limits, a, L))
  {
    hide Configures, Bounded;
    if WindowsNeverShrink(policies) {
      forall authority, events, k, a, L | Configures(authority, events, k, policies)
        ensures Bounded(authority, events, k, limits, a, L) {
        SteadyIsBounded(limits, policies, authority, events, k, a, L);
      }
    } else {
      var j: nat, l: nat :|
        j <= l < |policies| && policies[l].windowSeconds < policies[j].windowSeconds;
      var i := SomeShrink(policies, j, l);
      var events, now := ShrinkingDoubles(limits, policies, i, -MAX_I64 - 1);
      DoubleExceeds(limits, policies, events, now);
    }
  }

  lemma DoubleExceeds(limits: Limits, policies: seq<Limits>, events: seq<Event>, now: i64)
    requires Positive(limits)
    requires var w := Run(Genesis(OPERATOR), events);
      && Leads(Genesis(OPERATOR), events, policies, w) && HasRuntime(w, KEY)
      && AllowedIn(LogOf(w, KEY), now, now + 1) == 2 * limits.maxRequests
    ensures Configures(OPERATOR, events, KEY, policies) && !Bounded(OPERATOR, events, KEY, limits, now, 1)
  {
    hide Run, Successes, Timely, Policies, Genesis;
    SuccessesConform(Genesis(OPERATOR), events, KEY, l => true);
    assert (1 + limits.windowSeconds - 2) / limits.windowSeconds == 0;
  }

  /** Between a window and a shorter one after it, some window shrinks. */
  lemma {:induction false} SomeShrink(policies: seq<Limits>, j: nat, l: nat) returns (i: nat)
    requires j < l < |policies| && policies[l].windowSeconds < policies[j].windowSeconds
    ensures i + 1 < |policies| && policies[i + 1].windowSeconds < policies[i].windowSeconds
    decreases l
  {
    if policies[l].windowSeconds < policies[l - 1].windowSeconds {
      i := l - 1;
    } else {
      i := SomeShrink(policies, j, l - 1);
    }
  }
}
