/** The rate bound is attained: for every policy and every interval length there is a run, from the
    creation of the gateway on, that admits exactly as many requests as the bound permits. */
module Tightness {
  import opened Base
  import opened Permissions
  import opened Accounts
  import opened Engine
  import opened AuditLog
  import opened RateLimit
  import opened StateMachine
  import opened Invariants
  import opened Guarantees

  // ---------------------------------------------------------------- one tenant with one key

  const OPERATOR: Pubkey := External(1)
  const ORGANIZATION: Pubkey := OrganizationPda(GatewayPda, [])
  const ROLE: Pubkey := RolePda(ORGANIZATION, [])
  const KEY: Pubkey := ApiKeyPda(ORGANIZATION, External(2))
  const POLICY: Pubkey := QuotaPolicyPda(KEY)
  const RUNTIME: Pubkey := QuotaRuntimePda(KEY)
  const CHECKPOINT: Pubkey := AuditCheckpointPda(KEY)

  function SetUp(limits: Limits, t0: i64): seq<Event> {
    [Event(Instruction.CreateOrganization(OPERATOR, [], OPERATOR), t0),
     Event(Instruction.CreateRole(OPERATOR, ORGANIZATION, []), t0),
     Event(Instruction.AttachPolicy(OPERATOR, ORGANIZATION, ROLE, PERMISSION_ADMIN), t0),
     Event(Instruction.CreateApiKey(OPERATOR, ORGANIZATION, ROLE, External(2), []), t0),
     Event(Instruction.CreateQuotaPolicy(OPERATOR, ORGANIZATION, KEY, limits.maxRequests, limits.windowSeconds), t0),
     Event(InitializeQuotaRuntime(OPERATOR, ORGANIZATION, KEY, POLICY), t0)]
  }

  function Request(now: i64): Event {
    Event(ConsumeRequest(BaseLayer, ORGANIZATION, ROLE, KEY, POLICY, RUNTIME, 0), now)
  }

  function Repeat(e: Event, n: nat): seq<Event> {
    if n == 0 then [] else [e] + Repeat(e, n - 1)
  }

  /** `n` times `x`, by addition. */
  function Times(x: nat, n: nat): nat {
    if n == 0 then 0 else Times(x, n - 1) + x
  }

  lemma {:induction false} TimesIsProduct(x: nat, n: nat)
    ensures Times(x, n) == x * n
  {
    if n == 0 {
    } else {
      TimesIsProduct(x, n - 1);
      assert x * n == x * (n - 1) + x;
    }
  }

  /** `M` requests in the last second of the first window, then `M` at the opening of each of the next. */
  function Saturating(limits: Limits, t0: i64, windows: nat): seq<Event>
    requires windows >= 1 && Positive(limits) && t0 + Times(limits.windowSeconds, windows) <= MAX_I64
    decreases windows
  {
    var M, W := limits.maxRequests, limits.windowSeconds;
    if windows == 1 then SetUp(limits, t0) + Repeat(Request(t0 + W - 1), M)
    else Saturating(limits, t0, windows - 1) + Repeat(Request(t0 + Times(W, windows - 1)), M)
  }

  /** The key can be used: it is active, its role allows everything, and its runtime is on base. */
  ghost predicate Ready(w: World, limits: Limits) {
    && Inv(w)
    && HasRuntime(w, KEY) && !InSession(w, KEY)
    && KeyAccounts(w.store, ORGANIZATION, ROLE, KEY, POLICY, RUNTIME)
    && ROLE in w.store.roles && POLICY in w.store.policies
    && ContextOf(w.store, ROLE, KEY, POLICY) == Context(true, PERMISSION_ADMIN, limits)
  }

  function Opened(limits: Limits, t0: i64): World {
    World(Store(GatewayState(OPERATOR, 1),
                map[ORGANIZATION := OrganizationState(OPERATOR, [], 1, 1, 0)],
                map[ROLE := RoleState(ORGANIZATION, [], PERMISSION_ADMIN, t0)],
                map[KEY := ApiKeyState(ORGANIZATION, ROLE, External(2), [], true, OPERATOR, t0, 0)],
                map[POLICY := PolicyState(ORGANIZATION, KEY, limits.maxRequests, limits.windowSeconds)],
                map[RUNTIME := FreshRuntime(ORGANIZATION, KEY, POLICY, t0)],
                map[CHECKPOINT := FreshCheckpoint(ORGANIZATION, KEY, POLICY, t0)],
                map[]),
          map[RUNTIME := History(t0, [])])
  }

  /** After the first `done` of the six. */
  function Stage(limits: Limits, t0: i64, done: nat): World {
    var end := Opened(limits, t0).store;
    var organization := OrganizationState(OPERATOR, [], if done < 2 then 0 else 1, if done < 4 then 0 else 1, 0);
    var role := RoleState(ORGANIZATION, [], if done < 3 then 0 else PERMISSION_ADMIN, t0);
    World(Store(GatewayState(OPERATOR, if done < 1 then 0 else 1),
                if done < 1 then map[] else map[ORGANIZATION := organization],
                if done < 2 then map[] else map[ROLE := role],
                if done < 4 then map[] else end.apiKeys,
                if done < 5 then map[] else end.policies,
                map[], map[], map[]),
          map[])
  }

  lemma TenantSetUp(limits: Limits, t0: i64)
    ensures Apply(Stage(limits, t0, 0), SetUp(limits, t0)[0]) == Stage(limits, t0, 1)
    ensures Apply(Stage(limits, t0, 1), SetUp(limits, t0)[1]) == Stage(limits, t0, 2)
    ensures Apply(Stage(limits, t0, 2), SetUp(limits, t0)[2]) == Stage(limits, t0, 3)
  {
    hide ExecCreateApiKey, ExecCreateQuotaPolicy, ExecRevoke, ExecInitialize, ExecDelegate, ExecConsume;
    hide ExecCommit, ExecCommitAndUndelegate, ExecDeliver, ExecSettle;
  }

  lemma KeySetUp(limits: Limits, t0: i64)
    requires Positive(limits)
    ensures Apply(Stage(limits, t0, 3), SetUp(limits, t0)[3]) == Stage(limits, t0, 4)
    ensures Apply(Stage(limits, t0, 4), SetUp(limits, t0)[4]) == Stage(limits, t0, 5)
  {
  }

  lemma RuntimeSetUp(limits: Limits, t0: i64)
    ensures Apply(Stage(limits, t0, 5), SetUp(limits, t0)[5]) == Opened(limits, t0)
  {
  }

  lemma SetUpOpens(limits: Limits, t0: i64)
    requires Positive(limits)
    ensures Run(Genesis(OPERATOR), SetUp(limits, t0)) == Opened(limits, t0)
    ensures Timely(Genesis(OPERATOR), SetUp(limits, t0))
  {
    hide Apply;
    TenantSetUp(limits, t0);
    KeySetUp(limits, t0);
    RuntimeSetUp(limits, t0);
    SixSteps(SetUp(limits, t0), Genesis(OPERATOR), Stage(limits, t0, 1), Stage(limits, t0, 2), Stage(limits, t0, 3),
             Stage(limits, t0, 4), Stage(limits, t0, 5), Opened(limits, t0));
  }

  lemma SixSteps(es: seq<Event>, w0: World, w1: World, w2: World, w3: World, w4: World, w5: World, w6: World)
    requires |es| == 6 && forall i :: 0 <= i < 6 ==> !es[i].instruction.ConsumeRequest?
    requires Apply(w0, es[0]) == w1 && Apply(w1, es[1]) == w2 && Apply(w2, es[2]) == w3
    requires Apply(w3, es[3]) == w4 && Apply(w4, es[4]) == w5 && Apply(w5, es[5]) == w6
    ensures Run(w0, es) == w6 && Timely(w0, es)
  {
    hide Apply;
    assert es[1..][0] == es[1] && es[1..][1..] == es[2..];
    assert es[2..][0] == es[2] && es[2..][1..] == es[3..];
    assert es[3..][0] == es[3] && es[3..][1..] == es[4..];
    assert es[4..][0] == es[4] && es[4..][1..] == es[5..];
    assert es[5..][0] == es[5] && es[5..][1..] == [];
    assert Run(w5, es[5..]) == w6 && Timely(w5, es[5..]);
    assert Run(w4, es[4..]) == w6 && Timely(w4, es[4..]);
    assert Run(w3, es[3..]) == w6 && Timely(w3, es[3..]);
    assert Run(w2, es[2..]) == w6 && Timely(w2, es[2..]);
    assert Run(w1, es[1..]) == w6 && Timely(w1, es[1..]);
  }

  lemma OpenedIsReady(limits: Limits, t0: i64)
    requires Positive(limits)
    ensures Ready(Opened(limits, t0), limits)
  {
    hide Inv;
    SetUpOpens(limits, t0);
    GenesisInv(OPERATOR);
    InvAlongRun(Genesis(OPERATOR), SetUp(limits, t0));
  }

  // ---------------------------------------------------------------- one admission

  /** The window and log length a run has reached. */
  ghost predicate At(w: World, limits: Limits, startedAt: int, used: int, sequence: int) {
    && Ready(w, limits)
    && LiveOf(w, KEY).currentWindowStartedAt == startedAt && LiveOf(w, KEY).currentWindowUsed == used
    && |LogOf(w, KEY)| == sequence
  }

  lemma AdminIsAuthorized(limits: Limits)
    ensures Authorized(Context(true, PERMISSION_ADMIN, limits), 0)
  {
  }

  /** A request that finds the window open with room, or run out, is admitted. */
  lemma AdmitOne(w: World, limits: Limits, s: int, u: int, n: int, now: i64)
    requires At(w, limits, s, u, n) && Positive(limits) && n < MAX_U64
    requires s + limits.windowSeconds <= MAX_I64
    requires now < s + limits.windowSeconds ==> u < limits.maxRequests
    ensures var w' := Apply(w, Request(now));
      && (if now < s + limits.windowSeconds then At(w', limits, s, u + 1, n + 1) else At(w', limits, now, 1, n + 1))
      && StartOf(w', KEY) == StartOf(w, KEY)
      && |LogOf(w', KEY)| == n + 1 && Init(LogOf(w', KEY)) == LogOf(w, KEY)
      && Last(LogOf(w', KEY)).record.allowed && Last(LogOf(w', KEY)).record.timestamp == now
  {
    hide Inv, Genuine, Mirrors, Consume, RoleAllows, ValidMask;
    var e := Request(now);
    var w' := Apply(w, e);
    var c := ContextOf(w.store, ROLE, KEY, POLICY);
    var rt := LiveOf(w, KEY);
    AdminIsAuthorized(limits);
    Sizes(w);
    ConsumeAdmitsOneTuple(w, BaseLayer, ORGANIZATION, ROLE, KEY, POLICY, RUNTIME);
    KeyAtInv(w, KEY);
    AdmittedExactlyWhen(rt, c, 0, now);
    ConsumeTakesVerdict(rt, c, 0, now);
    assert Step(w, e).Ok?;
    InvKept(w, e);
    AtKey(w', KEY);
    RuntimeStepKeepsInv(w, e);
    StepExtends(w, e, KEY);
    StepAppends(w, e, KEY);
  }

  lemma Sizes(w: World)
    requires Inv(w) && HasRuntime(w, KEY)
    ensures var rt := LiveOf(w, KEY);
      rt.totalAllowed + rt.totalRejected == rt.rollingSequence == |LogOf(w, KEY)|
  {
    hide Inv, Genuine;
    LiveMirrors(w, KEY);
    SummaryAddsUp(StartOf(w, KEY), LogOf(w, KEY));
  }

  // ---------------------------------------------------------------- bursts

  /** `m` more admissions in [a, b), none later than `now`. */
  ghost predicate Admitted(w: World, w': World, m: nat, now: int, a: int, b: int) {
    && HasRuntime(w, KEY) && HasRuntime(w', KEY)
    && StartOf(w', KEY) == StartOf(w, KEY)
    && AllowedIn(LogOf(w', KEY), a, b) == AllowedIn(LogOf(w, KEY), a, b) + m
    && LastSeen(w'.histories[RUNTIME]) <= now
  }

  lemma {:induction false} Burst(w: World, limits: Limits, s: int, u: int, n: int, now: i64, m: nat, a: int, b: int)
    requires At(w, limits, s, u, n) && Positive(limits) && n + m <= MAX_U64
    requires s <= now < s + limits.windowSeconds <= MAX_I64
    requires u + m <= limits.maxRequests
    requires LastSeen(w.histories[RUNTIME]) <= now && a <= now < b
    ensures var w' := Run(w, Repeat(Request(now), m));
      At(w', limits, s, u + m, n + m) && Admitted(w, w', m, now, a, b)
    ensures Timely(w, Repeat(Request(now), m))
    decreases m
  {
    hide Ready, Apply;
    ReadyHas(w, limits);
    if m == 0 {
    } else {
      var w1 := Apply(w, Request(now));
      AdmitOne(w, limits, s, u, n, now);
      ReadyHas(w1, limits);
      Burst(w1, limits, s, u + 1, n + 1, now, m - 1, a, b);
      assert Repeat(Request(now), m)[1..] == Repeat(Request(now), m - 1);
    }
  }

  lemma ReadyHas(w: World, limits: Limits)
    requires Ready(w, limits)
    ensures HasRuntime(w, KEY)
  {
  }

  /** `M` requests at the moment the window has run out: all are admitted. */
  lemma FullWindow(w: World, limits: Limits, s: int, u: int, n: int, now: i64, a: int, b: int)
    requires At(w, limits, s, u, n) && Positive(limits) && n + limits.maxRequests <= MAX_U64
    requires s + limits.windowSeconds <= now && now + limits.windowSeconds <= MAX_I64
    requires LastSeen(w.histories[RUNTIME]) <= now && a <= now < b
    ensures var M := limits.maxRequests;
      var w' := Run(w, Repeat(Request(now), M));
      At(w', limits, now, M, n + M) && Admitted(w, w', M, now, a, b)
    ensures Timely(w, Repeat(Request(now), limits.maxRequests))
  {
    hide Ready, Apply;
    var M := limits.maxRequests;
    var w1 := Apply(w, Request(now));
    ReadyHas(w, limits);
    AdmitOne(w, limits, s, u, n, now);
    ReadyHas(w1, limits);
    Burst(w1, limits, now, 1, n + 1, now, M - 1, a, b);
    assert Repeat(Request(now), M)[1..] == Repeat(Request(now), M - 1);
  }

  lemma {:induction false} TimelyConcat(w: World, first: seq<Event>, second: seq<Event>)
    requires Timely(w, first) && Timely(Run(w, first), second)
    ensures Timely(w, first + second)
    decreases |first|
  {
    if first == [] {
      assert first + second == second;
    } else {
      assert (first + second)[1..] == first[1..] + second;
      TimelyConcat(Apply(w, first[0]), first[1..], second);
    }
  }

  /** What the run has reached after `windows` windows: `M` admissions in each, none before t0 + W - 1. */
  ghost predicate Saturated(limits: Limits, t0: i64, windows: nat, b: int, w: World)
    requires windows >= 1 && Positive(limits)
  {
    var M, W := limits.maxRequests, limits.windowSeconds;
    && At(w, limits, t0 + Times(W, windows - 1), M, Times(M, windows))
    && Admitted(Opened(limits, t0), w, Times(M, windows), t0 + (if windows == 1 then W - 1 else Times(W, windows - 1)),
                t0 + W - 1, b)
  }

  lemma FirstWindow(limits: Limits, t0: i64, b: int)
    requires Positive(limits) && t0 + limits.windowSeconds <= MAX_I64
    requires t0 + limits.windowSeconds - 1 < b
    ensures Times(limits.windowSeconds, 1) == limits.windowSeconds
    ensures var events := Saturating(limits, t0, 1);
      && Timely(Genesis(OPERATOR), events)
      && Saturated(limits, t0, 1, b, Run(Genesis(OPERATOR), events))
  {
    hide Apply, Ready, Genesis, SetUp;
    var M, W := limits.maxRequests, limits.windowSeconds;
    var w0, w := Genesis(OPERATOR), Opened(limits, t0);
    assert Times(W, 0) == 0 && Times(M, 0) == 0 && Times(M, 1) == M;
    OpenedIsReady(limits, t0);
    SetUpOpens(limits, t0);
    Burst(w, limits, t0, 0, 0, t0 + W - 1, M, t0 + W - 1, b);
    RunConcat(w0, SetUp(limits, t0), Repeat(Request(t0 + W - 1), M));
    TimelyConcat(w0, SetUp(limits, t0), Repeat(Request(t0 + W - 1), M));
  }

  lemma {:induction false} SaturatingAdmits(limits: Limits, t0: i64, windows: nat, b: int)
    requires windows >= 1 && Positive(limits) && t0 + Times(limits.windowSeconds, windows) <= MAX_I64
    requires Times(limits.maxRequests, windows) <= MAX_U64
    requires t0 + limits.windowSeconds - 1 < b && t0 + Times(limits.windowSeconds, windows - 1) < b
    ensures var events := Saturating(limits, t0, windows);
      && Timely(Genesis(OPERATOR), events)
      && Saturated(limits, t0, windows, b, Run(Genesis(OPERATOR), events))
    decreases windows
  {
    hide Apply, Ready, Genesis, SetUp, Opened;
    var M, W := limits.maxRequests, limits.windowSeconds;
    if windows == 1 {
      FirstWindow(limits, t0, b);
    } else {
      var w0, now := Genesis(OPERATOR), t0 + Times(W, windows - 1);
      SaturatingAdmits(limits, t0, windows - 1, b);
      var before := Saturating(limits, t0, windows - 1);
      var w := Run(w0, before);
      FullWindow(w, limits, t0 + Times(W, windows - 2), M, Times(M, windows - 1), now, t0 + W - 1, b);
      RunConcat(w0, before, Repeat(Request(now), M));
      TimelyConcat(w0, before, Repeat(Request(now), M));
    }
  }

  lemma {:induction false} SaturatingConfigures(limits: Limits, t0: i64, windows: nat)
    requires windows >= 1 && Positive(limits) && t0 + Times(limits.windowSeconds, windows) <= MAX_I64
    ensures Configured(Saturating(limits, t0, windows), KEY, Exactly(limits))
    decreases windows
  {
    var M, W := limits.maxRequests, limits.windowSeconds;
    if windows == 1 {
      RepeatRequests(t0 + W - 1, M);
    } else {
      SaturatingConfigures(limits, t0, windows - 1);
      RepeatRequests(t0 + Times(W, windows - 1), M);
    }
  }

  lemma {:induction false} RepeatRequests(now: i64, n: nat)
    ensures |Repeat(Request(now), n)| == n
    ensures forall i :: 0 <= i < n ==> Repeat(Request(now), n)[i] == Request(now)
  {
    if n == 0 {
    } else {
      RepeatRequests(now, n - 1);
    }
  }

  /** The number of windows that can contribute to L consecutive seconds. */
  function WindowsIn(L: int, W: int): int
    requires W > 0
  {
    (L + W - 2) / W + 1
  }

  lemma LastWindowFits(L: int, W: int)
    requires L >= 1 && W >= 1
    ensures WindowsIn(L, W) >= 1 && W * (WindowsIn(L, W) - 1) <= L + W - 2
  {
  }

  /** For every policy (M, W) and every L, as long as the counters and the clock have room, there is a
      run that admits exactly M * (floor((L + W - 2) / W) + 1) requests within L consecutive seconds. */
  lemma RateBoundIsTight(limits: Limits, t0: i64, L: int)
    requires Positive(limits) && L >= 1
    requires limits.maxRequests * WindowsIn(L, limits.windowSeconds) <= MAX_U64
    requires t0 + limits.windowSeconds * WindowsIn(L, limits.windowSeconds) <= MAX_I64
    ensures var M, W := limits.maxRequests, limits.windowSeconds;
      var windows := WindowsIn(L, W);
      windows >= 1 && Times(W, windows) == W * windows
      && var events := Saturating(limits, t0, windows);
         var w := Run(Genesis(OPERATOR), events);
         && Timely(Genesis(OPERATOR), events) && Configured(events, KEY, Exactly(limits))
         && HasRuntime(w, KEY) && StartOf(w, KEY) == t0
         && AllowedIn(LogOf(w, KEY), t0 + W - 1, t0 + W - 1 + L) == M * ((L + W - 2) / W + 1)
  {
    hide Inv, Run, Timely, Configured, Ready;
    var M, W := limits.maxRequests, limits.windowSeconds;
    var windows := WindowsIn(L, W);
    LastWindowFits(L, W);
    TimesIsProduct(W, windows);
    TimesIsProduct(W, windows - 1);
    TimesIsProduct(M, windows);
    SaturatingAdmits(limits, t0, windows, t0 + W - 1 + L);
    SaturatingConfigures(limits, t0, windows);
  }

  /** In particular 2M requests in two consecutive seconds, across a window boundary. */
  lemma DoubleBurstHappens(limits: Limits, t0: i64)
    requires Positive(limits) && limits.windowSeconds >= 2
    requires 2 * limits.maxRequests <= MAX_U64 && t0 + 2 * limits.windowSeconds <= MAX_I64
    ensures var W := limits.windowSeconds;
      Times(W, 2) == W * 2
      && var events := Saturating(limits, t0, 2);
         var w := Run(Genesis(OPERATOR), events);
         && Timely(Genesis(OPERATOR), events) && HasRuntime(w, KEY)
         && AllowedIn(LogOf(w, KEY), t0 + W - 1, t0 + W + 1) == 2 * limits.maxRequests
  {
    hide Inv, Run, Timely, Configured, Ready, Saturating;
    assert WindowsIn(2, limits.windowSeconds) == 2;
    RateBoundIsTight(limits, t0, 2);
  }
}
