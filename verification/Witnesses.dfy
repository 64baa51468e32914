/** Reachable states in which the client's eviction note is wrong, and in which `undelegate-and-settle` fails
    or stops half-way. */
module Witnesses {
  import opened Base
  import opened Permissions
  import opened Accounts
  import opened Engine
  import opened AuditLog
  import opened StateMachine
  import opened Invariants
  import opened Guarantees
  import opened Tightness
  import opened Health

  const EIGHT_A_MINUTE: Limits := Limits(8, 60)

  // ---------------------------------------------------------------- the eviction note

  lemma {:induction false} RequestsKeepCheckpoints(w: World, now: i64, n: nat)
    ensures Run(w, Repeat(Request(now), n)).store.checkpoints == w.store.checkpoints
    decreases n
  {
    hide Apply;
    if n == 0 {
    } else {
      RequestKeepsCheckpoints(w, now);
      assert Repeat(Request(now), n)[1..] == Repeat(Request(now), n - 1);
      RequestsKeepCheckpoints(Apply(w, Request(now)), now, n - 1);
    }
  }

  lemma RequestKeepsCheckpoints(w: World, now: i64)
    ensures Apply(w, Request(now)).store.checkpoints == w.store.checkpoints
  {
    hide Consume, ConsumeGuards;
  }

  /** Eight requests on a new runtime: drift is 8 and the buffer is full, which is when the note appears,
      yet the buffer still holds every record there is. */
  lemma EvictionNoteAtEight()
    ensures var w := Run(Genesis(OPERATOR), Saturating(EIGHT_A_MINUTE, 0, 1));
      && Reachable(w) && HasRuntime(w, KEY) && Drift(LiveOf(w, KEY), CheckpointOf(w, KEY)) == 8
      && LiveOf(w, KEY).rollingAudit == Records(LogOf(w, KEY)) && |LiveOf(w, KEY).rollingAudit| == 8
  {
    hide Inv, Run, Ready, Genesis, SetUp, Apply, Mirrors;
    var events := Saturating(EIGHT_A_MINUTE, 0, 1);
    var w0, w := Genesis(OPERATOR), Run(Genesis(OPERATOR), events);
    assert Times(60, 1) == 60 && Times(60, 0) == 0 && Times(8, 1) == 8;
    SaturatingAdmits(EIGHT_A_MINUTE, 0, 1, 60);
    ReadyHas(w, EIGHT_A_MINUTE);
    SetUpOpens(EIGHT_A_MINUTE, 0);
    RunConcat(w0, SetUp(EIGHT_A_MINUTE, 0), Repeat(Request(59), 8));
    RequestsKeepCheckpoints(Opened(EIGHT_A_MINUTE, 0), 59, 8);
    assert Reachable(w);
    RuntimeIsExact(w, KEY);
    CheckpointIsExact(w, KEY);
    assert LogOf(w, KEY)[0..] == LogOf(w, KEY);
  }

  // ---------------------------------------------------------------- sessions

  const ME: Operator := Operator(OPERATOR, ORGANIZATION, KEY)

  function DelegateKey(t0: i64): Event {
    Event(DelegateQuotaRuntime(OPERATOR, ORGANIZATION, KEY, POLICY, RUNTIME, None, 1), t0)
  }

  /** One key, delegated and not yet used. */
  function InOpenSession(limits: Limits, t0: i64): World {
    var w := Opened(limits, t0);
    var rt := w.store.runtimes[RUNTIME].(isDelegated := true, commitFrequencyMs := 1);
    w.(store := w.store.(runtimes := map[RUNTIME := rt], sessions := map[RUNTIME := Session(rt, [], false)]))
  }

  lemma DelegateOpens(limits: Limits, t0: i64)
    ensures Apply(Opened(limits, t0), DelegateKey(t0)) == InOpenSession(limits, t0)
  {
    hide ExecCreateOrganization, ExecCreateRole, ExecAttachPolicy, ExecCreateApiKey, ExecCreateQuotaPolicy;
    hide ExecRevoke, ExecInitialize, ExecConsume, ExecCommit, ExecCommitAndUndelegate, ExecDeliver, ExecSettle;
  }

  lemma OpenSessionFacts(limits: Limits, t0: i64)
    requires Positive(limits)
    ensures var w := InOpenSession(limits, t0);
      && Reachable(w) && MayReconcile(w, ME) && InSession(w, KEY) && !Closing(w, KEY) && Pending(w, KEY) == 0
      && !Due(w, KEY) && LiveOf(w, KEY).rollingSequence == 0
  {
    hide Apply;
    var events := SetUp(limits, t0);
    SetUpOpens(limits, t0);
    DelegateOpens(limits, t0);
    RunConcat(Genesis(OPERATOR), events, [DelegateKey(t0)]);
    assert Run(Opened(limits, t0), [DelegateKey(t0)]) == InOpenSession(limits, t0);
    assert InOpenSession(limits, t0) == Run(Genesis(OPERATOR), events + [DelegateKey(t0)]);
  }

  /** The same session once its undelegation is scheduled. */
  function InClosingSession(limits: Limits, t0: i64): World {
    Apply(InOpenSession(limits, t0), UndelegateEvent(ME, t0))
  }

  lemma ClosingSessionFacts(limits: Limits, t0: i64)
    requires Positive(limits)
    ensures var w := InClosingSession(limits, t0);
      && Reachable(w) && MayReconcile(w, ME) && Closing(w, KEY) && Pending(w, KEY) == 1
  {
    hide Inv, Reachable, Apply, InOpenSession, Step;
    var w := InOpenSession(limits, t0);
    OpenSessionFacts(limits, t0);
    ReachableInv(w);
    UndelegateCloses(w, ME, t0);
    ReachableStep(w, UndelegateEvent(ME, t0));
  }

  // ---------------------------------------------------------------- how the script fails on them

  /** On an open session, with a router: a second read of base before the closing snapshot has landed makes the script
      fail, whatever lands after it. A second read of the rollup lets it complete with the runtime still
      in its session, if the snapshot does not land. */
  lemma UnlandedSnapshotStopsTheScript(limits: Limits, t0: i64, first: Layer, early: nat, late: nat, now: i64)
    requires Positive(limits)
    ensures var w := InOpenSession(limits, t0);
      && Reachable(w) && MayReconcile(w, ME)
      && !UndelegateAndSettleRun(w, ME, Surroundings(true, first, early, 0, BaseLayer, late, now)).completed
      && var r := UndelegateAndSettleRun(w, ME, Surroundings(true, first, early, 0, Rollup, 0, now));
         r.completed && InSession(r.world, KEY)
  {
    hide Reachable, UndelegateAndSettleRun, InOpenSession;
    var w := InOpenSession(limits, t0);
    OpenSessionFacts(limits, t0);
    UndelegateAndSettleWorksExactlyWhen(w, ME, Surroundings(true, first, early, 0, BaseLayer, late, now));
    UndelegateAndSettleWorksExactlyWhen(w, ME, Surroundings(true, first, early, 0, Rollup, 0, now));
  }

  /** On a session already being closed: a first read of base makes the script fail, however many snapshots
      land and wherever it reads next, because it asks for a second undelegation. */
  lemma StaleFirstReadStopsTheScript(limits: Limits, t0: i64, e: Surroundings)
    requires Positive(limits) && e.firstRead == BaseLayer
    ensures var w := InClosingSession(limits, t0);
      Reachable(w) && MayReconcile(w, ME) && !UndelegateAndSettleRun(w, ME, e).completed
  {
    hide Reachable, UndelegateAndSettleRun, InClosingSession;
    ClosingSessionFacts(limits, t0);
    UndelegateAndSettleWorksExactlyWhen(InClosingSession(limits, t0), ME, e);
  }

  /** On any session, without a router, the script fails whatever else happens around it. */
  lemma NoRouterStopsTheScript(limits: Limits, t0: i64, e: Surroundings)
    requires Positive(limits) && !e.routed
    ensures var w := InOpenSession(limits, t0);
      Reachable(w) && MayReconcile(w, ME) && !UndelegateAndSettleRun(w, ME, e).completed
  {
    hide Reachable, UndelegateAndSettleRun, InOpenSession;
    OpenSessionFacts(limits, t0);
    UnroutedWorksExactlyWhen(InOpenSession(limits, t0), ME, e);
  }

  // ---------------------------------------------------------------- how the advice fails

  function RollupRequest(t0: i64): Event {
    Event(ConsumeRequest(Rollup, ORGANIZATION, ROLE, KEY, POLICY, RUNTIME, 0), t0)
  }

  /** The open session after one request, and then scheduled to close. */
  function UsedThenClosing(limits: Limits, t0: i64): World {
    Apply(Apply(InOpenSession(limits, t0), RollupRequest(t0)), UndelegateEvent(ME, t0))
  }

  lemma FirstRequestIsDecided(rt: RuntimeState, limits: Limits, t0: i64)
    requires Positive(limits) && t0 + limits.windowSeconds <= MAX_I64 && rt.currentWindowStartedAt == t0
    requires rt.rollingSequence == 0 && rt.totalAllowed == 0 && rt.totalRejected == 0
    ensures var r := Consume(rt, Context(true, PERMISSION_ADMIN, limits), 0, t0);
      r.Ok? && r.value.rollingSequence == 1 && r.value.isDelegated == rt.isDelegated
  {
    hide Consume, RoleAllows;
    ConsumeTakesVerdict(rt, Context(true, PERMISSION_ADMIN, limits), 0, t0);
  }

  lemma KeepsHistories(w: World, e: Event)
    ensures w.histories.Keys <= Apply(w, e).histories.Keys
  {
    hide Execute;
  }

  lemma RequestOnRollup(limits: Limits, t0: i64)
    requires Positive(limits) && t0 + limits.windowSeconds <= MAX_I64
    ensures var w := Apply(InOpenSession(limits, t0), RollupRequest(t0));
      && MayReconcile(w, ME) && InSession(w, KEY) && !Closing(w, KEY)
      && LiveOf(w, KEY).rollingSequence == 1 && CheckpointOf(w, KEY).settledSequence == 0
  {
    hide AppendAudit, Consume, ValidMask, RoleAllows, Recorded;
    hide ExecCreateOrganization, ExecCreateRole, ExecAttachPolicy, ExecCreateApiKey, ExecCreateQuotaPolicy;
    hide ExecRevoke, ExecInitialize, ExecDelegate, ExecCommit, ExecCommitAndUndelegate, ExecDeliver, ExecSettle;
    KeepsHistories(InOpenSession(limits, t0), RollupRequest(t0));
    FirstRequestIsDecided(InOpenSession(limits, t0).store.sessions[RUNTIME].live, limits, t0);
  }

  /** A session being closed with something to settle: read on the rollup, the summary advises to settle, and
      the settlement fails. */
  lemma SettleAdviceCanFail(limits: Limits, t0: i64, now: i64)
    requires Positive(limits) && t0 + limits.windowSeconds <= MAX_I64
    ensures var w := UsedThenClosing(limits, t0);
      && Reachable(w) && MayReconcile(w, ME)
      && Advice(LiveOf(w, KEY), CheckpointOf(w, KEY)) == SettleNow
      && Step(w, SettleEvent(ME, now)).Err?
  {
    hide Inv, Reachable, Apply, InOpenSession, Step;
    var w := Apply(InOpenSession(limits, t0), RollupRequest(t0));
    OpenSessionFacts(limits, t0);
    RequestOnRollup(limits, t0);
    ReachableStep(InOpenSession(limits, t0), RollupRequest(t0));
    ReachableInv(w);
    UndelegateCloses(w, ME, t0);
    ReachableStep(w, UndelegateEvent(ME, t0));
    AdviceWorksExactlyWhen(UsedThenClosing(limits, t0), ME, Rollup, now);
  }
}
