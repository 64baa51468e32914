/** The protocol's guarantees about whole runs of the state machine, one key at a time. */
module Guarantees {
  import opened Base
  import opened Permissions
  import opened Accounts
  import opened Engine
  import opened AuditLog
  import opened RateLimit
  import opened StateMachine
  import opened Lane
  import opened Invariants

  predicate HasRuntime(w: World, k: Pubkey) {
    && QuotaRuntimePda(k) in w.store.runtimes && QuotaRuntimePda(k) in w.histories
    && AuditCheckpointPda(k) in w.store.checkpoints
  }

  function BaseOf(w: World, k: Pubkey): RuntimeState
    requires HasRuntime(w, k)
  {
    w.store.runtimes[QuotaRuntimePda(k)]
  }

  function LiveOf(w: World, k: Pubkey): RuntimeState
    requires HasRuntime(w, k)
  {
    Live(w.store, QuotaRuntimePda(k))
  }

  function CheckpointOf(w: World, k: Pubkey): CheckpointState
    requires HasRuntime(w, k)
  {
    w.store.checkpoints[AuditCheckpointPda(k)]
  }

  function LogOf(w: World, k: Pubkey): Log
    requires HasRuntime(w, k)
  {
    w.histories[QuotaRuntimePda(k)].log
  }

  function StartOf(w: World, k: Pubkey): i64
    requires HasRuntime(w, k)
  {
    w.histories[QuotaRuntimePda(k)].startedAt
  }

  predicate InSession(w: World, k: Pubkey) {
    QuotaRuntimePda(k) in w.store.sessions
  }

  /** Opens the invariant at one key. */
  lemma AtKey(w: World, k: Pubkey)
    requires Inv(w)
    ensures LaneInv(ViewAt(w.store, k), HistoryAt(w, k)) && RuntimeAt(w.store, k)
    ensures QuotaRuntimePda(k) in w.store.runtimes <==> HasRuntime(w, k)
    ensures QuotaRuntimePda(k) in w.histories <==> HasRuntime(w, k)
    ensures AuditCheckpointPda(k) in w.store.checkpoints <==> HasRuntime(w, k)
    ensures InSession(w, k) ==> HasRuntime(w, k)
  {
    hide ControlOk, Addressed;
    assert LaneAt(w, k);
  }

  // ---------------------------------------------------------------- exact summaries of the history

  /** Counters, window and buffer of the live runtime are exact functions of the full log: the buffer
      is its last min(8, rolling - settled) records, numbered contiguously up to the rolling sequence. */
  lemma RuntimeIsExact(w: World, k: Pubkey)
    requires Reachable(w) && HasRuntime(w, k)
    ensures var rt, log := LiveOf(w, k), LogOf(w, k);
      && rt.rollingSequence == |log| == rt.totalAllowed + rt.totalRejected
      && rt.totalAllowed == CountAllowed(log) && rt.totalRejected == CountRejected(log)
      && Window(rt.currentWindowStartedAt, rt.currentWindowUsed) == WindowAfter(StartOf(w, k), log)
      && var n := Min(MAX_RUNTIME_AUDIT_ITEMS, rt.rollingSequence - rt.lastSettledSequence);
         && 0 <= n <= |log| && rt.rollingAudit == LastRecords(log, n)
         && (forall i :: 0 <= i < n ==> rt.rollingAudit[i].sequence == rt.rollingSequence - n + 1 + i)
  {
    hide Inv, LaneInv, Genuine;
    ReachableInv(w);
    AtKey(w, k);
    var rt, t0, log := LiveOf(w, k), StartOf(w, k), LogOf(w, k);
    LiveMirrors(w, k);
    SummaryAddsUp(t0, log);
    var n := Min(MAX_RUNTIME_AUDIT_ITEMS, rt.rollingSequence - rt.lastSettledSequence);
    forall i | 0 <= i < n ensures rt.rollingAudit[i].sequence == rt.rollingSequence - n + 1 + i {
      TrailCertifiesItself(t0, log, |log| - n + i);
    }
  }

  lemma LiveMirrors(w: World, k: Pubkey)
    requires Inv(w) && HasRuntime(w, k)
    ensures Genuine(StartOf(w, k), LogOf(w, k)) && Mirrors(LiveOf(w, k), StartOf(w, k), LogOf(w, k))
  {
    hide Inv, Genuine, Mirrors;
    AtKey(w, k);
    WholeLog(w.histories[QuotaRuntimePda(k)]);
  }

  /** The checkpoint is exactly the summary of the log's settled prefix, and base, rollup and checkpoint
      agree on how long that prefix is. */
  lemma CheckpointIsExact(w: World, k: Pubkey)
    requires Reachable(w) && HasRuntime(w, k)
    ensures var cp, log := CheckpointOf(w, k), LogOf(w, k);
      && cp.settledSequence <= |log|
      && CheckpointSummary(cp) == Summarize(StartOf(w, k), log[..cp.settledSequence])
      && cp.settledSequence == BaseOf(w, k).lastSettledSequence == LiveOf(w, k).lastSettledSequence
  {
    hide Inv, Genuine, Mirrors;
    ReachableInv(w);
    AtKey(w, k);
  }

  /** No request is lost. Base is the state after some prefix of the log, at or past the checkpoint;
      snapshots in flight are later prefixes in landing order; outside a session base has everything. */
  lemma NothingIsLost(w: World, k: Pubkey)
    requires Reachable(w) && HasRuntime(w, k)
    ensures var base, live, log := BaseOf(w, k), LiveOf(w, k), LogOf(w, k);
      && CheckpointOf(w, k).settledSequence <= base.rollingSequence <= live.rollingSequence == |log|
      && Mirrors(base, StartOf(w, k), log[..base.rollingSequence])
      && (!InSession(w, k) ==> live == base && !base.isDelegated)
      && (InSession(w, k) ==>
            var ss := w.store.sessions[QuotaRuntimePda(k)];
            && base.isDelegated
            && (forall i :: 0 <= i < |ss.inFlight| ==>
                  && base.rollingSequence <= ss.inFlight[i].state.rollingSequence <= |log|
                  && Mirrors(ss.inFlight[i].state, StartOf(w, k), log[..ss.inFlight[i].state.rollingSequence]))
            && (forall i, j :: 0 <= i <= j < |ss.inFlight| ==>
                  ss.inFlight[i].state.rollingSequence <= ss.inFlight[j].state.rollingSequence)
            && (ss.closing ==> ss.inFlight != [] && Last(ss.inFlight) == Snapshot(live, true)))
  {
    hide Inv, Genuine, Mirrors;
    ReachableInv(w);
    AtKey(w, k);
    LiveMirrors(w, k);
    LengthOf(LiveOf(w, k), StartOf(w, k), LogOf(w, k));
  }

  lemma LengthOf(rt: RuntimeState, t0: i64, log: Log)
    requires Mirrors(rt, t0, log)
    ensures rt.rollingSequence == |log|
  {
  }

  /** A settlement accounts for every logged request exactly once: the checkpoint moves from the prefix
      it had to the whole log, and the buffer of the runtime is empty. */
  lemma SettlementCatchesUp(w: World, e: Event)
    requires Reachable(w) && e.instruction.SettleRuntimeCheckpoint? && Step(w, e).Ok?
    ensures var k := e.instruction.apiKey;
      var w' := Step(w, e).value;
      && HasRuntime(w, k) && HasRuntime(w', k) && LogOf(w', k) == LogOf(w, k)
      && CheckpointSummary(CheckpointOf(w', k)) == Summarize(StartOf(w, k), LogOf(w, k))
      && CheckpointOf(w', k).settledSequence == |LogOf(w, k)| == LiveOf(w', k).lastSettledSequence
      && CheckpointOf(w', k).lastSettledAt == e.now
      && LiveOf(w', k).rollingAudit == []
  {
    hide Inv, Genuine, Execute, ControlOk, LaneInv;
    var k := e.instruction.apiKey;
    var w' := Step(w, e).value;
    ReachableInv(w);
    AtKey(w, k);
    SettleSucceeded(w, e);
    LiveMirrors(w, k);
  }

  lemma SettleSucceeded(w: World, e: Event)
    requires Inv(w) && e.instruction.SettleRuntimeCheckpoint? && Step(w, e).Ok?
    ensures var k := e.instruction.apiKey;
      var w' := Step(w, e).value;
      && HasRuntime(w, k) && HasRuntime(w', k) && w'.histories == w.histories && !InSession(w, k) && !InSession(w', k)
      && LiveOf(w', k) == SettledRuntime(LiveOf(w, k), e.now)
      && CheckpointOf(w', k) == SettledCheckpoint(CheckpointOf(w, k), LiveOf(w, k), e.now)
  {
    hide ControlOk, LaneInv, Addressed;
    AtKey(w, e.instruction.apiKey);
  }

  // ---------------------------------------------------------------- sessions

  function SessionOf(w: World, k: Pubkey): Session
    requires InSession(w, k)
  {
    w.store.sessions[QuotaRuntimePda(k)]
  }

  predicate Closing(w: World, k: Pubkey) {
    InSession(w, k) && SessionOf(w, k).closing
  }

  lemma SessionFacts(w: World, k: Pubkey)
    requires Inv(w) && InSession(w, k)
    ensures HasRuntime(w, k)
    ensures LiveOf(w, k).isDelegated == !SessionOf(w, k).closing && BaseOf(w, k).isDelegated
    ensures Owner(LiveOf(w, k)) == Owner(BaseOf(w, k))
    ensures var q := SessionOf(w, k).inFlight;
      && (SessionOf(w, k).closing ==> q != [] && Last(q).state == LiveOf(w, k))
      && (forall i :: 0 <= i < |q| ==> (q[i].handsBack <==> SessionOf(w, k).closing && i == |q| - 1))
  {
    hide Inv, Genuine, Mirrors, Settled;
    AtKey(w, k);
  }

  lemma OwnerFacts(w: World, k: Pubkey)
    requires Inv(w) && HasRuntime(w, k)
    ensures k in w.store.apiKeys
    ensures Owner(BaseOf(w, k)) == (w.store.apiKeys[k].organization, k, QuotaPolicyPda(k))
    ensures var cp := CheckpointOf(w, k); (cp.organization, cp.apiKey, cp.quotaPolicy) == Owner(BaseOf(w, k))
    ensures !InSession(w, k) ==> !BaseOf(w, k).isDelegated
  {
    hide Inv, Genuine, Mirrors, Settled, SessionOk;
    AtKey(w, k);
  }

  // ---------------------------------------------------------------- requests

  /** Where a runtime takes requests: on base outside a session, on the rollup while the session is open,
      whatever is in flight. */
  predicate Accepts(w: World, layer: Layer, k: Pubkey) {
    match layer
    case BaseLayer => HasRuntime(w, k) && !InSession(w, k)
    case Rollup => InSession(w, k) && !Closing(w, k)
  }

  /** All accounts of a request are the ones that belong to its key. */
  ghost predicate OwnAccounts(w: World, i: Instruction)
    requires i.ConsumeRequest?
  {
    KeyAccounts(w.store, i.organization, i.role, i.apiKey, i.policy, i.runtime)
  }

  function ContextFor(w: World, i: Instruction): Context
    requires i.ConsumeRequest? && i.role in w.store.roles && i.apiKey in w.store.apiKeys && i.policy in w.store.policies
  {
    ContextOf(w.store, i.role, i.apiKey, i.policy)
  }

  /** `consume_request` succeeds exactly on the accounts of one key, on the layer that takes its requests, and
      unless the window end leaves the clock range or the sequence is exhausted, which are then the only
      two errors left, both `MathOverflow`. */
  lemma ConsumeFailsExactlyWhen(w: World, i: Instruction, now: i64)
    requires Reachable(w) && i.ConsumeRequest?
    ensures Accepts(w, i.layer, i.apiKey) && OwnAccounts(w, i) ==>
      i.role in w.store.roles && i.apiKey in w.store.apiKeys && i.policy in w.store.policies && HasRuntime(w, i.apiKey)
    ensures Step(w, Event(i, now)).Ok? <==>
      && Accepts(w, i.layer, i.apiKey) && OwnAccounts(w, i)
      && !Overflows(LiveOf(w, i.apiKey), ContextFor(w, i), i.action)
    ensures Accepts(w, i.layer, i.apiKey) && OwnAccounts(w, i) && Step(w, Event(i, now)).Err? ==>
      Step(w, Event(i, now)).error == MathOverflow
  {
    hide Inv, Genuine, Consume, ValidMask, RoleAllows, ConsumeGuards;
    ReachableInv(w);
    if Writable(w.store, i.layer, i.runtime).Ok? {
      ConsumeAdmitsOneTuple(w, i.layer, i.organization, i.role, i.apiKey, i.policy, i.runtime);
    }
    if OwnAccounts(w, i) {
      AtKey(w, i.apiKey);
      KeyAtInv(w, i.apiKey);
      if Accepts(w, i.layer, i.apiKey) {
        LiveMirrors(w, i.apiKey);
        SummaryAddsUp(StartOf(w, i.apiKey), LogOf(w, i.apiKey));
        ConsumeTakesVerdict(LiveOf(w, i.apiKey), ContextFor(w, i), i.action, now);
      }
    }
  }

  /** What a request that goes through decides, in terms of the history alone: it is admitted exactly when
      it is authorized and the window replayed from the log has run out or has room, it is logged as one
      more entry with the verdict of that replay, and base is untouched when it goes to the rollup. */
  lemma AdmissionFollowsTheLog(w: World, i: Instruction, now: i64)
    requires Reachable(w) && i.ConsumeRequest? && Step(w, Event(i, now)).Ok?
    ensures OwnAccounts(w, i) && i.role in w.store.roles && i.policy in w.store.policies && HasRuntime(w, i.apiKey)
    ensures var k, c := i.apiKey, ContextFor(w, i);
      var window := WindowAfter(StartOf(w, k), LogOf(w, k));
      var w' := Step(w, Event(i, now)).value;
      && HasRuntime(w', k)
      && LogOf(w', k) == LogOf(w, k) + [LogEntry(LastDecision(LiveOf(w', k)), c)]
      && LastDecision(LiveOf(w', k)).reason == Verdict(c, window, i.action, now).Code()
      && (LastDecision(LiveOf(w', k)).allowed <==>
            Authorized(c, i.action)
            && (now >= window.startedAt + c.limits.windowSeconds || window.used < c.limits.maxRequests))
      && (i.layer == Rollup ==> BaseOf(w', k) == BaseOf(w, k))
  {
    hide Inv, Genuine, Consume, Step, ValidMask, RoleAllows;
    var k := i.apiKey;
    ConsumeFailsExactlyWhen(w, i, now);
    ConsumeSucceeded(w, i, now);
    ReachableInv(w);
    KeyAtInv(w, k);
    LiveMirrors(w, k);
    SummaryAddsUp(StartOf(w, k), LogOf(w, k));
    ConsumeTakesVerdict(LiveOf(w, k), ContextFor(w, i), i.action, now);
  }

  lemma ConsumeSucceeded(w: World, i: Instruction, now: i64)
    requires i.ConsumeRequest? && HasRuntime(w, i.apiKey) && OwnAccounts(w, i)
    requires i.role in w.store.roles && i.apiKey in w.store.apiKeys && i.policy in w.store.policies
    requires Step(w, Event(i, now)).Ok?
    ensures var w', k, c := Step(w, Event(i, now)).value, i.apiKey, ContextFor(w, i);
      && HasRuntime(w', k)
      && LogOf(w', k) == LogOf(w, k) + [EntryOf(LiveOf(w', k), c)]
      && Consume(LiveOf(w, k), c, i.action, now) == Ok(LiveOf(w', k))
      && (i.layer == Rollup ==> BaseOf(w', k) == BaseOf(w, k))
  {
    hide Consume, ConsumeGuards;
  }

  lemma KeyAtInv(w: World, k: Pubkey)
    requires Inv(w) && k in w.store.apiKeys
    ensures KeyOk(w.store, k)
    ensures QuotaPolicyPda(k) in w.store.policies ==> PolicyOk(w.store, QuotaPolicyPda(k))
  {
  }

  // ---------------------------------------------------------------- the log along a run

  /** Logs only grow, start times stay, and settled prefixes never shrink. */
  ghost predicate Extends(w: World, w': World, k: Pubkey)
    requires HasRuntime(w, k)
  {
    && HasRuntime(w', k)
    && StartOf(w', k) == StartOf(w, k) && LogOf(w, k) <= LogOf(w', k)
    && CheckpointOf(w, k).settledSequence <= CheckpointOf(w', k).settledSequence
  }

  lemma StepExtends(w: World, e: Event, k: Pubkey)
    requires Inv(w) && HasRuntime(w, k)
    ensures Extends(w, Apply(w, e), k)
  {
    hide Inv, Execute, LaneInv, ControlOk;
    if Step(w, e).Ok? {
      var w' := Step(w, e).value;
      InvKept(w, e);
      AtKey(w, k);
      AtKey(w', k);
      if IsControlPlane(e.instruction) {
        ControlStepKeepsInv(w, e);
      } else {
        RuntimeStepOpened(w, e);
        if k == LaneKey(e.instruction) {
          LaneExtends(ViewAt(w.store, k), HistoryAt(w, k), OpOf(w.store, e.instruction), e.now, ViewAt(w'.store, k));
        } else {
          assert ViewAt(w'.store, k) == ViewAt(w.store, k);
        }
      }
    }
  }

  /** What a successful runtime instruction does to lanes and histories. */
  lemma RuntimeStepOpened(w: World, e: Event)
    requires Inv(w) && !IsControlPlane(e.instruction) && Step(w, e).Ok?
    ensures var w' := Step(w, e).value;
      var i, k := e.instruction, LaneKey(e.instruction);
      && (i.ConsumeRequest? ==> KeyAccounts(w.store, i.organization, i.role, i.apiKey, i.policy, i.runtime)
                                && i.role in w.store.roles && i.policy in w.store.policies)
      && RefinesLane(w.store, w'.store, k, OpOf(w.store, i), e.now)
      && HistoryAt(w', k) == Remembered(HistoryAt(w, k), OpOf(w.store, i), e.now, ViewAt(w'.store, k))
      && (forall j: Pubkey :: j != k ==> HistoryAt(w', j) == HistoryAt(w, j))
    ensures var i := e.instruction;
      var os, os' := w.store.organizations, Step(w, e).value.store.organizations;
      if i.SettleRuntimeCheckpoint? then i.organization in os && os' == CountedSettlement(os, i.organization)
      else os' == os
  {
    hide Execute, LaneInv, LaneStep, Local, ControlOk, LanesOk, Addressed;
    RuntimeStep(w, e, Step(w, e).value.store);
    HistoryFollows(w, e);
  }

  lemma LaneExtends(v: LaneView, h: Option<History>, op: LaneOp, now: i64, v': LaneView)
    requires LaneInv(v, h) && v.base.Some? && LaneStep(v, op, now, v')
    ensures v'.base.Some? && v'.checkpoint.Some? && v.checkpoint.Some? && h.Some?
    ensures v.checkpoint.value.settledSequence <= v'.checkpoint.value.settledSequence
    ensures var h' := Remembered(h, op, now, v');
      h'.Some? && h'.value.startedAt == h.value.startedAt && h.value.log <= h'.value.log
  {
  }

  lemma {:induction false} RunExtends(w: World, events: seq<Event>, k: Pubkey)
    requires Inv(w) && HasRuntime(w, k)
    ensures Extends(w, Run(w, events), k)
    decreases |events|
  {
    hide Inv, Apply;
    if events == [] {
    } else {
      StepExtends(w, events[0], k);
      InvKept(w, events[0]);
      RunExtends(Apply(w, events[0]), events[1..], k);
    }
  }

  /** The checkpoint never moves back, and nothing logged is ever forgotten or rewritten. */
  lemma SettledNeverDecreases(w: World, events: seq<Event>, k: Pubkey)
    requires Reachable(w) && HasRuntime(w, k)
    ensures var w' := Run(w, events);
      && HasRuntime(w', k)
      && CheckpointOf(w, k).settledSequence <= CheckpointOf(w', k).settledSequence
      && StartOf(w', k) == StartOf(w, k) && LogOf(w, k) <= LogOf(w', k)
  {
    hide Inv;
    ReachableInv(w);
    RunExtends(w, events, k);
  }

  // ---------------------------------------------------------------- the clock

  function LastSeen(h: History): i64 {
    if h.log == [] then h.startedAt else Last(h.log).record.timestamp
  }

  /** The clock a runtime sees does not go back. */
  predicate ClockAdvances(w: World, e: Event) {
    e.instruction.ConsumeRequest? && e.instruction.runtime in w.histories ==>
      LastSeen(w.histories[e.instruction.runtime]) <= e.now
  }

  predicate Timely(w: World, events: seq<Event>)
    decreases |events|
  {
    events == [] || (ClockAdvances(w, events[0]) && Timely(Apply(w, events[0]), events[1..]))
  }

  ghost predicate MonotoneAt(w: World, k: Pubkey) {
    HasRuntime(w, k) ==> Monotone(StartOf(w, k), LogOf(w, k))
  }

  lemma MonotoneGrows(h: History, e: LogEntry)
    requires Monotone(h.startedAt, h.log) && LastSeen(h) <= e.record.timestamp
    ensures Monotone(h.startedAt, h.log + [e])
  {
  }

  /** The one entry a step can add to a log carries the time of that step. */
  lemma StepAppends(w: World, e: Event, k: Pubkey)
    requires Inv(w) && HasRuntime(w, k)
    ensures var w' := Apply(w, e);
      var i := e.instruction;
      && HasRuntime(w', k)
      && (LogOf(w', k) == LogOf(w, k)
          || (&& i.ConsumeRequest? && i.apiKey == k && Step(w, e).Ok?
              && KeyAccounts(w.store, i.organization, i.role, i.apiKey, i.policy, i.runtime)
              && i.role in w.store.roles && i.policy in w.store.policies
              && LogOf(w', k)
                 == LogOf(w, k) + [EntryOf(LiveOf(w', k), ContextOf(w.store, i.role, i.apiKey, i.policy))]
              && LastDecision(LiveOf(w', k)).timestamp == e.now
              && LastDecision(LiveOf(w', k)).action == i.action))
  {
    hide Inv, Execute, LaneInv, ControlOk, Consume;
    StepExtends(w, e, k);
    if Step(w, e).Ok? {
      var w' := Step(w, e).value;
      AtKey(w, k);
      if IsControlPlane(e.instruction) {
        ControlStepKeepsInv(w, e);
      } else {
        RuntimeStepOpened(w, e);
        var op := OpOf(w.store, e.instruction);
        if k == LaneKey(e.instruction) && op.ConsumeOp? {
          LiveDecides(ViewAt(w.store, k), HistoryAt(w, k), op, e.now, ViewAt(w'.store, k));
        } else if k == LaneKey(e.instruction) {
          assert !op.InitializeOp?;
        }
      }
    }
  }

  lemma LiveDecides(v: LaneView, h: Option<History>, op: LaneOp, now: i64, v': LaneView)
    requires LaneInv(v, h) && v.base.Some? && op.ConsumeOp? && LaneStep(v, op, now, v') && SoundContext(op)
    ensures v'.base.Some? && LastDecision(LiveCopy(v')).timestamp == now
    ensures LastDecision(LiveCopy(v')).action == op.action
  {
    hide Genuine, Consume, ValidMask;
    WholeLog(h.value);
    ConsumeExtendsLog(LiveCopy(v), LiveCopy(v'), h.value.startedAt, h.value.log, op.context, op.action, now);
  }

  lemma StepKeepsMonotone(w: World, e: Event, k: Pubkey)
    requires Inv(w) && MonotoneAt(w, k) && ClockAdvances(w, e)
    ensures MonotoneAt(Apply(w, e), k)
  {
    hide Inv, Apply, Monotone, LaneInv, Step;
    var w' := Apply(w, e);
    InvKept(w, e);
    AtKey(w', k);
    if HasRuntime(w, k) {
      StepExtends(w, e, k);
      StepAppends(w, e, k);
      if LogOf(w', k) != LogOf(w, k) {
        MonotoneGrows(w.histories[QuotaRuntimePda(k)], Last(LogOf(w', k)));
      }
    } else if HasRuntime(w', k) {
      NewRuntimeIsEmpty(w, e, k);
      EmptyIsMonotone(StartOf(w', k));
    }
  }

  lemma EmptyIsMonotone(t0: i64)
    ensures Monotone(t0, [])
  {
  }

  lemma NewRuntimeIsEmpty(w: World, e: Event, k: Pubkey)
    requires Inv(w) && !HasRuntime(w, k) && HasRuntime(Apply(w, e), k)
    ensures LogOf(Apply(w, e), k) == []
  {
    hide Inv, Execute, ControlOk, Consume, KeyAccounts, Genuine, Mirrors;
    var w' := Apply(w, e);
    InvKept(w, e);
    AtKey(w, k);
    AtKey(w', k);
    if IsControlPlane(e.instruction) {
      ControlStepKeepsInv(w, e);
    } else {
      RuntimeStepOpened(w, e);
    }
  }

  /** Events that fail may see any clock. */
  lemma {:induction false} RunKeepsMonotone(w: World, events: seq<Event>, k: Pubkey)
    requires Inv(w) && MonotoneAt(w, k) && Timely(w, Successes(w, events))
    ensures MonotoneAt(Run(w, events), k)
    decreases |events|
  {
    hide Inv, ClockAdvances, Step, MonotoneAt;
    if events == [] {
    } else {
      var e := events[0];
      SuccessesUnfold(w, events);
      if Step(w, e).Ok? {
        StepKeepsMonotone(w, e, k);
      }
      InvKept(w, e);
      RunKeepsMonotone(Apply(w, e), events[1..], k);
    }
  }

  lemma SuccessesUnfold(w: World, events: seq<Event>)
    requires events != []
    ensures var run, rest := Successes(w, events), Successes(Apply(w, events[0]), events[1..]);
      if Step(w, events[0]).Ok? then run != [] && run[0] == events[0] && run[1..] == rest else run == rest
  {
    hide Step, Apply;
  }

  // ---------------------------------------------------------------- configured limits

  /** Every policy configured for `k` in these events satisfies `p`. */
  ghost predicate Configured(events: seq<Event>, k: Pubkey, p: Limits -> bool) {
    forall i :: 0 <= i < |events| ==> ConfiguredBy(events[i].instruction, k, p)
  }

  predicate ConfiguredBy(i: Instruction, k: Pubkey, p: Limits -> bool) {
    i.CreateQuotaPolicy? && i.apiKey == k ==> p(Limits(i.maxRequests, i.windowSeconds))
  }

  predicate PolicyIs(w: World, k: Pubkey, p: Limits -> bool) {
    var a := QuotaPolicyPda(k);
    a in w.store.policies ==> p(Limits(w.store.policies[a].maxRequests, w.store.policies[a].windowSeconds))
  }

  ghost predicate LogUnder(log: Log, p: Limits -> bool) {
    forall i :: 0 <= i < |log| ==> p(log[i].context.limits)
  }

  ghost predicate DecidedUnder(w: World, k: Pubkey, p: Limits -> bool) {
    PolicyIs(w, k, p) && (HasRuntime(w, k) ==> LogUnder(LogOf(w, k), p))
  }

  lemma StepDecidesUnder(w: World, e: Event, k: Pubkey, p: Limits -> bool)
    requires Inv(w) && DecidedUnder(w, k, p) && ConfiguredBy(e.instruction, k, p)
    ensures DecidedUnder(Apply(w, e), k, p)
  {
    hide Inv, Execute, ControlOk;
    var w' := Apply(w, e);
    InvKept(w, e);
    AtKey(w', k);
    if Step(w, e).Ok? {
      if IsControlPlane(e.instruction) {
        ControlStepKeepsInv(w, e);
      } else {
        RuntimeStepKeepsInv(w, e);
      }
    }
    if HasRuntime(w, k) {
      StepAppends(w, e, k);
    } else if HasRuntime(w', k) {
      NewRuntimeIsEmpty(w, e, k);
    }
  }

  /** A configuration that is refused configures nothing. */
  lemma {:induction false} RunDecidesUnder(w: World, events: seq<Event>, k: Pubkey, p: Limits -> bool)
    requires Inv(w) && DecidedUnder(w, k, p) && Configured(Successes(w, events), k, p)
    ensures DecidedUnder(Run(w, events), k, p)
    decreases |events|
  {
    hide Inv, Step, DecidedUnder, ConfiguredBy;
    if events == [] {
    } else {
      var e := events[0];
      SuccessesUnfold(w, events);
      if Step(w, e).Ok? {
        assert ConfiguredBy(Successes(w, events)[0].instruction, k, p);
        StepDecidesUnder(w, e, k, p);
      }
      InvKept(w, e);
      RunDecidesUnder(Apply(w, e), events[1..], k, p);
    }
  }

  /** What holds of all events of a run holds of its successful ones. */
  lemma {:induction false} SuccessesConform(w: World, events: seq<Event>, k: Pubkey, p: Limits -> bool)
    requires Timely(w, events) && Configured(events, k, p)
    ensures Timely(w, Successes(w, events)) && Configured(Successes(w, events), k, p)
    decreases |events|
  {
    hide Step, ClockAdvances, ConfiguredBy;
    if events == [] {
    } else {
      var e := events[0];
      assert forall i :: 0 <= i < |events[1..]| ==> events[1..][i] == events[i + 1];
      SuccessesConform(Apply(w, e), events[1..], k, p);
      SuccessesUnfold(w, events);
    }
  }

  lemma ConfiguredMore(events: seq<Event>, k: Pubkey, p: Limits -> bool, q: Limits -> bool)
    requires Configured(events, k, p) && forall l :: p(l) ==> q(l)
    ensures Configured(events, k, q)
  {
    forall i | 0 <= i < |events| ensures ConfiguredBy(events[i].instruction, k, q) {
      assert ConfiguredBy(events[i].instruction, k, p);
    }
  }

  // ---------------------------------------------------------------- the order of configurations

  function PolicyOf(i: Instruction, k: Pubkey): seq<Limits> {
    if i.CreateQuotaPolicy? && i.apiKey == k then [Limits(i.maxRequests, i.windowSeconds)] else []
  }

  /** The limits these events configure for `k`, in order. */
  function Policies(events: seq<Event>, k: Pubkey): seq<Limits> {
    if events == [] then [] else PolicyOf(events[0].instruction, k) + Policies(events[1..], k)
  }

  ghost predicate WindowsNeverShrink(policies: seq<Limits>) {
    forall i, j :: 0 <= i <= j < |policies| ==> policies[i].windowSeconds <= policies[j].windowSeconds
  }

  lemma {:induction false} ConfiguredPolicies(events: seq<Event>, k: Pubkey, p: Limits -> bool)
    ensures Configured(events, k, p) <==> forall l :: l in Policies(events, k) ==> p(l)
  {
    hide ConfiguredBy, Configured;
    if events == [] {
      NothingConfigured(k, p);
    } else {
      ConfiguredPolicies(events[1..], k, p);
      ConfiguredUnfold(events, k, p);
    }
  }

  lemma NothingConfigured(k: Pubkey, p: Limits -> bool)
    ensures Configured([], k, p)
  {
  }

  lemma ConfiguredUnfold(events: seq<Event>, k: Pubkey, p: Limits -> bool)
    requires events != []
    ensures Configured(events, k, p) <==>
      (forall l :: l in PolicyOf(events[0].instruction, k) ==> p(l)) && Configured(events[1..], k, p)
  {
    if Configured(events[1..], k, p) {
      forall i | 1 <= i < |events| ensures ConfiguredBy(events[i].instruction, k, p) {
        assert events[1..][i - 1] == events[i];
      }
    }
    assert Configured(events, k, p) ==> ConfiguredBy(events[0].instruction, k, p);
  }

  /** The policy in force, if there is one. */
  function CurrentPolicy(w: World, k: Pubkey): seq<Limits> {
    var a := QuotaPolicyPda(k);
    if a in w.store.policies then [Limits(w.store.policies[a].maxRequests, w.store.policies[a].windowSeconds)] else []
  }

  /** No decision was taken under a longer window than a later one, or than the one now in force. */
  ghost predicate Widens(w: World, k: Pubkey) {
    HasRuntime(w, k) ==>
      && NeverShrinks(LogOf(w, k))
      && (LogOf(w, k) != [] ==>
            && CurrentPolicy(w, k) != []
            && Last(LogOf(w, k)).context.limits.windowSeconds <= CurrentPolicy(w, k)[0].windowSeconds)
  }

  /** What an event that succeeds does to the policy in force. */
  lemma PolicyAfter(w: World, e: Event, k: Pubkey)
    requires Inv(w) && Step(w, e).Ok?
    ensures CurrentPolicy(Step(w, e).value, k) == (
      if PolicyOf(e.instruction, k) != [] then PolicyOf(e.instruction, k) else CurrentPolicy(w, k))
    ensures PolicyOf(e.instruction, k) != [] ==> Step(w, e).value.histories == w.histories
  {
    hide Inv, Execute, ControlOk;
    if IsControlPlane(e.instruction) {
      ControlStepKeepsInv(w, e);
    } else {
      RuntimeStepKeepsInv(w, e);
    }
  }

  lemma NeverShrinksOn(log: Log, e: LogEntry)
    requires NeverShrinks(log)
    requires log != [] ==> Last(log).context.limits.windowSeconds <= e.context.limits.windowSeconds
    ensures NeverShrinks(log + [e])
  {
  }

  lemma NothingShrinks()
    ensures NeverShrinks([])
  {
  }

  /** The limits of a decision are those of the policy in force. */
  lemma OwnPolicy(w: World, e: Event, k: Pubkey)
    requires var i := e.instruction;
      && i.ConsumeRequest? && i.apiKey == k && i.role in w.store.roles && i.policy in w.store.policies
      && KeyAccounts(w.store, i.organization, i.role, i.apiKey, i.policy, i.runtime)
    ensures k in w.store.apiKeys
    ensures CurrentPolicy(w, k) == [ContextOf(w.store, e.instruction.role, k, e.instruction.policy).limits]
    ensures PolicyOf(e.instruction, k) == []
  {
  }

  lemma StepWidens(w: World, e: Event, k: Pubkey)
    requires Inv(w) && Widens(w, k) && Step(w, e).Ok?
    requires WindowsNeverShrink(CurrentPolicy(w, k) + PolicyOf(e.instruction, k))
    ensures Widens(Apply(w, e), k)
  {
    hide Inv, Step, Policies, Monotone, NeverShrinks, KeyAccounts;
    var w' := Apply(w, e);
    PolicyAfter(w, e, k);
    if HasRuntime(w, k) {
      StepAppends(w, e, k);
      if LogOf(w', k) != LogOf(w, k) {
        OwnPolicy(w, e, k);
        NeverShrinksOn(LogOf(w, k), Last(LogOf(w', k)));
      }
      if CurrentPolicy(w, k) != [] && PolicyOf(e.instruction, k) != [] {
        assert (CurrentPolicy(w, k) + PolicyOf(e.instruction, k))[0] == CurrentPolicy(w, k)[0];
        assert (CurrentPolicy(w, k) + PolicyOf(e.instruction, k))[1] == PolicyOf(e.instruction, k)[0];
      }
    } else if HasRuntime(w', k) {
      NewRuntimeIsEmpty(w, e, k);
      NothingShrinks();
    }
  }

  lemma StillNeverShrink(current: seq<Limits>, first: seq<Limits>, rest: seq<Limits>)
    requires WindowsNeverShrink(current + (first + rest))
    ensures WindowsNeverShrink(current + first) && WindowsNeverShrink(first + rest)
    ensures WindowsNeverShrink(current + rest)
  {
    var all := current + (first + rest);
    assert forall i :: 0 <= i < |current + first| ==> (current + first)[i] == all[i];
    assert forall i :: 0 <= i < |first + rest| ==> (first + rest)[i] == all[|current| + i];
    assert forall i :: 0 <= i < |current + rest| ==>
      (current + rest)[i] == all[if i < |current| then i else i + |first|];
  }

  /** As long as no successful configuration shortens the window, no decision is taken under a shorter window
      than one before it. */
  lemma {:induction false} RunWidens(w: World, events: seq<Event>, k: Pubkey)
    requires Inv(w) && Widens(w, k)
    requires WindowsNeverShrink(CurrentPolicy(w, k) + Policies(Successes(w, events), k))
    ensures Widens(Run(w, events), k)
    decreases |events|
  {
    hide Inv, Step, Widens, CurrentPolicy;
    if events == [] {
    } else {
      var e := events[0];
      SuccessesUnfold(w, events);
      InvKept(w, e);
      if Step(w, e).Ok? {
        var rest := Policies(Successes(Apply(w, e), events[1..]), k);
        PolicyAfter(w, e, k);
        StillNeverShrink(CurrentPolicy(w, k), PolicyOf(e.instruction, k), rest);
        StepWidens(w, e, k);
      }
      RunWidens(Apply(w, e), events[1..], k);
    }
  }

  function Exactly(limits: Limits): Limits -> bool {
    l => l == limits
  }

  function NoMoreGenerousThan(limits: Limits): Limits -> bool {
    (l: Limits) => l.maxRequests <= limits.maxRequests && limits.windowSeconds <= l.windowSeconds
  }

  // ---------------------------------------------------------------- rate bounds over runs

  lemma GenesisFacts(authority: Pubkey, k: Pubkey, p: Limits -> bool)
    ensures Inv(Genesis(authority)) && MonotoneAt(Genesis(authority), k) && DecidedUnder(Genesis(authority), k, p)
    ensures Widens(Genesis(authority), k) && CurrentPolicy(Genesis(authority), k) == []
  {
  }

  /** What the bounds need to know about the log at the end of a run. */
  lemma RunFacts(authority: Pubkey, events: seq<Event>, k: Pubkey, p: Limits -> bool)
    requires Timely(Genesis(authority), Successes(Genesis(authority), events))
    requires Configured(Successes(Genesis(authority), events), k, p)
    requires HasRuntime(Run(Genesis(authority), events), k)
    ensures var w := Run(Genesis(authority), events);
      && Inv(w) && Genuine(StartOf(w, k), LogOf(w, k)) && Monotone(StartOf(w, k), LogOf(w, k))
      && LogUnder(LogOf(w, k), p)
      && LiveOf(w, k).totalAllowed == CountAllowed(LogOf(w, k))
  {
    hide Inv, Run, Timely, Genesis, Successes, Genuine;
    var w0, w := Genesis(authority), Run(Genesis(authority), events);
    GenesisFacts(authority, k, p);
    InvAlongRun(w0, events);
    RunKeepsMonotone(w0, events, k);
    RunDecidesUnder(w0, events, k, p);
    LiveMirrors(w, k);
    SummaryAddsUp(StartOf(w, k), LogOf(w, k));
  }

  /** In every run in which the policies configured for key `k` stay within (M, W) and never shrink their
      window, whatever else was tried and refused, every interval of L seconds holds at most
      M * (floor((L + W - 2) / W) + 1) admissions, and any W + 1 consecutive seconds at most 2M. */
  lemma SteadyRateBoundOverRuns(authority: Pubkey, events: seq<Event>, k: Pubkey, limits: Limits, a: int, L: int)
    requires Timely(Genesis(authority), Successes(Genesis(authority), events))
    requires Configured(Successes(Genesis(authority), events), k, NoMoreGenerousThan(limits))
    requires WindowsNeverShrink(Policies(Successes(Genesis(authority), events), k))
    requires HasRuntime(Run(Genesis(authority), events), k) && Positive(limits)
    requires L >= 1
    ensures var log := LogOf(Run(Genesis(authority), events), k);
      var M, W := limits.maxRequests, limits.windowSeconds;
      && AllowedIn(log, a, a + L) <= M * ((L + W - 2) / W + 1)
      && (L <= W + 1 ==> AllowedIn(log, a, a + L) <= 2 * M)
  {
    hide Inv, Run, Timely, Genesis, Successes, Genuine, Monotone, Policies;
    var w0, w := Genesis(authority), Run(Genesis(authority), events);
    RunFacts(authority, events, k, NoMoreGenerousThan(limits));
    GenesisFacts(authority, k, NoMoreGenerousThan(limits));
    assert CurrentPolicy(w0, k) + Policies(Successes(w0, events), k) == Policies(Successes(w0, events), k);
    RunWidens(w0, events, k);
    RateBound(StartOf(w, k), LogOf(w, k), limits, a, L);
    if L <= limits.windowSeconds + 1 {
      BurstBound(StartOf(w, k), LogOf(w, k), limits, a, L);
    }
  }

  /** Under any sequence of reconfigurations within (M, W), an interval of L seconds holds at most
      M * (floor((L - 1) / W) + 2) admissions, and by time t the runtime has admitted at most
      M * (floor((t - t0) / W) + 1). */
  lemma ReconfiguredRateBoundOverRuns(authority: Pubkey, events: seq<Event>, k: Pubkey, limits: Limits, a: int,
                                      L: int, t: int)
    requires Timely(Genesis(authority), Successes(Genesis(authority), events))
    requires Configured(Successes(Genesis(authority), events), k, NoMoreGenerousThan(limits))
    requires HasRuntime(Run(Genesis(authority), events), k) && Positive(limits)
    requires L >= 1
    ensures var w := Run(Genesis(authority), events);
      var M, W := limits.maxRequests, limits.windowSeconds;
      && AllowedIn(LogOf(w, k), a, a + L) <= M * ((L - 1) / W + 2)
      && (LastSeen(w.histories[QuotaRuntimePda(k)]) <= t && StartOf(w, k) <= t ==>
            LiveOf(w, k).totalAllowed <= M * ((t - StartOf(w, k)) / W + 1))
  {
    hide Inv, Run, Timely, Genesis, Successes, Genuine, Monotone;
    var w := Run(Genesis(authority), events);
    RunFacts(authority, events, k, NoMoreGenerousThan(limits));
    ReconfiguredRateBound(StartOf(w, k), LogOf(w, k), limits, a, L);
    if LastSeen(w.histories[QuotaRuntimePda(k)]) <= t && StartOf(w, k) <= t {
      LifetimeBound(StartOf(w, k), LogOf(w, k), limits, t);
    }
  }

  /** All three bounds in particular for a key that is only ever configured with (M, W). */
  lemma RateBoundOverRuns(authority: Pubkey, events: seq<Event>, k: Pubkey, limits: Limits, a: int, L: int, t: int)
    requires Timely(Genesis(authority), Successes(Genesis(authority), events))
    requires Configured(Successes(Genesis(authority), events), k, Exactly(limits))
    requires HasRuntime(Run(Genesis(authority), events), k) && Positive(limits)
    requires L >= 1
    ensures var w := Run(Genesis(authority), events);
      var M, W := limits.maxRequests, limits.windowSeconds;
      && AllowedIn(LogOf(w, k), a, a + L) <= M * ((L + W - 2) / W + 1)
      && (L <= W + 1 ==> AllowedIn(LogOf(w, k), a, a + L) <= 2 * M)
      && (LastSeen(w.histories[QuotaRuntimePda(k)]) <= t && StartOf(w, k) <= t ==>
            LiveOf(w, k).totalAllowed <= M * ((t - StartOf(w, k)) / W + 1))
  {
    hide Inv, Run, Timely, Genesis, Successes, Policies, ConfiguredBy;
    var run := Successes(Genesis(authority), events);
    ConfiguredPolicies(run, k, Exactly(limits));
    ConfiguredMore(run, k, Exactly(limits), NoMoreGenerousThan(limits));
    assert forall i :: 0 <= i < |Policies(run, k)| ==> Policies(run, k)[i] in Policies(run, k);
    SteadyRateBoundOverRuns(authority, events, k, limits, a, L);
    ReconfiguredRateBoundOverRuns(authority, events, k, limits, a, L, t);
  }

  /** No run ever records a spurious quota rejection. */
  lemma NoFalseRejectionOverRuns(authority: Pubkey, events: seq<Event>, k: Pubkey, i: nat)
    requires Timely(Genesis(authority), Successes(Genesis(authority), events))
    requires HasRuntime(Run(Genesis(authority), events), k)
    requires var log := LogOf(Run(Genesis(authority), events), k);
      i < |log| && log[i].record.reason == QuotaExceeded.Code()
    ensures var log := LogOf(Run(Genesis(authority), events), k);
      var t, limits := log[i].record.timestamp, log[i].context.limits;
      limits.maxRequests <= AllowedIn(log[..i], t - limits.windowSeconds + 1, t + 1)
  {
    hide Inv, Run, Timely, Genesis, Successes;
    var w0, w := Genesis(authority), Run(Genesis(authority), events);
    GenesisFacts(authority, k, l => true);
    InvAlongRun(w0, events);
    RunKeepsMonotone(w0, events, k);
    LiveMirrors(w, k);
    NoFalseQuotaRejection(StartOf(w, k), LogOf(w, k), i);
  }
}
