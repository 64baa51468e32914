/** Delegation is invisible to admission: strike every delegation, commit and landing from a run, send
    every request to base, and the decisions, totals, windows, buffers and checkpoints are the same. */
module Transparency {
  import opened Base
  import opened Permissions
  import opened Accounts
  import opened Engine
  import opened AuditLog
  import opened StateMachine
  import opened Lane
  import opened Invariants
  import opened Guarantees
  import opened Instructions

  // ---------------------------------------------------------------- erasure

  /** The store of a deployment without a rollup: each runtime is its live copy, never delegated. */
  function EraseStore(s: Store): Store
    requires s.sessions.Keys <= s.runtimes.Keys
  {
    s.(runtimes := map r | r in s.runtimes :: Undelegated(Live(s, r)), sessions := map[])
  }

  function Erase(w: World): World
    requires w.store.sessions.Keys <= w.store.runtimes.Keys
  {
    w.(store := EraseStore(w.store))
  }

  predicate IsDelegation(i: Instruction) {
    i.DelegateQuotaRuntime? || i.CommitQuotaRuntime? || i.CommitAndUndelegateQuotaRuntime? || i.Deliver?
  }

  function OnBase(e: Event): Event {
    if e.instruction.ConsumeRequest? then e.(instruction := e.instruction.(layer := BaseLayer)) else e
  }

  function EraseEvents(events: seq<Event>): seq<Event> {
    if events == [] then []
    else (if IsDelegation(events[0].instruction) then [] else [OnBase(events[0])]) + EraseEvents(events[1..])
  }

  lemma SessionsHaveRuntimes(w: World)
    requires Inv(w)
    ensures w.store.sessions.Keys <= w.store.runtimes.Keys
  {
    forall r | r in w.store.sessions ensures r in w.store.runtimes {
      AtKey(w, r.apiKey);
    }
  }

  // ---------------------------------------------------------------- one lane

  function EraseView(v: LaneView): LaneView {
    if v.base.None? then v else LaneView(Some(Undelegated(LiveCopy(v))), None, v.checkpoint)
  }

  lemma AppendIgnoresDelegation(rt: RuntimeState, action: u8, allowed: bool, reason: DecisionReason, now: i64)
    ensures var r := AppendAudit(rt, action, allowed, reason, now);
      AppendAudit(Undelegated(rt), action, allowed, reason, now) == if r.Ok? then Ok(Undelegated(r.value)) else r
  {
  }

  /** A decision neither reads nor writes the delegation fields. */
  lemma ConsumeIgnoresDelegation(rt: RuntimeState, c: Context, action: u8, now: i64)
    ensures var r := Consume(rt, c, action, now);
      Consume(Undelegated(rt), c, action, now) == if r.Ok? then Ok(Undelegated(r.value)) else r
  {
    hide AppendAudit, RoleAllows;
    var parsed := ParseAction(action);
    if !c.active {
      AppendIgnoresDelegation(rt, action, false, DecisionReason.KeyRevoked, now);
    } else if parsed.None? {
      AppendIgnoresDelegation(rt, action, false, InvalidAction, now);
    } else if !RoleAllows(c.mask, parsed.value) {
      AppendIgnoresDelegation(rt, action, false, Unauthorized, now);
    } else {
      var rolled := ResetIfExpired(rt, c.limits.windowSeconds, now);
      if rolled.Ok? {
        if rolled.value.currentWindowUsed >= c.limits.maxRequests {
          AppendIgnoresDelegation(rolled.value, action, false, QuotaExceeded, now);
        } else {
          var counted := rolled.value.(currentWindowUsed := rolled.value.currentWindowUsed + 1);
          AppendIgnoresDelegation(counted, action, true, Allowed, now);
        }
      }
    }
  }

  predicate IsDelegationOp(op: LaneOp) {
    op.DelegateOp? || op.CommitOp? || op.UndelegateOp? || op.DeliverOp?
  }

  lemma EraseDelegationOp(v: LaneView, h: Option<History>, op: LaneOp, now: i64, v': LaneView)
    requires LaneInv(v, h) && LaneStep(v, op, now, v') && IsDelegationOp(op)
    ensures EraseView(v') == EraseView(v)
  {
  }

  // ---------------------------------------------------------------- one step

  lemma EraseViewAt(s: Store, k: Pubkey)
    requires s.sessions.Keys <= s.runtimes.Keys
    ensures ViewAt(EraseStore(s), k) == EraseView(ViewAt(s, k))
  {
  }

  /** Stores agree once their control planes and all their lanes do. */
  lemma SameStore(a: Store, b: Store)
    requires a.(runtimes := b.runtimes, checkpoints := b.checkpoints, sessions := b.sessions) == b
    requires forall r :: r in a.runtimes || r in b.runtimes ==> r.QuotaRuntimePda?
    requires forall r :: r in a.sessions || r in b.sessions ==> r.QuotaRuntimePda?
    requires forall c :: c in a.checkpoints || c in b.checkpoints ==> c.AuditCheckpointPda?
    requires forall k: Pubkey :: ViewAt(a, k) == ViewAt(b, k)
    ensures a == b
  {
    forall r | r in a.runtimes || r in b.runtimes
      ensures r in a.runtimes && r in b.runtimes && a.runtimes[r] == b.runtimes[r] {
      assert ViewAt(a, r.apiKey) == ViewAt(b, r.apiKey);
    }
    forall r | r in a.sessions || r in b.sessions
      ensures r in a.sessions && r in b.sessions && a.sessions[r] == b.sessions[r] {
      assert ViewAt(a, r.apiKey) == ViewAt(b, r.apiKey);
    }
    forall c | c in a.checkpoints || c in b.checkpoints
      ensures c in a.checkpoints && c in b.checkpoints && a.checkpoints[c] == b.checkpoints[c] {
      assert ViewAt(a, c.apiKey) == ViewAt(b, c.apiKey);
    }
    assert a.runtimes == b.runtimes;
    assert a.sessions == b.sessions;
    assert a.checkpoints == b.checkpoints;
  }

  lemma EraseDelegationStep(w: World, e: Event)
    requires Inv(w) && Step(w, e).Ok? && IsDelegation(e.instruction)
    ensures var w' := Step(w, e).value;
      w.store.sessions.Keys <= w.store.runtimes.Keys && w'.store.sessions.Keys <= w'.store.runtimes.Keys
      && Erase(w') == Erase(w)
  {
    hide Execute, ControlOk, LanesOk, LaneInv, LaneStep;
    var w' := Step(w, e).value;
    var s, s' := w.store, w'.store;
    InvKept(w, e);
    SessionsHaveRuntimes(w);
    SessionsHaveRuntimes(w');
    RuntimeStepOpened(w, e);
    var k := LaneKey(e.instruction);
    AtKey(w, k);
    EraseDelegationOp(ViewAt(s, k), HistoryAt(w, k), OpOf(s, e.instruction), e.now, ViewAt(s', k));
    forall j: Pubkey ensures ViewAt(EraseStore(s'), j) == ViewAt(EraseStore(s), j) {
      EraseViewAt(s, j);
      EraseViewAt(s', j);
    }
    SameStore(EraseStore(s'), EraseStore(s));
  }

  /** The first store with the runtimes and sessions of the second. */
  function Grafted(s: Store, t: Store): Store {
    s.(runtimes := t.runtimes, sessions := t.sessions)
  }

  predicate Commutes(r: Result<Store>, r': Result<Store>, t: Store) {
    r.Ok? ==> r' == Ok(Grafted(r.value, t))
  }

  lemma CreateOrganizationIgnoresRuntimes(s: Store, t: Store, e: Event)
    requires t == Grafted(s, t) && e.instruction.CreateOrganization?
    ensures Commutes(Execute(s, e), Execute(t, e), t)
  {
  }

  lemma CreateRoleIgnoresRuntimes(s: Store, t: Store, e: Event)
    requires t == Grafted(s, t) && e.instruction.CreateRole?
    ensures Commutes(Execute(s, e), Execute(t, e), t)
  {
  }

  lemma AttachPolicyIgnoresRuntimes(s: Store, t: Store, e: Event)
    requires t == Grafted(s, t) && e.instruction.AttachPolicy?
    ensures Commutes(Execute(s, e), Execute(t, e), t)
  {
  }

  lemma CreateApiKeyIgnoresRuntimes(s: Store, t: Store, e: Event)
    requires t == Grafted(s, t) && e.instruction.CreateApiKey?
    ensures Commutes(Execute(s, e), Execute(t, e), t)
  {
  }

  lemma CreateQuotaPolicyIgnoresRuntimes(s: Store, t: Store, e: Event)
    requires t == Grafted(s, t) && e.instruction.CreateQuotaPolicy?
    ensures Commutes(Execute(s, e), Execute(t, e), t)
  {
  }

  lemma RevokeApiKeyIgnoresRuntimes(s: Store, t: Store, e: Event)
    requires t == Grafted(s, t) && e.instruction.RevokeApiKey?
    ensures Commutes(Execute(s, e), Execute(t, e), t)
  {
  }

  /** Control-plane instructions do the same whatever the runtimes are. */
  lemma ControlIgnoresRuntimes(s: Store, t: Store, e: Event)
    requires t == Grafted(s, t) && IsControlPlane(e.instruction)
    ensures Commutes(Execute(s, e), Execute(t, e), t)
  {
    hide Execute;
    match e.instruction
    case CreateOrganization(_, _, _) => CreateOrganizationIgnoresRuntimes(s, t, e);
    case CreateRole(_, _, _) => CreateRoleIgnoresRuntimes(s, t, e);
    case AttachPolicy(_, _, _, _) => AttachPolicyIgnoresRuntimes(s, t, e);
    case CreateApiKey(_, _, _, _, _) => CreateApiKeyIgnoresRuntimes(s, t, e);
    case CreateQuotaPolicy(_, _, _, _, _) => CreateQuotaPolicyIgnoresRuntimes(s, t, e);
    case RevokeApiKey(_, _, _) => RevokeApiKeyIgnoresRuntimes(s, t, e);
  }

  lemma EraseControlStep(w: World, e: Event)
    requires Inv(w) && IsControlPlane(e.instruction) && Step(w, e).Ok?
    ensures var w' := Step(w, e).value;
      && w.store.sessions.Keys <= w.store.runtimes.Keys && w'.store.sessions.Keys <= w'.store.runtimes.Keys
      && Step(Erase(w), e) == Ok(Erase(w'))
  {
    hide ControlOk, LanesOk, Execute, Inv;
    var s, s' := w.store, Step(w, e).value.store;
    SessionsHaveRuntimes(w);
    ControlStepKeepsInv(w, e);
    var erased := EraseStore(s);
    ControlIgnoresRuntimes(s, erased, e);
    assert EraseStore(s').runtimes == erased.runtimes;
  }

  /** The account checks read nothing that erasure changes. */
  lemma ChecksErased(s: Store, authority: Pubkey, organization: Pubkey, apiKey: Pubkey, policy: Pubkey)
    requires s.sessions.Keys <= s.runtimes.Keys
    ensures var t := EraseStore(s);
      && Signed(t, organization, authority) == Signed(s, organization, authority)
      && KeyIn(t, organization, apiKey) == KeyIn(s, organization, apiKey)
      && PolicyFor(t, organization, apiKey, policy) == PolicyFor(s, organization, apiKey, policy)
  {
  }

  lemma WritableErased(s: Store, layer: Layer, runtime: Pubkey)
    requires s.sessions.Keys <= s.runtimes.Keys && Writable(s, layer, runtime).Ok?
    ensures Writable(EraseStore(s), BaseLayer, runtime) == Ok(Undelegated(Writable(s, layer, runtime).value))
  {
  }

  lemma WrittenErased(s: Store, layer: Layer, runtime: Pubkey, rt: RuntimeState)
    requires s.sessions.Keys <= s.runtimes.Keys && Writable(s, layer, runtime).Ok?
    ensures var s' := Written(s, layer, runtime, rt);
      && s'.sessions.Keys <= s'.runtimes.Keys
      && Writable(EraseStore(s), BaseLayer, runtime).Ok?
      && EraseStore(s') == Written(EraseStore(s), BaseLayer, runtime, Undelegated(rt))
  {
    var s' := Written(s, layer, runtime, rt);
    assert EraseStore(s').runtimes == EraseStore(s).runtimes[runtime := Undelegated(rt)];
  }

  lemma ConsumeGuardsErased(s: Store, organization: Pubkey, role: Pubkey, apiKey: Pubkey, policy: Pubkey,
                            rt: RuntimeState)
    requires s.sessions.Keys <= s.runtimes.Keys
    requires ConsumeGuards(s, organization, role, apiKey, policy, rt).Ok?
    ensures ConsumeGuards(EraseStore(s), organization, role, apiKey, policy, Undelegated(rt)).Ok?
    ensures ContextOf(EraseStore(s), role, apiKey, policy) == ContextOf(s, role, apiKey, policy)
  {
  }

  lemma SettleGuardsErased(s: Store, authority: Pubkey, organization: Pubkey, apiKey: Pubkey, runtime: Pubkey,
                           checkpoint: Pubkey)
    requires s.sessions.Keys <= s.runtimes.Keys
    requires SettleGuards(s, authority, organization, apiKey, runtime, checkpoint).Ok?
    ensures SettleGuards(EraseStore(s), authority, organization, apiKey, runtime, checkpoint)
         == Ok(Undelegated(SettleGuards(s, authority, organization, apiKey, runtime, checkpoint).value))
  {
  }

  lemma SettleIgnoresDelegation(rt: RuntimeState, cp: CheckpointState, organization: OrganizationState, now: i64)
    requires Engine.Settle(rt, cp, organization, now).Ok?
    ensures var done := Engine.Settle(rt, cp, organization, now).value;
      Engine.Settle(Undelegated(rt), cp, organization, now) == Ok(done.(runtime := Undelegated(done.runtime)))
  {
  }

  /** Erasure looks at runtimes and sessions only. */
  lemma RestErased(s: Store, t: Store)
    requires t.runtimes == s.runtimes && t.sessions == s.sessions && s.sessions.Keys <= s.runtimes.Keys
    ensures EraseStore(t) == t.(runtimes := EraseStore(s).runtimes, sessions := map[])
  {
  }

  lemma InitializeErased(s: Store, authority: Pubkey, organization: Pubkey, apiKey: Pubkey, policy: Pubkey, now: i64,
                         s': Store)
    requires s.sessions.Keys <= s.runtimes.Keys
    requires ExecInitialize(s, authority, organization, apiKey, policy, now) == Ok(s')
    ensures s'.sessions.Keys <= s'.runtimes.Keys
    ensures ExecInitialize(EraseStore(s), authority, organization, apiKey, policy, now) == Ok(EraseStore(s'))
  {
    hide Signed, KeyIn, PolicyFor;
    ChecksErased(s, authority, organization, apiKey, policy);
    var rt := FreshRuntime(organization, apiKey, policy, now);
    assert EraseStore(s').runtimes == EraseStore(s).runtimes[QuotaRuntimePda(apiKey) := rt];
  }

  lemma SettleErased(s: Store, authority: Pubkey, organization: Pubkey, apiKey: Pubkey, runtime: Pubkey,
                     checkpoint: Pubkey, now: i64, s': Store)
    requires s.sessions.Keys <= s.runtimes.Keys
    requires ExecSettle(s, authority, organization, apiKey, runtime, checkpoint, now) == Ok(s')
    ensures s'.sessions.Keys <= s'.runtimes.Keys
    ensures ExecSettle(EraseStore(s), authority, organization, apiKey, runtime, checkpoint, now) == Ok(EraseStore(s'))
  {
    hide SettleGuards, EraseStore, Engine.Settle;
    SettleGuardsErased(s, authority, organization, apiKey, runtime, checkpoint);
    var rt := SettleGuards(s, authority, organization, apiKey, runtime, checkpoint).value;
    var org := s.organizations[organization];
    SettleIgnoresDelegation(rt, s.checkpoints[checkpoint], org, now);
    var done := Engine.Settle(rt, s.checkpoints[checkpoint], org, now).value;
    WrittenErased(s, BaseLayer, runtime, done.runtime);
    RestErased(Written(s, BaseLayer, runtime, done.runtime), s');
    RestErased(s, s);
  }

  lemma ConsumeErased(s: Store, layer: Layer, organization: Pubkey, role: Pubkey, apiKey: Pubkey,
                      policy: Pubkey, runtime: Pubkey, action: u8, now: i64, s': Store)
    requires s.sessions.Keys <= s.runtimes.Keys
    requires ExecConsume(s, layer, organization, role, apiKey, policy, runtime, action, now) == Ok(s')
    ensures s'.sessions.Keys <= s'.runtimes.Keys
    ensures ExecConsume(EraseStore(s), BaseLayer, organization, role, apiKey, policy, runtime, action, now)
         == Ok(EraseStore(s'))
  {
    hide Consume, Writable, Written, ConsumeGuards, EraseStore;
    var rt := Writable(s, layer, runtime).value;
    var c := ContextOf(s, role, apiKey, policy);
    WritableErased(s, layer, runtime);
    ConsumeGuardsErased(s, organization, role, apiKey, policy, rt);
    ConsumeIgnoresDelegation(rt, c, action, now);
    WrittenErased(s, layer, runtime, Consume(rt, c, action, now).value);
  }

  /** What a request leaves behind in the history is the same on either layer. */
  lemma RecordedErased(s: Store, s': Store, h: map<Pubkey, History>, e: Event)
    requires s.sessions.Keys <= s.runtimes.Keys && s'.sessions.Keys <= s'.runtimes.Keys
    ensures Recorded(EraseStore(s), EraseStore(s'), h, OnBase(e)) == Recorded(s, s', h, e)
  {
  }

  lemma ExecutionErased(s: Store, e: Event, s': Store)
    requires s.sessions.Keys <= s.runtimes.Keys && Execute(s, e) == Ok(s')
    requires !IsDelegation(e.instruction) && !IsControlPlane(e.instruction)
    ensures s'.sessions.Keys <= s'.runtimes.Keys
    ensures Execute(EraseStore(s), OnBase(e)) == Ok(EraseStore(s'))
  {
    hide ExecInitialize, ExecSettle, ExecConsume;
    match e.instruction
    case InitializeQuotaRuntime(authority, organization, apiKey, policy) =>
      InitializeErased(s, authority, organization, apiKey, policy, e.now, s');
    case SettleRuntimeCheckpoint(authority, organization, apiKey, runtime, checkpoint) =>
      SettleErased(s, authority, organization, apiKey, runtime, checkpoint, e.now, s');
    case ConsumeRequest(layer, organization, role, apiKey, policy, runtime, action) =>
      ConsumeErased(s, layer, organization, role, apiKey, policy, runtime, action, e.now, s');
  }

  /** One step: a delegation step disappears, any other step is the same step of the erased world. */
  lemma EraseStep(w: World, e: Event)
    requires Inv(w) && Step(w, e).Ok?
    ensures var w' := Step(w, e).value;
      && w.store.sessions.Keys <= w.store.runtimes.Keys && w'.store.sessions.Keys <= w'.store.runtimes.Keys
      && if IsDelegation(e.instruction) then Erase(w') == Erase(w) else Step(Erase(w), OnBase(e)) == Ok(Erase(w'))
  {
    hide ControlOk, LanesOk, Execute;
    SessionsHaveRuntimes(w);
    if IsDelegation(e.instruction) {
      EraseDelegationStep(w, e);
    } else if IsControlPlane(e.instruction) {
      EraseControlStep(w, e);
    } else {
      ExecutionErased(w.store, e, Step(w, e).value.store);
      RecordedErased(w.store, Step(w, e).value.store, w.histories, e);
    }
  }

  // ---------------------------------------------------------------- runs

  lemma {:induction false} EraseRun(w: World, events: seq<Event>)
    requires Inv(w) && Succeeds(w, events)
    ensures w.store.sessions.Keys <= w.store.runtimes.Keys
    ensures Run(w, events).store.sessions.Keys <= Run(w, events).store.runtimes.Keys
    ensures Succeeds(Erase(w), EraseEvents(events))
    ensures Run(Erase(w), EraseEvents(events)) == Erase(Run(w, events))
    decreases |events|
  {
    hide Inv, Step, Erase;
    SessionsHaveRuntimes(w);
    if events == [] {
    } else {
      var e := events[0];
      var w' := Apply(w, e);
      EraseStep(w, e);
      InvKept(w, e);
      EraseRun(w', events[1..]);
      if !IsDelegation(e.instruction) {
        var rest := EraseEvents(events[1..]);
        assert EraseEvents(events) == [OnBase(e)] + rest;
        assert ([OnBase(e)] + rest)[1..] == rest;
        assert Apply(Erase(w), OnBase(e)) == Erase(w');
      } else {
        assert EraseEvents(events) == EraseEvents(events[1..]);
      }
    }
  }

  /** Every run, with its failed events left out and its delegation steps erased, is a run on base
      alone in which every event succeeds, and it ends with the same control plane, checkpoints and
      logs, and with every runtime equal but for its three delegation fields. */
  lemma DelegationIsInvisible(authority: Pubkey, events: seq<Event>)
    ensures var w0 := Genesis(authority);
      var w := Run(w0, events);
      var plain := EraseEvents(Successes(w0, events));
      var p := Run(w0, plain);
      && Succeeds(w0, plain)
      && p.histories == w.histories
      && p.store.sessions == map[] && p.store.gateway == w.store.gateway
      && p.store.checkpoints == w.store.checkpoints
      && p.store.organizations == w.store.organizations && p.store.apiKeys == w.store.apiKeys
      && p.store.roles == w.store.roles && p.store.policies == w.store.policies
      && p.store.runtimes.Keys == w.store.runtimes.Keys
      && (forall r :: r in w.store.runtimes ==> p.store.runtimes[r] == Undelegated(Live(w.store, r)))
  {
    hide Inv, Run, Successes, EraseEvents, Succeeds;
    var w0 := Genesis(authority);
    GenesisInv(authority);
    FailuresLeaveNoTrace(w0, events);
    EraseRun(w0, Successes(w0, events));
    assert EraseStore(w0.store) == w0.store;
  }

  // ---------------------------------------------------------------- nothing is refused that base would take

  lemma ErasedIsReachable(w: World)
    requires Reachable(w)
    ensures w.store.sessions.Keys <= w.store.runtimes.Keys && Reachable(Erase(w))
  {
    hide Inv, Run, Successes, EraseEvents, Succeeds;
    var authority, events :| w == Run(Genesis(authority), events);
    var w0 := Genesis(authority);
    GenesisInv(authority);
    FailuresLeaveNoTrace(w0, events);
    EraseRun(w0, Successes(w0, events));
    assert EraseStore(w0.store) == w0.store;
    assert Erase(w) == Run(w0, EraseEvents(Successes(w0, events)));
  }

  /** What erasure keeps of a key: everything but its session and its delegation fields. */
  lemma ErasedKey(w: World, k: Pubkey)
    requires Inv(w) && w.store.sessions.Keys <= w.store.runtimes.Keys
    ensures HasRuntime(Erase(w), k) <==> HasRuntime(w, k)
    ensures !InSession(Erase(w), k)
    ensures HasRuntime(w, k) ==>
      LiveOf(Erase(w), k) == Undelegated(LiveOf(w, k)) && CheckpointOf(Erase(w), k) == CheckpointOf(w, k)
  {
    hide Inv;
  }

  /** A request succeeds where its runtime takes requests exactly when the same request succeeds on base
      without delegation, and then with the same decision, log and runtime. */
  lemma RequestsEraseBothWays(w: World, i: Instruction, now: i64)
    requires Reachable(w) && i.ConsumeRequest? && Accepts(w, i.layer, i.apiKey)
    ensures w.store.sessions.Keys <= w.store.runtimes.Keys
    ensures Step(w, Event(i, now)).Ok? <==> Step(Erase(w), OnBase(Event(i, now))).Ok?
    ensures Step(w, Event(i, now)).Ok? ==>
      var w', p' := Step(w, Event(i, now)).value, Step(Erase(w), OnBase(Event(i, now))).value;
      && w'.store.sessions.Keys <= w'.store.runtimes.Keys && p' == Erase(w') && p'.histories == w'.histories
      && HasRuntime(w', i.apiKey) && HasRuntime(p', i.apiKey)
      && LastDecision(LiveOf(p', i.apiKey)) == LastDecision(LiveOf(w', i.apiKey))
  {
    hide Inv, Reachable, Step, EraseStore, Overflows;
    var k := i.apiKey;
    ReachableInv(w);
    ErasedIsReachable(w);
    ErasedKey(w, k);
    ErasedControlPlane(w.store);
    ConsumeFailsExactlyWhen(w, i, now);
    ConsumeFailsExactlyWhen(Erase(w), OnBase(Event(i, now)).instruction, now);
    if OwnAccounts(w, i) { OverflowsErased(LiveOf(w, k), ContextFor(w, i), i.action); }
    if Step(w, Event(i, now)).Ok? {
      EraseStep(w, Event(i, now));
      InvKept(w, Event(i, now));
      AdmissionFollowsTheLog(w, i, now);
      ReachableStep(w, Event(i, now));
      ReachableInv(Step(w, Event(i, now)).value);
      ErasedKey(Step(w, Event(i, now)).value, k);
    }
  }

  lemma OverflowsErased(rt: RuntimeState, c: Context, action: u8)
    ensures Overflows(Undelegated(rt), c, action) <==> Overflows(rt, c, action)
  {
    hide Authorized;
  }

  lemma ErasedControlPlane(s: Store)
    requires s.sessions.Keys <= s.runtimes.Keys
    ensures var t := EraseStore(s);
      && t.gateway == s.gateway && t.organizations == s.organizations && t.roles == s.roles
      && t.apiKeys == s.apiKeys && t.policies == s.policies && t.sessions == map[]
  {
  }

  /** So erasure hides no refusal: outside the delegation steps, an instruction succeeds exactly when it does
      without delegation, as long as a request is sent to the layer that takes it and a settlement waits for
      the end of the session. */
  lemma ErasureHidesNoRefusal(w: World, e: Event)
    requires Reachable(w) && !IsDelegation(e.instruction)
    requires e.instruction.ConsumeRequest? ==> Accepts(w, e.instruction.layer, e.instruction.apiKey)
    requires e.instruction.SettleRuntimeCheckpoint? ==> !InSession(w, e.instruction.apiKey)
    ensures w.store.sessions.Keys <= w.store.runtimes.Keys
    ensures Step(w, e).Ok? <==> Step(Erase(w), OnBase(e)).Ok?
  {
    hide Inv, Reachable, Step, EraseStore;
    ReachableInv(w);
    ErasedIsReachable(w);
    var p := Erase(w);
    ReachableInv(p);
    ErasedControlPlane(w.store);
    match e.instruction
    case CreateOrganization(_, _, _) => ControlErasesBothWays(w, e);
    case CreateRole(_, _, _) => ControlErasesBothWays(w, e);
    case AttachPolicy(_, _, _, _) => ControlErasesBothWays(w, e);
    case CreateApiKey(_, _, _, _, _) => ControlErasesBothWays(w, e);
    case CreateQuotaPolicy(_, _, _, _, _) => ControlErasesBothWays(w, e);
    case RevokeApiKey(_, _, _) => ControlErasesBothWays(w, e);
    case InitializeQuotaRuntime(a, o, k, policy) =>
      ErasedKey(w, k);
      InitializeOutcome(w, a, o, k, policy, e.now);
      InitializeOutcome(p, a, o, k, policy, e.now);
    case SettleRuntimeCheckpoint(a, o, k, r, c) =>
      ErasedKey(w, k);
      SettleOutcome(w, a, o, k, r, c, e.now);
      SettleOutcome(p, a, o, k, r, c, e.now);
    case ConsumeRequest(_, _, _, _, _, _, _) => RequestsEraseBothWays(w, e.instruction, e.now);
  }

  lemma ControlErasesBothWays(w: World, e: Event)
    requires IsControlPlane(e.instruction) && w.store.sessions.Keys <= w.store.runtimes.Keys
    ensures Step(w, e).Ok? <==> Step(Erase(w), e).Ok?
  {
    hide Execute, EraseStore;
    var s, t := w.store, EraseStore(w.store);
    ErasedRest(s);
    ControlIgnoresRuntimes(s, t, e);
    ControlIgnoresRuntimes(t, s, e);
  }

  lemma ErasedRest(s: Store)
    requires s.sessions.Keys <= s.runtimes.Keys
    ensures EraseStore(s) == Grafted(s, EraseStore(s)) && s == Grafted(EraseStore(s), s)
  {
  }
}
