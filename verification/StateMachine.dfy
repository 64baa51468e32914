/** The program on its two execution layers as one state machine: the account store, the instructions
    with the account checks that guard them, and runs in which a failing instruction changes nothing. */
module StateMachine {
  import opened Base
  import opened Permissions
  import opened Accounts
  import opened Engine
  import opened AuditLog

  // ---------------------------------------------------------------- state

  /** A committed copy of a delegated runtime on its way to base; the last one of a session hands the
      account back. */
  datatype Snapshot = Snapshot(state: RuntimeState, handsBack: bool)

  /** What exists for a runtime while the delegation program owns its base account: the rollup copy,
      the snapshots in flight (oldest first), and whether undelegation is scheduled. */
  datatype Session = Session(live: RuntimeState, inFlight: seq<Snapshot>, closing: bool)

  datatype Store = Store(
    gateway: GatewayState,
    organizations: map<Pubkey, OrganizationState>,
    roles: map<Pubkey, RoleState>,
    apiKeys: map<Pubkey, ApiKeyState>,
    policies: map<Pubkey, PolicyState>,
    runtimes: map<Pubkey, RuntimeState>,
    checkpoints: map<Pubkey, CheckpointState>,
    sessions: map<Pubkey, Session>)

  /** History variable: when a runtime was initialized and every decision it has taken since. */
  datatype History = History(startedAt: i64, log: Log)

  datatype World = World(store: Store, histories: map<Pubkey, History>)

  datatype Layer = BaseLayer | Rollup

  // ---------------------------------------------------------------- events

  /** An instruction names the accounts it is given; `authority` has signed. */
  datatype Instruction =
    | CreateOrganization(authority: Pubkey, name: Bytes, organizationAuthority: Pubkey)
    | CreateRole(authority: Pubkey, organization: Pubkey, name: Bytes)
    | AttachPolicy(authority: Pubkey, organization: Pubkey, role: Pubkey, policyMask: Mask)
    | CreateApiKey(authority: Pubkey, organization: Pubkey, role: Pubkey, keyId: Pubkey, displayLabel: Bytes)
    | CreateQuotaPolicy(authority: Pubkey, organization: Pubkey, apiKey: Pubkey, maxRequests: u64, windowSeconds: i64)
    | InitializeQuotaRuntime(authority: Pubkey, organization: Pubkey, apiKey: Pubkey, policy: Pubkey)
    | DelegateQuotaRuntime(authority: Pubkey, organization: Pubkey, apiKey: Pubkey, policy: Pubkey,
                           runtime: Pubkey, validator: Option<Pubkey>, commitFrequencyMs: u32)
    | ConsumeRequest(layer: Layer, organization: Pubkey, role: Pubkey, apiKey: Pubkey, policy: Pubkey,
                     runtime: Pubkey, action: u8)
    | CommitQuotaRuntime(authority: Pubkey, organization: Pubkey, apiKey: Pubkey, runtime: Pubkey)
    | CommitAndUndelegateQuotaRuntime(authority: Pubkey, organization: Pubkey, apiKey: Pubkey, runtime: Pubkey)
    | SettleRuntimeCheckpoint(authority: Pubkey, organization: Pubkey, apiKey: Pubkey, runtime: Pubkey,
                              checkpoint: Pubkey)
    | RevokeApiKey(authority: Pubkey, organization: Pubkey, apiKey: Pubkey)
    /** Not an instruction of the program: the oldest snapshot in flight lands on base. */
    | Deliver(runtime: Pubkey)

  datatype Event = Event(instruction: Instruction, now: i64)

  // ---------------------------------------------------------------- account access

  /** `has_one = authority` on an organization account. */
  function Signed(s: Store, organization: Pubkey, authority: Pubkey): Result<()> {
    if organization !in s.organizations then Err(AccountNotInitialized)
    else Need(s.organizations[organization].authority == authority, InvalidOrganizationAuthority)
  }

  function KeyIn(s: Store, organization: Pubkey, apiKey: Pubkey): Result<()> {
    if apiKey !in s.apiKeys then Err(AccountNotInitialized)
    else Need(s.apiKeys[apiKey].organization == organization, ApiKeyOrganizationMismatch)
  }

  function PolicyFor(s: Store, organization: Pubkey, apiKey: Pubkey, policy: Pubkey): Result<()> {
    if policy !in s.policies then Err(AccountNotInitialized)
    else Need(s.policies[policy].organization == organization && s.policies[policy].apiKey == apiKey,
              QuotaPolicyMismatch)
  }

  /** Who may write a runtime account where: on base only its program-owned copy, on the rollup only the
      delegated copy until undelegation is scheduled. */
  function Writable(s: Store, layer: Layer, runtime: Pubkey): Result<RuntimeState> {
    if runtime !in s.runtimes then Err(AccountNotInitialized)
    else match layer
      case BaseLayer =>
        if runtime in s.sessions then Err(AccountOwnedByWrongProgram) else Ok(s.runtimes[runtime])
      case Rollup =>
        if runtime !in s.sessions || s.sessions[runtime].closing then Err(AccountNotWritable)
        else Ok(s.sessions[runtime].live)
  }

  /** The copy of a runtime that requests act on, which is also what the rollup reads at its address: the
      rollup copy during a session, else the base account or a clone of it. */
  function Live(s: Store, runtime: Pubkey): RuntimeState
    requires runtime in s.runtimes
  {
    if runtime in s.sessions then s.sessions[runtime].live else s.runtimes[runtime]
  }

  function Written(s: Store, layer: Layer, runtime: Pubkey, rt: RuntimeState): Store
    requires Writable(s, layer, runtime).Ok?
  {
    match layer
    case BaseLayer => s.(runtimes := s.runtimes[runtime := rt])
    case Rollup => s.(sessions := s.sessions[runtime := s.sessions[runtime].(live := rt)])
  }

  function Bound(rt: RuntimeState, organization: Pubkey, apiKey: Pubkey): Result<()> {
    Need(rt.organization == organization && rt.apiKey == apiKey, QuotaRuntimeMismatch)
  }

  // ---------------------------------------------------------------- control plane

  function ExecCreateOrganization(s: Store, authority: Pubkey, name: Bytes, organizationAuthority: Pubkey)
    : Result<Store>
  {
    var _ :- Need(s.gateway.authority == authority, InvalidOrganizationAuthority);
    var address := OrganizationPda(GatewayPda, name);
    var done :- Engine.CreateOrganization(s.gateway, Lookup(s.organizations, address), name, organizationAuthority);
    Ok(s.(gateway := done.0, organizations := s.organizations[address := done.1]))
  }

  function ExecCreateRole(s: Store, authority: Pubkey, organization: Pubkey, name: Bytes, now: i64): Result<Store> {
    var _ :- Signed(s, organization, authority);
    var address := RolePda(organization, name);
    var done :- Engine.CreateRole(s.organizations[organization], Lookup(s.roles, address), organization, name, now);
    Ok(s.(organizations := s.organizations[organization := done.0], roles := s.roles[address := done.1]))
  }

  function ExecAttachPolicy(s: Store, authority: Pubkey, organization: Pubkey, role: Pubkey,
                            mask: Mask): Result<Store> {
    var _ :- Signed(s, organization, authority);
    var _ :- Need(role in s.roles, AccountNotInitialized);
    var _ :- Need(role == RolePda(organization, s.roles[role].name), ConstraintSeeds);
    var _ :- Need(s.roles[role].organization == organization, RoleOrganizationMismatch);
    var done :- Engine.AttachPolicy(s.roles[role], mask);
    Ok(s.(roles := s.roles[role := done]))
  }

  function CreateApiKeyGuards(s: Store, authority: Pubkey, organization: Pubkey, role: Pubkey): (r: Result<()>)
    ensures r.Ok? ==> organization in s.organizations
  {
    var _ :- Signed(s, organization, authority);
    var _ :- Need(role in s.roles, AccountNotInitialized);
    Need(s.roles[role].organization == organization, RoleOrganizationMismatch)
  }

  function ExecCreateApiKey(s: Store, authority: Pubkey, organization: Pubkey, role: Pubkey, keyId: Pubkey,
                            displayLabel: Bytes, now: i64): Result<Store>
  {
    var _ :- CreateApiKeyGuards(s, authority, organization, role);
    var address := ApiKeyPda(organization, keyId);
    var done :- Engine.CreateApiKey(s.organizations[organization], Lookup(s.apiKeys, address), organization, role,
                                    keyId, displayLabel, authority, now);
    Ok(s.(organizations := s.organizations[organization := done.0], apiKeys := s.apiKeys[address := done.1]))
  }

  function ExecCreateQuotaPolicy(s: Store, authority: Pubkey, organization: Pubkey, apiKey: Pubkey,
                                 maxRequests: u64, windowSeconds: i64): Result<Store>
  {
    var _ :- Signed(s, organization, authority);
    var _ :- KeyIn(s, organization, apiKey);
    var done :- Engine.CreateQuotaPolicy(organization, apiKey, maxRequests, windowSeconds);
    Ok(s.(policies := s.policies[QuotaPolicyPda(apiKey) := done]))
  }

  function ExecRevoke(s: Store, authority: Pubkey, organization: Pubkey, apiKey: Pubkey, now: i64): Result<Store> {
    var _ :- Signed(s, organization, authority);
    var _ :- KeyIn(s, organization, apiKey);
    var _ :- Need(apiKey == ApiKeyPda(organization, s.apiKeys[apiKey].keyId), ConstraintSeeds);
    var done :- Engine.RevokeApiKey(s.apiKeys[apiKey], now);
    Ok(s.(apiKeys := s.apiKeys[apiKey := done]))
  }

  // ---------------------------------------------------------------- runtime instructions

  function ExecInitialize(s: Store, authority: Pubkey, organization: Pubkey, apiKey: Pubkey, policy: Pubkey, now: i64)
    : Result<Store>
  {
    var _ :- Signed(s, organization, authority);
    var _ :- KeyIn(s, organization, apiKey);
    var _ :- PolicyFor(s, organization, apiKey, policy);
    var runtime, checkpoint := QuotaRuntimePda(apiKey), AuditCheckpointPda(apiKey);
    var _ :- Need(runtime !in s.sessions, AccountOwnedByWrongProgram);
    var done :- Engine.InitializeRuntime(Lookup(s.runtimes, runtime), Lookup(s.checkpoints, checkpoint),
                                         organization, apiKey, policy, now);
    Ok(s.(runtimes := s.runtimes[runtime := done.0], checkpoints := s.checkpoints[checkpoint := done.1]))
  }

  function DelegateGuards(s: Store, authority: Pubkey, organization: Pubkey, apiKey: Pubkey, policy: Pubkey,
                          runtime: Pubkey): (r: Result<RuntimeState>)
    ensures r.Ok? ==> Writable(s, BaseLayer, runtime) == r
  {
    var _ :- Signed(s, organization, authority);
    var _ :- KeyIn(s, organization, apiKey);
    var _ :- PolicyFor(s, organization, apiKey, policy);
    var rt :- Writable(s, BaseLayer, runtime);
    var _ :- Need(runtime == QuotaRuntimePda(apiKey), ConstraintSeeds);
    var _ :- Bound(rt, organization, apiKey);
    var _ :- Need(rt.quotaPolicy == policy, QuotaPolicyMismatch);
    Ok(rt)
  }

  function ExecDelegate(s: Store, authority: Pubkey, organization: Pubkey, apiKey: Pubkey, policy: Pubkey,
                        runtime: Pubkey, validator: Option<Pubkey>, commitFrequencyMs: u32): Result<Store>
  {
    var rt :- DelegateGuards(s, authority, organization, apiKey, policy, runtime);
    var done :- Engine.Delegate(rt, validator, commitFrequencyMs);
    Ok(s.(runtimes := s.runtimes[runtime := done],
          sessions := s.sessions[runtime := Session(done, [], false)]))
  }

  /** No seed checks here: the constraints below are all that ties the accounts together. */
  function ConsumeGuards(s: Store, organization: Pubkey, role: Pubkey, apiKey: Pubkey, policy: Pubkey,
                         rt: RuntimeState): (r: Result<()>)
    ensures r.Ok? ==> role in s.roles && apiKey in s.apiKeys && policy in s.policies
  {
    if organization !in s.organizations || role !in s.roles then Err(AccountNotInitialized)
    else if s.roles[role].organization != organization then Err(RoleOrganizationMismatch)
    else if KeyIn(s, organization, apiKey).Err? then KeyIn(s, organization, apiKey)
    else if s.apiKeys[apiKey].role != role then Err(ApiKeyRoleMismatch)
    else if PolicyFor(s, organization, apiKey, policy).Err? then PolicyFor(s, organization, apiKey, policy)
    else if Bound(rt, organization, apiKey).Err? then Bound(rt, organization, apiKey)
    else Need(rt.quotaPolicy == policy, QuotaPolicyMismatch)
  }

  function ContextOf(s: Store, role: Pubkey, apiKey: Pubkey, policy: Pubkey): Context
    requires role in s.roles && apiKey in s.apiKeys && policy in s.policies
  {
    Context(s.apiKeys[apiKey].active, s.roles[role].policyMask,
            Limits(s.policies[policy].maxRequests, s.policies[policy].windowSeconds))
  }

  function ExecConsume(s: Store, layer: Layer, organization: Pubkey, role: Pubkey, apiKey: Pubkey,
                       policy: Pubkey, runtime: Pubkey, action: u8, now: i64): Result<Store>
  {
    var rt :- Writable(s, layer, runtime);
    var _ :- ConsumeGuards(s, organization, role, apiKey, policy, rt);
    var done :- Engine.Consume(rt, ContextOf(s, role, apiKey, policy), action, now);
    Ok(Written(s, layer, runtime, done))
  }

  /** The account checks shared by both commit instructions; they run on the rollup. */
  function CommitGuards(s: Store, authority: Pubkey, organization: Pubkey, apiKey: Pubkey, runtime: Pubkey)
    : Result<RuntimeState>
  {
    var _ :- Signed(s, organization, authority);
    var _ :- KeyIn(s, organization, apiKey);
    var _ :- Need(runtime in s.runtimes, AccountNotInitialized);
    var _ :- Need(runtime == QuotaRuntimePda(apiKey), ConstraintSeeds);
    var _ :- Bound(Live(s, runtime), organization, apiKey);
    Ok(Live(s, runtime))
  }

  function ExecCommit(s: Store, authority: Pubkey, organization: Pubkey, apiKey: Pubkey,
                      runtime: Pubkey): Result<Store> {
    var rt :- CommitGuards(s, authority, organization, apiKey, runtime);
    var done :- Engine.Commit(rt);
    var _ :- Need(runtime in s.sessions, AccountNotWritable);
    var session := s.sessions[runtime];
    Ok(s.(sessions := s.sessions[runtime := session.(inFlight := session.inFlight + [Snapshot(done, false)])]))
  }

  function ExecCommitAndUndelegate(s: Store, authority: Pubkey, organization: Pubkey, apiKey: Pubkey, runtime: Pubkey)
    : Result<Store>
  {
    var rt :- CommitGuards(s, authority, organization, apiKey, runtime);
    var done :- Engine.CommitAndUndelegate(rt);
    var _ :- Need(runtime in s.sessions, AccountNotWritable);
    var session := s.sessions[runtime];
    Ok(s.(sessions := s.sessions[runtime := Session(done, session.inFlight + [Snapshot(done, true)], true)]))
  }

  function ExecDeliver(s: Store, runtime: Pubkey): Result<Store> {
    var _ :- Need(runtime in s.sessions && s.sessions[runtime].inFlight != [], NothingInFlight);
    var session := s.sessions[runtime];
    var landed := session.inFlight[0];
    Ok(s.(runtimes := s.runtimes[runtime := landed.state],
          sessions := if landed.handsBack then s.sessions - {runtime}
                      else s.sessions[runtime := session.(inFlight := session.inFlight[1..])]))
  }

  function SettleGuards(s: Store, authority: Pubkey, organization: Pubkey, apiKey: Pubkey, runtime: Pubkey,
                        checkpoint: Pubkey): (r: Result<RuntimeState>)
    ensures r.Ok? ==>
      organization in s.organizations && checkpoint in s.checkpoints && Writable(s, BaseLayer, runtime) == r
  {
    var _ :- Signed(s, organization, authority);
    var _ :- KeyIn(s, organization, apiKey);
    var rt :- Writable(s, BaseLayer, runtime);
    var _ :- Need(runtime == QuotaRuntimePda(apiKey), ConstraintSeeds);
    var _ :- Bound(rt, organization, apiKey);
    var _ :- Need(checkpoint in s.checkpoints, AccountNotInitialized);
    var _ :- Need(checkpoint == AuditCheckpointPda(apiKey), ConstraintSeeds);
    var cp := s.checkpoints[checkpoint];
    var _ :- Need(cp.organization == organization && cp.apiKey == apiKey && cp.quotaPolicy == rt.quotaPolicy,
            AuditCheckpointMismatch);
    Ok(rt)
  }

  function ExecSettle(s: Store, authority: Pubkey, organization: Pubkey, apiKey: Pubkey, runtime: Pubkey,
                      checkpoint: Pubkey, now: i64): Result<Store>
  {
    var rt :- SettleGuards(s, authority, organization, apiKey, runtime, checkpoint);
    var done :- Engine.Settle(rt, s.checkpoints[checkpoint], s.organizations[organization], now);
    Ok(s.(organizations := s.organizations[organization := done.organization],
          runtimes := s.runtimes[runtime := done.runtime],
          checkpoints := s.checkpoints[checkpoint := done.checkpoint]))
  }

  // ---------------------------------------------------------------- steps and runs

  function Execute(s: Store, e: Event): Result<Store> {
    match e.instruction
    case CreateOrganization(authority, name, organizationAuthority) =>
      ExecCreateOrganization(s, authority, name, organizationAuthority)
    case CreateRole(authority, organization, name) =>
      ExecCreateRole(s, authority, organization, name, e.now)
    case AttachPolicy(authority, organization, role, mask) =>
      ExecAttachPolicy(s, authority, organization, role, mask)
    case CreateApiKey(authority, organization, role, keyId, displayLabel) =>
      ExecCreateApiKey(s, authority, organization, role, keyId, displayLabel, e.now)
    case CreateQuotaPolicy(authority, organization, apiKey, maxRequests, windowSeconds) =>
      ExecCreateQuotaPolicy(s, authority, organization, apiKey, maxRequests, windowSeconds)
    case InitializeQuotaRuntime(authority, organization, apiKey, policy) =>
      ExecInitialize(s, authority, organization, apiKey, policy, e.now)
    case DelegateQuotaRuntime(authority, organization, apiKey, policy, runtime, validator, commitFrequencyMs) =>
      ExecDelegate(s, authority, organization, apiKey, policy, runtime, validator, commitFrequencyMs)
    case ConsumeRequest(layer, organization, role, apiKey, policy, runtime, action) =>
      ExecConsume(s, layer, organization, role, apiKey, policy, runtime, action, e.now)
    case CommitQuotaRuntime(authority, organization, apiKey, runtime) =>
      ExecCommit(s, authority, organization, apiKey, runtime)
    case CommitAndUndelegateQuotaRuntime(authority, organization, apiKey, runtime) =>
      ExecCommitAndUndelegate(s, authority, organization, apiKey, runtime)
    case SettleRuntimeCheckpoint(authority, organization, apiKey, runtime, checkpoint) =>
      ExecSettle(s, authority, organization, apiKey, runtime, checkpoint, e.now)
    case RevokeApiKey(authority, organization, apiKey) =>
      ExecRevoke(s, authority, organization, apiKey, e.now)
    case Deliver(runtime) =>
      ExecDeliver(s, runtime)
  }

  /** How the history variable follows a step that succeeded. */
  function Recorded(s: Store, s': Store, h: map<Pubkey, History>, e: Event): map<Pubkey, History> {
    match e.instruction
    case InitializeQuotaRuntime(_, _, apiKey, _) => h[QuotaRuntimePda(apiKey) := History(e.now, [])]
    case ConsumeRequest(_, _, role, apiKey, policy, runtime, _) =>
      if runtime in h && runtime in s'.runtimes && role in s.roles && apiKey in s.apiKeys && policy in s.policies then
        var entry := EntryOf(Live(s', runtime), ContextOf(s, role, apiKey, policy));
        h[runtime := h[runtime].(log := h[runtime].log + [entry])]
      else h
    case _ => h
  }

  function Step(w: World, e: Event): Result<World> {
    var s' :- Execute(w.store, e);
    Ok(World(s', Recorded(w.store, s', w.histories, e)))
  }

  /** Failure rolls back every account the instruction touched. */
  function Apply(w: World, e: Event): World {
    if Step(w, e).Ok? then Step(w, e).value else w
  }

  function Run(w: World, events: seq<Event>): World
    decreases |events|
  {
    if events == [] then w else Run(Apply(w, events[0]), events[1..])
  }

  /** Every event of the run succeeds. */
  predicate Succeeds(w: World, events: seq<Event>)
    decreases |events|
  {
    events == [] || (Step(w, events[0]).Ok? && Succeeds(Apply(w, events[0]), events[1..]))
  }

  /** `initialize_gateway` has just run. */
  function Genesis(authority: Pubkey): World {
    World(Store(GatewayState(authority, 0), map[], map[], map[], map[], map[], map[], map[]), map[])
  }

  ghost predicate Reachable(w: World) {
    exists authority, events :: w == Run(Genesis(authority), events)
  }

  // ---------------------------------------------------------------- failures leave no trace

  function Successes(w: World, events: seq<Event>): seq<Event>
    decreases |events|
  {
    if events == [] then []
    else (if Step(w, events[0]).Ok? then [events[0]] else []) + Successes(Apply(w, events[0]), events[1..])
  }

  /** Any run equals the run of its successful events alone, and in that run every event succeeds. */
  lemma {:induction false} FailuresLeaveNoTrace(w: World, events: seq<Event>)
    ensures Succeeds(w, Successes(w, events))
    ensures Run(w, Successes(w, events)) == Run(w, events)
    decreases |events|
  {
    if events == [] {
    } else {
      FailuresLeaveNoTrace(Apply(w, events[0]), events[1..]);
      if Step(w, events[0]).Ok? {
        var rest := Successes(Apply(w, events[0]), events[1..]);
        assert ([events[0]] + rest)[1..] == rest;
      } else {
        assert Successes(w, events) == Successes(w, events[1..]);
      }
    }
  }

  lemma {:induction false} RunConcat(w: World, first: seq<Event>, second: seq<Event>)
    ensures Run(w, first + second) == Run(Run(w, first), second)
    decreases |first|
  {
    if first == [] {
      assert first + second == second;
    } else {
      assert (first + second)[1..] == first[1..] + second;
      RunConcat(Apply(w, first[0]), first[1..], second);
    }
  }

  lemma ReachableStep(w: World, e: Event)
    requires Reachable(w)
    ensures Reachable(Apply(w, e))
  {
    hide Apply;
    var authority, events :| w == Run(Genesis(authority), events);
    RunConcat(Genesis(authority), events, [e]);
    assert Run(w, [e]) == Apply(w, e);
    assert Apply(w, e) == Run(Genesis(authority), events + [e]);
  }
}
