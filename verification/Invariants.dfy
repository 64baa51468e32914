/** What every reachable state keeps: referential integrity of the account store, and the protocol
    invariant of every lane. */
module Invariants {
  import opened Base
  import opened Permissions
  import opened Accounts
  import opened Engine
  import opened AuditLog
  import opened StateMachine
  import opened Lane

  // ---------------------------------------------------------------- the control plane

  ghost predicate OrganizationOk(s: Store, o: Pubkey)
    requires o in s.organizations
  {
    o == OrganizationPda(GatewayPda, s.organizations[o].name)
  }

  ghost predicate RoleOk(s: Store, r: Pubkey)
    requires r in s.roles
  {
    var role := s.roles[r];
    r == RolePda(role.organization, role.name) && role.organization in s.organizations && ValidMask(role.policyMask)
  }

  /** Each key's role exists in the key's organization. */
  ghost predicate KeyOk(s: Store, k: Pubkey)
    requires k in s.apiKeys
  {
    var key := s.apiKeys[k];
    && k == ApiKeyPda(key.organization, key.keyId)
    && key.organization in s.organizations
    && key.role in s.roles && s.roles[key.role].organization == key.organization
  }

  /** Each policy sits at its key's policy address, carries the key's organization, and is positive. */
  ghost predicate PolicyOk(s: Store, p: Pubkey)
    requires p in s.policies
  {
    var policy := s.policies[p];
    && p == QuotaPolicyPda(policy.apiKey)
    && policy.apiKey in s.apiKeys && policy.organization == s.apiKeys[policy.apiKey].organization
    && Positive(Limits(policy.maxRequests, policy.windowSeconds))
  }

  ghost predicate OrganizationsOk(s: Store) { forall o :: o in s.organizations ==> OrganizationOk(s, o) }
  ghost predicate RolesOk(s: Store) { forall r :: r in s.roles ==> RoleOk(s, r) }
  ghost predicate KeysOk(s: Store) { forall k :: k in s.apiKeys ==> KeyOk(s, k) }
  ghost predicate PoliciesOk(s: Store) { forall p :: p in s.policies ==> PolicyOk(s, p) }

  ghost predicate ControlOk(s: Store) {
    OrganizationsOk(s) && RolesOk(s) && KeysOk(s) && PoliciesOk(s)
  }

  lemma RoleAt(s: Store, r: Pubkey)
    requires RolesOk(s) && r in s.roles
    ensures RoleOk(s, r)
  {
  }

  lemma KeyAt(s: Store, k: Pubkey)
    requires KeysOk(s) && k in s.apiKeys
    ensures KeyOk(s, k)
  {
  }

  lemma PolicyAt(s: Store, p: Pubkey)
    requires PoliciesOk(s) && p in s.policies
    ensures PolicyOk(s, p)
  {
  }

  // ---------------------------------------------------------------- runtimes

  /** The part of the store that belongs to one key's runtime. */
  function ViewAt(s: Store, apiKey: Pubkey): LaneView {
    LaneView(Lookup(s.runtimes, QuotaRuntimePda(apiKey)), Lookup(s.sessions, QuotaRuntimePda(apiKey)),
             Lookup(s.checkpoints, AuditCheckpointPda(apiKey)))
  }

  function HistoryAt(w: World, apiKey: Pubkey): Option<History> {
    Lookup(w.histories, QuotaRuntimePda(apiKey))
  }

  /** A runtime names its own key, its key's organization and its key's policy. */
  ghost predicate OwnedBy(s: Store, apiKey: Pubkey, owner: (Pubkey, Pubkey, Pubkey)) {
    && apiKey in s.apiKeys && QuotaPolicyPda(apiKey) in s.policies
    && owner == (s.apiKeys[apiKey].organization, apiKey, QuotaPolicyPda(apiKey))
  }

  ghost predicate RuntimeAt(s: Store, apiKey: Pubkey) {
    var r := QuotaRuntimePda(apiKey);
    r in s.runtimes ==> OwnedBy(s, apiKey, Owner(s.runtimes[r]))
  }

  /** Runtime accounts sit at runtime addresses, checkpoints at checkpoint addresses. */
  ghost predicate Addressed(w: World) {
    && (forall r :: r in w.store.runtimes ==> r.QuotaRuntimePda?)
    && (forall r :: r in w.store.sessions ==> r.QuotaRuntimePda?)
    && (forall r :: r in w.histories ==> r.QuotaRuntimePda?)
    && (forall c :: c in w.store.checkpoints ==> c.AuditCheckpointPda?)
  }

  ghost predicate LaneAt(w: World, apiKey: Pubkey) {
    LaneInv(ViewAt(w.store, apiKey), HistoryAt(w, apiKey)) && RuntimeAt(w.store, apiKey)
  }

  ghost predicate LanesOk(w: World) {
    forall apiKey: Pubkey :: LaneAt(w, apiKey)
  }

  ghost predicate Inv(w: World) {
    ControlOk(w.store) && Addressed(w) && LanesOk(w)
  }

  // ---------------------------------------------------------------- the accounts of a request

  /** The accounts `consume_request` accepts for a key are exactly the ones derived for it. */
  ghost predicate KeyAccounts(s: Store, organization: Pubkey, role: Pubkey, apiKey: Pubkey, policy: Pubkey,
                              runtime: Pubkey)
  {
    && apiKey in s.apiKeys
    && organization == s.apiKeys[apiKey].organization && role == s.apiKeys[apiKey].role
    && policy == QuotaPolicyPda(apiKey) && runtime == QuotaRuntimePda(apiKey)
  }

  lemma GuardsPickTuple(s: Store, organization: Pubkey, role: Pubkey, apiKey: Pubkey, policy: Pubkey,
                        runtime: Pubkey, rt: RuntimeState)
    requires runtime.QuotaRuntimePda? && OwnedBy(s, runtime.apiKey, Owner(rt))
    requires apiKey in s.apiKeys ==> KeyOk(s, apiKey)
    requires QuotaPolicyPda(runtime.apiKey) in s.policies ==> PolicyOk(s, QuotaPolicyPda(runtime.apiKey))
    ensures ConsumeGuards(s, organization, role, apiKey, policy, rt).Ok?
       <==> KeyAccounts(s, organization, role, apiKey, policy, runtime)
  {
  }

  lemma WritableIsOwned(w: World, layer: Layer, runtime: Pubkey)
    requires Addressed(w) && LanesOk(w) && Writable(w.store, layer, runtime).Ok?
    ensures runtime.QuotaRuntimePda? && OwnedBy(w.store, runtime.apiKey, Owner(Writable(w.store, layer, runtime).value))
  {
    assert LaneAt(w, runtime.apiKey);
  }

  /** None of `consume_request`'s constraints checks a seed, yet in every state that satisfies the
      invariant they accept one organization, role, policy and runtime per key, and no others. */
  lemma ConsumeAdmitsOneTuple(w: World, layer: Layer, organization: Pubkey, role: Pubkey, apiKey: Pubkey,
                              policy: Pubkey, runtime: Pubkey)
    requires Inv(w) && Writable(w.store, layer, runtime).Ok?
    ensures ConsumeGuards(w.store, organization, role, apiKey, policy, Writable(w.store, layer, runtime).value).Ok?
       <==> KeyAccounts(w.store, organization, role, apiKey, policy, runtime)
  {
    WritableIsOwned(w, layer, runtime);
    GuardsPickTuple(w.store, organization, role, apiKey, policy, runtime, Writable(w.store, layer, runtime).value);
  }

  // ---------------------------------------------------------------- control plane steps

  predicate IsControlPlane(i: Instruction) {
    || i.CreateOrganization? || i.CreateRole? || i.AttachPolicy?
    || i.CreateApiKey? || i.CreateQuotaPolicy? || i.RevokeApiKey?
  }

  /** The runtime part of the store is untouched. */
  predicate SameRuntimes(s: Store, s': Store) {
    s'.runtimes == s.runtimes && s'.checkpoints == s.checkpoints && s'.sessions == s.sessions
  }

  /** A key changes at most by being revoked, and once revoked not at all. */
  predicate KeyEvolves(key: ApiKeyState, key': ApiKeyState) {
    key'.(active := key.active, revokedAt := key.revokedAt) == key && (!key.active ==> key' == key)
  }

  /** Accounts only ever appear, roles keep their organization, and keys only get revoked. */
  ghost predicate Grows(s: Store, s': Store) {
    && s.organizations.Keys <= s'.organizations.Keys
    && (forall r :: r in s.roles ==> r in s'.roles && s'.roles[r].organization == s.roles[r].organization)
    && (forall k :: k in s.apiKeys ==> k in s'.apiKeys && KeyEvolves(s.apiKeys[k], s'.apiKeys[k]))
    && s.policies.Keys <= s'.policies.Keys
  }

  /** Organizations are all still there under the same names, and none is new. */
  ghost predicate SameNames(s: Store, s': Store) {
    forall o :: o in s'.organizations ==> o in s.organizations && s'.organizations[o].name == s.organizations[o].name
  }

  lemma OrganizationsKept(s: Store, s': Store)
    requires OrganizationsOk(s) && SameNames(s, s')
    ensures OrganizationsOk(s')
  {
  }

  lemma RolesKept(s: Store, s': Store)
    requires RolesOk(s) && s'.roles == s.roles && s.organizations.Keys <= s'.organizations.Keys
    ensures RolesOk(s')
  {
  }

  lemma KeysKept(s: Store, s': Store)
    requires KeysOk(s) && s'.apiKeys == s.apiKeys && Grows(s, s')
    ensures KeysOk(s')
  {
  }

  lemma PoliciesKept(s: Store, s': Store)
    requires PoliciesOk(s) && s'.policies == s.policies && Grows(s, s')
    ensures PoliciesOk(s')
  {
  }

  lemma RoleWritten(s: Store, s': Store, r: Pubkey, role: RoleState)
    requires RolesOk(s) && s'.roles == s.roles[r := role] && s.organizations.Keys <= s'.organizations.Keys
    requires RoleOk(s', r)
    ensures RolesOk(s')
  {
  }

  lemma KeyWritten(s: Store, s': Store, k: Pubkey, key: ApiKeyState)
    requires KeysOk(s) && s'.apiKeys == s.apiKeys[k := key] && Grows(s, s')
    requires KeyOk(s', k)
    ensures KeysOk(s')
  {
  }

  lemma PolicyWritten(s: Store, s': Store, p: Pubkey, policy: PolicyState)
    requires PoliciesOk(s) && s'.policies == s.policies[p := policy] && Grows(s, s')
    requires PolicyOk(s', p)
    ensures PoliciesOk(s')
  {
  }

  ghost predicate ControlStep(s: Store, s': Store) {
    Grows(s, s') && SameRuntimes(s, s') && ControlOk(s')
  }

  lemma CreateOrganizationStep(s: Store, authority: Pubkey, name: Bytes, orgAuthority: Pubkey, s': Store)
    requires ControlOk(s) && ExecCreateOrganization(s, authority, name, orgAuthority) == Ok(s')
    ensures ControlStep(s, s') && s'.policies == s.policies
  {
    hide RolesOk, KeysOk, PoliciesOk;
    forall o | o in s'.organizations ensures OrganizationOk(s', o) {
      if o in s.organizations { assert OrganizationOk(s, o); }
    }
    RolesKept(s, s');
    KeysKept(s, s');
    PoliciesKept(s, s');
  }

  lemma EmptyMaskIsValid()
    ensures ValidMask(0)
  {
  }

  lemma CreateRoleStep(s: Store, authority: Pubkey, organization: Pubkey, name: Bytes, now: i64, s': Store)
    requires ControlOk(s) && ExecCreateRole(s, authority, organization, name, now) == Ok(s')
    ensures ControlStep(s, s') && s'.policies == s.policies
  {
    hide OrganizationsOk, RolesOk, KeysOk, PoliciesOk, ValidMask;
    var r := RolePda(organization, name);
    EmptyMaskIsValid();
    OrganizationsKept(s, s');
    RoleWritten(s, s', r, s'.roles[r]);
    KeysKept(s, s');
    PoliciesKept(s, s');
  }

  lemma AttachPolicyStep(s: Store, authority: Pubkey, organization: Pubkey, role: Pubkey, mask: Mask, s': Store)
    requires ControlOk(s) && ExecAttachPolicy(s, authority, organization, role, mask) == Ok(s')
    ensures ControlStep(s, s') && s'.policies == s.policies
  {
    hide OrganizationsOk, RolesOk, KeysOk, PoliciesOk, ValidMask;
    OrganizationsKept(s, s');
    RoleWritten(s, s', role, s'.roles[role]);
    KeysKept(s, s');
    PoliciesKept(s, s');
  }

  lemma CreateApiKeyStep(s: Store, authority: Pubkey, organization: Pubkey, role: Pubkey, keyId: Pubkey,
                         displayLabel: Bytes, now: i64, s': Store)
    requires ControlOk(s) && ExecCreateApiKey(s, authority, organization, role, keyId, displayLabel, now) == Ok(s')
    ensures ControlStep(s, s') && s'.policies == s.policies
  {
    hide OrganizationsOk, RolesOk, KeysOk, PoliciesOk, ValidMask;
    var k := ApiKeyPda(organization, keyId);
    OrganizationsKept(s, s');
    RolesKept(s, s');
    KeyWritten(s, s', k, s'.apiKeys[k]);
    PoliciesKept(s, s');
  }

  lemma CreateQuotaPolicyStep(s: Store, authority: Pubkey, organization: Pubkey, apiKey: Pubkey,
                              maxRequests: u64, windowSeconds: i64, s': Store)
    requires ControlOk(s)
    requires ExecCreateQuotaPolicy(s, authority, organization, apiKey, maxRequests, windowSeconds) == Ok(s')
    ensures ControlStep(s, s')
    ensures s'.policies
         == s.policies[QuotaPolicyPda(apiKey) := PolicyState(organization, apiKey, maxRequests, windowSeconds)]
  {
    hide OrganizationsOk, RolesOk, KeysOk, PoliciesOk, ValidMask;
    var p := QuotaPolicyPda(apiKey);
    OrganizationsKept(s, s');
    RolesKept(s, s');
    KeysKept(s, s');
    PolicyWritten(s, s', p, s'.policies[p]);
  }

  lemma RevokeStep(s: Store, authority: Pubkey, organization: Pubkey, apiKey: Pubkey, now: i64, s': Store)
    requires ControlOk(s) && ExecRevoke(s, authority, organization, apiKey, now) == Ok(s')
    ensures ControlStep(s, s') && s'.policies == s.policies
  {
    hide OrganizationsOk, RolesOk, KeysOk, PoliciesOk, ValidMask;
    OrganizationsKept(s, s');
    RolesKept(s, s');
    KeyAt(s, apiKey);
    KeyWritten(s, s', apiKey, s'.apiKeys[apiKey]);
    PoliciesKept(s, s');
  }

  /** Policies change by configuration only. */
  function Reconfigured(policies: map<Pubkey, PolicyState>, i: Instruction): map<Pubkey, PolicyState> {
    if i.CreateQuotaPolicy? then
      policies[QuotaPolicyPda(i.apiKey) := PolicyState(i.organization, i.apiKey, i.maxRequests, i.windowSeconds)]
    else policies
  }

  lemma ControlPlaneStep(s: Store, e: Event, s': Store)
    requires ControlOk(s) && IsControlPlane(e.instruction) && Execute(s, e) == Ok(s')
    ensures ControlStep(s, s')
    ensures s'.policies == Reconfigured(s.policies, e.instruction)
  {
    match e.instruction
    case CreateOrganization(authority, name, orgAuthority) =>
      CreateOrganizationStep(s, authority, name, orgAuthority, s');
    case CreateRole(authority, organization, name) => CreateRoleStep(s, authority, organization, name, e.now, s');
    case AttachPolicy(authority, organization, role, mask) =>
      AttachPolicyStep(s, authority, organization, role, mask, s');
    case CreateApiKey(authority, organization, role, keyId, displayLabel) =>
      CreateApiKeyStep(s, authority, organization, role, keyId, displayLabel, e.now, s');
    case CreateQuotaPolicy(authority, organization, apiKey, maxRequests, windowSeconds) =>
      CreateQuotaPolicyStep(s, authority, organization, apiKey, maxRequests, windowSeconds, s');
    case RevokeApiKey(authority, organization, apiKey) => RevokeStep(s, authority, organization, apiKey, e.now, s');
  }

  // ---------------------------------------------------------------- runtime steps

  /** The control plane is untouched, but for settlement counters. */
  ghost predicate SameControlPlane(s: Store, s': Store) {
    && s'.gateway == s.gateway && s'.roles == s.roles && s'.apiKeys == s.apiKeys && s'.policies == s.policies
    && s'.organizations.Keys == s.organizations.Keys
    && (forall o :: o in s.organizations ==>
          s'.organizations[o].(settlementCount := 0) == s.organizations[o].(settlementCount := 0))
  }

  lemma ControlUntouched(s: Store, s': Store)
    requires ControlOk(s) && SameControlPlane(s, s')
    ensures ControlOk(s') && Grows(s, s')
  {
    hide OrganizationsOk, RolesOk, KeysOk, PoliciesOk;
    RolesKept(s, s');
    KeysKept(s, s');
    PoliciesKept(s, s');
    forall o | o in s'.organizations ensures s'.organizations[o].name == s.organizations[o].name {
      assert s'.organizations[o].(settlementCount := 0).name == s.organizations[o].(settlementCount := 0).name;
    }
    OrganizationsKept(s, s');
  }

  /** The key whose lane a runtime instruction works on. */
  function LaneKey(i: Instruction): Pubkey
    requires !IsControlPlane(i)
  {
    match i
    case InitializeQuotaRuntime(_, _, apiKey, _) => apiKey
    case DelegateQuotaRuntime(_, _, apiKey, _, _, _, _) => apiKey
    case ConsumeRequest(_, _, _, apiKey, _, _, _) => apiKey
    case CommitQuotaRuntime(_, _, apiKey, _) => apiKey
    case CommitAndUndelegateQuotaRuntime(_, _, apiKey, _) => apiKey
    case SettleRuntimeCheckpoint(_, _, apiKey, _, _) => apiKey
    case Deliver(runtime) => if runtime.QuotaRuntimePda? then runtime.apiKey else runtime
  }

  /** What a runtime instruction does to its lane, given what it reads from the control plane. */
  function OpOf(s: Store, i: Instruction): LaneOp
    requires !IsControlPlane(i)
    requires i.ConsumeRequest? ==> i.role in s.roles && i.apiKey in s.apiKeys && i.policy in s.policies
  {
    match i
    case InitializeQuotaRuntime(_, organization, apiKey, policy) => InitializeOp(organization, apiKey, policy)
    case DelegateQuotaRuntime(_, _, _, _, _, validator, ms) => DelegateOp(validator, ms)
    case ConsumeRequest(layer, _, role, apiKey, policy, _, action) =>
      ConsumeOp(layer, ContextOf(s, role, apiKey, policy), action)
    case CommitQuotaRuntime(_, _, _, _) => CommitOp
    case CommitAndUndelegateQuotaRuntime(_, _, _, _) => UndelegateOp
    case SettleRuntimeCheckpoint(_, _, _, _, _) => SettleOp
    case Deliver(_) => DeliverOp
  }

  /** No lane but this key's is touched, and nothing outside the lanes. */
  ghost predicate Local(s: Store, s': Store, k: Pubkey) {
    && SameControlPlane(s, s')
    && (forall j: Pubkey :: j != k ==> ViewAt(s', j) == ViewAt(s, j))
    && s'.runtimes.Keys <= s.runtimes.Keys + {QuotaRuntimePda(k)}
    && s'.sessions.Keys <= s.sessions.Keys + {QuotaRuntimePda(k)}
    && s'.checkpoints.Keys <= s.checkpoints.Keys + {AuditCheckpointPda(k)}
  }

  ghost predicate RefinesLane(s: Store, s': Store, k: Pubkey, op: LaneOp, now: i64) {
    Local(s, s', k) && LaneStep(ViewAt(s, k), op, now, ViewAt(s', k)) && SoundContext(op)
  }

  lemma InitializeRefines(s: Store, authority: Pubkey, organization: Pubkey, apiKey: Pubkey, policy: Pubkey, now: i64,
                          s': Store)
    requires ExecInitialize(s, authority, organization, apiKey, policy, now) == Ok(s')
    ensures RefinesLane(s, s', apiKey, InitializeOp(organization, apiKey, policy), now)
    ensures s'.organizations == s.organizations
  {
  }

  lemma DelegateRefines(s: Store, authority: Pubkey, organization: Pubkey, apiKey: Pubkey, policy: Pubkey,
                        runtime: Pubkey, validator: Option<Pubkey>, ms: u32, now: i64, s': Store)
    requires ExecDelegate(s, authority, organization, apiKey, policy, runtime, validator, ms) == Ok(s')
    ensures RefinesLane(s, s', apiKey, DelegateOp(validator, ms), now)
    ensures s'.organizations == s.organizations
  {
  }

  lemma ConsumeRefines(w: World, layer: Layer, organization: Pubkey, role: Pubkey, apiKey: Pubkey, policy: Pubkey,
                       runtime: Pubkey, action: u8, now: i64, s': Store)
    requires Inv(w)
    requires ExecConsume(w.store, layer, organization, role, apiKey, policy, runtime, action, now) == Ok(s')
    ensures KeyAccounts(w.store, organization, role, apiKey, policy, runtime)
    ensures role in w.store.roles && policy in w.store.policies
    ensures RefinesLane(w.store, s', apiKey, ConsumeOp(layer, ContextOf(w.store, role, apiKey, policy), action), now)
    ensures s'.organizations == w.store.organizations
  {
    hide OrganizationsOk, RolesOk, KeysOk, PoliciesOk, LanesOk, ValidMask, Consume;
    ConsumeAdmitsOneTuple(w, layer, organization, role, apiKey, policy, runtime);
    RoleAt(w.store, role);
    PolicyAt(w.store, policy);
  }

  lemma CommitRefines(s: Store, authority: Pubkey, organization: Pubkey, apiKey: Pubkey, runtime: Pubkey, now: i64,
                      s': Store)
    requires ExecCommit(s, authority, organization, apiKey, runtime) == Ok(s')
    ensures RefinesLane(s, s', apiKey, CommitOp, now)
    ensures s'.organizations == s.organizations
  {
  }

  lemma UndelegateRefines(s: Store, authority: Pubkey, organization: Pubkey, apiKey: Pubkey, runtime: Pubkey,
                          now: i64, s': Store)
    requires ExecCommitAndUndelegate(s, authority, organization, apiKey, runtime) == Ok(s')
    ensures RefinesLane(s, s', apiKey, UndelegateOp, now)
    ensures s'.organizations == s.organizations
  {
  }

  function CountedSettlement(organizations: map<Pubkey, OrganizationState>, o: Pubkey): map<Pubkey, OrganizationState>
    requires o in organizations
  {
    var n := organizations[o].settlementCount;
    if n == MAX_U64 then organizations else organizations[o := organizations[o].(settlementCount := n + 1)]
  }

  lemma SettleRefines(s: Store, authority: Pubkey, organization: Pubkey, apiKey: Pubkey, runtime: Pubkey,
                      checkpoint: Pubkey, now: i64, s': Store)
    requires ExecSettle(s, authority, organization, apiKey, runtime, checkpoint, now) == Ok(s')
    ensures RefinesLane(s, s', apiKey, SettleOp, now)
    ensures organization in s.organizations && s'.organizations == CountedSettlement(s.organizations, organization)
  {
    hide SettleGuards;
    SettleChecked(s, authority, organization, apiKey, runtime, checkpoint);
  }

  lemma SettleChecked(s: Store, authority: Pubkey, organization: Pubkey, apiKey: Pubkey, runtime: Pubkey,
                      checkpoint: Pubkey)
    requires SettleGuards(s, authority, organization, apiKey, runtime, checkpoint).Ok?
    ensures organization in s.organizations && checkpoint in s.checkpoints
    ensures runtime == QuotaRuntimePda(apiKey) && checkpoint == AuditCheckpointPda(apiKey)
    ensures runtime in s.runtimes && runtime !in s.sessions
    ensures SettleGuards(s, authority, organization, apiKey, runtime, checkpoint) == Ok(s.runtimes[runtime])
  {
  }

  lemma DeliverRefines(s: Store, apiKey: Pubkey, now: i64, s': Store)
    requires ExecDeliver(s, QuotaRuntimePda(apiKey)) == Ok(s')
    requires QuotaRuntimePda(apiKey) in s.runtimes
    ensures RefinesLane(s, s', apiKey, DeliverOp, now)
    ensures s'.organizations == s.organizations
  {
  }

  /** Every runtime instruction is one operation of one key's lane. */
  lemma RuntimeStep(w: World, e: Event, s': Store)
    requires Inv(w) && !IsControlPlane(e.instruction) && Execute(w.store, e) == Ok(s')
    ensures var i := e.instruction;
      && (i.ConsumeRequest? ==> KeyAccounts(w.store, i.organization, i.role, i.apiKey, i.policy, i.runtime)
                                && i.role in w.store.roles && i.policy in w.store.policies)
      && RefinesLane(w.store, s', LaneKey(i), OpOf(w.store, i), e.now)
    ensures var i := e.instruction;
      if i.SettleRuntimeCheckpoint? then
        && i.organization in w.store.organizations
        && s'.organizations == CountedSettlement(w.store.organizations, i.organization)
      else s'.organizations == w.store.organizations
  {
    var s := w.store;
    match e.instruction
    case InitializeQuotaRuntime(authority, organization, apiKey, policy) =>
      InitializeRefines(s, authority, organization, apiKey, policy, e.now, s');
    case DelegateQuotaRuntime(authority, organization, apiKey, policy, runtime, validator, ms) =>
      DelegateRefines(s, authority, organization, apiKey, policy, runtime, validator, ms, e.now, s');
    case ConsumeRequest(layer, organization, role, apiKey, policy, runtime, action) =>
      ConsumeRefines(w, layer, organization, role, apiKey, policy, runtime, action, e.now, s');
    case CommitQuotaRuntime(authority, organization, apiKey, runtime) =>
      CommitRefines(s, authority, organization, apiKey, runtime, e.now, s');
    case CommitAndUndelegateQuotaRuntime(authority, organization, apiKey, runtime) =>
      UndelegateRefines(s, authority, organization, apiKey, runtime, e.now, s');
    case SettleRuntimeCheckpoint(authority, organization, apiKey, runtime, checkpoint) =>
      SettleRefines(s, authority, organization, apiKey, runtime, checkpoint, e.now, s');
    case Deliver(runtime) =>
      assert LaneAt(w, runtime.apiKey);
      DeliverRefines(s, runtime.apiKey, e.now, s');
  }

  // ---------------------------------------------------------------- every step keeps the invariant

  lemma StaysOwned(s: Store, s': Store, k: Pubkey)
    requires RuntimeAt(s, k) && Grows(s, s')
    requires Lookup(s'.runtimes, QuotaRuntimePda(k)) == Lookup(s.runtimes, QuotaRuntimePda(k))
    ensures RuntimeAt(s', k)
  {
  }

  lemma ControlStepKeepsInv(w: World, e: Event)
    requires Inv(w) && IsControlPlane(e.instruction) && Step(w, e).Ok?
    ensures Inv(Step(w, e).value)
    ensures ControlStep(w.store, Step(w, e).value.store)
    ensures Step(w, e).value.histories == w.histories
    ensures Step(w, e).value.store.policies == Reconfigured(w.store.policies, e.instruction)
  {
    hide ControlOk, Execute;
    var w' := Step(w, e).value;
    ControlPlaneStep(w.store, e, w'.store);
    forall k: Pubkey ensures LaneAt(w', k) {
      assert LaneAt(w, k);
      StaysOwned(w.store, w'.store, k);
    }
  }

  /** The history of the touched lane follows the operation; every other history stays. */
  lemma HistoryFollows(w: World, e: Event)
    requires Inv(w) && !IsControlPlane(e.instruction) && Step(w, e).Ok?
    requires e.instruction.ConsumeRequest? ==>
      && e.instruction.role in w.store.roles && e.instruction.apiKey in w.store.apiKeys
      && e.instruction.policy in w.store.policies
    requires e.instruction.ConsumeRequest? ==> e.instruction.runtime == QuotaRuntimePda(e.instruction.apiKey)
    ensures var w' := Step(w, e).value;
      var k := LaneKey(e.instruction);
      && HistoryAt(w', k) == Remembered(HistoryAt(w, k), OpOf(w.store, e.instruction), e.now, ViewAt(w'.store, k))
      && (forall j: Pubkey :: j != k ==> HistoryAt(w', j) == HistoryAt(w, j))
      && w'.histories.Keys <= w.histories.Keys + {QuotaRuntimePda(k)}
  {
    hide ControlOk, Execute, LanesOk;
  }

  lemma OwnedAfter(s: Store, i: Instruction)
    requires i.InitializeQuotaRuntime? && ControlOk(s)
    requires KeyIn(s, i.organization, i.apiKey).Ok? && PolicyFor(s, i.organization, i.apiKey, i.policy).Ok?
    ensures OwnedBy(s, i.apiKey, (i.organization, i.apiKey, i.policy))
  {
    hide OrganizationsOk, RolesOk, KeysOk, PoliciesOk, ValidMask;
    PolicyAt(s, i.policy);
  }

  /** The lane a runtime instruction works on stays in order, and the accounts it names stay its key's own. */
  lemma LaneKept(w: World, e: Event)
    requires Inv(w) && !IsControlPlane(e.instruction) && Step(w, e).Ok?
    ensures LaneAt(Step(w, e).value, LaneKey(e.instruction))
  {
    hide ControlOk, Execute, LaneInv, LaneStep, LaneOk;
    var i := e.instruction;
    var w' := Step(w, e).value;
    var k := LaneKey(i);
    RuntimeStep(w, e, w'.store);
    ControlUntouched(w.store, w'.store);
    HistoryFollows(w, e);
    var op := OpOf(w.store, i);
    assert LaneAt(w, k);
    LaneInvKept(ViewAt(w.store, k), HistoryAt(w, k), op, e.now, ViewAt(w'.store, k));
    if i.InitializeQuotaRuntime? {
      InitializeChecked(w.store, e);
      OwnedAfter(w.store, i);
    } else {
      BaseWasThere(ViewAt(w.store, k), op, e.now, ViewAt(w'.store, k));
    }
  }

  lemma RuntimeStepKeepsInv(w: World, e: Event)
    requires Inv(w) && !IsControlPlane(e.instruction) && Step(w, e).Ok?
    ensures Inv(Step(w, e).value)
    ensures SameControlPlane(w.store, Step(w, e).value.store)
  {
    hide ControlOk, Execute, LaneInv, LaneStep, LaneOk, ContextOf;
    var w' := Step(w, e).value;
    var k := LaneKey(e.instruction);
    RuntimeStep(w, e, w'.store);
    ControlUntouched(w.store, w'.store);
    HistoryFollows(w, e);
    LaneKept(w, e);
    forall j: Pubkey ensures LaneAt(w', j) {
      assert LaneAt(w, j);
      if j != k {
        StaysOwned(w.store, w'.store, j);
      }
    }
  }

  lemma InitializeChecked(s: Store, e: Event)
    requires e.instruction.InitializeQuotaRuntime? && Execute(s, e).Ok?
    ensures var i := e.instruction;
      KeyIn(s, i.organization, i.apiKey).Ok? && PolicyFor(s, i.organization, i.apiKey, i.policy).Ok?
  {
  }

  lemma BaseWasThere(v: LaneView, op: LaneOp, now: i64, v': LaneView)
    requires LaneStep(v, op, now, v') && !op.InitializeOp?
    ensures v.base.Some?
  {
  }

  lemma InvKept(w: World, e: Event)
    requires Inv(w)
    ensures Inv(Apply(w, e))
  {
    hide Inv, Execute;
    if Step(w, e).Ok? {
      if IsControlPlane(e.instruction) {
        ControlStepKeepsInv(w, e);
      } else {
        RuntimeStepKeepsInv(w, e);
      }
    }
  }

  lemma {:induction false} InvAlongRun(w: World, events: seq<Event>)
    requires Inv(w)
    ensures Inv(Run(w, events))
    decreases |events|
  {
    hide Inv, Execute;
    if events == [] {
    } else {
      InvKept(w, events[0]);
      InvAlongRun(Apply(w, events[0]), events[1..]);
    }
  }

  lemma GenesisInv(authority: Pubkey)
    ensures Inv(Genesis(authority))
  {
  }

  /** Every reachable state has referential integrity, and every runtime in it satisfies the protocol
      invariant with respect to the full history of its decisions. */
  lemma ReachableInv(w: World)
    requires Reachable(w)
    ensures Inv(w)
  {
    var authority, events :| w == Run(Genesis(authority), events);
    GenesisInv(authority);
    InvAlongRun(Genesis(authority), events);
  }
}
