/** Isolation as projection: what happens to one key in a run over many keys and tenants is what happens
    in the run that keeps only that key's events and the set-up they depend on. */
module Isolation {
  import opened Base
  import opened Permissions
  import opened Accounts
  import opened StateMachine
  import opened Lane
  import opened Invariants
  import opened Guarantees
  import opened Instructions

  // ---------------------------------------------------------------- projection

  /** Key `k` depends on its own organization's creation, on its role, and on events that name it. */
  predicate Concerns(i: Instruction, k: Pubkey, role: Pubkey)
    requires k.ApiKeyPda?
  {
    match i
    case CreateOrganization(_, name, _) => OrganizationPda(GatewayPda, name) == k.organization
    case CreateRole(_, organization, name) => RolePda(organization, name) == role
    case AttachPolicy(_, _, r, _) => r == role
    case CreateApiKey(_, organization, _, keyId, _) => ApiKeyPda(organization, keyId) == k
    case CreateQuotaPolicy(_, _, apiKey, _, _) => apiKey == k
    case RevokeApiKey(_, _, apiKey) => apiKey == k
    case _ => LaneKey(i) == k
  }

  function Project(events: seq<Event>, k: Pubkey, role: Pubkey): seq<Event>
    requires k.ApiKeyPda?
  {
    if events == [] then []
    else (if Concerns(events[0].instruction, k, role) then [events[0]] else []) + Project(events[1..], k, role)
  }

  /** Two organizations that differ at most in that the second counts less. */
  predicate CountsLess(a: Option<OrganizationState>, b: Option<OrganizationState>) {
    if a.None? then b.None?
    else
      && b.Some?
      && b.value.authority == a.value.authority && b.value.name == a.value.name
      && b.value.roleCount <= a.value.roleCount && b.value.apiKeyCount <= a.value.apiKeyCount
      && b.value.settlementCount <= a.value.settlementCount
  }

  /** The second store holds the same for `k` as the first. */
  ghost predicate Agree(s: Store, t: Store, k: Pubkey, role: Pubkey)
    requires k.ApiKeyPda?
  {
    && t.gateway.authority == s.gateway.authority && t.gateway.organizationCount <= s.gateway.organizationCount
    && CountsLess(Lookup(s.organizations, k.organization), Lookup(t.organizations, k.organization))
    && Lookup(t.roles, role) == Lookup(s.roles, role)
    && Lookup(t.apiKeys, k) == Lookup(s.apiKeys, k)
    && Lookup(t.policies, QuotaPolicyPda(k)) == Lookup(s.policies, QuotaPolicyPda(k))
    && ViewAt(t, k) == ViewAt(s, k)
  }

  ghost predicate OneKey(k: Pubkey, role: Pubkey) {
    k.ApiKeyPda? && role.RolePda? && role.organization == k.organization
  }

  ghost predicate Follows(s': Store, t': Result<Store>, k: Pubkey, role: Pubkey)
    requires k.ApiKeyPda?
  {
    t'.Ok? && Agree(s', t'.value, k, role)
  }

  // ---------------------------------------------------------------- events that concern the key

  lemma CreateOrganizationFollows(s: Store, t: Store, k: Pubkey, role: Pubkey, authority: Pubkey, name: Bytes,
                                  orgAuthority: Pubkey, s': Store)
    requires OneKey(k, role) && Agree(s, t, k, role) && OrganizationPda(GatewayPda, name) == k.organization
    requires ExecCreateOrganization(s, authority, name, orgAuthority) == Ok(s')
    ensures Follows(s', ExecCreateOrganization(t, authority, name, orgAuthority), k, role)
  {
  }

  lemma CreateRoleFollows(s: Store, t: Store, k: Pubkey, role: Pubkey, authority: Pubkey, organization: Pubkey,
                          name: Bytes, now: i64, s': Store)
    requires OneKey(k, role) && Agree(s, t, k, role) && RolePda(organization, name) == role
    requires ExecCreateRole(s, authority, organization, name, now) == Ok(s')
    ensures Follows(s', ExecCreateRole(t, authority, organization, name, now), k, role)
  {
  }

  lemma AttachPolicyFollows(s: Store, t: Store, k: Pubkey, role: Pubkey, authority: Pubkey, organization: Pubkey,
                            mask: Mask, s': Store)
    requires OneKey(k, role) && Agree(s, t, k, role)
    requires ExecAttachPolicy(s, authority, organization, role, mask) == Ok(s')
    ensures Follows(s', ExecAttachPolicy(t, authority, organization, role, mask), k, role)
  {
    hide ValidMask;
  }

  lemma CreateApiKeyGuardsFollow(s: Store, t: Store, k: Pubkey, role: Pubkey, authority: Pubkey,
                                 organization: Pubkey)
    requires OneKey(k, role) && Agree(s, t, k, role) && organization == k.organization
    requires CreateApiKeyGuards(s, authority, organization, role).Ok?
    ensures CreateApiKeyGuards(t, authority, organization, role).Ok?
  {
  }

  lemma CreateApiKeyFollows(s: Store, t: Store, k: Pubkey, role: Pubkey, authority: Pubkey, organization: Pubkey,
                            keyId: Pubkey, displayLabel: Bytes, now: i64, s': Store)
    requires OneKey(k, role) && Agree(s, t, k, role) && ApiKeyPda(organization, keyId) == k
    requires ExecCreateApiKey(s, authority, organization, role, keyId, displayLabel, now) == Ok(s')
    ensures Follows(s', ExecCreateApiKey(t, authority, organization, role, keyId, displayLabel, now), k, role)
  {
    hide CreateApiKeyGuards;
    CreateApiKeyGuardsFollow(s, t, k, role, authority, organization);
  }

  lemma CreateQuotaPolicyFollows(s: Store, t: Store, k: Pubkey, role: Pubkey, authority: Pubkey, organization: Pubkey,
                                 maxRequests: u64, windowSeconds: i64, s': Store)
    requires OneKey(k, role) && Agree(s, t, k, role) && (k in s.apiKeys ==> KeyOk(s, k))
    requires ExecCreateQuotaPolicy(s, authority, organization, k, maxRequests, windowSeconds) == Ok(s')
    ensures Follows(s', ExecCreateQuotaPolicy(t, authority, organization, k, maxRequests, windowSeconds), k, role)
  {
  }

  lemma RevokeFollows(s: Store, t: Store, k: Pubkey, role: Pubkey, authority: Pubkey, organization: Pubkey, now: i64,
                      s': Store)
    requires OneKey(k, role) && Agree(s, t, k, role)
    requires ExecRevoke(s, authority, organization, k, now) == Ok(s')
    ensures Follows(s', ExecRevoke(t, authority, organization, k, now), k, role)
  {
  }

  lemma InitializeFollows(s: Store, t: Store, k: Pubkey, role: Pubkey, authority: Pubkey, organization: Pubkey,
                          policy: Pubkey, now: i64, s': Store)
    requires OneKey(k, role) && Agree(s, t, k, role)
    requires (k in s.apiKeys ==> KeyOk(s, k)) && (policy in s.policies ==> PolicyOk(s, policy))
    requires ExecInitialize(s, authority, organization, k, policy, now) == Ok(s')
    ensures Follows(s', ExecInitialize(t, authority, organization, k, policy, now), k, role)
  {
  }

  /** The checks on accounts that belong to the key come out the same. */
  lemma ChecksFollow(s: Store, t: Store, k: Pubkey, role: Pubkey, authority: Pubkey, organization: Pubkey)
    requires OneKey(k, role) && Agree(s, t, k, role) && (k in s.apiKeys ==> KeyOk(s, k))
    ensures KeyIn(t, organization, k) == KeyIn(s, organization, k)
    ensures KeyIn(s, organization, k).Ok? && Signed(s, organization, authority).Ok? ==>
      organization in s.organizations && organization == k.organization && Signed(t, organization, authority).Ok?
  {
  }

  lemma PolicyFollows(s: Store, t: Store, k: Pubkey, role: Pubkey, organization: Pubkey, policy: Pubkey)
    requires OneKey(k, role) && Agree(s, t, k, role) && (policy in s.policies ==> PolicyOk(s, policy))
    requires PolicyFor(s, organization, k, policy).Ok?
    ensures PolicyFor(t, organization, k, policy).Ok?
  {
  }

  lemma DelegateGuardsFollow(s: Store, t: Store, k: Pubkey, role: Pubkey, authority: Pubkey, organization: Pubkey,
                             policy: Pubkey, runtime: Pubkey)
    requires OneKey(k, role) && Agree(s, t, k, role)
    requires (k in s.apiKeys ==> KeyOk(s, k)) && (policy in s.policies ==> PolicyOk(s, policy))
    requires DelegateGuards(s, authority, organization, k, policy, runtime).Ok?
    ensures runtime == QuotaRuntimePda(k)
    ensures DelegateGuards(t, authority, organization, k, policy, runtime)
         == DelegateGuards(s, authority, organization, k, policy, runtime)
  {
    hide Signed, KeyIn, PolicyFor, CountsLess;
    ChecksFollow(s, t, k, role, authority, organization);
    PolicyFollows(s, t, k, role, organization, policy);
  }

  lemma SettleGuardsFollow(s: Store, t: Store, k: Pubkey, role: Pubkey, authority: Pubkey, organization: Pubkey,
                           runtime: Pubkey, checkpoint: Pubkey)
    requires OneKey(k, role) && Agree(s, t, k, role) && (k in s.apiKeys ==> KeyOk(s, k))
    requires SettleGuards(s, authority, organization, k, runtime, checkpoint).Ok?
    ensures organization == k.organization && runtime == QuotaRuntimePda(k) && checkpoint == AuditCheckpointPda(k)
    ensures SettleGuards(t, authority, organization, k, runtime, checkpoint)
         == SettleGuards(s, authority, organization, k, runtime, checkpoint)
  {
    hide Signed, KeyIn, PolicyFor, CountsLess;
    ChecksFollow(s, t, k, role, authority, organization);
  }

  lemma DelegateFollows(s: Store, t: Store, k: Pubkey, role: Pubkey, authority: Pubkey, organization: Pubkey,
                        policy: Pubkey, runtime: Pubkey, validator: Option<Pubkey>, ms: u32, s': Store)
    requires OneKey(k, role) && Agree(s, t, k, role)
    requires (k in s.apiKeys ==> KeyOk(s, k)) && (policy in s.policies ==> PolicyOk(s, policy))
    requires ExecDelegate(s, authority, organization, k, policy, runtime, validator, ms) == Ok(s')
    ensures Follows(s', ExecDelegate(t, authority, organization, k, policy, runtime, validator, ms), k, role)
  {
    hide DelegateGuards, KeyOk, PolicyOk, CountsLess;
    DelegateGuardsFollow(s, t, k, role, authority, organization, policy, runtime);
  }

  lemma ConsumeFollows(s: Store, t: Store, k: Pubkey, role: Pubkey, layer: Layer, organization: Pubkey,
                       policy: Pubkey, runtime: Pubkey, action: u8, now: i64, s': Store)
    requires OneKey(k, role) && Agree(s, t, k, role)
    requires KeyAccounts(s, organization, role, k, policy, runtime) && KeyOk(s, k)
    requires ExecConsume(s, layer, organization, role, k, policy, runtime, action, now) == Ok(s')
    ensures Follows(s', ExecConsume(t, layer, organization, role, k, policy, runtime, action, now), k, role)
    ensures role in s.roles && policy in s.policies && role in t.roles && k in t.apiKeys && policy in t.policies
    ensures ContextOf(t, role, k, policy) == ContextOf(s, role, k, policy)
  {
  }

  lemma CommitFollows(s: Store, t: Store, k: Pubkey, role: Pubkey, authority: Pubkey, organization: Pubkey,
                      runtime: Pubkey, s': Store)
    requires OneKey(k, role) && Agree(s, t, k, role) && (k in s.apiKeys ==> KeyOk(s, k))
    requires ExecCommit(s, authority, organization, k, runtime) == Ok(s')
    ensures Follows(s', ExecCommit(t, authority, organization, k, runtime), k, role)
  {
  }

  lemma UndelegateFollows(s: Store, t: Store, k: Pubkey, role: Pubkey, authority: Pubkey, organization: Pubkey,
                          runtime: Pubkey, s': Store)
    requires OneKey(k, role) && Agree(s, t, k, role) && (k in s.apiKeys ==> KeyOk(s, k))
    requires ExecCommitAndUndelegate(s, authority, organization, k, runtime) == Ok(s')
    ensures Follows(s', ExecCommitAndUndelegate(t, authority, organization, k, runtime), k, role)
  {
  }

  lemma SettleFollows(s: Store, t: Store, k: Pubkey, role: Pubkey, authority: Pubkey, organization: Pubkey,
                      runtime: Pubkey, checkpoint: Pubkey, now: i64, s': Store)
    requires OneKey(k, role) && Agree(s, t, k, role) && (k in s.apiKeys ==> KeyOk(s, k))
    requires ExecSettle(s, authority, organization, k, runtime, checkpoint, now) == Ok(s')
    ensures Follows(s', ExecSettle(t, authority, organization, k, runtime, checkpoint, now), k, role)
  {
    hide SettleGuards, KeyOk;
    SettleGuardsFollow(s, t, k, role, authority, organization, runtime, checkpoint);
  }

  lemma DeliverFollows(s: Store, t: Store, k: Pubkey, role: Pubkey, s': Store)
    requires OneKey(k, role) && Agree(s, t, k, role)
    requires ExecDeliver(s, QuotaRuntimePda(k)) == Ok(s')
    ensures Follows(s', ExecDeliver(t, QuotaRuntimePda(k)), k, role)
  {
  }

  /** An event that concerns the key and succeeds also succeeds in the projection, to the same effect. */
  lemma ConcernedFollows(w: World, t: Store, e: Event, k: Pubkey, role: Pubkey, s': Store)
    requires Inv(w) && OneKey(k, role) && Agree(w.store, t, k, role)
    requires Concerns(e.instruction, k, role) && Execute(w.store, e) == Ok(s')
    requires k in s'.apiKeys ==> s'.apiKeys[k].role == role
    ensures Follows(s', Execute(t, e), k, role)
    ensures e.instruction.ConsumeRequest? ==>
      var i := e.instruction;
      && i.role == role && i.policy == QuotaPolicyPda(k) && i.runtime == QuotaRuntimePda(k)
      && role in w.store.roles && k in w.store.apiKeys && i.policy in w.store.policies
      && role in t.roles && k in t.apiKeys && i.policy in t.policies
      && ContextOf(t, role, k, i.policy) == ContextOf(w.store, role, k, i.policy)
  {
    hide Agree, LanesOk, OrganizationsOk, RolesOk, KeysOk, PoliciesOk, Addressed;
    hide ExecCreateOrganization, ExecCreateRole, ExecAttachPolicy, ExecCreateQuotaPolicy, ExecRevoke;
    hide ExecInitialize, ExecDelegate, ExecConsume, ExecCommit, ExecCommitAndUndelegate, ExecDeliver, ExecSettle;
    hide ExecCreateApiKey;
    var s := w.store;
    if k in s.apiKeys { KeyAt(s, k); }
    match e.instruction
    case CreateOrganization(authority, name, orgAuthority) =>
      CreateOrganizationFollows(s, t, k, role, authority, name, orgAuthority, s');
    case CreateRole(authority, organization, name) =>
      CreateRoleFollows(s, t, k, role, authority, organization, name, e.now, s');
    case AttachPolicy(authority, organization, _, mask) =>
      AttachPolicyFollows(s, t, k, role, authority, organization, mask, s');
    case CreateApiKey(authority, organization, r, keyId, displayLabel) =>
      KeyCreated(s, authority, organization, r, keyId, displayLabel, e.now, s');
      CreateApiKeyFollows(s, t, k, role, authority, organization, keyId, displayLabel, e.now, s');
    case CreateQuotaPolicy(authority, organization, _, maxRequests, windowSeconds) =>
      CreateQuotaPolicyFollows(s, t, k, role, authority, organization, maxRequests, windowSeconds, s');
    case RevokeApiKey(authority, organization, _) => RevokeFollows(s, t, k, role, authority, organization, e.now, s');
    case InitializeQuotaRuntime(authority, organization, _, policy) =>
      if policy in s.policies { PolicyAt(s, policy); }
      InitializeFollows(s, t, k, role, authority, organization, policy, e.now, s');
    case DelegateQuotaRuntime(authority, organization, _, policy, runtime, validator, ms) =>
      if policy in s.policies { PolicyAt(s, policy); }
      DelegateFollows(s, t, k, role, authority, organization, policy, runtime, validator, ms, s');
    case ConsumeRequest(layer, organization, r, _, policy, runtime, action) =>
      RuntimeStep(w, e, s');
      ConsumeFollows(s, t, k, role, layer, organization, policy, runtime, action, e.now, s');
    case CommitQuotaRuntime(authority, organization, _, runtime) =>
      CommitFollows(s, t, k, role, authority, organization, runtime, s');
    case CommitAndUndelegateQuotaRuntime(authority, organization, _, runtime) =>
      UndelegateFollows(s, t, k, role, authority, organization, runtime, s');
    case SettleRuntimeCheckpoint(authority, organization, _, runtime, checkpoint) =>
      SettleFollows(s, t, k, role, authority, organization, runtime, checkpoint, e.now, s');
    case Deliver(runtime) =>
      DeliveredAddress(w, runtime, s');
      DeliverFollows(s, t, k, role, s');
  }

  lemma KeyCreated(s: Store, authority: Pubkey, organization: Pubkey, role: Pubkey, keyId: Pubkey, displayLabel: Bytes,
                   now: i64, s': Store)
    requires ExecCreateApiKey(s, authority, organization, role, keyId, displayLabel, now) == Ok(s')
    ensures var k := ApiKeyPda(organization, keyId);
      k !in s.apiKeys && k in s'.apiKeys && s'.apiKeys[k].role == role
  {
  }

  lemma DeliveredAddress(w: World, runtime: Pubkey, s': Store)
    requires Addressed(w) && ExecDeliver(w.store, runtime) == Ok(s')
    ensures runtime.QuotaRuntimePda?
  {
  }

  // ---------------------------------------------------------------- events that do not

  ghost predicate Spared(s: Store, s': Store, k: Pubkey, role: Pubkey)
    requires k.ApiKeyPda?
  {
    Agree(s', s, k, role)
  }

  lemma CreateOrganizationElsewhere(s: Store, k: Pubkey, role: Pubkey, authority: Pubkey, name: Bytes,
                                    orgAuthority: Pubkey, s': Store)
    requires OneKey(k, role) && OrganizationPda(GatewayPda, name) != k.organization
    requires ExecCreateOrganization(s, authority, name, orgAuthority) == Ok(s')
    ensures Spared(s, s', k, role)
  {
  }

  lemma CreateRoleElsewhere(s: Store, k: Pubkey, role: Pubkey, authority: Pubkey, organization: Pubkey,
                            name: Bytes, now: i64, s': Store)
    requires OneKey(k, role) && RolePda(organization, name) != role
    requires ExecCreateRole(s, authority, organization, name, now) == Ok(s')
    ensures Spared(s, s', k, role)
  {
  }

  lemma AttachPolicyElsewhere(s: Store, k: Pubkey, role: Pubkey, authority: Pubkey, organization: Pubkey, r: Pubkey,
                              mask: Mask, s': Store)
    requires OneKey(k, role) && r != role
    requires ExecAttachPolicy(s, authority, organization, r, mask) == Ok(s')
    ensures Spared(s, s', k, role)
  {
  }

  lemma CreateApiKeyElsewhere(s: Store, k: Pubkey, role: Pubkey, authority: Pubkey, organization: Pubkey, r: Pubkey,
                              keyId: Pubkey, displayLabel: Bytes, now: i64, s': Store)
    requires OneKey(k, role) && ApiKeyPda(organization, keyId) != k
    requires ExecCreateApiKey(s, authority, organization, r, keyId, displayLabel, now) == Ok(s')
    ensures Spared(s, s', k, role)
  {
  }

  lemma CreateQuotaPolicyElsewhere(s: Store, k: Pubkey, role: Pubkey, authority: Pubkey, organization: Pubkey,
                                   apiKey: Pubkey, maxRequests: u64, windowSeconds: i64, s': Store)
    requires OneKey(k, role) && apiKey != k
    requires ExecCreateQuotaPolicy(s, authority, organization, apiKey, maxRequests, windowSeconds) == Ok(s')
    ensures Spared(s, s', k, role)
  {
  }

  lemma RevokeElsewhere(s: Store, k: Pubkey, role: Pubkey, authority: Pubkey, organization: Pubkey, apiKey: Pubkey,
                        now: i64, s': Store)
    requires OneKey(k, role) && apiKey != k
    requires ExecRevoke(s, authority, organization, apiKey, now) == Ok(s')
    ensures Spared(s, s', k, role)
  {
  }

  lemma RuntimeElsewhere(w: World, e: Event, k: Pubkey, role: Pubkey, s': Store)
    requires Inv(w) && OneKey(k, role) && !IsControlPlane(e.instruction) && LaneKey(e.instruction) != k
    requires Execute(w.store, e) == Ok(s')
    ensures Spared(w.store, s', k, role)
  {
    hide Inv, Execute, LaneStep;
    RuntimeStep(w, e, s');
    assert ViewAt(s', k) == ViewAt(w.store, k);
  }

  /** An event that does not concern the key leaves everything the key depends on as it was. */
  lemma UnconcernedIsElsewhere(w: World, e: Event, k: Pubkey, role: Pubkey, s': Store)
    requires Inv(w) && OneKey(k, role)
    requires !Concerns(e.instruction, k, role) && Execute(w.store, e) == Ok(s')
    ensures Spared(w.store, s', k, role)
  {
    hide Inv, Spared;
    var s := w.store;
    if !IsControlPlane(e.instruction) {
      RuntimeElsewhere(w, e, k, role, s');
    } else {
      ControlElsewhere(s, e, k, role, s');
    }
  }

  lemma ControlElsewhere(s: Store, e: Event, k: Pubkey, role: Pubkey, s': Store)
    requires OneKey(k, role) && IsControlPlane(e.instruction)
    requires !Concerns(e.instruction, k, role) && Execute(s, e) == Ok(s')
    ensures Spared(s, s', k, role)
  {
    hide Spared;
    hide ExecCreateOrganization, ExecCreateRole, ExecAttachPolicy, ExecCreateApiKey, ExecCreateQuotaPolicy, ExecRevoke;
    match e.instruction
    case CreateOrganization(authority, name, orgAuthority) =>
      CreateOrganizationElsewhere(s, k, role, authority, name, orgAuthority, s');
    case CreateRole(authority, organization, name) =>
      CreateRoleElsewhere(s, k, role, authority, organization, name, e.now, s');
    case AttachPolicy(authority, organization, r, mask) =>
      AttachPolicyElsewhere(s, k, role, authority, organization, r, mask, s');
    case CreateApiKey(authority, organization, r, keyId, displayLabel) =>
      CreateApiKeyElsewhere(s, k, role, authority, organization, r, keyId, displayLabel, e.now, s');
    case CreateQuotaPolicy(authority, organization, apiKey, maxRequests, windowSeconds) =>
      CreateQuotaPolicyElsewhere(s, k, role, authority, organization, apiKey, maxRequests, windowSeconds, s');
    case RevokeApiKey(authority, organization, apiKey) =>
      RevokeElsewhere(s, k, role, authority, organization, apiKey, e.now, s');
  }

  lemma AgreeTransitive(s': Store, s: Store, t: Store, k: Pubkey, role: Pubkey)
    requires k.ApiKeyPda? && Agree(s', s, k, role) && Agree(s, t, k, role)
    ensures Agree(s', t, k, role)
  {
  }

  lemma AgreeingViews(s: Store, t: Store, k: Pubkey, role: Pubkey)
    requires k.ApiKeyPda? && Agree(s, t, k, role)
    ensures ViewAt(t, k) == ViewAt(s, k)
  {
  }

  // ---------------------------------------------------------------- runs

  /** Both worlds hold the same for `k`, history included. */
  ghost predicate SameKey(w: World, p: World, k: Pubkey, role: Pubkey)
    requires k.ApiKeyPda?
  {
    Agree(w.store, p.store, k, role) && HistoryAt(p, k) == HistoryAt(w, k)
  }

  lemma ProjectStep(w: World, p: World, e: Event, k: Pubkey, role: Pubkey)
    requires Inv(w) && OneKey(k, role) && SameKey(w, p, k, role) && Step(w, e).Ok?
    requires var s' := Step(w, e).value.store; k in s'.apiKeys ==> s'.apiKeys[k].role == role
    ensures if Concerns(e.instruction, k, role)
            then Step(p, e).Ok? && SameKey(Step(w, e).value, Step(p, e).value, k, role)
            else SameKey(Step(w, e).value, p, k, role)
  {
    hide Inv, Execute, Agree;
    var w' := Step(w, e).value;
    if Concerns(e.instruction, k, role) {
      ConcernedFollows(w, p.store, e, k, role, w'.store);
      AgreeingViews(w'.store, Step(p, e).value.store, k, role);
      HistoriesFollow(w, p, e, k, role);
    } else {
      UnconcernedIsElsewhere(w, e, k, role, w'.store);
      AgreeTransitive(w'.store, w.store, p.store, k, role);
      if !IsControlPlane(e.instruction) {
        RuntimeStepOpened(w, e);
      } else {
        ControlStepKeepsInv(w, e);
      }
    }
  }

  lemma HistoriesFollow(w: World, p: World, e: Event, k: Pubkey, role: Pubkey)
    requires OneKey(k, role) && HistoryAt(p, k) == HistoryAt(w, k)
    requires Step(w, e).Ok? && Step(p, e).Ok? && Concerns(e.instruction, k, role)
    requires ViewAt(Step(p, e).value.store, k) == ViewAt(Step(w, e).value.store, k)
    requires var i := e.instruction; i.ConsumeRequest? ==>
      && i.role == role && i.policy == QuotaPolicyPda(k) && i.runtime == QuotaRuntimePda(k)
      && role in w.store.roles && k in w.store.apiKeys && i.policy in w.store.policies
      && role in p.store.roles && k in p.store.apiKeys && i.policy in p.store.policies
      && ContextOf(p.store, role, k, i.policy) == ContextOf(w.store, role, k, i.policy)
    ensures HistoryAt(Step(p, e).value, k) == HistoryAt(Step(w, e).value, k)
  {
    hide Execute;
  }

  lemma RoleStaysStep(w: World, e: Event, k: Pubkey)
    requires Inv(w) && k in w.store.apiKeys
    ensures var s' := Apply(w, e).store; k in s'.apiKeys && s'.apiKeys[k].role == w.store.apiKeys[k].role
  {
    hide Inv, Execute, ControlOk, SameRuntimes;
    if Step(w, e).Ok? {
      if IsControlPlane(e.instruction) { ControlStepKeepsInv(w, e); } else { RuntimeStepKeepsInv(w, e); }
    }
  }

  /** A key keeps its role for good. */
  lemma {:induction false} RoleStays(w: World, events: seq<Event>, k: Pubkey)
    requires Inv(w) && k in w.store.apiKeys
    ensures var w' := Run(w, events); k in w'.store.apiKeys && w'.store.apiKeys[k].role == w.store.apiKeys[k].role
    decreases |events|
  {
    hide Inv, Apply;
    if events == [] {
    } else {
      RoleStaysStep(w, events[0], k);
      InvKept(w, events[0]);
      RoleStays(Apply(w, events[0]), events[1..], k);
    }
  }

  lemma {:induction false} ProjectRun(w: World, p: World, events: seq<Event>, k: Pubkey, role: Pubkey)
    requires Inv(w) && OneKey(k, role) && SameKey(w, p, k, role) && Succeeds(w, events)
    requires var s' := Run(w, events).store; k in s'.apiKeys ==> s'.apiKeys[k].role == role
    ensures Succeeds(p, Project(events, k, role))
    ensures SameKey(Run(w, events), Run(p, Project(events, k, role)), k, role)
    decreases |events|
  {
    hide Inv, SameKey, Step;
    if events == [] {
    } else {
      var e := events[0];
      var w' := Apply(w, e);
      InvKept(w, e);
      if k in w'.store.apiKeys { RoleStays(w', events[1..], k); }
      ProjectStep(w, p, e, k, role);
      var rest := Project(events[1..], k, role);
      if Concerns(e.instruction, k, role) {
        ProjectRun(w', Apply(p, e), events[1..], k, role);
        assert ([e] + rest)[1..] == rest;
      } else {
        ProjectRun(w', p, events[1..], k, role);
        assert Project(events, k, role) == rest;
      }
    }
  }

  /** Nothing exists but one key and what it needs. */
  ghost predicate OnlyKey(s: Store, k: Pubkey, role: Pubkey)
    requires k.ApiKeyPda?
  {
    && s.organizations.Keys <= {k.organization} && s.roles.Keys <= {role} && s.apiKeys.Keys <= {k}
    && s.policies.Keys <= {QuotaPolicyPda(k)} && s.runtimes.Keys <= {QuotaRuntimePda(k)}
    && s.sessions.Keys <= {QuotaRuntimePda(k)} && s.checkpoints.Keys <= {AuditCheckpointPda(k)}
  }

  lemma OnlyKeyStep(w: World, e: Event, k: Pubkey, role: Pubkey)
    requires Inv(w) && k.ApiKeyPda? && OnlyKey(w.store, k, role) && Concerns(e.instruction, k, role) && Step(w, e).Ok?
    ensures OnlyKey(Step(w, e).value.store, k, role)
  {
    hide Inv, Execute, LaneStep;
    if IsControlPlane(e.instruction) {
      ControlKeepsOnlyKey(w, e, k, role);
    } else {
      RuntimeStepOpened(w, e);
    }
  }

  lemma ControlKeepsOnlyKey(w: World, e: Event, k: Pubkey, role: Pubkey)
    requires Inv(w) && k.ApiKeyPda? && OnlyKey(w.store, k, role) && Concerns(e.instruction, k, role) && Step(w, e).Ok?
    requires IsControlPlane(e.instruction)
    ensures OnlyKey(Step(w, e).value.store, k, role)
  {
    hide Inv, Step;
    match e.instruction
    case CreateOrganization(a, name, authority) => CreateOrganizationOutcome(w, a, name, authority, e.now);
    case CreateRole(a, o, name) => CreateRoleOutcome(w, a, o, name, e.now);
    case AttachPolicy(a, o, r, mask) => AttachPolicyOutcome(w, a, o, r, mask, e.now);
    case CreateApiKey(a, o, r, id, text) => CreateApiKeyOutcome(w, a, o, r, id, text, e.now);
    case CreateQuotaPolicy(a, o, key, max, window) => CreateQuotaPolicyOutcome(w, a, o, key, max, window, e.now);
    case RevokeApiKey(a, o, key) => RevokeOutcome(w, a, o, key, e.now);
  }

  lemma {:induction false} OnlyKeyAlongRun(w: World, events: seq<Event>, k: Pubkey, role: Pubkey)
    requires Inv(w) && k.ApiKeyPda? && OnlyKey(w.store, k, role) && Succeeds(w, Project(events, k, role))
    ensures OnlyKey(Run(w, Project(events, k, role)).store, k, role)
    decreases |events|
  {
    hide Inv, Step, OnlyKey, Concerns;
    if events == [] {
    } else {
      var e, alone, rest := events[0], Project(events, k, role), Project(events[1..], k, role);
      if Concerns(e.instruction, k, role) {
        assert alone == [e] + rest && alone[0] == e && alone[1..] == rest;
        OnlyKeyStep(w, e, k, role);
        InvKept(w, e);
        OnlyKeyAlongRun(Apply(w, e), events[1..], k, role);
      } else {
        assert alone == rest;
        OnlyKeyAlongRun(w, events[1..], k, role);
      }
    }
  }

  /** Isolation. Take any interleaving of successful events over any number of keys and tenants and a
      key that exists at the end. The run that keeps only the events concerning that key succeeds
      throughout, creates nothing but that key and what it needs, and gives it the same role and policy
      contents, runtime copies, snapshots in flight, checkpoint and decision log. */
  lemma KeysAreIsolated(authority: Pubkey, events: seq<Event>, k: Pubkey)
    requires Succeeds(Genesis(authority), events)
    requires k in Run(Genesis(authority), events).store.apiKeys
    ensures k.ApiKeyPda?
    ensures var w := Run(Genesis(authority), events);
      var role := w.store.apiKeys[k].role;
      var alone := Project(events, k, role);
      var p := Run(Genesis(authority), alone);
      && Succeeds(Genesis(authority), alone) && OnlyKey(p.store, k, role)
      && k in p.store.apiKeys && p.store.apiKeys[k] == w.store.apiKeys[k]
      && Lookup(p.store.roles, role) == Lookup(w.store.roles, role)
      && Lookup(p.store.policies, QuotaPolicyPda(k)) == Lookup(w.store.policies, QuotaPolicyPda(k))
      && ViewAt(p.store, k) == ViewAt(w.store, k)
      && HistoryAt(p, k) == HistoryAt(w, k)
  {
    hide Inv, Run, Succeeds, Project;
    var w0 := Genesis(authority);
    var w := Run(w0, events);
    GenesisInv(authority);
    InvAlongRun(w0, events);
    KeyAndRole(w, k);
    ProjectRun(w0, w0, events, k, w.store.apiKeys[k].role);
    OnlyKeyAlongRun(w0, events, k, w.store.apiKeys[k].role);
  }

  lemma KeyAndRole(w: World, k: Pubkey)
    requires Inv(w) && k in w.store.apiKeys
    ensures OneKey(k, w.store.apiKeys[k].role)
  {
  }
}
