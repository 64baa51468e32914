/** Transaction processing: check the accounts, load them into objects, run the handler on the objects,
    and write them back only if it succeeds. Proved to be the state machine, step by step. */
module Ledger {
  import opened Base
  import opened Permissions
  import opened Accounts
  import opened AuditLog
  import opened StateMachine
  import opened Invariants
  import opened Guarantees
  import Objects = AccountObjects
  import Handlers
  import Engine

  /** No runtime copy ever holds more than eight records, so each fits its buffer. */
  ghost predicate BuffersFit(s: Store) {
    && (forall r :: r in s.runtimes ==> |s.runtimes[r].rollingAudit| <= MAX_RUNTIME_AUDIT_ITEMS)
    && (forall r :: r in s.sessions ==> |s.sessions[r].live.rollingAudit| <= MAX_RUNTIME_AUDIT_ITEMS)
  }

  lemma MirrorFits(rt: RuntimeState, t0: i64, log: Log)
    requires Mirrors(rt, t0, log)
    ensures |rt.rollingAudit| <= MAX_RUNTIME_AUDIT_ITEMS
  {
  }

  lemma InvFits(w: World)
    requires Inv(w)
    ensures BuffersFit(w.store)
  {
    hide Mirrors, Genuine, ControlOk;
    forall r | r in w.store.runtimes || r in w.store.sessions
      ensures r in w.store.runtimes ==> |w.store.runtimes[r].rollingAudit| <= MAX_RUNTIME_AUDIT_ITEMS
      ensures r in w.store.sessions ==> |w.store.sessions[r].live.rollingAudit| <= MAX_RUNTIME_AUDIT_ITEMS {
      AtKey(w, r.apiKey);
      var h := w.histories[r];
      var base := w.store.runtimes[r];
      MirrorFits(base, h.startedAt, h.log[..base.rollingSequence]);
      if r in w.store.sessions {
        MirrorFits(w.store.sessions[r].live, h.startedAt, h.log);
      }
    }
  }

  /** Load the accounts of a request, run its handler on them, and hand back the runtime's contents. */
  method RunConsume(key: ApiKeyState, role: RoleState, policy: PolicyState, runtime: RuntimeState, action: u8, now: i64)
    returns (r: Result<RuntimeState>)
    requires |runtime.rollingAudit| <= MAX_RUNTIME_AUDIT_ITEMS
    ensures var limits := Engine.Limits(policy.maxRequests, policy.windowSeconds);
      r == Engine.Consume(runtime, Engine.Context(key.active, role.policyMask, limits), action, now)
  {
    hide Engine.Consume;
    var keyAccount := new Objects.ApiKey.Load(Some(key));
    var roleAccount := new Objects.Role.Load(Some(role));
    var policyAccount := new Objects.QuotaPolicy.Load(Some(policy));
    var account := new Objects.QuotaRuntime.Load(Some(runtime));
    assert keyAccount.Data() == key && roleAccount.Data() == role && policyAccount.Data() == policy;
    var done := Handlers.ConsumeRequest(keyAccount, roleAccount, policyAccount, account, action, now);
    return if done.Ok? then Ok(account.Data()) else Err(done.error);
  }

  method RunDelegate(runtime: RuntimeState, validator: Option<Pubkey>, commitFrequencyMs: u32)
    returns (r: Result<RuntimeState>)
    requires |runtime.rollingAudit| <= MAX_RUNTIME_AUDIT_ITEMS
    ensures r == Engine.Delegate(runtime, validator, commitFrequencyMs)
  {
    hide Engine.Delegate;
    var account := new Objects.QuotaRuntime.Load(Some(runtime));
    var done := Handlers.DelegateQuotaRuntime(account, validator, commitFrequencyMs);
    return if done.Ok? then Ok(account.Data()) else Err(done.error);
  }

  class Ledger {
    var store: Store
    ghost var histories: map<Pubkey, History>

    ghost function Now(): World
      reads this
    {
      World(store, histories)
    }

    ghost predicate Valid()
      reads this
    {
      Inv(Now())
    }

    /** `initialize_gateway`. */
    constructor (authority: Pubkey)
      ensures Valid() && Now() == Genesis(authority)
    {
      store := Genesis(authority).store;
      histories := map[];
      new;
      GenesisInv(authority);
    }

    /** What a method below promises: the specified store on success, the old one on failure. */
    ghost predicate Outcome(r: Result<()>, spec: Result<Store>, before: Store)
      reads this
    {
      if r.Ok? then spec.Ok? && spec.value == store else spec == Err(r.error) && store == before
    }

    method CreateOrganization(authority: Pubkey, name: Bytes, organizationAuthority: Pubkey) returns (r: Result<()>)
      modifies this`store
      ensures Outcome(r, ExecCreateOrganization(old(store), authority, name, organizationAuthority), old(store))
    {
      if store.gateway.authority != authority { return Err(InvalidOrganizationAuthority); }
      var address := OrganizationPda(GatewayPda, name);
      var gateway := new Objects.Gateway.Load(store.gateway);
      var organization := new Objects.Organization.Load(Lookup(store.organizations, address));
      r := Handlers.CreateOrganization(gateway, organization, name, organizationAuthority);
      if r.Ok? {
        store := store.(gateway := gateway.Data(),
                        organizations := store.organizations[address := organization.Data()]);
      }
    }

    method CreateRole(authority: Pubkey, organization: Pubkey, name: Bytes, now: i64) returns (r: Result<()>)
      modifies this`store
      ensures Outcome(r, ExecCreateRole(old(store), authority, organization, name, now), old(store))
    {
      var signed := Signed(store, organization, authority);
      if signed.Err? { return signed; }
      var address := RolePda(organization, name);
      var org := new Objects.Organization.Load(Some(store.organizations[organization]));
      var role := new Objects.Role.Load(Lookup(store.roles, address));
      r := Handlers.CreateRole(org, role, organization, name, now);
      if r.Ok? {
        store := store.(organizations := store.organizations[organization := org.Data()],
                        roles := store.roles[address := role.Data()]);
      }
    }

    method AttachPolicyToRole(authority: Pubkey, organization: Pubkey, role: Pubkey, mask: Mask) returns (r: Result<()>)
      modifies this`store
      ensures Outcome(r, ExecAttachPolicy(old(store), authority, organization, role, mask), old(store))
    {
      hide ValidMask;
      var signed := Signed(store, organization, authority);
      if signed.Err? { return signed; }
      if role !in store.roles { return Err(AccountNotInitialized); }
      if role != RolePda(organization, store.roles[role].name) { return Err(ConstraintSeeds); }
      if store.roles[role].organization != organization { return Err(RoleOrganizationMismatch); }
      var account := new Objects.Role.Load(Some(store.roles[role]));
      r := Handlers.AttachPolicyToRole(account, mask);
      if r.Ok? {
        store := store.(roles := store.roles[role := account.Data()]);
      }
    }

    method CreateApiKey(authority: Pubkey, organization: Pubkey, role: Pubkey, keyId: Pubkey, displayLabel: Bytes,
                        now: i64)
      returns (r: Result<()>)
      modifies this`store
      ensures Outcome(r, ExecCreateApiKey(old(store), authority, organization, role, keyId, displayLabel, now),
                      old(store))
    {
      hide CreateApiKeyGuards;
      var guards := CreateApiKeyGuards(store, authority, organization, role);
      if guards.Err? { return guards; }
      var address := ApiKeyPda(organization, keyId);
      var org := new Objects.Organization.Load(Some(store.organizations[organization]));
      var apiKey := new Objects.ApiKey.Load(Lookup(store.apiKeys, address));
      r := Handlers.CreateApiKey(org, apiKey, organization, role, keyId, displayLabel, authority, now);
      if r.Ok? {
        store := store.(organizations := store.organizations[organization := org.Data()],
                        apiKeys := store.apiKeys[address := apiKey.Data()]);
      }
    }

    method CreateQuotaPolicy(authority: Pubkey, organization: Pubkey, apiKey: Pubkey, maxRequests: u64,
                             windowSeconds: i64)
      returns (r: Result<()>)
      modifies this`store
      ensures Outcome(r, ExecCreateQuotaPolicy(old(store), authority, organization, apiKey, maxRequests, windowSeconds),
                      old(store))
    {
      var signed := Signed(store, organization, authority);
      if signed.Err? { return signed; }
      var keyIn := KeyIn(store, organization, apiKey);
      if keyIn.Err? { return keyIn; }
      var address := QuotaPolicyPda(apiKey);
      var policy := new Objects.QuotaPolicy.Load(Lookup(store.policies, address));
      r := Handlers.CreateQuotaPolicy(policy, organization, apiKey, maxRequests, windowSeconds);
      if r.Ok? {
        store := store.(policies := store.policies[address := policy.Data()]);
      }
    }

    method RevokeApiKey(authority: Pubkey, organization: Pubkey, apiKey: Pubkey, now: i64) returns (r: Result<()>)
      modifies this`store
      ensures Outcome(r, ExecRevoke(old(store), authority, organization, apiKey, now), old(store))
    {
      var signed := Signed(store, organization, authority);
      if signed.Err? { return signed; }
      var keyIn := KeyIn(store, organization, apiKey);
      if keyIn.Err? { return keyIn; }
      if apiKey != ApiKeyPda(organization, store.apiKeys[apiKey].keyId) { return Err(ConstraintSeeds); }
      var account := new Objects.ApiKey.Load(Some(store.apiKeys[apiKey]));
      r := Handlers.RevokeApiKey(account, now);
      if r.Ok? {
        store := store.(apiKeys := store.apiKeys[apiKey := account.Data()]);
      }
    }

    method InitializeQuotaRuntime(authority: Pubkey, organization: Pubkey, apiKey: Pubkey, policy: Pubkey, now: i64)
      returns (r: Result<()>)
      requires BuffersFit(store)
      modifies this`store
      ensures Outcome(r, ExecInitialize(old(store), authority, organization, apiKey, policy, now), old(store))
    {
      var signed := Signed(store, organization, authority);
      if signed.Err? { return signed; }
      var keyIn := KeyIn(store, organization, apiKey);
      if keyIn.Err? { return keyIn; }
      var policyFor := PolicyFor(store, organization, apiKey, policy);
      if policyFor.Err? { return policyFor; }
      var address, cpAddress := QuotaRuntimePda(apiKey), AuditCheckpointPda(apiKey);
      if address in store.sessions { return Err(AccountOwnedByWrongProgram); }
      var runtime := new Objects.QuotaRuntime.Load(Lookup(store.runtimes, address));
      var checkpoint := new Objects.AuditCheckpoint.Load(Lookup(store.checkpoints, cpAddress));
      r := Handlers.InitializeQuotaRuntime(runtime, checkpoint, organization, apiKey, policy, now);
      if r.Ok? {
        store := store.(runtimes := store.runtimes[address := runtime.Data()],
                        checkpoints := store.checkpoints[cpAddress := checkpoint.Data()]);
      }
    }

    method DelegateQuotaRuntime(authority: Pubkey, organization: Pubkey, apiKey: Pubkey, policy: Pubkey,
                                runtime: Pubkey, validator: Option<Pubkey>, commitFrequencyMs: u32)
      returns (r: Result<()>)
      requires BuffersFit(store)
      modifies this`store
      ensures Outcome(r, ExecDelegate(old(store), authority, organization, apiKey, policy, runtime, validator,
                                      commitFrequencyMs),
                      old(store))
    {
      hide DelegateGuards;
      var data := DelegateGuards(store, authority, organization, apiKey, policy, runtime);
      if data.Err? { return Err(data.error); }
      var done := RunDelegate(data.value, validator, commitFrequencyMs);
      if done.Err? { return Err(done.error); }
      store := store.(runtimes := store.runtimes[runtime := done.value],
                      sessions := store.sessions[runtime := Session(done.value, [], false)]);
      return Ok(());
    }

    method ConsumeRequest(layer: Layer, organization: Pubkey, role: Pubkey, apiKey: Pubkey, policy: Pubkey,
                          runtime: Pubkey, action: u8, now: i64)
      returns (r: Result<()>)
      requires BuffersFit(store)
      modifies this`store
      ensures Outcome(r, ExecConsume(old(store), layer, organization, role, apiKey, policy, runtime, action, now),
                      old(store))
    {
      hide Engine.Consume, ConsumeGuards;
      var data := Writable(store, layer, runtime);
      if data.Err? { return Err(data.error); }
      var guards := ConsumeGuards(store, organization, role, apiKey, policy, data.value);
      if guards.Err? { return guards; }
      var done := RunConsume(store.apiKeys[apiKey], store.roles[role], store.policies[policy], data.value, action, now);
      if done.Err? { return Err(done.error); }
      store := Written(store, layer, runtime, done.value);
      return Ok(());
    }

    method CommitQuotaRuntime(authority: Pubkey, organization: Pubkey, apiKey: Pubkey, runtime: Pubkey)
      returns (r: Result<()>)
      requires BuffersFit(store)
      modifies this`store
      ensures Outcome(r, ExecCommit(old(store), authority, organization, apiKey, runtime), old(store))
    {
      var data := CommitGuards(store, authority, organization, apiKey, runtime);
      if data.Err? { return Err(data.error); }
      var account := new Objects.QuotaRuntime.Load(Some(data.value));
      if !account.isDelegated { return Err(RuntimeNotDelegated); }
      if runtime !in store.sessions { return Err(AccountNotWritable); }
      var session := store.sessions[runtime];
      var queued := session.inFlight + [Snapshot(account.Data(), false)];
      store := store.(sessions := store.sessions[runtime := session.(inFlight := queued)]);
      return Ok(());
    }

    method CommitAndUndelegateQuotaRuntime(authority: Pubkey, organization: Pubkey, apiKey: Pubkey, runtime: Pubkey)
      returns (r: Result<()>)
      requires BuffersFit(store)
      modifies this`store
      ensures Outcome(r, ExecCommitAndUndelegate(old(store), authority, organization, apiKey, runtime), old(store))
    {
      var data := CommitGuards(store, authority, organization, apiKey, runtime);
      if data.Err? { return Err(data.error); }
      var account := new Objects.QuotaRuntime.Load(Some(data.value));
      r := Handlers.CommitAndUndelegateQuotaRuntime(account);
      if r.Err? { return; }
      if runtime !in store.sessions { return Err(AccountNotWritable); }
      var queued := store.sessions[runtime].inFlight + [Snapshot(account.Data(), true)];
      store := store.(sessions := store.sessions[runtime := Session(account.Data(), queued, true)]);
    }

    method SettleRuntimeCheckpoint(authority: Pubkey, organization: Pubkey, apiKey: Pubkey, runtime: Pubkey,
                                   checkpoint: Pubkey, now: i64)
      returns (r: Result<()>)
      requires BuffersFit(store)
      modifies this`store
      ensures Outcome(r, ExecSettle(old(store), authority, organization, apiKey, runtime, checkpoint, now), old(store))
    {
      hide SettleGuards;
      var data := SettleGuards(store, authority, organization, apiKey, runtime, checkpoint);
      if data.Err? { return Err(data.error); }
      var org := new Objects.Organization.Load(Some(store.organizations[organization]));
      var account := new Objects.QuotaRuntime.Load(Some(data.value));
      var cpAccount := new Objects.AuditCheckpoint.Load(Some(store.checkpoints[checkpoint]));
      r := Handlers.SettleRuntimeCheckpoint(account, cpAccount, org, now);
      if r.Ok? {
        store := store.(organizations := store.organizations[organization := org.Data()],
                        runtimes := store.runtimes[runtime := account.Data()],
                        checkpoints := store.checkpoints[checkpoint := cpAccount.Data()]);
      }
    }

    method Deliver(runtime: Pubkey) returns (r: Result<()>)
      modifies this`store
      ensures Outcome(r, ExecDeliver(old(store), runtime), old(store))
    {
      var done := ExecDeliver(store, runtime);
      if done.Err? { return Err(done.error); }
      store := done.value;
      return Ok(());
    }

    method Dispatch(e: Event) returns (r: Result<()>)
      requires BuffersFit(store)
      modifies this`store
      ensures Outcome(r, Execute(old(store), e), old(store))
    {
      hide ExecCreateOrganization, ExecCreateRole, ExecAttachPolicy;
      hide ExecCreateApiKey, ExecCreateQuotaPolicy, ExecRevoke;
      hide ExecInitialize, ExecDelegate, ExecConsume, ExecCommit, ExecCommitAndUndelegate, ExecDeliver, ExecSettle;
      match e.instruction
      case CreateOrganization(authority, name, organizationAuthority) =>
        r := CreateOrganization(authority, name, organizationAuthority);
      case CreateRole(authority, organization, name) =>
        r := CreateRole(authority, organization, name, e.now);
      case AttachPolicy(authority, organization, role, mask) =>
        r := AttachPolicyToRole(authority, organization, role, mask);
      case CreateApiKey(authority, organization, role, keyId, displayLabel) =>
        r := CreateApiKey(authority, organization, role, keyId, displayLabel, e.now);
      case CreateQuotaPolicy(authority, organization, apiKey, maxRequests, windowSeconds) =>
        r := CreateQuotaPolicy(authority, organization, apiKey, maxRequests, windowSeconds);
      case InitializeQuotaRuntime(authority, organization, apiKey, policy) =>
        r := InitializeQuotaRuntime(authority, organization, apiKey, policy, e.now);
      case DelegateQuotaRuntime(authority, organization, apiKey, policy, runtime, validator, commitFrequencyMs) =>
        r := DelegateQuotaRuntime(authority, organization, apiKey, policy, runtime, validator, commitFrequencyMs);
      case ConsumeRequest(layer, organization, role, apiKey, policy, runtime, action) =>
        r := ConsumeRequest(layer, organization, role, apiKey, policy, runtime, action, e.now);
      case CommitQuotaRuntime(authority, organization, apiKey, runtime) =>
        r := CommitQuotaRuntime(authority, organization, apiKey, runtime);
      case CommitAndUndelegateQuotaRuntime(authority, organization, apiKey, runtime) =>
        r := CommitAndUndelegateQuotaRuntime(authority, organization, apiKey, runtime);
      case SettleRuntimeCheckpoint(authority, organization, apiKey, runtime, checkpoint) =>
        r := SettleRuntimeCheckpoint(authority, organization, apiKey, runtime, checkpoint, e.now);
      case RevokeApiKey(authority, organization, apiKey) =>
        r := RevokeApiKey(authority, organization, apiKey, e.now);
      case Deliver(runtime) =>
        r := Deliver(runtime);
    }

    /** One event: the objects and arrays behind it do exactly what the state machine says, the history
        records the decision, and a failure leaves the ledger as it was. */
    method Process(e: Event) returns (r: Result<()>)
      requires Valid()
      modifies this
      ensures Valid()
      ensures Now() == Apply(old(Now()), e)
      ensures r.Ok? <==> Step(old(Now()), e).Ok?
      ensures r.Err? ==> Step(old(Now()), e) == Err(r.error)
    {
      hide Inv, Execute, Recorded;
      InvFits(Now());
      InvKept(Now(), e);
      ghost var before := store;
      r := Dispatch(e);
      if r.Ok? {
        histories := Recorded(before, store, histories, e);
      }
    }
  }
}
