/** The instruction handlers, updating account objects in place. Each returns `Ok` exactly when, and
    leaves the objects exactly as, the specification in `Engine` says; after an error the objects are
    in no particular state, because the ledger throws them away. */
module Handlers {
  import opened Base
  import opened Permissions
  import opened Accounts
  import opened AccountObjects
  import Engine

  method CreateOrganization(gateway: Gateway, organization: Organization, name: Bytes, authority: Pubkey)
    returns (r: Result<()>)
    modifies gateway`organizationCount, organization
    ensures var spec := Engine.CreateOrganization(old(gateway.Data()), old(organization.Content()), name, authority);
      if r.Ok? then
        && spec.Ok? && spec.value.0 == gateway.Data() && spec.value.1 == organization.Data()
        && organization.initialized
      else spec == Err(r.error)
  {
    if |name| > MAX_NAME_LEN { return Err(NameTooLong); }
    if organization.initialized { return Err(DuplicateOrganization); }
    organization.initialized := true;
    organization.authority := authority;
    organization.name := name;
    organization.roleCount := 0;
    organization.apiKeyCount := 0;
    organization.settlementCount := 0;
    var count := CheckedIncrement(gateway.organizationCount);
    if count.Err? { return Err(count.error); }
    gateway.organizationCount := count.value;
    return Ok(());
  }

  method CreateRole(organization: Organization, role: Role, organizationKey: Pubkey, name: Bytes, now: i64)
    returns (r: Result<()>)
    modifies organization`roleCount, role
    ensures var spec := Engine.CreateRole(old(organization.Data()), old(role.Content()), organizationKey, name, now);
      if r.Ok? then spec.Ok? && spec.value.0 == organization.Data() && spec.value.1 == role.Data() && role.initialized
      else spec == Err(r.error)
  {
    if |name| > MAX_NAME_LEN { return Err(NameTooLong); }
    if role.initialized { return Err(DuplicateRole); }
    role.initialized := true;
    role.organization := organizationKey;
    role.name := name;
    role.policyMask := 0;
    role.createdAt := now;
    var count := CheckedIncrement(organization.roleCount);
    if count.Err? { return Err(count.error); }
    organization.roleCount := count.value;
    return Ok(());
  }

  method AttachPolicyToRole(role: Role, mask: Mask) returns (r: Result<()>)
    modifies role`policyMask
    ensures var spec := Engine.AttachPolicy(old(role.Data()), mask);
      if r.Ok? then spec.Ok? && spec.value == role.Data() else spec == Err(r.error)
  {
    if !ValidMask(mask) { return Err(InvalidPolicyMask); }
    role.policyMask := mask;
    return Ok(());
  }

  method CreateApiKey(organization: Organization, apiKey: ApiKey, organizationKey: Pubkey, role: Pubkey,
                      keyId: Pubkey, displayLabel: Bytes, authority: Pubkey, now: i64)
    returns (r: Result<()>)
    modifies organization`apiKeyCount, apiKey
    ensures var spec := Engine.CreateApiKey(old(organization.Data()), old(apiKey.Content()), organizationKey, role,
                                            keyId, displayLabel, authority, now);
      if r.Ok? then
        && spec.Ok? && spec.value.0 == organization.Data() && spec.value.1 == apiKey.Data()
        && apiKey.initialized
      else spec == Err(r.error)
  {
    if |displayLabel| > MAX_LABEL_LEN { return Err(LabelTooLong); }
    if apiKey.initialized { return Err(DuplicateKey); }
    apiKey.Issue(organizationKey, role, keyId, displayLabel, authority, now);
    var count := CheckedIncrement(organization.apiKeyCount);
    if count.Err? { return Err(count.error); }
    organization.apiKeyCount := count.value;
    return Ok(());
  }

  /** An upsert: whatever limits were there before are overwritten. */
  method CreateQuotaPolicy(policy: QuotaPolicy, organization: Pubkey, apiKey: Pubkey, maxRequests: u64,
                           windowSeconds: i64)
    returns (r: Result<()>)
    modifies policy
    ensures var spec := Engine.CreateQuotaPolicy(organization, apiKey, maxRequests, windowSeconds);
      if r.Ok? then spec.Ok? && spec.value == policy.Data() && policy.initialized else spec == Err(r.error)
  {
    if !(maxRequests > 0 && windowSeconds > 0) { return Err(InvalidQuotaConfig); }
    policy.initialized := true;
    policy.organization := organization;
    policy.apiKey := apiKey;
    policy.maxRequests := maxRequests;
    policy.windowSeconds := windowSeconds;
    return Ok(());
  }

  method RevokeApiKey(apiKey: ApiKey, now: i64) returns (r: Result<()>)
    modifies apiKey`active, apiKey`revokedAt
    ensures var spec := Engine.RevokeApiKey(old(apiKey.Data()), now);
      if r.Ok? then spec.Ok? && spec.value == apiKey.Data() else spec == Err(r.error)
  {
    if !apiKey.active { return Err(Error.KeyRevoked); }
    apiKey.active := false;
    apiKey.revokedAt := now;
    return Ok(());
  }

  method InitializeQuotaRuntime(runtime: QuotaRuntime, checkpoint: AuditCheckpoint, organization: Pubkey,
                                apiKey: Pubkey,
                                policy: Pubkey, now: i64)
    returns (r: Result<()>)
    requires runtime.Valid()
    modifies runtime, checkpoint
    ensures runtime.Valid()
    ensures var spec := Engine.InitializeRuntime(old(runtime.Content()), old(checkpoint.Content()),
                                                 organization, apiKey, policy, now);
      if r.Ok? then spec.Ok? && spec.value.0 == runtime.Data() && spec.value.1 == checkpoint.Data()
                      && runtime.initialized && checkpoint.initialized
      else spec == Err(r.error)
  {
    if runtime.initialized { return Err(RuntimeAlreadyInitialized); }
    runtime.Start(organization, apiKey, policy, now);
    if !checkpoint.initialized {
      checkpoint.Open(organization, apiKey, policy, now);
    }
    return Ok(());
  }

  method DelegateQuotaRuntime(runtime: QuotaRuntime, validator: Option<Pubkey>, commitFrequencyMs: u32)
    returns (r: Result<()>)
    requires runtime.Valid()
    modifies runtime`isDelegated, runtime`delegatedValidator, runtime`commitFrequencyMs
    ensures runtime.Valid()
    ensures var spec := Engine.Delegate(old(runtime.Data()), validator, commitFrequencyMs);
      if r.Ok? then spec.Ok? && spec.value == runtime.Data() else spec == Err(r.error)
  {
    if runtime.isDelegated { return Err(RuntimeAlreadyDelegated); }
    if commitFrequencyMs == 0 { return Err(InvalidCommitFrequency); }
    runtime.isDelegated := true;
    runtime.delegatedValidator := if validator.Some? then validator.value else DEFAULT_VALIDATOR;
    runtime.commitFrequencyMs := commitFrequencyMs;
    return Ok(());
  }

  method CommitAndUndelegateQuotaRuntime(runtime: QuotaRuntime) returns (r: Result<()>)
    requires runtime.Valid()
    modifies runtime`isDelegated, runtime`delegatedValidator, runtime`commitFrequencyMs
    ensures runtime.Valid()
    ensures var spec := Engine.CommitAndUndelegate(old(runtime.Data()));
      if r.Ok? then spec.Ok? && spec.value == runtime.Data() else spec == Err(r.error)
  {
    if !runtime.isDelegated { return Err(RuntimeNotDelegated); }
    runtime.EndDelegation();
    return Ok(());
  }

  /** The one request path of both layers. */
  method ConsumeRequest(apiKey: ApiKey, role: Role, policy: QuotaPolicy, runtime: QuotaRuntime, action: u8, now: i64)
    returns (r: Result<()>)
    requires runtime.Valid()
    modifies runtime`totalAllowed, runtime`totalRejected, runtime`currentWindowUsed, runtime`currentWindowStartedAt,
             runtime`rollingSequence, runtime`lastAction, runtime`lastReason, runtime`lastRequestAt,
             runtime`auditLen, runtime.rollingAudit
    ensures runtime.Valid()
    ensures var limits := Engine.Limits(policy.maxRequests, policy.windowSeconds);
      var c := Engine.Context(apiKey.active, role.policyMask, limits);
      var spec := Engine.Consume(old(runtime.Data()), c, action, now);
      if r.Ok? then spec.Ok? && spec.value == runtime.Data() else spec == Err(r.error)
  {
    hide RoleAllows;
    var parsed := ParseAction(action);
    var allowed, reason := false, InvalidAction;
    if !apiKey.active {
      reason := DecisionReason.KeyRevoked;
    } else if parsed.Some? {
      if !RoleAllows(role.policyMask, parsed.value) {
        reason := Unauthorized;
      } else {
        var reset := runtime.ResetIfExpired(policy, now);
        if reset.Err? { return reset; }
        if runtime.currentWindowUsed >= policy.maxRequests {
          reason := QuotaExceeded;
        } else {
          var used := CheckedIncrement(runtime.currentWindowUsed);
          if used.Err? { return Err(MathOverflow); }
          runtime.currentWindowUsed := used.value;
          allowed := true;
          reason := Allowed;
        }
      }
    }
    var sequence := runtime.AppendAudit(action, allowed, reason, now);
    if sequence.Err? { return Err(sequence.error); }
    return Ok(());
  }

  /** The checkpoint is overwritten and the buffer cleared before the settlement counter can overflow. */
  method SettleRuntimeCheckpoint(runtime: QuotaRuntime, checkpoint: AuditCheckpoint, organization: Organization,
                                 now: i64)
    returns (r: Result<()>)
    requires runtime.Valid()
    modifies runtime`lastSettledSequence, runtime`lastSettledAt, runtime`auditLen, checkpoint,
             organization`settlementCount
    ensures runtime.Valid()
    ensures var spec := Engine.Settle(old(runtime.Data()), old(checkpoint.Data()), old(organization.Data()), now);
      if r.Ok? then
        && spec.Ok? && spec.value.runtime == runtime.Data() && spec.value.checkpoint == checkpoint.Data()
        && spec.value.organization == organization.Data() && checkpoint.initialized == old(checkpoint.initialized)
      else spec == Err(r.error)
  {
    if runtime.isDelegated { return Err(RuntimeStillDelegated); }
    checkpoint.Absorb(runtime, now);
    runtime.MarkSettled(now);
    var count := CheckedIncrement(organization.settlementCount);
    if count.Err? { return Err(count.error); }
    organization.settlementCount := count.value;
    return Ok(());
  }
}
