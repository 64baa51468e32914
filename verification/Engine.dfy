/** What each instruction handler does to the accounts it is given, as functions on account contents.
    The methods of `AccountObjects` are proved to compute them. */
module Engine {
  import opened Base
  import opened Permissions
  import opened Accounts

  datatype Limits = Limits(maxRequests: u64, windowSeconds: i64)

  /** Everything outside the runtime that a decision depends on. */
  datatype Context = Context(active: bool, mask: Mask, limits: Limits)

  // ---------------------------------------------------------------- admission

  function ResetIfExpired(rt: RuntimeState, windowSeconds: i64, now: i64): Result<RuntimeState> {
    var windowEndsAt :- CheckedAddI64(rt.currentWindowStartedAt, windowSeconds);
    Ok(if now >= windowEndsAt then rt.(currentWindowUsed := 0, currentWindowStartedAt := now) else rt)
  }

  /** Push onto the rolling buffer, dropping the oldest record once there are more than eight. */
  function Pushed(audit: seq<AuditRecord>, record: AuditRecord): seq<AuditRecord> {
    var pushed := audit + [record];
    if |pushed| > MAX_RUNTIME_AUDIT_ITEMS then pushed[1..] else pushed
  }

  function AppendAudit(rt: RuntimeState, action: u8, allowed: bool, reason: DecisionReason, now: i64)
    : Result<RuntimeState>
  {
    var sequence :- CheckedIncrement(rt.rollingSequence);
    var totalAllowed :- if allowed then CheckedIncrement(rt.totalAllowed) else Ok(rt.totalAllowed);
    var totalRejected :- if allowed then Ok(rt.totalRejected) else CheckedIncrement(rt.totalRejected);
    var record := AuditRecord(sequence, action, allowed, reason.Code(), now, rt.currentWindowUsed);
    Ok(rt.(rollingSequence := sequence, totalAllowed := totalAllowed, totalRejected := totalRejected,
           lastAction := action, lastReason := reason.Code(), lastRequestAt := now,
           rollingAudit := Pushed(rt.rollingAudit, record)))
  }

  function Consume(rt: RuntimeState, context: Context, action: u8, now: i64): Result<RuntimeState> {
    var parsed := ParseAction(action);
    if !context.active then
      AppendAudit(rt, action, false, DecisionReason.KeyRevoked, now)
    else if parsed.None? then
      AppendAudit(rt, action, false, InvalidAction, now)
    else if !RoleAllows(context.mask, parsed.value) then
      AppendAudit(rt, action, false, Unauthorized, now)
    else
      var rolled :- ResetIfExpired(rt, context.limits.windowSeconds, now);
      if rolled.currentWindowUsed >= context.limits.maxRequests then
        AppendAudit(rolled, action, false, QuotaExceeded, now)
      else
        var used :- CheckedIncrement(rolled.currentWindowUsed);
        AppendAudit(rolled.(currentWindowUsed := used), action, true, Allowed, now)
  }

  /** The decision a runtime took last, as the record it appended for it. */
  function LastDecision(rt: RuntimeState): AuditRecord {
    AuditRecord(rt.rollingSequence, rt.lastAction, rt.lastReason == Allowed.Code(), rt.lastReason,
                rt.lastRequestAt, rt.currentWindowUsed)
  }

  // ---------------------------------------------------------------- runtime life cycle

  function FreshRuntime(organization: Pubkey, apiKey: Pubkey, policy: Pubkey, now: i64): RuntimeState {
    RuntimeState(organization, apiKey, policy, DEFAULT_VALIDATOR, 0, false,
                 0, 0, 0, now, 0, 0, 0, 0, 0, 0, [])
  }

  function FreshCheckpoint(organization: Pubkey, apiKey: Pubkey, policy: Pubkey, now: i64): CheckpointState {
    CheckpointState(organization, apiKey, policy, 0, 0, 0, 0, now, 0, 0, 0, 0)
  }

  function InitializeRuntime(runtime: Option<RuntimeState>, checkpoint: Option<CheckpointState>,
                             organization: Pubkey, apiKey: Pubkey, policy: Pubkey, now: i64)
    : Result<(RuntimeState, CheckpointState)>
  {
    var _ :- Need(runtime.None?, RuntimeAlreadyInitialized);
    Ok((FreshRuntime(organization, apiKey, policy, now),
        if checkpoint.Some? then checkpoint.value
        else FreshCheckpoint(organization, apiKey, policy, now)))
  }

  function Delegate(rt: RuntimeState, validator: Option<Pubkey>, commitFrequencyMs: u32): Result<RuntimeState> {
    var _ :- Need(!rt.isDelegated, RuntimeAlreadyDelegated);
    var _ :- Need(commitFrequencyMs > 0, InvalidCommitFrequency);
    Ok(rt.(isDelegated := true, commitFrequencyMs := commitFrequencyMs,
           delegatedValidator := if validator.Some? then validator.value else DEFAULT_VALIDATOR))
  }

  function Undelegated(rt: RuntimeState): RuntimeState {
    rt.(isDelegated := false, delegatedValidator := DEFAULT_VALIDATOR, commitFrequencyMs := 0)
  }

  function Commit(rt: RuntimeState): Result<RuntimeState> {
    var _ :- Need(rt.isDelegated, RuntimeNotDelegated);
    Ok(rt)
  }

  function CommitAndUndelegate(rt: RuntimeState): Result<RuntimeState> {
    var _ :- Need(rt.isDelegated, RuntimeNotDelegated);
    Ok(Undelegated(rt))
  }

  function SettledRuntime(rt: RuntimeState, now: i64): RuntimeState {
    rt.(lastSettledSequence := rt.rollingSequence, lastSettledAt := now, rollingAudit := [])
  }

  function SettledCheckpoint(cp: CheckpointState, rt: RuntimeState, now: i64): CheckpointState {
    cp.(settledSequence := rt.rollingSequence, totalAllowed := rt.totalAllowed,
        totalRejected := rt.totalRejected, currentWindowUsed := rt.currentWindowUsed,
        currentWindowStartedAt := rt.currentWindowStartedAt, lastAction := rt.lastAction,
        lastReason := rt.lastReason, lastRequestAt := rt.lastRequestAt, lastSettledAt := now)
  }

  datatype Settlement = Settlement(
    runtime: RuntimeState, checkpoint: CheckpointState, organization: OrganizationState)

  function Settle(rt: RuntimeState, cp: CheckpointState, organization: OrganizationState, now: i64)
    : Result<Settlement>
  {
    var _ :- Need(!rt.isDelegated, RuntimeStillDelegated);
    var settlementCount :- CheckedIncrement(organization.settlementCount);
    Ok(Settlement(SettledRuntime(rt, now), SettledCheckpoint(cp, rt, now),
                  organization.(settlementCount := settlementCount)))
  }

  // ---------------------------------------------------------------- control plane

  function CreateOrganization(gateway: GatewayState, existing: Option<OrganizationState>, name: Bytes,
                              authority: Pubkey): Result<(GatewayState, OrganizationState)>
  {
    var _ :- Need(|name| <= MAX_NAME_LEN, NameTooLong);
    var _ :- Need(existing.None?, DuplicateOrganization);
    var count :- CheckedIncrement(gateway.organizationCount);
    Ok((gateway.(organizationCount := count), OrganizationState(authority, name, 0, 0, 0)))
  }

  function CreateRole(organization: OrganizationState, existing: Option<RoleState>,
                      organizationKey: Pubkey, name: Bytes, now: i64)
    : Result<(OrganizationState, RoleState)>
  {
    var _ :- Need(|name| <= MAX_NAME_LEN, NameTooLong);
    var _ :- Need(existing.None?, DuplicateRole);
    var count :- CheckedIncrement(organization.roleCount);
    Ok((organization.(roleCount := count), RoleState(organizationKey, name, 0, now)))
  }

  function AttachPolicy(role: RoleState, mask: Mask): Result<RoleState> {
    var _ :- Need(ValidMask(mask), InvalidPolicyMask);
    Ok(role.(policyMask := mask))
  }

  function CreateApiKey(organization: OrganizationState, existing: Option<ApiKeyState>,
                        organizationKey: Pubkey, role: Pubkey, keyId: Pubkey, displayLabel: Bytes,
                        authority: Pubkey, now: i64): Result<(OrganizationState, ApiKeyState)>
  {
    var _ :- Need(|displayLabel| <= MAX_LABEL_LEN, LabelTooLong);
    var _ :- Need(existing.None?, DuplicateKey);
    var count :- CheckedIncrement(organization.apiKeyCount);
    Ok((organization.(apiKeyCount := count),
        ApiKeyState(organizationKey, role, keyId, displayLabel, true, authority, now, 0)))
  }

  function CreateQuotaPolicy(organization: Pubkey, apiKey: Pubkey, maxRequests: u64, windowSeconds: i64)
    : Result<PolicyState>
  {
    var _ :- Need(maxRequests > 0 && windowSeconds > 0, InvalidQuotaConfig);
    Ok(PolicyState(organization, apiKey, maxRequests, windowSeconds))
  }

  function RevokeApiKey(apiKey: ApiKeyState, now: i64): Result<ApiKeyState> {
    var _ :- Need(apiKey.active, Error.KeyRevoked);
    Ok(apiKey.(active := false, revokedAt := now))
  }
}
