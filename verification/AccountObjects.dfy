/** The accounts as the handlers see them: deserialized objects whose fields they update in place. */
module AccountObjects {
  import opened Base
  import opened Permissions
  import opened Accounts
  import Engine

  class Gateway {
    var authority: Pubkey
    var organizationCount: u64

    constructor Load(data: GatewayState)
      ensures Data() == data
    {
      authority, organizationCount := data.authority, data.organizationCount;
    }

    function Data(): GatewayState
      reads this
    {
      GatewayState(authority, organizationCount)
    }
  }

  class Organization {
    var initialized: bool
    var authority: Pubkey
    var name: Bytes
    var roleCount: u64
    var apiKeyCount: u64
    var settlementCount: u64

    constructor Load(account: Option<OrganizationState>)
      ensures Content() == account
    {
      initialized := account.Some?;
      var data := if account.Some? then account.value else OrganizationState(DEFAULT_VALIDATOR, [], 0, 0, 0);
      authority, name := data.authority, data.name;
      roleCount, apiKeyCount, settlementCount := data.roleCount, data.apiKeyCount, data.settlementCount;
    }

    function Data(): OrganizationState
      reads this
    {
      OrganizationState(authority, name, roleCount, apiKeyCount, settlementCount)
    }

    function Content(): Option<OrganizationState>
      reads this
    {
      if initialized then Some(Data()) else None
    }
  }

  class Role {
    var initialized: bool
    var organization: Pubkey
    var name: Bytes
    var policyMask: Mask
    var createdAt: i64

    constructor Load(account: Option<RoleState>)
      ensures Content() == account
    {
      initialized := account.Some?;
      var data := if account.Some? then account.value else RoleState(DEFAULT_VALIDATOR, [], 0, 0);
      organization, name, policyMask, createdAt := data.organization, data.name, data.policyMask, data.createdAt;
    }

    function Data(): RoleState
      reads this
    {
      RoleState(organization, name, policyMask, createdAt)
    }

    function Content(): Option<RoleState>
      reads this
    {
      if initialized then Some(Data()) else None
    }
  }

  class ApiKey {
    var initialized: bool
    var organization: Pubkey
    var role: Pubkey
    var keyId: Pubkey
    var displayLabel: Bytes
    var active: bool
    var createdBy: Pubkey
    var createdAt: i64
    var revokedAt: i64

    constructor Load(account: Option<ApiKeyState>)
      ensures Content() == account
    {
      initialized := account.Some?;
      var zero := DEFAULT_VALIDATOR;
      var data := if account.Some? then account.value else ApiKeyState(zero, zero, zero, [], false, zero, 0, 0);
      organization, role, keyId, displayLabel := data.organization, data.role, data.keyId, data.displayLabel;
      active, createdBy, createdAt, revokedAt := data.active, data.createdBy, data.createdAt, data.revokedAt;
    }

    method Issue(organization: Pubkey, role: Pubkey, keyId: Pubkey, displayLabel: Bytes, authority: Pubkey, now: i64)
      modifies this
      ensures Content() == Some(ApiKeyState(organization, role, keyId, displayLabel, true, authority, now, 0))
    {
      initialized := true;
      this.organization, this.role, this.keyId, this.displayLabel := organization, role, keyId, displayLabel;
      active := true;
      createdBy := authority;
      createdAt := now;
      revokedAt := 0;
    }

    function Data(): ApiKeyState
      reads this
    {
      ApiKeyState(organization, role, keyId, displayLabel, active, createdBy, createdAt, revokedAt)
    }

    function Content(): Option<ApiKeyState>
      reads this
    {
      if initialized then Some(Data()) else None
    }
  }

  class QuotaPolicy {
    var initialized: bool
    var organization: Pubkey
    var apiKey: Pubkey
    var maxRequests: u64
    var windowSeconds: i64

    constructor Load(account: Option<PolicyState>)
      ensures Content() == account
    {
      initialized := account.Some?;
      var data := if account.Some? then account.value else PolicyState(DEFAULT_VALIDATOR, DEFAULT_VALIDATOR, 0, 0);
      organization, apiKey := data.organization, data.apiKey;
      maxRequests, windowSeconds := data.maxRequests, data.windowSeconds;
    }

    function Data(): PolicyState
      reads this
    {
      PolicyState(organization, apiKey, maxRequests, windowSeconds)
    }

    function Content(): Option<PolicyState>
      reads this
    {
      if initialized then Some(Data()) else None
    }
  }

  class AuditCheckpoint {
    var initialized: bool
    var organization: Pubkey
    var apiKey: Pubkey
    var quotaPolicy: Pubkey
    var settledSequence: u64
    var totalAllowed: u64
    var totalRejected: u64
    var currentWindowUsed: u64
    var currentWindowStartedAt: i64
    var lastAction: u8
    var lastReason: u8
    var lastRequestAt: i64
    var lastSettledAt: i64

    constructor Load(account: Option<CheckpointState>)
      ensures Content() == account
    {
      initialized := account.Some?;
      var zero := DEFAULT_VALIDATOR;
      var data := if account.Some? then account.value else CheckpointState(zero, zero, zero, 0, 0, 0, 0, 0, 0, 0, 0, 0);
      organization, apiKey, quotaPolicy := data.organization, data.apiKey, data.quotaPolicy;
      settledSequence, totalAllowed, totalRejected := data.settledSequence, data.totalAllowed, data.totalRejected;
      currentWindowUsed, currentWindowStartedAt := data.currentWindowUsed, data.currentWindowStartedAt;
      lastAction, lastReason, lastRequestAt := data.lastAction, data.lastReason, data.lastRequestAt;
      lastSettledAt := data.lastSettledAt;
    }

    method Open(organization: Pubkey, apiKey: Pubkey, policy: Pubkey, now: i64)
      modifies this
      ensures Content() == Some(Engine.FreshCheckpoint(organization, apiKey, policy, now))
    {
      initialized := true;
      this.organization, this.apiKey, quotaPolicy := organization, apiKey, policy;
      Copy(0, 0, 0, 0, now, 0, 0, 0);
      lastSettledAt := 0;
    }

    method Copy(sequence: u64, allowed: u64, rejected: u64, used: u64, startedAt: i64,
                action: u8, reason: u8, requestAt: i64)
      modifies this`settledSequence, this`totalAllowed, this`totalRejected, this`currentWindowUsed,
               this`currentWindowStartedAt, this`lastAction, this`lastReason, this`lastRequestAt
      ensures settledSequence == sequence && totalAllowed == allowed && totalRejected == rejected
      ensures currentWindowUsed == used && currentWindowStartedAt == startedAt
      ensures lastAction == action && lastReason == reason && lastRequestAt == requestAt
    {
      settledSequence := sequence;
      totalAllowed := allowed;
      totalRejected := rejected;
      currentWindowUsed := used;
      currentWindowStartedAt := startedAt;
      lastAction := action;
      lastReason := reason;
      lastRequestAt := requestAt;
    }

    /** Take over the counters, the window and the last decision of a runtime. */
    method Absorb(runtime: QuotaRuntime, now: i64)
      requires runtime.Valid()
      modifies this
      ensures Data() == Engine.SettledCheckpoint(old(Data()), runtime.Data(), now) && initialized == old(initialized)
    {
      Copy(runtime.rollingSequence, runtime.totalAllowed, runtime.totalRejected, runtime.currentWindowUsed,
           runtime.currentWindowStartedAt, runtime.lastAction, runtime.lastReason, runtime.lastRequestAt);
      lastSettledAt := now;
    }

    function Data(): CheckpointState
      reads this
    {
      CheckpointState(organization, apiKey, quotaPolicy, settledSequence, totalAllowed, totalRejected,
                      currentWindowUsed, currentWindowStartedAt, lastAction, lastReason, lastRequestAt, lastSettledAt)
    }

    function Content(): Option<CheckpointState>
      reads this
    {
      if initialized then Some(Data()) else None
    }
  }

  /** The rolling buffer lives in an array with room for one record more than it keeps. */
  class QuotaRuntime {
    var initialized: bool
    var organization: Pubkey
    var apiKey: Pubkey
    var quotaPolicy: Pubkey
    var delegatedValidator: Pubkey
    var commitFrequencyMs: u32
    var isDelegated: bool
    var totalAllowed: u64
    var totalRejected: u64
    var currentWindowUsed: u64
    var currentWindowStartedAt: i64
    var rollingSequence: u64
    var lastAction: u8
    var lastReason: u8
    var lastRequestAt: i64
    var lastSettledSequence: u64
    var lastSettledAt: i64
    const rollingAudit: array<AuditRecord>
    var auditLen: nat

    ghost predicate Valid()
      reads this
    {
      rollingAudit.Length == MAX_RUNTIME_AUDIT_ITEMS + 1 && auditLen <= MAX_RUNTIME_AUDIT_ITEMS
    }

    constructor Load(account: Option<RuntimeState>)
      requires account.Some? ==> |account.value.rollingAudit| <= MAX_RUNTIME_AUDIT_ITEMS
      ensures Valid() && fresh(rollingAudit)
      ensures Content() == account
    {
      initialized := account.Some?;
      var zero := DEFAULT_VALIDATOR;
      var data := if account.Some? then account.value else Engine.FreshRuntime(zero, zero, zero, 0);
      organization, apiKey, quotaPolicy := data.organization, data.apiKey, data.quotaPolicy;
      delegatedValidator, commitFrequencyMs := data.delegatedValidator, data.commitFrequencyMs;
      isDelegated := data.isDelegated;
      totalAllowed, totalRejected := data.totalAllowed, data.totalRejected;
      currentWindowUsed, currentWindowStartedAt := data.currentWindowUsed, data.currentWindowStartedAt;
      rollingSequence, lastAction, lastReason := data.rollingSequence, data.lastAction, data.lastReason;
      lastRequestAt := data.lastRequestAt;
      lastSettledSequence, lastSettledAt := data.lastSettledSequence, data.lastSettledAt;
      var audit := data.rollingAudit;
      rollingAudit := new AuditRecord[MAX_RUNTIME_AUDIT_ITEMS + 1](
        i => if 0 <= i < |audit| then audit[i] else AuditRecord(0, 0, false, 0, 0, 0));
      auditLen := |audit|;
      new;
      assert rollingAudit[..auditLen] == audit;
    }

    function Data(): RuntimeState
      requires auditLen <= rollingAudit.Length
      reads this, rollingAudit
    {
      RuntimeState(organization, apiKey, quotaPolicy, delegatedValidator, commitFrequencyMs, isDelegated,
                   totalAllowed, totalRejected, currentWindowUsed, currentWindowStartedAt,
                   rollingSequence, lastAction, lastReason, lastRequestAt, lastSettledSequence, lastSettledAt,
                   rollingAudit[..auditLen])
    }

    function Content(): Option<RuntimeState>
      requires auditLen <= rollingAudit.Length
      reads this, rollingAudit
    {
      if initialized then Some(Data()) else None
    }

    method Start(organization: Pubkey, apiKey: Pubkey, policy: Pubkey, now: i64)
      requires Valid()
      modifies this
      ensures Valid()
      ensures initialized && Data() == Engine.FreshRuntime(organization, apiKey, policy, now)
    {
      Attach(organization, apiKey, policy);
      EndDelegation();
      ClearCounters(now);
      assert rollingAudit[..auditLen] == [];
    }

    method Attach(organization: Pubkey, apiKey: Pubkey, policy: Pubkey)
      modifies this`initialized, this`organization, this`apiKey, this`quotaPolicy
      ensures initialized && this.organization == organization && this.apiKey == apiKey && quotaPolicy == policy
    {
      initialized := true;
      this.organization := organization;
      this.apiKey := apiKey;
      quotaPolicy := policy;
    }

    method EndDelegation()
      modifies this`delegatedValidator, this`commitFrequencyMs, this`isDelegated
      ensures delegatedValidator == DEFAULT_VALIDATOR && commitFrequencyMs == 0 && !isDelegated
    {
      isDelegated := false;
      delegatedValidator := DEFAULT_VALIDATOR;
      commitFrequencyMs := 0;
    }

    method ClearCounters(now: i64)
      modifies this`totalAllowed, this`totalRejected, this`currentWindowUsed, this`currentWindowStartedAt,
               this`rollingSequence, this`lastAction, this`lastReason, this`lastRequestAt,
               this`lastSettledSequence, this`lastSettledAt, this`auditLen
      ensures totalAllowed == totalRejected == rollingSequence == 0
      ensures currentWindowUsed == 0 && currentWindowStartedAt == now
      ensures lastAction == lastReason == 0 && lastRequestAt == 0
      ensures lastSettledSequence == 0 && lastSettledAt == 0 && auditLen == 0
    {
      totalAllowed, totalRejected := 0, 0;
      currentWindowUsed, currentWindowStartedAt := 0, now;
      rollingSequence, lastAction, lastReason, lastRequestAt := 0, 0, 0, 0;
      lastSettledSequence, lastSettledAt := 0, 0;
      auditLen := 0;
    }

    method MarkSettled(now: i64)
      requires Valid()
      modifies this`lastSettledSequence, this`lastSettledAt, this`auditLen
      ensures Valid() && Data() == Engine.SettledRuntime(old(Data()), now)
    {
      lastSettledSequence := rollingSequence;
      lastSettledAt := now;
      auditLen := 0;
    }

    /** `Vec::remove(0)`: every later record moves down one place. */
    method RemoveFirst()
      requires 0 < auditLen <= rollingAudit.Length
      modifies this`auditLen, rollingAudit
      ensures auditLen == old(auditLen) - 1
      ensures rollingAudit[..auditLen] == old(rollingAudit[1..auditLen])
    {
      var i := 1;
      while i < auditLen
        invariant 1 <= i <= auditLen == old(auditLen)
        invariant forall j :: 0 <= j < i - 1 ==> rollingAudit[j] == old(rollingAudit[j + 1])
        invariant forall j :: i - 1 <= j < rollingAudit.Length ==> rollingAudit[j] == old(rollingAudit[j])
      {
        rollingAudit[i - 1] := rollingAudit[i];
        i := i + 1;
      }
      auditLen := auditLen - 1;
    }

    method Push(record: AuditRecord)
      requires Valid()
      modifies this`auditLen, rollingAudit
      ensures Valid()
      ensures rollingAudit[..auditLen] == Engine.Pushed(old(rollingAudit[..auditLen]), record)
    {
      ghost var before := rollingAudit[..auditLen];
      rollingAudit[auditLen] := record;
      auditLen := auditLen + 1;
      assert rollingAudit[..auditLen] == before + [record];
      if auditLen > MAX_RUNTIME_AUDIT_ITEMS {
        assert rollingAudit[1..auditLen] == (before + [record])[1..];
        RemoveFirst();
      }
    }

    method ResetIfExpired(policy: QuotaPolicy, now: i64) returns (r: Result<()>)
      requires Valid()
      modifies this`currentWindowUsed, this`currentWindowStartedAt
      ensures var spec := Engine.ResetIfExpired(old(Data()), policy.windowSeconds, now);
        if r.Ok? then spec.Ok? && spec.value == Data() else spec == Err(r.error)
    {
      var windowEndsAt := CheckedAddI64(currentWindowStartedAt, policy.windowSeconds);
      if windowEndsAt.Err? {
        return Err(windowEndsAt.error);
      }
      if now >= windowEndsAt.value {
        currentWindowUsed := 0;
        currentWindowStartedAt := now;
      }
      return Ok(());
    }

    method Record(action: u8, allowed: bool, reason: DecisionReason, now: i64)
      requires Valid()
      modifies this`lastAction, this`lastReason, this`lastRequestAt, this`auditLen, rollingAudit
      ensures Valid()
      ensures var record := AuditRecord(rollingSequence, action, allowed, reason.Code(), now, currentWindowUsed);
        Data() == old(Data()).(lastAction := action, lastReason := reason.Code(), lastRequestAt := now,
                               rollingAudit := Engine.Pushed(old(rollingAudit[..auditLen]), record))
    {
      lastAction := action;
      lastReason := reason.Code();
      lastRequestAt := now;
      Push(AuditRecord(rollingSequence, action, allowed, reason.Code(), now, currentWindowUsed));
    }

    method Tally(allowed: bool) returns (r: Result<()>)
      modifies this`totalAllowed, this`totalRejected
      ensures var total := if allowed then old(totalAllowed) else old(totalRejected);
        r == if total < MAX_U64 then Ok(()) else Err(MathOverflow)
      ensures totalAllowed == old(totalAllowed) + if r.Ok? && allowed then 1 else 0
      ensures totalRejected == old(totalRejected) + if r.Ok? && !allowed then 1 else 0
    {
      if allowed {
        var total := CheckedIncrement(totalAllowed);
        if total.Err? {
          return Err(total.error);
        }
        totalAllowed := total.value;
      } else {
        var total := CheckedIncrement(totalRejected);
        if total.Err? {
          return Err(total.error);
        }
        totalRejected := total.value;
      }
      return Ok(());
    }

    /** Counters change before a later counter can fail, so an error may leave a half-updated object;
        the caller discards it. */
    method AppendAudit(action: u8, allowed: bool, reason: DecisionReason, now: i64) returns (r: Result<u64>)
      requires Valid()
      modifies this`rollingSequence, this`totalAllowed, this`totalRejected, this`lastAction, this`lastReason,
               this`lastRequestAt, this`auditLen, rollingAudit
      ensures Valid()
      ensures var spec := Engine.AppendAudit(old(Data()), action, allowed, reason, now);
        if r.Ok? then spec.Ok? && spec.value == Data() && r.value == rollingSequence else spec == Err(r.error)
    {
      var sequence := CheckedIncrement(rollingSequence);
      if sequence.Err? {
        return sequence;
      }
      rollingSequence := sequence.value;
      var tallied := Tally(allowed);
      if tallied.Err? {
        return Err(tallied.error);
      }
      Record(action, allowed, reason, now);
      return Ok(rollingSequence);
    }
  }
}
