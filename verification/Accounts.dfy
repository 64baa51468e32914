/** Addresses and the contents of every account (`programs/gatekeeper/src/state.rs`). */
module Accounts {
  import opened Base
  import opened Permissions

  const MAX_NAME_LEN := 32
  const MAX_LABEL_LEN := 48
  const MAX_RUNTIME_AUDIT_ITEMS := 8

  /** A derived address is a constructor applied to its seeds, so derivation is injective by
      construction; every other key (wallets, key identifiers, validators) is `External`. */
  datatype Pubkey =
    | GatewayPda
    | OrganizationPda(gateway: Pubkey, name: Bytes)
    | RolePda(organization: Pubkey, name: Bytes)
    | ApiKeyPda(organization: Pubkey, keyId: Pubkey)
    | QuotaPolicyPda(apiKey: Pubkey)
    | QuotaRuntimePda(apiKey: Pubkey)
    | AuditCheckpointPda(apiKey: Pubkey)
    | External(id: nat)

  /** The all-zero key that stands for "no validator chosen". */
  const DEFAULT_VALIDATOR: Pubkey := External(0)

  datatype AuditRecord = AuditRecord(
    sequence: u64, action: u8, allowed: bool, reason: u8, timestamp: i64, quotaUsedAfter: u64)

  datatype GatewayState = GatewayState(authority: Pubkey, organizationCount: u64)

  datatype OrganizationState = OrganizationState(
    authority: Pubkey, name: Bytes, roleCount: u64, apiKeyCount: u64, settlementCount: u64)

  datatype RoleState = RoleState(organization: Pubkey, name: Bytes, policyMask: Mask, createdAt: i64)

  datatype ApiKeyState = ApiKeyState(
    organization: Pubkey, role: Pubkey, keyId: Pubkey, displayLabel: Bytes, active: bool,
    createdBy: Pubkey, createdAt: i64, revokedAt: i64)

  datatype PolicyState = PolicyState(
    organization: Pubkey, apiKey: Pubkey, maxRequests: u64, windowSeconds: i64)

  datatype RuntimeState = RuntimeState(
    organization: Pubkey, apiKey: Pubkey, quotaPolicy: Pubkey,
    delegatedValidator: Pubkey, commitFrequencyMs: u32, isDelegated: bool,
    totalAllowed: u64, totalRejected: u64,
    currentWindowUsed: u64, currentWindowStartedAt: i64,
    rollingSequence: u64, lastAction: u8, lastReason: u8, lastRequestAt: i64,
    lastSettledSequence: u64, lastSettledAt: i64,
    rollingAudit: seq<AuditRecord>)

  datatype CheckpointState = CheckpointState(
    organization: Pubkey, apiKey: Pubkey, quotaPolicy: Pubkey,
    settledSequence: u64, totalAllowed: u64, totalRejected: u64,
    currentWindowUsed: u64, currentWindowStartedAt: i64,
    lastAction: u8, lastReason: u8, lastRequestAt: i64, lastSettledAt: i64)
}
