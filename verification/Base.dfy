/** Machine integers, checked arithmetic and the error type shared by every instruction. */
module Base {

  const MAX_U64: int := 0xFFFF_FFFF_FFFF_FFFF
  const MAX_I64: int := 0x7FFF_FFFF_FFFF_FFFF

  /** Integers from here on have no exact JavaScript number: the client throws rather than convert one, in
      either direction. */
  const UNSAFE: int := 0x20_0000_0000_0000

  type u8 = x: int | 0 <= x < 0x100
  type u32 = x: int | 0 <= x < 0x1_0000_0000
  type u64 = x: int | 0 <= x <= MAX_U64
  type i64 = x: int | -MAX_I64 - 1 <= x <= MAX_I64

  /** Names and labels are UTF-8 byte strings: the source bounds their length in bytes. */
  type Bytes = seq<u8>

  datatype Option<+T> = None | Some(value: T)

  /** The program's own errors, then the checks Anchor and the runtime perform on the accounts. */
  datatype Error =
    | RuntimeAlreadyInitialized
    | RuntimeAlreadyDelegated
    | RuntimeNotDelegated
    | RuntimeStillDelegated
    | InvalidOrganizationAuthority
    | DuplicateRole
    | DuplicateKey
    | DuplicateOrganization
    | KeyRevoked
    | InvalidQuotaConfig
    | MathOverflow
    | InvalidPolicyMask
    | NameTooLong
    | LabelTooLong
    | RoleOrganizationMismatch
    | ApiKeyOrganizationMismatch
    | ApiKeyRoleMismatch
    | QuotaPolicyMismatch
    | QuotaRuntimeMismatch
    | AuditCheckpointMismatch
    | InvalidCommitFrequency
    | AccountNotInitialized
    | ConstraintSeeds
    | AccountOwnedByWrongProgram
    | AccountNotWritable
    | NothingInFlight

  datatype Result<+T> = Ok(value: T) | Err(error: Error) {
    predicate IsFailure() {
      Err?
    }

    function PropagateFailure<U>(): Result<U>
      requires Err?
    {
      Err(error)
    }

    function Extract(): T
      requires Ok?
    {
      value
    }
  }

  /** `require!(condition, error)`. */
  function Need(condition: bool, error: Error): Result<()> {
    if condition then Ok(()) else Err(error)
  }

  function Lookup<K, V>(m: map<K, V>, k: K): Option<V> {
    if k in m then Some(m[k]) else None
  }

  function CheckedIncrement(n: u64): Result<u64> {
    if n < MAX_U64 then Ok(n + 1) else Err(MathOverflow)
  }

  /** Rust's `i64::checked_add`: `None` on either side becomes `MathOverflow`. */
  function CheckedAddI64(a: i64, b: i64): Result<i64> {
    if -MAX_I64 - 1 <= a + b <= MAX_I64 then Ok(a + b) else Err(MathOverflow)
  }

  function Init<T>(s: seq<T>): seq<T>
    requires s != []
  {
    s[..|s| - 1]
  }

  function Last<T>(s: seq<T>): T
    requires s != []
  {
    s[|s| - 1]
  }
}
