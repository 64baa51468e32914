/** Actions, permission masks and decision reasons (`programs/gatekeeper/src/utils.rs`). */
module Permissions {
  import opened Base

  type Mask = bv64

  const PERMISSION_METRICS_READ: Mask := 1
  const PERMISSION_METRICS_WRITE: Mask := 2
  const PERMISSION_USERS_READ: Mask := 4
  const PERMISSION_USERS_WRITE: Mask := 8
  const PERMISSION_ADMIN: Mask := 16
  const ALL_PERMISSIONS_MASK: Mask := 31

  datatype Action = MetricsRead | MetricsWrite | UsersRead | UsersWrite | Admin

  function ParseAction(value: u8): Option<Action> {
    match value
    case 0 => Some(MetricsRead)
    case 1 => Some(MetricsWrite)
    case 2 => Some(UsersRead)
    case 3 => Some(UsersWrite)
    case 4 => Some(Admin)
    case _ => None
  }

  function PermissionMask(action: Action): Mask {
    match action
    case MetricsRead => PERMISSION_METRICS_READ
    case MetricsWrite => PERMISSION_METRICS_WRITE
    case UsersRead => PERMISSION_USERS_READ
    case UsersWrite => PERMISSION_USERS_WRITE
    case Admin => PERMISSION_ADMIN
  }

  predicate ValidMask(mask: Mask) {
    mask & !ALL_PERMISSIONS_MASK == 0
  }

  predicate RoleAllows(mask: Mask, action: Action) {
    mask & PERMISSION_ADMIN != 0 || mask & PermissionMask(action) != 0
  }

  datatype DecisionReason = Allowed | Unauthorized | KeyRevoked | QuotaExceeded | InvalidAction {
    function Code(): u8 {
      match this
      case Allowed => 0
      case Unauthorized => 1
      case KeyRevoked => 2
      case QuotaExceeded => 3
      case InvalidAction => 4
    }
  }
}
