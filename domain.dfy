/** The enumerations shared by the server entities and the client constants:
    roles, leave types, leave statuses and payroll statuses, with their names
    and Java's `Enum.valueOf`, which fails on any other string. */
module Domain {
  import opened Wrappers

  datatype Role = ADMIN | EMPLOYEE
  datatype LeaveType = SICK | CASUAL | PAID | UNPAID
  datatype LeaveStatus = PENDING | APPROVED | REJECTED
  datatype PayrollStatus = PENDING | PROCESSED | PAID

  function RoleName(r: Role): string
  {
    match r
    case ADMIN => "ADMIN"
    case EMPLOYEE => "EMPLOYEE"
  }

  function LeaveTypeName(t: LeaveType): string
  {
    match t
    case SICK => "SICK"
    case CASUAL => "CASUAL"
    case PAID => "PAID"
    case UNPAID => "UNPAID"
  }

  function LeaveStatusName(s: LeaveStatus): string
  {
    match s
    case PENDING => "PENDING"
    case APPROVED => "APPROVED"
    case REJECTED => "REJECTED"
  }

  function PayrollStatusName(s: PayrollStatus): string
  {
    match s
    case PENDING => "PENDING"
    case PROCESSED => "PROCESSED"
    case PAID => "PAID"
  }

  /** `LeaveRequest.LeaveType.valueOf(name)`. */
  function ParseLeaveType(name: string): (r: Option<LeaveType>)
    ensures forall t :: r == Some(t) <==> name == LeaveTypeName(t)
  {
    if name == "SICK" then Some(SICK)
    else if name == "CASUAL" then Some(CASUAL)
    else if name == "PAID" then Some(LeaveType.PAID)
    else if name == "UNPAID" then Some(UNPAID)
    else None
  }

  /** `LeaveRequest.LeaveStatus.valueOf(name)`. */
  function ParseLeaveStatus(name: string): (r: Option<LeaveStatus>)
    ensures forall s :: r == Some(s) <==> name == LeaveStatusName(s)
  {
    if name == "PENDING" then Some(LeaveStatus.PENDING)
    else if name == "APPROVED" then Some(APPROVED)
    else if name == "REJECTED" then Some(REJECTED)
    else None
  }
}
