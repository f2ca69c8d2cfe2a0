/** The persistent records of the server (the JPA entities User, Employee,
    Department, JobRole, LeaveRequest and Payroll), the failures its services
    raise, and the net-salary rule. Ids are the generated keys; dates are day
    numbers and time stamps are instants; amounts are exact decimals. */
module Entities {
  import opened Wrappers
  import opened Domain
  import Helpers

  type Id = nat

  datatype User = User(userId: Id, username: string, email: string, password: string, role: Role, isActive: bool)

  /** An employee; `userId` is the one-to-one link to its login. Department and
      job role are optional many-to-one links. */
  datatype Employee = Employee(
    employeeId: Id,
    userId: Id,
    firstName: string,
    lastName: string,
    dateOfBirth: Option<int>,
    phoneNumber: Option<string>,
    address: Option<string>,
    hireDate: int,
    departmentId: Option<Id>,
    jobId: Option<Id>,
    leaveBalance: int)

  datatype Department = Department(departmentId: Id, departmentName: string, description: Option<string>)

  datatype JobRole = JobRole(jobId: Id, jobTitle: string, baseSalary: Option<real>, description: Option<string>)

  datatype LeaveRequest = LeaveRequest(
    leaveId: Id,
    employeeId: Id,
    startDate: int,
    endDate: int,
    leaveType: LeaveType,
    reason: Option<string>,
    status: LeaveStatus,
    appliedDate: int,
    processedDate: Option<int>,
    processedBy: Option<Id>)

  datatype Payroll = Payroll(
    payrollId: Id,
    employeeId: Id,
    month: int,
    year: int,
    baseSalary: Option<real>,
    allowances: Option<real>,
    deductions: Option<real>,
    netSalary: real,
    status: PayrollStatus,
    generatedDate: int,
    processedDate: Option<int>)

  /** The exceptions the services throw: `ResourceNotFoundException`, a plain
      `RuntimeException`, the `IllegalArgumentException` of `Enum.valueOf`, and
      the database's refusal of a delete that would break a foreign key. */
  datatype ServiceError =
    | ResourceNotFound(message: string)
    | Runtime(message: string)
    | IllegalArgument(message: string)
    | ConstraintViolation

  function IdText(id: Id): string
  {
    Helpers.IntToString(id)
  }

  function NotFound(entity: string, id: Id): ServiceError
  {
    ResourceNotFound(entity + " not found with id: " + IdText(id))
  }

  /** `BigDecimal` null-or-value, null read as zero. */
  function OrZero(amount: Option<real>): real
  {
    amount.GetOr(0.0)
  }

  /** `calculateNetSalary`: base + allowances - deductions, any null counted as zero. */
  function NetSalary(baseSalary: Option<real>, allowances: Option<real>, deductions: Option<real>): (r: real)
    ensures allowances.None? && deductions.None? ==> r == OrZero(baseSalary)
    ensures baseSalary.Some? && allowances.Some? && deductions.Some? ==>
      r == baseSalary.value + allowances.value - deductions.value
  {
    OrZero(baseSalary) + OrZero(allowances) - OrZero(deductions)
  }

  /** `ChronoUnit.DAYS.between(start, end) + 1`: negative spans are not clamped. */
  function DaysRequested(startDate: int, endDate: int): int
  {
    endDate - startDate + 1
  }
}
