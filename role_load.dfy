/** How the list and dashboard screens choose what to fetch for the logged-in
    user: an admin asks for every record; anyone else first fetches the
    employee record of their login (`getEmployeeByUserId(user.id)`) and then
    asks for that employee's records. */
module RoleLoad {
  import opened Wrappers
  import opened Helpers
  import opened Entities
  import opened Dto

  /** The records requested: all of them, or one employee's. */
  datatype Query = AllRecords | ByEmployee(employeeId: Option<Id>)

  /** `user?.role === ROLES.ADMIN`. */
  predicate IsAdminRole(role: string)
  {
    role == "ADMIN"
  }

  /** The query an admin or an employee makes; `employee` is the answer to
      the employee lookup, which an admin never makes. A failed lookup ends
      the load with its error. */
  function LoadPlan(isAdmin: bool, employee: Result<EmployeeDto, RequestError>): (r: Result<Query, RequestError>)
    ensures isAdmin ==> r == Ok(AllRecords)
    ensures !isAdmin && employee.Ok? ==> r == Ok(ByEmployee(employee.value.employeeId))
    ensures !isAdmin && employee.Failure? ==> r == Failure(employee.error)
  {
    if isAdmin then Ok(AllRecords)
    else match employee
      case Ok(e) => Ok(ByEmployee(e.employeeId))
      case Failure(err) => Failure(err)
  }

  /** A non-admin never asks for all records, and only ever for the employee
      their login resolved to. */
  lemma NonAdminSeesOwnOnly(employee: Result<EmployeeDto, RequestError>)
    ensures LoadPlan(false, employee) != Ok(AllRecords)
    ensures LoadPlan(false, employee).Ok? ==>
      employee.Ok? && LoadPlan(false, employee).value.employeeId == employee.value.employeeId
  {
  }
}
