/** The repositories behind the services: one table per entity, keyed by the
    generated id, with the next id of each IDENTITY column. `Valid` collects
    what the schema and the services keep true: keys match record ids and are
    below the next id, the unique columns (username, email, department name,
    job title, the user of an employee) are unique, at most one payroll exists
    per employee and period, and every foreign key refers to a stored row. */
module Store {
  import opened Wrappers
  import opened Domain
  import opened Entities

  // ---- per-table invariants, as predicates on the table values ----

  predicate UserKeys(users: map<Id, User>, next: Id)
  {
    forall id :: id in users ==> users[id].userId == id && id < next
  }

  predicate EmployeeKeys(employees: map<Id, Employee>, next: Id)
  {
    forall id :: id in employees ==> employees[id].employeeId == id && id < next
  }

  predicate DepartmentKeys(departments: map<Id, Department>, next: Id)
  {
    forall id :: id in departments ==> departments[id].departmentId == id && id < next
  }

  predicate JobRoleKeys(jobRoles: map<Id, JobRole>, next: Id)
  {
    forall id :: id in jobRoles ==> jobRoles[id].jobId == id && id < next
  }

  predicate LeaveKeys(leaves: map<Id, LeaveRequest>, next: Id)
  {
    forall id :: id in leaves ==> leaves[id].leaveId == id && id < next
  }

  predicate PayrollKeys(payrolls: map<Id, Payroll>, next: Id)
  {
    forall id :: id in payrolls ==> payrolls[id].payrollId == id && id < next
  }

  predicate UniqueUsernames(users: map<Id, User>)
  {
    forall a, b :: a in users && b in users && a != b ==> users[a].username != users[b].username
  }

  predicate UniqueEmails(users: map<Id, User>)
  {
    forall a, b :: a in users && b in users && a != b ==> users[a].email != users[b].email
  }

  /** The one-to-one link from employee to user. */
  predicate OneEmployeePerUser(employees: map<Id, Employee>)
  {
    forall a, b :: a in employees && b in employees && a != b ==> employees[a].userId != employees[b].userId
  }

  predicate UniqueDepartmentNames(departments: map<Id, Department>)
  {
    forall a, b :: a in departments && b in departments && a != b ==>
      departments[a].departmentName != departments[b].departmentName
  }

  predicate UniqueJobTitles(jobRoles: map<Id, JobRole>)
  {
    forall a, b :: a in jobRoles && b in jobRoles && a != b ==> jobRoles[a].jobTitle != jobRoles[b].jobTitle
  }

  predicate OnePayrollPerPeriod(payrolls: map<Id, Payroll>)
  {
    forall a, b :: a in payrolls && b in payrolls && a != b ==>
      !SamePeriod(payrolls[a], payrolls[b])
  }

  predicate SamePeriod(p: Payroll, q: Payroll)
  {
    p.employeeId == q.employeeId && p.month == q.month && p.year == q.year
  }

  predicate EmployeeLinks(employees: map<Id, Employee>, users: map<Id, User>,
                          departments: map<Id, Department>, jobRoles: map<Id, JobRole>)
  {
    forall id :: id in employees ==>
      employees[id].userId in users
      && (employees[id].departmentId.Some? ==> employees[id].departmentId.value in departments)
      && (employees[id].jobId.Some? ==> employees[id].jobId.value in jobRoles)
  }

  predicate LeaveLinks(leaves: map<Id, LeaveRequest>, employees: map<Id, Employee>)
  {
    forall id :: id in leaves ==>
      leaves[id].employeeId in employees
      && (leaves[id].processedBy.Some? ==> leaves[id].processedBy.value in employees)
  }

  predicate PayrollLinks(payrolls: map<Id, Payroll>, employees: map<Id, Employee>)
  {
    forall id :: id in payrolls ==> payrolls[id].employeeId in employees
  }

  /** Some employee is assigned to the department (`department.getEmployees()`
      is not empty). */
  predicate HasDepartmentMembers(employees: map<Id, Employee>, departmentId: Id)
  {
    exists e :: e in employees && employees[e].departmentId == Some(departmentId)
  }

  predicate HasJobRoleMembers(employees: map<Id, Employee>, jobId: Id)
  {
    exists e :: e in employees && employees[e].jobId == Some(jobId)
  }

  /** Some leave request or payroll row points at the employee. */
  predicate EmployeeReferenced(leaves: map<Id, LeaveRequest>, payrolls: map<Id, Payroll>, employeeId: Id)
  {
    (exists l :: l in leaves && (leaves[l].employeeId == employeeId || leaves[l].processedBy == Some(employeeId)))
    || (exists p :: p in payrolls && payrolls[p].employeeId == employeeId)
  }

  /** The whole store as one value, so a contract can say which tables an
      operation changed and that the others are untouched. */
  datatype Snapshot = Snapshot(
    users: map<Id, User>,
    employees: map<Id, Employee>,
    departments: map<Id, Department>,
    jobRoles: map<Id, JobRole>,
    leaves: map<Id, LeaveRequest>,
    payrolls: map<Id, Payroll>,
    nextUserId: Id,
    nextEmployeeId: Id,
    nextDepartmentId: Id,
    nextJobId: Id,
    nextLeaveId: Id,
    nextPayrollId: Id)

  /** What the schema and the services keep true of the whole store. */
  predicate Consistent(s: Snapshot)
  {
    UserKeys(s.users, s.nextUserId) && EmployeeKeys(s.employees, s.nextEmployeeId)
    && DepartmentKeys(s.departments, s.nextDepartmentId) && JobRoleKeys(s.jobRoles, s.nextJobId)
    && LeaveKeys(s.leaves, s.nextLeaveId) && PayrollKeys(s.payrolls, s.nextPayrollId)
    && UniqueUsernames(s.users) && UniqueEmails(s.users)
    && OneEmployeePerUser(s.employees)
    && UniqueDepartmentNames(s.departments) && UniqueJobTitles(s.jobRoles)
    && OnePayrollPerPeriod(s.payrolls)
    && EmployeeLinks(s.employees, s.users, s.departments, s.jobRoles)
    && LeaveLinks(s.leaves, s.employees)
    && PayrollLinks(s.payrolls, s.employees)
  }

  class Database {
    var users: map<Id, User>
    var employees: map<Id, Employee>
    var departments: map<Id, Department>
    var jobRoles: map<Id, JobRole>
    var leaves: map<Id, LeaveRequest>
    var payrolls: map<Id, Payroll>
    var nextUserId: Id
    var nextEmployeeId: Id
    var nextDepartmentId: Id
    var nextJobId: Id
    var nextLeaveId: Id
    var nextPayrollId: Id

    predicate Valid()
      reads this
    {
      Consistent(Snap())
    }

    function Snap(): Snapshot
      reads this
    {
      Snapshot(users, employees, departments, jobRoles, leaves, payrolls,
               nextUserId, nextEmployeeId, nextDepartmentId, nextJobId, nextLeaveId, nextPayrollId)
    }

    /** An empty schema; IDENTITY columns start at 1. */
    constructor ()
      ensures Valid()
      ensures users == map[] && employees == map[] && departments == map[]
      ensures jobRoles == map[] && leaves == map[] && payrolls == map[]
    {
      users, employees, departments, jobRoles, leaves, payrolls := map[], map[], map[], map[], map[], map[];
      nextUserId, nextEmployeeId, nextDepartmentId, nextJobId, nextLeaveId, nextPayrollId := 1, 1, 1, 1, 1, 1;
    }

    /** `employeeRepository.findByUserUserId(userId)`. */
    method FindEmployeeByUserId(userId: Id) returns (r: Option<Employee>)
      requires Valid()
      ensures r.Some? ==> r.value.employeeId in employees && employees[r.value.employeeId] == r.value
                          && r.value.userId == userId
      ensures r.None? <==> forall e :: e in employees ==> employees[e].userId != userId
    {
      if e :| e in employees && employees[e].userId == userId {
        r := Some(employees[e]);
      } else {
        r := None;
      }
    }
  }

  /** The key of a user's employee, when there is one; the one-to-one link
      makes it unique. */
  ghost function EmployeeKeyOfUser(employees: map<Id, Employee>, userId: Id): (r: Option<Id>)
    requires OneEmployeePerUser(employees)
    ensures r.Some? ==> r.value in employees && employees[r.value].userId == userId
    ensures r.None? <==> forall e :: e in employees ==> employees[e].userId != userId
  {
    if e :| e in employees && employees[e].userId == userId then Some(e) else None
  }
}
