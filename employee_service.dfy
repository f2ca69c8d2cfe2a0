/** Employees on the server (EmployeeServiceImpl.java): lookup by user with
    automatic creation, creation with at most one employee per user, update,
    deletion and the transfer form with department name and job title. */
module EmployeeService {
  import opened Wrappers
  import opened Entities
  import opened Dto
  import opened Store
  import StoreLaws

  /** The balance a new employee starts with (`Employee.leaveBalance`). */
  const DefaultLeaveBalance := 20

  /** The employee `getEmployeeByUserId` creates for a user without one. */
  function AutoEmployee(id: Id, user: User, today: int): (r: Employee)
    ensures r.employeeId == id && r.userId == user.userId
    ensures r.firstName == user.username && r.lastName == "User"
    ensures r.hireDate == today && r.leaveBalance == DefaultLeaveBalance
    ensures r.departmentId.None? && r.jobId.None?
  {
    Employee(id, user.userId, user.username, "User", None, None, None, today, None, None, DefaultLeaveBalance)
  }

  /** The record `createEmployee` builds from the request. */
  function NewEmployee(id: Id, dto: EmployeeDto): (r: Employee)
    ensures r.employeeId == id && r.userId == dto.userId && r.hireDate == dto.hireDate
    ensures r.departmentId == dto.departmentId && r.jobId == dto.jobId
    ensures dto.leaveBalance.None? ==> r.leaveBalance == DefaultLeaveBalance
    ensures dto.leaveBalance.Some? ==> r.leaveBalance == dto.leaveBalance.value
  {
    Employee(id, dto.userId, dto.firstName, dto.lastName, dto.dateOfBirth, dto.phoneNumber, dto.address,
             dto.hireDate, dto.departmentId, dto.jobId, dto.leaveBalance.GetOr(DefaultLeaveBalance))
  }

  /** The record `updateEmployee` writes: links replaced (a null clears them),
      names, birth date, phone and address overwritten, the balance only when
      given; the user and the hire date are kept. */
  function UpdatedEmployee(e: Employee, dto: EmployeeDto): (r: Employee)
    ensures r.employeeId == e.employeeId && r.userId == e.userId && r.hireDate == e.hireDate
    ensures r.departmentId == dto.departmentId && r.jobId == dto.jobId
    ensures r.firstName == dto.firstName && r.lastName == dto.lastName && r.dateOfBirth == dto.dateOfBirth
    ensures r.phoneNumber == dto.phoneNumber && r.address == dto.address
    ensures r.leaveBalance == if dto.leaveBalance.Some? then dto.leaveBalance.value else e.leaveBalance
  {
    e.(departmentId := dto.departmentId, jobId := dto.jobId,
       firstName := dto.firstName, lastName := dto.lastName, dateOfBirth := dto.dateOfBirth,
       phoneNumber := dto.phoneNumber, address := dto.address,
       leaveBalance := dto.leaveBalance.GetOr(e.leaveBalance))
  }

  /** The link targets named by a request exist; the error of the first that
      does not (department before job role). */
  function LinkError(dto: EmployeeDto, departments: map<Id, Department>, jobRoles: map<Id, JobRole>): (r: Option<ServiceError>)
    ensures r.None? <==> (dto.departmentId.Some? ==> dto.departmentId.value in departments)
                         && (dto.jobId.Some? ==> dto.jobId.value in jobRoles)
    ensures dto.departmentId.Some? && dto.departmentId.value !in departments ==>
      r == Some(NotFound("Department", dto.departmentId.value))
  {
    if dto.departmentId.Some? && dto.departmentId.value !in departments then
      Some(NotFound("Department", dto.departmentId.value))
    else if dto.jobId.Some? && dto.jobId.value !in jobRoles then
      Some(NotFound("Job role", dto.jobId.value))
    else None
  }

  /** Writing the update and reading it back in transfer form gives back what
      was sent, apart from the kept fields, the filled-in names of the links
      and a balance that was not given. */
  lemma UpdateRoundTrip(e: Employee, dto: EmployeeDto, departments: map<Id, Department>, jobRoles: map<Id, JobRole>)
    requires LinkError(dto, departments, jobRoles).None?
    ensures var back := ToDto(UpdatedEmployee(e, dto), departments, jobRoles);
      back.(departmentName := dto.departmentName, jobTitle := dto.jobTitle)
      == dto.(employeeId := Some(e.employeeId), userId := e.userId, hireDate := e.hireDate,
              leaveBalance := Some(UpdatedEmployee(e, dto).leaveBalance))
  {
  }

  /** `convertToDto`: the record with the linked department's name and job
      role's title. */
  function ToDto(e: Employee, departments: map<Id, Department>, jobRoles: map<Id, JobRole>): (r: EmployeeDto)
    requires e.departmentId.Some? ==> e.departmentId.value in departments
    requires e.jobId.Some? ==> e.jobId.value in jobRoles
    ensures r.employeeId == Some(e.employeeId) && r.userId == e.userId && r.leaveBalance == Some(e.leaveBalance)
    ensures r.departmentId == e.departmentId && r.jobId == e.jobId
    ensures r.departmentName.Some? <==> e.departmentId.Some?
    ensures e.departmentId.Some? ==> r.departmentName == Some(departments[e.departmentId.value].departmentName)
    ensures e.jobId.Some? ==> r.jobTitle == Some(jobRoles[e.jobId.value].jobTitle)
    ensures r.jobTitle.Some? <==> e.jobId.Some?
  {
    EmployeeDto(Some(e.employeeId), e.userId, e.firstName, e.lastName, e.dateOfBirth, e.phoneNumber, e.address,
                e.hireDate,
                e.departmentId, if e.departmentId.Some? then Some(departments[e.departmentId.value].departmentName) else None,
                e.jobId, if e.jobId.Some? then Some(jobRoles[e.jobId.value].jobTitle) else None,
                Some(e.leaveBalance))
  }

  class EmployeeServiceImpl {
    const db: Database

    constructor (db: Database)
      ensures this.db == db
    {
      this.db := db;
    }

    /** `getAllEmployees`. */
    function AllEmployees(): (r: set<Employee>)
      reads db
      ensures forall e :: e in r <==> e in db.employees.Values
    {
      db.employees.Values
    }

    /** `getEmployeeById`. */
    function EmployeeById(id: Id): (r: Result<Employee, ServiceError>)
      reads db
      ensures id in db.employees <==> r.Ok?
      ensures r.Ok? ==> r.value == db.employees[id]
      ensures r.Failure? ==> r.error == NotFound("Employee", id)
    {
      if id in db.employees then Ok(db.employees[id]) else Failure(NotFound("Employee", id))
    }

    /** `getEmployeeByUserId`: the user's employee when there is one, and
        nothing is written; otherwise a new employee for a known user, hired
        `today`. Either way the user then has exactly one employee. */
    method EmployeeByUserId(userId: Id, today: int) returns (r: Result<Employee, ServiceError>)
      requires db.Valid()
      modifies db
      ensures db.Valid()
      ensures StoreLaws.UserHasEmployee(old(db.employees), userId) ==>
        unchanged(db) && r.Ok? && r.value.employeeId in db.employees && db.employees[r.value.employeeId] == r.value
      ensures !StoreLaws.UserHasEmployee(old(db.employees), userId) && userId !in old(db.users) ==>
        r == Failure(NotFound("User", userId)) && unchanged(db)
      ensures !StoreLaws.UserHasEmployee(old(db.employees), userId) && userId in old(db.users) ==>
        r == Ok(AutoEmployee(old(db.nextEmployeeId), old(db.users)[userId], today))
        && db.Snap() == old(db.Snap()).(employees := old(db.employees)[r.value.employeeId := r.value],
                                        nextEmployeeId := old(db.nextEmployeeId) + 1)
      ensures r.Ok? ==> r.value.userId == userId
                        && forall e :: e in db.employees && db.employees[e].userId == userId ==> e == r.value.employeeId
    {
      var existing := db.FindEmployeeByUserId(userId);
      if existing.Some? {
        return Ok(existing.value);
      }
      if userId !in db.users {
        return Failure(NotFound("User", userId));
      }
      var employee := AutoEmployee(db.nextEmployeeId, db.users[userId], today);
      StoreLaws.InsertEmployee(db.Snap(), employee);
      db.employees := db.employees[employee.employeeId := employee];
      db.nextEmployeeId := db.nextEmployeeId + 1;
      r := Ok(employee);
    }

    /** `createEmployee`: fails, in this order, for an unknown user, a user who
        already has an employee, an unknown department and an unknown job
        role; all or nothing. */
    method CreateEmployee(dto: EmployeeDto) returns (r: Result<Employee, ServiceError>)
      requires db.Valid()
      modifies db
      ensures db.Valid()
      ensures r.Failure? ==> unchanged(db)
      ensures dto.userId !in old(db.users) ==> r == Failure(NotFound("User", dto.userId))
      ensures dto.userId in old(db.users) && StoreLaws.UserHasEmployee(old(db.employees), dto.userId) ==>
        r == Failure(Runtime("Employee already exists for this user"))
      ensures dto.userId in old(db.users) && !StoreLaws.UserHasEmployee(old(db.employees), dto.userId) ==>
        match LinkError(dto, old(db.departments), old(db.jobRoles))
        case Some(error) => r == Failure(error)
        case None =>
          r == Ok(NewEmployee(old(db.nextEmployeeId), dto))
          && db.Snap() == old(db.Snap()).(employees := old(db.employees)[r.value.employeeId := r.value],
                                          nextEmployeeId := old(db.nextEmployeeId) + 1)
    {
      if dto.userId !in db.users {
        return Failure(NotFound("User", dto.userId));
      }
      var existing := db.FindEmployeeByUserId(dto.userId);
      if existing.Some? {
        return Failure(Runtime("Employee already exists for this user"));
      }
      var linkError := LinkError(dto, db.departments, db.jobRoles);
      if linkError.Some? {
        return Failure(linkError.value);
      }
      var employee := NewEmployee(db.nextEmployeeId, dto);
      StoreLaws.InsertEmployee(db.Snap(), employee);
      db.employees := db.employees[employee.employeeId := employee];
      db.nextEmployeeId := db.nextEmployeeId + 1;
      r := Ok(employee);
    }

    /** `updateEmployee`: fails for an unknown employee, then for an unknown
        department or job role; all or nothing. */
    method UpdateEmployee(id: Id, dto: EmployeeDto) returns (r: Result<Employee, ServiceError>)
      requires db.Valid()
      modifies db
      ensures db.Valid()
      ensures r.Failure? ==> unchanged(db)
      ensures id !in old(db.employees) ==> r == Failure(NotFound("Employee", id))
      ensures id in old(db.employees) ==>
        match LinkError(dto, old(db.departments), old(db.jobRoles))
        case Some(error) => r == Failure(error)
        case None =>
          r == Ok(UpdatedEmployee(old(db.employees)[id], dto))
          && db.Snap() == old(db.Snap()).(employees := old(db.employees)[id := r.value])
    {
      if id !in db.employees {
        return Failure(NotFound("Employee", id));
      }
      var linkError := LinkError(dto, db.departments, db.jobRoles);
      if linkError.Some? {
        return Failure(linkError.value);
      }
      var employee := UpdatedEmployee(db.employees[id], dto);
      StoreLaws.UpdateEmployee(db.Snap(), employee);
      db.employees := db.employees[id := employee];
      r := Ok(employee);
    }

    /** `deleteEmployee`: fails for an unknown id; the database refuses to
        delete an employee a leave request or payroll still refers to. */
    method DeleteEmployee(id: Id) returns (r: Result<(), ServiceError>)
      requires db.Valid()
      modifies db
      ensures db.Valid()
      ensures r.Failure? ==> unchanged(db)
      ensures id !in old(db.employees) ==> r == Failure(NotFound("Employee", id))
      ensures id in old(db.employees) && EmployeeReferenced(old(db.leaves), old(db.payrolls), id) ==>
        r == Failure(ConstraintViolation)
      ensures r.Ok? <==> id in old(db.employees) && !EmployeeReferenced(old(db.leaves), old(db.payrolls), id)
      ensures r.Ok? ==> db.Snap() == old(db.Snap()).(employees := old(db.employees) - {id})
    {
      if id !in db.employees {
        return Failure(NotFound("Employee", id));
      }
      if EmployeeReferenced(db.leaves, db.payrolls, id) {
        return Failure(ConstraintViolation);
      }
      StoreLaws.RemoveEmployee(db.Snap(), id);
      db.employees := db.employees - {id};
      r := Ok(());
    }
  }
}
