/** The ownership checks behind the access rules (SecurityService.java). The
    authenticated principal is the login `principalUserId`. A missing
    employee, leave request or payroll is a runtime failure. */
module SecurityService {
  import opened Wrappers
  import opened Entities
  import opened Store
  import StoreLaws

  /** `isOwnUser`. */
  function IsOwnUser(principalUserId: Id, userId: Id): (r: bool)
    ensures r <==> principalUserId == userId
  {
    principalUserId == userId
  }

  class Security {
    const db: Database

    constructor (db: Database)
      ensures this.db == db
    {
      this.db := db;
    }

    /** `isOwnData`: the employee id is the principal's own employee. */
    method IsOwnData(principalUserId: Id, employeeId: Id) returns (r: Result<bool, ServiceError>)
      requires db.Valid()
      ensures r.Failure? <==> !StoreLaws.UserHasEmployee(db.employees, principalUserId)
      ensures r.Failure? ==> r.error == Runtime("Employee not found")
      ensures r.Ok? ==> (r.value <==> employeeId in db.employees && db.employees[employeeId].userId == principalUserId)
    {
      var employee := db.FindEmployeeByUserId(principalUserId);
      if employee.None? {
        return Failure(Runtime("Employee not found"));
      }
      r := Ok(employee.value.employeeId == employeeId);
    }

    /** `isOwnLeaveRequest`: the leave request was filed by the principal's
        employee. */
    method IsOwnLeaveRequest(principalUserId: Id, leaveId: Id) returns (r: Result<bool, ServiceError>)
      requires db.Valid()
      ensures !StoreLaws.UserHasEmployee(db.employees, principalUserId) ==> r == Failure(Runtime("Employee not found"))
      ensures StoreLaws.UserHasEmployee(db.employees, principalUserId) && leaveId !in db.leaves ==>
        r == Failure(Runtime("Leave request not found"))
      ensures r.Ok? <==> StoreLaws.UserHasEmployee(db.employees, principalUserId) && leaveId in db.leaves
      ensures r.Ok? ==> (r.value <==> db.employees[db.leaves[leaveId].employeeId].userId == principalUserId)
    {
      var employee := db.FindEmployeeByUserId(principalUserId);
      if employee.None? {
        return Failure(Runtime("Employee not found"));
      }
      if leaveId !in db.leaves {
        return Failure(Runtime("Leave request not found"));
      }
      r := Ok(db.leaves[leaveId].employeeId == employee.value.employeeId);
    }

    /** `isOwnPayroll`: the payroll belongs to the principal's employee. */
    method IsOwnPayroll(principalUserId: Id, payrollId: Id) returns (r: Result<bool, ServiceError>)
      requires db.Valid()
      ensures !StoreLaws.UserHasEmployee(db.employees, principalUserId) ==> r == Failure(Runtime("Employee not found"))
      ensures StoreLaws.UserHasEmployee(db.employees, principalUserId) && payrollId !in db.payrolls ==>
        r == Failure(Runtime("Payroll not found"))
      ensures r.Ok? <==> StoreLaws.UserHasEmployee(db.employees, principalUserId) && payrollId in db.payrolls
      ensures r.Ok? ==> (r.value <==> db.employees[db.payrolls[payrollId].employeeId].userId == principalUserId)
    {
      var employee := db.FindEmployeeByUserId(principalUserId);
      if employee.None? {
        return Failure(Runtime("Employee not found"));
      }
      if payrollId !in db.payrolls {
        return Failure(Runtime("Payroll not found"));
      }
      r := Ok(db.payrolls[payrollId].employeeId == employee.value.employeeId);
    }
  }
}
