/** The writes the services make to the store, each shown to keep the store
    consistent under the guard the service checks before writing: a fresh key
    from the IDENTITY counter, an unused unique column, existing link targets,
    and no row left pointing at a deleted one. */
module StoreLaws {
  import opened Wrappers
  import opened Entities
  import opened Store

  // ---- users ----

  predicate UsernameTaken(users: map<Id, User>, username: string)
  {
    exists id :: id in users && users[id].username == username
  }

  predicate EmailTaken(users: map<Id, User>, email: string)
  {
    exists id :: id in users && users[id].email == email
  }

  lemma InsertUser(s: Snapshot, u: User)
    requires Consistent(s)
    requires u.userId == s.nextUserId
    requires !UsernameTaken(s.users, u.username) && !EmailTaken(s.users, u.email)
    ensures Consistent(s.(users := s.users[u.userId := u], nextUserId := s.nextUserId + 1))
  {
  }

  /** A change of the fields that carry no constraint (the active flag). */
  lemma UpdateUser(s: Snapshot, u: User)
    requires Consistent(s)
    requires u.userId in s.users
    requires u.username == s.users[u.userId].username && u.email == s.users[u.userId].email
    ensures Consistent(s.(users := s.users[u.userId := u]))
  {
  }

  // ---- employees ----

  /** The employee's own links point at stored rows. */
  predicate EmployeeLinked(e: Employee, s: Snapshot)
  {
    e.userId in s.users
    && (e.departmentId.Some? ==> e.departmentId.value in s.departments)
    && (e.jobId.Some? ==> e.jobId.value in s.jobRoles)
  }

  predicate UserHasEmployee(employees: map<Id, Employee>, userId: Id)
  {
    exists id :: id in employees && employees[id].userId == userId
  }

  /** Only the employee table and its counter change: the store stays
      consistent when the new table keeps its keys, its one-to-one user link
      and its own links, and the leave and payroll rows still find their
      employees. */
  lemma EmployeesReplaced(s: Snapshot, employees: map<Id, Employee>, next: Id)
    requires Consistent(s)
    requires EmployeeKeys(employees, next) && OneEmployeePerUser(employees)
    requires EmployeeLinks(employees, s.users, s.departments, s.jobRoles)
    requires LeaveLinks(s.leaves, employees) && PayrollLinks(s.payrolls, employees)
    ensures Consistent(s.(employees := employees, nextEmployeeId := next))
  {
  }

  /** Storing a linked employee under its own id, below the counter, whose
      user no other employee holds, keeps the employee table's invariants;
      the rows that pointed at employees still do. */
  lemma EmployeeTablePut(s: Snapshot, next': Id, e: Employee)
    requires EmployeeKeys(s.employees, s.nextEmployeeId) && OneEmployeePerUser(s.employees)
    requires EmployeeLinks(s.employees, s.users, s.departments, s.jobRoles)
    requires LeaveLinks(s.leaves, s.employees) && PayrollLinks(s.payrolls, s.employees)
    requires s.nextEmployeeId <= next' && e.employeeId < next' && EmployeeLinked(e, s)
    requires forall id :: id in s.employees && id != e.employeeId ==> s.employees[id].userId != e.userId
    ensures var m := s.employees[e.employeeId := e];
            EmployeeKeys(m, next') && OneEmployeePerUser(m)
            && EmployeeLinks(m, s.users, s.departments, s.jobRoles)
            && LeaveLinks(s.leaves, m) && PayrollLinks(s.payrolls, m)
  {
  }

  lemma InsertEmployee(s: Snapshot, e: Employee)
    requires Consistent(s)
    requires e.employeeId == s.nextEmployeeId && EmployeeLinked(e, s)
    requires !UserHasEmployee(s.employees, e.userId)
    ensures Consistent(s.(employees := s.employees[e.employeeId := e], nextEmployeeId := s.nextEmployeeId + 1))
  {
    EmployeeTablePut(s, s.nextEmployeeId + 1, e);
    EmployeesReplaced(s, s.employees[e.employeeId := e], s.nextEmployeeId + 1);
  }

  /** An employee rewritten in place, keeping its user. */
  lemma UpdateEmployee(s: Snapshot, e: Employee)
    requires Consistent(s)
    requires e.employeeId in s.employees && e.userId == s.employees[e.employeeId].userId
    requires EmployeeLinked(e, s)
    ensures Consistent(s.(employees := s.employees[e.employeeId := e]))
  {
    var m := s.employees[e.employeeId := e];
    EmployeeTablePut(s, s.nextEmployeeId, e);
    EmployeesReplaced(s, m, s.nextEmployeeId);
    assert s.(employees := m, nextEmployeeId := s.nextEmployeeId) == s.(employees := m);
  }

  /** Dropping an employee no leave request or payroll points at keeps the
      employee table's invariants and every link into it. */
  lemma EmployeeTableRemove(s: Snapshot, id: Id)
    requires EmployeeKeys(s.employees, s.nextEmployeeId) && OneEmployeePerUser(s.employees)
    requires EmployeeLinks(s.employees, s.users, s.departments, s.jobRoles)
    requires LeaveLinks(s.leaves, s.employees) && PayrollLinks(s.payrolls, s.employees)
    requires !EmployeeReferenced(s.leaves, s.payrolls, id)
    ensures var m := s.employees - {id};
            EmployeeKeys(m, s.nextEmployeeId) && OneEmployeePerUser(m)
            && EmployeeLinks(m, s.users, s.departments, s.jobRoles)
            && LeaveLinks(s.leaves, m) && PayrollLinks(s.payrolls, m)
  {
    var m := s.employees - {id};
    assert LeaveLinks(s.leaves, m) by {
      forall l | l in s.leaves
        ensures s.leaves[l].employeeId in m
        ensures s.leaves[l].processedBy.Some? ==> s.leaves[l].processedBy.value in m
      {
        assert s.leaves[l].employeeId != id && s.leaves[l].processedBy != Some(id);
      }
    }
    assert PayrollLinks(s.payrolls, m) by {
      forall p | p in s.payrolls
        ensures s.payrolls[p].employeeId in m
      {
        assert s.payrolls[p].employeeId != id;
      }
    }
  }

  lemma RemoveEmployee(s: Snapshot, id: Id)
    requires Consistent(s)
    requires !EmployeeReferenced(s.leaves, s.payrolls, id)
    ensures Consistent(s.(employees := s.employees - {id}))
  {
    var m := s.employees - {id};
    EmployeeTableRemove(s, id);
    EmployeesReplaced(s, m, s.nextEmployeeId);
    assert s.(employees := m, nextEmployeeId := s.nextEmployeeId) == s.(employees := m);
  }

  // ---- departments and job roles ----

  predicate DepartmentNameTaken(departments: map<Id, Department>, name: string)
  {
    exists id :: id in departments && departments[id].departmentName == name
  }

  predicate JobTitleTaken(jobRoles: map<Id, JobRole>, title: string)
  {
    exists id :: id in jobRoles && jobRoles[id].jobTitle == title
  }

  lemma InsertDepartment(s: Snapshot, d: Department)
    requires Consistent(s)
    requires d.departmentId == s.nextDepartmentId && !DepartmentNameTaken(s.departments, d.departmentName)
    ensures Consistent(s.(departments := s.departments[d.departmentId := d], nextDepartmentId := s.nextDepartmentId + 1))
  {
  }

  /** A department rewritten in place; its name is its own or unused. */
  lemma UpdateDepartment(s: Snapshot, d: Department)
    requires Consistent(s)
    requires d.departmentId in s.departments
    requires d.departmentName == s.departments[d.departmentId].departmentName
             || !DepartmentNameTaken(s.departments, d.departmentName)
    ensures Consistent(s.(departments := s.departments[d.departmentId := d]))
  {
  }

  lemma RemoveDepartment(s: Snapshot, id: Id)
    requires Consistent(s)
    requires !HasDepartmentMembers(s.employees, id)
    ensures Consistent(s.(departments := s.departments - {id}))
  {
    var t := s.(departments := s.departments - {id});
    forall e | e in t.employees && t.employees[e].departmentId.Some?
      ensures t.employees[e].departmentId.value in t.departments
    {
      assert t.employees[e].departmentId != Some(id);
    }
  }

  lemma InsertJobRole(s: Snapshot, j: JobRole)
    requires Consistent(s)
    requires j.jobId == s.nextJobId && !JobTitleTaken(s.jobRoles, j.jobTitle)
    ensures Consistent(s.(jobRoles := s.jobRoles[j.jobId := j], nextJobId := s.nextJobId + 1))
  {
  }

  lemma UpdateJobRole(s: Snapshot, j: JobRole)
    requires Consistent(s)
    requires j.jobId in s.jobRoles
    requires j.jobTitle == s.jobRoles[j.jobId].jobTitle || !JobTitleTaken(s.jobRoles, j.jobTitle)
    ensures Consistent(s.(jobRoles := s.jobRoles[j.jobId := j]))
  {
  }

  lemma RemoveJobRole(s: Snapshot, id: Id)
    requires Consistent(s)
    requires !HasJobRoleMembers(s.employees, id)
    ensures Consistent(s.(jobRoles := s.jobRoles - {id}))
  {
    var t := s.(jobRoles := s.jobRoles - {id});
    forall e | e in t.employees && t.employees[e].jobId.Some?
      ensures t.employees[e].jobId.value in t.jobRoles
    {
      assert t.employees[e].jobId != Some(id);
    }
  }

  // ---- leave requests ----

  predicate LeaveLinked(l: LeaveRequest, employees: map<Id, Employee>)
  {
    l.employeeId in employees && (l.processedBy.Some? ==> l.processedBy.value in employees)
  }

  /** Only the leave table and its counter change: the store stays consistent
      when the new table keeps its keys and links. */
  lemma LeavesReplaced(s: Snapshot, leaves: map<Id, LeaveRequest>, next: Id)
    requires Consistent(s)
    requires LeaveKeys(leaves, next) && LeaveLinks(leaves, s.employees)
    ensures Consistent(s.(leaves := leaves, nextLeaveId := next))
  {
  }

  /** Storing a linked leave request under its own id, below the counter,
      keeps the leave table's keys and links. */
  lemma LeaveTablePut(leaves: map<Id, LeaveRequest>, next: Id, next': Id,
                      employees: map<Id, Employee>, l: LeaveRequest)
    requires LeaveKeys(leaves, next) && LeaveLinks(leaves, employees)
    requires next <= next' && l.leaveId < next' && LeaveLinked(l, employees)
    ensures LeaveKeys(leaves[l.leaveId := l], next') && LeaveLinks(leaves[l.leaveId := l], employees)
  {
  }

  lemma InsertLeave(s: Snapshot, l: LeaveRequest)
    requires Consistent(s)
    requires l.leaveId == s.nextLeaveId && LeaveLinked(l, s.employees)
    ensures Consistent(s.(leaves := s.leaves[l.leaveId := l], nextLeaveId := s.nextLeaveId + 1))
  {
    LeaveTablePut(s.leaves, s.nextLeaveId, s.nextLeaveId + 1, s.employees, l);
    LeavesReplaced(s, s.leaves[l.leaveId := l], s.nextLeaveId + 1);
  }

  lemma UpdateLeave(s: Snapshot, l: LeaveRequest)
    requires Consistent(s)
    requires l.leaveId in s.leaves && LeaveLinked(l, s.employees)
    ensures Consistent(s.(leaves := s.leaves[l.leaveId := l]))
  {
    LeaveTablePut(s.leaves, s.nextLeaveId, s.nextLeaveId, s.employees, l);
    LeavesReplaced(s, s.leaves[l.leaveId := l], s.nextLeaveId);
    assert s.(leaves := s.leaves[l.leaveId := l], nextLeaveId := s.nextLeaveId) == s.(leaves := s.leaves[l.leaveId := l]);
  }

  lemma RemoveLeave(s: Snapshot, id: Id)
    requires Consistent(s)
    ensures Consistent(s.(leaves := s.leaves - {id}))
  {
  }

  // ---- payrolls ----

  /** Some payroll exists for the employee and period (`findByEmployeeAndMonthAndYear`). */
  predicate PeriodTaken(payrolls: map<Id, Payroll>, employeeId: Id, month: int, year: int)
  {
    exists id :: id in payrolls && payrolls[id].employeeId == employeeId
                 && payrolls[id].month == month && payrolls[id].year == year
  }

  lemma InsertPayroll(s: Snapshot, p: Payroll)
    requires Consistent(s)
    requires p.payrollId == s.nextPayrollId && p.employeeId in s.employees
    requires !PeriodTaken(s.payrolls, p.employeeId, p.month, p.year)
    ensures Consistent(s.(payrolls := s.payrolls[p.payrollId := p], nextPayrollId := s.nextPayrollId + 1))
  {
  }

  /** A payroll rewritten in place for the same employee and period. */
  lemma UpdatePayroll(s: Snapshot, p: Payroll)
    requires Consistent(s)
    requires p.payrollId in s.payrolls && SamePeriod(p, s.payrolls[p.payrollId])
    ensures Consistent(s.(payrolls := s.payrolls[p.payrollId := p]))
  {
  }

  lemma RemovePayroll(s: Snapshot, id: Id)
    requires Consistent(s)
    ensures Consistent(s.(payrolls := s.payrolls - {id}))
  {
  }
}
