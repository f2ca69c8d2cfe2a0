/** Leave requests on the server (LeaveServiceImpl.java): creation, the status
    update that deducts the balance on approval, deletion and the queries. */
module LeaveService {
  import opened Wrappers
  import opened Domain
  import opened Entities
  import opened Dto
  import opened Store
  import SmartMessage
  import StoreLaws

  function LeaveTypeError(name: string): ServiceError
  {
    IllegalArgument("No enum constant com.payroll.model.LeaveRequest.LeaveType." + name)
  }

  function LeaveStatusError(name: string): ServiceError
  {
    IllegalArgument("No enum constant com.payroll.model.LeaveRequest.LeaveStatus." + name)
  }

  /** A value a Java `int` can hold. */
  predicate IsInt32(x: int)
  {
    -0x8000_0000 <= x < 0x8000_0000
  }

  /** Java's narrowing to `int`: the low 32 bits, read in two's complement.
      Both the `(int)` cast of a `long` and `int` subtraction produce it. */
  function ToInt32(x: int): (r: int)
    ensures IsInt32(r)
    ensures IsInt32(x) ==> r == x
    ensures (r - x) % 0x1_0000_0000 == 0
  {
    (x + 0x8000_0000) % 0x1_0000_0000 - 0x8000_0000
  }

  /** Approval is refused when the balance is below the requested span; the
      `int` balance is widened to `long` for the comparison, so nothing wraps
      here. */
  predicate ApprovalShortfall(employee: Employee, leave: LeaveRequest)
  {
    employee.leaveBalance < DaysRequested(leave.startDate, leave.endDate)
  }

  /** The balance after approving `leave`: `balance - (int) daysRequested`
      in `int` arithmetic. */
  function BalanceAfterApproval(employee: Employee, leave: LeaveRequest): int
  {
    ToInt32(employee.leaveBalance - ToInt32(DaysRequested(leave.startDate, leave.endDate)))
  }

  /** For an `int` balance: the new balance is an `int`; an approved span of
      at least one day lowers the balance by exactly the span and never below
      zero; and whenever the span and the difference fit in an `int`, the
      balance drops exactly when the start is not after the end, and a span
      ending two or more days before its start raises it. */
  lemma ApprovalBalanceFacts(employee: Employee, leave: LeaveRequest)
    ensures IsInt32(BalanceAfterApproval(employee, leave))
    ensures IsInt32(employee.leaveBalance) && leave.startDate <= leave.endDate && !ApprovalShortfall(employee, leave) ==>
      BalanceAfterApproval(employee, leave) == employee.leaveBalance - DaysRequested(leave.startDate, leave.endDate)
      && 0 <= BalanceAfterApproval(employee, leave) < employee.leaveBalance
    ensures var days := DaysRequested(leave.startDate, leave.endDate);
      IsInt32(employee.leaveBalance) && IsInt32(days) && IsInt32(employee.leaveBalance - days) ==>
        BalanceAfterApproval(employee, leave) == employee.leaveBalance - days
        && (leave.startDate <= leave.endDate <==> BalanceAfterApproval(employee, leave) < employee.leaveBalance)
        && (leave.endDate < leave.startDate - 1 ==> BalanceAfterApproval(employee, leave) > employee.leaveBalance)
  {
  }

  /** Without the fit, approval wraps: the largest `int` balance and a span
      ending two days before it starts (one "day" of -1) pass the check and
      leave the smallest `int` as the balance. */
  lemma ApprovalCanWrapBalance(employee: Employee, leave: LeaveRequest)
    requires employee.leaveBalance == 0x7fff_ffff && leave.endDate == leave.startDate - 2
    ensures !ApprovalShortfall(employee, leave)
    ensures BalanceAfterApproval(employee, leave) == -0x8000_0000
  {
    assert DaysRequested(leave.startDate, leave.endDate) == -1;
    assert ToInt32(0x8000_0000) == -0x8000_0000;
  }

  /** `convertToDto`: the employee's full name, enum names, and the insight
      text; `pick` is the random draw of the status sentence. */
  function ToDto(leave: LeaveRequest, employee: Employee, pick: nat): (r: LeaveRequestDto)
    requires pick < 4
    ensures r.leaveId == Some(leave.leaveId) && r.employeeId == leave.employeeId
    ensures r.status == Some(LeaveStatusName(leave.status)) && r.leaveType == LeaveTypeName(leave.leaveType)
  {
    LeaveRequestDto(Some(leave.leaveId), leave.employeeId, leave.startDate, leave.endDate,
      Some(employee.firstName + " " + employee.lastName),
      Some(SmartMessage.GenerateLeaveStatusMessage(leave, pick)),
      LeaveTypeName(leave.leaveType), leave.reason, Some(LeaveStatusName(leave.status)),
      Some(leave.appliedDate), leave.processedDate, leave.processedBy)
  }

  class LeaveServiceImpl {
    const db: Database

    constructor (db: Database)
      ensures this.db == db
    {
      this.db := db;
    }

    /** `getAllLeaveRequests`. */
    function AllLeaveRequests(): (r: set<LeaveRequest>)
      reads db
      ensures forall l :: l in r <==> l in db.leaves.Values
    {
      db.leaves.Values
    }

    /** `getPendingLeaveRequests`: exactly the stored requests still PENDING. */
    function PendingLeaveRequests(): (r: set<LeaveRequest>)
      reads db
      ensures forall l :: l in r <==> l in db.leaves.Values && l.status == LeaveStatus.PENDING
    {
      set l | l in db.leaves.Values && l.status == LeaveStatus.PENDING
    }

    /** `getLeaveRequestsByEmployee`: fails for an unknown employee. */
    function LeaveRequestsByEmployee(employeeId: Id): (r: Result<set<LeaveRequest>, ServiceError>)
      reads db
      ensures employeeId !in db.employees <==> r.Failure?
      ensures r.Failure? ==> r.error == NotFound("Employee", employeeId)
      ensures r.Ok? ==> forall l :: l in r.value <==> l in db.leaves.Values && l.employeeId == employeeId
    {
      if employeeId !in db.employees then Failure(NotFound("Employee", employeeId))
      else Ok(set l | l in db.leaves.Values && l.employeeId == employeeId)
    }

    /** `getLeaveRequestById`. */
    function LeaveRequestById(id: Id): (r: Result<LeaveRequest, ServiceError>)
      reads db
      ensures id in db.leaves <==> r.Ok?
      ensures r.Ok? ==> r.value == db.leaves[id]
      ensures r.Failure? ==> r.error == NotFound("Leave request", id)
    {
      if id in db.leaves then Ok(db.leaves[id]) else Failure(NotFound("Leave request", id))
    }

    /** `createLeaveRequest`: the employee must exist and have a positive
        balance, and the type name must be a leave type. The requested span is
        not compared with the balance here. The new request is PENDING and
        stamped with `now`. */
    method CreateLeaveRequest(dto: LeaveRequestDto, now: int) returns (r: Result<LeaveRequest, ServiceError>)
      requires db.Valid()
      modifies db
      ensures db.Valid()
      ensures r.Failure? ==> unchanged(db)
      ensures dto.employeeId !in old(db.employees) ==> r == Failure(NotFound("Employee", dto.employeeId))
      ensures dto.employeeId in old(db.employees) && old(db.employees)[dto.employeeId].leaveBalance <= 0 ==>
        r == Failure(Runtime("Insufficient leave balance"))
      ensures dto.employeeId in old(db.employees) && old(db.employees)[dto.employeeId].leaveBalance > 0
              && ParseLeaveType(dto.leaveType).None? ==>
        r == Failure(LeaveTypeError(dto.leaveType))
      ensures r.Ok? ==>
        r.value == LeaveRequest(old(db.nextLeaveId), dto.employeeId, dto.startDate, dto.endDate,
                                ParseLeaveType(dto.leaveType).value, dto.reason, LeaveStatus.PENDING, now, None, None)
        && db.Snap() == old(db.Snap()).(leaves := old(db.leaves)[r.value.leaveId := r.value],
                                        nextLeaveId := old(db.nextLeaveId) + 1)
    {
      if dto.employeeId !in db.employees {
        return Failure(NotFound("Employee", dto.employeeId));
      }
      var employee := db.employees[dto.employeeId];
      if employee.leaveBalance <= 0 {
        return Failure(Runtime("Insufficient leave balance"));
      }
      var leaveType := ParseLeaveType(dto.leaveType);
      if leaveType.None? {
        return Failure(LeaveTypeError(dto.leaveType));
      }
      var leave := LeaveRequest(db.nextLeaveId, employee.employeeId, dto.startDate, dto.endDate,
                                leaveType.value, dto.reason, LeaveStatus.PENDING, now, None, None);
      ghost var after := db.Snap().(leaves := db.leaves[leave.leaveId := leave], nextLeaveId := db.nextLeaveId + 1);
      StoreLaws.InsertLeave(db.Snap(), leave);
      db.leaves := db.leaves[leave.leaveId := leave];
      db.nextLeaveId := db.nextLeaveId + 1;
      assert db.Snap() == after;
      r := Ok(leave);
    }

    /** `updateLeaveRequestStatus`: look up the request and the processor,
        parse the status, record processor and time; on APPROVED deduct the
        span from the requester's balance, refusing a shortfall. The previous
        status is not consulted. All or nothing. */
    method UpdateLeaveRequestStatus(id: Id, status: string, processedBy: Id, now: int)
      returns (r: Result<LeaveRequest, ServiceError>)
      requires db.Valid()
      modifies db
      ensures db.Valid()
      ensures r.Failure? ==> unchanged(db)
      ensures id !in old(db.leaves) ==> r == Failure(NotFound("Leave request", id))
      ensures id in old(db.leaves) && processedBy !in old(db.employees) ==>
        r == Failure(NotFound("Employee", processedBy))
      ensures id in old(db.leaves) && processedBy in old(db.employees) && ParseLeaveStatus(status).None? ==>
        r == Failure(LeaveStatusError(status))
      ensures id in old(db.leaves) && processedBy in old(db.employees) && status == "APPROVED"
              && ApprovalShortfall(old(db.employees)[old(db.leaves)[id].employeeId], old(db.leaves)[id]) ==>
        r == Failure(Runtime("Insufficient leave balance for approval"))
      ensures r.Ok? ==>
        var leave := old(db.leaves)[id];
        r.value == leave.(status := ParseLeaveStatus(status).value, processedBy := Some(processedBy),
                          processedDate := Some(now))
      ensures r.Ok? && status == "APPROVED" ==>
        var leave := old(db.leaves)[id];
        var employee := old(db.employees)[leave.employeeId];
        db.Snap() == old(db.Snap()).(
          leaves := old(db.leaves)[id := r.value],
          employees := old(db.employees)[leave.employeeId :=
                         employee.(leaveBalance := BalanceAfterApproval(employee, leave))])
      ensures r.Ok? && status != "APPROVED" ==>
        db.Snap() == old(db.Snap()).(leaves := old(db.leaves)[id := r.value])
      ensures r.Ok? <==>
        id in old(db.leaves) && processedBy in old(db.employees) && ParseLeaveStatus(status).Some?
        && !(status == "APPROVED"
             && ApprovalShortfall(old(db.employees)[old(db.leaves)[id].employeeId], old(db.leaves)[id]))
    {
      ghost var s := db.Snap();
      if id !in db.leaves {
        return Failure(NotFound("Leave request", id));
      }
      var leave := db.leaves[id];
      if processedBy !in db.employees {
        return Failure(NotFound("Employee", processedBy));
      }
      var newStatus := ParseLeaveStatus(status);
      if newStatus.None? {
        return Failure(LeaveStatusError(status));
      }
      var updated := leave.(status := newStatus.value, processedBy := Some(processedBy), processedDate := Some(now));
      var charged: Option<Employee> := None;
      if newStatus.value == APPROVED {
        var employee := db.employees[leave.employeeId];
        if ApprovalShortfall(employee, leave) {
          return Failure(Runtime("Insufficient leave balance for approval"));
        }
        charged := Some(employee.(leaveBalance := BalanceAfterApproval(employee, leave)));
      }
      SaveDecision(updated, charged);
      r := Ok(updated);
    }

    /** The writes of an accepted status change: the requester's new balance
        on approval, then the request itself. */
    method SaveDecision(updated: LeaveRequest, charged: Option<Employee>)
      requires db.Valid()
      requires updated.leaveId in db.leaves && StoreLaws.LeaveLinked(updated, db.employees)
      requires charged.Some? ==>
        charged.value.employeeId in db.employees
        && charged.value.userId == db.employees[charged.value.employeeId].userId
        && StoreLaws.EmployeeLinked(charged.value, db.Snap())
      modifies db
      ensures db.Valid()
      ensures charged.Some? ==>
        db.Snap() == old(db.Snap()).(leaves := old(db.leaves)[updated.leaveId := updated],
                                     employees := old(db.employees)[charged.value.employeeId := charged.value])
      ensures charged.None? ==>
        db.Snap() == old(db.Snap()).(leaves := old(db.leaves)[updated.leaveId := updated])
    {
      ghost var s := db.Snap();
      if charged.Some? {
        var e := charged.value;
        StoreLaws.UpdateEmployee(s, e);
        db.employees := db.employees[e.employeeId := e];
        assert db.Snap() == s.(employees := s.employees[e.employeeId := e]);
      }
      ghost var mid := db.Snap();
      StoreLaws.UpdateLeave(mid, updated);
      db.leaves := db.leaves[updated.leaveId := updated];
      assert db.Snap() == mid.(leaves := mid.leaves[updated.leaveId := updated]);
    }

    /** `deleteLeaveRequest`. */
    method DeleteLeaveRequest(id: Id) returns (r: Result<(), ServiceError>)
      requires db.Valid()
      modifies db
      ensures db.Valid()
      ensures id !in old(db.leaves) ==> r == Failure(NotFound("Leave request", id)) && unchanged(db)
      ensures id in old(db.leaves) ==> r.Ok? && db.Snap() == old(db.Snap()).(leaves := old(db.leaves) - {id})
    {
      if id !in db.leaves {
        return Failure(NotFound("Leave request", id));
      }
      StoreLaws.RemoveLeave(db.Snap(), id);
      db.leaves := db.leaves - {id};
      r := Ok(());
    }
  }
}
