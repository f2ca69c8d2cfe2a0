/** The admin's approval queue (LeaveApproval.jsx): the pending requests and
    the admin's own employee record are loaded together; Approve and Reject
    open a confirmation holding the leave and the decision; confirming sends
    the decision with the admin's employee id as the processor and, on
    success, drops that request from the queue. The logged-in user is
    `user`; server answers are parameters. */
module LeaveApproval {
  import opened Wrappers
  import opened Seqs
  import opened Helpers
  import opened Entities
  import opened Dto
  import AuthContext

  datatype Decision = APPROVED | REJECTED

  function DecisionName(d: Decision): string
  {
    match d
    case APPROVED => "APPROVED"
    case REJECTED => "REJECTED"
  }

  /** `actionModal`: shown or not, the leave and the decision it is about. */
  datatype ActionModal = ActionModal(show: bool, leave: Option<LeaveRequestDto>, action: Option<Decision>)

  const ClosedModal := ActionModal(false, None, None)

  /** The arguments of `updateLeaveRequestStatus(leaveId, status, processedBy)`. */
  datatype StatusUpdate = StatusUpdate(leaveId: Option<Id>, status: Option<string>, processedBy: Option<Id>)

  function LeaveIdOf(l: LeaveRequestDto): Option<Id>
  {
    l.leaveId
  }

  /** What `handleLeaveAction` sends: the leave's id, the decision's name
      and the admin's employee id; reading a field of a null leave or of a
      null admin record throws first. */
  function ActionRequest(modal: ActionModal, adminEmployee: Option<EmployeeDto>): (r: Result<StatusUpdate, RequestError>)
    ensures modal.leave.None? ==> r == Failure(RequestError(None, "Cannot read properties of null (reading 'leaveId')"))
    ensures modal.leave.Some? && adminEmployee.None? ==>
      r == Failure(RequestError(None, "Cannot read properties of null (reading 'employeeId')"))
    ensures modal.leave.Some? && adminEmployee.Some? ==>
      r.Ok? && r.value.leaveId == modal.leave.value.leaveId
      && r.value.processedBy == adminEmployee.value.employeeId
      && (modal.action.Some? ==> r.value.status == Some(DecisionName(modal.action.value)))
  {
    if modal.leave.None? then Failure(RequestError(None, "Cannot read properties of null (reading 'leaveId')"))
    else if adminEmployee.None? then Failure(RequestError(None, "Cannot read properties of null (reading 'employeeId')"))
    else
      var status := if modal.action.Some? then Some(DecisionName(modal.action.value)) else None;
      Ok(StatusUpdate(modal.leave.value.leaveId, status, adminEmployee.value.employeeId))
  }

  class LeaveApprovalScreen {
    const user: AuthContext.UserInfo
    var pendingLeaves: seq<LeaveRequestDto>
    var adminEmployee: Option<EmployeeDto>
    var loading: bool
    var error: string
    var actionModal: ActionModal

    constructor (user: AuthContext.UserInfo)
      ensures this.user == user && pendingLeaves == [] && adminEmployee.None?
      ensures loading && error == "" && actionModal == ClosedModal
    {
      this.user := user;
      pendingLeaves := [];
      adminEmployee := None;
      loading := true;
      error := "";
      actionModal := ClosedModal;
    }

    /** `loadData`: the pending list and the admin's record arrive together;
        if either request fails nothing is set and the error is shown (the
        pending request's error when both fail). */
    method LoadData(pending: Result<seq<LeaveRequestDto>, RequestError>, employee: Result<EmployeeDto, RequestError>)
      modifies this
      ensures !loading && actionModal == old(actionModal)
      ensures pending.Ok? && employee.Ok? ==>
        pendingLeaves == pending.value && adminEmployee == Some(employee.value) && error == ""
      ensures pending.Failure? ==>
        pendingLeaves == old(pendingLeaves) && adminEmployee == old(adminEmployee) && error == GetErrorMessage(pending.error)
      ensures pending.Ok? && employee.Failure? ==>
        pendingLeaves == old(pendingLeaves) && adminEmployee == old(adminEmployee) && error == GetErrorMessage(employee.error)
    {
      loading := true;
      error := "";
      if pending.Failure? {
        error := GetErrorMessage(pending.error);
      } else if employee.Failure? {
        error := GetErrorMessage(employee.error);
      } else {
        pendingLeaves := pending.value;
        adminEmployee := Some(employee.value);
      }
      loading := false;
    }

    /** The Approve or Reject button of a row. */
    method OpenAction(leave: LeaveRequestDto, decision: Decision)
      modifies this
      ensures actionModal == ActionModal(true, Some(leave), Some(decision))
      ensures pendingLeaves == old(pendingLeaves) && adminEmployee == old(adminEmployee) && error == old(error)
      ensures loading == old(loading)
    {
      actionModal := ActionModal(true, Some(leave), Some(decision));
    }

    /** `handleLeaveAction`: `outcome` is the server's answer. On success
        exactly the processed request leaves the queue, the others keeping
        their order, and the modal is reset; on failure the queue and the
        modal stay and the error is shown. */
    method HandleLeaveAction(outcome: Result<(), RequestError>) returns (sent: Option<StatusUpdate>)
      modifies this
      ensures adminEmployee == old(adminEmployee) && loading == old(loading)
      ensures ActionRequest(old(actionModal), adminEmployee).Failure? ==>
        sent.None? && pendingLeaves == old(pendingLeaves) && actionModal == old(actionModal)
        && error == GetErrorMessage(ActionRequest(old(actionModal), adminEmployee).error)
      ensures ActionRequest(old(actionModal), adminEmployee).Ok? ==>
        sent == Some(ActionRequest(old(actionModal), adminEmployee).value)
      ensures sent.Some? && outcome.Ok? ==>
        pendingLeaves == Without(old(pendingLeaves), LeaveIdOf, old(actionModal).leave.value.leaveId)
        && actionModal == ClosedModal && error == old(error)
      ensures sent.Some? && outcome.Failure? ==>
        pendingLeaves == old(pendingLeaves) && actionModal == old(actionModal) && error == GetErrorMessage(outcome.error)
    {
      var request := ActionRequest(actionModal, adminEmployee);
      if request.Failure? {
        error := GetErrorMessage(request.error);
        return None;
      }
      sent := Some(request.value);
      match outcome {
        case Ok(_) =>
          pendingLeaves := Without(pendingLeaves, LeaveIdOf, actionModal.leave.value.leaveId);
          actionModal := ClosedModal;
        case Failure(e) =>
          error := GetErrorMessage(e);
      }
    }
  }

  /** Confirming a decision on a queued request removes that request and
      nothing else from the queue: every other request keeps its place. */
  lemma DecisionPrunesOne(queue: seq<LeaveRequestDto>, leave: LeaveRequestDto)
    requires forall l :: l in queue && l != leave ==> l.leaveId != leave.leaveId
    ensures leave !in Without(queue, LeaveIdOf, leave.leaveId)
    ensures forall l :: l in queue && l != leave ==> l in Without(queue, LeaveIdOf, leave.leaveId)
    ensures IsSubsequence(Without(queue, LeaveIdOf, leave.leaveId), queue)
  {
    WithoutRemovesExactly(queue, LeaveIdOf, leave.leaveId);
  }
}
