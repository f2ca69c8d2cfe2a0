/** The leave request form (LeaveForm.jsx): the day count shown while dates
    are picked, the ordered validator, and which employee id the request
    carries. An admin picks the employee; anyone else files for the employee
    record fetched for their login. */
module LeaveForm {
  import opened Wrappers
  import opened Text
  import opened Helpers
  import opened Dto
  import opened FormScreen

  /** The `employee` state: null before the fetch (and after a failed one),
      the empty object `{}` an admin gets, or the fetched record. */
  datatype EmployeeSlot = NoEmployee | EmptyObject | Loaded(record: EmployeeDto)

  datatype LeaveFormData = LeaveFormData(
    employeeId: Field<Id>,
    startDate: Option<int>,
    endDate: Option<int>,
    leaveType: string,
    reason: string)

  /** The body sent to `createLeaveRequest`. */
  datatype LeaveSubmission = LeaveSubmission(
    employeeId: Option<Id>,
    startDate: Option<int>,
    endDate: Option<int>,
    leaveType: string,
    reason: string)

  type Id = Entities.Id

  const InitialForm := LeaveFormData(Blank, None, None, "CASUAL", "")

  /** The effect on the two dates: the count when both are set, else 0. */
  function LeaveDays(form: LeaveFormData): (r: int)
  {
    if form.startDate.Some? && form.endDate.Some? then CalculateLeaveDays(form.startDate, form.endDate) else 0
  }

  /** The shown count is the helper's count: 0 until both dates are set, then
      at least 1, and 1 for a single day. */
  lemma LeaveDaysIsCalculateLeaveDays(form: LeaveFormData)
    ensures LeaveDays(form) == CalculateLeaveDays(form.startDate, form.endDate)
    ensures form.startDate.None? || form.endDate.None? ==> LeaveDays(form) == 0
    ensures form.startDate.Some? && form.endDate.Some? ==> LeaveDays(form) >= 1
    ensures form.startDate.Some? && form.startDate == form.endDate ==> LeaveDays(form) == 1
  {
  }

  /** `leaveDays > employee?.leaveBalance`: false when there is no balance to
      read (null employee or `{}`); a null balance compares as 0. */
  predicate ExceedsBalance(leaveDays: int, employee: EmployeeSlot)
  {
    employee.Loaded? && leaveDays > employee.record.leaveBalance.GetOr(0)
  }

  function BalanceText(employee: EmployeeSlot): string
  {
    match employee
    case Loaded(record) => if record.leaveBalance.Some? then IntToString(record.leaveBalance.value) else "null"
    case _ => "undefined"
  }

  function BalanceMessage(employee: EmployeeSlot): string
  {
    "Insufficient leave balance. You have " + BalanceText(employee) + " days available."
  }

  /** `validateForm`: the first failing check's message, None when all pass. */
  function Validate(isAdmin: bool, form: LeaveFormData, leaveDays: int, employee: EmployeeSlot): Option<string>
  {
    if isAdmin && form.employeeId.Blank? then Some("Please select an employee")
    else if !isAdmin && ExceedsBalance(leaveDays, employee) then Some(BalanceMessage(employee))
    else if form.startDate.None? then Some("Start date is required")
    else if form.endDate.None? then Some("End date is required")
    else if form.startDate.value > form.endDate.value then Some("End date must be after start date")
    else if IsBlank(form.reason) then Some("Reason is required")
    else if ExceedsBalance(leaveDays, employee) then Some(BalanceMessage(employee))
    else None
  }

  /** What a passing form satisfies. */
  predicate FormValid(isAdmin: bool, form: LeaveFormData, leaveDays: int, employee: EmployeeSlot)
  {
    (isAdmin ==> form.employeeId.Filled?)
    && form.startDate.Some? && form.endDate.Some? && form.startDate.value <= form.endDate.value
    && !IsBlank(form.reason)
    && !ExceedsBalance(leaveDays, employee)
  }

  lemma ValidateAcceptsExactlyValidForms(isAdmin: bool, form: LeaveFormData, leaveDays: int, employee: EmployeeSlot)
    ensures Validate(isAdmin, form, leaveDays, employee).None? <==> FormValid(isAdmin, form, leaveDays, employee)
  {
  }

  /** The checks run in declaration order: an admin's missing employee comes
      first, a non-admin's balance shortfall second (before the dates), then
      the start date, the end date and their order. Equal dates pass. */
  lemma ValidateOrder(isAdmin: bool, form: LeaveFormData, leaveDays: int, employee: EmployeeSlot)
    ensures isAdmin && form.employeeId.Blank? ==>
      Validate(isAdmin, form, leaveDays, employee) == Some("Please select an employee")
    ensures !isAdmin && ExceedsBalance(leaveDays, employee) ==>
      Validate(isAdmin, form, leaveDays, employee) == Some(BalanceMessage(employee))
    ensures (isAdmin ==> form.employeeId.Filled?) && !ExceedsBalance(leaveDays, employee) && form.startDate.None? ==>
      Validate(isAdmin, form, leaveDays, employee) == Some("Start date is required")
    ensures (isAdmin ==> form.employeeId.Filled?) && !ExceedsBalance(leaveDays, employee)
            && form.startDate.Some? && form.endDate.None? ==>
      Validate(isAdmin, form, leaveDays, employee) == Some("End date is required")
    ensures (isAdmin ==> form.employeeId.Filled?) && !ExceedsBalance(leaveDays, employee)
            && form.startDate.Some? && form.endDate.Some? && form.startDate.value > form.endDate.value ==>
      Validate(isAdmin, form, leaveDays, employee) == Some("End date must be after start date")
  {
  }

  /** An admin's `employee` is `{}`, so the balance checks never fire for
      them: an admin form passes exactly when an employee is picked, both
      dates are set in order and a reason is given. */
  lemma AdminIgnoresBalance(form: LeaveFormData, leaveDays: int)
    ensures Validate(true, form, leaveDays, EmptyObject).None? <==>
      form.employeeId.Filled? && form.startDate.Some? && form.endDate.Some?
      && form.startDate.value <= form.endDate.value && !IsBlank(form.reason)
  {
  }

  /** The body `handleSubmit` builds: the picked id for an admin, the id of
      the fetched record otherwise. Reading `employeeId` of a null employee
      throws, and the handler shows that error. */
  function SubmitRequest(isAdmin: bool, form: LeaveFormData, employee: EmployeeSlot): Result<LeaveSubmission, RequestError>
  {
    if isAdmin then Ok(LeaveSubmission(OrNull(form.employeeId), form.startDate, form.endDate, form.leaveType, form.reason))
    else match employee
      case NoEmployee => Failure(RequestError(None, "Cannot read properties of null (reading 'employeeId')"))
      case EmptyObject => Ok(LeaveSubmission(None, form.startDate, form.endDate, form.leaveType, form.reason))
      case Loaded(record) => Ok(LeaveSubmission(record.employeeId, form.startDate, form.endDate, form.leaveType, form.reason))
  }

  /** The request carries the admin's pick or the employee's own id, and the
      form's dates, type and reason unchanged. */
  lemma SubmitRequestEmployee(isAdmin: bool, form: LeaveFormData, employee: EmployeeSlot)
    ensures isAdmin && form.employeeId.Filled? ==>
      SubmitRequest(isAdmin, form, employee) == Ok(LeaveSubmission(Some(form.employeeId.value), form.startDate, form.endDate, form.leaveType, form.reason))
    ensures !isAdmin && employee.Loaded? ==>
      SubmitRequest(isAdmin, form, employee).Ok? && SubmitRequest(isAdmin, form, employee).value.employeeId == employee.record.employeeId
    ensures !isAdmin && employee.NoEmployee? ==> SubmitRequest(isAdmin, form, employee).Failure?
  {
  }

  class LeaveFormScreen {
    const isAdmin: bool
    const status: SubmitState
    var form: LeaveFormData
    var employee: EmployeeSlot
    var leaveDays: int
    var employees: seq<EmployeeDto>

    constructor (isAdmin: bool)
      ensures this.isAdmin == isAdmin && form == InitialForm && employee == NoEmployee && leaveDays == 0
      ensures employees == []
      ensures fresh(status) && status.error == "" && !status.submitLoading && status.navigatedTo.None?
    {
      this.isAdmin := isAdmin;
      status := new SubmitState();
      form := InitialForm;
      employee := NoEmployee;
      leaveDays := 0;
      employees := [];
    }

    /** The admin's employee drop-down: the fetched list; a failure is only
        logged, and nothing is fetched for anyone else. */
    method LoadEmployeeOptions(fetched: Result<seq<EmployeeDto>, RequestError>)
      modifies this
      ensures form == old(form) && employee == old(employee) && leaveDays == old(leaveDays)
      ensures isAdmin && fetched.Ok? ==> employees == fetched.value
      ensures !(isAdmin && fetched.Ok?) ==> employees == old(employees)
    {
      if isAdmin && fetched.Ok? {
        employees := fetched.value;
      }
    }

    /** The effect on the logged-in user: an admin gets `{}` without a fetch;
        anyone else gets the fetched record, or the error and a null
        employee. */
    method LoadEmployee(fetched: Result<EmployeeDto, RequestError>)
      modifies this, status
      ensures form == old(form) && leaveDays == old(leaveDays) && employees == old(employees)
      ensures status.submitLoading == old(status.submitLoading) && status.navigatedTo == old(status.navigatedTo)
      ensures isAdmin ==> employee == EmptyObject && status.error == old(status.error)
      ensures !isAdmin && fetched.Ok? ==> employee == Loaded(fetched.value) && status.error == old(status.error)
      ensures !isAdmin && fetched.Failure? ==> employee == old(employee) && status.error == GetErrorMessage(fetched.error)
    {
      if isAdmin {
        employee := EmptyObject;
        return;
      }
      match fetched
      case Ok(record) => employee := Loaded(record);
      case Failure(e) => status.ShowError(GetErrorMessage(e));
    }

    /** `handleChange` followed by the day-count effect. */
    method HandleChange(newForm: LeaveFormData)
      modifies this
      ensures form == newForm && employee == old(employee)
      ensures leaveDays == CalculateLeaveDays(newForm.startDate, newForm.endDate)
    {
      form := newForm;
      leaveDays := LeaveDays(newForm);
      LeaveDaysIsCalculateLeaveDays(newForm);
    }

    /** `handleSubmit`: a form that validates is sent, unless building the
        body throws (a non-admin without an employee record); nothing is sent
        otherwise. */
    method HandleSubmit(outcome: Result<(), RequestError>) returns (sent: Option<LeaveSubmission>)
      modifies status
      ensures sent.Some? ==> FormValid(isAdmin, form, leaveDays, employee)
                             && Ok(sent.value) == SubmitRequest(isAdmin, form, employee)
      ensures !FormValid(isAdmin, form, leaveDays, employee) ==>
        sent.None? && Some(status.error) == Validate(isAdmin, form, leaveDays, employee)
      ensures FormValid(isAdmin, form, leaveDays, employee) && SubmitRequest(isAdmin, form, employee).Ok? ==>
        sent == Some(SubmitRequest(isAdmin, form, employee).value)
      ensures FormValid(isAdmin, form, leaveDays, employee) && SubmitRequest(isAdmin, form, employee).Failure? ==>
        sent.None? && status.error == GetErrorMessage(SubmitRequest(isAdmin, form, employee).error)
        && status.navigatedTo == old(status.navigatedTo)
      ensures sent.Some? && outcome.Ok? ==> status.error == "" && status.navigatedTo == Some("/leaves")
      ensures sent.Some? && outcome.Failure? ==>
        status.error == GetErrorMessage(outcome.error) && status.navigatedTo == old(status.navigatedTo)
      ensures !FormValid(isAdmin, form, leaveDays, employee) ==>
        status.navigatedTo == old(status.navigatedTo) && status.submitLoading == old(status.submitLoading)
      ensures FormValid(isAdmin, form, leaveDays, employee) ==> !status.submitLoading
    {
      ValidateAcceptsExactlyValidForms(isAdmin, form, leaveDays, employee);
      sent := status.Submit(Validate(isAdmin, form, leaveDays, employee), SubmitRequest(isAdmin, form, employee),
                            outcome, "/leaves");
    }
  }
}
