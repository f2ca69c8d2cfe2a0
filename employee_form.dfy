/** The employee create/edit form (EmployeeForm.jsx): its defaults, the
    fields loaded from a fetched record, the ordered validator, the request
    body with empty links sent as null, and the choice between create and
    update. The route's `id` is `routeId`; the form edits when it is set. */
module EmployeeForm {
  import opened Wrappers
  import opened Text
  import opened Seqs
  import opened Helpers
  import opened Dto
  import opened FormScreen

  type Id = Entities.Id

  datatype EmployeeFormData = EmployeeFormData(
    userId: Field<Id>,
    firstName: string,
    lastName: string,
    dateOfBirth: Field<int>,
    phoneNumber: string,
    address: string,
    hireDate: Field<int>,
    departmentId: Field<Id>,
    jobId: Field<Id>,
    leaveBalance: int)

  /** The body of `createEmployee`/`updateEmployee`. */
  datatype EmployeeBody = EmployeeBody(
    userId: Field<Id>,
    firstName: string,
    lastName: string,
    dateOfBirth: Field<int>,
    phoneNumber: string,
    address: string,
    hireDate: Field<int>,
    departmentId: Option<Id>,
    jobId: Option<Id>,
    leaveBalance: int)

  datatype EmployeeCall = CreateEmployee(body: EmployeeBody) | UpdateEmployee(id: Id, body: EmployeeBody)

  /** A new employee starts with every input empty and a balance of 20. */
  const InitialForm := EmployeeFormData(Blank, "", "", Blank, "", "", Blank, Blank, Blank, 20)

  /** `id || ''` for a numeric id: null and 0 are both falsy. */
  function IdOrBlank(id: Option<Id>): (r: Field<Id>)
    ensures r.Filled? <==> id.Some? && id.value != 0
    ensures r.Filled? ==> r.value == id.value
  {
    if id.Some? && id.value != 0 then Filled(id.value) else Blank
  }

  /** The form `loadFormData` fills from a fetched record: optional fields
      default to empty, and a falsy balance (null or 0) to 20. */
  function LoadedForm(e: EmployeeDto): (r: EmployeeFormData)
    ensures r.userId == Filled(e.userId) && r.hireDate == Filled(e.hireDate)
    ensures r.firstName == e.firstName && r.lastName == e.lastName
    ensures r.dateOfBirth == OrBlank(e.dateOfBirth)
    ensures r.phoneNumber == e.phoneNumber.GetOr("") && r.address == e.address.GetOr("")
    ensures r.departmentId == IdOrBlank(e.departmentId) && r.jobId == IdOrBlank(e.jobId)
    ensures r.leaveBalance == if e.leaveBalance.Some? && e.leaveBalance.value != 0 then e.leaveBalance.value else 20
  {
    EmployeeFormData(Filled(e.userId), e.firstName, e.lastName, OrBlank(e.dateOfBirth),
      e.phoneNumber.GetOr(""), e.address.GetOr(""), Filled(e.hireDate),
      IdOrBlank(e.departmentId), IdOrBlank(e.jobId),
      if e.leaveBalance.Some? && e.leaveBalance.value != 0 then e.leaveBalance.value else 20)
  }

  /** `validateForm`: the first failing check's message. The user id is
      demanded only when creating. */
  function Validate(form: EmployeeFormData, isEdit: bool): Option<string>
  {
    if IsBlank(form.firstName) then Some("First name is required")
    else if IsBlank(form.lastName) then Some("Last name is required")
    else if form.hireDate.Blank? then Some("Hire date is required")
    else if form.phoneNumber != "" && !ValidatePhone(form.phoneNumber) then Some("Please enter a valid phone number")
    else if !isEdit && form.userId.Blank? then Some("User ID is required")
    else None
  }

  predicate FormValid(form: EmployeeFormData, isEdit: bool)
  {
    !IsBlank(form.firstName) && !IsBlank(form.lastName) && form.hireDate.Filled?
    && (form.phoneNumber == "" || Count(form.phoneNumber, IsDigit) == 10)
    && (isEdit || form.userId.Filled?)
  }

  /** The validator passes exactly the valid forms: names not blank, a hire
      date, an empty phone or one with exactly ten digits, and a user id when
      creating. */
  lemma ValidateAcceptsExactlyValidForms(form: EmployeeFormData, isEdit: bool)
    ensures Validate(form, isEdit).None? <==> FormValid(form, isEdit)
  {
  }

  /** The first name is checked before the last name; the user id is never
      asked for when editing. */
  lemma ValidateOrder(form: EmployeeFormData, isEdit: bool)
    ensures IsBlank(form.firstName) ==> Validate(form, isEdit) == Some("First name is required")
    ensures !IsBlank(form.firstName) && IsBlank(form.lastName) ==> Validate(form, isEdit) == Some("Last name is required")
    ensures Validate(form, true) != Some("User ID is required")
  {
  }

  /** The body `handleSubmit` sends: empty department and job inputs become
      null, every other field passes through. */
  function Body(form: EmployeeFormData): (r: EmployeeBody)
    ensures r.departmentId == OrNull(form.departmentId) && r.jobId == OrNull(form.jobId)
    ensures r.userId == form.userId && r.firstName == form.firstName && r.lastName == form.lastName
    ensures r.dateOfBirth == form.dateOfBirth && r.phoneNumber == form.phoneNumber && r.address == form.address
    ensures r.hireDate == form.hireDate && r.leaveBalance == form.leaveBalance
  {
    EmployeeBody(form.userId, form.firstName, form.lastName, form.dateOfBirth, form.phoneNumber, form.address,
                 form.hireDate, OrNull(form.departmentId), OrNull(form.jobId), form.leaveBalance)
  }

  /** Update when the route has an id, create otherwise. */
  function Call(routeId: Option<Id>, form: EmployeeFormData): (r: EmployeeCall)
    ensures routeId.Some? <==> r.UpdateEmployee?
    ensures r.body == Body(form)
    ensures r.UpdateEmployee? ==> r.id == routeId.value
  {
    if routeId.Some? then UpdateEmployee(routeId.value, Body(form)) else CreateEmployee(Body(form))
  }

  /** Loading a record and saving it unchanged sends back its links, names,
      birth date and balance (ids and balance being the non-zero values the
      server hands out). */
  lemma LoadThenSubmit(e: EmployeeDto)
    requires e.departmentId != Some(0) && e.jobId != Some(0)
    requires e.leaveBalance.Some? && e.leaveBalance.value != 0
    ensures var b := Body(LoadedForm(e));
      b.departmentId == e.departmentId && b.jobId == e.jobId
      && b.firstName == e.firstName && b.lastName == e.lastName
      && OrNull(b.dateOfBirth) == e.dateOfBirth && b.userId == Filled(e.userId) && b.hireDate == Filled(e.hireDate)
      && b.leaveBalance == e.leaveBalance.value
  {
    OrNullOrBlank(e.dateOfBirth, Blank);
  }

  class EmployeeFormScreen {
    const routeId: Option<Id>
    const status: SubmitState
    var form: EmployeeFormData
    var departments: seq<DepartmentDto>
    var jobRoles: seq<JobRoleDto>
    var loading: bool

    constructor (routeId: Option<Id>)
      ensures this.routeId == routeId && form == InitialForm && departments == [] && jobRoles == [] && !loading
      ensures fresh(status) && status.error == "" && !status.submitLoading && status.navigatedTo.None?
    {
      this.routeId := routeId;
      status := new SubmitState();
      form := InitialForm;
      departments := [];
      jobRoles := [];
      loading := false;
    }

    /** `loadFormData`: both option lists, then (when editing) the record. A
        failure shows its message and keeps what was set before it. */
    method LoadFormData(lists: Result<(seq<DepartmentDto>, seq<JobRoleDto>), RequestError>,
                        record: Result<EmployeeDto, RequestError>)
      modifies this, status
      ensures !loading
      ensures status.submitLoading == old(status.submitLoading) && status.navigatedTo == old(status.navigatedTo)
      ensures lists.Failure? ==>
        status.error == GetErrorMessage(lists.error)
        && departments == old(departments) && jobRoles == old(jobRoles) && form == old(form)
      ensures lists.Ok? ==> departments == lists.value.0 && jobRoles == lists.value.1
      ensures lists.Ok? && routeId.None? ==> form == old(form) && status.error == old(status.error)
      ensures lists.Ok? && routeId.Some? && record.Ok? ==> form == LoadedForm(record.value) && status.error == old(status.error)
      ensures lists.Ok? && routeId.Some? && record.Failure? ==>
        form == old(form) && status.error == GetErrorMessage(record.error)
    {
      loading := true;
      match lists {
        case Failure(e) =>
          status.ShowError(GetErrorMessage(e));
        case Ok(fetched) =>
          departments := fetched.0;
          jobRoles := fetched.1;
          if routeId.Some? {
            match record {
              case Ok(employee) => form := LoadedForm(employee);
              case Failure(e) => status.ShowError(GetErrorMessage(e));
            }
          }
      }
      loading := false;
    }

    /** `handleSubmit`: nothing is sent unless the form validates; then the
        update or create call, and the employee list on success. */
    method HandleSubmit(outcome: Result<(), RequestError>) returns (sent: Option<EmployeeCall>)
      modifies status
      ensures sent.Some? <==> FormValid(form, routeId.Some?)
      ensures sent.Some? ==> sent.value == Call(routeId, form)
      ensures sent.None? ==> Some(status.error) == Validate(form, routeId.Some?)
      ensures sent.Some? && outcome.Ok? ==> status.error == "" && status.navigatedTo == Some("/employees")
      ensures sent.Some? && outcome.Failure? ==>
        status.error == GetErrorMessage(outcome.error) && status.navigatedTo == old(status.navigatedTo)
      ensures !FormValid(form, routeId.Some?) ==>
        status.navigatedTo == old(status.navigatedTo) && status.submitLoading == old(status.submitLoading)
      ensures FormValid(form, routeId.Some?) ==> !status.submitLoading
    {
      ValidateAcceptsExactlyValidForms(form, routeId.Some?);
      sent := status.Submit(Validate(form, routeId.Some?), Ok(Call(routeId, form)), outcome, "/employees");
    }
  }
}
