/** The job role create/edit form (JobRoleForm.jsx): the ordered validator,
    the fields loaded from a fetched role, and the choice between create and
    update. The route's `id` is `routeId`; the form edits when it is set.
    The base salary input is `type="number"`: empty or a number. */
module JobRoleForm {
  import opened Wrappers
  import opened Text
  import opened Helpers
  import opened Entities
  import opened Dto
  import opened FormScreen

  datatype JobRoleFormData = JobRoleFormData(jobTitle: string, baseSalary: Field<real>, description: string)

  datatype JobRoleCall = CreateJobRole(body: JobRoleDto) | UpdateJobRole(id: Id, body: JobRoleDto)

  const InitialForm := JobRoleFormData("", Blank, "")

  /** `loadJobRole`: title and salary as fetched, a missing description as `''`. */
  function LoadedForm(role: JobRoleDto): (r: JobRoleFormData)
    ensures r.jobTitle == role.jobTitle && r.baseSalary == OrBlank(role.baseSalary)
    ensures r.description == role.description.GetOr("")
  {
    JobRoleFormData(role.jobTitle, OrBlank(role.baseSalary), role.description.GetOr(""))
  }

  /** `validateForm`: the first failing check's message. */
  function Validate(form: JobRoleFormData): Option<string>
  {
    if IsBlank(form.jobTitle) then Some("Job title is required")
    else if form.baseSalary.Blank? || form.baseSalary.value <= 0.0 then Some("Base salary must be greater than 0")
    else None
  }

  predicate FormValid(form: JobRoleFormData)
  {
    !IsBlank(form.jobTitle) && form.baseSalary.Filled? && form.baseSalary.value > 0.0
  }

  /** The validator passes exactly the forms with a non-blank title and a
      positive salary; the title is checked first. */
  lemma ValidateAcceptsExactlyValidForms(form: JobRoleFormData)
    ensures Validate(form).None? <==> FormValid(form)
    ensures IsBlank(form.jobTitle) ==> Validate(form) == Some("Job title is required")
    ensures !IsBlank(form.jobTitle) && !(form.baseSalary.Filled? && form.baseSalary.value > 0.0) ==>
      Validate(form) == Some("Base salary must be greater than 0")
  {
  }

  /** The form data as the body of the call. */
  function Body(form: JobRoleFormData): (r: JobRoleDto)
    ensures r.jobId.None? && r.jobTitle == form.jobTitle
    ensures r.baseSalary == OrNull(form.baseSalary) && r.description == Some(form.description)
  {
    JobRoleDto(None, form.jobTitle, OrNull(form.baseSalary), Some(form.description))
  }

  /** Update when the route has an id, create otherwise. */
  function Call(routeId: Option<Id>, form: JobRoleFormData): (r: JobRoleCall)
    ensures routeId.Some? <==> r.UpdateJobRole?
    ensures r.body == Body(form)
    ensures r.UpdateJobRole? ==> r.id == routeId.value
  {
    if routeId.Some? then UpdateJobRole(routeId.value, Body(form)) else CreateJobRole(Body(form))
  }

  /** Saving a loaded role unchanged sends back its title and salary, and its
      description with null turned into `''`. */
  lemma LoadThenSubmit(role: JobRoleDto)
    ensures Body(LoadedForm(role)) == role.(jobId := None, description := Some(role.description.GetOr("")))
  {
    OrNullOrBlank(role.baseSalary, Blank);
  }

  class JobRoleFormScreen {
    const routeId: Option<Id>
    const status: SubmitState
    var form: JobRoleFormData
    var loading: bool

    constructor (routeId: Option<Id>)
      ensures this.routeId == routeId && form == InitialForm && !loading
      ensures fresh(status) && status.error == "" && !status.submitLoading && status.navigatedTo.None?
    {
      this.routeId := routeId;
      status := new SubmitState();
      form := InitialForm;
      loading := false;
    }

    /** The edit-mode effect: load the role, or show the error. A create
        form loads nothing. */
    method LoadJobRole(fetched: Result<JobRoleDto, RequestError>)
      modifies this, status
      ensures routeId.None? ==> form == old(form) && loading == old(loading) && status.error == old(status.error)
      ensures routeId.Some? ==> !loading
      ensures status.submitLoading == old(status.submitLoading) && status.navigatedTo == old(status.navigatedTo)
      ensures routeId.Some? && fetched.Ok? ==> form == LoadedForm(fetched.value) && status.error == old(status.error)
      ensures routeId.Some? && fetched.Failure? ==> form == old(form) && status.error == GetErrorMessage(fetched.error)
    {
      if routeId.None? {
        return;
      }
      loading := true;
      match fetched {
        case Ok(role) => form := LoadedForm(role);
        case Failure(e) => status.ShowError(GetErrorMessage(e));
      }
      loading := false;
    }

    /** `handleSubmit`: no call unless the form validates; then the update
        or create call, and the job role list on success. */
    method HandleSubmit(outcome: Result<(), RequestError>) returns (sent: Option<JobRoleCall>)
      modifies status
      ensures sent.Some? <==> FormValid(form)
      ensures sent.Some? ==> sent.value == Call(routeId, form)
      ensures sent.None? ==> Some(status.error) == Validate(form)
      ensures sent.Some? && outcome.Ok? ==> status.error == "" && status.navigatedTo == Some("/jobroles")
      ensures sent.Some? && outcome.Failure? ==>
        status.error == GetErrorMessage(outcome.error) && status.navigatedTo == old(status.navigatedTo)
      ensures !FormValid(form) ==>
        status.navigatedTo == old(status.navigatedTo) && status.submitLoading == old(status.submitLoading)
      ensures FormValid(form) ==> !status.submitLoading
    {
      ValidateAcceptsExactlyValidForms(form);
      sent := status.Submit(Validate(form), Ok(Call(routeId, form)), outcome, "/jobroles");
    }
  }
}
