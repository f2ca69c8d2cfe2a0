/** The department create/edit form (DepartmentForm.jsx): a name is the only
    requirement, a loaded department's missing description becomes `''`, and
    the route's `id` (`routeId`) chooses between update and create. */
module DepartmentForm {
  import opened Wrappers
  import opened Text
  import opened Helpers
  import opened Entities
  import opened Dto
  import opened FormScreen

  datatype DepartmentFormData = DepartmentFormData(departmentName: string, description: string)

  datatype DepartmentCall = CreateDepartment(body: DepartmentDto) | UpdateDepartment(id: Id, body: DepartmentDto)

  const InitialForm := DepartmentFormData("", "")

  /** `loadDepartment`: the name as fetched, a missing description as `''`. */
  function LoadedForm(department: DepartmentDto): (r: DepartmentFormData)
    ensures r.departmentName == department.departmentName
    ensures r.description == department.description.GetOr("")
  {
    DepartmentFormData(department.departmentName, department.description.GetOr(""))
  }

  /** `validateForm`. */
  function Validate(form: DepartmentFormData): Option<string>
  {
    if IsBlank(form.departmentName) then Some("Department name is required") else None
  }

  /** Only the name is checked: any form with a non-blank name passes,
      whatever its description. */
  lemma ValidateChecksOnlyTheName(form: DepartmentFormData, description: string)
    ensures Validate(form).None? <==> !IsBlank(form.departmentName)
    ensures Validate(form.(description := description)) == Validate(form)
    ensures Validate(form).Some? ==> Validate(form) == Some("Department name is required")
  {
  }

  function Body(form: DepartmentFormData): (r: DepartmentDto)
    ensures r.departmentId.None? && r.departmentName == form.departmentName
    ensures r.description == Some(form.description)
  {
    DepartmentDto(None, form.departmentName, Some(form.description))
  }

  /** Update when the route has an id, create otherwise. */
  function Call(routeId: Option<Id>, form: DepartmentFormData): (r: DepartmentCall)
    ensures routeId.Some? <==> r.UpdateDepartment?
    ensures r.body == Body(form)
    ensures r.UpdateDepartment? ==> r.id == routeId.value
  {
    if routeId.Some? then UpdateDepartment(routeId.value, Body(form)) else CreateDepartment(Body(form))
  }

  /** Saving a loaded department unchanged sends back its name, and its
      description with null turned into `''`. */
  lemma LoadThenSubmit(department: DepartmentDto)
    ensures Body(LoadedForm(department))
      == department.(departmentId := None, description := Some(department.description.GetOr("")))
  {
  }

  class DepartmentFormScreen {
    const routeId: Option<Id>
    const status: SubmitState
    var form: DepartmentFormData
    var loading: bool

    constructor (routeId: Option<Id>)
      ensures this.routeId == routeId && form == InitialForm && !loading
      ensures fresh(status) && status.error == "" && !status.submitLoading && status.navigatedTo.None?
    {
      this.routeId := routeId;
      status := new SubmitState();
      form := InitialForm;
      loading := false;
    }

    /** The edit-mode effect: load the department, or show the error. A
        create form loads nothing. */
    method LoadDepartment(fetched: Result<DepartmentDto, RequestError>)
      modifies this, status
      ensures routeId.None? ==> form == old(form) && loading == old(loading) && status.error == old(status.error)
      ensures routeId.Some? ==> !loading
      ensures status.submitLoading == old(status.submitLoading) && status.navigatedTo == old(status.navigatedTo)
      ensures routeId.Some? && fetched.Ok? ==> form == LoadedForm(fetched.value) && status.error == old(status.error)
      ensures routeId.Some? && fetched.Failure? ==> form == old(form) && status.error == GetErrorMessage(fetched.error)
    {
      if routeId.None? {
        return;
      }
      loading := true;
      match fetched {
        case Ok(department) => form := LoadedForm(department);
        case Failure(e) => status.ShowError(GetErrorMessage(e));
      }
      loading := false;
    }

    /** `handleSubmit`: no call for a blank name; then the update or create
        call, and the department list on success. */
    method HandleSubmit(outcome: Result<(), RequestError>) returns (sent: Option<DepartmentCall>)
      modifies status
      ensures sent.Some? <==> !IsBlank(form.departmentName)
      ensures sent.Some? ==> sent.value == Call(routeId, form)
      ensures sent.None? ==> status.error == "Department name is required"
      ensures sent.Some? && outcome.Ok? ==> status.error == "" && status.navigatedTo == Some("/departments")
      ensures sent.Some? && outcome.Failure? ==>
        status.error == GetErrorMessage(outcome.error) && status.navigatedTo == old(status.navigatedTo)
      ensures IsBlank(form.departmentName) ==>
        status.navigatedTo == old(status.navigatedTo) && status.submitLoading == old(status.submitLoading)
      ensures !IsBlank(form.departmentName) ==> !status.submitLoading
    {
      ValidateChecksOnlyTheName(form, form.description);
      sent := status.Submit(Validate(form), Ok(Call(routeId, form)), outcome, "/departments");
    }
  }
}
