/** The payroll generation form (PayrollForm.jsx): the live net-salary
    preview, the employee pick, the ordered validator and the body sent to
    `createPayroll`. The amount inputs are `type="number"`, so each holds
    either nothing or a number; `parseFloat('') || 0` reads an empty one as
    zero. The current month and year are parameters. */
module PayrollForm {
  import opened Wrappers
  import opened Seqs
  import opened Helpers
  import opened Entities
  import opened Dto
  import opened FormScreen
  import PayrollService

  datatype PayrollFormData = PayrollFormData(
    employeeId: Field<Id>,
    month: int,
    year: int,
    baseSalary: Field<real>,
    allowances: Field<real>,
    deductions: Field<real>)

  /** No employee, the given month and year, an empty base salary, and
      allowances and deductions of `'0'`. */
  function InitialForm(currentMonth: int, currentYear: int): (r: PayrollFormData)
    ensures r.employeeId.Blank? && r.baseSalary.Blank?
    ensures r.allowances == Filled(0.0) && r.deductions == Filled(0.0)
    ensures r.month == currentMonth && r.year == currentYear
  {
    PayrollFormData(Blank, currentMonth, currentYear, Blank, Filled(0.0), Filled(0.0))
  }

  /** `parseFloat(x) || 0`. */
  function AmountOrZero(f: Field<real>): (r: real)
    ensures f.Blank? ==> r == 0.0
    ensures f.Filled? ==> r == f.value
  {
    match f
    case Blank => 0.0
    case Filled(v) => v
  }

  /** `calculateNetSalary` of the form. */
  function NetPreview(form: PayrollFormData): real
  {
    AmountOrZero(form.baseSalary) + AmountOrZero(form.allowances) - AmountOrZero(form.deductions)
  }

  /** A number input compared with `< 0`: `'' < 0` is false. */
  predicate Negative(f: Field<real>)
  {
    f.Filled? && f.value < 0.0
  }

  /** `validateForm`: the first failing check's message. */
  function Validate(form: PayrollFormData): Option<string>
  {
    if form.employeeId.Blank? then Some("Please select an employee")
    else if form.baseSalary.Blank? || form.baseSalary.value <= 0.0 then Some("Base salary must be greater than 0")
    else if Negative(form.allowances) || Negative(form.deductions) then Some("Allowances and deductions cannot be negative")
    else None
  }

  predicate FormValid(form: PayrollFormData)
  {
    form.employeeId.Filled? && form.baseSalary.Filled? && form.baseSalary.value > 0.0
    && AmountOrZero(form.allowances) >= 0.0 && AmountOrZero(form.deductions) >= 0.0
  }

  /** The validator passes exactly the forms with an employee, a positive
      base salary and no negative amount (an empty amount is not negative). */
  lemma ValidateAcceptsExactlyValidForms(form: PayrollFormData)
    ensures Validate(form).None? <==> FormValid(form)
  {
  }

  /** The employee is checked first, then the base salary, then the two
      amounts. */
  lemma ValidateOrder(form: PayrollFormData)
    ensures form.employeeId.Blank? ==> Validate(form) == Some("Please select an employee")
    ensures form.employeeId.Filled? && AmountOrZero(form.baseSalary) <= 0.0 ==>
      Validate(form) == Some("Base salary must be greater than 0")
    ensures form.employeeId.Filled? && AmountOrZero(form.baseSalary) > 0.0
            && (AmountOrZero(form.allowances) < 0.0 || AmountOrZero(form.deductions) < 0.0) ==>
      Validate(form) == Some("Allowances and deductions cannot be negative")
  {
  }

  /** The body `handleSubmit` sends once an employee is chosen: the ids and
      period as integers, the amounts as numbers (`parseFloat('')` is NaN,
      which JSON carries as null). */
  function Submission(form: PayrollFormData): (r: PayrollDto)
    requires form.employeeId.Filled?
    ensures r.employeeId == form.employeeId.value && r.month == form.month && r.year == form.year
    ensures r.baseSalary == OrNull(form.baseSalary) && r.allowances == OrNull(form.allowances)
    ensures r.deductions == OrNull(form.deductions)
    ensures r.payrollId.None? && r.netSalary.None? && r.status.None?
  {
    PayrollDto(None, form.employeeId.value, form.month, form.year,
               OrNull(form.baseSalary), OrNull(form.allowances), OrNull(form.deductions),
               None, None, None, None)
  }

  /** The preview the form shows is the net salary the server computes for
      the body it sends: both read a missing amount as zero. */
  lemma PreviewMatchesServer(form: PayrollFormData)
    requires form.employeeId.Filled?
    ensures NetPreview(form) == PayrollService.CalculateNetSalary(Submission(form))
  {
  }

  /** A valid form sends a positive base salary and no negative amount, so
      its net salary is at most base + allowances. */
  lemma ValidSubmission(form: PayrollFormData)
    requires FormValid(form)
    ensures var dto := Submission(form);
      dto.baseSalary.Some? && dto.baseSalary.value > 0.0
      && OrZero(dto.allowances) >= 0.0 && OrZero(dto.deductions) >= 0.0
      && PayrollService.CalculateNetSalary(dto) <= dto.baseSalary.value + OrZero(dto.allowances)
  {
  }

  class PayrollFormScreen {
    const status: SubmitState
    var employees: seq<EmployeeDto>
    var form: PayrollFormData
    var netSalary: real
    var loading: bool

    /** The preview effect has run on the current form. */
    predicate PreviewCurrent()
      reads this
    {
      netSalary == NetPreview(form)
    }

    constructor (currentMonth: int, currentYear: int)
      ensures form == InitialForm(currentMonth, currentYear) && employees == [] && !loading
      ensures PreviewCurrent() && netSalary == 0.0
      ensures fresh(status) && status.error == "" && !status.submitLoading && status.navigatedTo.None?
    {
      status := new SubmitState();
      employees := [];
      form := InitialForm(currentMonth, currentYear);
      netSalary := 0.0;
      loading := false;
    }

    /** `loadEmployees`: the fetched list, or the error and the old list. */
    method LoadEmployees(fetched: Result<seq<EmployeeDto>, RequestError>)
      modifies this, status
      ensures form == old(form) && netSalary == old(netSalary) && !loading
      ensures status.submitLoading == old(status.submitLoading) && status.navigatedTo == old(status.navigatedTo)
      ensures fetched.Ok? ==> employees == fetched.value && status.error == old(status.error)
      ensures fetched.Failure? ==> employees == old(employees) && status.error == GetErrorMessage(fetched.error)
    {
      loading := true;
      match fetched {
        case Ok(list) => employees := list;
        case Failure(e) => status.ShowError(GetErrorMessage(e));
      }
      loading := false;
    }

    /** `handleChange` followed by the preview effect. */
    method HandleChange(newForm: PayrollFormData)
      modifies this
      ensures form == newForm && employees == old(employees)
      ensures PreviewCurrent()
    {
      form := newForm;
      netSalary := NetPreview(form);
    }

    /** `handleEmployeeChange`: the pick becomes `employeeId`, and the base
        salary is replaced by `selectedEmployee?.jobRole?.baseSalary || ''`.
        An employee record carries no nested `jobRole` (only `jobId` and
        `jobTitle`), so that is always `''`: the base salary is cleared and
        the preview drops to allowances minus deductions. */
    method HandleEmployeeChange(pick: Field<Id>)
      modifies this
      ensures form == old(form).(employeeId := pick, baseSalary := Blank) && employees == old(employees)
      ensures PreviewCurrent()
      ensures netSalary == AmountOrZero(form.allowances) - AmountOrZero(form.deductions)
    {
      form := form.(employeeId := pick, baseSalary := Blank);
      netSalary := NetPreview(form);
    }

    /** `handleSubmit`: nothing is sent unless the form validates; a valid
        form sends its converted body, whose server-side net salary is the
        preview on screen, and goes to the payroll list on success. */
    method HandleSubmit(outcome: Result<(), RequestError>) returns (sent: Option<PayrollDto>)
      modifies status
      ensures sent.Some? <==> FormValid(form)
      ensures sent.None? ==> Some(status.error) == Validate(form)
      ensures sent.Some? ==> sent.value == Submission(form)
      ensures sent.Some? && PreviewCurrent() ==> PayrollService.CalculateNetSalary(sent.value) == netSalary
      ensures sent.Some? && outcome.Ok? ==> status.error == "" && status.navigatedTo == Some("/payroll")
      ensures sent.Some? && outcome.Failure? ==>
        status.error == GetErrorMessage(outcome.error) && status.navigatedTo == old(status.navigatedTo)
      ensures !FormValid(form) ==>
        status.navigatedTo == old(status.navigatedTo) && status.submitLoading == old(status.submitLoading)
      ensures FormValid(form) ==> !status.submitLoading
    {
      ValidateAcceptsExactlyValidForms(form);
      var request: Result<PayrollDto, RequestError> := Failure(RequestError(None, ""));
      if form.employeeId.Filled? {
        request := Ok(Submission(form));
        PreviewMatchesServer(form);
      }
      sent := status.Submit(Validate(form), request, outcome, "/payroll");
    }
  }
}
