/** The payroll table (PayrollList.jsx): the month and year filters, the
    role-dependent load and the admin's process button. The filtered list is
    the effect at lines 26-37, a function of the screen's state here; an
    empty filter select is `None`. The logged-in user is `user`. */
module PayrollList {
  import opened Wrappers
  import opened Seqs
  import opened Helpers
  import opened Entities
  import opened Dto
  import opened RoleLoad
  import AuthContext

  function InMonth(month: int): PayrollDto -> bool
  {
    (p: PayrollDto) => p.month == month
  }

  function InYear(year: int): PayrollDto -> bool
  {
    (p: PayrollDto) => p.year == year
  }

  /** The filtered rows: by month when one is chosen, then by year. */
  function Shown(payrolls: seq<PayrollDto>, filterMonth: Option<int>, filterYear: Option<int>): seq<PayrollDto>
  {
    var byMonth := if filterMonth.Some? then Filter(payrolls, InMonth(filterMonth.value)) else payrolls;
    if filterYear.Some? then Filter(byMonth, InYear(filterYear.value)) else byMonth
  }

  /** The rows are the loaded payrolls, in order, of the chosen month and
      year; with no filter every payroll is shown. */
  lemma ShownIsPeriodSubsequence(payrolls: seq<PayrollDto>, filterMonth: Option<int>, filterYear: Option<int>)
    ensures IsSubsequence(Shown(payrolls, filterMonth, filterYear), payrolls)
    ensures filterMonth.None? && filterYear.None? ==> Shown(payrolls, filterMonth, filterYear) == payrolls
    ensures forall p :: p in Shown(payrolls, filterMonth, filterYear) <==>
      p in payrolls && (filterMonth.Some? ==> p.month == filterMonth.value)
      && (filterYear.Some? ==> p.year == filterYear.value)
  {
    var byMonth := if filterMonth.Some? then Filter(payrolls, InMonth(filterMonth.value)) else payrolls;
    SubsequenceRefl(payrolls);
    SubsequenceMembers(byMonth, payrolls);
    if filterYear.Some? {
      SubsequenceTrans(Filter(byMonth, InYear(filterYear.value)), byMonth, payrolls);
    }
  }

  /** The process button: only an admin, only on a pending payroll. */
  predicate CanProcess(isAdmin: bool, payroll: PayrollDto)
  {
    isAdmin && payroll.status == Some("PENDING")
  }

  class PayrollListScreen {
    const user: AuthContext.UserInfo
    var payrolls: seq<PayrollDto>
    var filterMonth: Option<int>
    var filterYear: Option<int>
    var error: string
    var loading: bool

    function IsAdmin(): bool
    {
      IsAdminRole(user.role)
    }

    /** `filteredPayrolls`. */
    function Rows(): seq<PayrollDto>
      reads this
    {
      Shown(payrolls, filterMonth, filterYear)
    }

    constructor (user: AuthContext.UserInfo)
      ensures this.user == user && payrolls == [] && filterMonth.None? && filterYear.None?
      ensures error == "" && loading
    {
      this.user := user;
      payrolls := [];
      filterMonth := None;
      filterYear := None;
      error := "";
      loading := true;
    }

    /** `loadPayrolls`: `employee` answers the non-admin's employee lookup
        and `fetched` the payroll query; `query` is the query made, if any. */
    method LoadPayrolls(employee: Result<EmployeeDto, RequestError>, fetched: Result<seq<PayrollDto>, RequestError>)
      returns (query: Option<Query>)
      modifies this
      ensures !loading && filterMonth == old(filterMonth) && filterYear == old(filterYear)
      ensures LoadPlan(IsAdmin(), employee).Ok? <==> query.Some?
      ensures query.Some? ==> query.value == LoadPlan(IsAdmin(), employee).value
      ensures query.None? ==> payrolls == old(payrolls) && error == GetErrorMessage(employee.error)
      ensures query.Some? && fetched.Ok? ==> payrolls == fetched.value && error == ""
      ensures query.Some? && fetched.Failure? ==> payrolls == old(payrolls) && error == GetErrorMessage(fetched.error)
    {
      loading := true;
      error := "";
      var plan := LoadPlan(IsAdmin(), employee);
      match plan {
        case Failure(e) =>
          error := GetErrorMessage(e);
          query := None;
        case Ok(q) =>
          query := Some(q);
          match fetched {
            case Ok(list) => payrolls := list;
            case Failure(e) => error := GetErrorMessage(e);
          }
      }
      loading := false;
    }

    /** `handleProcessPayroll`, reachable only through the button
        `CanProcess` shows; success asks for a reload, failure shows the
        error. */
    method HandleProcessPayroll(payroll: PayrollDto, outcome: Result<(), RequestError>)
      returns (called: bool, reload: bool)
      modifies this
      ensures called <==> CanProcess(IsAdmin(), payroll)
      ensures reload <==> called && outcome.Ok?
      ensures payrolls == old(payrolls) && filterMonth == old(filterMonth) && filterYear == old(filterYear)
      ensures called && outcome.Failure? ==> error == GetErrorMessage(outcome.error)
      ensures !(called && outcome.Failure?) ==> error == old(error)
    {
      called := CanProcess(IsAdmin(), payroll);
      reload := false;
      if called {
        match outcome {
          case Ok(_) => reload := true;
          case Failure(e) => error := GetErrorMessage(e);
        }
      }
    }
  }
}
