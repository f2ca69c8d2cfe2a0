/** The leave request table (LeaveList.jsx): the search and status filters,
    the role-dependent load, the per-row day count, the cancel button and the
    admin's employee name map. The filtered list is the effect at lines
    43-55, which reruns on every change of its inputs, so it is a function
    of the screen's state here. The logged-in user is `user`. */
module LeaveList {
  import opened Wrappers
  import opened Seqs
  import opened Helpers
  import opened Entities
  import opened Dto
  import opened RoleLoad
  import AuthContext

  function TextCell(s: Option<string>): Cell
  {
    if s.Some? then Str(s.value) else Absent
  }

  /** The searched keys: leaveType, reason, aiMessage. */
  const SearchKeys: seq<LeaveRequestDto -> Cell> := [
    (l: LeaveRequestDto) => Str(l.leaveType),
    (l: LeaveRequestDto) => TextCell(l.reason),
    (l: LeaveRequestDto) => TextCell(l.aiMessage)]

  function HasStatus(status: string): LeaveRequestDto -> bool
  {
    (l: LeaveRequestDto) => l.status == Some(status)
  }

  /** The filtered rows: the search when the term is not empty, then the
      status when one is chosen. */
  function Shown(leaves: seq<LeaveRequestDto>, searchTerm: string, filterStatus: string): seq<LeaveRequestDto>
  {
    var searched := if searchTerm != "" then FilterBy(leaves, searchTerm, SearchKeys) else leaves;
    if filterStatus != "" then Filter(searched, HasStatus(filterStatus)) else searched
  }

  /** The two filters compose: the rows are the loaded leaves, in order, that
      match the term (when given) and have the status (when chosen), and no
      filter shows every leave. */
  lemma ShownIsFilteredSubsequence(leaves: seq<LeaveRequestDto>, searchTerm: string, filterStatus: string)
    ensures IsSubsequence(Shown(leaves, searchTerm, filterStatus), leaves)
    ensures searchTerm == "" && filterStatus == "" ==> Shown(leaves, searchTerm, filterStatus) == leaves
    ensures forall l :: l in Shown(leaves, searchTerm, filterStatus) <==>
      l in leaves && (searchTerm != "" ==> Matches(l, searchTerm, SearchKeys))
      && (filterStatus != "" ==> l.status == Some(filterStatus))
  {
    var searched := if searchTerm != "" then FilterBy(leaves, searchTerm, SearchKeys) else leaves;
    SubsequenceRefl(leaves);
    SubsequenceMembers(searched, leaves);
    if filterStatus != "" {
      SubsequenceTrans(Filter(searched, HasStatus(filterStatus)), searched, leaves);
    }
  }

  /** The Days column: `ceil((end - start) / day) + 1` on day numbers, with no
      absolute value. */
  function RowDays(leave: LeaveRequestDto): int
  {
    leave.endDate - leave.startDate + 1
  }

  /** The column agrees with `calculateLeaveDays` exactly when the dates are
      in order; for an end before the start it shows zero or a negative
      count where the helper shows a positive one. */
  lemma RowDaysVersusCalculateLeaveDays(leave: LeaveRequestDto)
    ensures RowDays(leave) == CalculateLeaveDays(Some(leave.startDate), Some(leave.endDate))
      <==> leave.startDate <= leave.endDate
    ensures leave.endDate < leave.startDate ==>
      RowDays(leave) <= 0 && CalculateLeaveDays(Some(leave.startDate), Some(leave.endDate)) >= 2
  {
  }

  /** The row's employee cell: the record's name, or `Employee #id`. */
  function EmployeeLabel(leave: LeaveRequestDto): (r: string)
    ensures leave.employeeName.Some? && leave.employeeName.value != "" ==> r == leave.employeeName.value
    ensures leave.employeeName.None? || leave.employeeName.value == "" ==>
      r == "Employee #" + IntToString(leave.employeeId)
  {
    if leave.employeeName.Some? && leave.employeeName.value != "" then leave.employeeName.value
    else "Employee #" + IntToString(leave.employeeId)
  }

  function FullName(e: EmployeeDto): string
  {
    e.firstName + " " + e.lastName
  }

  /** The admin's `employeeMap`: each employee id to `first last`, a later
      entry overwriting an earlier one with the same id. */
  function NameMap(employees: seq<EmployeeDto>): (m: map<Option<Id>, string>)
    ensures forall e :: e in employees ==> e.employeeId in m
    ensures forall k :: k in m ==> exists e :: e in employees && e.employeeId == k
  {
    if employees == [] then map[]
    else
      var last := employees[|employees| - 1];
      var m := NameMap(employees[..|employees| - 1]);
      assert forall e :: e in employees ==> e == last || e in employees[..|employees| - 1];
      m[last.employeeId := FullName(last)]
  }

  /** An employee whose id no other entry shares is named by its own first
      and last name. */
  lemma {:induction false} NameMapEntry(employees: seq<EmployeeDto>, i: nat)
    requires i < |employees|
    requires forall j :: 0 <= j < |employees| && j != i ==> employees[j].employeeId != employees[i].employeeId
    ensures NameMap(employees)[employees[i].employeeId] == FullName(employees[i])
    decreases |employees|
  {
    var n := |employees| - 1;
    var prefix := employees[..n];
    var key := employees[i].employeeId;
    assert NameMap(employees) == NameMap(prefix)[employees[n].employeeId := FullName(employees[n])];
    if i < n {
      assert employees[n].employeeId != key;
      forall j | 0 <= j < |prefix| && j != i
        ensures prefix[j].employeeId != prefix[i].employeeId
      {
        assert prefix[j] == employees[j];
      }
      NameMapEntry(prefix, i);
      assert prefix[i] == employees[i];
    }
  }

  /** The cancel button: only a non-admin, only on a pending leave. */
  predicate CanCancel(isAdmin: bool, leave: LeaveRequestDto)
  {
    !isAdmin && leave.status == Some("PENDING")
  }

  class LeaveListScreen {
    const user: AuthContext.UserInfo
    var leaves: seq<LeaveRequestDto>
    var searchTerm: string
    var filterStatus: string
    var names: map<Option<Id>, string>
    var error: string
    var loading: bool

    function IsAdmin(): bool
    {
      IsAdminRole(user.role)
    }

    /** `filteredLeaves`. */
    function Rows(): seq<LeaveRequestDto>
      reads this
    {
      Shown(leaves, searchTerm, filterStatus)
    }

    constructor (user: AuthContext.UserInfo)
      ensures this.user == user && leaves == [] && searchTerm == "" && filterStatus == ""
      ensures names == map[] && error == "" && loading
    {
      this.user := user;
      leaves := [];
      searchTerm := "";
      filterStatus := "";
      names := map[];
      error := "";
      loading := true;
    }

    /** `loadLeaves`: `employee` answers the non-admin's employee lookup and
        `fetched` the leave query; `query` is the query made, if any. */
    method LoadLeaves(employee: Result<EmployeeDto, RequestError>, fetched: Result<seq<LeaveRequestDto>, RequestError>)
      returns (query: Option<Query>)
      modifies this
      ensures !loading && searchTerm == old(searchTerm) && filterStatus == old(filterStatus) && names == old(names)
      ensures LoadPlan(IsAdmin(), employee).Ok? <==> query.Some?
      ensures query.Some? ==> query.value == LoadPlan(IsAdmin(), employee).value
      ensures query.None? ==> leaves == old(leaves) && error == GetErrorMessage(employee.error)
      ensures query.Some? && fetched.Ok? ==> leaves == fetched.value && error == ""
      ensures query.Some? && fetched.Failure? ==> leaves == old(leaves) && error == GetErrorMessage(fetched.error)
    {
      loading := true;
      error := "";
      var plan := LoadPlan(IsAdmin(), employee);
      match plan {
        case Failure(e) =>
          error := GetErrorMessage(e);
          query := None;
        case Ok(q) =>
          query := Some(q);
          match fetched {
            case Ok(list) => leaves := list;
            case Failure(e) => error := GetErrorMessage(e);
          }
      }
      loading := false;
    }

    /** The admin-only effect that builds the name map; a failure is only
        logged. */
    method LoadNames(fetched: Result<seq<EmployeeDto>, RequestError>)
      modifies this
      ensures leaves == old(leaves) && error == old(error) && loading == old(loading)
      ensures IsAdmin() && fetched.Ok? ==> names == NameMap(fetched.value)
      ensures !(IsAdmin() && fetched.Ok?) ==> names == old(names)
    {
      if IsAdmin() && fetched.Ok? {
        names := NameMap(fetched.value);
      }
    }

    /** The cancel button's handler: offered only by `CanCancel`, run only
        when the user confirms; a successful delete asks for a reload
        (`reload`), a failed one shows the error. */
    method CancelLeave(leave: LeaveRequestDto, confirmed: bool, outcome: Result<(), RequestError>)
      returns (called: bool, reload: bool)
      modifies this
      ensures called <==> CanCancel(IsAdmin(), leave) && confirmed
      ensures reload <==> called && outcome.Ok?
      ensures leaves == old(leaves) && names == old(names)
      ensures called && outcome.Failure? ==> error == GetErrorMessage(outcome.error)
      ensures !(called && outcome.Failure?) ==> error == old(error)
    {
      called := CanCancel(IsAdmin(), leave) && confirmed;
      reload := false;
      if called {
        match outcome {
          case Ok(_) => reload := true;
          case Failure(e) => error := GetErrorMessage(e);
        }
      }
    }
  }
}
