/** The employee table (EmployeeList.jsx): the displayed rows are the loaded
    employees filtered by the search box and sorted by the chosen column;
    clicking a header toggles the sort; a confirmed delete prunes the
    deleted employee from the loaded list. The displayed list is the effect
    at lines 23-27, which reruns on every change of its inputs, so it is a
    function of the screen's state here. */
module EmployeeList {
  import opened Wrappers
  import opened Seqs
  import opened Helpers
  import opened Entities
  import opened Dto

  /** The sortable columns. */
  datatype Column = FirstName | DepartmentName | JobTitle | HireDate | LeaveBalance

  datatype SortConfig = SortConfig(key: Column, direction: string)

  const InitialSort := SortConfig(FirstName, "asc")

  function TextCell(s: Option<string>): Cell
  {
    if s.Some? then Str(s.value) else Absent
  }

  function NumCell(n: Option<int>): Cell
  {
    if n.Some? then Num(n.value) else Absent
  }

  /** The field a column sorts on. */
  function ColumnKey(c: Column): EmployeeDto -> Cell
  {
    match c
    case FirstName => (e: EmployeeDto) => Str(e.firstName)
    case DepartmentName => (e: EmployeeDto) => TextCell(e.departmentName)
    case JobTitle => (e: EmployeeDto) => TextCell(e.jobTitle)
    case HireDate => (e: EmployeeDto) => Num(e.hireDate)
    case LeaveBalance => (e: EmployeeDto) => NumCell(e.leaveBalance)
  }

  /** `e.email`: an employee record has no such field, so it is always undefined. */
  function EmailCell(e: EmployeeDto): Cell
  {
    Absent
  }

  /** The searched keys: firstName, lastName, email, departmentName, jobTitle. */
  const SearchKeys: seq<EmployeeDto -> Cell> := [
    (e: EmployeeDto) => Str(e.firstName),
    (e: EmployeeDto) => Str(e.lastName),
    EmailCell,
    (e: EmployeeDto) => TextCell(e.departmentName),
    (e: EmployeeDto) => TextCell(e.jobTitle)]

  /** The displayed rows. */
  function Displayed(employees: seq<EmployeeDto>, searchTerm: string, config: SortConfig): seq<EmployeeDto>
  {
    SortBy(FilterBy(employees, searchTerm, SearchKeys), ColumnKey(config.key), config.direction)
  }

  /** The displayed rows are the matching employees, each as often as it was
      loaded, in the column's order when its values are distinct; an empty
      search shows every employee. */
  lemma DisplayedRows(employees: seq<EmployeeDto>, searchTerm: string, config: SortConfig)
    ensures multiset(Displayed(employees, searchTerm, config)) == multiset(FilterBy(employees, searchTerm, SearchKeys))
    ensures searchTerm == "" ==> multiset(Displayed(employees, searchTerm, config)) == multiset(employees)
    ensures forall e :: e in Displayed(employees, searchTerm, config) ==>
      e in employees && (searchTerm != "" ==> Matches(e, searchTerm, SearchKeys))
    ensures Comparable(FilterBy(employees, searchTerm, SearchKeys), ColumnKey(config.key), config.direction) ==>
      Ordered(Displayed(employees, searchTerm, config), ColumnKey(config.key), config.direction)
  {
    var filtered := FilterBy(employees, searchTerm, SearchKeys);
    SubsequenceMembers(filtered, employees);
    forall e | e in Displayed(employees, searchTerm, config)
      ensures e in employees && (searchTerm != "" ==> Matches(e, searchTerm, SearchKeys))
    {
      assert e in multiset(filtered);
    }
    if Comparable(filtered, ColumnKey(config.key), config.direction) {
      SortByOrdered(filtered, ColumnKey(config.key), config.direction);
    }
  }

  /** The search never matches on e-mail: the rows list no such field. */
  lemma SearchIgnoresEmail(e: EmployeeDto, searchTerm: string)
    ensures Matches(e, searchTerm, SearchKeys) <==>
      exists k :: 0 <= k < |SearchKeys| && k != 2 && KeyMatches(e, searchTerm, SearchKeys[k])
  {
    assert !KeyMatches(e, searchTerm, SearchKeys[2]);
  }

  /** `handleSort`: the clicked column, descending only when it was already
      the ascending column. */
  function NextSort(config: SortConfig, key: Column): (r: SortConfig)
    ensures r.key == key
    ensures r.direction == "desc" <==> config.key == key && config.direction == "asc"
    ensures r.direction == "asc" || r.direction == "desc"
  {
    if config.key == key && config.direction == "asc" then SortConfig(key, "desc") else SortConfig(key, "asc")
  }

  /** Clicking one column repeatedly alternates ascending and descending,
      and a new column always starts ascending. */
  lemma SortToggles(config: SortConfig, key: Column)
    ensures NextSort(NextSort(config, key), key).direction != NextSort(config, key).direction
    ensures NextSort(NextSort(NextSort(config, key), key), key) == NextSort(config, key)
    ensures config.key != key ==> NextSort(config, key) == SortConfig(key, "asc")
  {
  }

  /** `getSortIcon(columnKey)`. */
  function SortIcon(config: SortConfig, column: Column): string
  {
    if config.key != column then "bi-arrow-down-up"
    else if config.direction == "asc" then "bi-arrow-up" else "bi-arrow-down"
  }

  /** Only the sorted column shows a direction, and it shows the one the
      table is sorted in. */
  lemma SortIconShowsDirection(config: SortConfig, column: Column)
    ensures SortIcon(config, column) == "bi-arrow-down-up" <==> config.key != column
    ensures SortIcon(config, column) == "bi-arrow-up" <==> config.key == column && config.direction == "asc"
    ensures SortIcon(NextSort(config, column), column) != "bi-arrow-down-up"
  {
  }

  /** The leave-balance badge: `balance > 10`, then `> 5`; a null balance
      compares false both times. */
  function BalanceBadge(balance: Option<int>): (r: string)
    ensures r == "bg-success" <==> balance.Some? && balance.value > 10
    ensures r == "bg-warning" <==> balance.Some? && 5 < balance.value <= 10
    ensures r == "bg-danger" <==> balance.None? || balance.value <= 5
  {
    if balance.Some? && balance.value > 10 then "bg-success"
    else if balance.Some? && balance.value > 5 then "bg-warning"
    else "bg-danger"
  }

  function EmployeeIdOf(e: EmployeeDto): Option<Id>
  {
    e.employeeId
  }

  /** The delete confirmation: shown or not, and the employee it is about. */
  datatype DeleteModal = DeleteModal(show: bool, employee: Option<EmployeeDto>)

  const ClosedModal := DeleteModal(false, None)

  class EmployeeListScreen {
    var employees: seq<EmployeeDto>
    var searchTerm: string
    var sortConfig: SortConfig
    var deleteModal: DeleteModal
    var error: string
    var loading: bool

    /** `filteredEmployees`. */
    function Rows(): seq<EmployeeDto>
      reads this
    {
      Displayed(employees, searchTerm, sortConfig)
    }

    constructor ()
      ensures employees == [] && searchTerm == "" && sortConfig == InitialSort
      ensures deleteModal == ClosedModal && error == "" && loading
    {
      employees := [];
      searchTerm := "";
      sortConfig := InitialSort;
      deleteModal := ClosedModal;
      error := "";
      loading := true;
    }

    /** `loadEmployees`: clear the error, then the fetched list or the
        error. */
    method LoadEmployees(fetched: Result<seq<EmployeeDto>, RequestError>)
      modifies this
      ensures !loading && searchTerm == old(searchTerm) && sortConfig == old(sortConfig) && deleteModal == old(deleteModal)
      ensures fetched.Ok? ==> employees == fetched.value && error == ""
      ensures fetched.Failure? ==> employees == old(employees) && error == GetErrorMessage(fetched.error)
    {
      loading := true;
      error := "";
      match fetched {
        case Ok(list) => employees := list;
        case Failure(e) => error := GetErrorMessage(e);
      }
      loading := false;
    }

    method HandleSort(key: Column)
      modifies this
      ensures sortConfig == NextSort(old(sortConfig), key)
      ensures employees == old(employees) && searchTerm == old(searchTerm) && deleteModal == old(deleteModal)
      ensures error == old(error) && loading == old(loading)
    {
      sortConfig := NextSort(sortConfig, key);
    }

    /** `handleDeleteEmployee`: `outcome` is the server's answer to the
        delete call. The call is made only when the modal holds an employee
        (reading the id of a null one throws, and the handler shows that). A
        successful delete prunes that id (`WithoutRemovesExactly`) and closes the modal; a failed one
        keeps the list and shows the error. */
    method HandleDeleteEmployee(outcome: Result<(), RequestError>) returns (called: bool)
      modifies this
      ensures called <==> old(deleteModal).employee.Some?
      ensures searchTerm == old(searchTerm) && sortConfig == old(sortConfig) && loading == old(loading)
      ensures !called ==>
        employees == old(employees) && deleteModal == old(deleteModal)
        && error == "Cannot read properties of null (reading 'employeeId')"
      ensures called && outcome.Ok? ==>
        employees == Without(old(employees), EmployeeIdOf, old(deleteModal).employee.value.employeeId)
        && deleteModal == ClosedModal && error == old(error)
      ensures called && outcome.Failure? ==>
        employees == old(employees) && deleteModal == old(deleteModal) && error == GetErrorMessage(outcome.error)
    {
      if deleteModal.employee.None? {
        error := GetErrorMessage(RequestError(None, "Cannot read properties of null (reading 'employeeId')"));
        return false;
      }
      called := true;
      match outcome {
        case Ok(_) =>
          employees := Without(employees, EmployeeIdOf, deleteModal.employee.value.employeeId);
          deleteModal := ClosedModal;
        case Failure(e) =>
          error := GetErrorMessage(e);
      }
    }
  }
}
