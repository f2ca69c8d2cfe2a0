/** The department table (DepartmentList.jsx): the search over name and
    description, and the delete that prunes the loaded list. The filtered
    list is the effect at lines 22-25, a function of the screen's state
    here. */
module DepartmentList {
  import opened Wrappers
  import opened Seqs
  import opened Helpers
  import opened Entities
  import opened Dto

  function TextCell(s: Option<string>): Cell
  {
    if s.Some? then Str(s.value) else Absent
  }

  /** The searched keys: departmentName, description. */
  const SearchKeys: seq<DepartmentDto -> Cell> := [
    (d: DepartmentDto) => Str(d.departmentName),
    (d: DepartmentDto) => TextCell(d.description)]

  function DepartmentIdOf(d: DepartmentDto): Option<Id>
  {
    d.departmentId
  }

  /** The displayed rows: an empty search shows every department; otherwise
      the matching ones, in order. After a delete the removed department is
      not among them. */
  lemma DisplayedRows(departments: seq<DepartmentDto>, searchTerm: string, deleted: Option<Id>)
    ensures searchTerm == "" ==> FilterBy(departments, searchTerm, SearchKeys) == departments
    ensures forall d :: d in FilterBy(departments, searchTerm, SearchKeys) <==>
      d in departments && (searchTerm != "" ==> Matches(d, searchTerm, SearchKeys))
    ensures forall d :: d in FilterBy(Without(departments, DepartmentIdOf, deleted), searchTerm, SearchKeys) ==>
      d.departmentId != deleted
  {
    SubsequenceMembers(FilterBy(departments, searchTerm, SearchKeys), departments);
    var rest := Without(departments, DepartmentIdOf, deleted);
    WithoutRemovesExactly(departments, DepartmentIdOf, deleted);
    SubsequenceMembers(FilterBy(rest, searchTerm, SearchKeys), rest);
  }

  /** The delete confirmation: shown or not, and the department it is about. */
  datatype DeleteModal = DeleteModal(show: bool, department: Option<DepartmentDto>)

  const ClosedModal := DeleteModal(false, None)

  class DepartmentListScreen {
    var departments: seq<DepartmentDto>
    var searchTerm: string
    var deleteModal: DeleteModal
    var error: string
    var loading: bool

    /** `filteredDepartments`. */
    function Rows(): seq<DepartmentDto>
      reads this
    {
      FilterBy(departments, searchTerm, SearchKeys)
    }

    constructor ()
      ensures departments == [] && searchTerm == "" && deleteModal == ClosedModal && error == "" && loading
    {
      departments := [];
      searchTerm := "";
      deleteModal := ClosedModal;
      error := "";
      loading := true;
    }

    /** `loadDepartments`: clear the error, then the fetched list or the
        error. */
    method LoadDepartments(fetched: Result<seq<DepartmentDto>, RequestError>)
      modifies this
      ensures !loading && searchTerm == old(searchTerm) && deleteModal == old(deleteModal)
      ensures fetched.Ok? ==> departments == fetched.value && error == ""
      ensures fetched.Failure? ==> departments == old(departments) && error == GetErrorMessage(fetched.error)
    {
      loading := true;
      error := "";
      match fetched {
        case Ok(list) => departments := list;
        case Failure(e) => error := GetErrorMessage(e);
      }
      loading := false;
    }

    /** `handleDeleteDepartment`: `outcome` is the server's answer. The call
        is made only when the modal holds a department (reading the id of a
        null one throws). Success prunes that id and closes the modal;
        failure keeps the list and shows the error. */
    method HandleDeleteDepartment(outcome: Result<(), RequestError>) returns (called: bool)
      modifies this
      ensures called <==> old(deleteModal).department.Some?
      ensures searchTerm == old(searchTerm) && loading == old(loading)
      ensures !called ==>
        departments == old(departments) && deleteModal == old(deleteModal)
        && error == "Cannot read properties of null (reading 'departmentId')"
      ensures called && outcome.Ok? ==>
        departments == Without(old(departments), DepartmentIdOf, old(deleteModal).department.value.departmentId)
        && deleteModal == ClosedModal && error == old(error)
      ensures called && outcome.Failure? ==>
        departments == old(departments) && deleteModal == old(deleteModal) && error == GetErrorMessage(outcome.error)
    {
      if deleteModal.department.None? {
        error := GetErrorMessage(RequestError(None, "Cannot read properties of null (reading 'departmentId')"));
        return false;
      }
      called := true;
      match outcome {
        case Ok(_) =>
          departments := Without(departments, DepartmentIdOf, deleteModal.department.value.departmentId);
          deleteModal := ClosedModal;
        case Failure(e) =>
          error := GetErrorMessage(e);
      }
    }
  }
}
