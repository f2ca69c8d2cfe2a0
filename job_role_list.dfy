/** The job role table (JobRoleList.jsx): the search over title and
    description, and the delete that prunes the loaded list. The filtered
    list is the effect at lines 22-25, a function of the screen's state
    here. */
module JobRoleList {
  import opened Wrappers
  import opened Seqs
  import opened Helpers
  import opened Entities
  import opened Dto

  function TextCell(s: Option<string>): Cell
  {
    if s.Some? then Str(s.value) else Absent
  }

  /** The searched keys: jobTitle, description. */
  const SearchKeys: seq<JobRoleDto -> Cell> := [
    (d: JobRoleDto) => Str(d.jobTitle),
    (d: JobRoleDto) => TextCell(d.description)]

  function JobIdOf(d: JobRoleDto): Option<Id>
  {
    d.jobId
  }

  /** The displayed rows: an empty search shows every job role; otherwise
      the matching ones, in order. After a delete the removed role is
      not among them. */
  lemma DisplayedRows(jobRoles: seq<JobRoleDto>, searchTerm: string, deleted: Option<Id>)
    ensures searchTerm == "" ==> FilterBy(jobRoles, searchTerm, SearchKeys) == jobRoles
    ensures forall d :: d in FilterBy(jobRoles, searchTerm, SearchKeys) <==>
      d in jobRoles && (searchTerm != "" ==> Matches(d, searchTerm, SearchKeys))
    ensures forall d :: d in FilterBy(Without(jobRoles, JobIdOf, deleted), searchTerm, SearchKeys) ==>
      d.jobId != deleted
  {
    SubsequenceMembers(FilterBy(jobRoles, searchTerm, SearchKeys), jobRoles);
    var rest := Without(jobRoles, JobIdOf, deleted);
    WithoutRemovesExactly(jobRoles, JobIdOf, deleted);
    SubsequenceMembers(FilterBy(rest, searchTerm, SearchKeys), rest);
  }

  /** The delete confirmation: shown or not, and the role it is about. */
  datatype DeleteModal = DeleteModal(show: bool, jobRole: Option<JobRoleDto>)

  const ClosedModal := DeleteModal(false, None)

  class JobRoleListScreen {
    var jobRoles: seq<JobRoleDto>
    var searchTerm: string
    var deleteModal: DeleteModal
    var error: string
    var loading: bool

    /** `filteredJobRoles`. */
    function Rows(): seq<JobRoleDto>
      reads this
    {
      FilterBy(jobRoles, searchTerm, SearchKeys)
    }

    constructor ()
      ensures jobRoles == [] && searchTerm == "" && deleteModal == ClosedModal && error == "" && loading
    {
      jobRoles := [];
      searchTerm := "";
      deleteModal := ClosedModal;
      error := "";
      loading := true;
    }

    /** `loadJobRoles`: clear the error, then the fetched list or the
        error. */
    method LoadJobRoles(fetched: Result<seq<JobRoleDto>, RequestError>)
      modifies this
      ensures !loading && searchTerm == old(searchTerm) && deleteModal == old(deleteModal)
      ensures fetched.Ok? ==> jobRoles == fetched.value && error == ""
      ensures fetched.Failure? ==> jobRoles == old(jobRoles) && error == GetErrorMessage(fetched.error)
    {
      loading := true;
      error := "";
      match fetched {
        case Ok(list) => jobRoles := list;
        case Failure(e) => error := GetErrorMessage(e);
      }
      loading := false;
    }

    /** `handleDeleteJobRole`: `outcome` is the server's answer. The call
        is made only when the modal holds a job role (reading the id of a
        null one throws). Success prunes that id and closes the modal;
        failure keeps the list and shows the error. */
    method HandleDeleteJobRole(outcome: Result<(), RequestError>) returns (called: bool)
      modifies this
      ensures called <==> old(deleteModal).jobRole.Some?
      ensures searchTerm == old(searchTerm) && loading == old(loading)
      ensures !called ==>
        jobRoles == old(jobRoles) && deleteModal == old(deleteModal)
        && error == "Cannot read properties of null (reading 'jobId')"
      ensures called && outcome.Ok? ==>
        jobRoles == Without(old(jobRoles), JobIdOf, old(deleteModal).jobRole.value.jobId)
        && deleteModal == ClosedModal && error == old(error)
      ensures called && outcome.Failure? ==>
        jobRoles == old(jobRoles) && deleteModal == old(deleteModal) && error == GetErrorMessage(outcome.error)
    {
      if deleteModal.jobRole.None? {
        error := GetErrorMessage(RequestError(None, "Cannot read properties of null (reading 'jobId')"));
        return false;
      }
      called := true;
      match outcome {
        case Ok(_) =>
          jobRoles := Without(jobRoles, JobIdOf, deleteModal.jobRole.value.jobId);
          deleteModal := ClosedModal;
        case Failure(e) =>
          error := GetErrorMessage(e);
      }
    }
  }
}
