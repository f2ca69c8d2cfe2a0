/** Job roles on the server (JobRoleServiceImpl.java): titles are unique
    across create and rename, and a role with assigned employees cannot
    be deleted. */
module JobRoleService {
  import opened Wrappers
  import opened Entities
  import opened Dto
  import opened Store
  import StoreLaws

  function DuplicateTitle(title: string): ServiceError
  {
    Runtime("Job role with title '" + title + "' already exists")
  }

  /** `convertToDto`. */
  function ToDto(j: JobRole): (r: JobRoleDto)
    ensures r.jobId == Some(j.jobId) && r.jobTitle == j.jobTitle
    ensures r.baseSalary == j.baseSalary && r.description == j.description
  {
    JobRoleDto(Some(j.jobId), j.jobTitle, j.baseSalary, j.description)
  }

  class JobRoleServiceImpl {
    const db: Database

    constructor (db: Database)
      ensures this.db == db
    {
      this.db := db;
    }

    /** `getAllJobRoles`. */
    function AllJobRoles(): (r: set<JobRole>)
      reads db
      ensures forall j :: j in r <==> j in db.jobRoles.Values
    {
      db.jobRoles.Values
    }

    /** `getJobRoleById`. */
    function JobRoleById(id: Id): (r: Result<JobRole, ServiceError>)
      reads db
      ensures id in db.jobRoles <==> r.Ok?
      ensures r.Ok? ==> r.value == db.jobRoles[id]
      ensures r.Failure? ==> r.error == NotFound("Job role", id)
    {
      if id in db.jobRoles then Ok(db.jobRoles[id]) else Failure(NotFound("Job role", id))
    }

    /** `createJobRole`: refused when the title is taken; otherwise stores
        exactly the given title, salary and description under a fresh id,
        after which the title is taken. */
    method CreateJobRole(dto: JobRoleDto) returns (r: Result<JobRole, ServiceError>)
      requires db.Valid()
      modifies db
      ensures db.Valid() && UniqueJobTitles(db.jobRoles)
      ensures StoreLaws.JobTitleTaken(old(db.jobRoles), dto.jobTitle) ==>
        r == Failure(DuplicateTitle(dto.jobTitle)) && unchanged(db)
      ensures !StoreLaws.JobTitleTaken(old(db.jobRoles), dto.jobTitle) ==>
        r == Ok(JobRole(old(db.nextJobId), dto.jobTitle, dto.baseSalary, dto.description))
        && db.Snap() == old(db.Snap()).(jobRoles := old(db.jobRoles)[r.value.jobId := r.value],
                                        nextJobId := old(db.nextJobId) + 1)
      ensures r.Ok? ==> StoreLaws.JobTitleTaken(db.jobRoles, dto.jobTitle)
    {
      if StoreLaws.JobTitleTaken(db.jobRoles, dto.jobTitle) {
        return Failure(DuplicateTitle(dto.jobTitle));
      }
      var jobRole := JobRole(db.nextJobId, dto.jobTitle, dto.baseSalary, dto.description);
      StoreLaws.InsertJobRole(db.Snap(), jobRole);
      db.jobRoles := db.jobRoles[jobRole.jobId := jobRole];
      db.nextJobId := db.nextJobId + 1;
      assert db.jobRoles[jobRole.jobId] == jobRole;
      r := Ok(jobRole);
    }

    /** `updateJobRole`: fails for an unknown id, then for a new title that
        another role holds; keeping the same title is allowed. Title, salary
        and description are all overwritten. */
    method UpdateJobRole(id: Id, dto: JobRoleDto) returns (r: Result<JobRole, ServiceError>)
      requires db.Valid()
      modifies db
      ensures db.Valid() && UniqueJobTitles(db.jobRoles)
      ensures r.Failure? ==> unchanged(db)
      ensures id !in old(db.jobRoles) ==> r == Failure(NotFound("Job role", id))
      ensures id in old(db.jobRoles) && dto.jobTitle != old(db.jobRoles)[id].jobTitle
              && StoreLaws.JobTitleTaken(old(db.jobRoles), dto.jobTitle) ==>
        r == Failure(DuplicateTitle(dto.jobTitle))
      ensures r.Ok? <==> id in old(db.jobRoles)
                         && (dto.jobTitle == old(db.jobRoles)[id].jobTitle
                             || !StoreLaws.JobTitleTaken(old(db.jobRoles), dto.jobTitle))
      ensures r.Ok? ==>
        r.value == JobRole(id, dto.jobTitle, dto.baseSalary, dto.description)
        && db.Snap() == old(db.Snap()).(jobRoles := old(db.jobRoles)[id := r.value])
    {
      if id !in db.jobRoles {
        return Failure(NotFound("Job role", id));
      }
      var jobRole := db.jobRoles[id];
      if jobRole.jobTitle != dto.jobTitle && StoreLaws.JobTitleTaken(db.jobRoles, dto.jobTitle) {
        return Failure(DuplicateTitle(dto.jobTitle));
      }
      var updated := jobRole.(jobTitle := dto.jobTitle, baseSalary := dto.baseSalary, description := dto.description);
      StoreLaws.UpdateJobRole(db.Snap(), updated);
      db.jobRoles := db.jobRoles[id := updated];
      r := Ok(updated);
    }

    /** `deleteJobRole`: fails for an unknown id or while employees are
        assigned; otherwise removes that role and nothing else. */
    method DeleteJobRole(id: Id) returns (r: Result<(), ServiceError>)
      requires db.Valid()
      modifies db
      ensures db.Valid()
      ensures r.Failure? ==> unchanged(db)
      ensures id !in old(db.jobRoles) ==> r == Failure(NotFound("Job role", id))
      ensures id in old(db.jobRoles) && HasJobRoleMembers(old(db.employees), id) ==>
        r == Failure(Runtime("Cannot delete job role with assigned employees"))
      ensures r.Ok? <==> id in old(db.jobRoles) && !HasJobRoleMembers(old(db.employees), id)
      ensures r.Ok? ==> db.Snap() == old(db.Snap()).(jobRoles := old(db.jobRoles) - {id})
    {
      if id !in db.jobRoles {
        return Failure(NotFound("Job role", id));
      }
      if HasJobRoleMembers(db.employees, id) {
        return Failure(Runtime("Cannot delete job role with assigned employees"));
      }
      StoreLaws.RemoveJobRole(db.Snap(), id);
      db.jobRoles := db.jobRoles - {id};
      r := Ok(());
    }
  }
}
