/** Departments on the server (DepartmentServiceImpl.java): names are unique
    across create and rename, and a department with assigned employees cannot
    be deleted. */
module DepartmentService {
  import opened Wrappers
  import opened Entities
  import opened Dto
  import opened Store
  import StoreLaws

  function DuplicateName(name: string): ServiceError
  {
    Runtime("Department with name '" + name + "' already exists")
  }

  /** `convertToDto`. */
  function ToDto(d: Department): (r: DepartmentDto)
    ensures r.departmentId == Some(d.departmentId) && r.departmentName == d.departmentName
    ensures r.description == d.description
  {
    DepartmentDto(Some(d.departmentId), d.departmentName, d.description)
  }

  class DepartmentServiceImpl {
    const db: Database

    constructor (db: Database)
      ensures this.db == db
    {
      this.db := db;
    }

    /** `getAllDepartments`. */
    function AllDepartments(): (r: set<Department>)
      reads db
      ensures forall d :: d in r <==> d in db.departments.Values
    {
      db.departments.Values
    }

    /** `getDepartmentById`. */
    function DepartmentById(id: Id): (r: Result<Department, ServiceError>)
      reads db
      ensures id in db.departments <==> r.Ok?
      ensures r.Ok? ==> r.value == db.departments[id]
      ensures r.Failure? ==> r.error == NotFound("Department", id)
    {
      if id in db.departments then Ok(db.departments[id]) else Failure(NotFound("Department", id))
    }

    /** `createDepartment`: refused when the name is taken; otherwise stores
        exactly the given name and description under a fresh id, after which
        the name is taken. */
    method CreateDepartment(dto: DepartmentDto) returns (r: Result<Department, ServiceError>)
      requires db.Valid()
      modifies db
      ensures db.Valid() && UniqueDepartmentNames(db.departments)
      ensures StoreLaws.DepartmentNameTaken(old(db.departments), dto.departmentName) ==>
        r == Failure(DuplicateName(dto.departmentName)) && unchanged(db)
      ensures !StoreLaws.DepartmentNameTaken(old(db.departments), dto.departmentName) ==>
        r == Ok(Department(old(db.nextDepartmentId), dto.departmentName, dto.description))
        && db.Snap() == old(db.Snap()).(departments := old(db.departments)[r.value.departmentId := r.value],
                                        nextDepartmentId := old(db.nextDepartmentId) + 1)
      ensures r.Ok? ==> StoreLaws.DepartmentNameTaken(db.departments, dto.departmentName)
    {
      if StoreLaws.DepartmentNameTaken(db.departments, dto.departmentName) {
        return Failure(DuplicateName(dto.departmentName));
      }
      var department := Department(db.nextDepartmentId, dto.departmentName, dto.description);
      StoreLaws.InsertDepartment(db.Snap(), department);
      db.departments := db.departments[department.departmentId := department];
      db.nextDepartmentId := db.nextDepartmentId + 1;
      assert db.departments[department.departmentId] == department;
      r := Ok(department);
    }

    /** `updateDepartment`: fails for an unknown id, then for a new name that
        another department holds; keeping the same name is allowed. */
    method UpdateDepartment(id: Id, dto: DepartmentDto) returns (r: Result<Department, ServiceError>)
      requires db.Valid()
      modifies db
      ensures db.Valid() && UniqueDepartmentNames(db.departments)
      ensures r.Failure? ==> unchanged(db)
      ensures id !in old(db.departments) ==> r == Failure(NotFound("Department", id))
      ensures id in old(db.departments) && dto.departmentName != old(db.departments)[id].departmentName
              && StoreLaws.DepartmentNameTaken(old(db.departments), dto.departmentName) ==>
        r == Failure(DuplicateName(dto.departmentName))
      ensures r.Ok? <==> id in old(db.departments)
                         && (dto.departmentName == old(db.departments)[id].departmentName
                             || !StoreLaws.DepartmentNameTaken(old(db.departments), dto.departmentName))
      ensures r.Ok? ==>
        r.value == Department(id, dto.departmentName, dto.description)
        && db.Snap() == old(db.Snap()).(departments := old(db.departments)[id := r.value])
    {
      if id !in db.departments {
        return Failure(NotFound("Department", id));
      }
      var department := db.departments[id];
      if department.departmentName != dto.departmentName && StoreLaws.DepartmentNameTaken(db.departments, dto.departmentName) {
        return Failure(DuplicateName(dto.departmentName));
      }
      var updated := department.(departmentName := dto.departmentName, description := dto.description);
      StoreLaws.UpdateDepartment(db.Snap(), updated);
      db.departments := db.departments[id := updated];
      r := Ok(updated);
    }

    /** `deleteDepartment`: fails for an unknown id or while employees are
        assigned; otherwise removes that department and nothing else. */
    method DeleteDepartment(id: Id) returns (r: Result<(), ServiceError>)
      requires db.Valid()
      modifies db
      ensures db.Valid()
      ensures r.Failure? ==> unchanged(db)
      ensures id !in old(db.departments) ==> r == Failure(NotFound("Department", id))
      ensures id in old(db.departments) && HasDepartmentMembers(old(db.employees), id) ==>
        r == Failure(Runtime("Cannot delete department with assigned employees"))
      ensures r.Ok? <==> id in old(db.departments) && !HasDepartmentMembers(old(db.employees), id)
      ensures r.Ok? ==> db.Snap() == old(db.Snap()).(departments := old(db.departments) - {id})
    {
      if id !in db.departments {
        return Failure(NotFound("Department", id));
      }
      if HasDepartmentMembers(db.employees, id) {
        return Failure(Runtime("Cannot delete department with assigned employees"));
      }
      StoreLaws.RemoveDepartment(db.Snap(), id);
      db.departments := db.departments - {id};
      r := Ok(());
    }
  }
}
