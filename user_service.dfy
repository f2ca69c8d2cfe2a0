/** Logins on the server (UserServiceImpl.java): registration with unique
    usernames and emails, the employee record an EMPLOYEE login gets, lookup,
    and activation. The password encoder is the function `encode`; the
    registration day is `today`. */
module UserService {
  import opened Wrappers
  import opened Domain
  import opened Entities
  import opened Dto
  import opened Store
  import StoreLaws
  import EmployeeService

  /** The request `createUser` hands to `createEmployee` for a new EMPLOYEE
      login. */
  function EmployeeRequest(user: User, today: int): (r: EmployeeDto)
    ensures r.userId == user.userId && r.firstName == user.username && r.lastName == "User"
    ensures r.hireDate == today && r.leaveBalance == Some(20)
    ensures r.departmentId.None? && r.jobId.None?
  {
    EmployeeDto(None, user.userId, user.username, "User", None, None, None, today, None, None, None, None, Some(20))
  }

  /** Registration creates the same employee record as the automatic creation
      on lookup by user id. */
  lemma RegistrationMatchesAutoCreate(id: Id, user: User, today: int)
    ensures EmployeeService.NewEmployee(id, EmployeeRequest(user, today)) == EmployeeService.AutoEmployee(id, user, today)
  {
  }

  /** No stored employee belongs to the user id the counter hands out next. */
  lemma NextUserHasNoEmployee(s: Snapshot)
    requires Consistent(s)
    ensures !StoreLaws.UserHasEmployee(s.employees, s.nextUserId)
  {
    forall e | e in s.employees
      ensures s.employees[e].userId != s.nextUserId
    {
      assert s.employees[e].userId in s.users;
    }
  }

  class UserServiceImpl {
    const db: Database
    const employeeService: EmployeeService.EmployeeServiceImpl

    constructor (db: Database)
      ensures this.db == db && employeeService.db == db
    {
      this.db := db;
      employeeService := new EmployeeService.EmployeeServiceImpl(db);
    }

    /** `getUserById`: a plain runtime failure for an unknown id. */
    function UserById(id: Id): (r: Result<User, ServiceError>)
      reads db
      ensures id in db.users <==> r.Ok?
      ensures r.Ok? ==> r.value == db.users[id]
      ensures r.Failure? ==> r.error == Runtime("User not found with id: " + IdText(id))
    {
      if id in db.users then Ok(db.users[id]) else Failure(Runtime("User not found with id: " + IdText(id)))
    }

    /** `getUserByUsername`: a plain runtime failure for an unknown name;
        usernames being unique, the login found is the only one with it. */
    method UserByUsername(username: string) returns (r: Result<User, ServiceError>)
      requires db.Valid()
      ensures r.Ok? <==> StoreLaws.UsernameTaken(db.users, username)
      ensures r.Ok? ==> r.value.userId in db.users && db.users[r.value.userId] == r.value && r.value.username == username
      ensures r.Ok? ==> forall id :: id in db.users && db.users[id].username == username ==> id == r.value.userId
      ensures r.Failure? ==> r.error == Runtime("User not found with username: " + username)
    {
      if id :| id in db.users && db.users[id].username == username {
        r := Ok(db.users[id]);
      } else {
        r := Failure(Runtime("User not found with username: " + username));
      }
    }

    /** `createUser`: the username is checked first, then the email. The new
        login stores the encoded password and the role and is active. An
        EMPLOYEE login also gets an employee record; that nested creation is
        wrapped in a handler that ignores its failure, but on a consistent
        store it cannot fail, so the record is always there. */
    method CreateUser(username: string, email: string, password: string, role: Role,
                      encode: string -> string, today: int)
      returns (r: Result<User, ServiceError>)
      requires db.Valid() && employeeService.db == db
      modifies db
      ensures db.Valid()
      ensures StoreLaws.UsernameTaken(old(db.users), username) ==>
        r == Failure(Runtime("Username already exists")) && unchanged(db)
      ensures !StoreLaws.UsernameTaken(old(db.users), username) && StoreLaws.EmailTaken(old(db.users), email) ==>
        r == Failure(Runtime("Email already exists")) && unchanged(db)
      ensures r.Ok? <==> !StoreLaws.UsernameTaken(old(db.users), username) && !StoreLaws.EmailTaken(old(db.users), email)
      ensures r.Ok? ==> r.value == User(old(db.nextUserId), username, email, encode(password), role, true)
      ensures r.Ok? && role == ADMIN ==>
        db.Snap() == old(db.Snap()).(users := old(db.users)[r.value.userId := r.value], nextUserId := old(db.nextUserId) + 1)
      ensures r.Ok? && role == EMPLOYEE ==>
        db.Snap() == old(db.Snap()).(
          users := old(db.users)[r.value.userId := r.value], nextUserId := old(db.nextUserId) + 1,
          employees := old(db.employees)[old(db.nextEmployeeId) := EmployeeService.AutoEmployee(old(db.nextEmployeeId), r.value, today)],
          nextEmployeeId := old(db.nextEmployeeId) + 1)
    {
      if StoreLaws.UsernameTaken(db.users, username) {
        return Failure(Runtime("Username already exists"));
      }
      if StoreLaws.EmailTaken(db.users, email) {
        return Failure(Runtime("Email already exists"));
      }
      var user := User(db.nextUserId, username, email, encode(password), role, true);
      StoreLaws.InsertUser(db.Snap(), user);
      db.users := db.users[user.userId := user];
      db.nextUserId := db.nextUserId + 1;
      if role == EMPLOYEE {
        NextUserHasNoEmployee(old(db.Snap()));
        assert !StoreLaws.UserHasEmployee(db.employees, user.userId);
        RegistrationMatchesAutoCreate(db.nextEmployeeId, user, today);
        var created := employeeService.CreateEmployee(EmployeeRequest(user, today));
        if created.Failure? {
          // The handler only logs; the store is as the failed call left it.
        }
      }
      r := Ok(user);
    }

    /** `deactivateUser`: only the active flag changes. */
    method DeactivateUser(id: Id) returns (r: Result<(), ServiceError>)
      requires db.Valid()
      modifies db
      ensures db.Valid()
      ensures id !in old(db.users) ==> r == Failure(Runtime("User not found with id: " + IdText(id))) && unchanged(db)
      ensures id in old(db.users) ==>
        r.Ok? && db.Snap() == old(db.Snap()).(users := old(db.users)[id := old(db.users)[id].(isActive := false)])
    {
      r := SetActive(id, false);
    }

    /** `activateUser`: only the active flag changes. */
    method ActivateUser(id: Id) returns (r: Result<(), ServiceError>)
      requires db.Valid()
      modifies db
      ensures db.Valid()
      ensures id !in old(db.users) ==> r == Failure(Runtime("User not found with id: " + IdText(id))) && unchanged(db)
      ensures id in old(db.users) ==>
        r.Ok? && db.Snap() == old(db.Snap()).(users := old(db.users)[id := old(db.users)[id].(isActive := true)])
    {
      r := SetActive(id, true);
    }

    /** The shared body of activation and deactivation. */
    method SetActive(id: Id, active: bool) returns (r: Result<(), ServiceError>)
      requires db.Valid()
      modifies db
      ensures db.Valid()
      ensures id !in old(db.users) ==> r == Failure(Runtime("User not found with id: " + IdText(id))) && unchanged(db)
      ensures id in old(db.users) ==>
        r.Ok? && db.Snap() == old(db.Snap()).(users := old(db.users)[id := old(db.users)[id].(isActive := active)])
    {
      var user := UserById(id);
      if user.Failure? {
        return Failure(user.error);
      }
      var updated := user.value.(isActive := active);
      StoreLaws.UpdateUser(db.Snap(), updated);
      db.users := db.users[id := updated];
      r := Ok(());
    }
  }
}
