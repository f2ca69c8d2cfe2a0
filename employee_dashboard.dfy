/** The employee's dashboard (EmployeeDashboard.jsx): the four counters, the
    three most recent leaves and payrolls, and the welcome banner. The load
    awaits the employee record, then the leaves, then the payrolls; each
    answer is a parameter, and `now` is `Date.now()`. */
module EmployeeDashboard {
  import opened Wrappers
  import opened Seqs
  import opened Helpers
  import opened Dto
  import opened DashboardCommon
  import AuthContext

  datatype EmployeeStats = EmployeeStats(leaveBalance: int, pendingLeaves: nat, recentPayrolls: nat, totalLeavesTaken: nat)

  const InitialStats := EmployeeStats(0, 0, 0, 0)

  function HasStatus(status: string): LeaveRequestDto -> bool
  {
    (l: LeaveRequestDto) => l.status == Some(status)
  }

  /** `dashboardStats`: the balance (`|| 0`), the pending and the approved
      leaves, and the payrolls of the last 30 days. */
  function Stats(employee: EmployeeDto, leaves: seq<LeaveRequestDto>, payrolls: seq<PayrollDto>, now: int): EmployeeStats
  {
    EmployeeStats(employee.leaveBalance.GetOr(0),
                  Count(leaves, HasStatus("PENDING")),
                  Count(payrolls, GeneratedRecently(now)),
                  Count(leaves, HasStatus("APPROVED")))
  }

  /** A request is never both pending and approved, so the two leave
      counters together never exceed the number of requests; the payroll
      counter never exceeds the payrolls, and a null balance shows as 0. */
  lemma StatsBounds(employee: EmployeeDto, leaves: seq<LeaveRequestDto>, payrolls: seq<PayrollDto>, now: int)
    ensures var s := Stats(employee, leaves, payrolls, now);
      s.pendingLeaves + s.totalLeavesTaken <= |leaves| && s.recentPayrolls <= |payrolls|
      && (employee.leaveBalance.None? ==> s.leaveBalance == 0)
  {
    CountDisjoint(leaves, HasStatus("PENDING"), HasStatus("APPROVED"));
  }

  /** With every request pending, the pending counter is the number of
      requests. */
  lemma AllPending(employee: EmployeeDto, leaves: seq<LeaveRequestDto>, payrolls: seq<PayrollDto>, now: int)
    ensures Stats(employee, leaves, payrolls, now).pendingLeaves == |leaves| <==>
      forall i :: 0 <= i < |leaves| ==> leaves[i].status == Some("PENDING")
  {
    CountAll(leaves, HasStatus("PENDING"));
  }

  class EmployeeDashboardScreen {
    const user: AuthContext.UserInfo
    var employeeData: Option<EmployeeDto>
    var stats: EmployeeStats
    var recentLeaves: seq<LeaveRequestDto>
    var recentPayrolls: seq<PayrollDto>
    var welcome: string
    var loading: bool
    var error: string

    constructor (user: AuthContext.UserInfo)
      ensures this.user == user && employeeData.None? && stats == InitialStats
      ensures recentLeaves == [] && recentPayrolls == [] && welcome == "" && loading && error == ""
    {
      this.user := user;
      employeeData := None;
      stats := InitialStats;
      recentLeaves := [];
      recentPayrolls := [];
      welcome := "";
      loading := true;
      error := "";
    }

    /** `loadDashboardData`, run when the user has an id: each await that
        fails stops the load with its error, keeping what the earlier ones
        set. */
    method LoadDashboardData(employee: Result<EmployeeDto, RequestError>, leaves: Result<seq<LeaveRequestDto>, RequestError>,
                             payrolls: Result<seq<PayrollDto>, RequestError>, now: int)
      modifies this
      ensures welcome == old(welcome)
      ensures user.id == 0 ==>
        employeeData == old(employeeData) && stats == old(stats) && recentLeaves == old(recentLeaves)
        && recentPayrolls == old(recentPayrolls) && loading == old(loading) && error == old(error)
      ensures user.id != 0 ==> !loading
      ensures user.id != 0 && employee.Failure? ==>
        employeeData == old(employeeData) && stats == old(stats) && recentLeaves == old(recentLeaves)
        && recentPayrolls == old(recentPayrolls) && error == GetErrorMessage(employee.error)
      ensures user.id != 0 && employee.Ok? ==> employeeData == Some(employee.value)
      ensures user.id != 0 && employee.Ok? && leaves.Failure? ==>
        recentLeaves == old(recentLeaves) && recentPayrolls == old(recentPayrolls) && stats == old(stats)
        && error == GetErrorMessage(leaves.error)
      ensures user.id != 0 && employee.Ok? && leaves.Ok? ==> recentLeaves == Take(leaves.value, 3)
      ensures user.id != 0 && employee.Ok? && leaves.Ok? && payrolls.Failure? ==>
        recentPayrolls == old(recentPayrolls) && stats == old(stats) && error == GetErrorMessage(payrolls.error)
      ensures user.id != 0 && employee.Ok? && leaves.Ok? && payrolls.Ok? ==>
        recentPayrolls == Take(payrolls.value, 3) && error == old(error)
        && stats == Stats(employee.value, leaves.value, payrolls.value, now)
    {
      if user.id == 0 {
        return;
      }
      loading := true;
      match employee {
        case Failure(e) =>
          error := GetErrorMessage(e);
        case Ok(record) =>
          employeeData := Some(record);
          LoadLeavesAndPayrolls(record, leaves, payrolls, now);
      }
      loading := false;
    }

    /** The two awaits after the employee record: the leaves, then the
        payrolls, then the counters from all three. */
    method LoadLeavesAndPayrolls(record: EmployeeDto, leaves: Result<seq<LeaveRequestDto>, RequestError>,
                                 payrolls: Result<seq<PayrollDto>, RequestError>, now: int)
      modifies this
      ensures welcome == old(welcome) && employeeData == old(employeeData) && loading == old(loading)
      ensures leaves.Failure? ==>
        recentLeaves == old(recentLeaves) && recentPayrolls == old(recentPayrolls) && stats == old(stats)
        && error == GetErrorMessage(leaves.error)
      ensures leaves.Ok? ==> recentLeaves == Take(leaves.value, 3)
      ensures leaves.Ok? && payrolls.Failure? ==>
        recentPayrolls == old(recentPayrolls) && stats == old(stats) && error == GetErrorMessage(payrolls.error)
      ensures leaves.Ok? && payrolls.Ok? ==>
        recentPayrolls == Take(payrolls.value, 3) && error == old(error)
        && stats == Stats(record, leaves.value, payrolls.value, now)
    {
      match leaves {
        case Failure(e) =>
          error := GetErrorMessage(e);
        case Ok(leaveList) =>
          recentLeaves := Take(leaveList, 3);
          match payrolls {
            case Failure(e) =>
              error := GetErrorMessage(e);
            case Ok(payrollList) =>
              recentPayrolls := Take(payrollList, 3);
              stats := Stats(record, leaveList, payrollList, now);
          }
      }
    }

    /** `fetchAIWelcome`, run when the user has an id: `answer` is the
        server's text when the request succeeds. */
    method FetchWelcome(answer: Option<string>, hour: int)
      modifies this
      ensures user.id != 0 ==> welcome == WelcomeText(answer, hour)
      ensures user.id == 0 ==> welcome == old(welcome)
      ensures employeeData == old(employeeData) && stats == old(stats) && error == old(error) && loading == old(loading)
      ensures recentLeaves == old(recentLeaves) && recentPayrolls == old(recentPayrolls)
    {
      if user.id != 0 {
        welcome := WelcomeText(answer, hour);
      }
    }
  }
}
