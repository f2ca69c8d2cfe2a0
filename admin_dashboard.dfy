/** The admin's dashboard (AdminDashboard.jsx): four counters over all
    employees, the pending requests and all payrolls, which arrive together,
    and the welcome banner. `now` is `Date.now()`. */
module AdminDashboard {
  import opened Wrappers
  import opened Seqs
  import opened Helpers
  import opened Dto
  import opened DashboardCommon

  datatype AdminStats = AdminStats(totalEmployees: nat, pendingLeaves: nat, recentPayrolls: nat, activeEmployees: nat)

  const InitialStats := AdminStats(0, 0, 0, 0)

  /** `e.leaveBalance > 0`; a null balance compares false. */
  predicate HasBalance(e: EmployeeDto)
  {
    e.leaveBalance.Some? && e.leaveBalance.value > 0
  }

  /** `dashboardData`. */
  function Stats(employees: seq<EmployeeDto>, pending: seq<LeaveRequestDto>, payrolls: seq<PayrollDto>, now: int): AdminStats
  {
    AdminStats(|employees|, |pending|, Count(payrolls, GeneratedRecently(now)), Count(employees, HasBalance))
  }

  /** The active count never exceeds the head count, and equals it exactly
      when every employee has a positive balance; the recent payrolls never
      exceed all payrolls. */
  lemma StatsMeaning(employees: seq<EmployeeDto>, pending: seq<LeaveRequestDto>, payrolls: seq<PayrollDto>, now: int)
    ensures var s := Stats(employees, pending, payrolls, now);
      s.activeEmployees <= s.totalEmployees && s.recentPayrolls <= |payrolls|
      && (s.activeEmployees == s.totalEmployees <==> forall i :: 0 <= i < |employees| ==> HasBalance(employees[i]))
  {
    CountAll(employees, HasBalance);
  }

  class AdminDashboardScreen {
    var stats: AdminStats
    var welcome: string
    var loading: bool
    var error: string

    constructor ()
      ensures stats == InitialStats && welcome == "" && loading && error == ""
    {
      stats := InitialStats;
      welcome := "";
      loading := true;
      error := "";
    }

    /** `loadDashboardData`: the three lists arrive together; if any request
        fails the counters stay and the error is shown (the first failing
        one's, in request order). */
    method LoadDashboardData(employees: Result<seq<EmployeeDto>, RequestError>, pending: Result<seq<LeaveRequestDto>, RequestError>,
                             payrolls: Result<seq<PayrollDto>, RequestError>, now: int)
      modifies this
      ensures !loading && welcome == old(welcome)
      ensures employees.Ok? && pending.Ok? && payrolls.Ok? ==>
        stats == Stats(employees.value, pending.value, payrolls.value, now) && error == old(error)
      ensures employees.Failure? ==> stats == old(stats) && error == GetErrorMessage(employees.error)
      ensures employees.Ok? && pending.Failure? ==> stats == old(stats) && error == GetErrorMessage(pending.error)
      ensures employees.Ok? && pending.Ok? && payrolls.Failure? ==>
        stats == old(stats) && error == GetErrorMessage(payrolls.error)
    {
      loading := true;
      if employees.Failure? {
        error := GetErrorMessage(employees.error);
      } else if pending.Failure? {
        error := GetErrorMessage(pending.error);
      } else if payrolls.Failure? {
        error := GetErrorMessage(payrolls.error);
      } else {
        stats := Stats(employees.value, pending.value, payrolls.value, now);
      }
      loading := false;
    }

    /** `fetchAIWelcome`: `answer` is the server's text when the request
        succeeds. */
    method FetchWelcome(answer: Option<string>, hour: int)
      modifies this
      ensures welcome == WelcomeText(answer, hour)
      ensures stats == old(stats) && error == old(error) && loading == old(loading)
    {
      welcome := WelcomeText(answer, hour);
    }
  }
}
