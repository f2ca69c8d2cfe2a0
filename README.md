# Payroll management system — a verified Dafny model

The system is a payroll and HR application. A Spring service layer keeps
users, employees, departments, job roles, leave requests and payrolls. A React
client signs users in and lets them work on that data. Admins manage
employees, departments, job roles and payrolls and approve or reject leave.
Employees file leave and see their own records and payslips.

This project models the business rules of both halves and proves what they
promise.

- **Server store and services.** `Store.Database` holds one map per
  repository, with the next identity of each table. `Store.Consistent`
  collects the invariants the services keep:
  - keys match record ids;
  - usernames, emails, department names and job titles are unique;
  - each user has at most one employee;
  - there is at most one payroll per employee and period;
  - every foreign key points at a stored row.

  `StoreLaws` proves that each kind of write keeps these invariants, under
  the guard the service checks first. Each `*ServiceImpl` is a class over
  the store, and its methods return a `Result`. A failure leaves the store
  unchanged, as the transactional service methods do. A success states the
  whole new store.
- **Server messages.** `SmartMessage` builds the leave "AI insight" text.
  `WelcomeAI` builds the dashboard welcome. `Calendar` gives the month of a
  day number. The random draws are index parameters.
- **Ownership checks.** `SecurityService` models the checks behind the
  access rules.
- **Client helpers.** `Helpers` covers the search filter, the copy-then-sort,
  the leave-day count, month names, status badges, the e-mail and phone
  validators and the error-message chain. `Text` covers the JavaScript string
  operations they rely on.
- **Client session.** `AuthContext` models the session reducer and the
  provider that keeps the stored token and user.
- **Client screens.** Each screen with logic is a class over its React state:
  - the sign-in and sign-up screens;
  - the five forms, sharing `FormScreen`;
  - the four list screens and the approval queue;
  - the two dashboards and the sidebar.

  A validator is a function returning the first failing message. A lemma
  shows it accepts exactly the forms that meet a stated predicate. Server
  answers are parameters of the handlers. The clock and the hour are
  parameters too.

Dates are day numbers (days since 1970-01-01) and time stamps are integers.
Amounts are exact reals, as `BigDecimal` is exact. A form input is `Blank`
or `Filled(value)`. JavaScript `null` and `undefined` are `None`.

## Model

| member | source | states |
|---|---|---|
| Store.Database.FindEmployeeByUserId | PayrollManagementSystem/src/main/java/com/payroll/service/impl/EmployeeServiceImpl.java:54 | finds the employee linked to a login when one exists, and reports none exactly when no employee has that user id |
| StoreLaws.InsertUser | PayrollManagementSystem/src/main/java/com/payroll/service/impl/UserServiceImpl.java:29-48 | a new login under the next key with an unused username and email keeps the store consistent, so usernames and emails stay unique |
| StoreLaws.InsertEmployee | PayrollManagementSystem/src/main/java/com/payroll/service/impl/EmployeeServiceImpl.java:99-111 | a new employee for a user without one, with existing link targets, keeps at most one employee per user |
| StoreLaws.InsertDepartment | PayrollManagementSystem/src/main/java/com/payroll/service/impl/DepartmentServiceImpl.java:40-48 | a department with an unused name keeps department names unique |
| StoreLaws.UpdateDepartment | PayrollManagementSystem/src/main/java/com/payroll/service/impl/DepartmentServiceImpl.java:58-66 | a rename to its own or an unused name keeps department names unique |
| StoreLaws.RemoveDepartment | PayrollManagementSystem/src/main/java/com/payroll/service/impl/DepartmentServiceImpl.java:75-79 | removing a department no employee is assigned to leaves no dangling link |
| StoreLaws.InsertJobRole | PayrollManagementSystem/src/main/java/com/payroll/service/impl/JobRoleServiceImpl.java:40-49 | a role with an unused title keeps job titles unique |
| StoreLaws.UpdateJobRole | PayrollManagementSystem/src/main/java/com/payroll/service/impl/JobRoleServiceImpl.java:59-68 | a retitle to its own or an unused title keeps job titles unique |
| StoreLaws.RemoveJobRole | PayrollManagementSystem/src/main/java/com/payroll/service/impl/JobRoleServiceImpl.java:77-81 | removing a role no employee holds leaves no dangling link |
| StoreLaws.InsertPayroll | PayrollManagementSystem/src/main/java/com/payroll/service/impl/PayrollServiceImpl.java:67-80 | a payroll for an existing employee and a free period keeps one payroll per employee and period |
| StoreLaws.RemoveEmployee | PayrollManagementSystem/src/main/java/com/payroll/service/impl/EmployeeServiceImpl.java:153-157 | removing an employee no leave request or payroll refers to keeps the store consistent |
| StoreLaws.UpdateUser | PayrollManagementSystem/src/main/java/com/payroll/service/impl/UserServiceImpl.java:85-96 | changing a login's active flag, with username and email kept, keeps the store consistent |
| StoreLaws.UpdateEmployee | PayrollManagementSystem/src/main/java/com/payroll/service/impl/EmployeeServiceImpl.java:117-149 | rewriting an employee in place, for the same user and with existing link targets, keeps the store consistent |
| StoreLaws.InsertLeave | PayrollManagementSystem/src/main/java/com/payroll/service/impl/LeaveServiceImpl.java:66-84 | a new leave request of an existing employee keeps every reference valid |
| StoreLaws.UpdateLeave | PayrollManagementSystem/src/main/java/com/payroll/service/impl/LeaveServiceImpl.java:88-116 | rewriting a leave request whose requester and processor exist keeps the store consistent |
| StoreLaws.RemoveLeave | PayrollManagementSystem/src/main/java/com/payroll/service/impl/LeaveServiceImpl.java:119-123 | removing a leave request always keeps the store consistent |
| StoreLaws.UpdatePayroll | PayrollManagementSystem/src/main/java/com/payroll/service/impl/PayrollServiceImpl.java:86-95 | rewriting a payroll for the same employee and period keeps one payroll per employee and period |
| StoreLaws.RemovePayroll | PayrollManagementSystem/src/main/java/com/payroll/service/impl/PayrollServiceImpl.java:98-102 | removing a payroll always keeps the store consistent |
| Domain.ParseLeaveType | PayrollManagementSystem/src/main/java/com/payroll/service/impl/LeaveServiceImpl.java:79 | `LeaveType.valueOf` succeeds exactly on the names SICK, CASUAL, PAID and UNPAID and yields the type of that name |
| Domain.ParseLeaveStatus | PayrollManagementSystem/src/main/java/com/payroll/service/impl/LeaveServiceImpl.java:95 | `LeaveStatus.valueOf` succeeds exactly on PENDING, APPROVED and REJECTED and yields the status of that name |
| LeaveService.ToInt32 | PayrollManagementSystem/src/main/java/com/payroll/service/impl/LeaveServiceImpl.java:110 | Java narrowing to `int`: the result fits in 32 bits, equals its argument when that fits, and differs from it by a multiple of 2^32 |
| LeaveService.ApprovalBalanceFacts | PayrollManagementSystem/src/main/java/com/payroll/service/impl/LeaveServiceImpl.java:101-111 | the new balance is always an `int`; for an `int` balance, approving a span of at least one day that passes the check lowers the balance by exactly the span and never below zero; where the span and the difference fit in an `int`, the balance drops exactly when the start is not after the end, and a span ending two or more days before its start raises it |
| LeaveService.ApprovalCanWrapBalance | PayrollManagementSystem/src/main/java/com/payroll/service/impl/LeaveServiceImpl.java:106-110 | the largest `int` balance with a span ending two days before it starts passes the check and wraps to the smallest `int` |
| LeaveService.ToDto | PayrollManagementSystem/src/main/java/com/payroll/service/impl/LeaveServiceImpl.java:125-149 | the transfer form keeps the ids and carries the enum names of status and type |
| LeaveService.LeaveServiceImpl.AllLeaveRequests | PayrollManagementSystem/src/main/java/com/payroll/service/impl/LeaveServiceImpl.java:34-38 | exactly the stored leave requests |
| LeaveService.LeaveServiceImpl.PendingLeaveRequests | PayrollManagementSystem/src/main/java/com/payroll/service/impl/LeaveServiceImpl.java:51-55 | exactly the stored requests whose status is PENDING |
| LeaveService.LeaveServiceImpl.LeaveRequestsByEmployee | PayrollManagementSystem/src/main/java/com/payroll/service/impl/LeaveServiceImpl.java:41-48 | not-found for an unknown employee, otherwise exactly that employee's requests |
| LeaveService.LeaveServiceImpl.LeaveRequestById | PayrollManagementSystem/src/main/java/com/payroll/service/impl/LeaveServiceImpl.java:58-62 | the stored request, or not-found exactly when the id is unknown |
| LeaveService.LeaveServiceImpl.CreateLeaveRequest | PayrollManagementSystem/src/main/java/com/payroll/service/impl/LeaveServiceImpl.java:66-84 | not-found for an unknown employee, a failure when the balance is <= 0 (the span is not compared), an enum failure for an unknown type; otherwise a PENDING request with the given dates, type and reason is added and nothing else changes; any failure leaves the store unchanged |
| LeaveService.LeaveServiceImpl.UpdateLeaveRequestStatus | PayrollManagementSystem/src/main/java/com/payroll/service/impl/LeaveServiceImpl.java:88-116 | fails, in order, for an unknown request, an unknown processor, an unknown status name, and an approval whose span exceeds the balance, leaving the store unchanged; otherwise records status, processor and time, and an approval sets the requester's balance to `balance - (int) ((end - start) + 1)` in 32-bit `int` arithmetic, whatever the previous status (so a second approval deducts again); other statuses change no balance |
| LeaveService.LeaveServiceImpl.SaveDecision | PayrollManagementSystem/src/main/java/com/payroll/service/impl/LeaveServiceImpl.java:109-114 | an accepted decision writes the charged requester (when approved) and the updated request and nothing else, and the store stays consistent |
| LeaveService.LeaveServiceImpl.DeleteLeaveRequest | PayrollManagementSystem/src/main/java/com/payroll/service/impl/LeaveServiceImpl.java:119-123 | not-found for an unknown id; otherwise removes that request only |
| PayrollService.CalculateNetSalary | PayrollManagementSystem/src/main/java/com/payroll/service/impl/PayrollServiceImpl.java:120-126 | the net salary of a request is base + allowances - deductions with nulls read as zero |
| PayrollService.NetSalaryOfAmounts | PayrollManagementSystem/src/main/java/com/payroll/service/impl/PayrollServiceImpl.java:120-126 | the net salary moves one for one with base and deductions, ignores a missing deduction and is zero with no amounts |
| PayrollService.ToDto | PayrollManagementSystem/src/main/java/com/payroll/service/impl/PayrollServiceImpl.java:104-118 | the transfer form keeps ids, period, net salary and the status name |
| PayrollService.PayrollServiceImpl.AllPayrolls | PayrollManagementSystem/src/main/java/com/payroll/service/impl/PayrollServiceImpl.java:30-34 | exactly the stored payrolls |
| PayrollService.PayrollServiceImpl.PayrollsByEmployee | PayrollManagementSystem/src/main/java/com/payroll/service/impl/PayrollServiceImpl.java:37-44 | not-found for an unknown employee, otherwise exactly that employee's payrolls |
| PayrollService.PayrollServiceImpl.PayrollsByMonthAndYear | PayrollManagementSystem/src/main/java/com/payroll/service/impl/PayrollServiceImpl.java:47-51 | exactly the payrolls with that month and year |
| PayrollService.PayrollServiceImpl.PeriodQueryOnePerEmployee | PayrollManagementSystem/src/main/java/com/payroll/service/impl/PayrollServiceImpl.java:67-69 | in a consistent store the period query holds at most one payroll per employee |
| PayrollService.PayrollServiceImpl.PayrollById | PayrollManagementSystem/src/main/java/com/payroll/service/impl/PayrollServiceImpl.java:54-58 | the stored payroll, or not-found exactly when the id is unknown |
| PayrollService.PayrollServiceImpl.FindByEmployeeAndPeriod | PayrollManagementSystem/src/main/java/com/payroll/service/impl/PayrollServiceImpl.java:67 | a payroll of that employee and period when one exists, none exactly when the period is free |
| PayrollService.PayrollServiceImpl.CreatePayroll | PayrollManagementSystem/src/main/java/com/payroll/service/impl/PayrollServiceImpl.java:62-82 | not-found for an unknown employee, a failure when the period is taken, success exactly otherwise: a PENDING payroll with the request's period and amounts and the computed net salary is added and nothing else changes |
| PayrollService.PayrollServiceImpl.ProcessPayroll | PayrollManagementSystem/src/main/java/com/payroll/service/impl/PayrollServiceImpl.java:86-95 | not-found for an unknown id; otherwise PROCESSED with a processed date whatever the previous status, nothing else changed |
| PayrollService.PayrollServiceImpl.DeletePayroll | PayrollManagementSystem/src/main/java/com/payroll/service/impl/PayrollServiceImpl.java:98-102 | not-found for an unknown id; otherwise removes that payroll only |
| EmployeeService.AutoEmployee | PayrollManagementSystem/src/main/java/com/payroll/service/impl/EmployeeServiceImpl.java:64-72 | the record created for a user without one: first name the username, last name "User", balance 20, no links |
| EmployeeService.NewEmployee | PayrollManagementSystem/src/main/java/com/payroll/service/impl/EmployeeServiceImpl.java:99-109 | the created record carries the request's user, hire date and links, the given balance, and 20 when none is given |
| EmployeeService.UpdatedEmployee | PayrollManagementSystem/src/main/java/com/payroll/service/impl/EmployeeServiceImpl.java:121-145 | an update replaces the links (null clears them), names, birth date, phone and address, keeps the balance when none is given, and never changes the user or the hire date |
| EmployeeService.LinkError | PayrollManagementSystem/src/main/java/com/payroll/service/impl/EmployeeServiceImpl.java:87-97 | no error exactly when every given link target exists; an unknown department is reported before an unknown job role |
| EmployeeService.UpdateRoundTrip | PayrollManagementSystem/src/main/java/com/payroll/service/impl/EmployeeServiceImpl.java:117-149 | reading back an update gives the request back, with the id, user, hire date and resulting balance filled in and the link names recomputed |
| EmployeeService.ToDto | PayrollManagementSystem/src/main/java/com/payroll/service/impl/EmployeeServiceImpl.java:159-182 | the transfer form carries the department name and job title exactly when the links are set |
| EmployeeService.EmployeeServiceImpl.AllEmployees | PayrollManagementSystem/src/main/java/com/payroll/service/impl/EmployeeServiceImpl.java:38-42 | exactly the stored employees |
| EmployeeService.EmployeeServiceImpl.EmployeeById | PayrollManagementSystem/src/main/java/com/payroll/service/impl/EmployeeServiceImpl.java:45-49 | the stored employee, or not-found exactly when the id is unknown |
| EmployeeService.EmployeeServiceImpl.EmployeeByUserId | PayrollManagementSystem/src/main/java/com/payroll/service/impl/EmployeeServiceImpl.java:52-74 | an existing employee is returned with nothing written; otherwise a known user gets a new employee and an unknown one not-found; afterwards the user has exactly one employee |
| EmployeeService.EmployeeServiceImpl.CreateEmployee | PayrollManagementSystem/src/main/java/com/payroll/service/impl/EmployeeServiceImpl.java:78-113 | fails, in order, for an unknown user, a user who already has an employee, and unknown link targets, with the store unchanged; otherwise adds the new record only |
| EmployeeService.EmployeeServiceImpl.UpdateEmployee | PayrollManagementSystem/src/main/java/com/payroll/service/impl/EmployeeServiceImpl.java:117-149 | not-found for an unknown id, then link failures, store unchanged on failure; otherwise rewrites that employee only |
| EmployeeService.EmployeeServiceImpl.DeleteEmployee | PayrollManagementSystem/src/main/java/com/payroll/service/impl/EmployeeServiceImpl.java:153-157 | not-found for an unknown id; refused while a leave request or payroll refers to the employee; otherwise removes that employee only |
| DepartmentService.ToDto | PayrollManagementSystem/src/main/java/com/payroll/service/impl/DepartmentServiceImpl.java:82-88 | the transfer form keeps id, name and description |
| DepartmentService.DepartmentServiceImpl.AllDepartments | PayrollManagementSystem/src/main/java/com/payroll/service/impl/DepartmentServiceImpl.java:24-28 | exactly the stored departments |
| DepartmentService.DepartmentServiceImpl.DepartmentById | PayrollManagementSystem/src/main/java/com/payroll/service/impl/DepartmentServiceImpl.java:31-35 | the stored department, or not-found exactly when the id is unknown |
| DepartmentService.DepartmentServiceImpl.CreateDepartment | PayrollManagementSystem/src/main/java/com/payroll/service/impl/DepartmentServiceImpl.java:39-50 | refused with the store unchanged when the name is taken; otherwise stores exactly the given name and description; names stay unique |
| DepartmentService.DepartmentServiceImpl.UpdateDepartment | PayrollManagementSystem/src/main/java/com/payroll/service/impl/DepartmentServiceImpl.java:54-68 | not-found for an unknown id; refused when the new name belongs to another department; keeping the same name succeeds; names stay unique |
| DepartmentService.DepartmentServiceImpl.DeleteDepartment | PayrollManagementSystem/src/main/java/com/payroll/service/impl/DepartmentServiceImpl.java:71-80 | not-found for an unknown id; refused while employees are assigned; otherwise removes that department only |
| JobRoleService.ToDto | PayrollManagementSystem/src/main/java/com/payroll/service/impl/JobRoleServiceImpl.java:84-91 | the transfer form keeps id, title, salary and description |
| JobRoleService.JobRoleServiceImpl.AllJobRoles | PayrollManagementSystem/src/main/java/com/payroll/service/impl/JobRoleServiceImpl.java:24-28 | exactly the stored roles |
| JobRoleService.JobRoleServiceImpl.JobRoleById | PayrollManagementSystem/src/main/java/com/payroll/service/impl/JobRoleServiceImpl.java:31-35 | the stored role, or not-found exactly when the id is unknown |
| JobRoleService.JobRoleServiceImpl.CreateJobRole | PayrollManagementSystem/src/main/java/com/payroll/service/impl/JobRoleServiceImpl.java:39-51 | refused with the store unchanged when the title is taken; otherwise stores exactly the given title, salary and description; titles stay unique |
| JobRoleService.JobRoleServiceImpl.UpdateJobRole | PayrollManagementSystem/src/main/java/com/payroll/service/impl/JobRoleServiceImpl.java:55-70 | not-found for an unknown id; refused when the new title belongs to another role; otherwise title, salary and description are overwritten; titles stay unique |
| JobRoleService.JobRoleServiceImpl.DeleteJobRole | PayrollManagementSystem/src/main/java/com/payroll/service/impl/JobRoleServiceImpl.java:73-82 | not-found for an unknown id; refused while employees hold the role; otherwise removes that role only |
| UserService.EmployeeRequest | PayrollManagementSystem/src/main/java/com/payroll/service/impl/UserServiceImpl.java:51-60 | an EMPLOYEE login asks for an employee named after the username, last name "User", balance 20, no links |
| UserService.RegistrationMatchesAutoCreate | PayrollManagementSystem/src/main/java/com/payroll/service/impl/UserServiceImpl.java:51-60 | the employee registration creates is the one lookup by user id would create |
| UserService.NextUserHasNoEmployee | PayrollManagementSystem/src/main/java/com/payroll/service/impl/UserServiceImpl.java:61-65 | in a consistent store the next user id has no employee, so the nested employee creation cannot fail |
| UserService.UserServiceImpl.UserById | PayrollManagementSystem/src/main/java/com/payroll/service/impl/UserServiceImpl.java:72-75 | the stored login, or the "User not found with id" failure exactly when the id is unknown |
| UserService.UserServiceImpl.UserByUsername | PayrollManagementSystem/src/main/java/com/payroll/service/impl/UserServiceImpl.java:78-81 | the only login with that username, or the "User not found with username" failure exactly when no login has it |
| UserService.UserServiceImpl.CreateUser | PayrollManagementSystem/src/main/java/com/payroll/service/impl/UserServiceImpl.java:28-69 | refused for a taken username, then for a taken email, with the store unchanged; otherwise an active login with the encoded password and the role is added, plus an employee record for EMPLOYEE and none for ADMIN |
| UserService.UserServiceImpl.DeactivateUser | PayrollManagementSystem/src/main/java/com/payroll/service/impl/UserServiceImpl.java:85-89 | only the active flag of that login becomes false; unknown id fails with the store unchanged |
| UserService.UserServiceImpl.ActivateUser | PayrollManagementSystem/src/main/java/com/payroll/service/impl/UserServiceImpl.java:93-97 | only the active flag of that login becomes true; unknown id fails with the store unchanged |
| SecurityService.IsOwnUser | PayrollManagementSystem/src/main/java/com/payroll/service/SecurityService.java:34-37 | true exactly when the principal is that user |
| SecurityService.Security.IsOwnData | PayrollManagementSystem/src/main/java/com/payroll/service/SecurityService.java:27-32 | fails exactly when the principal has no employee; otherwise true exactly when the id is the principal's employee |
| SecurityService.Security.IsOwnLeaveRequest | PayrollManagementSystem/src/main/java/com/payroll/service/SecurityService.java:39-48 | fails when the principal has no employee or the request is unknown; otherwise true exactly when the request was filed by the principal's employee |
| SecurityService.Security.IsOwnPayroll | PayrollManagementSystem/src/main/java/com/payroll/service/SecurityService.java:50-59 | fails when the principal has no employee or the payroll is unknown; otherwise true exactly when it belongs to the principal's employee |
| Calendar.MonthOfDay | PayrollManagementSystem/src/main/java/com/payroll/service/SmartMessageService.java:24 | the month of a day number is in 1..12 |
| Calendar.MonthOfDayCountsMonths | PayrollManagementSystem/src/main/java/com/payroll/service/SmartMessageService.java:24 | for every year and month, each of the month's days (counted from 1970-01-01 over the Gregorian year and month lengths) is reported in that month |
| Calendar.MonthOfDayExamples | PayrollManagementSystem/src/main/java/com/payroll/service/SmartMessageService.java:24 | month boundaries fall where the Gregorian calendar puts them, leap day included |
| SmartMessage.SeasonDefaultUnreachable | PayrollManagementSystem/src/main/java/com/payroll/service/SmartMessageService.java:23-44 | every real start date has a month case, so the default seasonal text never appears |
| SmartMessage.DurationBands | PayrollManagementSystem/src/main/java/com/payroll/service/SmartMessageService.java:46-58 | the duration text is the single-day one exactly for 1 day, the short one for at most 3 other days, the week one for 4..7 and the extended one beyond |
| SmartMessage.StatusMessage | PayrollManagementSystem/src/main/java/com/payroll/service/SmartMessageService.java:75-110 | the status sentence is drawn from the pool of that status |
| SmartMessage.StatusMessageTellsStatus | PayrollManagementSystem/src/main/java/com/payroll/service/SmartMessageService.java:75-110 | the pools share no sentence, so the sentence determines the status |
| SmartMessage.GenerateLeaveStatusMessage | PayrollManagementSystem/src/main/java/com/payroll/service/SmartMessageService.java:14-21 | the insight text starts with the AI Insight prefix |
| SmartMessage.GeneratedMessageEndsWithStatus | PayrollManagementSystem/src/main/java/com/payroll/service/SmartMessageService.java:14-21 | the insight text ends with a sentence of the leave's own status pool |
| WelcomeAI.TimeGreeting | PayrollManagementSystem/src/main/java/com/payroll/service/WelcomeAIService.java:20-29 | morning exactly before 12:00, afternoon exactly from 12:00 to before 17:00, evening from 17:00 |
| WelcomeAI.PersonalizedMessage | PayrollManagementSystem/src/main/java/com/payroll/service/WelcomeAIService.java:31-48 | the sentence comes from the pool of the user's role |
| WelcomeAI.PersonalizedMessageTellsRole | PayrollManagementSystem/src/main/java/com/payroll/service/WelcomeAIService.java:31-48 | the admin and employee pools are disjoint |
| WelcomeAI.MotivationalQuote | PayrollManagementSystem/src/main/java/com/payroll/service/WelcomeAIService.java:50-60 | the quote is one of the five fixed quotes |
| WelcomeAI.WelcomeShape | PayrollManagementSystem/src/main/java/com/payroll/service/WelcomeAIService.java:12-18 | the welcome opens with the greeting for the time and the user's name and ends with a fixed quote |
| Helpers.FilterBy | src/utils/helpers.js:96-104 | an empty term returns the list unchanged; otherwise the result is an order-preserving subsequence holding exactly the items some key of which contains the term, case-insensitively, each as many times as in the list |
| Helpers.AbsentKeysNeverMatch | src/utils/helpers.js:99-103 | an item whose listed keys are all null or undefined never matches |
| Helpers.FilterByIgnoresTermCase | src/utils/helpers.js:101 | terms that differ only in letter case select the same items |
| Helpers.GreaterIsStrictOrder | src/utils/helpers.js:89-91 | JavaScript `>` on field values is a strict order |
| Helpers.CompareMeansBefore | src/utils/helpers.js:88-92 | the comparator moves an item after another exactly when the other belongs before it |
| Helpers.SortBy | src/utils/helpers.js:83-94 | the sorted copy is a permutation of the input |
| Helpers.SortByOrdered | src/utils/helpers.js:88-92 | for pairwise-comparable keys the copy is strictly ascending for "asc" and strictly descending otherwise |
| Helpers.CalculateLeaveDays | src/utils/helpers.js:107-116 | 0 when a date is missing; otherwise the absolute day distance plus one |
| Helpers.CalculateLeaveDaysSymmetric | src/utils/helpers.js:110-115 | the count is symmetric in its dates and 1 for equal dates |
| Helpers.GetMonthName | src/utils/helpers.js:119-125 | 1..12 map to January..December and every other number to the empty string |
| Helpers.MonthNamesDistinct | src/utils/helpers.js:120-123 | distinct months have distinct names |
| Helpers.StatusBadgeClasses | src/utils/helpers.js:34-43 | the five status names get their own badge and every other string the neutral one; names inherited from Object.prototype are left out |
| Helpers.ValidateEmailMatchesPattern | src/utils/helpers.js:46-49 | the validator accepts exactly the language of `^[^\s@]+@[^\s@]+\.[^\s@]+$` |
| Helpers.ValidatePhone | src/utils/helpers.js:51-54 | a phone is valid exactly when it holds ten digits once non-digits are stripped |
| Helpers.ValidatePhoneIgnoresSeparators | src/utils/helpers.js:53 | inserting a non-digit never changes the verdict |
| Helpers.GetErrorMessage | src/utils/helpers.js:57-66 | the body's message first, else the body's values joined by ", ", else the error's message, else "An error occurred" |
| Helpers.ErrorMessageWithoutDataNonEmpty | src/utils/helpers.js:65 | without a response body the message is never empty |
| Helpers.FieldErrorsAllShown | src/utils/helpers.js:61-63 | every field error of a body without a message appears in the text |
| Text.ToLowerIdempotent | src/utils/helpers.js:101 | `toLowerCase` applied twice is the same as once |
| Text.IncludesIff | src/utils/helpers.js:101 | `includes` holds exactly when the needle occurs at some position of the text |
| Text.StrLessTotal | src/utils/helpers.js:89-91 | two different strings are ordered one way or the other by JavaScript `<` on strings |
| Text.StrLessTransitive | src/utils/helpers.js:89-91 | JavaScript `<` on strings is transitive |
| Seqs.WithoutRemovesExactly | src/components/employees/EmployeeList.jsx:50-58 | pruning a list by id keeps the order of what remains and drops exactly the entries with that id |
| AuthContext.InitialStateFields | src/context/AuthContext.jsx:6-11 | the session starts with no user or token, loading and not authenticated |
| AuthContext.LoginSuccessInstallsSession | src/context/AuthContext.jsx:15-22 | LOGIN_SUCCESS installs user and token, authenticates and ends loading, whatever the prior state |
| AuthContext.LogoutForgetsSession | src/context/AuthContext.jsx:23-30 | LOGOUT sends every state to the same empty, not loading, unauthenticated one |
| AuthContext.SetLoadingOnlyLoading | src/context/AuthContext.jsx:31-35 | SET_LOADING changes the loading flag and nothing else |
| AuthContext.InitAuthAuthenticatesOnToken | src/context/AuthContext.jsx:36-43 | INIT_AUTH authenticates exactly when the token is truthy and ends loading |
| AuthContext.UnrecognisedIsIdentity | src/context/AuthContext.jsx:44-45 | an unknown action leaves the state unchanged |
| AuthContext.ReducerKeepsSessionInvariant | src/context/AuthContext.jsx:13-47 | every action keeps "authenticated implies a user" |
| AuthContext.AuthProvider.constructor | src/context/AuthContext.jsx:50 | the provider starts in the initial state with whatever the browser has stored |
| AuthContext.AuthProvider.Dispatch | src/context/AuthContext.jsx:50 | the state becomes the reducer's result; storage is untouched |
| AuthContext.AuthProvider.InitializeAuth | src/context/AuthContext.jsx:53-72 | restores the session when a truthy token and a parsable user are stored, drops both items when the user does not parse, and ends loading on every path |
| AuthContext.AuthProvider.Login | src/context/AuthContext.jsx:77-105 | on success token and user are stored and the new session is the reducer's SET_LOADING then LOGIN_SUCCESS result, so it holds the response's token and user; on failure storage is kept, loading is reset and the error is passed on |
| AuthContext.AuthProvider.Register | src/context/AuthContext.jsx:107-135 | the same as login, with the same whole new session on success |
| AuthContext.AuthProvider.Logout | src/context/AuthContext.jsx:137-140 | both stored items are dropped and the session is empty |
| AuthScreens.LoginTarget | src/components/auth/Login.jsx:17-18 | the requested path when there is one, else /dashboard for ADMIN and /employee-dashboard for anyone else |
| AuthScreens.LoginRedirect | src/components/auth/Login.jsx:20-22 | an authenticated visitor is redirected to the target, and only then |
| AuthScreens.LoginScreen.HandleSubmit | src/components/auth/Login.jsx:31-43 | a successful login authenticates the session with the response's user and token, stores both, and redirects to the target; storage is kept on failure; a failure shows getErrorMessage; loading always ends false |
| AuthScreens.RegisterPayload | src/components/auth/Register.jsx:64 | the payload is the form without the confirmation |
| AuthScreens.ValidateRegistrationAcceptsExactlyValid | src/components/auth/Register.jsx:29-51 | the validator passes exactly the forms with username >= 3, a pattern-valid email, password >= 6 and a matching confirmation |
| AuthScreens.ValidateRegistrationOrder | src/components/auth/Register.jsx:29-51 | only the first failing check's message is set, in the order the component runs them |
| AuthScreens.RegisterRedirect | src/components/auth/Register.jsx:18-20 | an authenticated visitor goes to /employee-dashboard, and only then |
| AuthScreens.RegisterScreen.HandleSubmit | src/components/auth/Register.jsx:53-70 | an invalid form shows the message and calls nothing; a valid one calls register with the payload; on success the session holds the response's user and token and both are stored; on failure the error is shown and storage is kept |
| FormScreen.OrNull | src/components/employees/EmployeeForm.jsx:117-118 | an empty input is sent as null and a filled one as its value |
| FormScreen.OrBlank | src/components/employees/EmployeeForm.jsx:57-59 | a null loaded value becomes an empty input |
| FormScreen.OrNullOrBlank | src/components/employees/EmployeeForm.jsx:57-59 | loading a value into an input and sending it back is the identity |
| FormScreen.SubmitState.Submit | src/components/payroll/PayrollForm.jsx:86-114 | a failing validation shows its message and sends nothing; a body that throws while being built shows that error and sends nothing; otherwise the body is sent, success navigates to the list page and failure shows getErrorMessage; the busy flag ends false |
| LeaveForm.LeaveDaysIsCalculateLeaveDays | src/components/leaves/LeaveForm.jsx:70-77 | the shown count is 0 until both dates are set, then calculateLeaveDays, at least 1 |
| LeaveForm.ValidateAcceptsExactlyValidForms | src/components/leaves/LeaveForm.jsx:100-131 | the validator passes exactly the valid forms |
| LeaveForm.ValidateOrder | src/components/leaves/LeaveForm.jsx:102-121 | admin without employee first, a non-admin's balance shortfall before the dates, then start, end and their order; equal dates pass |
| LeaveForm.AdminIgnoresBalance | src/components/leaves/LeaveForm.jsx:100-131 | with the `{}` employee an admin form passes exactly when an employee is picked, both dates are in order and a reason is given |
| LeaveForm.SubmitRequestEmployee | src/components/leaves/LeaveForm.jsx:144-148 | the request carries the admin's pick or the employee's own id, and fails for a null employee |
| LeaveForm.LeaveFormScreen.constructor | src/components/leaves/LeaveForm.jsx:16-22 | the form starts with no employee picked, no dates, type CASUAL and an empty reason; no employee record is loaded and the day count is 0 |
| LeaveForm.LeaveFormScreen.LoadEmployee | src/components/leaves/LeaveForm.jsx:29-54 | an admin gets `{}`; anyone else the fetched record or the error; the error is kept except on a failed fetch, and the form, day count and employee list are untouched |
| LeaveForm.LeaveFormScreen.LoadEmployeeOptions | src/components/leaves/LeaveForm.jsx:57-68 | only an admin gets the fetched list; a failure changes nothing |
| LeaveForm.LeaveFormScreen.HandleChange | src/components/leaves/LeaveForm.jsx:70-77 | after a change the count is calculateLeaveDays of the new dates |
| LeaveForm.LeaveFormScreen.HandleSubmit | src/components/leaves/LeaveForm.jsx:133-157 | nothing is sent unless the form validates; a valid form sends exactly the request for the right employee and goes to /leaves with the error cleared on success, except that a non-admin without an employee record gets the TypeError message and nothing is sent. The busy flag ends false whenever the form validates; a refused form keeps the busy flag and the page, and a failed call keeps the page and shows the error |
| EmployeeForm.IdOrBlank | src/components/employees/EmployeeForm.jsx:61-62 | a null or 0 id loads as an empty input |
| EmployeeForm.LoadedForm | src/components/employees/EmployeeForm.jsx:53-64 | missing optional fields load as empty and a falsy balance (null or 0) as 20 |
| EmployeeForm.EmployeeFormScreen.constructor | src/components/employees/EmployeeForm.jsx:14-25 | a new form has every input empty and a leave balance of 20 |
| EmployeeForm.ValidateAcceptsExactlyValidForms | src/components/employees/EmployeeForm.jsx:80-102 | the validator passes exactly the forms with both names, a hire date, an empty or ten-digit phone, and a user id when creating |
| EmployeeForm.ValidateOrder | src/components/employees/EmployeeForm.jsx:81-100 | first name before last name; the user id is never asked for when editing |
| EmployeeForm.Body | src/components/employees/EmployeeForm.jsx:115-119 | empty department and job become null and every other field passes through |
| EmployeeForm.Call | src/components/employees/EmployeeForm.jsx:121-125 | update exactly when the route has an id, create otherwise |
| EmployeeForm.LoadThenSubmit | src/components/employees/EmployeeForm.jsx:53-64 | loading a record and saving it unchanged sends back its links, names, birth date and non-zero balance |
| EmployeeForm.EmployeeFormScreen.LoadFormData | src/components/employees/EmployeeForm.jsx:36-69 | both option lists, then when editing the loaded form; a failure shows its message and keeps what was set before; without a failure the error is kept |
| EmployeeForm.EmployeeFormScreen.HandleSubmit | src/components/employees/EmployeeForm.jsx:104-133 | sends exactly when the form validates, the update or create call, and goes to /employees on success. The busy flag ends false whenever the form validates; a refused form keeps the busy flag and the page, and a failed call keeps the page and shows the error |
| PayrollForm.InitialForm | src/components/payroll/PayrollForm.jsx:13-20 | no employee, empty base salary, allowances and deductions 0, the current month and year |
| PayrollForm.AmountOrZero | src/components/payroll/PayrollForm.jsx:48-50 | an empty amount reads as zero |
| PayrollForm.ValidateAcceptsExactlyValidForms | src/components/payroll/PayrollForm.jsx:70-84 | the validator passes exactly the forms with an employee, a positive base salary and no negative amount |
| PayrollForm.ValidateOrder | src/components/payroll/PayrollForm.jsx:70-84 | employee first, then base salary, then the amounts |
| PayrollForm.Submission | src/components/payroll/PayrollForm.jsx:97-107 | the body carries the employee, period and amounts; an empty amount is sent as null |
| PayrollForm.PreviewMatchesServer | src/components/payroll/PayrollForm.jsx:47-52 | the preview equals the net salary the server computes for the body sent |
| PayrollForm.ValidSubmission | src/components/payroll/PayrollForm.jsx:70-107 | a valid form sends a positive base salary, no negative amount, and a net salary at most base + allowances |
| PayrollForm.PayrollFormScreen.constructor | src/components/payroll/PayrollForm.jsx:13-20 | the screen starts on the initial form with a preview of 0 that matches it |
| PayrollForm.PayrollFormScreen.LoadEmployees | src/components/payroll/PayrollForm.jsx:35-45 | the fetched list with the error kept, or the error with the old list; the form and preview are untouched |
| PayrollForm.PayrollFormScreen.HandleChange | src/components/payroll/PayrollForm.jsx:54-59 | the new form with the preview recomputed |
| PayrollForm.PayrollFormScreen.HandleEmployeeChange | src/components/payroll/PayrollForm.jsx:61-68 | the pick becomes the employee and the base salary is cleared, since an employee record has no jobRole; the preview is recomputed |
| PayrollForm.PayrollFormScreen.HandleSubmit | src/components/payroll/PayrollForm.jsx:86-114 | sends exactly when the form validates; the body's server net salary is the preview shown; /payroll on success. The busy flag ends false whenever the form validates; a refused form keeps the busy flag and the page, and a failed call keeps the page and shows the error |
| JobRoleForm.LoadedForm | src/components/jobroles/JobRoleForm.jsx:32-36 | title and salary load as fetched, a missing description as empty |
| JobRoleForm.ValidateAcceptsExactlyValidForms | src/components/jobroles/JobRoleForm.jsx:51-61 | the validator passes exactly a non-blank title with a positive base salary, title checked first |
| JobRoleForm.Body | src/components/jobroles/JobRoleForm.jsx:74-78 | the body carries the form's title, salary and description |
| JobRoleForm.Call | src/components/jobroles/JobRoleForm.jsx:74-78 | update exactly when the route has an id, create otherwise |
| JobRoleForm.LoadThenSubmit | src/components/jobroles/JobRoleForm.jsx:28-42 | loading a role and saving it unchanged sends back its title, salary and description |
| JobRoleForm.JobRoleFormScreen.LoadJobRole | src/components/jobroles/JobRoleForm.jsx:28-42 | when editing the loaded form with the error kept, or the error with the old form; when creating nothing changes |
| JobRoleForm.JobRoleFormScreen.HandleSubmit | src/components/jobroles/JobRoleForm.jsx:63-86 | sends exactly when the form validates; /jobroles on success. The busy flag ends false whenever the form validates; a refused form keeps the busy flag and the page, and a failed call keeps the page and shows the error |
| DepartmentForm.LoadedForm | src/components/departments/DepartmentForm.jsx:31-34 | the name loads as fetched, a missing description as empty |
| DepartmentForm.ValidateChecksOnlyTheName | src/components/departments/DepartmentForm.jsx:49-55 | the validator passes exactly a non-blank name; the description is never checked |
| DepartmentForm.Body | src/components/departments/DepartmentForm.jsx:68-72 | the body carries the form's name and description |
| DepartmentForm.Call | src/components/departments/DepartmentForm.jsx:68-72 | update exactly when the route has an id, create otherwise |
| DepartmentForm.LoadThenSubmit | src/components/departments/DepartmentForm.jsx:27-40 | loading a department and saving it unchanged sends back its name and description |
| DepartmentForm.DepartmentFormScreen.LoadDepartment | src/components/departments/DepartmentForm.jsx:27-40 | when editing the loaded form with the error kept, or the error with the old form; when creating nothing changes |
| DepartmentForm.DepartmentFormScreen.HandleSubmit | src/components/departments/DepartmentForm.jsx:57-80 | sends exactly when the form validates; /departments on success. The busy flag ends false whenever the form validates; a refused form keeps the busy flag and the page, and a failed call keeps the page and shows the error |
| EmployeeList.DisplayedRows | src/components/employees/EmployeeList.jsx:23-27 | the rows are the matching employees as often as loaded, every employee for an empty search, in column order when the keys are comparable |
| EmployeeList.SearchIgnoresEmail | src/components/employees/EmployeeList.jsx:25 | the email key never matches, since an employee record has no email |
| EmployeeList.NextSort | src/components/employees/EmployeeList.jsx:42-48 | descending exactly when the active ascending column is clicked again, ascending otherwise |
| EmployeeList.SortToggles | src/components/employees/EmployeeList.jsx:42-48 | repeated clicks alternate the direction and a new column starts ascending |
| EmployeeList.SortIconShowsDirection | src/components/employees/EmployeeList.jsx:60-63 | only the sorted column shows a direction, and it is the sort's direction |
| EmployeeList.BalanceBadge | src/components/employees/EmployeeList.jsx:187-188 | success above 10, warning above 5, danger otherwise and for a null balance |
| EmployeeList.EmployeeListScreen.constructor | src/components/employees/EmployeeList.jsx:15 | the table starts empty, unsearched and sorted by first name ascending |
| EmployeeList.EmployeeListScreen.LoadEmployees | src/components/employees/EmployeeList.jsx:29-40 | the fetched list, or the error with the old list |
| EmployeeList.EmployeeListScreen.HandleSort | src/components/employees/EmployeeList.jsx:42-48 | the sort becomes NextSort and nothing else changes |
| EmployeeList.EmployeeListScreen.HandleDeleteEmployee | src/components/employees/EmployeeList.jsx:50-58 | success removes exactly the entries with the deleted id and closes the modal; failure keeps the list and shows the error |
| LeaveList.ShownIsFilteredSubsequence | src/components/leaves/LeaveList.jsx:43-55 | the rows are the loaded leaves, in order, matching the term when given and the status when chosen |
| LeaveList.RowDaysVersusCalculateLeaveDays | src/components/leaves/LeaveList.jsx:188 | the row count agrees with calculateLeaveDays exactly when the dates are in order |
| LeaveList.EmployeeLabel | src/components/leaves/LeaveList.jsx:173 | the record's employee name, or "Employee #id" |
| LeaveList.NameMap | src/components/leaves/LeaveList.jsx:33-36 | the map's keys are exactly the employees' ids |
| LeaveList.NameMapEntry | src/components/leaves/LeaveList.jsx:33-36 | an employee with an unshared id maps to "first last" |
| LeaveList.LeaveListScreen.LoadLeaves | src/components/leaves/LeaveList.jsx:57-75 | admins query all leaves, others their own employee's; the list or the error |
| LeaveList.LeaveListScreen.LoadNames | src/components/leaves/LeaveList.jsx:28-41 | an admin's successful fetch sets the name map; otherwise nothing changes |
| LeaveList.LeaveListScreen.CancelLeave | src/components/leaves/LeaveList.jsx:214-221 | called exactly for a confirmed cancel of a pending leave by a non-admin; success reloads, failure shows the error |
| PayrollList.ShownIsPeriodSubsequence | src/components/payroll/PayrollList.jsx:26-37 | the rows are the loaded payrolls, in order, of the chosen month and year; all with no filter |
| PayrollList.PayrollListScreen.LoadPayrolls | src/components/payroll/PayrollList.jsx:39-57 | admins query all payrolls, others their own employee's; the list or the error |
| PayrollList.PayrollListScreen.HandleProcessPayroll | src/components/payroll/PayrollList.jsx:59-66 | called exactly for an admin on a pending payroll; success reloads, failure shows the error |
| RoleLoad.LoadPlan | src/components/leaves/LeaveList.jsx:62-69 | an admin asks for all records; anyone else for their own employee's, or stops with the lookup's error |
| RoleLoad.NonAdminSeesOwnOnly | src/components/payroll/PayrollList.jsx:44-51 | a non-admin never asks for all records, only for the employee their login resolved to |
| LeaveApproval.ActionRequest | src/components/leaves/LeaveApproval.jsx:43-47 | the decision is sent with the leave's id and the admin's employee id; a null leave or admin record throws |
| LeaveApproval.LeaveApprovalScreen.LoadData | src/components/leaves/LeaveApproval.jsx:21-38 | both lists set together, or the error and nothing set |
| LeaveApproval.LeaveApprovalScreen.OpenAction | src/components/leaves/LeaveApproval.jsx:127-142 | the modal holds the leave and the decision |
| LeaveApproval.LeaveApprovalScreen.HandleLeaveAction | src/components/leaves/LeaveApproval.jsx:40-54 | success removes the processed leave's id from the queue and resets the modal; failure keeps queue and modal and shows the error |
| LeaveApproval.DecisionPrunesOne | src/components/leaves/LeaveApproval.jsx:49 | exactly the processed leave leaves the queue; the rest keep their order |
| DepartmentList.DisplayedRows | src/components/departments/DepartmentList.jsx:22-25 | the rows are the departments matching name or description, in order, and all of them for an empty search |
| DepartmentList.DepartmentListScreen.LoadDepartments | src/components/departments/DepartmentList.jsx:27-38 | the fetched list, or the error with the old list |
| DepartmentList.DepartmentListScreen.HandleDeleteDepartment | src/components/departments/DepartmentList.jsx:40-48 | success removes exactly that department id and closes the modal; failure keeps the list and shows the error |
| JobRoleList.DisplayedRows | src/components/jobroles/JobRoleList.jsx:22-25 | the rows are the roles matching title or description, in order, and all of them for an empty search |
| JobRoleList.JobRoleListScreen.LoadJobRoles | src/components/jobroles/JobRoleList.jsx:27-38 | the fetched list, or the error with the old list |
| JobRoleList.JobRoleListScreen.HandleDeleteJobRole | src/components/jobroles/JobRoleList.jsx:40-48 | success removes exactly that job id and closes the modal; failure keeps the list and shows the error |
| DashboardCommon.FallbackGreeting | src/components/dashboard/EmployeeDashboard.jsx:57-63 | morning exactly before hour 12, afternoon from 12 to before 17, evening from 17 |
| DashboardCommon.WelcomeText | src/components/dashboard/AdminDashboard.jsx:29-59 | the server's text when the request succeeds, the fallback greeting otherwise |
| DashboardCommon.FallbackAgreesWithServer | src/components/dashboard/AdminDashboard.jsx:51-57 | the fallback greets as the server does at every second of the hour |
| DashboardCommon.GeneratedRecentlyMeaning | src/components/dashboard/EmployeeDashboard.jsx:89-91 | a payroll is recent exactly when generated less than 30 days before now |
| EmployeeDashboard.StatsBounds | src/components/dashboard/EmployeeDashboard.jsx:77-93 | pending plus approved never exceed the requests, recent payrolls never exceed the payrolls, a null balance shows 0 |
| EmployeeDashboard.AllPending | src/components/dashboard/EmployeeDashboard.jsx:77-88 | the pending count is the number of requests exactly when all are pending |
| EmployeeDashboard.EmployeeDashboardScreen.LoadDashboardData | src/components/dashboard/EmployeeDashboard.jsx:67-100 | nothing without a user id; record, then leaves (first three), then payrolls (first three) and the counters; a failing step stops with its error and leaves every later list and the counters as they were |
| EmployeeDashboard.EmployeeDashboardScreen.LoadLeavesAndPayrolls | src/components/dashboard/EmployeeDashboard.jsx:76-93 | a failed leave fetch keeps the lists and counters and sets its error; otherwise the first three leaves are shown, and a failed payroll fetch keeps the payroll list and counters; with both lists the first three payrolls and the counters from all three answers are shown |
| EmployeeDashboard.EmployeeDashboardScreen.FetchWelcome | src/components/dashboard/EmployeeDashboard.jsx:35-65 | the banner becomes the welcome text when the user has an id |
| AdminDashboard.StatsMeaning | src/components/dashboard/AdminDashboard.jsx:70-77 | active employees never exceed the total and equal it exactly when all have a positive balance; recent payrolls never exceed all |
| AdminDashboard.AdminDashboardScreen.LoadDashboardData | src/components/dashboard/AdminDashboard.jsx:61-91 | the counters from the three lists, or the first failing request's error with the counters kept |
| AdminDashboard.AdminDashboardScreen.FetchWelcome | src/components/dashboard/AdminDashboard.jsx:29-59 | the banner becomes the welcome text |
| Sidebar.AdminMenu | src/components/common/Sidebar.jsx:11-56 | an admin sees all seven entries in declaration order, Dashboard first pointing to /dashboard |
| Sidebar.OthersMenu | src/components/common/Sidebar.jsx:11-56 | anyone else sees exactly Dashboard (to /employee-dashboard), Leave Management and Payroll, in that order |
| Sidebar.OnlyDashboardIsExact | src/components/common/Sidebar.jsx:77 | only the first visible entry, the dashboard, uses exact route matching |

## Left out

- HTTP and REST plumbing are not modelled: the client service modules, the `api` module, the controllers and their authorization annotations. A service call is a parameter carrying its answer.
- JPA mapping, lazy loading and bean-validation annotations (`@NotNull`, `@DecimalMin` and the like) are not modelled, because a framework outside the model enforces them. A record a service stores is taken as it is built.
- Deleting an employee that a leave request or payroll still refers to is modelled as a refusal with the store unchanged. The schema's foreign keys cause that refusal; the service code has no such check.
- The failure handler in `createUser` is modelled as dead code, since the nested employee creation cannot fail on a consistent store. Spring's rollback-only marking of a transaction whose inner call threw is not modelled.
- `localStorage`, `JSON.parse` and the password encoder are abstract values. A stored user is parsable JSON or unparsable text, and `encode` is a function parameter. JWT generation is left out.
- The clock (`Date.now`, `new Date().getHours()`, `LocalTime.now()`, `LocalDate.now()`, `LocalDateTime.now()`) and `java.util.Random` are not modelled. Each becomes a parameter: a time, an hour, a day, or an index into the fixed pool.
- Floating point is not modelled. Amounts are exact reals, and a number input is blank or a number, so `parseFloat` of unparsable text (NaN) is not represented. An empty amount is sent as null because JSON serialises NaN as null.
- Browser `Date` arithmetic in milliseconds, `Math.ceil` and daylight-saving shifts are replaced by whole day numbers in `Helpers.CalculateLeaveDays` and `LeaveList.RowDays`. The ISO date strings are compared as numbers.
- Async behaviour is not modelled: effect ordering, re-renders, writes after unmount and the effects' dependency lists. Each handler or effect runs to completion as one method. When several `Promise.all` requests fail, the error shown is that of the first failing request in request order.
- The leave form's user effect is modelled for a logged-in user with an id, the only case in which it does anything.
- The admin dashboard's `recentActivities` list is a hard-coded mock and is left out, as are the controller's placeholder dashboard statistics.
- Rendering is left out: JSX markup, `navigate` beyond the target path, `Link`, `window.print`, `alert`, the spinner, card and header components, the route table, the profile and payslip pages, and `ProtectedRoute`. A confirmation dialog's answer is a parameter.
- Locale formatting (`formatDate`, `formatDateTime`, `formatCurrency`) is left out, because it calls the browser's locale libraries.
- `debounce` is left out, because it is timer-based.
- The JUnit tests are left out, because they are mock-based.
- Helpers.FilterBy: lower-casing covers ASCII letters only, not Unicode case mapping.
- Text.StrLess: strings are sequences of Unicode code points, while JavaScript compares UTF-16 code units. The two orders differ only between a character above U+FFFF and one from U+E000 to U+FFFF.
- AuthScreens.ValidateRegistration: the length checks count code points, while JavaScript's `.length` counts UTF-16 code units. A character above U+FFFF counts once here and twice in JavaScript, so a username of two emoji is too short here and long enough in the browser.
- AuthContext.AuthProvider.InitializeAuth: three storage states that only tampering produces are not represented. A stored user of `""` is falsy, so JavaScript keeps both items without restoring a session, where the model removes them. A stored user of `"null"` parses to null. A missing `accessToken` in a login answer is stored as the string `"undefined"`, which the model (AuthContext.AuthProvider.Login) stores as no token.
- Helpers.SortByOrdered: order is proved only for lists whose keys are pairwise comparable and distinct. The comparator in helpers.js never returns 0, so JavaScript's sort gives no defined order for equal, null or mixed-kind keys, and the model claims only a permutation for them.
- EmployeeList.DisplayedRows: the rows are stated up to permutation, with the order given by `Helpers.SortByOrdered`, since the component filters and then sorts.
- Each service call is modelled as one serial transaction. Concurrent requests are not modelled. Two concurrent `createPayroll` calls for the same employee and period can both pass the `findByEmployeeAndMonthAndYear` check and both insert, because no unique constraint covers the period. The invariant `OnePayrollPerPeriod` of `Store.Consistent` then fails. Two concurrent approvals for one employee can also lose a balance deduction, because the balance is read and written without a lock or version field.
- Helpers.StatusBadgeClasses: `statusClasses[status]` also finds names inherited from Object.prototype (`"toString"`, `"constructor"`, `"valueOf"`, `"hasOwnProperty"`, `"__proto__"`), where JavaScript returns the inherited value and not the neutral badge. These names are not modelled, because statuses come from the server's enum names.
- The `generatedDate` of a new payroll and the `appliedDate` of a new leave request are stamped with the clock parameter. In Payroll.java and LeaveRequest.java they come from `@CreatedDate`, which fills them only when JPA auditing is enabled; the model assumes it is.
- Helpers.GetErrorMessage: a response body is assumed to be a JSON object. A plain-text body would reach the `Object.values` branch and be joined character by character (`"Bad"` gives `"B, a, d"`).
