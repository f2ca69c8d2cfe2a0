/** The transfer objects exchanged between the client and the services
    (EmployeeDto, DepartmentDto, JobRoleDto, LeaveRequestDto, PayrollDto).
    They are what the services return and what the client's lists hold and
    its forms send. A Java null is `None`. */
module Dto {
  import opened Wrappers
  import opened Entities

  datatype EmployeeDto = EmployeeDto(
    employeeId: Option<Id>,
    userId: Id,
    firstName: string,
    lastName: string,
    dateOfBirth: Option<int>,
    phoneNumber: Option<string>,
    address: Option<string>,
    hireDate: int,
    departmentId: Option<Id>,
    departmentName: Option<string>,
    jobId: Option<Id>,
    jobTitle: Option<string>,
    leaveBalance: Option<int>)

  datatype DepartmentDto = DepartmentDto(departmentId: Option<Id>, departmentName: string, description: Option<string>)

  datatype JobRoleDto = JobRoleDto(jobId: Option<Id>, jobTitle: string, baseSalary: Option<real>, description: Option<string>)

  datatype LeaveRequestDto = LeaveRequestDto(
    leaveId: Option<Id>,
    employeeId: Id,
    startDate: int,
    endDate: int,
    employeeName: Option<string>,
    aiMessage: Option<string>,
    leaveType: string,
    reason: Option<string>,
    status: Option<string>,
    appliedDate: Option<int>,
    processedDate: Option<int>,
    processedBy: Option<Id>)

  datatype PayrollDto = PayrollDto(
    payrollId: Option<Id>,
    employeeId: Id,
    month: int,
    year: int,
    baseSalary: Option<real>,
    allowances: Option<real>,
    deductions: Option<real>,
    netSalary: Option<real>,
    status: Option<string>,
    generatedDate: Option<int>,
    processedDate: Option<int>)
}
