/** Payroll records on the server (PayrollServiceImpl.java): creation with at
    most one payroll per employee and period, the net-salary rule, processing,
    deletion and the queries. */
module PayrollService {
  import opened Wrappers
  import opened Domain
  import opened Entities
  import opened Dto
  import opened Store
  import StoreLaws

  /** `calculateNetSalary(dto)`: the amounts of the request, a null one read as
      zero. */
  function CalculateNetSalary(dto: PayrollDto): (r: real)
    ensures r == OrZero(dto.baseSalary) + OrZero(dto.allowances) - OrZero(dto.deductions)
  {
    NetSalary(dto.baseSalary, dto.allowances, dto.deductions)
  }

  /** The net salary grows with base and allowances and shrinks with
      deductions, one for one; with nothing given it is zero. */
  lemma NetSalaryOfAmounts(dto: PayrollDto, extra: real)
    ensures CalculateNetSalary(dto.(deductions := None)) == OrZero(dto.baseSalary) + OrZero(dto.allowances)
    ensures CalculateNetSalary(dto.(baseSalary := Some(OrZero(dto.baseSalary) + extra))) == CalculateNetSalary(dto) + extra
    ensures CalculateNetSalary(dto.(deductions := Some(OrZero(dto.deductions) + extra))) == CalculateNetSalary(dto) - extra
    ensures CalculateNetSalary(dto.(baseSalary := None, allowances := None, deductions := None)) == 0.0
  {
  }

  /** `convertToDto`. */
  function ToDto(p: Payroll): (r: PayrollDto)
    ensures r.payrollId == Some(p.payrollId) && r.employeeId == p.employeeId
    ensures r.month == p.month && r.year == p.year && r.netSalary == Some(p.netSalary)
    ensures r.status == Some(PayrollStatusName(p.status))
  {
    PayrollDto(Some(p.payrollId), p.employeeId, p.month, p.year, p.baseSalary, p.allowances, p.deductions,
               Some(p.netSalary), Some(PayrollStatusName(p.status)), Some(p.generatedDate), p.processedDate)
  }

  class PayrollServiceImpl {
    const db: Database

    constructor (db: Database)
      ensures this.db == db
    {
      this.db := db;
    }

    /** `getAllPayrolls`. */
    function AllPayrolls(): (r: set<Payroll>)
      reads db
      ensures forall p :: p in r <==> p in db.payrolls.Values
    {
      db.payrolls.Values
    }

    /** `getPayrollsByEmployee`: fails for an unknown employee. */
    function PayrollsByEmployee(employeeId: Id): (r: Result<set<Payroll>, ServiceError>)
      reads db
      ensures employeeId !in db.employees <==> r.Failure?
      ensures r.Failure? ==> r.error == NotFound("Employee", employeeId)
      ensures r.Ok? ==> forall p :: p in r.value <==> p in db.payrolls.Values && p.employeeId == employeeId
    {
      if employeeId !in db.employees then Failure(NotFound("Employee", employeeId))
      else Ok(set p | p in db.payrolls.Values && p.employeeId == employeeId)
    }

    /** `getPayrollsByMonthAndYear`: exactly the payrolls of that period. */
    function PayrollsByMonthAndYear(month: int, year: int): (r: set<Payroll>)
      reads db
      ensures forall p :: p in r <==> p in db.payrolls.Values && p.month == month && p.year == year
    {
      set p | p in db.payrolls.Values && p.month == month && p.year == year
    }

    /** `getPayrollById`. */
    function PayrollById(id: Id): (r: Result<Payroll, ServiceError>)
      reads db
      ensures id in db.payrolls <==> r.Ok?
      ensures r.Ok? ==> r.value == db.payrolls[id]
      ensures r.Failure? ==> r.error == NotFound("Payroll", id)
    {
      if id in db.payrolls then Ok(db.payrolls[id]) else Failure(NotFound("Payroll", id))
    }

    /** With a consistent store, the period query holds at most one payroll
        per employee. */
    lemma PeriodQueryOnePerEmployee(month: int, year: int, p: Payroll, q: Payroll)
      requires db.Valid()
      requires p in PayrollsByMonthAndYear(month, year) && q in PayrollsByMonthAndYear(month, year)
      requires p.employeeId == q.employeeId
      ensures p == q
    {
      var a :| a in db.payrolls && db.payrolls[a] == p;
      var b :| b in db.payrolls && db.payrolls[b] == q;
      assert SamePeriod(db.payrolls[a], db.payrolls[b]);
    }

    /** `createPayroll`: the employee must exist and have no payroll for the
        period. The new payroll keeps the request's month, year and amounts,
        the computed net salary, and starts PENDING, stamped with `now`. */
    method CreatePayroll(dto: PayrollDto, now: int) returns (r: Result<Payroll, ServiceError>)
      requires db.Valid()
      modifies db
      ensures db.Valid()
      ensures r.Failure? ==> unchanged(db)
      ensures dto.employeeId !in old(db.employees) ==> r == Failure(NotFound("Employee", dto.employeeId))
      ensures dto.employeeId in old(db.employees) && StoreLaws.PeriodTaken(old(db.payrolls), dto.employeeId, dto.month, dto.year) ==>
        r == Failure(Runtime("Payroll already exists for this employee and period"))
      ensures r.Ok? <==> dto.employeeId in old(db.employees)
                         && !StoreLaws.PeriodTaken(old(db.payrolls), dto.employeeId, dto.month, dto.year)
      ensures r.Ok? ==>
        r.value == Payroll(old(db.nextPayrollId), dto.employeeId, dto.month, dto.year, dto.baseSalary,
                           dto.allowances, dto.deductions, CalculateNetSalary(dto), PayrollStatus.PENDING, now, None)
        && db.Snap() == old(db.Snap()).(payrolls := old(db.payrolls)[r.value.payrollId := r.value],
                                        nextPayrollId := old(db.nextPayrollId) + 1)
    {
      if dto.employeeId !in db.employees {
        return Failure(NotFound("Employee", dto.employeeId));
      }
      var existing := FindByEmployeeAndPeriod(dto.employeeId, dto.month, dto.year);
      if existing.Some? {
        return Failure(Runtime("Payroll already exists for this employee and period"));
      }
      var payroll := Payroll(db.nextPayrollId, dto.employeeId, dto.month, dto.year, dto.baseSalary,
                             dto.allowances, dto.deductions, CalculateNetSalary(dto), PayrollStatus.PENDING, now, None);
      StoreLaws.InsertPayroll(db.Snap(), payroll);
      db.payrolls := db.payrolls[payroll.payrollId := payroll];
      db.nextPayrollId := db.nextPayrollId + 1;
      r := Ok(payroll);
    }

    /** `payrollRepository.findByEmployeeAndMonthAndYear`. */
    method FindByEmployeeAndPeriod(employeeId: Id, month: int, year: int) returns (r: Option<Payroll>)
      ensures r.Some? ==> r.value in db.payrolls.Values && r.value.employeeId == employeeId
                          && r.value.month == month && r.value.year == year
      ensures r.None? <==> !StoreLaws.PeriodTaken(db.payrolls, employeeId, month, year)
    {
      if id :| id in db.payrolls && db.payrolls[id].employeeId == employeeId
               && db.payrolls[id].month == month && db.payrolls[id].year == year {
        r := Some(db.payrolls[id]);
      } else {
        r := None;
      }
    }

    /** `processPayroll`: PROCESSED at `now`, whatever the previous status. */
    method ProcessPayroll(id: Id, now: int) returns (r: Result<Payroll, ServiceError>)
      requires db.Valid()
      modifies db
      ensures db.Valid()
      ensures id !in old(db.payrolls) ==> r == Failure(NotFound("Payroll", id)) && unchanged(db)
      ensures id in old(db.payrolls) ==>
        r == Ok(old(db.payrolls)[id].(status := PayrollStatus.PROCESSED, processedDate := Some(now)))
        && db.Snap() == old(db.Snap()).(payrolls := old(db.payrolls)[id := r.value])
    {
      if id !in db.payrolls {
        return Failure(NotFound("Payroll", id));
      }
      var processed := db.payrolls[id].(status := PayrollStatus.PROCESSED, processedDate := Some(now));
      StoreLaws.UpdatePayroll(db.Snap(), processed);
      db.payrolls := db.payrolls[id := processed];
      r := Ok(processed);
    }

    /** `deletePayroll`: removes that payroll and nothing else. */
    method DeletePayroll(id: Id) returns (r: Result<(), ServiceError>)
      requires db.Valid()
      modifies db
      ensures db.Valid()
      ensures id !in old(db.payrolls) ==> r == Failure(NotFound("Payroll", id)) && unchanged(db)
      ensures id in old(db.payrolls) ==> r.Ok? && db.Snap() == old(db.Snap()).(payrolls := old(db.payrolls) - {id})
    {
      if id !in db.payrolls {
        return Failure(NotFound("Payroll", id));
      }
      StoreLaws.RemovePayroll(db.Snap(), id);
      db.payrolls := db.payrolls - {id};
      r := Ok(());
    }
  }
}
