/** The payroll side of models.py: role predicates, the monthly salary formula,
    the repayment of an advance, and the "only existing attributes" update of
    the CRUD mixin. Database sessions are not part of this model. */
module Payroll {
  import opened Wrappers

  datatype User = User(username: string, role: string)

  predicate IsAdmin(u: User) {
    u.role == "admin"
  }

  predicate IsManager(u: User) {
    u.role == "admin" || u.role == "manager"
  }

  /** Every administrator counts as a manager, and the manager role is exactly
      these two roles. */
  lemma AdminIsManager(u: User)
    ensures IsAdmin(u) ==> IsManager(u)
    ensures IsManager(u) && !IsAdmin(u) <==> u.role == "manager"
  {
  }

  datatype EmployeeDetails = EmployeeDetails(
    basicSalary: real, isHourly: bool, hourlyRate: real, overtimeRate: real)

  datatype SalaryBreakdown = SalaryBreakdown(grossSalary: real, deductions: real, netSalary: real)

  const StandardHoursPerDay: int := 8

  /** Hours beyond eight per day present, never negative. */
  function OvertimeHours(daysPresent: int, hoursWorked: real): (h: real)
    ensures h >= 0.0 && h >= hoursWorked - (daysPresent * StandardHoursPerDay) as real
    ensures h == 0.0 || h == hoursWorked - (daysPresent * StandardHoursPerDay) as real
  {
    var standardHours := (daysPresent * StandardHoursPerDay) as real;
    if hoursWorked - standardHours > 0.0 then hoursWorked - standardHours else 0.0
  }

  /** The hourly gross: every hour at the hourly rate, overtime hours once more
      at the overtime rate. */
  function HourlyGross(e: EmployeeDetails, daysPresent: int, hoursWorked: real): real {
    hoursWorked * e.hourlyRate + OvertimeHours(daysPresent, hoursWorked) * e.overtimeRate
  }

  /** EmployeeDetails.calculate_monthly_salary, without the rounding to cents.
      None is the ZeroDivisionError of a salaried month with no working days. */
  function CalculateMonthlySalary(e: EmployeeDetails, daysPresent: int, totalDays: int, hoursWorked: real)
    : (r: Option<SalaryBreakdown>)
    ensures r.None? <==> !e.isHourly && totalDays == 0
    ensures r.Some? ==> r.value.deductions == 0.0 && r.value.netSalary == r.value.grossSalary
    ensures r.Some? && !e.isHourly ==>
      r.value.grossSalary * totalDays as real == e.basicSalary * daysPresent as real
    ensures e.isHourly ==> r == Some(SalaryBreakdown(HourlyGross(e, daysPresent, hoursWorked), 0.0,
                                                     HourlyGross(e, daysPresent, hoursWorked)))
  {
    if e.isHourly then
      var gross := HourlyGross(e, daysPresent, hoursWorked);
      Some(SalaryBreakdown(gross, 0.0, gross))
    else if totalDays == 0 then None
    else
      var gross := e.basicSalary * (daysPresent as real / totalDays as real);
      Some(SalaryBreakdown(gross, 0.0, gross))
  }

  /** A salaried employee present every day of the month earns the basic salary. */
  lemma FullAttendanceEarnsBasic(e: EmployeeDetails, days: int, hoursWorked: real)
    requires !e.isHourly && days != 0
    ensures CalculateMonthlySalary(e, days, days, hoursWorked) == Some(SalaryBreakdown(e.basicSalary, 0.0, e.basicSalary))
  {
    assert days as real / days as real == 1.0;
    assert e.basicSalary * (days as real / days as real) == e.basicSalary;
  }

  /** Within eight hours per day present no overtime is paid. */
  lemma NoOvertimeWithinStandardHours(e: EmployeeDetails, daysPresent: int, hoursWorked: real)
    requires e.isHourly && hoursWorked <= (daysPresent * StandardHoursPerDay) as real
    ensures CalculateMonthlySalary(e, daysPresent, 0, hoursWorked).value.grossSalary == hoursWorked * e.hourlyRate
  {
  }

  /** With non-negative rates, more hours never pay less. */
  lemma HourlyPayMonotone(e: EmployeeDetails, daysPresent: int, hours1: real, hours2: real)
    requires e.hourlyRate >= 0.0 && e.overtimeRate >= 0.0 && hours1 <= hours2
    ensures HourlyGross(e, daysPresent, hours1) <= HourlyGross(e, daysPresent, hours2)
  {
    MulMonotone(hours1, hours2, e.hourlyRate);
    MulMonotone(OvertimeHours(daysPresent, hours1), OvertimeHours(daysPresent, hours2), e.overtimeRate);
  }

  lemma MulMonotone(a: real, b: real, c: real)
    requires a <= b && c >= 0.0
    ensures a * c <= b * c
  {
    assert b * c - a * c == (b - a) * c;
  }

  /** One monthly step: the deduction taken and the balance left. Nothing is
      taken from a balance that is already settled. */
  function DeductionStep(remaining: real, monthly: real): (r: (real, real))
    ensures r.0 + r.1 == remaining
    ensures remaining <= 0.0 ==> r == (0.0, remaining)
    ensures remaining > 0.0 ==> r.0 <= monthly && r.0 <= remaining
    ensures remaining > 0.0 && monthly >= 0.0 ==> r.1 >= 0.0
    ensures remaining > 0.0 && monthly >= remaining ==> r.1 == 0.0
    ensures remaining > 0.0 ==> (r.0 == monthly || r.0 == remaining)
    ensures remaining > 0.0 && monthly <= remaining ==> r.0 == monthly
  {
    if remaining > 0.0 then
      var deduction := if monthly <= remaining then monthly else remaining;
      (deduction, remaining - deduction)
    else (0.0, remaining)
  }

  /** The balance left after `n` monthly steps. */
  function RemainingAfter(remaining: real, monthly: real, n: nat): real
    decreases n
  {
    if n == 0 then remaining else RemainingAfter(DeductionStep(remaining, monthly).1, monthly, n - 1)
  }

  /** The total deducted over `n` monthly steps. */
  function DeductedOver(remaining: real, monthly: real, n: nat): real
    decreases n
  {
    if n == 0 then 0.0
    else
      var (d, rest) := DeductionStep(remaining, monthly);
      d + DeductedOver(rest, monthly, n - 1)
  }

  /** Every amount deducted comes off the balance: deducted plus remaining is
      the starting balance. */
  lemma {:induction false} RepaymentConserves(remaining: real, monthly: real, n: nat)
    ensures DeductedOver(remaining, monthly, n) + RemainingAfter(remaining, monthly, n) == remaining
    decreases n
  {
    if n > 0 {
      RepaymentConserves(DeductionStep(remaining, monthly).1, monthly, n - 1);
    }
  }

  /** With a non-negative instalment a non-negative balance never goes negative. */
  lemma {:induction false} BalanceNeverNegative(remaining: real, monthly: real, n: nat)
    requires remaining >= 0.0 && monthly >= 0.0
    ensures RemainingAfter(remaining, monthly, n) >= 0.0
    decreases n
  {
    if n > 0 {
      BalanceNeverNegative(DeductionStep(remaining, monthly).1, monthly, n - 1);
    }
  }

  /** `n` positive instalments that cover the balance pay it off. */
  lemma {:induction false} PaidOffAfterEnoughMonths(remaining: real, monthly: real, n: nat)
    requires remaining >= 0.0 && monthly > 0.0 && n as real * monthly >= remaining
    ensures RemainingAfter(remaining, monthly, n) == 0.0
    decreases n
  {
    if n == 0 {
    } else if remaining == 0.0 {
      ZeroStaysZero(monthly, n);
    } else {
      var rest := DeductionStep(remaining, monthly).1;
      assert rest == 0.0 || rest == remaining - monthly;
      assert (n - 1) as real * monthly == n as real * monthly - monthly;
      PaidOffAfterEnoughMonths(rest, monthly, n - 1);
    }
  }

  lemma {:induction false} ZeroStaysZero(monthly: real, n: nat)
    ensures RemainingAfter(0.0, monthly, n) == 0.0
    decreases n
  {
    if n > 0 {
      ZeroStaysZero(monthly, n - 1);
    }
  }

  class Advance {
    var totalAmount: real
    var monthlyDeduction: real
    var remainingBalance: real
    var status: string

    constructor (amount: real, monthly: real)
      ensures totalAmount == amount && monthlyDeduction == monthly
      ensures remainingBalance == amount && status == "active"
    {
      totalAmount := amount;
      monthlyDeduction := monthly;
      remainingBalance := amount;
      status := "active";
    }

    /** Advance.apply_monthly_deduction: takes one instalment (or what is left)
        from a positive balance and marks the advance completed once the
        balance is settled. The status is not consulted first. */
    method ApplyMonthlyDeduction() returns (deduction: real)
      modifies this
      ensures (deduction, remainingBalance) == DeductionStep(old(remainingBalance), monthlyDeduction)
      ensures status == if old(remainingBalance) > 0.0 && remainingBalance <= 0.0 then "completed" else old(status)
      ensures totalAmount == old(totalAmount) && monthlyDeduction == old(monthlyDeduction)
    {
      if remainingBalance > 0.0 {
        deduction := if monthlyDeduction <= remainingBalance then monthlyDeduction else remainingBalance;
        remainingBalance := remainingBalance - deduction;
        if remainingBalance <= 0.0 {
          status := "completed";
        }
        return deduction;
      }
      return 0.0;
    }
  }

  /** A column value of a record. */
  datatype Value = Null | Text(text: string) | Number(number: real) | Flag(flag: bool)

  /** `update(**kwargs)`: the given values of the attributes the record has;
      any other key is dropped. */
  function Overlay(attributes: map<string, Value>, kwargs: map<string, Value>): (r: map<string, Value>)
    ensures r.Keys == attributes.Keys
    ensures forall k :: k in attributes && k in kwargs ==> r[k] == kwargs[k]
    ensures forall k :: k in attributes && k !in kwargs ==> r[k] == attributes[k]
  {
    map k | k in attributes :: if k in kwargs then kwargs[k] else attributes[k]
  }

  /** Updating twice with the same values is updating once. */
  lemma OverlayIdempotent(attributes: map<string, Value>, kwargs: map<string, Value>)
    ensures Overlay(Overlay(attributes, kwargs), kwargs) == Overlay(attributes, kwargs)
  {
  }

  /** Keys the record lacks make no difference. */
  lemma OverlayIgnoresUnknownKeys(attributes: map<string, Value>, kwargs: map<string, Value>)
    ensures Overlay(attributes, kwargs) == Overlay(attributes, map k | k in kwargs && k in attributes :: kwargs[k])
  {
  }

  class Record {
    var attributes: map<string, Value>

    constructor (initial: map<string, Value>)
      ensures attributes == initial
    {
      attributes := initial;
    }

    /** CRUDMixin.update: sets each given key that the record already has. */
    method Update(kwargs: map<string, Value>)
      modifies this
      ensures attributes == Overlay(old(attributes), kwargs)
    {
      var pending := kwargs.Keys;
      while pending != {}
        invariant pending <= kwargs.Keys
        invariant attributes.Keys == old(attributes).Keys
        invariant forall k :: k in attributes ==>
          attributes[k] == if k in kwargs && k !in pending then kwargs[k] else old(attributes)[k]
        decreases pending
      {
        var key :| key in pending;
        if key in attributes {
          attributes := attributes[key := kwargs[key]];
        }
        pending := pending - {key};
      }
    }
  }
}
