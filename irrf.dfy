/** Payroll arithmetic: the taxable base salary and the progressive
    income-tax withholding (IRRF) computed from it. Amounts are exact
    `real`s; the source's binary floating point is not reproduced. */
module Irrf {

  /** Allowance subtracted from the gross salary per dependent. */
  const DependentDeduction: real := 189.59

  /** Upper (inclusive) limits of the four lower brackets. */
  const ExemptLimit: real := 2259.20
  const Limit2: real := 2826.65
  const Limit3: real := 3751.05
  const Limit4: real := 4664.68

  /** Gross salary minus pension deduction minus the per-dependent allowance.
      Nothing is clamped: the base may come out negative. */
  function BaseSalary(grossSalary: real, pensionDiscount: real, dependents: int): real
  {
    grossSalary - pensionDiscount - dependents as real * DependentDeduction
  }

  /** Withholding for a taxable base: the first bracket whose inclusive upper
      limit is at least `base` decides the rate and the subtracted parcel. */
  function Tax(base: real): (r: real)
    ensures r >= 0.0
    ensures base <= ExemptLimit <==> r == 0.0
    ensures base > 0.0 ==> r < 0.275 * base
    ensures base > Limit4 ==> r == 0.275 * base - 896.0
  {
    if base <= ExemptLimit then 0.0
    else if base <= Limit2 then base * 0.075 - 169.44
    else if base <= Limit3 then base * 0.15 - 381.44
    else if base <= Limit4 then base * 0.225 - 662.77
    else base * 0.275 - 896.0
  }

  /** The amount a whole number of cents stands for. */
  function Cents(n: int): real
  {
    n as real / 100.0
  }

  // ---------------------------------------------------------------------
  // Base salary

  lemma BaseSalaryWithoutDependents(grossSalary: real, pensionDiscount: real)
    ensures BaseSalary(grossSalary, pensionDiscount, 0) == grossSalary - pensionDiscount
    ensures BaseSalary(0.0, 0.0, 0) == 0.0
  {
  }

  /** Each further dependent lowers the base by exactly the allowance, with no
      floor, so enough dependents drive any base below zero. */
  lemma BaseSalaryPerDependent(grossSalary: real, pensionDiscount: real, dependents: int)
    ensures BaseSalary(grossSalary, pensionDiscount, dependents + 1)
         == BaseSalary(grossSalary, pensionDiscount, dependents) - DependentDeduction
    ensures BaseSalary(0.0, 0.0, 1) < 0.0
  {
  }

  lemma BaseSalaryExamples()
    ensures BaseSalary(5000.0, 500.0, 0) == 4500.0
    ensures BaseSalary(5000.0, 500.0, 2) == 4120.82
    ensures BaseSalary(10000.0, 1000.0, 5) == 8052.05
  {
  }

  // ---------------------------------------------------------------------
  // Withholding

  /** Upper limits are inclusive: each limit is taxed by the lower bracket's
      formula and the next cent by the higher one. */
  lemma BracketLimitsInclusive()
    ensures Tax(ExemptLimit) == 0.0
    ensures Tax(2259.21) == 2259.21 * 0.075 - 169.44
    ensures Tax(Limit2) == Limit2 * 0.075 - 169.44
    ensures Tax(2826.66) == 2826.66 * 0.15 - 381.44
    ensures Tax(Limit3) == Limit3 * 0.15 - 381.44
    ensures Tax(3751.06) == 3751.06 * 0.225 - 662.77
    ensures Tax(Limit4) == Limit4 * 0.225 - 662.77
    ensures Tax(4664.69) == 4664.69 * 0.275 - 896.0
  {
  }

  /** At the exempt limit the 7.5% formula already yields zero, so the
      withholding has no jump there: just above it, it grows from zero at
      7.5% of the excess. */
  lemma ContinuousAtExemptLimit()
    ensures forall b :: ExemptLimit < b <= Limit2 ==> Tax(b) == 0.075 * (b - ExemptLimit)
  {
  }

  /** Just above each of the three higher limits the withholding is its value
      at the limit, plus a jump of less than one cent, plus the new rate times
      the excess: down 0.00125 after the second and third limits, up 0.004
      after the fourth. */
  lemma JumpsAtUpperLimits()
    ensures forall b :: Limit2 < b <= Limit3 ==> Tax(b) == Tax(Limit2) - 0.00125 + 0.15 * (b - Limit2)
    ensures forall b :: Limit3 < b <= Limit4 ==> Tax(b) == Tax(Limit3) - 0.00125 + 0.225 * (b - Limit3)
    ensures forall b :: Limit4 < b ==> Tax(b) == Tax(Limit4) + 0.004 + 0.275 * (b - Limit4)
  {
  }

  lemma TaxExamples()
    ensures Tax(0.0) == 0.0 && Tax(1000.0) == 0.0
    ensures Tax(2500.0) == 18.06
    ensures Tax(3000.0) == 68.56
    ensures Tax(4000.0) == 237.23
    ensures Tax(5000.0) == 479.0
  {
  }

  /** Over arbitrary reals the withholding is not monotone: just above the
      second and third limits the next formula starts slightly lower. */
  lemma NotMonotoneBetweenCents()
    ensures Limit2 < 2826.651 && Tax(2826.651) < Tax(Limit2)
    ensures Limit3 < 3751.051 && Tax(3751.051) < Tax(Limit3)
  {
  }

  /** On whole-cent bases the withholding never decreases as the base grows
      (each jump down is smaller than the gain of one cent). */
  lemma MonotoneOnCents(a: int, b: int)
    requires a <= b
    ensures Tax(Cents(a)) <= Tax(Cents(b))
  {
  }

  // ---------------------------------------------------------------------
  // The bracket table as data

  /** One bracket: bases up to `upTo` pay `rate` times the base minus `parcel`. */
  datatype Bracket = Bracket(upTo: real, rate: real, parcel: real)

  /** The four bounded brackets in ascending order; above the last one the
      rate is 27.5% and the parcel 896. */
  const Brackets: seq<Bracket> := [
    Bracket(ExemptLimit, 0.0, 0.0),
    Bracket(Limit2, 0.075, 169.44),
    Bracket(Limit3, 0.15, 381.44),
    Bracket(Limit4, 0.225, 662.77)
  ]

  /** Scans the table for the first bracket whose limit is at least `base`. */
  function TaxByTable(table: seq<Bracket>, base: real): real
  {
    if table == [] then base * 0.275 - 896.0
    else if base <= table[0].upTo then base * table[0].rate - table[0].parcel
    else TaxByTable(table[1..], base)
  }

  /** The if-chain and the table scan agree on every base. */
  lemma TaxMatchesTable(base: real)
    ensures Tax(base) == TaxByTable(Brackets, base)
  {
    var t1, t2, t3 := Brackets[1..], Brackets[2..], Brackets[3..];
    assert t1[1..] == t2 && t2[1..] == t3 && t3[1..] == [];
    assert TaxByTable(t3, base) == Tax(base) || base <= Limit3;
    assert TaxByTable(t2, base) == Tax(base) || base <= Limit2;
    assert TaxByTable(t1, base) == Tax(base) || base <= ExemptLimit;
  }
}
