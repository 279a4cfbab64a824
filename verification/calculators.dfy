/** The four arithmetic calculators of the Calculators section: income tax,
    salary deductions, VAT and profit margin.

    Each is the pure computation inside a click handler, with the React state
    removed. Amounts are exact reals (an abstraction of JavaScript doubles);
    the handlers apply `Input.OrZero` to their text fields before calling these.
 */
module Calculators {
  import opened Input

  /** Flat income-tax rate, 20% (also the salary income-tax rate) */
  const IncomeTaxRate: real := 0.20

  /** Fixed stamp duty deducted from every salary, in AMD */
  const StampDuty: real := 1000.0

  /** Upper bound, inclusive, of the lower social-payment tier, in AMD */
  const SocialTierBound: real := 500000.0

  /** Social payment rates below and above the tier bound */
  const SocialLowRate: real := 0.045
  const SocialHighRate: real := 0.10

  /** VAT rate, 20% */
  const VatRate: real := 0.20

  // ---------------------------------------------------------------------------
  // Income tax

  datatype TaxResult = TaxResult(taxAmount: real, netIncome: real, effectiveRate: real)

  /** `calculateTax`: the tax and the net income split the monthly income
      exactly, and the effective rate (a percentage) is the flat 20 for any
      positive income and 0 otherwise, so it never divides by zero. */
  function Tax(monthlyIncome: real): (r: TaxResult)
    ensures r.taxAmount + r.netIncome == monthlyIncome
    ensures r.taxAmount * 5.0 == monthlyIncome
    ensures monthlyIncome > 0.0 ==> r.effectiveRate == 20.0
    ensures monthlyIncome <= 0.0 ==> r.effectiveRate == 0.0
  {
    var taxAmount := monthlyIncome * IncomeTaxRate;
    var netIncome := monthlyIncome - taxAmount;
    var effectiveRate := if monthlyIncome > 0.0 then (taxAmount / monthlyIncome) * 100.0 else 0.0;
    TaxResult(taxAmount, netIncome, effectiveRate)
  }

  /** The tax handler as the button runs it, on the text of the income field. */
  function TaxHandler(income: Option<real>): (r: TaxResult)
    ensures income.None? ==> r == TaxResult(0.0, 0.0, 0.0)
    ensures r.taxAmount + r.netIncome == income.GetOr(0.0)
    ensures r.taxAmount * 5.0 == income.GetOr(0.0)
    ensures income.GetOr(0.0) > 0.0 ==> r.effectiveRate == 20.0
    ensures income.GetOr(0.0) <= 0.0 ==> r.effectiveRate == 0.0
  {
    Tax(OrZero(income))
  }

  /** Tax never exceeds the income it is taken from, for non-negative income,
      and is never positive on a non-positive income. */
  lemma TaxBounded(monthlyIncome: real)
    ensures monthlyIncome >= 0.0 ==> 0.0 <= Tax(monthlyIncome).taxAmount <= monthlyIncome
    ensures monthlyIncome <= 0.0 ==> Tax(monthlyIncome).taxAmount <= 0.0
    ensures Tax(monthlyIncome).netIncome == 4.0 * Tax(monthlyIncome).taxAmount
  {
  }

  // ---------------------------------------------------------------------------
  // Salary deductions

  datatype SalaryResult = SalaryResult(net: real, incomeTax: real, socialPayment: real, stampDuty: real)

  /** The tiered social payment: 4.5% of the whole gross up to and including
      500000, and above it 4.5% of 500000 plus 10% of the excess. */
  function SocialPayment(grossSalary: real): (s: real)
    ensures grossSalary <= SocialTierBound ==> s * 1000.0 == grossSalary * 45.0
    ensures grossSalary > SocialTierBound ==> s == 22500.0 + (grossSalary - SocialTierBound) / 10.0
  {
    if grossSalary <= SocialTierBound then
      grossSalary * SocialLowRate
    else
      SocialTierBound * SocialLowRate + (grossSalary - SocialTierBound) * SocialHighRate
  }

  /** `calculateSalary`: the four parts add back up to the gross, the stamp
      duty is the fixed 1000 whatever the gross, and the income tax is 20%. */
  function Salary(grossSalary: real): (r: SalaryResult)
    ensures r.net + r.incomeTax + r.socialPayment + r.stampDuty == grossSalary
    ensures r.stampDuty == 1000.0
    ensures r.incomeTax * 5.0 == grossSalary
    ensures r.socialPayment == SocialPayment(grossSalary)
  {
    var incomeTax := grossSalary * IncomeTaxRate;
    var socialPayment := SocialPayment(grossSalary);
    var net := grossSalary - incomeTax - socialPayment - StampDuty;
    SalaryResult(net, incomeTax, socialPayment, StampDuty)
  }

  /** The salary handler as the button runs it, on the text of the gross field. */
  function SalaryHandler(gross: Option<real>): (r: SalaryResult)
    ensures gross.None? ==> r == SalaryResult(-1000.0, 0.0, 0.0, 1000.0)
    ensures r.net + r.incomeTax + r.socialPayment + r.stampDuty == gross.GetOr(0.0)
    ensures r.stampDuty == 1000.0
    ensures r.incomeTax * 5.0 == gross.GetOr(0.0)
    ensures r.socialPayment == SocialPayment(gross.GetOr(0.0))
  {
    Salary(OrZero(gross))
  }

  /** Both tiers give 22500 at the boundary, so the tiering has no jump. */
  lemma SocialPaymentContinuous()
    ensures SocialPayment(SocialTierBound) == 22500.0
    ensures SocialPayment(500001.0) == 22500.1
  {
  }

  /** Continuity stated as a limit: above the bound, the payment exceeds the
      boundary value by exactly 10% of the excess, so it approaches 22500 as
      the gross approaches the bound from above. */
  lemma SocialPaymentNoJump(grossSalary: real, epsilon: real)
    requires epsilon > 0.0
    requires SocialTierBound < grossSalary < SocialTierBound + 10.0 * epsilon
    ensures 0.0 < SocialPayment(grossSalary) - SocialPayment(SocialTierBound) < epsilon
  {
  }

  /** A larger gross never pays less social payment (either tier, across it). */
  lemma SocialPaymentMonotonic(g1: real, g2: real)
    requires g1 <= g2
    ensures SocialPayment(g1) <= SocialPayment(g2)
  {
  }

  /** The social payment of a non-negative gross lies between 4.5% and 10% of it. */
  lemma SocialPaymentBetweenRates(grossSalary: real)
    requires grossSalary >= 0.0
    ensures grossSalary * SocialLowRate <= SocialPayment(grossSalary) <= grossSalary * SocialHighRate
  {
  }

  // ---------------------------------------------------------------------------
  // VAT

  datatype VatResult = VatResult(netAmount: real, vatAmount: real, grossAmount: real)

  /** `calculateVAT`: in either mode the net and the VAT add up to the gross and
      the VAT is 20% of the net; the entered amount is the gross when it
      includes VAT and the net otherwise. */
  function Vat(amount: real, includesVat: bool): (r: VatResult)
    ensures r.netAmount + r.vatAmount == r.grossAmount
    ensures r.vatAmount == VatRate * r.netAmount
    ensures includesVat ==> r.grossAmount == amount
    ensures !includesVat ==> r.netAmount == amount
  {
    if includesVat then
      var grossAmount := amount;
      var netAmount := amount / (1.0 + VatRate);
      var vatAmount := grossAmount - netAmount;
      VatResult(netAmount, vatAmount, grossAmount)
    else
      var netAmount := amount;
      var vatAmount := amount * VatRate;
      var grossAmount := amount + vatAmount;
      VatResult(netAmount, vatAmount, grossAmount)
  }

  /** The VAT handler as the button runs it, on the amount field and the checkbox. */
  function VatHandler(amount: Option<real>, includesVat: bool): (r: VatResult)
    ensures amount.None? ==> r == VatResult(0.0, 0.0, 0.0)
    ensures r.netAmount + r.vatAmount == r.grossAmount
    ensures r.vatAmount == VatRate * r.netAmount
    ensures includesVat ==> r.grossAmount == amount.GetOr(0.0)
    ensures !includesVat ==> r.netAmount == amount.GetOr(0.0)
  {
    Vat(OrZero(amount), includesVat)
  }

  /** A VAT breakdown is determined by its net amount alone. */
  lemma VatDeterminedByNet(a: VatResult, b: VatResult, x: real, ix: bool, y: real, iy: bool)
    requires a == Vat(x, ix) && b == Vat(y, iy)
    requires a.netAmount == b.netAmount
    ensures a == b
  {
  }

  /** Adding VAT to `net` and then extracting it from the resulting gross
      gives back the same breakdown: net `net` and the same VAT. */
  lemma VatExclusiveThenInclusive(net: real)
    ensures Vat(Vat(net, false).grossAmount, true) == Vat(net, false)
    ensures Vat(Vat(net, false).grossAmount, true).netAmount == net
  {
  }

  /** Extracting VAT from `gross` and then adding it back to the net gives
      back the same breakdown: gross `gross` and the same VAT. */
  lemma VatInclusiveThenExclusive(gross: real)
    ensures Vat(Vat(gross, true).netAmount, false) == Vat(gross, true)
    ensures Vat(Vat(gross, true).netAmount, false).grossAmount == gross
  {
  }

  // ---------------------------------------------------------------------------
  // Profit margin

  datatype ProfitResult = ProfitResult(profit: real, margin: real)

  /** `calculateProfit`: the profit is revenue minus cost; the margin is the
      profit as a percentage of a positive revenue, and 0 when the revenue is
      not positive, so it never divides by zero. */
  function Profit(revenue: real, cost: real): (r: ProfitResult)
    ensures r.profit + cost == revenue
    ensures revenue <= 0.0 ==> r.margin == 0.0
    ensures revenue > 0.0 ==> r.margin * revenue == r.profit * 100.0
  {
    var profit := revenue - cost;
    var margin := if revenue > 0.0 then (profit / revenue) * 100.0 else 0.0;
    ProfitResult(profit, margin)
  }

  /** The profit handler as the button runs it, on the two text fields. */
  function ProfitHandler(revenue: Option<real>, cost: Option<real>): (r: ProfitResult)
    ensures r.profit == revenue.GetOr(0.0) - cost.GetOr(0.0)
    ensures revenue.GetOr(0.0) <= 0.0 ==> r.margin == 0.0
    ensures revenue.GetOr(0.0) > 0.0 ==> r.margin * revenue.GetOr(0.0) == r.profit * 100.0
  {
    Profit(OrZero(revenue), OrZero(cost))
  }

  /** For a positive revenue the margin has the sign of the profit: negative
      exactly on a loss, zero exactly at break-even. */
  lemma MarginSignFollowsProfit(revenue: real, cost: real)
    requires revenue > 0.0
    ensures Profit(revenue, cost).margin < 0.0 <==> Profit(revenue, cost).profit < 0.0
    ensures Profit(revenue, cost).margin == 0.0 <==> Profit(revenue, cost).profit == 0.0
  {
  }

  /** With a positive revenue and a non-negative cost the margin is at most
      100%, reached exactly when the cost is zero. */
  lemma MarginAtMostHundred(revenue: real, cost: real)
    requires revenue > 0.0 && cost >= 0.0
    ensures Profit(revenue, cost).margin <= 100.0
    ensures Profit(revenue, cost).margin == 100.0 <==> cost == 0.0
  {
  }

  // ---------------------------------------------------------------------------
  // Worked examples of the four calculators

  lemma CalculatorExamples()
    ensures Tax(500000.0) == TaxResult(100000.0, 400000.0, 20.0)
    ensures Salary(500000.0) == SalaryResult(376500.0, 100000.0, 22500.0, 1000.0)
    ensures Vat(100000.0, false) == VatResult(100000.0, 20000.0, 120000.0)
    ensures Vat(120000.0, true) == VatResult(100000.0, 20000.0, 120000.0)
    ensures Profit(1000000.0, 700000.0) == ProfitResult(300000.0, 30.0)
    ensures Profit(0.0, 700000.0).margin == 0.0
  {
  }
}
