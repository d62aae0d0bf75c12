/**
 * The price arithmetic of src/pages/PricingPage.tsx: the price shown for a
 * plan in each billing cycle, the "Save N%" badge, and the billing-cycle
 * switch.
 *
 * Prices are whole dollars. `Math.round(savings / monthlyCost * 100)` is
 * computed exactly on rationals: the nearest integer, with halves rounded
 * up.
 */
module PricingPage {
  import opened Wrappers
  import opened Strings

  datatype BillingCycle = Monthly | Yearly

  /** The switch between the two cycles. */
  function Toggle(cycle: BillingCycle): (next: BillingCycle)
    ensures next != cycle
  {
    if cycle == Monthly then Yearly else Monthly
  }

  /** Two clicks on the switch restore the cycle. */
  lemma ToggleTwice(cycle: BillingCycle)
    ensures Toggle(Toggle(cycle)) == cycle
  {
  }

  datatype Plan = Plan(id: string, name: string, monthlyPrice: nat, yearlyPrice: nat)

  /** The three plans on offer, with their prices. */
  function Plans(): (plans: seq<Plan>)
    ensures |plans| == 3
  {
    [ Plan("starter", "Starter", 0, 0),
      Plan("growth", "Growth", 29, 290),
      Plan("enterprise", "Enterprise", 99, 990) ]
  }

  const FREE := "Free"

  /** The dollar figure shown: the monthly price, or a twelfth of the yearly price rounded down. */
  function ShownPrice(plan: Plan, cycle: BillingCycle): (price: nat)
    ensures cycle == Monthly ==> price == plan.monthlyPrice
    ensures cycle == Yearly ==> 12 * price <= plan.yearlyPrice < 12 * price + 12
  {
    if cycle == Monthly then plan.monthlyPrice else plan.yearlyPrice / 12
  }

  /** `getPrice`: "Free" for a plan with no monthly price, else "$" and the figure shown. */
  function GetPrice(plan: Plan, cycle: BillingCycle): (text: string)
    ensures text == FREE <==> plan.monthlyPrice == 0
    ensures plan.monthlyPrice != 0 ==>
              && |text| >= 2 && text[0] == '$'
              && (forall i | 1 <= i < |text| :: IsDigit(text[i]))
              && ParseDigits(text[1..]) == ShownPrice(plan, cycle)
  {
    if plan.monthlyPrice == 0 then FREE
    else
      var digits := NatToString(ShownPrice(plan, cycle));
      ParseNatToString(ShownPrice(plan, cycle));
      assert ("$" + digits)[1..] == digits;
      "$" + digits
  }

  /** The yearly shortfall against twelve monthly payments, as a rounded percentage of the latter. */
  function SavingsPercent(plan: Plan): (percent: int)
    requires plan.monthlyPrice > 0
    ensures var monthlyCost, savings := 12 * plan.monthlyPrice, 12 * plan.monthlyPrice - plan.yearlyPrice;
            (2 * percent - 1) * monthlyCost <= 200 * savings < (2 * percent + 1) * monthlyCost
  {
    var monthlyCost := 12 * plan.monthlyPrice;
    var savings := monthlyCost - plan.yearlyPrice;
    (200 * savings + monthlyCost) / (2 * monthlyCost)
  }

  /** `getSavings`: no badge for a free plan, else "Save N%" when the rounded percentage is positive. */
  function GetSavings(plan: Plan): (badge: Option<string>)
    ensures plan.monthlyPrice == 0 ==> badge.None?
    ensures plan.monthlyPrice > 0 ==> (badge.Some? <==> SavingsPercent(plan) > 0)
    ensures badge.Some? ==> plan.monthlyPrice > 0 && badge.value == "Save " + IntToString(SavingsPercent(plan)) + "%"
  {
    if plan.monthlyPrice == 0 then None
    else
      var percent := SavingsPercent(plan);
      if percent > 0 then Some("Save " + IntToString(percent) + "%") else None
  }

  /** A badge appears exactly when the yearly price saves at least half a percent of twelve monthly payments. */
  lemma SavingsShownIff(plan: Plan)
    ensures GetSavings(plan).Some? <==>
            plan.monthlyPrice > 0 && 200 * (12 * plan.monthlyPrice - plan.yearlyPrice) >= 12 * plan.monthlyPrice
  {
    if plan.monthlyPrice > 0 {
      var percent, monthlyCost := SavingsPercent(plan), 12 * plan.monthlyPrice;
      if percent > 0 {
        ScaleMonotone(1, 2 * percent - 1, monthlyCost);
      } else {
        ScaleMonotone(2 * percent + 1, 1, monthlyCost);
      }
    }
  }

  lemma ScaleMonotone(a: int, b: int, m: nat)
    requires a <= b
    ensures a * m <= b * m
  {
  }

  /** A yearly price no lower than twelve monthly payments never earns a badge. */
  lemma NoSavingsWithoutDiscount(plan: Plan)
    requires plan.yearlyPrice >= 12 * plan.monthlyPrice
    ensures GetSavings(plan).None?
  {
    SavingsShownIff(plan);
  }

  /** The badge shown beside a plan: only in the yearly cycle, and only where `getSavings` gives one. */
  function SavingsBadge(plan: Plan, cycle: BillingCycle): (shown: Option<string>)
    ensures cycle == Monthly ==> shown.None?
    ensures cycle == Yearly ==> shown == GetSavings(plan)
  {
    if cycle == Yearly then GetSavings(plan) else None
  }

  /** Starter is free in both cycles and has no badge. */
  lemma StarterIsFree(cycle: BillingCycle)
    ensures GetPrice(Plans()[0], cycle) == FREE
    ensures GetSavings(Plans()[0]).None?
  {
  }

  /** Yearly billing shows Growth at $24 and Enterprise at $82 a month, each saving 17%. */
  lemma YearlyFigures()
    ensures ShownPrice(Plans()[1], Yearly) == 24 && ShownPrice(Plans()[2], Yearly) == 82
    ensures SavingsPercent(Plans()[1]) == 17 && SavingsPercent(Plans()[2]) == 17
  {
  }

  /** Monthly billing shows the list prices. */
  lemma MonthlyFigures()
    ensures ShownPrice(Plans()[1], Monthly) == 29 && ShownPrice(Plans()[2], Monthly) == 99
  {
  }

  /** The yearly Growth card reads "$24" with the badge "Save 17%". */
  lemma GrowthYearlyLabels(growth: Plan)
    requires growth == Plans()[1]
    ensures GetPrice(growth, Yearly) == "$24"
    ensures GetSavings(growth) == Some("Save 17%")
  {
    assert ShownPrice(growth, Yearly) == 24;
    assert NatToString(24) == "24" by { assert NatToString(2) == "2"; }
    assert SavingsPercent(growth) == 17;
    assert IntToString(17) == "17" by { assert NatToString(1) == "1"; }
    assert GetSavings(growth) == Some("Save " + IntToString(17) + "%");
    assert "Save " + "17" + "%" == "Save 17%";
  }
}
