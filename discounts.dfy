/**
 * `calculate_remaining_discount_cycles`: how many billing cycles a subscription's
 * discount still applies to, estimated from the calendar time elapsed since the
 * discount started. The current instant is a parameter instead of `utcnow()`.
 */
module Discounts {
  import opened Options

  const MicrosPerSecond := 1_000_000
  const MicrosPerDay := 86_400 * MicrosPerSecond

  /**
   * A UTC instant: microseconds since the Unix epoch (the resolution of Python's
   * datetime) and the calendar year and month (1-12) it falls in.
   */
  datatype Instant = Instant(micros: int, year: int, month: int)

  /** a is not later than b, and the calendar fields agree with that. */
  predicate NotAfter(a: Instant, b: Instant) {
    && a.micros <= b.micros
    && a.year <= b.year
    && a.year * 12 + a.month <= b.year * 12 + b.month
  }

  /** A coupon's duration policy: 'forever', 'repeating' (for durationInMonths months) or 'once'. */
  datatype Coupon = Coupon(duration: string, durationInMonths: int)
  datatype Discount = Discount(id: string, start: Instant, coupon: Coupon)
  /** The billing interval ('day', 'week', 'month', 'year') and how many of them make one cycle. */
  datatype Plan = Plan(interval: string, intervalCount: int)

  /** The remaining-cycles cell: empty without a discount, the infinity sign, or a count. */
  datatype Cycles = NoCycles | Unlimited | Remaining(count: nat)

  /** The pair `(discount_id, remaining_cycles)`. */
  datatype DiscountCycles = DiscountCycles(discountId: string, cycles: Cycles)

  /** `(b - a).days`: whole days from a to b, rounded towards minus infinity. */
  function ElapsedDays(a: Instant, b: Instant): (days: int)
    ensures days * MicrosPerDay <= b.micros - a.micros < (days + 1) * MicrosPerDay
  {
    (b.micros - a.micros) / MicrosPerDay
  }

  /** Days per billing cycle for intervals other than 'month' and 'year'. */
  function BillingDays(plan: Plan): (days: int)
    requires plan.intervalCount >= 1
    ensures days >= plan.intervalCount >= 1
  {
    if plan.interval == "week" then plan.intervalCount * 7 else plan.intervalCount
  }

  lemma FloorDivision(x: int, d: int, q: int)
    requires d >= 1
    requires q == x / d
    ensures q * d <= x < (q + 1) * d
  {
  }

  lemma DivMonotone(x: int, y: int, d: int)
    requires d >= 1 && x <= y
    ensures x / d <= y / d
  {
    FloorDivision(x, d, x / d);
    FloorDivision(y, d, y / d);
  }

  /**
   * Billing cycles consumed between the discount start and now: whole calendar
   * months for monthly plans, whole calendar years for yearly plans (interval_count
   * is not consulted for either), otherwise elapsed days divided by the cycle length.
   */
  function CyclesUsed(plan: Plan, start: Instant, now: Instant): (used: int)
    requires plan.intervalCount >= 1
    ensures plan.interval == "month" ==> used == (now.year * 12 + now.month) - (start.year * 12 + start.month)
    ensures plan.interval == "year" ==> used == now.year - start.year
    ensures plan.interval != "month" && plan.interval != "year" ==>
      used * BillingDays(plan) <= ElapsedDays(start, now) < (used + 1) * BillingDays(plan)
    ensures NotAfter(start, now) ==> used >= 0
  {
    if plan.interval == "month" then
      (now.year - start.year) * 12 + (now.month - start.month)
    else if plan.interval == "year" then
      now.year - start.year
    else
      var used := ElapsedDays(start, now) / BillingDays(plan);
      FloorDivision(ElapsedDays(start, now), BillingDays(plan), used);
      used
  }

  /** Cycles the coupon entitles to: its month count when repeating, otherwise one. */
  function Entitled(coupon: Coupon): int {
    if coupon.duration == "repeating" then coupon.durationInMonths else 1
  }

  /** `calculate_remaining_discount_cycles(subscription)` with the current instant passed in. */
  function RemainingDiscountCycles(discount: Option<Discount>, plan: Plan, now: Instant): (r: DiscountCycles)
    requires plan.intervalCount >= 1
    ensures discount.None? ==> r == DiscountCycles("", NoCycles)
    ensures discount.Some? ==> r.discountId == discount.value.id && !r.cycles.NoCycles?
    ensures r.cycles.Unlimited? <==> discount.Some? && discount.value.coupon.duration == "forever"
    ensures r.cycles.Remaining? ==>
      var used := CyclesUsed(plan, discount.value.start, now);
      var total := Entitled(discount.value.coupon);
      && r.cycles.count >= total - used
      && (r.cycles.count == 0 || r.cycles.count == total - used)
  {
    match discount
    case None => DiscountCycles("", NoCycles)
    case Some(d) =>
      if d.coupon.duration == "forever" then
        DiscountCycles(d.id, Unlimited)
      else
        var remaining := Entitled(d.coupon) - CyclesUsed(plan, d.start, now);
        DiscountCycles(d.id, Remaining(if remaining < 0 then 0 else remaining))
  }

  /** A forever coupon reports the infinity sign whatever the dates. */
  lemma ForeverIgnoresDates(d: Discount, plan: Plan, now1: Instant, now2: Instant)
    requires plan.intervalCount >= 1
    requires d.coupon.duration == "forever"
    ensures RemainingDiscountCycles(Some(d), plan, now1) == RemainingDiscountCycles(Some(d), plan, now2)
    ensures RemainingDiscountCycles(Some(d), plan, now1) == DiscountCycles(d.id, Unlimited)
  {
  }

  /** Once the discount has started, the estimate never exceeds the entitlement. */
  lemma RemainingWithinEntitlement(d: Discount, plan: Plan, now: Instant)
    requires plan.intervalCount >= 1
    requires NotAfter(d.start, now)
    requires d.coupon.duration != "forever"
    ensures RemainingDiscountCycles(Some(d), plan, now).cycles.Remaining?
    ensures RemainingDiscountCycles(Some(d), plan, now).cycles.count <= Entitled(d.coupon) ||
            RemainingDiscountCycles(Some(d), plan, now).cycles.count == 0
  {
  }

  lemma CyclesUsedMonotone(plan: Plan, start: Instant, now1: Instant, now2: Instant)
    requires plan.intervalCount >= 1
    requires NotAfter(now1, now2)
    ensures CyclesUsed(plan, start, now1) <= CyclesUsed(plan, start, now2)
  {
    if plan.interval != "month" && plan.interval != "year" {
      var e1, e2 := ElapsedDays(start, now1), ElapsedDays(start, now2);
      DivMonotone(now1.micros - start.micros, now2.micros - start.micros, MicrosPerDay);
      DivMonotone(e1, e2, BillingDays(plan));
    }
  }

  /** As time passes the remaining cycle count never grows. */
  lemma RemainingNeverGrows(d: Discount, plan: Plan, now1: Instant, now2: Instant)
    requires plan.intervalCount >= 1
    requires NotAfter(now1, now2)
    requires d.coupon.duration != "forever"
    ensures RemainingDiscountCycles(Some(d), plan, now2).cycles.count
         <= RemainingDiscountCycles(Some(d), plan, now1).cycles.count
  {
    CyclesUsedMonotone(plan, d.start, now1, now2);
  }

  /** A repeating coupon of three months on a monthly plan: one cycle left after two months, none after four. */
  lemma RepeatingThreeMonths(d: Discount, plan: Plan, now: Instant)
    requires plan == Plan("month", 1)
    requires d.coupon == Coupon("repeating", 3)
    ensures now.year * 12 + now.month == d.start.year * 12 + d.start.month + 2 ==>
      RemainingDiscountCycles(Some(d), plan, now) == DiscountCycles(d.id, Remaining(1))
    ensures now.year * 12 + now.month == d.start.year * 12 + d.start.month + 4 ==>
      RemainingDiscountCycles(Some(d), plan, now) == DiscountCycles(d.id, Remaining(0))
  {
  }
}
