/**
  The pure subscription domain (app/billing/services/billing.py): status
  edges, billing periods and the hybrid proration policy.
 */
module Lifecycle {
  import opened Common
  import opened Rounding

  const DAY: int := 86400

  datatype Status = Trialing | Active | PastDue | Canceled | Suspended

  datatype Interval = Monthly | Yearly

  /** A raw JSON number as found in a plan's metering document. */
  datatype RawNumber = Absent | Number(n: int) | Malformed

  /** A raw metering entry: `{"unit_amount_cents": .., "included_quantity": ..}` or garbage. */
  datatype RawConfig = NotADict | Dict(unit: RawNumber, included: RawNumber)

  datatype Plan = Plan(
    price: nat,
    currency: string,
    interval: Interval,
    trialDays: nat,
    isActive: bool,
    metering: seq<(string, RawConfig)>)

  datatype Subscription = Subscription(
    tenant: Option<int>,
    plan: int,
    status: Status,
    periodStart: int,
    periodEnd: int,
    trialEnd: Option<int>,
    cancelAtPeriodEnd: bool,
    pendingPlan: Option<int>,
    canceledAt: Option<int>,
    stripeId: Option<string>,
    failures: nat,
    lastFailureAt: Option<int>,
    nextRetryAt: Option<int>,
    suspendedAt: Option<int>)
  {
    predicate Live() { status.Trialing? || status.Active? || status.PastDue? }
  }

  /** The edges of ALLOWED_TRANSITIONS; `assert_transition` raises off them. */
  predicate Allowed(current: Status, target: Status)
  {
    match current
    case Trialing => target.Active? || target.PastDue? || target.Canceled?
    case Active => target.PastDue? || target.Canceled?
    case PastDue => target.Active? || target.Canceled? || target.Suspended?
    case Canceled => false
    case Suspended => false
  }

  /**
    What the edges mean: dead states are final, nothing leads into a trial, every
    live row can be canceled or become past due, and only a past due one can
    recover or be suspended (a trial can also turn active).
   */
  lemma EdgesOfTheMachine(s: Status)
    ensures (forall t :: !Allowed(s, t)) <==> s.Canceled? || s.Suspended?
    ensures !Allowed(s, Trialing) && !Allowed(s, s)
    ensures Allowed(s, Canceled) <==> s.Trialing? || s.Active? || s.PastDue?
    ensures Allowed(s, PastDue) <==> s.Trialing? || s.Active?
    ensures Allowed(s, Active) <==> s.Trialing? || s.PastDue?
    ensures Allowed(s, Suspended) <==> s.PastDue?
  {
    assert s.Trialing? || s.Active? || s.PastDue? ==> Allowed(s, Canceled);
  }

  function NextPeriodEnd(plan: Plan, start: int): (end: int)
    ensures start < end
  {
    start + (match plan.interval case Monthly => 30 * DAY case Yearly => 365 * DAY)
  }

  // ---------------------------------------------------------------- proration

  datatype Fraction = Fraction(num: int, den: int)

  /** The unelapsed share of a period, clamped to [0, 1]; an empty period has none. */
  function FractionRemaining(start: int, end: int, now: int): (f: Fraction)
    ensures f.den > 0 && 0 <= f.num <= f.den
  {
    var total := end - start;
    if total <= 0 then Fraction(0, 1)
    else Fraction(Max(0, Min(total, end - now)), total)
  }

  /** Shared by `compute_unused_credit` and `compute_prorated_charge`. */
  function ProratedCents(plan: Plan, start: int, end: int, now: int): int
  {
    var f := FractionRemaining(start, end, now);
    RoundHalfEven(plan.price * f.num, f.den)
  }

  datatype Preview = Preview(credit: int, charge: int, net: int)

  datatype PlanChange =
    | CrossCurrency
    | Immediate(preview: Preview)
    | AtPeriodEnd

  function DecidePlanChange(current: Plan, next: Plan, sub: Subscription, now: int): PlanChange
  {
    if next.currency != current.currency then CrossCurrency
    else if next.price > current.price then
      var credit := ProratedCents(current, sub.periodStart, sub.periodEnd, now);
      var charge := ProratedCents(next, sub.periodStart, sub.periodEnd, now);
      Immediate(Preview(credit, charge, charge - credit))
    else AtPeriodEnd
  }

  /** The remaining share never grows as time passes. */
  lemma FractionNeverGrows(start: int, end: int, t1: int, t2: int)
    requires t1 <= t2
    ensures FractionRemaining(start, end, t1).den == FractionRemaining(start, end, t2).den
    ensures FractionRemaining(start, end, t2).num <= FractionRemaining(start, end, t1).num
  {
  }

  /** The part of the period still ahead, with `now` clamped to the period. */
  function TimeLeft(start: int, end: int, now: int): int
  {
    if now <= start then end - start else if now >= end then 0 else end - now
  }

  /** The share is exactly the time left over the length of the period. */
  lemma FractionIsTheShareLeft(start: int, end: int, now: int)
    requires start < end
    ensures var f := FractionRemaining(start, end, now); f.num * (end - start) == TimeLeft(start, end, now) * f.den
  {
  }

  /**
    What a plan change costs: an upgrade in the same currency is prorated to the
    nearest cent of price times time left over period length, for the old plan as
    credit and for the new one as charge; nothing is left of an empty period.
   */
  lemma PlanChangeIsProrated(current: Plan, next: Plan, sub: Subscription, now: int)
    ensures var d := DecidePlanChange(current, next, sub, now);
      var left, length := TimeLeft(sub.periodStart, sub.periodEnd, now), sub.periodEnd - sub.periodStart;
      && (d.CrossCurrency? <==> next.currency != current.currency)
      && (d.Immediate? <==> next.currency == current.currency && next.price > current.price)
      && (d.Immediate? ==> d.preview.net == d.preview.charge - d.preview.credit)
      && (d.Immediate? && length > 0 ==>
            && IsNearestEven(current.price * left, length, d.preview.credit)
            && IsNearestEven(next.price * left, length, d.preview.charge))
      && (d.Immediate? && length <= 0 ==> d.preview.credit == d.preview.charge == 0)
  {
    var d := DecidePlanChange(current, next, sub, now);
    var left, length := TimeLeft(sub.periodStart, sub.periodEnd, now), sub.periodEnd - sub.periodStart;
    if d.Immediate? && length > 0 {
      RoundIsTheNearest(current.price * left, length, d.preview.credit);
      RoundIsTheNearest(next.price * left, length, d.preview.charge);
    }
  }

  /** A month is thirty days, a year 365. */
  lemma PeriodLengths(plan: Plan, start: int)
    ensures NextPeriodEnd(plan, start) - start == if plan.interval.Yearly? then 31_536_000 else 2_592_000
  {
  }

  /** Neither a credit nor a charge ever grows as time passes. */
  lemma ProrationNeverGrows(plan: Plan, start: int, end: int, t1: int, t2: int)
    requires t1 <= t2
    ensures 0 <= ProratedCents(plan, start, end, t2) <= ProratedCents(plan, start, end, t1) <= plan.price
  {
    var f1, f2 := FractionRemaining(start, end, t1), FractionRemaining(start, end, t2);
    MulMonotone(f2.num, f1.num, plan.price);
    MulMonotone(0, f2.num, plan.price);
    MulMonotone(f1.num, f1.den, plan.price);
    RoundMonotone(plan.price * f2.num, plan.price * f1.num, f1.den);
    RoundMonotone(0, plan.price * f2.num, f1.den);
    RoundMonotone(plan.price * f1.num, plan.price * f1.den, f1.den);
    RoundExact(0, f1.den);
    RoundExact(plan.price, f1.den);
  }

  /** Rounding the two amounts separately costs less than one cent on a partial period. */
  lemma RoundedDifference(a: nat, b: nat, num: int, den: int)
    requires a < b && 0 <= num <= den && den > 0
    ensures 0 <= RoundHalfEven(b * num, den) - RoundHalfEven(a * num, den) <= b - a
  {
    MulMonotone(a, b, num);
    RoundMonotone(a * num, b * num, den);
    if num == den {
      RoundExact(a, den);
      RoundExact(b, den);
    } else {
      var x, y := RoundHalfEven(a * num, den), RoundHalfEven(b * num, den);
      RoundIsTheNearest(a * num, den, x);
      RoundIsTheNearest(b * num, den, y);
      PartialPeriodGap(a, b, num, den, x, y);
    }
  }

  /** With errors of at most den/2 each, x and y cannot drift more than b - a apart. */
  lemma PartialPeriodGap(a: nat, b: nat, num: int, den: int, x: int, y: int)
    requires a < b && 0 <= num < den
    requires 2 * (a * num - x * den) <= den
    requires 2 * (y * den - b * num) <= den
    ensures y - x <= b - a
  {
    var k, g := b - a, y - x;
    assert b * num - a * num == k * num;
    assert y * den - x * den == g * den;
    MulMonotone(num, den - 1, k);
    assert (den - 1) * k == k * den - k;
    // g * den <= k * num + den < (k + 1) * den
    assert g * den < k * den + den;
    assert (k + 1) * den == k * den + den;
    if k + 1 <= g {
      MulMonotone(k + 1, g, den);
    }
  }

  /**
    Main proration result: an upgrade at any instant, in any period, never
    refunds money and never charges more than the price difference; at the
    start of the period it charges exactly that difference, at the end nothing.
   */
  lemma UpgradeNetIsBounded(current: Plan, next: Plan, sub: Subscription, now: int)
    requires DecidePlanChange(current, next, sub, now).Immediate?
    ensures var p := DecidePlanChange(current, next, sub, now).preview;
      && 0 <= p.net <= next.price - current.price
      && p.net == p.charge - p.credit
      && 0 <= p.credit <= current.price
      && 0 <= p.charge <= next.price
      && (sub.periodStart < sub.periodEnd && now <= sub.periodStart ==> p.net == next.price - current.price)
      && (sub.periodEnd <= now ==> p.net == 0)
  {
    var s, e := sub.periodStart, sub.periodEnd;
    var f := FractionRemaining(s, e, now);
    RoundedDifference(current.price, next.price, f.num, f.den);
    ProrationNeverGrows(current, s, e, now, now);
    ProrationNeverGrows(next, s, e, now, now);
    RoundExact(current.price, f.den);
    RoundExact(next.price, f.den);
    RoundExact(0, f.den);
  }
}
