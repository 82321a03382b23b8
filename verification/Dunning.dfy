/**
  Dunning (app/billing/services/dunning.py): the payment-failure schedule of
  one subscription, its in-place updates, and the proof that the schedule ends.
 */
module Dunning {
  import opened Common
  import opened Lifecycle

  /** DUNNING_MAX_ATTEMPTS and DUNNING_BASE_DELAY_MINUTES with their declared ranges. */
  datatype RawSettings = RawSettings(maxAttempts: int, baseMinutes: int)
  type Settings = s: RawSettings | 1 <= s.maxAttempts <= 20 && 1 <= s.baseMinutes <= 43200
    witness RawSettings(4, 60)

  const MINUTE: int := 60
  const MAX_DELAY_MINUTES: int := 7 * 24 * 60

  /** Exponential backoff for schedule position `attempt`, in seconds. */
  function Delay(cfg: Settings, attempt: int): int
  {
    MINUTE * Min(cfg.baseMinutes * Pow2(Max(0, attempt - 1)), MAX_DELAY_MINUTES)
  }

  lemma {:induction false} Pow2Monotone(a: nat, b: nat)
    requires a <= b
    ensures Pow2(a) <= Pow2(b)
  {
    if a < b { Pow2Monotone(a, b - 1); }
  }

  /** The backoff never shrinks and stays between one minute and seven days. */
  lemma DelayIsMonotoneAndBounded(cfg: Settings, i: int, j: int)
    requires i <= j
    ensures MINUTE <= Delay(cfg, i) <= Delay(cfg, j) <= 7 * DAY
  {
    var a, b := Max(0, i - 1), Max(0, j - 1);
    Pow2Monotone(a, b);
    MulMonotone(Pow2(a), Pow2(b), cfg.baseMinutes);
    MulMonotone(1, Pow2(a), cfg.baseMinutes);
  }

  /** The backoff starts at the base and doubles with every position, up to seven days. */
  lemma DelayDoubles(cfg: Settings, n: int)
    requires n >= 1
    ensures Delay(cfg, 1) == Min(60 * cfg.baseMinutes, 604_800)
    ensures Delay(cfg, n + 1) == Min(2 * Delay(cfg, n), 604_800)
  {
    var p := Pow2(n - 1);
    assert Pow2(n) == 2 * p && Pow2(0) == 1;
    assert cfg.baseMinutes * (2 * p) == 2 * (cfg.baseMinutes * p);
  }

  // --------------------------------------------------- one row, as a value

  /** What `reset_dunning` leaves behind. */
  function Cleared(s: Subscription): Subscription
  {
    s.(failures := 0, lastFailureAt := None, nextRetryAt := None)
  }

  /** `record_payment_failure`; None when the status edge to past_due is illegal. */
  function WithFailure(cfg: Settings, s: Subscription, now: int): Option<Subscription>
  {
    if s.status.PastDue? || Allowed(s.status, PastDue) then
      Some(s.(status := PastDue, failures := s.failures + 1, lastFailureAt := Some(now),
              nextRetryAt := Some(now + Delay(cfg, s.failures + 1))))
    else None
  }

  function Recovered(s: Subscription): Subscription
  {
    Cleared(if s.status.PastDue? then s.(status := Active) else s)
  }

  predicate IsDue(s: Subscription, now: int)
  {
    s.status.PastDue? && s.nextRetryAt.Some? && s.nextRetryAt.value <= now
  }

  /** The effect of one sweep at `now` on one row. */
  function Tick(cfg: Settings, s: Subscription, now: int): Subscription
  {
    if !IsDue(s, now) then s
    else if s.failures >= cfg.maxAttempts then
      s.(status := Suspended, suspendedAt := Some(now), nextRetryAt := None)
    else
      s.(failures := s.failures + 1, nextRetryAt := Some(now + Delay(cfg, s.failures + 1)))
  }

  /** No row is due twice at one instant. */
  lemma TickSettles(cfg: Settings, s: Subscription, now: int)
    ensures !IsDue(Tick(cfg, s, now), now)
  {
    DelayIsMonotoneAndBounded(cfg, s.failures + 1, s.failures + 1);
  }

  // ------------------------------------------ one row, as the ORM mutates it

  /** A loaded subscription row; the dunning service assigns its fields in place. */
  class SubscriptionRow {
    var tenant: Option<int>
    var plan: int
    var status: Status
    var periodStart: int
    var periodEnd: int
    var trialEnd: Option<int>
    var cancelAtPeriodEnd: bool
    var pendingPlan: Option<int>
    var canceledAt: Option<int>
    var stripeId: Option<string>
    var failures: nat
    var lastFailureAt: Option<int>
    var nextRetryAt: Option<int>
    var suspendedAt: Option<int>

    function Value(): Subscription
      reads this
    {
      Subscription(tenant, plan, status, periodStart, periodEnd, trialEnd, cancelAtPeriodEnd,
                   pendingPlan, canceledAt, stripeId, failures, lastFailureAt, nextRetryAt, suspendedAt)
    }

    constructor (s: Subscription)
      ensures Value() == s
    {
      tenant, plan, status := s.tenant, s.plan, s.status;
      periodStart, periodEnd, trialEnd := s.periodStart, s.periodEnd, s.trialEnd;
      cancelAtPeriodEnd, pendingPlan, canceledAt := s.cancelAtPeriodEnd, s.pendingPlan, s.canceledAt;
      stripeId, failures, lastFailureAt := s.stripeId, s.failures, s.lastFailureAt;
      nextRetryAt, suspendedAt := s.nextRetryAt, s.suspendedAt;
    }

    /** Clears the dunning fields; reports whether a schedule was running. */
    method ResetDunning() returns (changed: bool)
      modifies this
      ensures Value() == Cleared(old(Value()))
      ensures changed <==> old(failures) != 0 || old(nextRetryAt).Some?
    {
      if failures == 0 && nextRetryAt.None? {
        lastFailureAt := None;
        return false;
      }
      failures := 0;
      lastFailureAt := None;
      nextRetryAt := None;
      return true;
    }

    method RecordPaymentFailure(cfg: Settings, now: int) returns (ok: bool)
      modifies this
      ensures ok <==> WithFailure(cfg, old(Value()), now).Some?
      ensures Value() == if ok then WithFailure(cfg, old(Value()), now).value else old(Value())
    {
      if status != PastDue {
        if !Allowed(status, PastDue) { return false; }
        status := PastDue;
      }
      failures := failures + 1;
      lastFailureAt := Some(now);
      nextRetryAt := Some(now + Delay(cfg, failures));
      return true;
    }

    /** Terminal suspension; suspending twice changes nothing. */
    method Suspend(now: int) returns (ok: bool)
      modifies this
      ensures ok <==> old(status).Suspended? || Allowed(old(status), Suspended)
      ensures Value() == if ok && !old(status).Suspended?
                         then old(Value()).(status := Suspended, suspendedAt := Some(now), nextRetryAt := None)
                         else old(Value())
    {
      if status != Suspended {
        if !Allowed(status, Suspended) { return false; }
        status := Suspended;
        suspendedAt := Some(now);
        nextRetryAt := None;
      }
      return true;
    }

    method Recover()
      modifies this
      ensures Value() == Recovered(old(Value()))
    {
      if status == PastDue {
        status := Active;
      }
      var _ := ResetDunning();
    }
  }

  // ------------------------------------------------- the schedule terminates

  function AfterSweeps(cfg: Settings, s: Subscription, sweeps: seq<int>): Subscription
    decreases |sweeps|
  {
    if sweeps == [] then s else AfterSweeps(cfg, Tick(cfg, s, sweeps[0]), sweeps[1..])
  }

  /** How many of the sweeps find the row due. */
  function DueTicks(cfg: Settings, s: Subscription, sweeps: seq<int>): nat
    decreases |sweeps|
  {
    if sweeps == [] then 0
    else (if IsDue(s, sweeps[0]) then 1 else 0) + DueTicks(cfg, Tick(cfg, s, sweeps[0]), sweeps[1..])
  }

  /** The sweeps follow one another, the first one `from`, by at most `period` seconds. */
  predicate SweptEvery(period: int, from: int, sweeps: seq<int>)
    decreases |sweeps|
  {
    sweeps == [] || (from <= sweeps[0] <= from + period && SweptEvery(period, sweeps[0], sweeps[1..]))
  }

  function LastSweep(from: int, sweeps: seq<int>): int
  {
    if sweeps == [] then from else sweeps[|sweeps| - 1]
  }

  /** Time allowed from schedule position c on: the sum over k = c..max of Delay(k) + period. */
  function Budget(cfg: Settings, c: int, period: int): int
    decreases cfg.maxAttempts - c
  {
    Delay(cfg, c) + period + (if c >= cfg.maxAttempts then 0 else Budget(cfg, c + 1, period))
  }

  /**
    Dunning terminates. Take a past_due row whose next action was scheduled at
    `from`, let sweeps run at least every `period` seconds for long enough, and
    let no payment or failure arrive. Then the row ends up suspended within the
    budget, after exactly max - c + 1 due ticks (one, when c is beyond max).
   */
  lemma DunningTerminates(cfg: Settings, s: Subscription, from: int, period: int, sweeps: seq<int>)
    requires s.status.PastDue? && s.nextRetryAt == Some(from + Delay(cfg, s.failures))
    requires period > 0 && SweptEvery(period, from, sweeps)
    requires LastSweep(from, sweeps) >= from + Budget(cfg, s.failures, period)
    ensures var end := AfterSweeps(cfg, s, sweeps);
      && end.status.Suspended? && end.nextRetryAt.None?
      && end.suspendedAt.Some? && end.suspendedAt.value <= from + Budget(cfg, s.failures, period)
      && end.failures == Max(s.failures, cfg.maxAttempts)
    ensures DueTicks(cfg, s, sweeps) == Max(1, cfg.maxAttempts - s.failures + 1)
  {
    DelayIsMonotoneAndBounded(cfg, s.failures, s.failures);
    SweepsReachSuspension(cfg, s, from, from + Delay(cfg, s.failures), period, sweeps);
  }

  lemma {:induction false} SweepsReachSuspension(
    cfg: Settings, s: Subscription, from: int, due: int, period: int, sweeps: seq<int>)
    requires s.status.PastDue? && s.nextRetryAt == Some(due) && from <= due
    requires period > 0 && SweptEvery(period, from, sweeps)
    requires LastSweep(from, sweeps) >= due - Delay(cfg, s.failures) + Budget(cfg, s.failures, period)
    ensures var end := AfterSweeps(cfg, s, sweeps);
      && end.status.Suspended? && end.nextRetryAt.None?
      && end.suspendedAt.Some?
      && end.suspendedAt.value <= due - Delay(cfg, s.failures) + Budget(cfg, s.failures, period)
      && end.failures == Max(s.failures, cfg.maxAttempts)
    ensures DueTicks(cfg, s, sweeps) == Max(1, cfg.maxAttempts - s.failures + 1)
    decreases |sweeps|
  {
    BudgetCoversDelay(cfg, s.failures, period);
    var t, rest := sweeps[0], sweeps[1..];
    assert LastSweep(t, rest) == LastSweep(from, sweeps);
    if t < due {
      SweepsReachSuspension(cfg, s, t, due, period, rest);
    } else if s.failures >= cfg.maxAttempts {
      SuspensionIsFinal(cfg, Tick(cfg, s, t), rest);
    } else {
      DelayIsMonotoneAndBounded(cfg, s.failures + 1, s.failures + 1);
      SweepsReachSuspension(cfg, Tick(cfg, s, t), t, t + Delay(cfg, s.failures + 1), period, rest);
    }
  }

  lemma {:induction false} BudgetCoversDelay(cfg: Settings, c: int, period: int)
    requires period > 0
    ensures Budget(cfg, c, period) >= Delay(cfg, c) + period
    decreases cfg.maxAttempts - c
  {
    if c < cfg.maxAttempts {
      BudgetCoversDelay(cfg, c + 1, period);
      DelayIsMonotoneAndBounded(cfg, c + 1, c + 1);
    }
  }

  lemma {:induction false} SuspensionIsFinal(cfg: Settings, s: Subscription, sweeps: seq<int>)
    requires s.status.Suspended?
    ensures AfterSweeps(cfg, s, sweeps) == s && DueTicks(cfg, s, sweeps) == 0
    decreases |sweeps|
  {
    if sweeps != [] { SuspensionIsFinal(cfg, s, sweeps[1..]); }
  }
}
