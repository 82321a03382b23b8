/** Account lockout in `authenticate_user` (app/core/security.py). */
module Lockout {
  import opened Common

  /** MAX_LOGIN_ATTEMPTS and the lockout length in seconds. */
  datatype Policy = Policy(maxAttempts: int, lockout: int)

  datatype Account = Account(failures: int, lockedUntil: Option<int>)

  datatype Verdict = LockedOut | Failed | LoggedIn

  /** `user.locked_until and user.locked_until > now`. */
  predicate Locked(acc: Account, now: int) { acc.lockedUntil.Some? && acc.lockedUntil.value > now }

  /** One attempt at `now`; `correct` is the verdict of the password check, if it runs. */
  function Attempt(p: Policy, acc: Account, now: int, correct: bool): (Account, Verdict)
  {
    if Locked(acc, now) then (acc, LockedOut)
    else if correct then (Account(0, None), LoggedIn)
    else
      var n := acc.failures + 1;
      (Account(n, if n >= p.maxAttempts then Some(now + p.lockout) else acc.lockedUntil), Failed)
  }

  class User {
    var failedLoginAttempts: int
    var lockedUntil: Option<int>
    var lastLoginAt: Option<int>

    function Value(): Account
      reads this
    {
      Account(failedLoginAttempts, lockedUntil)
    }

    method Authenticate(p: Policy, now: int, correct: bool) returns (v: Verdict)
      modifies this
      ensures (Value(), v) == Attempt(p, old(Value()), now, correct)
      ensures lastLoginAt == if v.LoggedIn? then Some(now) else old(lastLoginAt)
    {
      if lockedUntil.Some? && lockedUntil.value > now { return LockedOut; }
      if !correct {
        failedLoginAttempts := failedLoginAttempts + 1;
        if failedLoginAttempts >= p.maxAttempts { lockedUntil := Some(now + p.lockout); }
        return Failed;
      }
      failedLoginAttempts := 0;
      lockedUntil := None;
      lastLoginAt := Some(now);
      return LoggedIn;
    }
  }

  // -------------------------------------------------------------- whole runs

  /** A run is a sequence of attempts (instant, is the password right). */
  type Run = seq<(int, bool)>

  predicate NoLogin(p: Policy, acc: Account, run: Run)
    decreases |run|
  {
    run == [] ||
    var (next, v) := Attempt(p, acc, run[0].0, run[0].1);
    !v.LoggedIn? && NoLogin(p, next, run[1..])
  }

  /** Password checks that were evaluated at instants in [a, b]. */
  function ChecksWithin(p: Policy, acc: Account, run: Run, a: int, b: int): nat
    decreases |run|
  {
    if run == [] then 0
    else
      var (next, v) := Attempt(p, acc, run[0].0, run[0].1);
      ChecksWithin(p, next, run[1..], a, b) + if !v.LockedOut? && a <= run[0].0 <= b then 1 else 0
  }

  /** Evaluations that fit in [x, b] at one per lockout. */
  function Slots(p: Policy, x: int, b: int): int
    requires p.lockout > 0
  {
    if b < x then 0 else (b - x) / p.lockout + 1
  }

  function EarliestCheck(acc: Account, a: int): int
  {
    if acc.lockedUntil.Some? then Max(a, acc.lockedUntil.value) else a
  }

  lemma DivMonotone(m: int, n: int, d: int)
    requires 0 <= m <= n && d > 0
    ensures 0 <= m / d <= n / d
  {
    var p, q := m / d, n / d;
    assert m == p * d + m % d && n == q * d + n % d;
    assert (q + 1) * d == q * d + d;
    if q + 1 <= p { MulMonotone(q + 1, p, d); }
  }

  lemma DivOneStep(n: int, d: int)
    requires d > 0
    ensures (n - d) / d == n / d - 1
  {
    var p, q := (n - d) / d, n / d;
    assert n - d == p * d + (n - d) % d && n == q * d + n % d;
    assert (p + 1) * d == p * d + d && (q + 1) * d == q * d + d && (p + 2) * d == p * d + 2 * d;
    if q + 1 <= p + 1 { MulMonotone(q + 1, p + 1, d); }
    if p + 2 <= q { MulMonotone(p + 2, q, d); }
  }

  lemma SlotsShrink(p: Policy, x: int, y: int, b: int)
    requires p.lockout > 0 && x <= y
    ensures 0 <= Slots(p, y, b) <= Slots(p, x, b)
    ensures y >= x + p.lockout && x <= b ==> Slots(p, y, b) + 1 <= Slots(p, x, b)
  {
    var l := p.lockout;
    if x <= b { DivMonotone(0, b - x, l); }
    if y <= b {
      DivMonotone(b - y, b - x, l);
      if y >= x + l {
        DivMonotone(b - y, b - x - l, l);
        DivOneStep(b - x, l);
      }
    }
  }

  lemma {:induction false} ChecksFitThePotential(p: Policy, acc: Account, run: Run, a: int, b: int)
    requires p.lockout > 0 && NoLogin(p, acc, run)
    ensures ChecksWithin(p, acc, run, a, b)
         <= Max(0, p.maxAttempts - 1 - acc.failures) + Slots(p, EarliestCheck(acc, a), b)
    decreases |run|
  {
    SlotsShrink(p, EarliestCheck(acc, a), EarliestCheck(acc, a), b);
    if run != [] {
      var now := run[0].0;
      var next := Attempt(p, acc, now, run[0].1).0;
      ChecksFitThePotential(p, next, run[1..], a, b);
      if !Locked(acc, now) && acc.failures + 1 >= p.maxAttempts {
        var x := EarliestCheck(acc, a);
        if x <= now {
          SlotsShrink(p, x, now, b);
          SlotsShrink(p, now, now + p.lockout, b);
        } else {
          SlotsShrink(p, x, EarliestCheck(next, a), b);
        }
      }
    }
  }

  /**
    Main result: in a run with no successful login, started from any state, the
    password checks evaluated in [a, b] number at most
    (max - 1) + floor((b - a) / lockout) + 1.
   */
  lemma ChecksAreRationed(p: Policy, acc: Account, run: Run, a: int, b: int)
    requires p.lockout > 0 && p.maxAttempts >= 1 && acc.failures >= 0 && a <= b
    requires NoLogin(p, acc, run)
    ensures ChecksWithin(p, acc, run, a, b) <= (p.maxAttempts - 1) + (b - a) / p.lockout + 1
  {
    ChecksFitThePotential(p, acc, run, a, b);
    SlotsShrink(p, a, EarliestCheck(acc, a), b);
  }

  // -------------------------------------------------- the account as its history

  function StateAfter(p: Policy, acc: Account, run: Run): Account
  {
    if run == [] then acc
    else
      var last := run[|run| - 1];
      Attempt(p, StateAfter(p, acc, run[..|run| - 1]), last.0, last.1).0
  }

  function LastVerdict(p: Policy, acc: Account, run: Run): Verdict
    requires run != []
  {
    var last := run[|run| - 1];
    Attempt(p, StateAfter(p, acc, run[..|run| - 1]), last.0, last.1).1
  }

  /** Failed password checks since the last login. */
  function FailuresSinceLogin(p: Policy, acc: Account, run: Run): nat
  {
    if run == [] || LastVerdict(p, acc, run).LoggedIn? then 0
    else FailuresSinceLogin(p, acc, run[..|run| - 1]) + if LastVerdict(p, acc, run).Failed? then 1 else 0
  }

  /** The instant of the last of them. */
  function LastFailure(p: Policy, acc: Account, run: Run): Option<int>
  {
    if run == [] || LastVerdict(p, acc, run).LoggedIn? then None
    else if LastVerdict(p, acc, run).Failed? then Some(run[|run| - 1].0)
    else LastFailure(p, acc, run[..|run| - 1])
  }

  const NEW_ACCOUNT: Account := Account(0, None)

  /** The lock is on: max failures since the last login, and the last of them less than a lockout ago. */
  predicate LockedByHistory(p: Policy, run: Run, now: int)
  {
    var last := LastFailure(p, NEW_ACCOUNT, run);
    FailuresSinceLogin(p, NEW_ACCOUNT, run) >= p.maxAttempts && last.Some? && now < last.value + p.lockout
  }

  /** Over every run: a login resets the account, and no lock is set before max failures since the last login. */
  lemma {:induction false} AccountIsItsHistory(p: Policy, run: Run)
    ensures var n, last := FailuresSinceLogin(p, NEW_ACCOUNT, run), LastFailure(p, NEW_ACCOUNT, run);
      && StateAfter(p, NEW_ACCOUNT, run)
         == Account(n, if n >= p.maxAttempts && last.Some? then Some(last.value + p.lockout) else None)
      && (last.Some? <==> n > 0)
    decreases |run|
  {
    if run != [] { AccountIsItsHistory(p, run[..|run| - 1]); }
  }

  /** Over every run, the next attempt is refused, fails or logs in exactly as the history says. */
  lemma VerdictsFollowTheHistory(p: Policy, run: Run, now: int, correct: bool)
    ensures var (next, v) := Attempt(p, StateAfter(p, NEW_ACCOUNT, run), now, correct);
      && (v.LockedOut? <==> LockedByHistory(p, run, now))
      && (v.LoggedIn? <==> !LockedByHistory(p, run, now) && correct)
      && (v.LoggedIn? ==> next == NEW_ACCOUNT)
      && (v.LockedOut? ==> next == StateAfter(p, NEW_ACCOUNT, run))
  {
    AccountIsItsHistory(p, run);
  }
}
