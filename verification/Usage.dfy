/**
  Usage metering (app/billing/services/usage.py) and the request quota
  (app/billing/api/deps.py). Instants are integer microseconds here, because
  the counter's lifetime is cut to whole seconds.
 */
module Usage {
  import opened Common
  import opened CursorCodec

  const SECOND: int := 1_000_000
  const GRACE_SECONDS: int := 3600
  const MIN_TTL_SECONDS: int := 60

  /** Python's `int(x)` of a number of seconds: truncation toward zero. */
  function WholeSeconds(micros: int): int
  {
    if micros >= 0 then micros / SECOND else -((-micros) / SECOND)
  }

  type Key = string

  /** `counter_key`; the period start enters it as whole seconds. */
  function CounterKey(tenant: int, dimension: string, periodStart: int): Key
  {
    "billing:usage:" + (PrintInt(tenant) + ":" + (dimension + ":" + PrintInt(WholeSeconds(periodStart))))
  }

  predicate NoColon(s: string) { forall i | 0 <= i < |s| :: s[i] != ':' }

  lemma {:induction false} DigitsHaveNoColon(n: nat)
    ensures NoColon(Digits(n))
    decreases n
  {
    if n >= 10 { DigitsHaveNoColon(n / 10); }
  }

  lemma PrintedIntHasNoColon(n: int)
    ensures NoColon(PrintInt(n))
  {
    DigitsHaveNoColon(if n < 0 then -n else n);
  }

  lemma PrintIsInjective(m: int, n: int)
    requires PrintInt(m) == PrintInt(n)
    ensures m == n
  {
    IntRoundTrip(m);
    IntRoundTrip(n);
  }

  /** The text before the first colon, and the text after it. */
  lemma SplitAtFirstColon(a: string, x: string, b: string, y: string)
    requires a + ":" + x == b + ":" + y && NoColon(a) && NoColon(b)
    ensures a == b && x == y
  {
    var l, r := a + ":" + x, b + ":" + y;
    assert l[|a|] == ':' && r[|b|] == ':';
    assert |a| == |b|;
    assert l[..|a|] == a && r[..|b|] == b;
    assert l[|a| + 1..] == x && r[|b| + 1..] == y;
  }

  /** The text after the last colon, and the text before it. */
  lemma SplitAtLastColon(x: string, a: string, y: string, b: string)
    requires x + ":" + a == y + ":" + b && NoColon(a) && NoColon(b)
    ensures a == b && x == y
  {
    var l, r := x + ":" + a, y + ":" + b;
    assert l[|x|] == ':' && r[|y|] == ':';
    assert |x| == |y|;
    assert l[..|x|] == x && r[..|y|] == y;
    assert l[|x| + 1..] == a && r[|y| + 1..] == b;
  }

  /** Two counters share a key exactly when tenant, dimension and period start (in whole seconds) agree. */
  lemma KeysAreDistinct(t1: int, d1: string, p1: int, t2: int, d2: string, p2: int)
    ensures CounterKey(t1, d1, p1) == CounterKey(t2, d2, p2)
       <==> t1 == t2 && d1 == d2 && WholeSeconds(p1) == WholeSeconds(p2)
  {
    hide PrintInt, WholeSeconds;
    if CounterKey(t1, d1, p1) == CounterKey(t2, d2, p2) {
      var w1, w2 := PrintInt(WholeSeconds(p1)), PrintInt(WholeSeconds(p2));
      var x, y := PrintInt(t1) + ":" + (d1 + ":" + w1), PrintInt(t2) + ":" + (d2 + ":" + w2);
      assert CounterKey(t1, d1, p1)[14..] == x && CounterKey(t2, d2, p2)[14..] == y;
      PrintedIntHasNoColon(t1);
      PrintedIntHasNoColon(t2);
      SplitAtFirstColon(PrintInt(t1), d1 + ":" + w1, PrintInt(t2), d2 + ":" + w2);
      PrintedIntHasNoColon(WholeSeconds(p1));
      PrintedIntHasNoColon(WholeSeconds(p2));
      SplitAtLastColon(d1, w1, d2, w2);
      PrintIsInjective(t1, t2);
      PrintIsInjective(WholeSeconds(p1), WholeSeconds(p2));
    }
  }

  /** `ttl_for`, in seconds. */
  function TtlFor(periodEnd: int, now: int): int
  {
    Max(MIN_TTL_SECONDS, WholeSeconds(periodEnd - now) + GRACE_SECONDS)
  }

  datatype Cell = Cell(value: int, expiresAt: int)

  /** What Redis returns for a key at `now`; an expired key is gone. */
  function Reading(cells: map<Key, Cell>, key: Key, now: int): int
  {
    if key in cells && now < cells[key].expiresAt then cells[key].value else 0
  }

  /** An increment and the instant it runs. */
  datatype Increment = Increment(
    tenant: int, dimension: string, periodStart: int, periodEnd: int, amount: int, at: int)
  {
    function Key(): Key { CounterKey(tenant, dimension, periodStart) }

    /** It counts for this tenant, dimension and period. */
    predicate CountsFor(t: int, d: string, start: int)
    {
      tenant == t && dimension == d && WholeSeconds(periodStart) == WholeSeconds(start)
    }
  }

  function Bumped(cells: map<Key, Cell>, op: Increment): map<Key, Cell>
  {
    cells[op.Key() := Cell(Reading(cells, op.Key(), op.at) + op.amount, op.at + TtlFor(op.periodEnd, op.at) * SECOND)]
  }

  class Counters {
    var cells: map<Key, Cell>

    constructor ()
      ensures cells == map[]
    {
      cells := map[];
    }

    /** INCRBY and EXPIRE in one pipeline; None when Redis is down. */
    method Bump(tenant: int, dimension: string, periodStart: int, periodEnd: int, amount: int, now: int, up: bool)
      returns (value: Option<int>)
      modifies this
      ensures !up ==> value.None? && cells == old(cells)
      ensures up ==>
        var key := CounterKey(tenant, dimension, periodStart);
        && cells == Bumped(old(cells), Increment(tenant, dimension, periodStart, periodEnd, amount, now))
        && value == Some(Reading(old(cells), key, now) + amount)
    {
      if !up { return None; }
      var key := CounterKey(tenant, dimension, periodStart);
      var current := 0;
      if key in cells && now < cells[key].expiresAt { current := cells[key].value; }
      cells := cells[key := Cell(current + amount, now + TtlFor(periodEnd, now) * SECOND)];
      return Some(current + amount);
    }

    /** Reads fail open to zero. */
    method GetUsage(tenant: int, dimension: string, periodStart: int, now: int, up: bool) returns (value: int)
      ensures value == if up then Reading(cells, CounterKey(tenant, dimension, periodStart), now) else 0
    {
      var key := CounterKey(tenant, dimension, periodStart);
      if !up || key !in cells || cells[key].expiresAt <= now { return 0; }
      return cells[key].value;
    }
  }

  // ------------------------------------------------ the plain counter behind it

  predicate InOrder(ops: seq<Increment>)
  {
    forall i, j | 0 <= i < j < |ops| :: ops[i].at <= ops[j].at
  }

  function CellsAfter(ops: seq<Increment>): map<Key, Cell>
  {
    if ops == [] then map[] else Bumped(CellsAfter(ops[..|ops| - 1]), ops[|ops| - 1])
  }

  /** The plain counter: the sum of all increments of the tenant, dimension and period. */
  function Total(ops: seq<Increment>, t: int, d: string, start: int): int
  {
    if ops == [] then 0
    else
      var last := ops[|ops| - 1];
      Total(ops[..|ops| - 1], t, d, start) + if last.CountsFor(t, d, start) then last.amount else 0
  }

  /** `now` is at least one second before the grace period of every such increment runs out. */
  predicate InGrace(ops: seq<Increment>, t: int, d: string, start: int, now: int)
  {
    forall i | 0 <= i < |ops| && ops[i].CountsFor(t, d, start) ::
      now <= ops[i].periodEnd + 3_599_000_000
  }

  /** The counter outlives the grace period up to the truncated second. */
  lemma CounterOutlivesGrace(periodEnd: int, at: int, now: int)
    requires now <= periodEnd + 3_599_000_000
    ensures now < at + TtlFor(periodEnd, at) * SECOND
  {
  }

  /**
    The expiring counter refines the plain one: within the grace period a
    reading is the sum of all increments for that tenant, dimension and period,
    whatever was counted elsewhere.
   */
  lemma {:induction false} ReadingIsTotal(ops: seq<Increment>, t: int, d: string, start: int, now: int)
    requires InOrder(ops) && (ops != [] ==> ops[|ops| - 1].at <= now) && InGrace(ops, t, d, start, now)
    ensures Reading(CellsAfter(ops), CounterKey(t, d, start), now) == Total(ops, t, d, start)
    decreases |ops|
  {
    hide CounterKey, TtlFor, WholeSeconds;
    if ops != [] {
      var front, last := ops[..|ops| - 1], ops[|ops| - 1];
      assert forall i | 0 <= i < |front| :: front[i] == ops[i];
      KeysAreDistinct(last.tenant, last.dimension, last.periodStart, t, d, start);
      if last.CountsFor(t, d, start) {
        ReadingIsTotal(front, t, d, start, last.at);
        assert ops[|ops| - 1].CountsFor(t, d, start);
        CounterOutlivesGrace(last.periodEnd, last.at, now);
      } else {
        ReadingIsTotal(front, t, d, start, now);
      }
    }
  }

  /** The increment's counter is gone: a minute after it, and an hour and a second after its period. */
  predicate Outlived(op: Increment, now: int)
  {
    now >= op.at + 60_000_000 && now >= op.periodEnd + 3_601_000_000
  }

  lemma CounterExpires(op: Increment, now: int)
    requires Outlived(op, now)
    ensures now >= op.at + TtlFor(op.periodEnd, op.at) * SECOND
  {
  }

  /** A counter does not live on: once all its increments are outlived it reads zero. */
  lemma {:induction false} OutlivedCounterReadsZero(ops: seq<Increment>, t: int, d: string, start: int, now: int)
    requires forall i | 0 <= i < |ops| && ops[i].CountsFor(t, d, start) :: Outlived(ops[i], now)
    ensures Reading(CellsAfter(ops), CounterKey(t, d, start), now) == 0
    decreases |ops|
  {
    hide CounterKey, TtlFor, WholeSeconds;
    if ops != [] {
      var front, last := ops[..|ops| - 1], ops[|ops| - 1];
      assert forall i | 0 <= i < |front| :: front[i] == ops[i];
      KeysAreDistinct(last.tenant, last.dimension, last.periodStart, t, d, start);
      if last.CountsFor(t, d, start) {
        assert ops[|ops| - 1].CountsFor(t, d, start);
        CounterExpires(last, now);
      } else {
        OutlivedCounterReadsZero(front, t, d, start, now);
      }
    }
  }

  /** The bound is tight: an hour after the period, to the second, a lone counter may read zero. */
  lemma GraceIsTight(t: int, d: string, start: int)
    ensures var op := Increment(t, d, start, SECOND - 1, 1, 0);
      Reading(CellsAfter([op]), op.Key(), op.periodEnd + 3_599_000_001) == 0
      != Total([op], t, d, start)
  {
    hide CounterKey;
    var op := Increment(t, d, start, SECOND - 1, 1, 0);
    assert [op][..0] == [];
    assert CellsAfter([op]) == Bumped(CellsAfter([]), op);
    assert Total([op], t, d, start) == Total([], t, d, start) + 1;
  }

  // ------------------------------------------------------------------- quota

  const API_REQUESTS: string := "api_requests"

  /** The period a tenant's API requests are metered on. */
  datatype Meter = Meter(tenant: int, periodStart: int, periodEnd: int, included: int) {
    function Key(): Key { CounterKey(tenant, API_REQUESTS, periodStart) }

    function Request(at: int): Increment { Increment(tenant, API_REQUESTS, periodStart, periodEnd, 1, at) }
  }

  /** `enforce_api_quota` for a metered tenant: count first, compare after; fail open when Redis is down. */
  method EnforceQuota(counters: Counters, m: Meter, now: int, up: bool) returns (admitted: bool)
    modifies counters
    ensures !up ==> admitted && counters.cells == old(counters.cells)
    ensures up ==> counters.cells == Bumped(old(counters.cells), m.Request(now))
    ensures up ==> (admitted <==> Reading(old(counters.cells), m.Key(), now) + 1 <= m.included)
  {
    var used := counters.Bump(m.tenant, API_REQUESTS, m.periodStart, m.periodEnd, 1, now, up);
    return used.None? || used.value <= m.included;
  }

  /** The increments of this meter are its own requests, whatever is counted elsewhere. */
  predicate MeteredBy(m: Meter, ops: seq<Increment>)
  {
    forall i | 0 <= i < |ops| && ops[i].CountsFor(m.tenant, API_REQUESTS, m.periodStart) ::
      ops[i].amount == 1 && ops[i].periodEnd == m.periodEnd
  }

  /** Earlier requests on the meter. */
  function Earlier(m: Meter, ops: seq<Increment>): nat
  {
    if ops == [] then 0
    else
      Earlier(m, ops[..|ops| - 1])
      + if ops[|ops| - 1].CountsFor(m.tenant, API_REQUESTS, m.periodStart) then 1 else 0
  }

  /** The decision on a request at `now` after the increments of a run. */
  predicate Admitted(m: Meter, ops: seq<Increment>, now: int)
  {
    Reading(CellsAfter(ops), m.Key(), now) + 1 <= m.included
  }

  lemma {:induction false} TotalIsEarlier(m: Meter, ops: seq<Increment>)
    requires MeteredBy(m, ops)
    ensures Total(ops, m.tenant, API_REQUESTS, m.periodStart) == Earlier(m, ops)
    decreases |ops|
  {
    if ops != [] { TotalIsEarlier(m, ops[..|ops| - 1]); }
  }

  /**
    With Redis up and fixed entitlements, the quota admits exactly the first
    `included` requests of a period, whatever other tenants and dimensions count
    in between.
   */
  lemma QuotaAdmitsExactlyTheAllowance(m: Meter, ops: seq<Increment>, now: int)
    requires InOrder(ops) && (ops != [] ==> ops[|ops| - 1].at <= now) && MeteredBy(m, ops)
    requires now <= m.periodEnd + 3_599_000_000
    ensures Admitted(m, ops, now) <==> Earlier(m, ops) < m.included
  {
    hide CounterKey;
    TotalIsEarlier(m, ops);
    ReadingIsTotal(ops, m.tenant, API_REQUESTS, m.periodStart, now);
  }
}
