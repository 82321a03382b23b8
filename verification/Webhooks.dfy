/**
  Outgoing webhook delivery (app/notifications/tasks/webhook.py and
  app/notifications/services/webhook.py): POST, record, retry with backoff.
 */
module Webhooks {
  import opened Common

  /** WEBHOOK_MAX_RETRIES and the backoff base and cap, in seconds. */
  datatype RawSettings = RawSettings(maxRetries: int, base: real, cap: real)
  type Settings = s: RawSettings | s.maxRetries >= 0 && s.base >= 0.0 && s.cap >= 0.0
    witness RawSettings(5, 60.0, 3600.0)

  /** `int(min(x, cap))`. */
  function Cut(x: real, cap: real): (seconds: int)
    ensures seconds as real <= cap
  {
    (if x < cap then x else cap).Floor
  }

  function Uncapped(cfg: Settings, attempt: nat): real
    requires attempt >= 1
  {
    cfg.base * Pow2(attempt - 1) as real
  }

  /** `compute_backoff` for a 1-based attempt number. */
  function Backoff(cfg: Settings, attempt: nat): int
    requires attempt >= 1
  {
    Cut(Uncapped(cfg, attempt), cfg.cap)
  }

  lemma UncappedDoubles(cfg: Settings, attempt: nat)
    requires attempt >= 1
    ensures 0.0 <= Uncapped(cfg, attempt) && Uncapped(cfg, attempt + 1) == 2.0 * Uncapped(cfg, attempt)
  {
    var p := Pow2(attempt - 1);
    assert Pow2(attempt) == 2 * p;
    assert (2 * p) as real == 2.0 * p as real;
    assert cfg.base * (2.0 * p as real) == 2.0 * (cfg.base * p as real);
  }

  lemma CutDoubles(x: real, cap: real)
    requires 0.0 <= x && 0.0 <= cap
    ensures 0 <= Cut(x, cap) <= Cut(2.0 * x, cap) <= cap.Floor
    ensures Cut(2.0 * x, cap) <= 2 * Cut(x, cap) + 1
    ensures Cut(2.0 * x, cap) < cap.Floor ==> 2 * Cut(x, cap) <= Cut(2.0 * x, cap)
  {
    FloorOfDouble(x);
  }

  /** The backoff starts at the base, doubles up to the cut second, and stops at the cap. */
  lemma BackoffDoublesUpToTheCap(cfg: Settings, attempt: nat)
    requires attempt >= 1
    ensures Backoff(cfg, 1) == Cut(cfg.base, cfg.cap)
    ensures 0 <= Backoff(cfg, attempt) <= Backoff(cfg, attempt + 1) <= cfg.cap.Floor
    ensures Backoff(cfg, attempt + 1) <= 2 * Backoff(cfg, attempt) + 1
    ensures Backoff(cfg, attempt + 1) < cfg.cap.Floor ==> 2 * Backoff(cfg, attempt) <= Backoff(cfg, attempt + 1)
  {
    hide Cut;
    UncappedDoubles(cfg, attempt);
    CutDoubles(Uncapped(cfg, attempt), cfg.cap);
    assert Pow2(0) == 1;
  }

  lemma FloorOfDouble(x: real)
    ensures 2 * x.Floor <= (2.0 * x).Floor <= 2 * x.Floor + 1
  {
    var k := x.Floor;
    assert k as real <= x < k as real + 1.0;
    assert (2 * k) as real == 2.0 * k as real;
  }

  datatype Status = Pending | Retrying | Delivered | Failed

  datatype Delivery = Delivery(
    hook: int, attempt: nat, maxAttempts: nat, status: Status,
    nextRetryAt: Option<int>, deliveredAt: Option<int>, responseStatus: Option<int>)

  datatype Hook = Hook(active: bool, failures: nat, lastAt: Option<int>, lastStatus: Option<Status>)

  /** The result of the POST: a transport error or a status code. */
  datatype Http = TransportError | Response(code: int)

  datatype TaskResult =
    | NotFound
    | AlreadyDelivered
    | Disabled
    | Finished(status: Status)
    | Requeued(countdown: int)
    | CutOff

  /**
    The tables, the Celery queue (delivery id to `request.retries`), and two
    logs: POSTs per delivery and recorded outcomes in commit order.
   */
  datatype State = State(
    deliveries: seq<Delivery>,
    hooks: map<int, Hook>,
    queue: map<nat, nat>,
    posts: seq<nat>,
    outcomes: seq<(int, Status)>)

  // ------------------------------------------------------------------- steps

  function RecordedHook(h: Hook, status: Status, now: int): Hook
  {
    h.(lastAt := Some(now), lastStatus := Some(status),
       failures := if status.Delivered? then 0 else if status.Failed? then h.failures + 1 else h.failures)
  }

  /** `_record_delivery_outcome`: one commit on the delivery and its webhook. */
  function Record(st: State, d: nat, attempt: nat, status: Status, retryAt: Option<int>, code: Option<int>, now: int)
    : State
    requires d < |st.deliveries| && st.deliveries[d].hook in st.hooks
  {
    var row := st.deliveries[d];
    st.(deliveries := st.deliveries[d := row.(attempt := attempt, status := status, nextRetryAt := retryAt,
                                              deliveredAt := if status.Delivered? then Some(now) else None,
                                              responseStatus := code)],
        hooks := st.hooks[row.hook := RecordedHook(st.hooks[row.hook], status, now)],
        outcomes := st.outcomes + [(row.hook, status)])
  }

  predicate Succeeds(http: Http) { http.Response? && 200 <= http.code < 300 }

  /** One execution of the task for delivery d, whose request has `retries` retries behind it. */
  function Execute(cfg: Settings, st: State, d: nat, retries: nat, http: Http, now: int): (State, TaskResult)
  {
    if d >= |st.deliveries| || st.deliveries[d].hook !in st.hooks then (st, NotFound)
    else
      var row := st.deliveries[d];
      if row.status.Delivered? then (st, AlreadyDelivered)
      else if !st.hooks[row.hook].active then (Record(st, d, row.attempt, Failed, None, None, now), Disabled)
      else
        var attempt := row.attempt + 1;
        var code := if http.Response? then Some(http.code) else None;
        if Succeeds(http) then (Record(st, d, attempt, Delivered, None, code, now), Finished(Delivered))
        else if attempt < row.maxAttempts then
          var wait := Backoff(cfg, attempt);
          (Record(st, d, attempt, Retrying, Some(now + wait), code, now),
           if retries + 1 > cfg.maxRetries then CutOff else Requeued(Backoff(cfg, row.attempt + 1)))
        else (Record(st, d, attempt, Failed, None, code, now), Finished(Failed))
  }

  /** Does this execution send a request? */
  predicate Posts(st: State, d: nat)
  {
    && d < |st.deliveries| && st.deliveries[d].hook in st.hooks
    && !st.deliveries[d].status.Delivered? && st.hooks[st.deliveries[d].hook].active
  }

  datatype Step =
    | AddHook(hook: int, active: bool)
    | SetActive(hook: int, active: bool)
    | Create(hook: int, enqueued: bool)
    | Work(delivery: nat, http: Http, now: int)

  /** Every creator uses WEBHOOK_MAX_RETRIES + 1 attempts; the enqueue may fail. */
  function Created(cfg: Settings, st: State, hook: int, enqueued: bool): State
  {
    var d := |st.deliveries|;
    st.(deliveries := st.deliveries + [Delivery(hook, 0, cfg.maxRetries + 1, Pending, None, None, None)],
        posts := st.posts + [0],
        queue := if enqueued then st.queue[d := 0] else st.queue)
  }

  /** A worker takes the delivery's task from the queue and runs it. */
  function Worked(cfg: Settings, st: State, d: nat, http: Http, now: int): (State, Option<TaskResult>)
  {
    if d !in st.queue then (st, None)
    else
      var (after, result) := Execute(cfg, st, d, st.queue[d], http, now);
      (after.(queue := if result.Requeued? then st.queue[d := st.queue[d] + 1] else st.queue - {d},
              posts := if Posts(st, d) && d < |st.posts| then st.posts[d := st.posts[d] + 1] else st.posts),
       Some(result))
  }

  function Apply(cfg: Settings, st: State, step: Step): State
  {
    match step
    case AddHook(h, active) => if h in st.hooks then st else st.(hooks := st.hooks[h := Hook(active, 0, None, None)])
    case SetActive(h, active) =>
      if h in st.hooks then st.(hooks := st.hooks[h := st.hooks[h].(active := active)]) else st
    case Create(h, enqueued) => if h in st.hooks then Created(cfg, st, h, enqueued) else st
    case Work(d, http, now) => Worked(cfg, st, d, http, now).0
  }

  function Run(cfg: Settings, st: State, steps: seq<Step>): State
  {
    if steps == [] then st else Apply(cfg, Run(cfg, st, steps[..|steps| - 1]), steps[|steps| - 1])
  }

  // ---------------------------------------------- the same as imperative code

  class Dispatcher {
    const cfg: Settings
    var deliveries: seq<Delivery>
    var hooks: map<int, Hook>
    ghost var queue: map<nat, nat>
    ghost var posts: seq<nat>
    ghost var outcomes: seq<(int, Status)>

    ghost function Snapshot(): State
      reads this
    {
      State(deliveries, hooks, queue, posts, outcomes)
    }

    method RecordOutcome(d: nat, attempt: nat, status: Status, retryAt: Option<int>, code: Option<int>, now: int)
      modifies this
      ensures old(d < |deliveries| && deliveries[d].hook in hooks) ==>
        Snapshot() == Record(old(Snapshot()), d, attempt, status, retryAt, code, now)
      ensures !old(d < |deliveries| && deliveries[d].hook in hooks) ==> Snapshot() == old(Snapshot())
    {
      if d >= |deliveries| || deliveries[d].hook !in hooks { return; }
      var delivery := deliveries[d];
      var hook := hooks[delivery.hook];
      delivery := delivery.(attempt := attempt, status := status, responseStatus := code, nextRetryAt := retryAt);
      delivery := delivery.(deliveredAt := if status == Delivered then Some(now) else None);
      hook := hook.(lastAt := Some(now), lastStatus := Some(status));
      if status == Delivered {
        hook := hook.(failures := 0);
      } else if status == Failed {
        hook := hook.(failures := hook.failures + 1);
      }
      deliveries := deliveries[d := delivery];
      hooks := hooks[delivery.hook := hook];
      outcomes := outcomes + [(delivery.hook, status)];
    }

    /** `deliver_webhook`; the loaded row is a snapshot that recording does not touch. */
    method DeliverWebhook(d: nat, retries: nat, http: Http, now: int) returns (r: TaskResult)
      modifies this
      ensures (Snapshot(), r) == Execute(cfg, old(Snapshot()), d, retries, http, now)
    {
      if d >= |deliveries| || deliveries[d].hook !in hooks { return NotFound; }
      var delivery := deliveries[d];
      if delivery.status == Delivered { return AlreadyDelivered; }
      if !hooks[delivery.hook].active {
        RecordOutcome(d, delivery.attempt, Failed, None, None, now);
        return Disabled;
      }
      var attempt := delivery.attempt + 1;
      if http.Response? && 200 <= http.code < 300 {
        RecordOutcome(d, attempt, Delivered, None, Some(http.code), now);
        return Finished(Delivered);
      }
      var willRetry := attempt < delivery.maxAttempts;
      var code := if http.Response? then Some(http.code) else None;
      if !willRetry {
        RecordOutcome(d, attempt, Failed, None, code, now);
        return Finished(Failed);
      }
      RecordOutcome(d, attempt, Retrying, Some(now + Backoff(cfg, attempt)), code, now);
      if retries + 1 > cfg.maxRetries { return CutOff; }
      return Requeued(Backoff(cfg, delivery.attempt + 1));
    }
  }

  // -------------------------------------------------------------- invariants

  predicate DeliveryOk(cfg: Settings, st: State, d: nat)
    requires d < |st.deliveries|
  {
    var row := st.deliveries[d];
    && row.hook in st.hooks
    && row.maxAttempts == cfg.maxRetries + 1
    && row.attempt <= row.maxAttempts
    && (row.nextRetryAt.Some? <==> row.status.Retrying?)
    && (row.deliveredAt.Some? <==> row.status.Delivered?)
    && (d in st.queue ==>
          && st.queue[d] == row.attempt <= cfg.maxRetries
          && (row.status.Pending? || row.status.Retrying?)
          && (row.status.Pending? <==> row.attempt == 0))
    && (d !in st.queue ==> row.status.Delivered? || row.status.Failed? || (row.status.Pending? && row.attempt == 0))
  }

  /** Failed outcomes of a webhook since its last delivered one. */
  function FailedSinceDelivered(outcomes: seq<(int, Status)>, hook: int): nat
  {
    if outcomes == [] then 0
    else
      var (h, status) := outcomes[|outcomes| - 1];
      var before := FailedSinceDelivered(outcomes[..|outcomes| - 1], hook);
      if h != hook then before
      else if status.Delivered? then 0
      else if status.Failed? then before + 1
      else before
  }

  ghost predicate Inv(cfg: Settings, st: State)
  {
    && (forall d: nat | d < |st.deliveries| :: DeliveryOk(cfg, st, d))
    && (forall d | d in st.queue :: d < |st.deliveries|)
    && |st.posts| == |st.deliveries|
    && (forall d: nat | d < |st.deliveries| :: st.posts[d] == st.deliveries[d].attempt)
    && (forall h | h in st.hooks :: st.hooks[h].failures == FailedSinceDelivered(st.outcomes, h))
    && (forall k | 0 <= k < |st.outcomes| :: st.outcomes[k].0 in st.hooks)
  }

  lemma EmptyStateOk(cfg: Settings)
    ensures Inv(cfg, State([], map[], map[], [], []))
  {
  }

  lemma {:induction false} UnseenHookHasNoFailures(outcomes: seq<(int, Status)>, hook: int)
    requires forall k | 0 <= k < |outcomes| :: outcomes[k].0 != hook
    ensures FailedSinceDelivered(outcomes, hook) == 0
  {
    if outcomes != [] { UnseenHookHasNoFailures(outcomes[..|outcomes| - 1], hook); }
  }

  /** The outcome log and the webhook's counter move together. */
  lemma RecordKeepsCounters(
    st: State, d: nat, attempt: nat, status: Status, retryAt: Option<int>, code: Option<int>, now: int)
    requires d < |st.deliveries| && st.deliveries[d].hook in st.hooks
    requires forall h | h in st.hooks :: st.hooks[h].failures == FailedSinceDelivered(st.outcomes, h)
    ensures var n := Record(st, d, attempt, status, retryAt, code, now);
      forall h | h in n.hooks :: n.hooks[h].failures == FailedSinceDelivered(n.outcomes, h)
  {
    var n := Record(st, d, attempt, status, retryAt, code, now);
    assert n.outcomes[..|n.outcomes| - 1] == st.outcomes;
  }

  /** One task execution: never cut off by Celery, and the countdown is the recorded backoff. */
  lemma WorkKeepsInv(cfg: Settings, st: State, d: nat, http: Http, now: int)
    requires Inv(cfg, st)
    ensures Inv(cfg, Worked(cfg, st, d, http, now).0)
    ensures var (n, r) := Worked(cfg, st, d, http, now);
      r.Some? ==>
        && d < |st.deliveries|
        && !r.value.CutOff? && !r.value.NotFound? && !r.value.AlreadyDelivered?
        && (r.value.Requeued? <==> d in n.queue)
        && (r.value.Requeued? ==>
              n.deliveries[d].status.Retrying? && n.deliveries[d].nextRetryAt == Some(now + r.value.countdown)
              && n.deliveries[d].attempt == st.deliveries[d].attempt + 1)
  {
    hide Backoff, FailedSinceDelivered;
    if d in st.queue {
      assert DeliveryOk(cfg, st, d);
      var n := Worked(cfg, st, d, http, now).0;
      var last := n.outcomes[|st.outcomes|].1;
      RecordKeepsCounters(st, d, n.deliveries[d].attempt, last, n.deliveries[d].nextRetryAt,
                          n.deliveries[d].responseStatus, now);
      forall e: nat | e < |n.deliveries|
        ensures DeliveryOk(cfg, n, e)
      {
        assert DeliveryOk(cfg, st, e);
      }
    }
  }

  /**
    What one task execution makes of a queued delivery: delivered exactly on a
    2xx response of an active webhook, otherwise retried while attempts are left,
    otherwise failed; a disabled webhook fails it without a POST. No other
    delivery and no other webhook changes.
   */
  lemma OutcomeOfWork(cfg: Settings, st: State, d: nat, http: Http, now: int)
    requires Inv(cfg, st) && d in st.queue
    ensures var n := Worked(cfg, st, d, http, now).0;
      && d < |st.deliveries| == |n.deliveries| == |n.posts| && st.deliveries[d].hook in st.hooks
      && var row, after, hook := st.deliveries[d], n.deliveries[d], st.hooks[st.deliveries[d].hook];
         && (after.status.Delivered? <==> hook.active && http.Response? && 200 <= http.code <= 299)
         && (after.status.Retrying? <==>
               hook.active && !after.status.Delivered? && row.attempt + 1 < row.maxAttempts)
         && (after.status.Failed? <==> !after.status.Delivered? && !after.status.Retrying?)
         && after.attempt == n.posts[d] == row.attempt + (if hook.active then 1 else 0)
         && after.nextRetryAt
            == (if after.status.Retrying? then Some(now + Backoff(cfg, row.attempt + 1)) else None)
         && after.deliveredAt == (if after.status.Delivered? then Some(now) else None)
         && after.responseStatus == (if hook.active && http.Response? then Some(http.code) else None)
         && after.hook == row.hook && after.maxAttempts == row.maxAttempts
         && row.hook in n.hooks
         && n.hooks[row.hook].lastAt == Some(now) && n.hooks[row.hook].lastStatus == Some(after.status)
         && n.hooks[row.hook].active == hook.active
         && (forall e: nat | e < |st.deliveries| && e != d :: n.deliveries[e] == st.deliveries[e])
         && (forall h | h in st.hooks && h != row.hook :: h in n.hooks && n.hooks[h] == st.hooks[h])
  {
    hide Backoff, FailedSinceDelivered;
    assert DeliveryOk(cfg, st, d);
  }

  lemma StepKeepsInv(cfg: Settings, st: State, step: Step)
    requires Inv(cfg, st)
    ensures Inv(cfg, Apply(cfg, st, step))
  {
    match step
    case Work(d, http, now) => WorkKeepsInv(cfg, st, d, http, now);
    case AddHook(h, active) =>
      if h !in st.hooks { UnseenHookHasNoFailures(st.outcomes, h); }
      OthersKeepDeliveries(cfg, st, step);
    case _ => OthersKeepDeliveries(cfg, st, step);
  }

  lemma OthersKeepDeliveries(cfg: Settings, st: State, step: Step)
    requires Inv(cfg, st) && !step.Work?
    ensures var n := Apply(cfg, st, step); forall d: nat | d < |n.deliveries| :: DeliveryOk(cfg, n, d)
  {
    var n := Apply(cfg, st, step);
    forall d: nat | d < |n.deliveries|
      ensures DeliveryOk(cfg, n, d)
    {
      if d < |st.deliveries| { assert DeliveryOk(cfg, st, d); }
    }
  }

  /**
    Over every interleaving of creations, toggles and task executions: no
    delivery is POSTed more than max_attempts times, the timestamps agree with
    the status, and each webhook's failure_count is its number of failed
    outcomes since its last delivered one.
   */
  lemma {:induction false} RunKeepsInv(cfg: Settings, st: State, steps: seq<Step>)
    requires Inv(cfg, st)
    ensures Inv(cfg, Run(cfg, st, steps))
    ensures forall d: nat | d < |Run(cfg, st, steps).deliveries| :: Run(cfg, st, steps).posts[d] <= cfg.maxRetries + 1
    decreases |steps|
  {
    if steps != [] {
      RunKeepsInv(cfg, st, steps[..|steps| - 1]);
      StepKeepsInv(cfg, Run(cfg, st, steps[..|steps| - 1]), steps[|steps| - 1]);
    }
    forall d: nat | d < |Run(cfg, st, steps).deliveries|
      ensures Run(cfg, st, steps).posts[d] <= cfg.maxRetries + 1
    {
      assert DeliveryOk(cfg, Run(cfg, st, steps), d);
    }
  }

  /** Task executions of delivery d in the run that found it queued. */
  ghost function Executions(cfg: Settings, st: State, steps: seq<Step>, d: nat): nat
  {
    if steps == [] then 0
    else
      var front, last := steps[..|steps| - 1], steps[|steps| - 1];
      Executions(cfg, st, front, d)
      + if last.Work? && last.delivery == d && d in Run(cfg, st, front).queue then 1 else 0
  }

  /**
    The chain ends: a queued delivery is executed at most max_attempts - attempt
    more times, whatever happens around it; once it is out of the queue it is
    delivered or failed, and it never comes back.
   */
  lemma {:induction false} ChainEnds(cfg: Settings, st: State, steps: seq<Step>, d: nat)
    requires Inv(cfg, st) && d in st.queue
    ensures var n := Run(cfg, st, steps);
      && d < |n.deliveries|
      && Executions(cfg, st, steps, d) <= cfg.maxRetries + 1 - st.deliveries[d].attempt
      && (d in n.queue ==> n.deliveries[d].attempt == st.deliveries[d].attempt + Executions(cfg, st, steps, d))
      && (d !in n.queue ==> n.deliveries[d].status.Delivered? || n.deliveries[d].status.Failed?)
    decreases |steps|
  {
    hide Inv, Apply;
    QueuedDelivery(cfg, st, d);
    if steps != [] {
      var front, last := steps[..|steps| - 1], steps[|steps| - 1];
      ChainEnds(cfg, st, front, d);
      RunKeepsInv(cfg, st, front);
      ChainStep(cfg, Run(cfg, st, front), last, d);
      if d in Run(cfg, st, front).queue { QueuedDelivery(cfg, Run(cfg, st, front), d); }
    }
  }

  lemma QueuedDelivery(cfg: Settings, st: State, d: nat)
    requires Inv(cfg, st) && d in st.queue
    ensures d < |st.deliveries| && st.deliveries[d].attempt <= cfg.maxRetries
  {
    assert DeliveryOk(cfg, st, d);
  }

  /** One step as seen by delivery d: out of the queue it rests, in the queue only its own task moves it. */
  lemma ChainStep(cfg: Settings, st: State, step: Step, d: nat)
    requires Inv(cfg, st) && d < |st.deliveries|
    ensures var n := Apply(cfg, st, step);
      && d < |n.deliveries|
      && (d !in st.queue ==> d !in n.queue && n.deliveries[d] == st.deliveries[d])
      && (d in st.queue && !(step.Work? && step.delivery == d) ==> d in n.queue && n.deliveries[d] == st.deliveries[d])
      && (d in st.queue && step.Work? && step.delivery == d ==>
            if d in n.queue then n.deliveries[d].attempt == st.deliveries[d].attempt + 1 <= cfg.maxRetries
            else n.deliveries[d].status.Delivered? || n.deliveries[d].status.Failed?)
  {
    hide Inv;
    var n := Apply(cfg, st, step);
    StepKeepsInv(cfg, st, step);
    if step.Work? {
      WorkKeepsInv(cfg, st, step.delivery, step.http, step.now);
      WorkTouchesItsOwn(cfg, st, step.delivery, step.http, step.now, d);
    }
    if d in n.queue { QueuedDelivery(cfg, n, d); }
  }

  lemma WorkTouchesItsOwn(cfg: Settings, st: State, e: nat, http: Http, now: int, d: nat)
    requires Inv(cfg, st) && d < |st.deliveries|
    ensures var n := Worked(cfg, st, e, http, now).0;
      && |n.deliveries| == |st.deliveries|
      && (d !in st.queue || d != e ==> n.deliveries[d] == st.deliveries[d] && (d in n.queue <==> d in st.queue))
      && (d in st.queue && d == e && d !in n.queue ==>
            n.deliveries[d].status.Delivered? || n.deliveries[d].status.Failed?)
  {
    assert DeliveryOk(cfg, st, d);
  }
}
