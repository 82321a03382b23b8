/**
  The billing services as the code runs them: load rows, assign their fields,
  commit or roll back. Every method is proved against its step function.
 */
module BillingStore {
  import opened Common
  import opened Lifecycle
  import opened Dunning
  import opened Invoicing
  import opened Billing
  import opened BillingRuns
  import opened BillingSweeps

  /** How many of the ids lie in the set. */
  function Count(ids: seq<nat>, s: set<nat>): nat
  {
    if ids == [] then 0
    else Count(ids[..|ids| - 1], s) + if ids[|ids| - 1] in s then 1 else 0
  }

  /** The field writes of a sync whose target differs from the row's status. */
  method WriteSync(sub: SubscriptionRow, obj: StripeSub, target: Status, now: int) returns (ok: bool)
    requires target != sub.status && target != Suspended
    modifies sub
    ensures ok <==> target.Trialing? || Allowed(old(sub.status), target)
    ensures sub.Value() == if ok then SyncedRow(old(sub.Value()), obj, target, now) else old(sub.Value())
  {
    if target == Canceled {
      if !Allowed(sub.status, Canceled) { return false; }
      sub.canceledAt := Some(now);
      sub.cancelAtPeriodEnd := false;
      sub.pendingPlan := None;
    } else if target == PastDue {
      if !Allowed(sub.status, PastDue) { return false; }
    } else if target == Active {
      if !Allowed(sub.status, Active) { return false; }
      if sub.status == PastDue { var _ := sub.ResetDunning(); }
    }
    sub.status := target;
    var (start, end) := PeriodFromStripe(Some(obj), now);
    sub.periodStart, sub.periodEnd := start, end;
    return true;
  }

  /** The field writes of the admin action, once its transition check has passed. */
  method WriteStatus(sub: SubscriptionRow, target: Status, now: int)
    modifies sub
    ensures sub.Value() == AdminRow(old(sub.Value()), target, now)
  {
    if target == Canceled {
      sub.canceledAt := Some(now);
      sub.cancelAtPeriodEnd := false;
      sub.pendingPlan := None;
    } else if target == Suspended {
      sub.suspendedAt := Some(now);
      sub.nextRetryAt := None;
    } else if target == Active && sub.status == PastDue {
      var _ := sub.ResetDunning();
    }
    sub.status := target;
  }

  /** One due row of the dunning sweep: suspend it, or consume one schedule position. */
  method TickRow(sub: SubscriptionRow, cfg: Settings, now: int) returns (exhausted: bool)
    requires IsDue(sub.Value(), now)
    modifies sub
    ensures sub.Value() == Tick(cfg, old(sub.Value()), now)
    ensures exhausted <==> old(sub.failures) >= cfg.maxAttempts
  {
    exhausted := sub.failures >= cfg.maxAttempts;
    if exhausted {
      var _ := sub.Suspend(now);
    } else {
      sub.failures := sub.failures + 1;
      sub.nextRetryAt := Some(now + Delay(cfg, sub.failures));
    }
  }

  function Exhausted(cfg: Settings, subs: seq<Subscription>): set<nat>
  {
    set i: nat | i < |subs| && subs[i].failures >= cfg.maxAttempts
  }

  /**
    The loop of `process_due_retries`. A notification that fails (`broken`) is
    counted as a failure after the row has moved on.
   */
  method TickRows(cfg: Settings, subs: seq<Subscription>, ids: seq<nat>, now: int, broken: set<nat>)
    returns (work: seq<Subscription>, reminded: nat, suspended: nat, failed: nat)
    requires Within(ids, |subs|) && Ascending(ids)
    requires forall a | 0 <= a < |ids| :: IsDue(subs[ids[a]], now)
    ensures work == TickAll(cfg, subs, ids, now)
    ensures reminded + suspended + failed == |ids|
    ensures failed == Count(ids, broken)
    ensures suspended == Count(ids, Exhausted(cfg, subs) - broken)
  {
    work, reminded, suspended, failed := subs, 0, 0, 0;
    for k := 0 to |ids|
      invariant work == TickAll(cfg, subs, ids[..k], now)
      invariant reminded + suspended + failed == k
      invariant failed == Count(ids[..k], broken)
      invariant suspended == Count(ids[..k], Exhausted(cfg, subs) - broken)
    {
      var i := ids[k];
      assert ids[..k + 1][..k] == ids[..k];
      assert work[i] == subs[i] by {
        assert i !in ids[..k];
        TickAllPointwise(cfg, subs, ids[..k], now, i);
      }
      var sub := new SubscriptionRow(work[i]);
      var final := TickRow(sub, cfg, now);
      if i in broken {
        failed := failed + 1;
      } else if final {
        suspended := suspended + 1;
      } else {
        reminded := reminded + 1;
      }
      work := work[i := sub.Value()];
    }
    assert ids[..|ids|] == ids;
  }

  /** The sweep over a prefix, one subscription at a time. */
  lemma SweepPrefix(cfg: Config, st: State, ids: seq<nat>, k: nat, now: int, usage: Usage, faults: map<nat, Fault>)
    requires Within(ids, |st.subs|) && k <= |ids|
    ensures k == 0 ==> SweepMany(cfg, st, ids[..k], now, usage, faults) == (st, Tally(0, 0, 0))
    ensures k < |ids| ==>
      var (before, t) := SweepMany(cfg, st, ids[..k], now, usage, faults);
      var (after, one) := SweepOne(cfg, before, ids[k], now, usage, FaultOf(faults, ids[k]));
      SweepMany(cfg, st, ids[..k + 1], now, usage, faults)
      == (after, Tally(t.generated + one.generated, t.skipped + one.skipped, t.failed + one.failed))
  {
    hide SweepOne;
    if k < |ids| { assert ids[..k + 1][..k] == ids[..k]; }
  }

  /** The document part of `generate_invoice`: price line, metered lines, totals. */
  method BuildInvoice(s: Subscription, id: nat, plan: Plan, from: int, to: int, usage: Usage) returns (doc: Invoice)
    ensures doc == BuiltInvoice(s, id, plan, from, to, usage)
  {
    var inv := new InvoiceRow(Invoice(s.tenant, id, Draft, plan.currency, 0, 0, 0, from, to, None, None, []));
    inv.lines := inv.lines + [Line(1, plan.price, 0, plan.price)];
    assert inv.lines == [Line(1, plan.price, 0, plan.price)];
    inv.AppendMeteredLines(plan, s.tenant, from, usage);
    assert s.tenant.None? ==> inv.lines == [Line(1, plan.price, 0, plan.price)];
    inv.ApplyTotals();
    return inv.Value();
  }

  class Store {
    const cfg: Config
    var plans: map<int, Plan>
    var subs: seq<Subscription>
    var invoices: seq<Invoice>
    var ledger: map<string, bool>
    var handled: seq<string>
    ghost const others: seq<Pending>

    ghost function Snapshot(): State
      reads this
    {
      State(plans, subs, invoices, ledger, handled, others)
    }

    constructor (cfg: Config, plans: map<int, Plan>)
      ensures this.cfg == cfg && Snapshot() == Initial(plans)
    {
      this.cfg, this.plans := cfg, plans;
      subs, invoices, ledger, handled, others := [], [], map[], [], [];
    }

    /** Flush and commit the subscription table; on an index violation roll back. */
    method SaveSubs(table: seq<Subscription>, reply: Reply, err: Error) returns (out: Outcome)
      modifies this`subs
      ensures (Snapshot(), out) == CommitSubs(cfg, old(Snapshot()), table, reply, err)
    {
      if !SubsAdmitted(cfg, table) { return Raised(err); }
      subs := table;
      return Done(reply);
    }

    method SaveInvoices(table: seq<Invoice>, reply: Reply) returns (out: Outcome)
      modifies this`invoices
      ensures (Snapshot(), out) == CommitInvoices(cfg, old(Snapshot()), table, reply)
    {
      if !InvoicesAdmitted(cfg, table) { return Raised(Conflict); }
      invoices := table;
      return Done(reply);
    }

    // ------------------------------------------------- subscription endpoints

    method Subscribe(tenant: Option<int>, superuser: bool, plan: int, now: int) returns (out: Outcome)
      modifies this`subs
      ensures (Snapshot(), out) == SubscribeStep(cfg, old(Snapshot()), tenant, superuser, plan, now)
    {
      if tenant.None? && !superuser { return Raised(BadRequest); }
      if plan !in plans || !plans[plan].isActive { return Raised(BadRequest); }
      if LiveFor(subs, tenant).Some? { return Raised(Conflict); }
      var p := plans[plan];
      var trialEnd: Option<int> := None;
      if p.trialDays > 0 { trialEnd := Some(now + p.trialDays * DAY); }
      var status := if trialEnd.Some? then Trialing else Active;
      var sub := Subscription(tenant, plan, status, now, NextPeriodEnd(p, now), trialEnd, false,
                              None, None, None, 0, None, None, None);
      out := SaveSubs(subs + [sub], Created, IntegrityFault);
    }

    method ChangePlan(tenant: Option<int>, plan: int, now: int) returns (out: Outcome)
      modifies this`subs
      ensures (Snapshot(), out) == ChangePlanStep(cfg, old(Snapshot()), tenant, plan, now)
    {
      hide DecidePlanChange, SubsAdmitted, LiveFor;
      var found := LiveFor(subs, tenant);
      if found.None? { return Raised(NotFound); }
      var sub := new SubscriptionRow(subs[found.value]);
      if plan !in plans || !plans[plan].isActive { return Raised(BadRequest); }
      if sub.plan !in plans { return Raised(NotFound); }
      if plan == sub.plan { return Raised(BadRequest); }
      var decision := DecidePlanChange(plans[sub.plan], plans[plan], sub.Value(), now);
      match decision {
        case CrossCurrency => return Raised(BadRequest);
        case Immediate(preview) =>
          sub.plan := plan;
          sub.pendingPlan := None;
          sub.periodStart := now;
          sub.periodEnd := NextPeriodEnd(plans[plan], now);
          out := SaveSubs(subs[found.value := sub.Value()], Upgraded(preview), IntegrityFault);
        case AtPeriodEnd =>
          sub.pendingPlan := Some(plan);
          out := SaveSubs(subs[found.value := sub.Value()], Scheduled, IntegrityFault);
      }
    }

    method CancelSubscription(tenant: Option<int>, immediate: bool, now: int) returns (out: Outcome)
      modifies this`subs
      ensures (Snapshot(), out) == CancelStep(cfg, old(Snapshot()), tenant, immediate, now)
    {
      hide SubsAdmitted, LiveFor;
      var found := LiveFor(subs, tenant);
      if found.None? { return Raised(NotFound); }
      var sub := new SubscriptionRow(subs[found.value]);
      if immediate {
        if !Allowed(sub.status, Canceled) { return Raised(Conflict); }
        sub.status := Canceled;
        sub.canceledAt := Some(now);
        sub.cancelAtPeriodEnd := false;
        sub.pendingPlan := None;
      } else {
        if sub.status == Trialing { return Raised(BadRequest); }
        sub.cancelAtPeriodEnd := true;
      }
      out := SaveSubs(subs[found.value := sub.Value()], Updated, IntegrityFault);
    }

    method ResumeSubscription(tenant: Option<int>) returns (out: Outcome)
      modifies this`subs
      ensures (Snapshot(), out) == ResumeStep(cfg, old(Snapshot()), tenant)
    {
      var found := LiveFor(subs, tenant);
      if found.None? { return Raised(NotFound); }
      var sub := new SubscriptionRow(subs[found.value]);
      if !sub.cancelAtPeriodEnd { return Raised(BadRequest); }
      sub.cancelAtPeriodEnd := false;
      out := SaveSubs(subs[found.value := sub.Value()], Updated, IntegrityFault);
    }

    // ---------------------------------------------------------- Stripe events

    method OnCheckoutCompleted(c: CheckoutSession, now: int) returns (out: Outcome)
      modifies this`subs
      ensures (Snapshot(), out) == HandleCheckout(cfg, old(Snapshot()), c, now)
    {
      if c.tenant.Absent? || c.plan.Absent? || c.stripeSub.None? { return Done(Skipped); }
      if c.tenant.Malformed? || c.plan.Malformed? { return Raised(ValueFault); }
      if c.plan.n !in plans { return Done(Skipped); }
      var existing := LiveFor(subs, Some(c.tenant.n));
      if existing.Some? {
        if subs[existing.value].stripeId.Some? { return Done(Duplicate); }
        var row := new SubscriptionRow(subs[existing.value]);
        row.stripeId := c.stripeSub;
        out := SaveSubs(subs[existing.value := row.Value()], Linked, IntegrityFault);
        return;
      }
      var status, trialEnd := Some(Active), None;
      if c.detail.Some? {
        status := StatusFromStripe(c.detail.value, now);
        if status.None? { return Raised(ValueFault); }
        if c.detail.value.trialEnd.Some? && c.detail.value.trialEnd.value > 0 { trialEnd := c.detail.value.trialEnd; }
      }
      var (start, end) := PeriodFromStripe(c.detail, now);
      var sub := Subscription(Some(c.tenant.n), c.plan.n, status.value, start, end, trialEnd, false,
                              None, None, c.stripeSub, 0, None, None, None);
      out := SaveSubs(subs + [sub], Created, IntegrityFault);
    }

    method OnSubscriptionSync(obj: StripeSub, now: int) returns (out: Outcome)
      modifies this`subs
      ensures (Snapshot(), out) == HandleSync(cfg, old(Snapshot()), obj, now)
    {
      var found := FindStripe(subs, obj.id);
      if found.None? { return Done(Unknown); }
      var sub := new SubscriptionRow(subs[found.value]);
      var target := StatusFromStripe(obj, now);
      if target.None? { return Raised(ValueFault); }
      if target.value == sub.status { return Done(Unchanged); }
      var ok := WriteSync(sub, obj, target.value, now);
      if !ok { return Raised(IllegalTransition); }
      out := SaveSubs(subs[found.value := sub.Value()], Synced, Conflict);
    }

    method OnPaymentFailed(id: Option<string>, now: int) returns (out: Outcome)
      modifies this`subs
      ensures (Snapshot(), out) == HandlePaymentFailed(cfg, old(Snapshot()), id, now)
    {
      if id.None? { return Done(Skipped); }
      var found := FindStripe(subs, id.value);
      if found.None? { return Done(Unknown); }
      var sub := new SubscriptionRow(subs[found.value]);
      var ok := sub.RecordPaymentFailure(cfg.dunning, now);
      if !ok { return Raised(IllegalTransition); }
      out := SaveSubs(subs[found.value := sub.Value()], MarkedPastDue, IntegrityFault);
    }

    /** Inserts the ledger row; false when the event was seen before. */
    method RecordEvent(id: string) returns (isNew: bool)
      modifies this`ledger
      ensures isNew <==> id !in old(ledger)
      ensures ledger == if isNew then old(ledger)[id := false] else old(ledger)
    {
      if id in ledger { return false; }
      ledger := ledger[id := false];
      return true;
    }

    method ProcessEvent(ev: Event, crash: Crash, now: int) returns (out: Outcome)
      modifies this
      ensures (Snapshot(), out) == DeliverStep(cfg, old(Snapshot()), ev, crash, now)
    {
      if ev.id == "" || ev.payload.NoType? { return Done(Invalid); }
      var isNew := RecordEvent(ev.id);
      if !isNew { return Done(Duplicate); }
      if crash.BeforeHandler? { return Done(Died); }
      handled := handled + [ev.id];
      match ev.payload {
        case Checkout(c) => out := OnCheckoutCompleted(c, now);
        case SubscriptionUpdated(obj) => out := OnSubscriptionSync(obj, now);
        case SubscriptionDeleted(obj) => out := OnSubscriptionSync(obj.(status := SCanceled), now);
        case PaymentFailed(id) => out := OnPaymentFailed(id, now);
        case OtherType => out := Done(Ignored);
      }
      if out.Raised? || crash.BeforeStamp? { return; }
      ledger := ledger[ev.id := true];
    }

    // ------------------------------------------------------------------ admin

    method AdminSetStatus(id: nat, target: Option<Status>, now: int) returns (out: Outcome)
      modifies this`subs
      ensures (Snapshot(), out) == SetStatusStep(cfg, old(Snapshot()), id, target, now)
    {
      hide SubsAdmitted;
      if id >= |subs| { return Raised(NotFound); }
      var sub := new SubscriptionRow(subs[id]);
      if target.None? || !Allowed(sub.status, target.value) { return Raised(BadRequest); }
      WriteStatus(sub, target.value, now);
      out := SaveSubs(subs[id := sub.Value()], Updated, IntegrityFault);
    }

    method AdminOverridePlan(id: nat, plan: int, now: int) returns (out: Outcome)
      modifies this`subs
      ensures (Snapshot(), out) == OverridePlanStep(cfg, old(Snapshot()), id, plan, now)
    {
      if id >= |subs| { return Raised(NotFound); }
      if plan !in plans || !plans[plan].isActive { return Raised(NotFound); }
      var sub := new SubscriptionRow(subs[id]);
      sub.plan := plan;
      sub.pendingPlan := None;
      sub.periodStart := now;
      sub.periodEnd := NextPeriodEnd(plans[plan], now);
      out := SaveSubs(subs[id := sub.Value()], Updated, IntegrityFault);
    }

    // --------------------------------------------------------------- invoices

    /** `generate_invoice` for one subscription row. */
    method GenerateInvoice(id: nat, plan: Plan, start: Option<int>, end: Option<int>, usage: Usage)
      returns (out: Outcome)
      requires id < |subs|
      modifies this`invoices
      ensures match PrepareInvoice(old(Snapshot()), id, plan, start, end, usage)
        case RefusedInvoice(e) => Snapshot() == old(Snapshot()) && out == Raised(e)
        case ReadyInvoice(inv) =>
          (Snapshot(), out) == CommitInvoices(cfg, old(Snapshot()), old(invoices) + [inv], Created)
    {
      var s := subs[id];
      if !s.Live() { return Raised(Conflict); }
      var from := if start.Some? then start.value else s.periodStart;
      var to := if end.Some? then end.value else s.periodEnd;
      if to <= from { return Raised(ValueFault); }
      if Blocking(invoices, id, from).Some? { return Raised(Conflict); }
      var inv := BuildInvoice(s, id, plan, from, to, usage);
      out := SaveInvoices(invoices + [inv], Created);
    }

    method Generate(tenant: Option<int>, start: Option<int>, end: Option<int>, usage: Usage) returns (out: Outcome)
      modifies this`invoices
      ensures (Snapshot(), out) == GenerateStep(cfg, old(Snapshot()), tenant, start, end, usage)
    {
      if tenant.None? { return Raised(BadRequest); }
      var found := LiveFor(subs, tenant);
      if found.None? { return Raised(NotFound); }
      if subs[found.value].plan !in plans { return Raised(NotFound); }
      out := GenerateInvoice(found.value, plans[subs[found.value].plan], start, end, usage);
    }

    method Issue(id: nat, now: int) returns (out: Outcome)
      modifies this`invoices
      ensures (Snapshot(), out) == IssueStep(cfg, old(Snapshot()), id, now)
    {
      if id >= |invoices| { return Raised(NotFound); }
      var inv := new InvoiceRow(invoices[id]);
      if !AllowedInvoice(inv.status, Open) { return Raised(IllegalTransition); }
      inv.status := Open;
      inv.issuedAt := Some(now);
      out := SaveInvoices(invoices[id := inv.Value()], Updated);
    }

    method MarkPaid(id: nat, now: int) returns (out: Outcome)
      modifies this`invoices, this`subs
      ensures (Snapshot(), out) == PayStep(cfg, old(Snapshot()), id, now)
    {
      if id >= |invoices| { return Raised(NotFound); }
      var inv := new InvoiceRow(invoices[id]);
      if !AllowedInvoice(inv.status, Paid) { return Raised(IllegalTransition); }
      inv.status := Paid;
      inv.paidAt := Some(now);
      var table := subs;
      if inv.sub < |subs| {
        var sub := new SubscriptionRow(subs[inv.sub]);
        if sub.status == PastDue {
          sub.Recover();
          table := subs[inv.sub := sub.Value()];
        }
      }
      var documents := invoices[id := inv.Value()];
      if !InvoicesAdmitted(cfg, documents) || !SubsAdmitted(cfg, table) { return Raised(IntegrityFault); }
      invoices, subs := documents, table;
      return Done(Updated);
    }

    method VoidInvoice(id: nat) returns (out: Outcome)
      modifies this`invoices
      ensures (Snapshot(), out) == VoidStep(cfg, old(Snapshot()), id)
    {
      if id >= |invoices| { return Raised(NotFound); }
      var inv := new InvoiceRow(invoices[id]);
      if !AllowedInvoice(inv.status, Void) { return Raised(IllegalTransition); }
      inv.status := Void;
      out := SaveInvoices(invoices[id := inv.Value()], Updated);
    }

    // ----------------------------------------------------------------- sweeps

    /** The dunning sweep and its commit; every due row is counted exactly once. */
    method ProcessDueRetries(limit: Option<nat>, now: int, broken: set<nat>)
      returns (due: nat, reminded: nat, suspended: nat, failed: nat)
      requires SubsAdmitted(cfg, subs)
      modifies this`subs
      ensures Snapshot() == SweepDunningStep(cfg, old(Snapshot()), limit, now).0
      ensures var ids := Limited(DueRows(old(subs), now), limit);
        && due == |ids| == reminded + suspended + failed
        && failed == Count(ids, broken)
        && suspended == Count(ids, Exhausted(cfg.dunning, old(subs)) - broken)
    {
      var ids := Limited(DueRows(subs, now), limit);
      var work;
      due := |ids|;
      work, reminded, suspended, failed := TickRows(cfg.dunning, subs, ids, now, broken);
      SweepCommits(cfg, subs, ids, now);
      var _ := SaveSubs(work, Swept, IntegrityFault);
    }

    /** The invoice sweep: generate and issue for every live subscription whose period has ended. */
    method GenerateDueInvoices(now: int, usage: Usage, faults: map<nat, Fault>) returns (t: Tally)
      modifies this`invoices
      ensures (Snapshot(), t) == SweepMany(cfg, old(Snapshot()), EndedRows(old(subs), now), now, usage, faults)
      ensures t.generated + t.skipped + t.failed == |EndedRows(old(subs), now)|
    {
      hide SweepOne, SweepMany, EndedRows;
      var ids := EndedRows(subs, now);
      ghost var st := Snapshot();
      SweepPrefix(cfg, st, ids, 0, now, usage, faults);
      var generated: nat, skipped: nat, failed: nat := 0, 0, 0;
      for k := 0 to |ids|
        invariant subs == old(subs) && plans == old(plans)
        invariant Snapshot() == SweepMany(cfg, st, ids[..k], now, usage, faults).0
        invariant Tally(generated, skipped, failed) == SweepMany(cfg, st, ids[..k], now, usage, faults).1
        invariant generated + skipped + failed == k
      {
        SweepPrefix(cfg, st, ids, k, now, usage, faults);
        var one := SweepSubscription(ids[k], now, usage, FaultOf(faults, ids[k]));
        generated, skipped, failed := generated + one.generated, skipped + one.skipped, failed + one.failed;
      }
      assert ids[..|ids|] == ids;
      return Tally(generated, skipped, failed);
    }

    /** The loop body of the invoice sweep. */
    method SweepSubscription(id: nat, now: int, usage: Usage, fault: Fault) returns (t: Tally)
      requires id < |subs|
      modifies this`invoices
      ensures (Snapshot(), t) == SweepOne(cfg, old(Snapshot()), id, now, usage, fault)
      ensures t.generated + t.skipped + t.failed == 1
    {
      var s := subs[id];
      if s.plan !in plans { return Tally(0, 0, 1); }
      if fault.AtLookup? { return Tally(0, 0, 1); }
      if Blocking(invoices, id, s.periodStart).Some? { return Tally(0, 1, 0); }
      if fault.BeforeInsert? { return Tally(0, 0, 1); }
      var number := |invoices|;
      var out := GenerateInvoice(id, plans[s.plan], None, None, usage);
      if out.Raised? || fault.BeforeIssue? { return Tally(0, 0, 1); }
      out := Issue(number, now);
      if out.Raised? { return Tally(0, 0, 1); }
      return Tally(1, 0, 0);
    }
  }
}
