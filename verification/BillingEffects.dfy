/**
  What each billing operation does to the tables, said outright: which row
  changes, to what, with which reply, and when it is refused. Nothing here is
  said through the functions that compute a new row.
 */
module BillingEffects {
  import opened Common
  import opened Rounding
  import opened Lifecycle
  import opened Dunning
  import opened Invoicing
  import opened Billing
  import opened BillingRuns

  /** Thirty days, or 365. */
  function PeriodSeconds(plan: Plan): int { if plan.interval.Yearly? then 31_536_000 else 2_592_000 }

  /** One row replaced, everything else as it was. */
  function WithRow(st: State, i: nat, row: Subscription): State
    requires i < |st.subs|
  {
    st.(subs := st.subs[i := row])
  }

  lemma ReplacementAdmitted(cfg: Config, subs: seq<Subscription>, i: nat, row: Subscription)
    requires SubsAdmitted(cfg, subs) && i < |subs|
    requires row.tenant == subs[i].tenant && row.stripeId == subs[i].stripeId && (row.Live() ==> subs[i].Live())
    ensures SubsAdmitted(cfg, subs[i := row])
  {
  }

  lemma AppendAdmitted(cfg: Config, subs: seq<Subscription>, row: Subscription)
    requires SubsAdmitted(cfg, subs) && LiveFor(subs, row.tenant).None?
    ensures SubsAdmitted(cfg, subs + [row])
       <==> row.stripeId.None? || FindStripe(subs, row.stripeId.value).None?
  {
    var all := subs + [row];
    assert forall j | 0 <= j < |subs| && subs[j].Live() :: !Occupies(subs[j], row.tenant) && all[j] == subs[j];
    if row.stripeId.Some? && FindStripe(subs, row.stripeId.value).Some? {
      var j := FindStripe(subs, row.stripeId.value).value;
      assert all[j].stripeId == all[|subs|].stripeId;
    }
  }

  // ------------------------------------------------------ subscription requests

  predicate HasLive(subs: seq<Subscription>, tenant: Option<int>)
  {
    exists j :: 0 <= j < |subs| && subs[j].Live() && subs[j].tenant == tenant
  }

  lemma HasLiveIsLiveFor(subs: seq<Subscription>, tenant: Option<int>)
    ensures HasLive(subs, tenant) <==> LiveFor(subs, tenant).Some?
  {
    if j :| 0 <= j < |subs| && subs[j].Live() && subs[j].tenant == tenant {
      assert Occupies(subs[j], tenant);
    }
  }

  /** A first subscription starts now, on trial if the plan has one; a second one is refused. */
  lemma SubscribeEffect(cfg: Config, st: State, tenant: Option<int>, superuser: bool, plan: int, now: int)
    requires SubsAdmitted(cfg, st.subs)
    ensures var r := SubscribeStep(cfg, st, tenant, superuser, plan, now);
      if (tenant.None? && !superuser) || plan !in st.plans || !st.plans[plan].isActive then
        r == (st, Raised(BadRequest))
      else if HasLive(st.subs, tenant) then r == (st, Raised(Conflict))
      else
        var p := st.plans[plan];
        var trial := p.trialDays > 0;
        && r.1 == Done(Created)
        && r.0 == st.(subs := st.subs + [Subscription(
             tenant, plan, if trial then Trialing else Active, now, now + PeriodSeconds(p),
             if trial then Some(now + p.trialDays * 86_400) else None, false,
             None, None, None, 0, None, None, None)])
  {
    hide SubsAdmitted, LiveFor;
    HasLiveIsLiveFor(st.subs, tenant);
    match PrepareSubscribe(st, tenant, superuser, plan, now)
    case Refused(_) =>
    case Ready(row) => AppendAdmitted(cfg, st.subs, row);
  }

  /** Without a live subscription there is nothing to change, cancel or resume. */
  lemma NothingToChange(cfg: Config, st: State, tenant: Option<int>, plan: int, immediate: bool, now: int)
    requires !HasLive(st.subs, tenant)
    ensures ChangePlanStep(cfg, st, tenant, plan, now) == (st, Raised(NotFound))
    ensures CancelStep(cfg, st, tenant, immediate, now) == (st, Raised(NotFound))
    ensures ResumeStep(cfg, st, tenant) == (st, Raised(NotFound))
  {
    HasLiveIsLiveFor(st.subs, tenant);
  }

  /**
    A dearer plan applies at once, in a new period, at the prorated difference;
    any other one is scheduled for the period's end.
   */
  lemma ChangePlanEffect(cfg: Config, st: State, tenant: Option<int>, plan: int, now: int, i: nat)
    requires SubsAdmitted(cfg, st.subs) && LiveFor(st.subs, tenant) == Some(i)
    ensures var r, s := ChangePlanStep(cfg, st, tenant, plan, now), st.subs[i];
      if plan !in st.plans || !st.plans[plan].isActive then r == (st, Raised(BadRequest))
      else if s.plan !in st.plans then r == (st, Raised(NotFound))
      else if plan == s.plan || st.plans[plan].currency != st.plans[s.plan].currency then
        r == (st, Raised(BadRequest))
      else if st.plans[plan].price > st.plans[s.plan].price then
        && r.0 == WithRow(st, i, s.(plan := plan, pendingPlan := None, periodStart := now,
                                    periodEnd := now + PeriodSeconds(st.plans[plan])))
        && r.1.Done? && r.1.reply.Upgraded?
        && ProratedBy(r.1.reply.preview, st.plans[s.plan].price, st.plans[plan].price, s, now)
      else r == (WithRow(st, i, s.(pendingPlan := Some(plan))), Done(Scheduled))
  {
    hide SubsAdmitted, LiveFor, DecidePlanChange, IsNearestEven;
    var s := st.subs[i];
    if plan in st.plans && st.plans[plan].isActive && s.plan in st.plans && plan != s.plan {
      PlanChangeIsProrated(st.plans[s.plan], st.plans[plan], s, now);
      ReplacementAdmitted(cfg, st.subs, i, OnPlan(s, plan, st.plans[plan], now));
      ReplacementAdmitted(cfg, st.subs, i, s.(pendingPlan := Some(plan)));
    }
  }

  /** Credit and charge are the prices prorated to the nearest cent, the net their difference. */
  ghost predicate ProratedBy(p: Preview, oldPrice: nat, newPrice: nat, s: Subscription, now: int)
  {
    var left, length := TimeLeft(s.periodStart, s.periodEnd, now), s.periodEnd - s.periodStart;
    && p.net == p.charge - p.credit
    && (length > 0 ==>
          IsNearestEven(oldPrice * left, length, p.credit) && IsNearestEven(newPrice * left, length, p.charge))
    && (length <= 0 ==> p.credit == p.charge == 0)
  }

  /** Immediate cancellation ends the row now; a scheduled one only sets the flag, and not on a trial. */
  lemma CancelEffect(cfg: Config, st: State, tenant: Option<int>, immediate: bool, now: int, i: nat)
    requires SubsAdmitted(cfg, st.subs) && LiveFor(st.subs, tenant) == Some(i)
    ensures var r, s := CancelStep(cfg, st, tenant, immediate, now), st.subs[i];
      if immediate then
        r == (WithRow(st, i, s.(status := Canceled, canceledAt := Some(now), cancelAtPeriodEnd := false,
                                pendingPlan := None)), Done(Updated))
      else if s.status.Trialing? then r == (st, Raised(BadRequest))
      else r == (WithRow(st, i, s.(cancelAtPeriodEnd := true)), Done(Updated))
  {
    hide SubsAdmitted, LiveFor;
    ReplacementAdmitted(cfg, st.subs, i, CanceledRow(st.subs[i], now));
    ReplacementAdmitted(cfg, st.subs, i, st.subs[i].(cancelAtPeriodEnd := true));
  }

  lemma ResumeEffect(cfg: Config, st: State, tenant: Option<int>, i: nat)
    requires SubsAdmitted(cfg, st.subs) && LiveFor(st.subs, tenant) == Some(i)
    ensures var r, s := ResumeStep(cfg, st, tenant), st.subs[i];
      r == if s.cancelAtPeriodEnd then (WithRow(st, i, s.(cancelAtPeriodEnd := false)), Done(Updated))
           else (st, Raised(BadRequest))
  {
    hide SubsAdmitted, LiveFor;
    ReplacementAdmitted(cfg, st.subs, i, st.subs[i].(cancelAtPeriodEnd := false));
  }

  // ------------------------------------------------------------- Stripe events

  /** Stripe's report stands for this status: a trial that has ended is active, unpaid is past due. */
  predicate Reports(obj: StripeSub, now: int, status: Status)
  {
    var trialOver := obj.trialEnd.Some? && 0 < obj.trialEnd.value <= now;
    match status
    case Active => obj.status.SActive? || (obj.status.STrialing? && trialOver)
    case Trialing => obj.status.STrialing? && !trialOver
    case PastDue => obj.status.SPastDue? || obj.status.SUnpaid?
    case Canceled => obj.status.SCanceled?
    case Suspended => false
  }

  predicate Positive(v: Option<int>) { v.Some? && v.value > 0 }

  /** Stripe's own period where it gives one; otherwise from now, for thirty days, and never under a minute. */
  predicate ReportedPeriod(obj: StripeSub, now: int, start: int, end: int)
  {
    && start == (if Positive(obj.start) then obj.start.value else now)
    && (Positive(obj.end) && obj.end.value - start >= 60 ==> end == obj.end.value)
    && (Positive(obj.end) && obj.end.value - start < 60 ==> end == start + 60)
    && (!Positive(obj.end) ==> end == start + 2_592_000)
  }

  /** What a sync to `status` makes of the row. */
  predicate SyncedTo(s: Subscription, n: Subscription, status: Status, obj: StripeSub, now: int)
  {
    && n.status == status
    && ReportedPeriod(obj, now, n.periodStart, n.periodEnd)
    && (n.tenant, n.plan, n.trialEnd, n.stripeId, n.suspendedAt)
       == (s.tenant, s.plan, s.trialEnd, s.stripeId, s.suspendedAt)
    && (n.canceledAt, n.cancelAtPeriodEnd, n.pendingPlan)
       == (if status.Canceled? then (Some(now), false, None) else (s.canceledAt, s.cancelAtPeriodEnd, s.pendingPlan))
    && (n.failures, n.lastFailureAt, n.nextRetryAt)
       == (if status.Active? && s.status.PastDue? then (0, None, None)
           else (s.failures, s.lastFailureAt, s.nextRetryAt))
  }

  /** A handler's result: only row i changed, by a sync to `status`. */
  predicate SyncsRow(st: State, r: (State, Outcome), i: nat, status: Status, obj: StripeSub, now: int)
    requires i < |st.subs|
  {
    && r.1 == Done(Synced)
    && |r.0.subs| == |st.subs|
    && r.0 == WithRow(st, i, r.0.subs[i])
    && SyncedTo(st.subs[i], r.0.subs[i], status, obj, now)
  }

  lemma SyncResult(cfg: Config, st: State, obj: StripeSub, now: int, i: nat, status: Status)
    requires SubsAdmitted(cfg, st.subs) && FindStripe(st.subs, obj.id) == Some(i) && Reports(obj, now, status)
    ensures var r, s := HandleSync(cfg, st, obj, now), st.subs[i];
      if status == s.status then r == (st, Done(Unchanged))
      else if Allowed(s.status, status) then SyncsRow(st, r, i, status, obj, now)
      else if status.Trialing? then SyncsRow(st, r, i, status, obj, now) || r == (st, Raised(Conflict))
      else r == (st, Raised(IllegalTransition))
  {
    hide SubsAdmitted, FindStripe;
    if status != st.subs[i].status && Allowed(st.subs[i].status, status) {
      ReplacementAdmitted(cfg, st.subs, i, SyncedRow(st.subs[i], obj, status, now));
    }
  }

  /**
    customer.subscription.updated: the row found by its Stripe id takes the status
    and the period Stripe reports, if its edge allows; a report of the status it
    has changes nothing, an unmapped one is an error.
   */
  lemma UpdatedEffect(cfg: Config, st: State, obj: StripeSub, now: int, i: nat, status: Status)
    requires SubsAdmitted(cfg, st.subs) && FindStripe(st.subs, obj.id) == Some(i)
    ensures var r, s := Handle(cfg, st, SubscriptionUpdated(obj), now), st.subs[i];
      && (obj.status.SUnmapped? ==> r == (st, Raised(ValueFault)))
      && (Reports(obj, now, status) ==>
            if status == s.status then r == (st, Done(Unchanged))
            else if Allowed(s.status, status) then SyncsRow(st, r, i, status, obj, now)
            else if status.Trialing? then SyncsRow(st, r, i, status, obj, now) || r == (st, Raised(Conflict))
            else r == (st, Raised(IllegalTransition)))
  {
    hide SubsAdmitted, FindStripe, SyncsRow, Reports;
    if Reports(obj, now, status) { SyncResult(cfg, st, obj, now, i, status); }
  }

  /** customer.subscription.deleted cancels the row, whatever status the event carries. */
  lemma DeletedEffect(cfg: Config, st: State, obj: StripeSub, now: int, i: nat)
    requires SubsAdmitted(cfg, st.subs) && FindStripe(st.subs, obj.id) == Some(i)
    ensures var r, s := Handle(cfg, st, SubscriptionDeleted(obj), now), st.subs[i];
      if s.status.Canceled? then r == (st, Done(Unchanged))
      else if s.status.Suspended? then r == (st, Raised(IllegalTransition))
      else SyncsRow(st, r, i, Canceled, obj, now)
  {
    hide SubsAdmitted, FindStripe;
    var canceled := obj.(status := SCanceled);
    SyncResult(cfg, st, canceled, now, i, Canceled);
  }

  /** Events about a subscription nobody knows change nothing. */
  lemma UnknownSubscription(cfg: Config, st: State, obj: StripeSub, now: int)
    requires FindStripe(st.subs, obj.id).None?
    ensures Handle(cfg, st, SubscriptionUpdated(obj), now) == (st, Done(Unknown))
    ensures Handle(cfg, st, SubscriptionDeleted(obj), now) == (st, Done(Unknown))
    ensures Handle(cfg, st, PaymentFailed(Some(obj.id)), now) == (st, Done(Unknown))
    ensures Handle(cfg, st, PaymentFailed(None), now) == (st, Done(Skipped))
    ensures Handle(cfg, st, OtherType, now) == (st, Done(Ignored))
  {
  }

  /** invoice.payment_failed makes a live row past due, counts the failure and schedules its retry. */
  lemma FailureEffect(cfg: Config, st: State, id: string, now: int, i: nat)
    requires SubsAdmitted(cfg, st.subs) && FindStripe(st.subs, id) == Some(i)
    ensures var r, s := Handle(cfg, st, PaymentFailed(Some(id)), now), st.subs[i];
      r == if s.Live()
           then (WithRow(st, i, s.(status := PastDue, failures := s.failures + 1, lastFailureAt := Some(now),
                                   nextRetryAt := Some(now + Delay(cfg.dunning, s.failures + 1)))),
                 Done(MarkedPastDue))
           else (st, Raised(IllegalTransition))
  {
    hide SubsAdmitted, FindStripe, Delay;
    var row := WithFailure(cfg.dunning, st.subs[i], now);
    if row.Some? { ReplacementAdmitted(cfg, st.subs, i, row.value); }
  }

  /** The row a checkout creates. */
  predicate CheckedOut(row: Subscription, c: CheckoutSession, now: int)
  {
    && row.tenant.Some? && c.tenant == Number(row.tenant.value) && c.plan == Number(row.plan)
    && row.stripeId == c.stripeSub
    && (row.cancelAtPeriodEnd, row.pendingPlan, row.canceledAt, row.suspendedAt) == (false, None, None, None)
    && (row.failures, row.lastFailureAt, row.nextRetryAt) == (0, None, None)
    && (match c.detail
        case None =>
          row.status.Active? && row.trialEnd.None? && row.periodStart == now && row.periodEnd == now + 2_592_000
        case Some(obj) =>
          && Reports(obj, now, row.status)
          && ReportedPeriod(obj, now, row.periodStart, row.periodEnd)
          && row.trialEnd == (if Positive(obj.trialEnd) then obj.trialEnd else None))
  }

  /**
    checkout.session.completed: links the tenant's live subscription if it has no
    Stripe id yet, leaves it alone if it has one, and otherwise creates one.
   */
  lemma CheckoutEffect(cfg: Config, st: State, c: CheckoutSession, now: int)
    requires SubsAdmitted(cfg, st.subs)
    ensures var r := Handle(cfg, st, Checkout(c), now);
      if c.tenant.Absent? || c.plan.Absent? || c.stripeSub.None? then r == (st, Done(Skipped))
      else if c.tenant.Malformed? || c.plan.Malformed? then r == (st, Raised(ValueFault))
      else if c.plan.n !in st.plans then r == (st, Done(Skipped))
      else
        var taken := FindStripe(st.subs, c.stripeSub.value).Some?;
        match LiveFor(st.subs, Some(c.tenant.n))
        case Some(i) =>
          if st.subs[i].stripeId.Some? then r == (st, Done(Duplicate))
          else if taken then r == (st, Raised(IntegrityFault))
          else r == (WithRow(st, i, st.subs[i].(stripeId := c.stripeSub)), Done(Linked))
        case None =>
          if c.detail.Some? && c.detail.value.status.SUnmapped? then r == (st, Raised(ValueFault))
          else if taken then r == (st, Raised(IntegrityFault))
          else
            && r.1 == Done(Created) && |r.0.subs| == |st.subs| + 1
            && r.0 == st.(subs := st.subs + [r.0.subs[|st.subs|]])
            && CheckedOut(r.0.subs[|st.subs|], c, now)
  {
    hide SubsAdmitted, LiveFor, FindStripe;
    match PlanCheckout(st, c, now)
    case Answer(_) =>
    case Link(i) => LinkAdmitted(cfg, st.subs, i, c.stripeSub);
    case Create(row) => AppendAdmitted(cfg, st.subs, row);
  }

  lemma LinkAdmitted(cfg: Config, subs: seq<Subscription>, i: nat, id: Option<string>)
    requires SubsAdmitted(cfg, subs) && i < |subs| && subs[i].stripeId.None? && id.Some?
    ensures SubsAdmitted(cfg, subs[i := subs[i].(stripeId := id)]) <==> FindStripe(subs, id.value).None?
  {
    var all := subs[i := subs[i].(stripeId := id)];
    match FindStripe(subs, id.value)
    case None =>
    case Some(j) => assert all[j].stripeId == all[i].stripeId && i != j;
  }

  /** The processed stamp is set exactly when the handler returned and the process lived to set it. */
  lemma DeliveryStamp(cfg: Config, st: State, ev: Event, crash: Crash, now: int)
    requires ValidEvent(ev) && ev.id !in st.ledger
    ensures var (n, out) := DeliverStep(cfg, st, ev, crash, now);
      && n.ledger == st.ledger[ev.id := crash.NoCrash? && out.Done?]
      && n.handled == (if crash.BeforeHandler? then st.handled else st.handled + [ev.id])
  {
    hide Handle;
    var seen := st.(ledger := st.ledger[ev.id := false], handled := st.handled + [ev.id]);
    HandleIgnoresTheRest(cfg, seen, st, ev.payload, now);
  }

  // ------------------------------------------------------------- admin actions

  /** The admin moves a row along an edge, with the fields that go with its target. */
  lemma SetStatusEffect(cfg: Config, st: State, id: nat, target: Option<Status>, now: int)
    requires SubsAdmitted(cfg, st.subs)
    ensures var r := SetStatusStep(cfg, st, id, target, now);
      if id >= |st.subs| then r == (st, Raised(NotFound))
      else if target.None? || !Allowed(st.subs[id].status, target.value) then r == (st, Raised(BadRequest))
      else
        var s := st.subs[id];
        var n := match target.value
          case Canceled =>
            s.(status := Canceled, canceledAt := Some(now), cancelAtPeriodEnd := false, pendingPlan := None)
          case Suspended => s.(status := Suspended, suspendedAt := Some(now), nextRetryAt := None)
          case Active =>
            if s.status.PastDue?
            then s.(status := Active, failures := 0, lastFailureAt := None, nextRetryAt := None)
            else s.(status := Active)
          case PastDue => s.(status := PastDue)
          case Trialing => s;
        r == (WithRow(st, id, n), Done(Updated))
  {
    hide SubsAdmitted;
    if id < |st.subs| && target.Some? && Allowed(st.subs[id].status, target.value) {
      ReplacementAdmitted(cfg, st.subs, id, AdminRow(st.subs[id], target.value, now));
    }
  }

  lemma OverrideEffect(cfg: Config, st: State, id: nat, plan: int, now: int)
    requires SubsAdmitted(cfg, st.subs)
    ensures var r := OverridePlanStep(cfg, st, id, plan, now);
      if id >= |st.subs| || plan !in st.plans || !st.plans[plan].isActive then r == (st, Raised(NotFound))
      else r == (WithRow(st, id, st.subs[id].(plan := plan, pendingPlan := None, periodStart := now,
                                              periodEnd := now + PeriodSeconds(st.plans[plan]))), Done(Updated))
  {
    hide SubsAdmitted;
    if id < |st.subs| && PlanOffered(st.plans, plan) {
      ReplacementAdmitted(cfg, st.subs, id, OnPlan(st.subs[id], plan, st.plans[plan], now));
    }
  }

  // ------------------------------------------------------------------ invoices

  lemma MovedAdmitted(cfg: Config, invoices: seq<Invoice>, id: nat, inv: Invoice)
    requires InvoicesAdmitted(cfg, invoices) && id < |invoices|
    requires inv.sub == invoices[id].sub && inv.periodStart == invoices[id].periodStart
    requires invoices[id].status.Void? ==> inv.status.Void?
    ensures InvoicesAdmitted(cfg, invoices[id := inv])
  {
  }

  /** Only a draft can be issued, only an open invoice paid, only a draft or open one voided. */
  lemma IssueEffect(cfg: Config, st: State, id: nat, now: int)
    requires InvoicesAdmitted(cfg, st.invoices)
    ensures var r := IssueStep(cfg, st, id, now);
      if id >= |st.invoices| then r == (st, Raised(NotFound))
      else if !st.invoices[id].status.Draft? then r == (st, Raised(IllegalTransition))
      else r == (st.(invoices := st.invoices[id := st.invoices[id].(status := Open, issuedAt := Some(now))]),
                 Done(Updated))
  {
    hide InvoicesAdmitted;
    if id < |st.invoices| && st.invoices[id].status.Draft? {
      MovedAdmitted(cfg, st.invoices, id, st.invoices[id].(status := Open, issuedAt := Some(now)));
    }
  }

  lemma VoidEffect(cfg: Config, st: State, id: nat)
    requires InvoicesAdmitted(cfg, st.invoices)
    ensures var r := VoidStep(cfg, st, id);
      if id >= |st.invoices| then r == (st, Raised(NotFound))
      else if !st.invoices[id].status.Draft? && !st.invoices[id].status.Open? then r == (st, Raised(IllegalTransition))
      else r == (st.(invoices := st.invoices[id := st.invoices[id].(status := Void)]), Done(Updated))
  {
    hide InvoicesAdmitted;
    if id < |st.invoices| { MovedAdmitted(cfg, st.invoices, id, st.invoices[id].(status := Void)); }
  }

  /** An accepted payment also takes a past_due subscription back to active, with its schedule cleared. */
  lemma PayEffect(cfg: Config, st: State, id: nat, now: int)
    requires SubsAdmitted(cfg, st.subs) && InvoicesAdmitted(cfg, st.invoices)
    ensures var r := PayStep(cfg, st, id, now);
      if id >= |st.invoices| then r == (st, Raised(NotFound))
      else if !st.invoices[id].status.Open? then r == (st, Raised(IllegalTransition))
      else
        var inv := st.invoices[id];
        var paid := st.(invoices := st.invoices[id := inv.(status := Paid, paidAt := Some(now))]);
        r == (if inv.sub < |st.subs| && st.subs[inv.sub].status.PastDue?
              then WithRow(paid, inv.sub, st.subs[inv.sub].(status := Active, failures := 0, lastFailureAt := None,
                                                            nextRetryAt := None))
              else paid, Done(Updated))
  {
    hide SubsAdmitted, InvoicesAdmitted;
    if id < |st.invoices| && st.invoices[id].status.Open? {
      var inv := st.invoices[id];
      MovedAdmitted(cfg, st.invoices, id, inv.(status := Paid, paidAt := Some(now)));
      if inv.sub < |st.subs| && st.subs[inv.sub].status.PastDue? {
        ReplacementAdmitted(cfg, st.subs, inv.sub, Recovered(st.subs[inv.sub]));
      }
    }
  }

  lemma FreeSlotAdmitted(cfg: Config, invoices: seq<Invoice>, inv: Invoice)
    requires InvoicesAdmitted(cfg, invoices) && Blocking(invoices, inv.sub, inv.periodStart).None?
    ensures InvoicesAdmitted(cfg, invoices + [inv])
  {
  }

  /** What a generated draft says: owner, period, price line and what the plan's metering document owes. */
  ghost predicate Bills(inv: Invoice, s: Subscription, id: nat, plan: Plan, from: int, to: int, usage: Usage)
  {
    && inv.status.Draft? && inv.issuedAt.None? && inv.paidAt.None?
    && inv.tenant == s.tenant && inv.sub == id && inv.currency == plan.currency
    && inv.periodStart == from && inv.periodEnd == to
    && inv.lines != [] && inv.lines[0] == Line(1, plan.price, 0, plan.price) && LinesAddUp(inv.lines)
    && inv.tax == 0 && inv.total == inv.subtotal
    && inv.subtotal == plan.price
         + (if s.tenant.None? then 0 else MeteringOwed(plan.metering, s.tenant.value, from, usage))
  }

  /** Generation drafts one invoice for the asked period, or the current one, unless the slot is taken. */
  lemma GenerateEffect(
    cfg: Config, st: State, tenant: Option<int>, start: Option<int>, end: Option<int>, usage: Usage)
    requires InvoicesAdmitted(cfg, st.invoices)
    ensures var r := GenerateStep(cfg, st, tenant, start, end, usage);
      if tenant.None? then r == (st, Raised(BadRequest))
      else
        match LiveFor(st.subs, tenant)
        case None => r == (st, Raised(NotFound))
        case Some(i) =>
          var s := st.subs[i];
          var from := if start.Some? then start.value else s.periodStart;
          var to := if end.Some? then end.value else s.periodEnd;
          if s.plan !in st.plans then r == (st, Raised(NotFound))
          else if to <= from then r == (st, Raised(ValueFault))
          else if Blocking(st.invoices, i, from).Some? then r == (st, Raised(Conflict))
          else
            && r.1 == Done(Created) && |r.0.invoices| == |st.invoices| + 1
            && r.0 == st.(invoices := st.invoices + [r.0.invoices[|st.invoices|]])
            && Bills(r.0.invoices[|st.invoices|], s, i, st.plans[s.plan], from, to, usage)
  {
    hide InvoicesAdmitted, LiveFor, Blocking, BuiltInvoice, MeteringOwed;
    match LiveFor(st.subs, tenant)
    case None =>
    case Some(i) =>
      var s := st.subs[i];
      if s.plan in st.plans {
        var from := if start.Some? then start.value else s.periodStart;
        var to := if end.Some? then end.value else s.periodEnd;
        GeneratedFigures(s, i, st.plans[s.plan], from, to, usage);
        if Blocking(st.invoices, i, from).None? {
          FreeSlotAdmitted(cfg, st.invoices, BuiltInvoice(s, i, st.plans[s.plan], from, to, usage));
        }
      }
  }

  // ------------------------------------- a request split in two is the request

  /** With nothing in between, check and commit together are the whole subscribe. */
  lemma SubscribeSplit(cfg: Config, st: State, tenant: Option<int>, superuser: bool, plan: int, now: int, later: int)
    ensures var whole := SubscribeStep(cfg, st, tenant, superuser, plan, now);
      var (a, first) := Apply(cfg, st, BeginSubscribe(tenant, superuser, plan, now));
      if first == Done(InFlight) then
        var (b, second) := LandStep(cfg, a, |st.inflight|, later);
        b == whole.0.(inflight := st.inflight + [Closed]) && second == whole.1
      else (a, first) == whole
  {
    hide SubsAdmitted;
    var r := PrepareSubscribe(st, tenant, superuser, plan, now);
    if r.Ready? {
      var ps := st.inflight + [NewSub(r.row, None)];
      assert ps[|st.inflight| := Closed] == st.inflight + [Closed];
    }
  }

  lemma GenerateSplit(
    cfg: Config, st: State, tenant: Option<int>, start: Option<int>, end: Option<int>, usage: Usage, later: int)
    ensures var whole := GenerateStep(cfg, st, tenant, start, end, usage);
      var (a, first) := Apply(cfg, st, BeginGenerate(tenant, start, end, usage));
      if first == Done(InFlight) then
        var (b, second) := LandStep(cfg, a, |st.inflight|, later);
        b == whole.0.(inflight := st.inflight + [Closed]) && second == whole.1
      else (a, first) == whole
  {
    hide InvoicesAdmitted, PrepareGenerate;
    var r := PrepareGenerate(st, tenant, start, end, usage);
    if r.ReadyInvoice? {
      var ps := st.inflight + [NewInvoice(r.inv)];
      assert ps[|st.inflight| := Closed] == st.inflight + [Closed];
    }
  }

  lemma HandlersFinish(cfg: Config, st: State, p: Payload, now: int)
    ensures Handle(cfg, st, p, now).1 != Done(InFlight)
  {
    hide SubsAdmitted, StatusFromStripe, WithFailure, SyncedRow;
  }

  /** With nothing in between, lookup, ledger row, handler and insert together are the whole delivery. */
  lemma DeliverSplit(cfg: Config, st: State, ev: Event, now: int, later: int)
    requires ValidEvent(ev) && ev.id !in st.ledger
    ensures var whole := DeliverStep(cfg, st, ev, NoCrash, now);
      var k, done := |st.inflight|, whole.0.(inflight := st.inflight + [Closed]);
      var a := Apply(cfg, st, BeginDeliver(ev)).0;
      var b := LandStep(cfg, a, k, now).0;
      var (c, out) := LandStep(cfg, b, k, now);
      if out == Done(InFlight) then LandStep(cfg, c, k, later) == (done, whole.1) else (c, out) == (done, whole.1)
  {
    hide Handle, PlanCheckout, CommitSubs;
    var k := |st.inflight|;
    var a := Apply(cfg, st, BeginDeliver(ev)).0;
    var b := LandStep(cfg, a, k, now).0;
    assert b == st.(ledger := st.ledger[ev.id := false], inflight := st.inflight + [Recorded(ev)]);
    assert b.inflight[k := Closed] == st.inflight + [Closed];
    var seen := st.(ledger := st.ledger[ev.id := false], handled := st.handled + [ev.id]);
    var entered := b.(inflight := b.inflight[k := Closed], handled := b.handled + [ev.id]);
    HandleIgnoresTheRest(cfg, entered, seen, ev.payload, now);
    HandleIgnoresTheRest(cfg, seen, seen, ev.payload, now);
    HandlersFinish(cfg, entered, ev.payload, now);
    if ev.payload.Checkout? {
      CreateSplit(cfg, st, seen, b, ev, k, now, later);
    }
  }

  lemma CreateSplit(cfg: Config, st: State, seen: State, b: State, ev: Event, k: nat, now: int, later: int)
    requires ev.payload.Checkout? && k == |st.inflight|
    requires seen == st.(ledger := st.ledger[ev.id := false], handled := st.handled + [ev.id])
    requires b == st.(ledger := st.ledger[ev.id := false], inflight := st.inflight + [Recorded(ev)])
    ensures PlanCheckout(b, ev.payload.session, now) == PlanCheckout(seen, ev.payload.session, now)
    ensures PlanCheckout(b, ev.payload.session, now).Create? ==>
      var row := PlanCheckout(b, ev.payload.session, now).row;
      var c := seen.(inflight := b.inflight[k := NewSub(row, Some(ev.id))]);
      var (n, out) := Handle(cfg, seen, ev.payload, now);
      && LandStep(cfg, b, k, now) == (c, Done(InFlight))
      && LandStep(cfg, c, k, later)
         == (n.(ledger := if out.Done? then n.ledger[ev.id := true] else n.ledger,
                inflight := st.inflight + [Closed]), out)
  {
    hide SubsAdmitted, LiveFor, StatusFromStripe, PeriodFromStripe;
    var plan := PlanCheckout(b, ev.payload.session, now);
    if plan.Create? {
      assert b.inflight[k := NewSub(plan.row, Some(ev.id))][k := Closed] == st.inflight + [Closed];
    }
  }
}
