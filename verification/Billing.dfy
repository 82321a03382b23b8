/**
  The billing context as one state machine. A step is one request, Stripe
  delivery, sweep or admin action; a commit is atomic, and the unique indexes
  of the database are guards on the committed table.

  Tables are sequences: a row's id is its position, rows are only appended.
 */
module Billing {
  import opened Common
  import opened Lifecycle
  import opened Dunning
  import opened Invoicing

  /** Dunning settings, and which of the two partial unique indexes the database has. */
  datatype Config = Config(dunning: Settings, liveIndex: bool, slotIndex: bool)

  // ------------------------------------------------------------ Stripe input

  datatype StripeStatus = SActive | SPastDue | SCanceled | SUnpaid | STrialing | SUnmapped

  datatype StripeSub = StripeSub(
    id: string, status: StripeStatus, start: Option<int>, end: Option<int>, trialEnd: Option<int>)

  datatype CheckoutSession = CheckoutSession(
    tenant: RawNumber, plan: RawNumber, stripeSub: Option<string>, detail: Option<StripeSub>)

  datatype Payload =
    | Checkout(session: CheckoutSession)
    | SubscriptionUpdated(obj: StripeSub)
    | SubscriptionDeleted(obj: StripeSub)
    | PaymentFailed(stripeSub: Option<string>)
    | OtherType
    | NoType

  datatype Event = Event(id: string, payload: Payload)

  /** Where a delivery's process dies, if it does. */
  datatype Crash = NoCrash | BeforeHandler | BeforeStamp

  // ------------------------------------------------------------------- state

  /** A request between its check and its commit. */
  datatype Pending =
    | NewSub(row: Subscription, event: Option<string>)
    | NewInvoice(inv: Invoice)
    | LookedUp(ev: Event)
    | Recorded(ev: Event)
    | Closed

  /** `ledger` maps a recorded event id to its processed stamp; `handled` logs handler entries. */
  datatype State = State(
    plans: map<int, Plan>,
    subs: seq<Subscription>,
    invoices: seq<Invoice>,
    ledger: map<string, bool>,
    handled: seq<string>,
    inflight: seq<Pending>)

  datatype Error = BadRequest | NotFound | Conflict | IllegalTransition | ValueFault | IntegrityFault

  datatype Reply =
    | Created | Scheduled | Upgraded(preview: Preview) | Updated
    | Linked | Duplicate | Skipped | Unknown | Unchanged | Synced | MarkedPastDue | Ignored | Invalid | Died
    | Swept | InFlight

  datatype Outcome = Done(reply: Reply) | Raised(error: Error)

  // ----------------------------------------------------------------- queries

  predicate Occupies(s: Subscription, tenant: Option<int>) { s.Live() && s.tenant == tenant }

  /** `get_live_for_tenant`: the newest live row of the tenant; None stands for the null tenant. */
  function LiveFor(subs: seq<Subscription>, tenant: Option<int>): (r: Option<nat>)
    ensures r.Some? ==> r.value < |subs| && Occupies(subs[r.value], tenant)
    ensures r.Some? ==> forall j | r.value < j < |subs| :: !Occupies(subs[j], tenant)
    ensures r.None? ==> forall j | 0 <= j < |subs| :: !Occupies(subs[j], tenant)
  {
    if subs == [] then None
    else if Occupies(subs[|subs| - 1], tenant) then Some(|subs| - 1)
    else LiveFor(subs[..|subs| - 1], tenant)
  }

  function FindStripe(subs: seq<Subscription>, id: string): (r: Option<nat>)
    ensures r.Some? ==> r.value < |subs| && subs[r.value].stripeId == Some(id)
    ensures r.None? ==> forall j | 0 <= j < |subs| :: subs[j].stripeId != Some(id)
  {
    if subs == [] then None
    else if subs[|subs| - 1].stripeId == Some(id) then Some(|subs| - 1)
    else FindStripe(subs[..|subs| - 1], id)
  }

  /** `find_blocking_for_period`. */
  function Blocking(invoices: seq<Invoice>, sub: nat, start: int): (r: Option<nat>)
    ensures r.Some? ==> r.value < |invoices| && invoices[r.value].Blocks(sub, start)
    ensures r.None? ==> forall j | 0 <= j < |invoices| :: !invoices[j].Blocks(sub, start)
  {
    if invoices == [] then None
    else if invoices[|invoices| - 1].Blocks(sub, start) then Some(|invoices| - 1)
    else Blocking(invoices[..|invoices| - 1], sub, start)
  }

  // ----------------------------------------------------------- commit guards

  /** uq_live_subscription_per_tenant; SQL keeps null tenants out of it. */
  predicate UniqueLive(subs: seq<Subscription>)
  {
    forall i, j | 0 <= i < j < |subs| && subs[i].Live() && subs[j].Live() && subs[i].tenant.Some? ::
      subs[i].tenant != subs[j].tenant
  }

  predicate UniqueStripe(subs: seq<Subscription>)
  {
    forall i, j | 0 <= i < j < |subs| && subs[i].stripeId.Some? :: subs[i].stripeId != subs[j].stripeId
  }

  /** uq_invoice_per_subscription_period, over the invoices that are not void. */
  predicate UniqueSlot(invoices: seq<Invoice>)
  {
    forall i, j | 0 <= i < j < |invoices| && !invoices[i].status.Void? ::
      !invoices[j].Blocks(invoices[i].sub, invoices[i].periodStart)
  }

  predicate SubsAdmitted(cfg: Config, subs: seq<Subscription>)
  {
    (cfg.liveIndex ==> UniqueLive(subs)) && UniqueStripe(subs)
  }

  predicate InvoicesAdmitted(cfg: Config, invoices: seq<Invoice>)
  {
    cfg.slotIndex ==> UniqueSlot(invoices)
  }

  /** Commit a new subscription table, or roll back. */
  function CommitSubs(cfg: Config, st: State, subs: seq<Subscription>, reply: Reply, err: Error): (State, Outcome)
  {
    if SubsAdmitted(cfg, subs) then (st.(subs := subs), Done(reply)) else (st, Raised(err))
  }

  function CommitInvoices(cfg: Config, st: State, invoices: seq<Invoice>, reply: Reply): (State, Outcome)
  {
    if InvoicesAdmitted(cfg, invoices) then (st.(invoices := invoices), Done(reply)) else (st, Raised(Conflict))
  }

  // -------------------------------------------- app/billing/api/endpoints/subscriptions.py

  datatype NewRow = Refused(error: Error) | Ready(row: Subscription)

  predicate PlanOffered(plans: map<int, Plan>, plan: int) { plan in plans && plans[plan].isActive }

  /** Everything `subscribe` does before its commit. */
  function PrepareSubscribe(st: State, tenant: Option<int>, superuser: bool, plan: int, now: int): NewRow
  {
    if tenant.None? && !superuser then Refused(BadRequest)
    else if !PlanOffered(st.plans, plan) then Refused(BadRequest)
    else if LiveFor(st.subs, tenant).Some? then Refused(Conflict)
    else
      var p := st.plans[plan];
      var trialEnd := if p.trialDays > 0 then Some(now + p.trialDays * DAY) else None;
      Ready(Subscription(tenant, plan, if trialEnd.Some? then Trialing else Active, now, NextPeriodEnd(p, now),
                         trialEnd, false, None, None, None, 0, None, None, None))
  }

  function SubscribeStep(cfg: Config, st: State, tenant: Option<int>, superuser: bool, plan: int, now: int)
    : (State, Outcome)
  {
    match PrepareSubscribe(st, tenant, superuser, plan, now)
    case Refused(e) => (st, Raised(e))
    case Ready(row) => CommitSubs(cfg, st, st.subs + [row], Created, IntegrityFault)
  }

  function OnPlan(s: Subscription, id: int, plan: Plan, now: int): Subscription
  {
    s.(plan := id, pendingPlan := None, periodStart := now, periodEnd := NextPeriodEnd(plan, now))
  }

  function ChangePlanStep(cfg: Config, st: State, tenant: Option<int>, plan: int, now: int): (State, Outcome)
  {
    match LiveFor(st.subs, tenant)
    case None => (st, Raised(NotFound))
    case Some(i) =>
      var s := st.subs[i];
      if !PlanOffered(st.plans, plan) then (st, Raised(BadRequest))
      else if s.plan !in st.plans then (st, Raised(NotFound))
      else if plan == s.plan then (st, Raised(BadRequest))
      else
        match DecidePlanChange(st.plans[s.plan], st.plans[plan], s, now)
        case CrossCurrency => (st, Raised(BadRequest))
        case Immediate(preview) =>
          CommitSubs(cfg, st, st.subs[i := OnPlan(s, plan, st.plans[plan], now)], Upgraded(preview), IntegrityFault)
        case AtPeriodEnd =>
          CommitSubs(cfg, st, st.subs[i := s.(pendingPlan := Some(plan))], Scheduled, IntegrityFault)
  }

  function CanceledRow(s: Subscription, now: int): Subscription
  {
    s.(status := Canceled, canceledAt := Some(now), cancelAtPeriodEnd := false, pendingPlan := None)
  }

  function CancelStep(cfg: Config, st: State, tenant: Option<int>, immediate: bool, now: int): (State, Outcome)
  {
    match LiveFor(st.subs, tenant)
    case None => (st, Raised(NotFound))
    case Some(i) =>
      var s := st.subs[i];
      if immediate then
        if !Allowed(s.status, Canceled) then (st, Raised(Conflict))
        else CommitSubs(cfg, st, st.subs[i := CanceledRow(s, now)], Updated, IntegrityFault)
      else if s.status.Trialing? then (st, Raised(BadRequest))
      else CommitSubs(cfg, st, st.subs[i := s.(cancelAtPeriodEnd := true)], Updated, IntegrityFault)
  }

  function ResumeStep(cfg: Config, st: State, tenant: Option<int>): (State, Outcome)
  {
    match LiveFor(st.subs, tenant)
    case None => (st, Raised(NotFound))
    case Some(i) =>
      if !st.subs[i].cancelAtPeriodEnd then (st, Raised(BadRequest))
      else CommitSubs(cfg, st, st.subs[i := st.subs[i].(cancelAtPeriodEnd := false)], Updated, IntegrityFault)
  }

  // ----------------------------------------------- app/billing/services/stripe_events.py

  function StripeTime(v: Option<int>, fallback: int): int
  {
    if v.Some? && v.value > 0 then v.value else fallback
  }

  function PeriodFromStripe(obj: Option<StripeSub>, now: int): (p: (int, int))
    ensures p.0 < p.1
  {
    var start := StripeTime(if obj.Some? then obj.value.start else None, now);
    var end := StripeTime(if obj.Some? then obj.value.end else None, start + 30 * DAY);
    (start, Max(end, start + MINUTE))
  }

  /** None stands for the ValueError on an unmapped status. */
  function StatusFromStripe(obj: StripeSub, now: int): Option<Status>
  {
    match obj.status
    case SActive => Some(Active)
    case SPastDue => Some(PastDue)
    case SUnpaid => Some(PastDue)
    case SCanceled => Some(Canceled)
    case SUnmapped => None
    case STrialing =>
      if obj.trialEnd.Some? && 0 < obj.trialEnd.value <= now then Some(Active) else Some(Trialing)
  }

  datatype CheckoutPlan = Answer(outcome: Outcome) | Link(id: nat) | Create(row: Subscription)

  /** `handle_checkout_completed` up to its commit. */
  function PlanCheckout(st: State, c: CheckoutSession, now: int): (r: CheckoutPlan)
    ensures r.Link? ==> r.id < |st.subs|
  {
    if c.tenant.Absent? || c.plan.Absent? || c.stripeSub.None? then Answer(Done(Skipped))
    else if c.tenant.Malformed? || c.plan.Malformed? then Answer(Raised(ValueFault))
    else if c.plan.n !in st.plans then Answer(Done(Skipped))
    else
      match LiveFor(st.subs, Some(c.tenant.n))
      case Some(i) => if st.subs[i].stripeId.None? then Link(i) else Answer(Done(Duplicate))
      case None =>
        var status := if c.detail.Some? then StatusFromStripe(c.detail.value, now) else Some(Active);
        if status.None? then Answer(Raised(ValueFault))
        else
          var (start, end) := PeriodFromStripe(c.detail, now);
          var trialEnd := if c.detail.Some? && c.detail.value.trialEnd.Some? && c.detail.value.trialEnd.value > 0
                          then c.detail.value.trialEnd else None;
          Create(Subscription(Some(c.tenant.n), c.plan.n, status.value, start, end, trialEnd, false, None, None,
                              c.stripeSub, 0, None, None, None))
  }

  function HandleCheckout(cfg: Config, st: State, c: CheckoutSession, now: int): (State, Outcome)
  {
    match PlanCheckout(st, c, now)
    case Answer(out) => (st, out)
    case Link(i) => CommitSubs(cfg, st, st.subs[i := st.subs[i].(stripeId := c.stripeSub)], Linked, IntegrityFault)
    case Create(row) => CommitSubs(cfg, st, st.subs + [row], Created, IntegrityFault)
  }

  function SyncedRow(s: Subscription, obj: StripeSub, target: Status, now: int): Subscription
  {
    var base := match target
      case Canceled => CanceledRow(s, now)
      case Active => if s.status.PastDue? then Cleared(s) else s
      case _ => s;
    var (start, end) := PeriodFromStripe(Some(obj), now);
    base.(status := target, periodStart := start, periodEnd := end)
  }

  /** `handle_subscription_sync`; a target of trialing is written without checking the edge. */
  function HandleSync(cfg: Config, st: State, obj: StripeSub, now: int): (State, Outcome)
  {
    match FindStripe(st.subs, obj.id)
    case None => (st, Done(Unknown))
    case Some(i) =>
      var s := st.subs[i];
      match StatusFromStripe(obj, now)
      case None => (st, Raised(ValueFault))
      case Some(target) =>
        if target == s.status then (st, Done(Unchanged))
        else if !target.Trialing? && !Allowed(s.status, target) then (st, Raised(IllegalTransition))
        else CommitSubs(cfg, st, st.subs[i := SyncedRow(s, obj, target, now)], Synced, Conflict)
  }

  function HandlePaymentFailed(cfg: Config, st: State, id: Option<string>, now: int): (State, Outcome)
  {
    if id.None? then (st, Done(Skipped))
    else
      match FindStripe(st.subs, id.value)
      case None => (st, Done(Unknown))
      case Some(i) =>
        match WithFailure(cfg.dunning, st.subs[i], now)
        case None => (st, Raised(IllegalTransition))
        case Some(row) => CommitSubs(cfg, st, st.subs[i := row], MarkedPastDue, IntegrityFault)
  }

  function Handle(cfg: Config, st: State, p: Payload, now: int): (State, Outcome)
  {
    match p
    case Checkout(c) => HandleCheckout(cfg, st, c, now)
    case SubscriptionUpdated(obj) => HandleSync(cfg, st, obj, now)
    case SubscriptionDeleted(obj) => HandleSync(cfg, st, obj.(status := SCanceled), now)
    case PaymentFailed(id) => HandlePaymentFailed(cfg, st, id, now)
    case _ => (st, Done(Ignored))
  }

  predicate ValidEvent(ev: Event) { ev.id != "" && !ev.payload.NoType? }

  /** `process_event`: ledger row first, then the handler, then the processed stamp. */
  function DeliverStep(cfg: Config, st: State, ev: Event, crash: Crash, now: int): (State, Outcome)
  {
    if !ValidEvent(ev) then (st, Done(Invalid))
    else if ev.id in st.ledger then (st, Done(Duplicate))
    else
      var seen := st.(ledger := st.ledger[ev.id := false]);
      if crash.BeforeHandler? then (seen, Done(Died))
      else
        var (after, out) := Handle(cfg, seen.(handled := seen.handled + [ev.id]), ev.payload, now);
        if out.Raised? || crash.BeforeStamp? then (after, out)
        else (after.(ledger := after.ledger[ev.id := true]), out)
  }

  // ------------------------------------------------------------------ sweeps

  predicate Within(ids: seq<nat>, n: nat) { forall a | 0 <= a < |ids| :: ids[a] < n }

  /** The rows the dunning sweep selects, in id order. */
  function DueRows(subs: seq<Subscription>, now: int): (ids: seq<nat>)
    ensures Within(ids, |subs|) && forall a | 0 <= a < |ids| :: IsDue(subs[ids[a]], now)
    ensures forall i | 0 <= i < |subs| && IsDue(subs[i], now) :: i in ids
    ensures forall a, b | 0 <= a < b < |ids| :: ids[a] < ids[b]
  {
    if subs == [] then []
    else
      var before := DueRows(subs[..|subs| - 1], now);
      if IsDue(subs[|subs| - 1], now) then before + [|subs| - 1] else before
  }

  function Limited(ids: seq<nat>, limit: Option<nat>): seq<nat>
  {
    if limit.Some? && limit.value < |ids| then ids[..limit.value] else ids
  }

  function TickAll(cfg: Settings, subs: seq<Subscription>, ids: seq<nat>, now: int): (out: seq<Subscription>)
    requires Within(ids, |subs|)
    ensures |out| == |subs|
  {
    if ids == [] then subs
    else
      var before := TickAll(cfg, subs, ids[..|ids| - 1], now);
      var i := ids[|ids| - 1];
      before[i := Tick(cfg, before[i], now)]
  }

  function SweepDunningStep(cfg: Config, st: State, limit: Option<nat>, now: int): (State, Outcome)
  {
    var ids := Limited(DueRows(st.subs, now), limit);
    CommitSubs(cfg, st, TickAll(cfg.dunning, st.subs, ids, now), Swept, IntegrityFault)
  }

  datatype NewDocument = RefusedInvoice(error: Error) | ReadyInvoice(inv: Invoice)

  /** `generate_invoice` up to its commit. */
  function PrepareInvoice(st: State, id: nat, plan: Plan, start: Option<int>, end: Option<int>, usage: Usage)
    : NewDocument
    requires id < |st.subs|
  {
    var s := st.subs[id];
    if !s.Live() then RefusedInvoice(Conflict)
    else
      var from := if start.Some? then start.value else s.periodStart;
      var to := if end.Some? then end.value else s.periodEnd;
      if to <= from then RefusedInvoice(ValueFault)
      else if Blocking(st.invoices, id, from).Some? then RefusedInvoice(Conflict)
      else ReadyInvoice(BuiltInvoice(s, id, plan, from, to, usage))
  }

  /** The endpoint: the caller's live subscription and its plan, then `generate_invoice`. */
  function PrepareGenerate(st: State, tenant: Option<int>, start: Option<int>, end: Option<int>, usage: Usage)
    : NewDocument
  {
    if tenant.None? then RefusedInvoice(BadRequest)
    else
      match LiveFor(st.subs, tenant)
      case None => RefusedInvoice(NotFound)
      case Some(i) =>
        if st.subs[i].plan !in st.plans then RefusedInvoice(NotFound)
        else PrepareInvoice(st, i, st.plans[st.subs[i].plan], start, end, usage)
  }

  /** The invoice sweep's work on one subscription, up to its first commit. */
  function PrepareSweep(st: State, id: nat, now: int, usage: Usage): NewDocument
  {
    if id >= |st.subs| || now < st.subs[id].periodEnd || st.subs[id].plan !in st.plans then RefusedInvoice(NotFound)
    else PrepareInvoice(st, id, st.plans[st.subs[id].plan], None, None, usage)
  }

  function GenerateStep(cfg: Config, st: State, tenant: Option<int>, start: Option<int>, end: Option<int>, usage: Usage)
    : (State, Outcome)
  {
    match PrepareGenerate(st, tenant, start, end, usage)
    case RefusedInvoice(e) => (st, Raised(e))
    case ReadyInvoice(inv) => CommitInvoices(cfg, st, st.invoices + [inv], Created)
  }

  function IssueStep(cfg: Config, st: State, id: nat, now: int): (State, Outcome)
  {
    if id >= |st.invoices| then (st, Raised(NotFound))
    else if !AllowedInvoice(st.invoices[id].status, Open) then (st, Raised(IllegalTransition))
    else CommitInvoices(cfg, st, st.invoices[id := st.invoices[id].(status := Open, issuedAt := Some(now))], Updated)
  }

  /** `mark_paid`: the payment also recovers a past_due subscription. */
  function PayStep(cfg: Config, st: State, id: nat, now: int): (State, Outcome)
  {
    if id >= |st.invoices| then (st, Raised(NotFound))
    else if !AllowedInvoice(st.invoices[id].status, Paid) then (st, Raised(IllegalTransition))
    else
      var inv := st.invoices[id];
      var invoices := st.invoices[id := inv.(status := Paid, paidAt := Some(now))];
      var subs := if inv.sub < |st.subs| && st.subs[inv.sub].status.PastDue?
                  then st.subs[inv.sub := Recovered(st.subs[inv.sub])] else st.subs;
      if InvoicesAdmitted(cfg, invoices) && SubsAdmitted(cfg, subs)
      then (st.(invoices := invoices, subs := subs), Done(Updated))
      else (st, Raised(IntegrityFault))
  }

  function VoidStep(cfg: Config, st: State, id: nat): (State, Outcome)
  {
    if id >= |st.invoices| then (st, Raised(NotFound))
    else if !AllowedInvoice(st.invoices[id].status, Void) then (st, Raised(IllegalTransition))
    else CommitInvoices(cfg, st, st.invoices[id := st.invoices[id].(status := Void)], Updated)
  }

  /** The live subscriptions whose period has ended, in id order. */
  function EndedRows(subs: seq<Subscription>, now: int): (ids: seq<nat>)
    ensures Within(ids, |subs|) && forall a | 0 <= a < |ids| :: subs[ids[a]].Live() && subs[ids[a]].periodEnd <= now
    ensures forall i | 0 <= i < |subs| && subs[i].Live() && subs[i].periodEnd <= now :: i in ids
    ensures forall a, b | 0 <= a < b < |ids| :: ids[a] < ids[b]
  {
    if subs == [] then []
    else
      var before := EndedRows(subs[..|subs| - 1], now);
      var s := subs[|subs| - 1];
      if s.Live() && s.periodEnd <= now then before + [|subs| - 1] else before
  }

  /** Where the sweep's work on one subscription breaks down, if it does. */
  datatype Fault = NoFault | AtLookup | BeforeInsert | BeforeIssue

  datatype Tally = Tally(generated: nat, skipped: nat, failed: nat)

  function FaultOf(faults: map<nat, Fault>, id: nat): Fault
  {
    if id in faults then faults[id] else NoFault
  }

  /** The invoice sweep's work on one subscription. */
  function SweepOne(cfg: Config, st: State, id: nat, now: int, usage: Usage, fault: Fault): (r: (State, Tally))
    requires id < |st.subs|
    ensures r.0 == st.(invoices := r.0.invoices)
  {
    var s := st.subs[id];
    if s.plan !in st.plans || fault.AtLookup? then (st, Tally(0, 0, 1))
    else if Blocking(st.invoices, id, s.periodStart).Some? then (st, Tally(0, 1, 0))
    else if fault.BeforeInsert? then (st, Tally(0, 0, 1))
    else
      match PrepareInvoice(st, id, st.plans[s.plan], None, None, usage)
      case RefusedInvoice(_) => (st, Tally(0, 0, 1))
      case ReadyInvoice(inv) =>
        var (inserted, out) := CommitInvoices(cfg, st, st.invoices + [inv], Created);
        if out.Raised? || fault.BeforeIssue? then (inserted, Tally(0, 0, 1))
        else
          var (issued, done) := IssueStep(cfg, inserted, |st.invoices|, now);
          (issued, if done.Done? then Tally(1, 0, 0) else Tally(0, 0, 1))
  }

  function SweepMany(cfg: Config, st: State, ids: seq<nat>, now: int, usage: Usage, faults: map<nat, Fault>)
    : (r: (State, Tally))
    requires Within(ids, |st.subs|)
    ensures r.0 == st.(invoices := r.0.invoices)
  {
    if ids == [] then (st, Tally(0, 0, 0))
    else
      var (before, t) := SweepMany(cfg, st, ids[..|ids| - 1], now, usage, faults);
      var i := ids[|ids| - 1];
      var (after, one) := SweepOne(cfg, before, i, now, usage, FaultOf(faults, i));
      (after, Tally(t.generated + one.generated, t.skipped + one.skipped, t.failed + one.failed))
  }

  function SweepInvoicesStep(cfg: Config, st: State, now: int, usage: Usage, faults: map<nat, Fault>): (State, Outcome)
  {
    (SweepMany(cfg, st, EndedRows(st.subs, now), now, usage, faults).0, Done(Swept))
  }

  // ---------------------------------------------------- app/admin/__init__.py

  function AdminRow(s: Subscription, target: Status, now: int): Subscription
  {
    match target
    case Canceled => CanceledRow(s, now)
    case Suspended => s.(status := Suspended, suspendedAt := Some(now), nextRetryAt := None)
    case Active => (if s.status.PastDue? then Cleared(s) else s).(status := Active)
    case _ => s.(status := target)
  }

  function SetStatusStep(cfg: Config, st: State, id: nat, target: Option<Status>, now: int): (State, Outcome)
  {
    if id >= |st.subs| then (st, Raised(NotFound))
    else if target.None? || !Allowed(st.subs[id].status, target.value) then (st, Raised(BadRequest))
    else CommitSubs(cfg, st, st.subs[id := AdminRow(st.subs[id], target.value, now)], Updated, IntegrityFault)
  }

  function OverridePlanStep(cfg: Config, st: State, id: nat, plan: int, now: int): (State, Outcome)
  {
    if id >= |st.subs| || !PlanOffered(st.plans, plan) then (st, Raised(NotFound))
    else CommitSubs(cfg, st, st.subs[id := OnPlan(st.subs[id], plan, st.plans[plan], now)], Updated, IntegrityFault)
  }

  // ------------------------------------------- requests that interleave

  function Begin(st: State, p: Pending): (State, Outcome)
  {
    (st.(inflight := st.inflight + [p]), Done(InFlight))
  }

  /** One more atomic stretch of the k-th request in flight. */
  function LandStep(cfg: Config, st: State, k: nat, now: int): (State, Outcome)
  {
    if k >= |st.inflight| then (st, Done(Ignored))
    else
      var closed := st.(inflight := st.inflight[k := Closed]);
      match st.inflight[k]
      case Closed => (st, Done(Ignored))
      case NewInvoice(inv) => CommitInvoices(cfg, closed, st.invoices + [inv], Created)
      case NewSub(row, event) =>
        var (after, out) := CommitSubs(cfg, closed, st.subs + [row], Created, IntegrityFault);
        if out.Done? && event.Some? then (after.(ledger := after.ledger[event.value := true]), out) else (after, out)
      case LookedUp(ev) =>
        // The insert meets the unique event id: a concurrent delivery may have won.
        if ev.id in st.ledger then (closed, Done(Duplicate))
        else (st.(ledger := st.ledger[ev.id := false], inflight := st.inflight[k := Recorded(ev)]), Done(InFlight))
      case Recorded(ev) =>
        var entered := closed.(handled := st.handled + [ev.id]);
        if ev.payload.Checkout? && PlanCheckout(st, ev.payload.session, now).Create? then
          var row := PlanCheckout(st, ev.payload.session, now).row;
          (entered.(inflight := st.inflight[k := NewSub(row, Some(ev.id))]), Done(InFlight))
        else
          var (after, out) := Handle(cfg, entered, ev.payload, now);
          if out.Raised? then (after, out) else (after.(ledger := after.ledger[ev.id := true]), out)
  }

  // ------------------------------------------------------------- the machine

  datatype Step =
    | Subscribe(tenant: Option<int>, superuser: bool, plan: int, now: int)
    | ChangePlan(tenant: Option<int>, plan: int, now: int)
    | Cancel(tenant: Option<int>, immediate: bool, now: int)
    | Resume(tenant: Option<int>)
    | Deliver(ev: Event, crash: Crash, now: int)
    | SweepDunning(limit: Option<nat>, now: int)
    | SweepInvoices(now: int, usage: Usage, faults: map<nat, Fault>)
    | Generate(tenant: Option<int>, start: Option<int>, end: Option<int>, usage: Usage)
    | Issue(id: nat, now: int)
    | Pay(id: nat, now: int)
    | VoidInvoice(id: nat)
    | SetStatus(id: nat, target: Option<Status>, now: int)
    | OverridePlan(id: nat, plan: int, now: int)
    | PutPlan(plan: int, doc: Plan)
    | BeginSubscribe(tenant: Option<int>, superuser: bool, plan: int, now: int)
    | BeginGenerate(tenant: Option<int>, start: Option<int>, end: Option<int>, usage: Usage)
    | BeginSweep(id: nat, now: int, usage: Usage)
    | BeginDeliver(ev: Event)
    | Land(k: nat, now: int)

  function Apply(cfg: Config, st: State, step: Step): (State, Outcome)
  {
    match step
    case Subscribe(t, su, p, now) => SubscribeStep(cfg, st, t, su, p, now)
    case ChangePlan(t, p, now) => ChangePlanStep(cfg, st, t, p, now)
    case Cancel(t, imm, now) => CancelStep(cfg, st, t, imm, now)
    case Resume(t) => ResumeStep(cfg, st, t)
    case Deliver(ev, crash, now) => DeliverStep(cfg, st, ev, crash, now)
    case SweepDunning(limit, now) => SweepDunningStep(cfg, st, limit, now)
    case SweepInvoices(now, usage, faults) => SweepInvoicesStep(cfg, st, now, usage, faults)
    case Generate(t, s, e, usage) => GenerateStep(cfg, st, t, s, e, usage)
    case Issue(id, now) => IssueStep(cfg, st, id, now)
    case Pay(id, now) => PayStep(cfg, st, id, now)
    case VoidInvoice(id) => VoidStep(cfg, st, id)
    case SetStatus(id, target, now) => SetStatusStep(cfg, st, id, target, now)
    case OverridePlan(id, plan, now) => OverridePlanStep(cfg, st, id, plan, now)
    case PutPlan(id, doc) => (st.(plans := st.plans[id := doc]), Done(Updated))
    case BeginSubscribe(t, su, p, now) =>
      (match PrepareSubscribe(st, t, su, p, now)
       case Refused(e) => (st, Raised(e))
       case Ready(row) => Begin(st, NewSub(row, None)))
    case BeginGenerate(t, s, e, usage) =>
      (match PrepareGenerate(st, t, s, e, usage)
       case RefusedInvoice(e) => (st, Raised(e))
       case ReadyInvoice(inv) => Begin(st, NewInvoice(inv)))
    case BeginSweep(id, now, usage) =>
      (match PrepareSweep(st, id, now, usage)
       case RefusedInvoice(e) => (st, Raised(e))
       case ReadyInvoice(inv) => Begin(st, NewInvoice(inv)))
    case BeginDeliver(ev) =>
      if !ValidEvent(ev) then (st, Done(Invalid))
      else if ev.id in st.ledger then (st, Done(Duplicate))
      else Begin(st, LookedUp(ev))
    case Land(k, now) => LandStep(cfg, st, k, now)
  }

  function Run(cfg: Config, st: State, steps: seq<Step>): State
  {
    if steps == [] then st else Apply(cfg, Run(cfg, st, steps[..|steps| - 1]), steps[|steps| - 1]).0
  }

  function Initial(plans: map<int, Plan>): State { State(plans, [], [], map[], [], []) }
}
