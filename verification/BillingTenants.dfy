/**
  One live subscription per tenant and one invoice per slot: what application
  logic guarantees by itself, and what needs the unique indexes.
 */
module BillingTenants {
  import opened Common
  import opened Lifecycle
  import opened Dunning
  import opened Invoicing
  import opened Billing
  import opened BillingRuns

  /** At most one live row per tenant, the null tenant included. */
  predicate OneLive(subs: seq<Subscription>)
  {
    forall i, j | 0 <= i < j < |subs| && subs[i].Live() && subs[j].Live() :: subs[i].tenant != subs[j].tenant
  }

  /** The step runs start to end with nothing in between. */
  predicate Serial(step: Step)
  {
    !step.BeginSubscribe? && !step.BeginGenerate? && !step.BeginSweep? && !step.BeginDeliver? && !step.Land?
  }

  /** The same database without its two partial unique indexes. */
  function Bare(cfg: Config): Config { cfg.(liveIndex := false, slotIndex := false) }

  lemma AppendKeepsOneLive(subs: seq<Subscription>, row: Subscription)
    requires OneLive(subs) && LiveFor(subs, row.tenant).None?
    ensures OneLive(subs + [row])
  {
    var all := subs + [row];
    forall i, j | 0 <= i < j < |all| && all[i].Live() && all[j].Live()
      ensures all[i].tenant != all[j].tenant
    {
      if j == |subs| { assert !Occupies(subs[i], row.tenant); }
    }
  }

  lemma UpdateKeepsOneLive(subs: seq<Subscription>, i: nat, row: Subscription)
    requires OneLive(subs) && i < |subs| && row.tenant == subs[i].tenant && (row.Live() ==> subs[i].Live())
    ensures OneLive(subs[i := row])
  {
  }

  lemma OneLiveIsUniqueLive(subs: seq<Subscription>)
    requires OneLive(subs)
    ensures UniqueLive(subs)
  {
  }

  lemma UpdateKeepsUniqueSlot(invoices: seq<Invoice>, id: nat, inv: Invoice)
    requires UniqueSlot(invoices) && id < |invoices|
    requires inv.sub == invoices[id].sub && inv.periodStart == invoices[id].periodStart
    requires invoices[id].status.Void? ==> inv.status.Void?
    ensures UniqueSlot(invoices[id := inv])
  {
  }

  lemma AppendKeepsUniqueSlot(invoices: seq<Invoice>, inv: Invoice)
    requires UniqueSlot(invoices) && Blocking(invoices, inv.sub, inv.periodStart).None?
    ensures UniqueSlot(invoices + [inv])
  {
  }

  /** The step does the same with and without the indexes, and keeps both properties. */
  predicate NeedsNoIndex(cfg: Config, st: State, r: (State, Outcome), bare: (State, Outcome))
  {
    r == bare && OneLive(r.0.subs) && (UniqueSlot(st.invoices) ==> UniqueSlot(r.0.invoices))
  }

  predicate Exclusive(st: State) { OneLive(st.subs) && UniqueSlot(st.invoices) }

  lemma UnchangedNeedsNoIndex(cfg: Config, st: State, out: Outcome)
    requires OneLive(st.subs)
    ensures NeedsNoIndex(cfg, st, (st, out), (st, out))
  {
  }

  /** A row replaced without coming to life. */
  lemma ReplaceNeedsNoIndex(cfg: Config, st: State, i: nat, row: Subscription, reply: Reply, err: Error)
    requires OneLive(st.subs) && i < |st.subs| && row.tenant == st.subs[i].tenant && (row.Live() ==> st.subs[i].Live())
    ensures NeedsNoIndex(cfg, st, CommitSubs(cfg, st, st.subs[i := row], reply, err),
                                  CommitSubs(Bare(cfg), st, st.subs[i := row], reply, err))
  {
    hide OneLive, UniqueLive, UniqueStripe, UniqueSlot;
    UpdateKeepsOneLive(st.subs, i, row);
    OneLiveIsUniqueLive(st.subs[i := row]);
  }

  /** A row appended for a tenant without a live one. */
  lemma AppendNeedsNoIndex(cfg: Config, st: State, row: Subscription, reply: Reply, err: Error)
    requires OneLive(st.subs) && LiveFor(st.subs, row.tenant).None?
    ensures NeedsNoIndex(cfg, st, CommitSubs(cfg, st, st.subs + [row], reply, err),
                                  CommitSubs(Bare(cfg), st, st.subs + [row], reply, err))
  {
    hide OneLive, UniqueLive, UniqueStripe, UniqueSlot, LiveFor;
    AppendKeepsOneLive(st.subs, row);
    OneLiveIsUniqueLive(st.subs + [row]);
  }

  lemma PlanChangeNeedsNoIndex(cfg: Config, st: State, tenant: Option<int>, plan: int, now: int)
    requires OneLive(st.subs)
    ensures NeedsNoIndex(cfg, st, ChangePlanStep(cfg, st, tenant, plan, now),
                          ChangePlanStep(Bare(cfg), st, tenant, plan, now))
  {
    hide NeedsNoIndex, CommitSubs, DecidePlanChange, OneLive;
    var r := LiveFor(st.subs, tenant);
    UnchangedNeedsNoIndex(cfg, st, Raised(NotFound));
    UnchangedNeedsNoIndex(cfg, st, Raised(BadRequest));
    if r.Some? && PlanOffered(st.plans, plan) && st.subs[r.value].plan in st.plans {
      var i := r.value;
      var s := st.subs[i];
      match DecidePlanChange(st.plans[s.plan], st.plans[plan], s, now)
      case CrossCurrency =>
      case Immediate(preview) =>
        ReplaceNeedsNoIndex(cfg, st, i, OnPlan(s, plan, st.plans[plan], now), Upgraded(preview), IntegrityFault);
      case AtPeriodEnd =>
        ReplaceNeedsNoIndex(cfg, st, i, s.(pendingPlan := Some(plan)), Scheduled, IntegrityFault);
    }
  }

  lemma SubscribeNeedsNoIndex(cfg: Config, st: State, t: Option<int>, su: bool, p: int, now: int)
    requires OneLive(st.subs)
    ensures NeedsNoIndex(cfg, st, SubscribeStep(cfg, st, t, su, p, now), SubscribeStep(Bare(cfg), st, t, su, p, now))
  {
    hide NeedsNoIndex, CommitSubs, OneLive;
    match PrepareSubscribe(st, t, su, p, now)
    case Refused(e) => UnchangedNeedsNoIndex(cfg, st, Raised(e));
    case Ready(row) => AppendNeedsNoIndex(cfg, st, row, Created, IntegrityFault);
  }

  lemma CancelNeedsNoIndex(cfg: Config, st: State, t: Option<int>, immediate: bool, now: int)
    requires OneLive(st.subs)
    ensures NeedsNoIndex(cfg, st, CancelStep(cfg, st, t, immediate, now), CancelStep(Bare(cfg), st, t, immediate, now))
    ensures NeedsNoIndex(cfg, st, ResumeStep(cfg, st, t), ResumeStep(Bare(cfg), st, t))
  {
    hide NeedsNoIndex, CommitSubs, OneLive;
    UnchangedNeedsNoIndex(cfg, st, Raised(NotFound));
    UnchangedNeedsNoIndex(cfg, st, Raised(BadRequest));
    UnchangedNeedsNoIndex(cfg, st, Raised(Conflict));
    var r := LiveFor(st.subs, t);
    if r.Some? {
      var s := st.subs[r.value];
      ReplaceNeedsNoIndex(cfg, st, r.value, CanceledRow(s, now), Updated, IntegrityFault);
      ReplaceNeedsNoIndex(cfg, st, r.value, s.(cancelAtPeriodEnd := true), Updated, IntegrityFault);
      ReplaceNeedsNoIndex(cfg, st, r.value, s.(cancelAtPeriodEnd := false), Updated, IntegrityFault);
    }
  }

  lemma AdminNeedsNoIndex(cfg: Config, st: State, step: Step)
    requires OneLive(st.subs) && (step.SetStatus? || step.OverridePlan?)
    ensures NeedsNoIndex(cfg, st, Apply(cfg, st, step), Apply(Bare(cfg), st, step))
  {
    hide NeedsNoIndex, CommitSubs, OneLive;
    UnchangedNeedsNoIndex(cfg, st, Raised(NotFound));
    UnchangedNeedsNoIndex(cfg, st, Raised(BadRequest));
    if step.id < |st.subs| {
      match step
      case SetStatus(id, target, now) =>
        if target.Some? && Allowed(st.subs[id].status, target.value) {
          ReplaceNeedsNoIndex(cfg, st, id, AdminRow(st.subs[id], target.value, now), Updated, IntegrityFault);
        }
      case OverridePlan(id, plan, now) =>
        if PlanOffered(st.plans, plan) {
          ReplaceNeedsNoIndex(cfg, st, id, OnPlan(st.subs[id], plan, st.plans[plan], now), Updated, IntegrityFault);
        }
    }
  }

  /** A sync to trialing of a dead row whose tenant has a live one: the commit the live index is for. */
  predicate TrialClash(st: State, p: Payload, now: int)
  {
    TrialSync(st, p, now) &&
    var s := st.subs[FindStripe(st.subs, p.obj.id).value];
    !s.Live() && LiveFor(st.subs, s.tenant).Some?
  }

  predicate Clashes(st: State, step: Step)
  {
    RunsHandler(st, step) && TrialClash(st, PayloadOf(st, step), step.now)
  }

  lemma RevivedTable(subs: seq<Subscription>, i: nat, row: Subscription)
    requires OneLive(subs) && i < |subs| && row.Live() && row.tenant == subs[i].tenant
    ensures OneLive(subs[i := row]) <==> subs[i].Live() || LiveFor(subs, row.tenant).None?
  {
    var after := subs[i := row];
    match LiveFor(subs, row.tenant)
    case Some(j) =>
      assert after[j].Live() && after[j].tenant == after[i].tenant;
    case None =>
      assert forall j | 0 <= j < |after| && j != i :: !Occupies(subs[j], row.tenant);
  }

  /** A row that comes to life where no other is. */
  lemma RevivalNeedsNoIndex(cfg: Config, st: State, i: nat, row: Subscription, reply: Reply, err: Error)
    requires OneLive(st.subs) && i < |st.subs| && row.Live() && row.tenant == st.subs[i].tenant
    requires st.subs[i].Live() || LiveFor(st.subs, row.tenant).None?
    ensures NeedsNoIndex(cfg, st, CommitSubs(cfg, st, st.subs[i := row], reply, err),
                                  CommitSubs(Bare(cfg), st, st.subs[i := row], reply, err))
  {
    hide OneLive, UniqueLive, UniqueStripe, UniqueSlot, LiveFor;
    RevivedTable(st.subs, i, row);
    OneLiveIsUniqueLive(st.subs[i := row]);
  }

  lemma SyncNeedsNoIndex(cfg: Config, st: State, obj: StripeSub, now: int)
    requires OneLive(st.subs) && !TrialClash(st, SubscriptionUpdated(obj), now)
    ensures NeedsNoIndex(cfg, st, HandleSync(cfg, st, obj, now), HandleSync(Bare(cfg), st, obj, now))
  {
    hide NeedsNoIndex, CommitSubs, OneLive;
    UnchangedNeedsNoIndex(cfg, st, HandleSync(cfg, st, obj, now).1);
    match FindStripe(st.subs, obj.id)
    case None =>
    case Some(i) =>
      var target := StatusFromStripe(obj, now);
      if target == Some(Trialing) && !st.subs[i].status.Trialing? {
        RevivalNeedsNoIndex(cfg, st, i, SyncedRow(st.subs[i], obj, Trialing, now), Synced, Conflict);
      } else if target.Some? && Allowed(st.subs[i].status, target.value) {
        ReplaceNeedsNoIndex(cfg, st, i, SyncedRow(st.subs[i], obj, target.value, now), Synced, Conflict);
      }
  }

  lemma CheckoutNeedsNoIndex(cfg: Config, st: State, c: CheckoutSession, now: int)
    requires OneLive(st.subs)
    ensures NeedsNoIndex(cfg, st, HandleCheckout(cfg, st, c, now), HandleCheckout(Bare(cfg), st, c, now))
  {
    hide NeedsNoIndex, CommitSubs, OneLive;
    match PlanCheckout(st, c, now)
    case Answer(out) => UnchangedNeedsNoIndex(cfg, st, out);
    case Link(i) => ReplaceNeedsNoIndex(cfg, st, i, st.subs[i].(stripeId := c.stripeSub), Linked, IntegrityFault);
    case Create(row) => AppendNeedsNoIndex(cfg, st, row, Created, IntegrityFault);
  }

  lemma FailureNeedsNoIndex(cfg: Config, st: State, id: Option<string>, now: int)
    requires OneLive(st.subs)
    ensures NeedsNoIndex(cfg, st, HandlePaymentFailed(cfg, st, id, now), HandlePaymentFailed(Bare(cfg), st, id, now))
  {
    hide NeedsNoIndex, CommitSubs, OneLive;
    UnchangedNeedsNoIndex(cfg, st, HandlePaymentFailed(cfg, st, id, now).1);
    if id.Some? && FindStripe(st.subs, id.value).Some? {
      var i := FindStripe(st.subs, id.value).value;
      var row := WithFailure(cfg.dunning, st.subs[i], now);
      if row.Some? { ReplaceNeedsNoIndex(cfg, st, i, row.value, MarkedPastDue, IntegrityFault); }
    }
  }

  lemma HandlersNeedNoIndex(cfg: Config, st: State, p: Payload, now: int)
    requires OneLive(st.subs) && !TrialClash(st, p, now)
    ensures NeedsNoIndex(cfg, st, Handle(cfg, st, p, now), Handle(Bare(cfg), st, p, now))
  {
    match p
    case Checkout(c) => CheckoutNeedsNoIndex(cfg, st, c, now);
    case SubscriptionUpdated(obj) => SyncNeedsNoIndex(cfg, st, obj, now);
    case SubscriptionDeleted(obj) => SyncNeedsNoIndex(cfg, st, obj.(status := SCanceled), now);
    case PaymentFailed(id) => FailureNeedsNoIndex(cfg, st, id, now);
    case _ =>
  }

  lemma DeliverNeedsNoIndex(cfg: Config, st: State, ev: Event, crash: Crash, now: int)
    requires OneLive(st.subs) && !Clashes(st, Deliver(ev, crash, now))
    ensures NeedsNoIndex(cfg, st, DeliverStep(cfg, st, ev, crash, now), DeliverStep(Bare(cfg), st, ev, crash, now))
  {
    if RunsHandler(st, Deliver(ev, crash, now)) {
      HandlersNeedNoIndex(cfg, st, ev.payload, now);
      var seen := st.(ledger := st.ledger[ev.id := false], handled := st.handled + [ev.id]);
      HandleIgnoresTheRest(cfg, seen, st, ev.payload, now);
      HandleIgnoresTheRest(Bare(cfg), seen, st, ev.payload, now);
    }
  }

  lemma FrameKeepsOneLive(a: seq<Subscription>, b: seq<Subscription>)
    requires OneLive(a) && NoneRevived(a, b)
    ensures OneLive(b)
  {
  }

  lemma SweepNeedsNoIndex(cfg: Config, st: State, limit: Option<nat>, now: int)
    requires OneLive(st.subs)
    ensures NeedsNoIndex(cfg, st, SweepDunningStep(cfg, st, limit, now), SweepDunningStep(Bare(cfg), st, limit, now))
  {
    hide OneLive, UniqueLive, UniqueStripe, TickAll;
    var ids := Limited(DueRows(st.subs, now), limit);
    assert Within(ids, |st.subs|) && Ascending(ids);
    var out := TickAll(cfg.dunning, st.subs, ids, now);
    TickAllFrame(cfg.dunning, st.subs, ids, now);
    FrameKeepsOneLive(st.subs, out);
    OneLiveIsUniqueLive(out);
  }

  lemma PrepareInvoiceFindsFreeSlot(st: State, id: nat, plan: Plan, start: Option<int>, end: Option<int>, usage: Usage)
    requires id < |st.subs| && UniqueSlot(st.invoices)
    ensures var r := PrepareInvoice(st, id, plan, start, end, usage);
      r.ReadyInvoice? ==> r.inv.sub == id && r.inv.status.Draft? && UniqueSlot(st.invoices + [r.inv])
  {
    var r := PrepareInvoice(st, id, plan, start, end, usage);
    if r.ReadyInvoice? { AppendKeepsUniqueSlot(st.invoices, r.inv); }
  }

  lemma GenerateNeedsNoIndex(cfg: Config, st: State, t: Option<int>, s: Option<int>, e: Option<int>, usage: Usage)
    requires Exclusive(st)
    ensures NeedsNoIndex(cfg, st, GenerateStep(cfg, st, t, s, e, usage), GenerateStep(Bare(cfg), st, t, s, e, usage))
  {
    var r := LiveFor(st.subs, t);
    if r.Some? && st.subs[r.value].plan in st.plans {
      PrepareInvoiceFindsFreeSlot(st, r.value, st.plans[st.subs[r.value].plan], s, e, usage);
    }
  }

  /** An invoice that moves along an edge. */
  lemma MoveNeedsNoIndex(cfg: Config, st: State, id: nat, inv: Invoice)
    requires Exclusive(st) && id < |st.invoices|
    requires inv.sub == st.invoices[id].sub && inv.periodStart == st.invoices[id].periodStart
    requires st.invoices[id].status.Void? ==> inv.status.Void?
    ensures NeedsNoIndex(cfg, st, CommitInvoices(cfg, st, st.invoices[id := inv], Updated),
                                  CommitInvoices(Bare(cfg), st, st.invoices[id := inv], Updated))
  {
    hide OneLive, UniqueSlot;
    UpdateKeepsUniqueSlot(st.invoices, id, inv);
  }

  lemma PayNeedsNoIndex(cfg: Config, st: State, id: nat, now: int)
    requires Exclusive(st)
    ensures NeedsNoIndex(cfg, st, PayStep(cfg, st, id, now), PayStep(Bare(cfg), st, id, now))
  {
    hide OneLive, UniqueSlot, UniqueLive, UniqueStripe;
    if id < |st.invoices| && AllowedInvoice(st.invoices[id].status, Paid) {
      var inv := st.invoices[id];
      UpdateKeepsUniqueSlot(st.invoices, id, inv.(status := Paid, paidAt := Some(now)));
      OneLiveIsUniqueLive(st.subs);
      if inv.sub < |st.subs| && st.subs[inv.sub].status.PastDue? {
        var row := Recovered(st.subs[inv.sub]);
        UpdateKeepsOneLive(st.subs, inv.sub, row);
        OneLiveIsUniqueLive(st.subs[inv.sub := row]);
      }
    }
  }

  lemma IssueNeedsNoIndex(cfg: Config, st: State, id: nat, now: int)
    requires Exclusive(st)
    ensures NeedsNoIndex(cfg, st, IssueStep(cfg, st, id, now), IssueStep(Bare(cfg), st, id, now))
    ensures NeedsNoIndex(cfg, st, VoidStep(cfg, st, id), VoidStep(Bare(cfg), st, id))
  {
    hide NeedsNoIndex, CommitInvoices, OneLive, UniqueSlot;
    UnchangedNeedsNoIndex(cfg, st, Raised(NotFound));
    UnchangedNeedsNoIndex(cfg, st, Raised(IllegalTransition));
    if id < |st.invoices| {
      var inv := st.invoices[id];
      if AllowedInvoice(inv.status, Open) {
        MoveNeedsNoIndex(cfg, st, id, inv.(status := Open, issuedAt := Some(now)));
      }
      MoveNeedsNoIndex(cfg, st, id, inv.(status := Void));
    }
  }

  lemma SweepOneNeedsNoIndex(cfg: Config, st: State, id: nat, now: int, usage: Usage, fault: Fault)
    requires UniqueSlot(st.invoices) && id < |st.subs|
    ensures SweepOne(cfg, st, id, now, usage, fault) == SweepOne(Bare(cfg), st, id, now, usage, fault)
    ensures UniqueSlot(SweepOne(cfg, st, id, now, usage, fault).0.invoices)
  {
    var s := st.subs[id];
    if s.plan in st.plans {
      var r := PrepareInvoice(st, id, st.plans[s.plan], None, None, usage);
      PrepareInvoiceFindsFreeSlot(st, id, st.plans[s.plan], None, None, usage);
      if r.ReadyInvoice? {
        var n, all := |st.invoices|, st.invoices + [r.inv];
        UpdateKeepsUniqueSlot(all, n, all[n].(status := Open, issuedAt := Some(now)));
      }
    }
  }

  lemma {:induction false} SweepManyNeedsNoIndex(
    cfg: Config, st: State, ids: seq<nat>, now: int, usage: Usage, faults: map<nat, Fault>)
    requires UniqueSlot(st.invoices) && Within(ids, |st.subs|)
    ensures SweepMany(cfg, st, ids, now, usage, faults) == SweepMany(Bare(cfg), st, ids, now, usage, faults)
    ensures UniqueSlot(SweepMany(cfg, st, ids, now, usage, faults).0.invoices)
  {
    hide SweepOne, UniqueSlot;
    if ids != [] {
      var rest, i := ids[..|ids| - 1], ids[|ids| - 1];
      SweepManyNeedsNoIndex(cfg, st, rest, now, usage, faults);
      SweepOneNeedsNoIndex(cfg, SweepMany(cfg, st, rest, now, usage, faults).0, i, now, usage, FaultOf(faults, i));
    }
  }

  /** Requests, admin actions and the dunning sweep. */
  lemma SubscriptionStepNeedsNoIndex(cfg: Config, st: State, step: Step)
    requires OneLive(st.subs) && SubscriptionStep(step)
    ensures NeedsNoIndex(cfg, st, Apply(cfg, st, step), Apply(Bare(cfg), st, step))
  {
    hide SubscribeStep, ChangePlanStep, CancelStep, ResumeStep, DeliverStep, SweepDunningStep, GenerateStep, IssueStep,
         PayStep, VoidStep, SetStatusStep, OverridePlanStep, SweepMany, OneLive, UniqueSlot, Bare;
    match step
    case ChangePlan(t, p, now) => PlanChangeNeedsNoIndex(cfg, st, t, p, now);
    case Subscribe(t, su, p, now) => SubscribeNeedsNoIndex(cfg, st, t, su, p, now);
    case Cancel(t, imm, now) => CancelNeedsNoIndex(cfg, st, t, imm, now);
    case Resume(t) => CancelNeedsNoIndex(cfg, st, t, false, 0);
    case SetStatus(_, _, _) => AdminNeedsNoIndex(cfg, st, step);
    case OverridePlan(_, _, _) => AdminNeedsNoIndex(cfg, st, step);
    case SweepDunning(limit, now) => SweepNeedsNoIndex(cfg, st, limit, now);
    case PutPlan(_, _) =>
  }

  /** A step that runs undisturbed never meets either index. */
  lemma SerialStepNeedsNoIndex(cfg: Config, st: State, step: Step)
    requires Exclusive(st) && Serial(step) && !Clashes(st, step)
    ensures NeedsNoIndex(cfg, st, Apply(cfg, st, step), Apply(Bare(cfg), st, step))
  {
    hide SubscribeStep, ChangePlanStep, CancelStep, ResumeStep, DeliverStep, SweepDunningStep, GenerateStep, IssueStep,
         PayStep, VoidStep, SetStatusStep, OverridePlanStep, SweepMany, Clashes, OneLive, UniqueSlot, Bare;
    if SubscriptionStep(step) {
      SubscriptionStepNeedsNoIndex(cfg, st, step);
    } else {
      match step
      case Deliver(ev, crash, now) => DeliverNeedsNoIndex(cfg, st, ev, crash, now);
      case SweepInvoices(now, usage, faults) =>
        SweepManyNeedsNoIndex(cfg, st, EndedRows(st.subs, now), now, usage, faults);
      case Generate(t, s, e, usage) => GenerateNeedsNoIndex(cfg, st, t, s, e, usage);
      case Issue(id, now) => IssueNeedsNoIndex(cfg, st, id, now);
      case Pay(id, now) => PayNeedsNoIndex(cfg, st, id, now);
      case VoidInvoice(id) => IssueNeedsNoIndex(cfg, st, id, 0);
    }
  }

  ghost predicate SerialRun(cfg: Config, st: State, steps: seq<Step>)
  {
    forall k | 0 <= k < |steps| :: Serial(steps[k]) && !Clashes(Run(cfg, st, steps[..k]), steps[k])
  }

  /**
    Serial runs: application logic alone keeps one live subscription per tenant
    (the null tenant too) and one invoice per slot, so a database without the
    two partial indexes goes through exactly the same states.
   */
  lemma {:induction false} SerialRunsNeedNoIndex(cfg: Config, st: State, steps: seq<Step>)
    requires Exclusive(st) && SerialRun(cfg, st, steps)
    ensures Exclusive(Run(cfg, st, steps))
    ensures Run(cfg, st, steps) == Run(Bare(cfg), st, steps)
    decreases |steps|
  {
    if steps != [] {
      var front := steps[..|steps| - 1];
      forall j | 0 <= j < |front|
        ensures Serial(front[j]) && !Clashes(Run(cfg, st, front[..j]), front[j])
      {
        assert front[..j] == steps[..j];
      }
      SerialRunsNeedNoIndex(cfg, st, front);
      SerialStepNeedsNoIndex(cfg, Run(cfg, st, front), steps[|steps| - 1]);
    }
  }

  // ------------------------------------------------- when requests interleave

  /** A create lands on an occupied tenant and the index does not see it. */
  predicate DoubleLands(cfg: Config, st: State, step: Step)
  {
    && step.Land? && step.k < |st.inflight| && st.inflight[step.k].NewSub?
    && var row := st.inflight[step.k].row;
       && row.Live() && LiveFor(st.subs, row.tenant).Some?
       && (row.tenant.None? || !cfg.liveIndex)
       && (row.stripeId.None? || FindStripe(st.subs, row.stripeId.value).None?)
  }

  lemma AppendedStripeId(subs: seq<Subscription>, row: Subscription)
    requires UniqueStripe(subs)
    ensures UniqueStripe(subs + [row]) <==> row.stripeId.None? || FindStripe(subs, row.stripeId.value).None?
  {
    var all := subs + [row];
    if row.stripeId.Some? && FindStripe(subs, row.stripeId.value).Some? {
      var j := FindStripe(subs, row.stripeId.value).value;
      assert all[j].stripeId == all[|subs|].stripeId;
    }
  }

  lemma AppendedLiveRow(subs: seq<Subscription>, row: Subscription)
    requires OneLive(subs)
    ensures OneLive(subs + [row]) <==> !row.Live() || LiveFor(subs, row.tenant).None?
    ensures row.tenant.Some? ==> (UniqueLive(subs + [row]) <==> OneLive(subs + [row]))
    ensures row.tenant.None? ==> UniqueLive(subs + [row])
  {
    var all := subs + [row];
    match LiveFor(subs, row.tenant)
    case None => AppendKeepsOneLive(subs, row);
    case Some(j) => assert all[j].Live() && all[j].tenant == all[|subs|].tenant;
  }

  lemma LandedSubscription(cfg: Config, st: State, k: nat, now: int)
    requires OneLive(st.subs) && UniqueStripe(st.subs) && k < |st.inflight| && st.inflight[k].NewSub?
    ensures OneLive(LandStep(cfg, st, k, now).0.subs) <==> !DoubleLands(cfg, st, Land(k, now))
  {
    hide OneLive, UniqueLive, UniqueStripe, LiveFor, FindStripe;
    AppendedStripeId(st.subs, st.inflight[k].row);
    AppendedLiveRow(st.subs, st.inflight[k].row);
  }

  /** A sync revives a row beside a live one of its tenant, and the index does not see it. */
  predicate DoubleRevives(cfg: Config, st: State, step: Step)
  {
    Revives(cfg, st, step) &&
    var s := st.subs[RevivedId(cfg, st, step)];
    !s.Live() && LiveFor(st.subs, s.tenant).Some?
  }

  lemma TrialSyncAndOneLive(cfg: Config, st: State, step: Step)
    requires OneLive(st.subs) && UniqueStripe(st.subs) && SyncsToTrial(st, step)
    ensures OneLive(Apply(cfg, st, step).0.subs) <==> !DoubleRevives(cfg, st, step)
  {
    hide Apply, OneLive, UniqueLive, UniqueStripe;
    OneLiveIsUniqueLive(st.subs);
    TrialStepOutcome(cfg, st, step);
    if Revives(cfg, st, step) {
      var i := RevivedId(cfg, st, step);
      RevivedTable(st.subs, i, SyncedRow(st.subs[i], SyncTarget(st, step), Trialing, step.now));
    }
  }

  lemma PayKeepsOneLive(cfg: Config, st: State, id: nat, now: int)
    requires OneLive(st.subs)
    ensures OneLive(PayStep(cfg, st, id, now).0.subs)
  {
    hide OneLive, InvoicesAdmitted, SubsAdmitted;
    if id < |st.invoices| {
      var i := st.invoices[id].sub;
      if i < |st.subs| && st.subs[i].status.PastDue? {
        UpdateKeepsOneLive(st.subs, i, Recovered(st.subs[i]));
      }
    }
  }

  lemma LandAndOneLive(cfg: Config, st: State, k: nat, now: int)
    requires OneLive(st.subs) && UniqueStripe(st.subs) && !SyncsToTrial(st, Land(k, now))
    ensures OneLive(LandStep(cfg, st, k, now).0.subs) <==> !DoubleLands(cfg, st, Land(k, now))
  {
    hide Handle, OneLive, UniqueLive, UniqueStripe, UniqueSlot, PlanCheckout;
    if k < |st.inflight| {
      if st.inflight[k].NewSub? {
        LandedSubscription(cfg, st, k, now);
      } else if st.inflight[k].Recorded? {
        var ev := st.inflight[k].ev;
        HandlersNeedNoIndex(cfg, st, ev.payload, now);
        var entered := st.(inflight := st.inflight[k := Closed], handled := st.handled + [ev.id]);
        HandleIgnoresTheRest(cfg, entered, st, ev.payload, now);
      }
    }
  }

  /**
    Any step of any interleaving keeps one live row per tenant, if and only if
    it neither lands a create nor revives a row beside a live one where the
    index does not look. With the index, only null tenants are left out.
   */
  lemma OneLiveExactlyUnlessDoubled(cfg: Config, st: State, step: Step)
    requires OneLive(st.subs) && UniqueStripe(st.subs)
    ensures OneLive(Apply(cfg, st, step).0.subs) <==> !DoubleLands(cfg, st, step) && !DoubleRevives(cfg, st, step)
  {
    hide SubscribeStep, ChangePlanStep, CancelStep, ResumeStep, DeliverStep, SweepDunningStep, PayStep,
         SetStatusStep, OverridePlanStep, LandStep, OneLive, UniqueLive, UniqueStripe, UniqueSlot,
         PrepareSubscribe, PrepareGenerate, PrepareSweep, LiveFor;
    if SyncsToTrial(st, step) {
      TrialSyncAndOneLive(cfg, st, step);
    } else if SubscriptionStep(step) {
      SubscriptionStepNeedsNoIndex(cfg, st, step);
    } else {
      match step
      case Deliver(ev, crash, now) => DeliverNeedsNoIndex(cfg, st, ev, crash, now);
      case Land(k, now) => LandAndOneLive(cfg, st, k, now);
      case Pay(id, now) => PayKeepsOneLive(cfg, st, id, now);
      case _ =>
    }
  }

  // ------------------------------------------------ the one commit of the index

  lemma ClashMeetsTheIndex(cfg: Config, st: State, step: Step)
    requires OneLive(st.subs) && UniqueStripe(st.subs) && Clashes(st, step)
    ensures !NeedsNoIndex(cfg, st, Apply(cfg, st, step), Apply(Bare(cfg), st, step))
  {
    hide Apply, OneLive, UniqueLive, UniqueStripe, UniqueSlot, LiveFor;
    assert SyncsToTrial(st, step);
    OneLiveIsUniqueLive(st.subs);
    TrialStepOutcome(cfg, st, step);
    TrialStepOutcome(Bare(cfg), st, step);
    if Revives(cfg, st, step) {
      TrialSyncAndOneLive(cfg, st, step);
    } else {
      var i := FindStripe(st.subs, SyncTarget(st, step).id).value;
      assert Apply(Bare(cfg), st, step).0.subs[i].status.Trialing? && !st.subs[i].status.Trialing?;
    }
  }

  /**
    An undisturbed step does the same with and without the indexes and keeps one
    live row per tenant and one invoice per slot, if and only if it does not sync
    a dead row to trialing beside a live one.
   */
  lemma SerialStepNeedsNoIndexExactly(cfg: Config, st: State, step: Step)
    requires Exclusive(st) && UniqueStripe(st.subs) && Serial(step)
    ensures NeedsNoIndex(cfg, st, Apply(cfg, st, step), Apply(Bare(cfg), st, step)) <==> !Clashes(st, step)
  {
    hide Apply, NeedsNoIndex, Clashes, OneLive, UniqueStripe, UniqueSlot;
    if Clashes(st, step) {
      ClashMeetsTheIndex(cfg, st, step);
    } else {
      SerialStepNeedsNoIndex(cfg, st, step);
    }
  }

  lemma ResubscribedHere(cfg: Config, st: State)
    requires |st.subs| == 1 && st.subs[0].status.Canceled? && st.subs[0].stripeId == Some("s")
    requires PlanOffered(st.plans, 1)
    ensures var n := Apply(cfg, st, Subscribe(Some(1), false, 1, 1)).0;
      && n == st.(subs := n.subs) && |n.subs| == 2 && n.subs[0] == st.subs[0]
      && n.subs[1].Live() && n.subs[1].tenant == Some(1) && n.subs[1].stripeId.None?
  {
    assert LiveFor(st.subs, Some(1)).None?;
    var row := PrepareSubscribe(st, Some(1), false, 1, 1).row;
    assert SubsAdmitted(cfg, st.subs + [row]);
  }

  /** A reachable clash: bought at Stripe, canceled and subscribed again here, then the old one reported as trialing. */
  lemma ReachableClash(cfg: Config, plans: map<int, Plan>)
    requires PlanOffered(plans, 1)
    ensures var a := Apply(cfg, Initial(plans), Bought()).0;
      var b := Apply(cfg, a, Cancel(Some(1), true, 1)).0;
      var c := Apply(cfg, b, Subscribe(Some(1), false, 1, 1)).0;
      Clashes(c, ReportedTrialing())
  {
    hide Apply;
    BoughtRow(cfg, plans);
    var a := Apply(cfg, Initial(plans), Bought()).0;
    CanceledHere(cfg, a);
    var b := Apply(cfg, a, Cancel(Some(1), true, 1)).0;
    ResubscribedHere(cfg, b);
    var c := Apply(cfg, b, Subscribe(Some(1), false, 1, 1)).0;
    assert c.subs[0].stripeId == Some("s") && Occupies(c.subs[1], Some(1));
  }

  lemma EmptyIsExclusive(plans: map<int, Plan>)
    ensures Exclusive(Initial(plans))
  {
  }

  // ----------------------------------------------------- the null-tenant race

  /** A create for the null tenant lands whatever is already there. */
  lemma NullTenantLands(cfg: Config, st: State, k: nat, now: int)
    requires k < |st.inflight| && st.inflight[k].NewSub? && st.inflight[k].event.None? && SubsAdmitted(cfg, st.subs)
    requires st.inflight[k].row.tenant.None? && st.inflight[k].row.stripeId.None?
    ensures var row := st.inflight[k].row;
      LandStep(cfg, st, k, now).0 == st.(subs := st.subs + [row], inflight := st.inflight[k := Closed])
      && SubsAdmitted(cfg, st.subs + [row])
  {
    assert SubsAdmitted(cfg, st.subs + [st.inflight[k].row]);
  }

  /** The failing family: from any state with no live null-tenant row, two interleaved subscribes. */
  lemma NullTenantRace(cfg: Config, st: State, plan: int, now: int)
    requires PlanOffered(st.plans, plan) && LiveFor(st.subs, None).None? && SubsAdmitted(cfg, st.subs)
    ensures var k := |st.inflight|;
      var a := Apply(cfg, st, BeginSubscribe(None, true, plan, now)).0;
      var b := Apply(cfg, a, BeginSubscribe(None, true, plan, now)).0;
      var c := Apply(cfg, b, Land(k, now)).0;
      var d := Apply(cfg, c, Land(k + 1, now)).0;
      !OneLive(d.subs)
  {
    hide LandStep, SubsAdmitted, LiveFor, NextPeriodEnd, SubscribeStep, ChangePlanStep, CancelStep, ResumeStep,
         DeliverStep,
         SweepDunningStep, GenerateStep, IssueStep, PayStep, VoidStep, SetStatusStep, OverridePlanStep,
         SweepInvoicesStep;
    var k := |st.inflight|;
    var row := PrepareSubscribe(st, None, true, plan, now).row;
    var a := Apply(cfg, st, BeginSubscribe(None, true, plan, now)).0;
    var b := Apply(cfg, a, BeginSubscribe(None, true, plan, now)).0;
    assert b == st.(inflight := st.inflight + [NewSub(row, None)] + [NewSub(row, None)]);
    NullTenantLands(cfg, b, k, now);
    var c := Apply(cfg, b, Land(k, now)).0;
    NullTenantLands(cfg, c, k + 1, now);
    var d := Apply(cfg, c, Land(k + 1, now)).0;
    assert d.subs[|st.subs|] == row && d.subs[|st.subs| + 1] == row;
  }
}
