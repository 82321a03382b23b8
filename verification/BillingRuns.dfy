/**
  What every run of the billing machine keeps of its subscriptions: status
  edges, dunning fields and billing periods, row by row.
 */
module BillingRuns {
  import opened Common
  import opened Lifecycle
  import opened Dunning
  import opened Invoicing
  import opened Billing

  // -------------------------------------------------------------- invariants

  predicate PeriodOk(s: Subscription) { s.periodStart < s.periodEnd }

  /** What holds of every row in every run, revived or not. */
  predicate CoreOk(s: Subscription)
  {
    && PeriodOk(s)
    && (s.nextRetryAt.Some? ==> s.failures >= 1)
    && (s.failures == 0 <==> s.lastFailureAt.None?)
    && (s.status.Suspended? ==> s.suspendedAt.Some?)
    && s.pendingPlan != Some(s.plan)
  }

  /** The consistent combinations of status, period, dunning, cancellation and scheduled plan. */
  predicate RowOk(s: Subscription)
  {
    && CoreOk(s)
    && (s.status.Trialing? || s.status.Active? ==>
          s.failures == 0 && s.lastFailureAt.None? && s.nextRetryAt.None?)
    && (s.nextRetryAt.Some? ==> s.status.PastDue? || s.status.Canceled?)
    && (s.suspendedAt.Some? <==> s.status.Suspended?)
    && (s.canceledAt.Some? ==> s.status.Canceled?)
    && (s.status.Canceled? ==> s.pendingPlan.None?)
    && (s.cancelAtPeriodEnd ==> !s.status.Trialing? && !s.status.Canceled?)
  }

  /**
    What needs no assumption on the run: the indexes, the core of every row, and
    sound rows waiting for their commit.
   */
  predicate TableOk(cfg: Config, st: State)
  {
    && SubsAdmitted(cfg, st.subs)
    && (forall i | 0 <= i < |st.subs| :: CoreOk(st.subs[i]))
    && RowsInFlightOk(st.inflight)
  }

  predicate RowsInFlightOk(ps: seq<Pending>) { forall k | 0 <= k < |ps| && ps[k].NewSub? :: RowOk(ps[k].row) }

  // --------------------------------------------------------- step relations

  /** Every status change is an edge of ALLOWED_TRANSITIONS. */
  predicate StatusEdges(a: seq<Subscription>, b: seq<Subscription>)
  {
    |a| <= |b| && forall i | 0 <= i < |a| :: OnEdge(a[i], b[i])
  }

  predicate OnEdge(s: Subscription, t: Subscription) { t.status == s.status || Allowed(s.status, t.status) }

  /** A row stays as sound as it was, and moves along an edge. */
  predicate Moves(s: Subscription, t: Subscription)
  {
    && OnEdge(s, t)
    && (CoreOk(s) ==> CoreOk(t))
    && (RowOk(s) ==> RowOk(t))
  }

  // ------------------------------------------------- the unchecked status write

  /** A sync whose target is trialing, on a row in another status. */
  predicate TrialSync(st: State, p: Payload, now: int)
  {
    && p.SubscriptionUpdated?
    && StatusFromStripe(p.obj, now) == Some(Trialing)
    && FindStripe(st.subs, p.obj.id).Some?
    && !st.subs[FindStripe(st.subs, p.obj.id).value].status.Trialing?
  }

  /** The step runs the handler on such a sync. */
  predicate SyncsToTrial(st: State, step: Step)
  {
    match step
    case Deliver(ev, crash, now) =>
      ValidEvent(ev) && ev.id !in st.ledger && !crash.BeforeHandler? && TrialSync(st, ev.payload, now)
    case Land(k, now) =>
      k < |st.inflight| && st.inflight[k].Recorded? && TrialSync(st, st.inflight[k].ev.payload, now)
    case _ => false
  }

  function SyncTarget(st: State, step: Step): StripeSub
    requires SyncsToTrial(st, step)
  {
    if step.Deliver? then step.ev.payload.obj else st.inflight[step.k].ev.payload.obj
  }

  /** ... and no other live row of the tenant stops the commit at the index. */
  predicate Revives(cfg: Config, st: State, step: Step)
  {
    SyncsToTrial(st, step) &&
    var s := st.subs[FindStripe(st.subs, SyncTarget(st, step).id).value];
    !cfg.liveIndex || s.tenant.None? || s.Live() || LiveFor(st.subs, s.tenant).None?
  }

  function RevivedId(cfg: Config, st: State, step: Step): nat
    requires Revives(cfg, st, step)
  {
    FindStripe(st.subs, SyncTarget(st, step).id).value
  }

  // ----------------------------------------------------------- single steps

  /** Old rows move, new rows are sound, and the indexes hold. */
  predicate KeepsRows(cfg: Config, before: State, after: State)
  {
    && SubsAdmitted(cfg, after.subs)
    && |before.subs| <= |after.subs|
    && (forall i | 0 <= i < |before.subs| :: Moves(before.subs[i], after.subs[i]))
    && (forall i | |before.subs| <= i < |after.subs| :: RowOk(after.subs[i]))
  }

  lemma SameTableKeepsRows(cfg: Config, st: State, after: State)
    requires TableOk(cfg, st) && after.subs == st.subs
    ensures KeepsRows(cfg, st, after)
  {
  }

  /** One row moved, then committed or rolled back. */
  lemma ReplaceKeepsRows(cfg: Config, st: State, i: nat, row: Subscription, reply: Reply, err: Error)
    requires TableOk(cfg, st) && i < |st.subs| && Moves(st.subs[i], row)
    ensures KeepsRows(cfg, st, CommitSubs(cfg, st, st.subs[i := row], reply, err).0)
  {
    hide RowOk, SubsAdmitted;
  }

  /** One sound row appended, then committed or rolled back. */
  lemma AppendKeepsRows(cfg: Config, st: State, row: Subscription, reply: Reply, err: Error)
    requires SubsAdmitted(cfg, st.subs) && RowOk(row)
    ensures KeepsRows(cfg, st, CommitSubs(cfg, st, st.subs + [row], reply, err).0)
  {
    hide RowOk, SubsAdmitted;
  }

  lemma PlanChangeKeepsRows(cfg: Config, st: State, tenant: Option<int>, plan: int, now: int)
    requires TableOk(cfg, st)
    ensures KeepsRows(cfg, st, ChangePlanStep(cfg, st, tenant, plan, now).0)
  {
    hide KeepsRows, CommitSubs, DecidePlanChange;
    SameTableKeepsRows(cfg, st, st);
    match LiveFor(st.subs, tenant)
    case None =>
    case Some(i) =>
      var s := st.subs[i];
      if PlanOffered(st.plans, plan) && s.plan in st.plans && plan != s.plan {
        match DecidePlanChange(st.plans[s.plan], st.plans[plan], s, now)
        case CrossCurrency =>
        case Immediate(preview) =>
          ReplaceKeepsRows(cfg, st, i, OnPlan(s, plan, st.plans[plan], now), Upgraded(preview), IntegrityFault);
        case AtPeriodEnd =>
          ReplaceKeepsRows(cfg, st, i, s.(pendingPlan := Some(plan)), Scheduled, IntegrityFault);
      }
  }

  lemma RequestsKeepRows(cfg: Config, st: State, step: Step)
    requires TableOk(cfg, st)
    requires step.Subscribe? || step.ChangePlan? || step.Cancel? || step.Resume?
    ensures KeepsRows(cfg, st, Apply(cfg, st, step).0)
  {
    hide KeepsRows, CommitSubs;
    SameTableKeepsRows(cfg, st, st);
    match step
    case Subscribe(t, su, p, now) =>
      var r := PrepareSubscribe(st, t, su, p, now);
      if r.Ready? { AppendKeepsRows(cfg, st, r.row, Created, IntegrityFault); }
    case ChangePlan(t, p, now) => PlanChangeKeepsRows(cfg, st, t, p, now);
    case Cancel(t, immediate, now) =>
      var r := LiveFor(st.subs, t);
      if r.Some? {
        var s := st.subs[r.value];
        ReplaceKeepsRows(cfg, st, r.value, CanceledRow(s, now), Updated, IntegrityFault);
        if !s.status.Trialing? {
          ReplaceKeepsRows(cfg, st, r.value, s.(cancelAtPeriodEnd := true), Updated, IntegrityFault);
        }
      }
    case Resume(t) =>
      var r := LiveFor(st.subs, t);
      if r.Some? {
        ReplaceKeepsRows(cfg, st, r.value, st.subs[r.value].(cancelAtPeriodEnd := false), Updated, IntegrityFault);
      }
  }

  lemma AdminKeepsRows(cfg: Config, st: State, step: Step)
    requires TableOk(cfg, st) && (step.SetStatus? || step.OverridePlan?)
    ensures KeepsRows(cfg, st, Apply(cfg, st, step).0)
  {
    hide KeepsRows, CommitSubs;
    SameTableKeepsRows(cfg, st, st);
    if step.id < |st.subs| {
      match step
      case SetStatus(id, target, now) =>
        if target.Some? && Allowed(st.subs[id].status, target.value) {
          ReplaceKeepsRows(cfg, st, id, AdminRow(st.subs[id], target.value, now), Updated, IntegrityFault);
        }
      case OverridePlan(id, plan, now) =>
        if PlanOffered(st.plans, plan) {
          ReplaceKeepsRows(cfg, st, id, OnPlan(st.subs[id], plan, st.plans[plan], now), Updated, IntegrityFault);
        }
    }
  }

  lemma PaymentKeepsRows(cfg: Config, st: State, id: nat, now: int)
    requires TableOk(cfg, st)
    ensures KeepsRows(cfg, st, PayStep(cfg, st, id, now).0)
  {
    if id < |st.invoices| {
      var i := st.invoices[id].sub;
      if i < |st.subs| && st.subs[i].status.PastDue? {
        assert Moves(st.subs[i], Recovered(st.subs[i]));
      }
    }
  }

  lemma SyncKeepsRows(cfg: Config, st: State, obj: StripeSub, now: int)
    requires TableOk(cfg, st) && !TrialSync(st, SubscriptionUpdated(obj), now)
    ensures KeepsRows(cfg, st, HandleSync(cfg, st, obj, now).0)
  {
    hide KeepsRows, CommitSubs;
    SameTableKeepsRows(cfg, st, st);
    match FindStripe(st.subs, obj.id)
    case None =>
    case Some(i) =>
      var target := StatusFromStripe(obj, now);
      if target.Some? && Allowed(st.subs[i].status, target.value) {
        ReplaceKeepsRows(cfg, st, i, SyncedRow(st.subs[i], obj, target.value, now), Synced, Conflict);
      }
  }

  lemma HandlersKeepRows(cfg: Config, st: State, p: Payload, now: int)
    requires TableOk(cfg, st) && !TrialSync(st, p, now)
    ensures KeepsRows(cfg, st, Handle(cfg, st, p, now).0)
  {
    hide KeepsRows, CommitSubs, HandleSync;
    SameTableKeepsRows(cfg, st, st);
    match p
    case Checkout(c) =>
      match PlanCheckout(st, c, now) {
        case Answer(_) =>
        case Link(i) => ReplaceKeepsRows(cfg, st, i, st.subs[i].(stripeId := c.stripeSub), Linked, IntegrityFault);
        case Create(row) => AppendKeepsRows(cfg, st, row, Created, IntegrityFault);
      }
    case SubscriptionUpdated(obj) => SyncKeepsRows(cfg, st, obj, now);
    case SubscriptionDeleted(obj) => SyncKeepsRows(cfg, st, obj.(status := SCanceled), now);
    case PaymentFailed(id) =>
      if id.Some? && FindStripe(st.subs, id.value).Some? {
        var i := FindStripe(st.subs, id.value).value;
        var row := WithFailure(cfg.dunning, st.subs[i], now);
        if row.Some? { ReplaceKeepsRows(cfg, st, i, row.value, MarkedPastDue, IntegrityFault); }
      }
    case _ =>
  }

  // ----------------------------------------------------- the dunning sweep

  predicate Ascending(ids: seq<nat>) { forall a, b | 0 <= a < b < |ids| :: ids[a] < ids[b] }

  /** The sweep treats each selected row once and leaves the others alone. */
  lemma {:induction false} TickAllPointwise(cfg: Settings, subs: seq<Subscription>, ids: seq<nat>, now: int, i: nat)
    requires Within(ids, |subs|) && Ascending(ids) && i < |subs|
    ensures TickAll(cfg, subs, ids, now)[i] == if i in ids then Tick(cfg, subs[i], now) else subs[i]
  {
    if ids != [] {
      var before, last := ids[..|ids| - 1], ids[|ids| - 1];
      TickAllPointwise(cfg, subs, before, now, i);
      assert ids == before + [last];
      assert last !in before;
    }
  }

  /** Row by row the same tenant and Stripe id, and no row becomes live. */
  predicate NoneRevived(a: seq<Subscription>, b: seq<Subscription>)
  {
    |a| == |b| && forall i | 0 <= i < |b| ::
      b[i].tenant == a[i].tenant && b[i].stripeId == a[i].stripeId && (b[i].Live() ==> a[i].Live())
  }

  lemma TickAllFrame(cfg: Settings, subs: seq<Subscription>, ids: seq<nat>, now: int)
    requires Within(ids, |subs|) && Ascending(ids)
    ensures NoneRevived(subs, TickAll(cfg, subs, ids, now))
  {
    forall i | 0 <= i < |subs| { TickAllPointwise(cfg, subs, ids, now, i); }
  }

  lemma TickMoves(cfg: Settings, s: Subscription, now: int)
    ensures Moves(s, Tick(cfg, s, now))
  {
  }

  lemma SweepKeepsRows(cfg: Config, st: State, limit: Option<nat>, now: int)
    requires TableOk(cfg, st)
    ensures KeepsRows(cfg, st, SweepDunningStep(cfg, st, limit, now).0)
  {
    hide Moves, Tick, TickAll, SubsAdmitted;
    SameTableKeepsRows(cfg, st, st);
    var ids := Limited(DueRows(st.subs, now), limit);
    assert Within(ids, |st.subs|) && Ascending(ids);
    var out := TickAll(cfg.dunning, st.subs, ids, now);
    forall i | 0 <= i < |out| ensures Moves(st.subs[i], out[i]) {
      TickAllPointwise(cfg.dunning, st.subs, ids, now, i);
      TickMoves(cfg.dunning, st.subs[i], now);
      StandingMoves(st.subs[i]);
    }
  }

  lemma StandingMoves(s: Subscription)
    ensures Moves(s, s)
  {
  }

  // ------------------------------------------- deliveries and the trial write

  /** A trial sync is committed exactly when the live index lets it through. */
  lemma TrialSyncOutcome(cfg: Config, st: State, p: Payload, now: int)
    requires SubsAdmitted(cfg, st.subs) && TrialSync(st, p, now)
    ensures var i := FindStripe(st.subs, p.obj.id).value;
      var s := st.subs[i];
      var free := !cfg.liveIndex || s.tenant.None? || s.Live() || LiveFor(st.subs, s.tenant).None?;
      && (free ==> Handle(cfg, st, p, now).0.subs == st.subs[i := SyncedRow(s, p.obj, Trialing, now)])
      && (!free ==> Handle(cfg, st, p, now).0.subs == st.subs)
  {
    var i := FindStripe(st.subs, p.obj.id).value;
    var s := st.subs[i];
    var row := SyncedRow(s, p.obj, Trialing, now);
    var subs := st.subs[i := row];
    assert row.stripeId == s.stripeId && row.tenant == s.tenant && row.Live();
    assert UniqueStripe(subs);
    if cfg.liveIndex && s.tenant.Some? && !s.Live() {
      match LiveFor(st.subs, s.tenant) {
        case Some(j) => assert subs[j].Live() && subs[j].tenant == subs[i].tenant && i != j;
        case None => assert forall j | 0 <= j < |subs| && j != i :: !Occupies(st.subs[j], s.tenant);
      }
    }
  }

  /** The part of a step that runs a Stripe handler on the subscription table. */
  predicate RunsHandler(st: State, step: Step)
  {
    match step
    case Deliver(ev, crash, _) => ValidEvent(ev) && ev.id !in st.ledger && !crash.BeforeHandler?
    case Land(k, _) => k < |st.inflight| && st.inflight[k].Recorded?
    case _ => false
  }

  function PayloadOf(st: State, step: Step): Payload
    requires RunsHandler(st, step)
  {
    if step.Deliver? then step.ev.payload else st.inflight[step.k].ev.payload
  }

  /** Handlers see only the plans and the subscription table. */
  lemma HandleIgnoresTheRest(cfg: Config, a: State, b: State, p: Payload, now: int)
    requires a.plans == b.plans && a.subs == b.subs
    ensures Handle(cfg, a, p, now).1 == Handle(cfg, b, p, now).1
    ensures Handle(cfg, a, p, now).0 == a.(subs := Handle(cfg, b, p, now).0.subs)
  {
  }

  lemma StripeStepKeepsRows(cfg: Config, st: State, step: Step)
    requires TableOk(cfg, st) && (step.Deliver? || step.Land?) && !SyncsToTrial(st, step)
    ensures KeepsRows(cfg, st, Apply(cfg, st, step).0)
  {
    hide Handle;
    if RunsHandler(st, step) {
      var p := PayloadOf(st, step);
      HandlersKeepRows(cfg, st, p, step.now);
      if step.Deliver? {
        var seen := st.(ledger := st.ledger[step.ev.id := false], handled := st.handled + [step.ev.id]);
        HandleIgnoresTheRest(cfg, seen, st, p, step.now);
      } else {
        var ev := st.inflight[step.k].ev;
        var entered := st.(inflight := st.inflight[step.k := Closed], handled := st.handled + [ev.id]);
        HandleIgnoresTheRest(cfg, entered, st, p, step.now);
      }
    } else if step.Land? && step.k < |st.inflight| && st.inflight[step.k].NewSub? {
      AppendKeepsRows(
        cfg, st.(inflight := st.inflight[step.k := Closed]), st.inflight[step.k].row, Created, IntegrityFault);
    }
  }

  lemma TrialStepOutcome(cfg: Config, st: State, step: Step)
    requires SubsAdmitted(cfg, st.subs) && SyncsToTrial(st, step)
    ensures var next := Apply(cfg, st, step).0;
      var i := FindStripe(st.subs, SyncTarget(st, step).id).value;
      && (Revives(cfg, st, step) ==>
            next.subs == st.subs[i := SyncedRow(st.subs[i], SyncTarget(st, step), Trialing, step.now)])
      && (!Revives(cfg, st, step) ==> next.subs == st.subs)
  {
    var p := PayloadOf(st, step);
    TrialSyncOutcome(cfg, st, p, step.now);
    if step.Deliver? {
      var seen := st.(ledger := st.ledger[step.ev.id := false], handled := st.handled + [step.ev.id]);
      HandleIgnoresTheRest(cfg, seen, st, p, step.now);
    } else {
      var ev := st.inflight[step.k].ev;
      var entered := st.(inflight := st.inflight[step.k := Closed], handled := st.handled + [ev.id]);
      HandleIgnoresTheRest(cfg, entered, st, p, step.now);
    }
  }

  /** Rows and edges, for every kind of step. */
  lemma StepKeepsRows(cfg: Config, st: State, step: Step)
    requires TableOk(cfg, st) && !Revives(cfg, st, step)
    ensures KeepsRows(cfg, st, Apply(cfg, st, step).0)
  {
    hide SubscribeStep, ChangePlanStep, CancelStep, ResumeStep, DeliverStep, SweepDunningStep, PayStep,
         SetStatusStep, OverridePlanStep, LandStep, InvoicesAdmitted, PrepareInvoice, PrepareSweep, PrepareSubscribe,
         KeepsRows, TableOk;
    TableAdmits(cfg, st);
    if SyncsToTrial(st, step) {
      TrialStepOutcome(cfg, st, step);
      SameTableKeepsRows(cfg, st, Apply(cfg, st, step).0);
    } else {
      match step
      case Subscribe(_, _, _, _) => RequestsKeepRows(cfg, st, step);
      case ChangePlan(_, _, _) => RequestsKeepRows(cfg, st, step);
      case Cancel(_, _, _) => RequestsKeepRows(cfg, st, step);
      case Resume(_) => RequestsKeepRows(cfg, st, step);
      case SetStatus(_, _, _) => AdminKeepsRows(cfg, st, step);
      case OverridePlan(_, _, _) => AdminKeepsRows(cfg, st, step);
      case Pay(id, now) => PaymentKeepsRows(cfg, st, id, now);
      case SweepDunning(limit, now) => SweepKeepsRows(cfg, st, limit, now);
      case Deliver(_, _, _) => StripeStepKeepsRows(cfg, st, step);
      case Land(_, _) => StripeStepKeepsRows(cfg, st, step);
      case _ => SameTableKeepsRows(cfg, st, Apply(cfg, st, step).0);
    }
  }

  /**
    A step keeps to the status edges if and only if it is not a sync that writes
    `trialing` over another status: the one write that skips `assert_transition`.
   */
  lemma EdgesExactlyUnlessRevived(cfg: Config, st: State, step: Step)
    requires TableOk(cfg, st)
    ensures StatusEdges(st.subs, Apply(cfg, st, step).0.subs) <==> !Revives(cfg, st, step)
  {
    if Revives(cfg, st, step) {
      TrialStepOutcome(cfg, st, step);
      var i := FindStripe(st.subs, SyncTarget(st, step).id).value;
      assert Apply(cfg, st, step).0.subs[i].status.Trialing?;
    } else {
      StepKeepsRows(cfg, st, step);
    }
  }

  // ------------------------------------------------------ requests in flight

  /** These steps touch neither the invoices nor the requests in flight. */
  predicate SubscriptionStep(step: Step)
  {
    step.Subscribe? || step.ChangePlan? || step.Cancel? || step.Resume? || step.SweepDunning?
    || step.SetStatus? || step.OverridePlan? || step.PutPlan?
  }

  lemma SubscriptionStepFrame(cfg: Config, st: State, step: Step)
    requires SubscriptionStep(step)
    ensures var n := Apply(cfg, st, step).0;
      && n == st.(subs := n.subs, plans := n.plans)
      && (!step.PutPlan? ==> n.plans == st.plans)
  {
  }

  lemma DeliverFrame(cfg: Config, st: State, ev: Event, crash: Crash, now: int)
    ensures var n := DeliverStep(cfg, st, ev, crash, now).0;
      n == st.(subs := n.subs, ledger := n.ledger, handled := n.handled)
  {
    var seen := st.(ledger := st.ledger[ev.id := false], handled := st.handled + [ev.id]);
    HandleIgnoresTheRest(cfg, seen, st, ev.payload, now);
  }

  lemma LandKeepsRowsInFlight(cfg: Config, st: State, k: nat, now: int)
    requires RowsInFlightOk(st.inflight)
    ensures RowsInFlightOk(LandStep(cfg, st, k, now).0.inflight)
  {
    hide SubsAdmitted, InvoicesAdmitted;
    if k < |st.inflight| && st.inflight[k].Recorded? {
      var ev := st.inflight[k].ev;
      var entered := st.(inflight := st.inflight[k := Closed], handled := st.handled + [ev.id]);
      HandleIgnoresTheRest(cfg, entered, st, ev.payload, now);
    }
  }

  lemma StepKeepsRowsInFlight(cfg: Config, st: State, step: Step)
    requires RowsInFlightOk(st.inflight)
    ensures RowsInFlightOk(Apply(cfg, st, step).0.inflight)
  {
    hide SubscribeStep, ChangePlanStep, CancelStep, ResumeStep, DeliverStep, SweepDunningStep, LandStep,
         SetStatusStep, OverridePlanStep, SubsAdmitted, InvoicesAdmitted, PrepareGenerate, PrepareSweep;
    if SubscriptionStep(step) {
      SubscriptionStepFrame(cfg, st, step);
    } else {
      match step
      case Deliver(ev, crash, now) => DeliverFrame(cfg, st, ev, crash, now);
      case Land(k, now) => LandKeepsRowsInFlight(cfg, st, k, now);
      case _ =>
    }
  }

  /** Indexes and row cores are kept by every step, revivals included. */
  lemma StepKeepsTable(cfg: Config, st: State, step: Step)
    requires TableOk(cfg, st)
    ensures TableOk(cfg, Apply(cfg, st, step).0)
  {
    hide Apply, SubsAdmitted, RowsInFlightOk, SyncedRow;
    StepKeepsRowsInFlight(cfg, st, step);
    if Revives(cfg, st, step) {
      RevivalOutcome(cfg, st, step);
    } else {
      StepKeepsRows(cfg, st, step);
    }
  }

  /** A revival writes one row, keeps its core, and nothing else. */
  lemma RevivalOutcome(cfg: Config, st: State, step: Step)
    requires SubsAdmitted(cfg, st.subs) && Revives(cfg, st, step)
    ensures var n := Apply(cfg, st, step).0;
      && SubsAdmitted(cfg, n.subs)
      && |n.subs| == |st.subs|
      && n.subs[RevivedId(cfg, st, step)].status.Trialing?
      && (CoreOk(st.subs[RevivedId(cfg, st, step)]) ==> CoreOk(n.subs[RevivedId(cfg, st, step)]))
      && (forall i | 0 <= i < |st.subs| && i != RevivedId(cfg, st, step) :: n.subs[i] == st.subs[i])
  {
    hide Apply, SubsAdmitted;
    StepCommitsAdmitted(cfg, st, step);
    TrialStepOutcome(cfg, st, step);
  }

  /** Row by row: every step moves every row but the one it revives. */
  lemma StepMovesRow(cfg: Config, st: State, step: Step, i: nat)
    requires TableOk(cfg, st) && i < |st.subs|
    requires Revives(cfg, st, step) ==> i != RevivedId(cfg, st, step)
    ensures var n := Apply(cfg, st, step).0; i < |n.subs| && Moves(st.subs[i], n.subs[i])
  {
    hide Apply, TableOk, Moves;
    if Revives(cfg, st, step) {
      TableAdmits(cfg, st);
      RevivalOutcome(cfg, st, step);
      StandingMoves(st.subs[i]);
    } else {
      StepKeepsRows(cfg, st, step);
    }
  }

  lemma TableAdmits(cfg: Config, st: State)
    requires TableOk(cfg, st)
    ensures SubsAdmitted(cfg, st.subs)
  {
  }

  /** New rows are sound, whatever step brings them. */
  lemma StepAddsSoundRows(cfg: Config, st: State, step: Step)
    requires TableOk(cfg, st)
    ensures var n := Apply(cfg, st, step).0;
      |st.subs| <= |n.subs| && forall i | |st.subs| <= i < |n.subs| :: RowOk(n.subs[i])
  {
    hide Apply, TableOk, RowOk;
    if Revives(cfg, st, step) {
      TableAdmits(cfg, st);
      RevivalOutcome(cfg, st, step);
    } else {
      StepKeepsRows(cfg, st, step);
    }
  }

  // -------------------------------------------------------------- whole runs

  /** Over every run, revivals included: the indexes hold and every row keeps its core. */
  lemma {:induction false} RunKeepsTable(cfg: Config, st: State, steps: seq<Step>)
    requires TableOk(cfg, st)
    ensures TableOk(cfg, Run(cfg, st, steps))
    decreases |steps|
  {
    hide Apply, TableOk;
    if steps != [] {
      RunKeepsTable(cfg, st, steps[..|steps| - 1]);
      StepKeepsTable(cfg, Run(cfg, st, steps[..|steps| - 1]), steps[|steps| - 1]);
    }
  }

  /** Every commit passes the guards, so a step leaves the table as it is or puts an admitted one. */
  lemma StepCommitsAdmitted(cfg: Config, st: State, step: Step)
    requires SubsAdmitted(cfg, st.subs)
    ensures SubsAdmitted(cfg, Apply(cfg, st, step).0.subs)
  {
    hide SubsAdmitted, InvoicesAdmitted, DecidePlanChange, LiveFor, PrepareSubscribe, PrepareGenerate, PrepareSweep,
         TickAll, AdminRow,
         CanceledRow, AllowedInvoice, Allowed, DeliverStep, LandStep, PlanCheckout;
    match step
    case Deliver(ev, crash, now) => DeliverCommitsAdmitted(cfg, st, ev, crash, now);
    case Land(k, now) => LandCommitsAdmitted(cfg, st, k, now);
    case _ =>
  }

  lemma HandlerCommitsAdmitted(cfg: Config, st: State, p: Payload, now: int)
    requires SubsAdmitted(cfg, st.subs)
    ensures SubsAdmitted(cfg, Handle(cfg, st, p, now).0.subs)
  {
    hide SubsAdmitted, PlanCheckout, FindStripe, StatusFromStripe, SyncedRow, WithFailure, Allowed;
  }

  lemma DeliverCommitsAdmitted(cfg: Config, st: State, ev: Event, crash: Crash, now: int)
    requires SubsAdmitted(cfg, st.subs)
    ensures SubsAdmitted(cfg, DeliverStep(cfg, st, ev, crash, now).0.subs)
  {
    hide SubsAdmitted, Handle;
    HandlerCommitsAdmitted(
      cfg, st.(ledger := st.ledger[ev.id := false], handled := st.handled + [ev.id]), ev.payload, now);
  }

  lemma LandCommitsAdmitted(cfg: Config, st: State, k: nat, now: int)
    requires SubsAdmitted(cfg, st.subs)
    ensures SubsAdmitted(cfg, LandStep(cfg, st, k, now).0.subs)
  {
    hide SubsAdmitted, Handle, InvoicesAdmitted, PlanCheckout;
    if k < |st.inflight| && st.inflight[k].Recorded? {
      var ev := st.inflight[k].ev;
      HandlerCommitsAdmitted(
        cfg, st.(inflight := st.inflight[k := Closed], handled := st.handled + [ev.id]), ev.payload, now);
    }
  }

  lemma {:induction false} RunCommitsAdmitted(cfg: Config, st: State, steps: seq<Step>)
    requires SubsAdmitted(cfg, st.subs)
    ensures SubsAdmitted(cfg, Run(cfg, st, steps).subs)
    decreases |steps|
  {
    hide Apply, SubsAdmitted;
    if steps != [] {
      RunCommitsAdmitted(cfg, st, steps[..|steps| - 1]);
      StepCommitsAdmitted(cfg, Run(cfg, st, steps[..|steps| - 1]), steps[|steps| - 1]);
    }
  }

  /** No step of the run revives row i; what happens to other rows does not matter. */
  ghost predicate NeverRevived(cfg: Config, st: State, steps: seq<Step>, i: nat)
  {
    forall k | 0 <= k < |steps| :: !RevivesRow(cfg, Run(cfg, st, steps[..k]), steps[k], i)
  }

  predicate RevivesRow(cfg: Config, st: State, step: Step, i: nat)
  {
    Revives(cfg, st, step) && RevivedId(cfg, st, step) == i
  }

  lemma NeverRevivedFront(cfg: Config, st: State, steps: seq<Step>, i: nat)
    requires steps != [] && NeverRevived(cfg, st, steps, i)
    ensures NeverRevived(cfg, st, steps[..|steps| - 1], i)
    ensures !RevivesRow(cfg, Run(cfg, st, steps[..|steps| - 1]), steps[|steps| - 1], i)
  {
    var front := steps[..|steps| - 1];
    forall j | 0 <= j < |front| ensures !RevivesRow(cfg, Run(cfg, st, front[..j]), front[j], i) {
      assert front[..j] == steps[..j];
    }
  }

  /**
    Over every run, interleaved requests and other rows' revivals included: a row
    that is never revived itself is sound at the end, and its status is for ever
    once it is canceled or suspended.
   */
  lemma {:induction false} RunKeepsRow(cfg: Config, st: State, steps: seq<Step>, k: nat, i: nat)
    requires TableOk(cfg, st) && (i < |st.subs| ==> RowOk(st.subs[i]))
    requires k <= |steps| && i < |Run(cfg, st, steps[..k]).subs| && NeverRevived(cfg, st, steps, i)
    ensures i < |Run(cfg, st, steps).subs| && RowOk(Run(cfg, st, steps).subs[i])
    ensures var was, end := Run(cfg, st, steps[..k]).subs[i], Run(cfg, st, steps).subs[i];
      !was.Live() ==> end.status == was.status
    decreases |steps|
  {
    hide Apply, TableOk, RowOk, NeverRevived, Revives;
    if steps == [] {
      assert steps[..k] == [];
    } else {
      var front, last := steps[..|steps| - 1], steps[|steps| - 1];
      var mid := Run(cfg, st, front);
      NeverRevivedFront(cfg, st, steps, i);
      RunKeepsTable(cfg, st, front);
      StepAddsSoundRows(cfg, mid, last);
      if k < |steps| {
        assert front[..k] == steps[..k];
        RunKeepsRow(cfg, st, front, k, i);
        StepMovesRow(cfg, mid, last, i);
      } else {
        assert steps[..k] == steps;
        if i < |mid.subs| {
          assert front[..|front|] == front;
          RunKeepsRow(cfg, st, front, |front|, i);
          StepMovesRow(cfg, mid, last, i);
        }
      }
    }
  }

  lemma EmptyTableOk(cfg: Config, plans: map<int, Plan>)
    ensures TableOk(cfg, Initial(plans))
  {
  }

  /** Every reachable row that was never revived is sound; canceled and suspended are final for it. */
  lemma ReachableRowsAreSound(cfg: Config, plans: map<int, Plan>, steps: seq<Step>, k: nat, i: nat)
    requires k <= |steps| && i < |Run(cfg, Initial(plans), steps[..k]).subs|
    requires NeverRevived(cfg, Initial(plans), steps, i)
    ensures i < |Run(cfg, Initial(plans), steps).subs| && RowOk(Run(cfg, Initial(plans), steps).subs[i])
    ensures var was, end := Run(cfg, Initial(plans), steps[..k]).subs[i], Run(cfg, Initial(plans), steps).subs[i];
      !was.Live() ==> end.status == was.status
  {
    EmptyTableOk(cfg, plans);
    RunKeepsRow(cfg, Initial(plans), steps, k, i);
  }

  /** Every row of every reachable state, revived or not, keeps its core. */
  lemma ReachableTablesAreSound(cfg: Config, plans: map<int, Plan>, steps: seq<Step>)
    ensures TableOk(cfg, Run(cfg, Initial(plans), steps))
  {
    EmptyTableOk(cfg, plans);
    RunKeepsTable(cfg, Initial(plans), steps);
  }

  /**
    Over every run from the empty tables, at every step and for every row: the
    status stays or moves along an edge, if and only if the step does not revive
    this very row.
   */
  lemma StatusFollowsEdgesOverRuns(cfg: Config, plans: map<int, Plan>, steps: seq<Step>, k: nat, i: nat)
    requires k < |steps| && i < |Run(cfg, Initial(plans), steps[..k]).subs|
    ensures var before, after := Run(cfg, Initial(plans), steps[..k]), Run(cfg, Initial(plans), steps[..k + 1]);
      i < |after.subs| && (OnEdge(before.subs[i], after.subs[i]) <==> !RevivesRow(cfg, before, steps[k], i))
  {
    hide Apply, TableOk, CoreOk, RowOk;
    var before := Run(cfg, Initial(plans), steps[..k]);
    assert steps[..k + 1][..k] == steps[..k];
    ReachableTablesAreSound(cfg, plans, steps[..k]);
    TableAdmits(cfg, before);
    if RevivesRow(cfg, before, steps[k], i) {
      RevivalOutcome(cfg, before, steps[k]);
    } else {
      StepMovesRow(cfg, before, steps[k], i);
    }
  }

  /** In every reachable state, default-period generation does not meet its date error. */
  lemma DefaultPeriodIsNeverEmpty(
    cfg: Config, plans: map<int, Plan>, steps: seq<Step>, id: nat, plan: Plan, usage: Usage)
    requires id < |Run(cfg, Initial(plans), steps).subs|
    ensures var st := Run(cfg, Initial(plans), steps);
      PeriodOk(st.subs[id]) && PrepareInvoice(st, id, plan, None, None, usage) != RefusedInvoice(ValueFault)
  {
    hide Run;
    EmptyTableOk(cfg, plans);
    RunKeepsTable(cfg, Initial(plans), steps);
    assert CoreOk(Run(cfg, Initial(plans), steps).subs[id]);
  }

  // -------------------------------------------------------- a reachable revival

  function Bought(): Step
  {
    Deliver(Event("e", Checkout(CheckoutSession(Number(1), Number(1), Some("s"), None))), NoCrash, 0)
  }

  function ReportedTrialing(): Step
  {
    Deliver(Event("f", SubscriptionUpdated(StripeSub("s", STrialing, None, None, None))), NoCrash, 2)
  }

  lemma BoughtRow(cfg: Config, plans: map<int, Plan>)
    requires 1 in plans
    ensures var st := Apply(cfg, Initial(plans), Bought()).0;
      && |st.subs| == 1 && st.subs[0].status.Active? && st.subs[0].tenant == Some(1)
      && st.subs[0].stripeId == Some("s") && "f" !in st.ledger && st.plans == plans
  {
  }

  lemma CanceledHere(cfg: Config, st: State)
    requires |st.subs| == 1 && st.subs[0].status.Active? && st.subs[0].tenant == Some(1)
    ensures Apply(cfg, st, Cancel(Some(1), true, 1)).0 == st.(subs := [CanceledRow(st.subs[0], 1)])
  {
    assert LiveFor(st.subs, Some(1)) == Some(0);
  }

  lemma RevivedRow(cfg: Config, st: State)
    requires |st.subs| == 1 && st.subs[0].status.Canceled? && st.subs[0].stripeId == Some("s") && "f" !in st.ledger
    ensures var after := Apply(cfg, st, ReportedTrialing()).0.subs; |after| == 1 && after[0].status.Trialing?
  {
    assert FindStripe(st.subs, "s") == Some(0);
  }

  /** A reachable revival: bought at Stripe, canceled here, then reported as trialing. */
  lemma CanceledRowIsRevived(cfg: Config, plans: map<int, Plan>)
    requires 1 in plans
    ensures var a := Apply(cfg, Initial(plans), Bought()).0;
      var b := Apply(cfg, a, Cancel(Some(1), true, 1)).0;
      var c := Apply(cfg, b, ReportedTrialing()).0;
      |b.subs| == |c.subs| == 1 && b.subs[0].status.Canceled? && c.subs[0].status.Trialing?
  {
    hide Apply;
    BoughtRow(cfg, plans);
    var a := Apply(cfg, Initial(plans), Bought()).0;
    CanceledHere(cfg, a);
    RevivedRow(cfg, Apply(cfg, a, Cancel(Some(1), true, 1)).0);
  }

  // --------------------------------------------------------------- a round trip

  /** The flag does not change which row is live. */
  lemma {:induction false} FlagKeepsLiveRow(subs: seq<Subscription>, tenant: Option<int>, i: nat, flag: bool)
    requires LiveFor(subs, tenant) == Some(i)
    ensures LiveFor(subs[i := subs[i].(cancelAtPeriodEnd := flag)], tenant) == Some(i)
  {
    var after := subs[i := subs[i].(cancelAtPeriodEnd := flag)];
    assert Occupies(after[i], tenant);
    forall j | i < j < |after| ensures !Occupies(after[j], tenant) { assert after[j] == subs[j]; }
  }

  /** Resuming undoes a scheduled cancellation, and leaves no other trace. */
  lemma ResumeUndoesCancel(cfg: Config, st: State, tenant: Option<int>, now: int)
    requires SubsAdmitted(cfg, st.subs) && LiveFor(st.subs, tenant).Some?
    requires !st.subs[LiveFor(st.subs, tenant).value].cancelAtPeriodEnd
    requires CancelStep(cfg, st, tenant, false, now).1.Done?
    ensures ResumeStep(cfg, CancelStep(cfg, st, tenant, false, now).0, tenant) == (st, Done(Updated))
  {
    hide LiveFor, UniqueLive, UniqueStripe;
    var i := LiveFor(st.subs, tenant).value;
    FlagKeepsLiveRow(st.subs, tenant, i, true);
    var after := st.subs[i := st.subs[i].(cancelAtPeriodEnd := true)];
    assert after[i := after[i].(cancelAtPeriodEnd := false)] == st.subs;
  }
}
