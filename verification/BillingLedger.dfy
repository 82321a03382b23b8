/**
  The Stripe event ledger (app/billing/services/stripe_events.py): replays and
  crashes leave the business tables as if each event had been handled at most
  once, and no interleaving of deliveries runs a handler twice.
 */
module BillingLedger {
  import opened Common
  import opened Lifecycle
  import opened Dunning
  import opened Invoicing
  import opened Billing
  import opened BillingRuns
  import opened BillingTenants

  // ------------------------------------------------------ replays and crashes

  /** Everything but the ledger and the handler log. */
  function Business(st: State): State { st.(ledger := map[], handled := []) }

  /** The ids that some well-formed delivery of the run carries. */
  function DeliveredIds(steps: seq<Step>): set<string>
  {
    if steps == [] then {}
    else
      var last := steps[|steps| - 1];
      DeliveredIds(steps[..|steps| - 1])
      + if last.Deliver? && ValidEvent(last.ev) then {last.ev.id} else {}
  }

  /**
    The run with every replay erased, and every first delivery that died before
    its handler erased too.
   */
  function Once(seen: set<string>, steps: seq<Step>): seq<Step>
  {
    if steps == [] then []
    else
      var front, last := steps[..|steps| - 1], steps[|steps| - 1];
      var before := Once(seen, front);
      if !last.Deliver? then before + [last]
      else if !ValidEvent(last.ev) || last.ev.id in seen + DeliveredIds(front) || last.crash.BeforeHandler?
      then before
      else before + [last]
  }

  /** A machine with no ledger at all: every delivery runs its handler. */
  function Unguarded(cfg: Config, st: State, step: Step): State
  {
    if step.Deliver? then Handle(cfg, st, step.ev.payload, step.now).0 else Apply(cfg, st, step).0
  }

  function UnguardedRun(cfg: Config, st: State, steps: seq<Step>): State
  {
    if steps == [] then st
    else Unguarded(cfg, UnguardedRun(cfg, st, steps[..|steps| - 1]), steps[|steps| - 1])
  }

  /** The state with the bookkeeping of another: ledger, handler log and requests in flight. */
  function Rebooked(st: State, b: State): State
  {
    st.(ledger := b.ledger, handled := b.handled, inflight := b.inflight)
  }

  lemma SweepOneIgnoresBooks(cfg: Config, st: State, b: State, id: nat, now: int, usage: Usage, fault: Fault)
    requires id < |st.subs|
    ensures SweepOne(cfg, Rebooked(st, b), id, now, usage, fault).0
         == Rebooked(SweepOne(cfg, st, id, now, usage, fault).0, b)
  {
    hide InvoicesAdmitted, Blocking, BuiltInvoice;
  }

  lemma {:induction false} SweepIgnoresBooks(
    cfg: Config, st: State, b: State, ids: seq<nat>, now: int, usage: Usage, faults: map<nat, Fault>)
    requires Within(ids, |st.subs|)
    ensures SweepMany(cfg, Rebooked(st, b), ids, now, usage, faults).0
         == Rebooked(SweepMany(cfg, st, ids, now, usage, faults).0, b)
  {
    hide SweepOne;
    if ids != [] {
      var rest, i := ids[..|ids| - 1], ids[|ids| - 1];
      SweepIgnoresBooks(cfg, st, b, rest, now, usage, faults);
      SweepOneIgnoresBooks(cfg, SweepMany(cfg, st, rest, now, usage, faults).0, b, i, now, usage, FaultOf(faults, i));
    }
  }

  lemma PlanChangeIgnoresBooks(cfg: Config, st: State, b: State, t: Option<int>, p: int, now: int)
    ensures ChangePlanStep(cfg, Rebooked(st, b), t, p, now).0 == Rebooked(ChangePlanStep(cfg, st, t, p, now).0, b)
  {
    hide SubsAdmitted, LiveFor, DecidePlanChange, NextPeriodEnd;
  }

  lemma RequestsIgnoreBooks(
    cfg: Config, st: State, b: State, t: Option<int>, su: bool, p: int, immediate: bool, now: int)
    ensures SubscribeStep(cfg, Rebooked(st, b), t, su, p, now).0 == Rebooked(SubscribeStep(cfg, st, t, su, p, now).0, b)
    ensures CancelStep(cfg, Rebooked(st, b), t, immediate, now).0
         == Rebooked(CancelStep(cfg, st, t, immediate, now).0, b)
    ensures ResumeStep(cfg, Rebooked(st, b), t).0 == Rebooked(ResumeStep(cfg, st, t).0, b)
  {
    hide SubsAdmitted, LiveFor, NextPeriodEnd, Allowed, CanceledRow;
  }

  lemma AdminIgnoresBooks(
    cfg: Config, st: State, b: State, id: nat, target: Option<Status>, plan: int, limit: Option<nat>, now: int)
    ensures SetStatusStep(cfg, Rebooked(st, b), id, target, now).0
         == Rebooked(SetStatusStep(cfg, st, id, target, now).0, b)
    ensures OverridePlanStep(cfg, Rebooked(st, b), id, plan, now).0
         == Rebooked(OverridePlanStep(cfg, st, id, plan, now).0, b)
    ensures SweepDunningStep(cfg, Rebooked(st, b), limit, now).0 == Rebooked(SweepDunningStep(cfg, st, limit, now).0, b)
  {
    hide SubsAdmitted, NextPeriodEnd, Allowed, TickAll, DueRows, Limited, AdminRow;
  }

  /** Requests, admin actions and the dunning sweep do not see the books. */
  lemma SubscriptionStepsIgnoreBooks(cfg: Config, st: State, b: State, step: Step)
    requires SubscriptionStep(step)
    ensures Apply(cfg, Rebooked(st, b), step).0 == Rebooked(Apply(cfg, st, step).0, b)
  {
    hide SubscribeStep, ChangePlanStep, CancelStep, ResumeStep, DeliverStep, LandStep, GenerateStep, PayStep, IssueStep,
         VoidStep, SetStatusStep, OverridePlanStep, SweepDunningStep, SweepInvoicesStep;
    match step
    case ChangePlan(t, p, now) => PlanChangeIgnoresBooks(cfg, st, b, t, p, now);
    case Subscribe(t, su, p, now) => RequestsIgnoreBooks(cfg, st, b, t, su, p, false, now);
    case Cancel(t, imm, now) => RequestsIgnoreBooks(cfg, st, b, t, false, 0, imm, now);
    case Resume(t) => RequestsIgnoreBooks(cfg, st, b, t, false, 0, false, 0);
    case SweepDunning(limit, now) => AdminIgnoresBooks(cfg, st, b, 0, None, 0, limit, now);
    case SetStatus(id, target, now) => AdminIgnoresBooks(cfg, st, b, id, target, 0, None, now);
    case OverridePlan(id, plan, now) => AdminIgnoresBooks(cfg, st, b, id, None, plan, None, now);
    case PutPlan(_, _) =>
  }

  lemma PrepareIgnoresBooks(st: State, b: State, t: Option<int>, s: Option<int>, e: Option<int>, usage: Usage)
    ensures PrepareGenerate(Rebooked(st, b), t, s, e, usage) == PrepareGenerate(st, t, s, e, usage)
  {
    hide LiveFor, Blocking, BuiltInvoice;
  }

  lemma PrepareSweepIgnoresBooks(st: State, b: State, id: nat, now: int, usage: Usage)
    ensures PrepareSweep(Rebooked(st, b), id, now, usage) == PrepareSweep(st, id, now, usage)
  {
    hide Blocking, BuiltInvoice;
  }

  lemma LifecycleIgnoresBooks(cfg: Config, st: State, b: State, id: nat, now: int)
    ensures IssueStep(cfg, Rebooked(st, b), id, now).0 == Rebooked(IssueStep(cfg, st, id, now).0, b)
    ensures VoidStep(cfg, Rebooked(st, b), id).0 == Rebooked(VoidStep(cfg, st, id).0, b)
    ensures PayStep(cfg, Rebooked(st, b), id, now).0 == Rebooked(PayStep(cfg, st, id, now).0, b)
  {
    hide SubsAdmitted, InvoicesAdmitted, AllowedInvoice, Recovered;
  }

  lemma InvoiceStepsIgnoreBooks(cfg: Config, st: State, b: State, step: Step)
    requires step.Generate? || step.Issue? || step.Pay? || step.VoidInvoice?
    ensures Apply(cfg, Rebooked(st, b), step).0 == Rebooked(Apply(cfg, st, step).0, b)
  {
    hide InvoicesAdmitted, PrepareGenerate, IssueStep, VoidStep, PayStep;
    match step
    case Generate(t, s, e, usage) => PrepareIgnoresBooks(st, b, t, s, e, usage);
    case Issue(id, now) => LifecycleIgnoresBooks(cfg, st, b, id, now);
    case Pay(id, now) => LifecycleIgnoresBooks(cfg, st, b, id, now);
    case VoidInvoice(id) => LifecycleIgnoresBooks(cfg, st, b, id, 0);
  }

  lemma RebookedItself(st: State)
    ensures Rebooked(st, st) == st
  {
  }

  /** Steps other than deliveries neither read nor write the books. */
  lemma SerialStepsIgnoreBooks(cfg: Config, st: State, b: State, step: Step)
    requires Serial(step) && !step.Deliver?
    ensures Apply(cfg, Rebooked(st, b), step).0 == Rebooked(Apply(cfg, st, step).0, b)
    ensures Rebooked(Apply(cfg, st, step).0, st) == Apply(cfg, st, step).0
  {
    hide SubscribeStep, ChangePlanStep, CancelStep, ResumeStep, DeliverStep, LandStep, GenerateStep, PayStep, IssueStep,
         VoidStep, SetStatusStep, OverridePlanStep, SweepDunningStep;
    if SubscriptionStep(step) {
      SubscriptionStepFrame(cfg, st, step);
      SubscriptionStepsIgnoreBooks(cfg, st, b, step);
    } else if step.SweepInvoices? {
      SweepIgnoresBooks(cfg, st, b, EndedRows(st.subs, step.now), step.now, step.usage, step.faults);
    } else {
      InvoiceStepsIgnoreBooks(cfg, st, b, step);
      InvoiceStepsIgnoreBooks(cfg, st, st, step);
      RebookedItself(st);
    }
  }

  /** One delivery: a fresh one that survives to its handler handles; all others change nothing but the ledger. */
  lemma DeliveryHandlesFreshOnly(cfg: Config, st: State, ev: Event, crash: Crash, now: int)
    ensures var n := Apply(cfg, st, Deliver(ev, crash, now)).0;
      && n.ledger.Keys == st.ledger.Keys + (if ValidEvent(ev) then {ev.id} else {})
      && Business(n) == if ValidEvent(ev) && ev.id !in st.ledger && !crash.BeforeHandler?
                        then Handle(cfg, Business(st), ev.payload, now).0 else Business(st)
  {
    var seen := st.(ledger := st.ledger[ev.id := false], handled := st.handled + [ev.id]);
    HandleIgnoresTheRest(cfg, seen, Business(st), ev.payload, now);
    HandleIgnoresTheRest(cfg, Business(st), Business(st), ev.payload, now);
  }

  /** One more step: erased, or taken by the ledger-free machine too. */
  lemma StepRefinesOnce(cfg: Config, mid: State, step: Step)
    requires Serial(step)
    ensures var n := Apply(cfg, mid, step).0;
      && n.ledger.Keys == mid.ledger.Keys + (if step.Deliver? && ValidEvent(step.ev) then {step.ev.id} else {})
      && Business(n)
         == if step.Deliver? && !(ValidEvent(step.ev) && step.ev.id !in mid.ledger && !step.crash.BeforeHandler?)
                        then Business(mid) else Unguarded(cfg, Business(mid), step)
  {
    hide Apply, Handle, Business;
    if step.Deliver? {
      DeliveryHandlesFreshOnly(cfg, mid, step.ev, step.crash, step.now);
    } else {
      SerialStepsIgnoreBooks(cfg, mid, Business(mid), step);
      BusinessRebooks(mid, Apply(cfg, mid, step).0);
    }
  }

  lemma BusinessRebooks(st: State, after: State)
    requires Rebooked(after, st) == after
    ensures Rebooked(st, Business(st)) == Business(st) && Rebooked(after, Business(st)) == Business(after)
    ensures after.ledger == st.ledger
  {
  }

  lemma UnguardedRunExtends(cfg: Config, st: State, steps: seq<Step>, last: Step)
    ensures UnguardedRun(cfg, st, steps + [last]) == Unguarded(cfg, UnguardedRun(cfg, st, steps), last)
  {
    hide Unguarded;
    var all := steps + [last];
    assert all[..|all| - 1] == steps;
  }

  /**
    Replay and crash refinement: after any serial run with any replays and any
    crashes, the business state is that of a ledger-free machine fed each event
    once.
   */
  lemma {:induction false} LedgerRefinesOnce(cfg: Config, st: State, steps: seq<Step>)
    requires forall k | 0 <= k < |steps| :: Serial(steps[k])
    ensures Run(cfg, st, steps).ledger.Keys == st.ledger.Keys + DeliveredIds(steps)
    ensures Business(Run(cfg, st, steps)) == UnguardedRun(cfg, Business(st), Once(st.ledger.Keys, steps))
    decreases |steps|
  {
    hide Apply, Business, Handle, Unguarded, UnguardedRun;
    if steps == [] {
      UnguardedEmpty(cfg, Business(st));
    } else {
      var front, last := steps[..|steps| - 1], steps[|steps| - 1];
      LedgerRefinesOnce(cfg, st, front);
      StepRefinesOnce(cfg, Run(cfg, st, front), last);
      UnguardedRunExtends(cfg, Business(st), Once(st.ledger.Keys, front), last);
    }
  }

  lemma UnguardedEmpty(cfg: Config, st: State)
    ensures UnguardedRun(cfg, st, []) == st
  {
  }

  /** Every delivery has an id from `ids` outside `seen`, and no two have the same. */
  predicate AllDistinct(steps: seq<Step>, ids: set<string>, seen: set<string>)
  {
    && (forall i | 0 <= i < |steps| && steps[i].Deliver? :: steps[i].ev.id in ids - seen)
    && (forall i, j | 0 <= i < j < |steps| && steps[i].Deliver? && steps[j].Deliver? ::
          steps[i].ev.id != steps[j].ev.id)
  }

  /** In the erased run no id occurs twice, and none was in the ledger beforehand. */
  lemma {:induction false} OnceHasNoReplay(seen: set<string>, steps: seq<Step>)
    ensures AllDistinct(Once(seen, steps), DeliveredIds(steps), seen)
    decreases |steps|
  {
    if steps != [] {
      var front, last := steps[..|steps| - 1], steps[|steps| - 1];
      OnceHasNoReplay(seen, front);
      var before := Once(seen, front);
      assert Once(seen, steps) == before || Once(seen, steps) == before + [last];
      assert DeliveredIds(front) <= DeliveredIds(steps);
    }
  }

  /** Replaying any delivery of a run at its end changes nothing at all. */
  lemma ReplayIsANoOp(cfg: Config, st: State, steps: seq<Step>, replay: Step)
    requires forall k | 0 <= k < |steps| :: Serial(steps[k])
    requires replay.Deliver? && replay.ev.id in DeliveredIds(steps)
    ensures Run(cfg, st, steps + [replay]) == Run(cfg, st, steps)
  {
    LedgerRefinesOnce(cfg, st, steps);
    assert (steps + [replay])[..|steps|] == steps;
  }

  // ------------------------------------------------- interleaved deliveries

  /** Handler entries are unique, recorded, and distinct from those still to come. */
  predicate LedgerOk(st: State)
  {
    && (forall i, j | 0 <= i < j < |st.handled| :: st.handled[i] != st.handled[j])
    && (forall i | 0 <= i < |st.handled| :: st.handled[i] in st.ledger)
    && (forall k | 0 <= k < |st.inflight| && st.inflight[k].Recorded? ::
          st.inflight[k].ev.id in st.ledger && st.inflight[k].ev.id !in st.handled)
    && (forall k, l | 0 <= k < l < |st.inflight| && st.inflight[k].Recorded? && st.inflight[l].Recorded? ::
          st.inflight[k].ev.id != st.inflight[l].ev.id)
    && (forall k | 0 <= k < |st.inflight| && st.inflight[k].NewSub? && st.inflight[k].event.Some? ::
          st.inflight[k].event.value in st.ledger)
  }

  lemma EmptyLedgerOk(plans: map<int, Plan>)
    ensures LedgerOk(Initial(plans))
  {
  }

  lemma DeliverKeepsLedger(cfg: Config, st: State, ev: Event, crash: Crash, now: int)
    requires LedgerOk(st)
    ensures LedgerOk(DeliverStep(cfg, st, ev, crash, now).0)
  {
    var seen := st.(ledger := st.ledger[ev.id := false], handled := st.handled + [ev.id]);
    HandleIgnoresTheRest(cfg, seen, st, ev.payload, now);
  }

  /** The ledger insert of one delivery in flight, against its unique event id. */
  lemma RecordKeepsLedger(st: State, k: nat)
    requires LedgerOk(st) && k < |st.inflight| && st.inflight[k].LookedUp? && st.inflight[k].ev.id !in st.ledger
    ensures var ev := st.inflight[k].ev;
      LedgerOk(st.(ledger := st.ledger[ev.id := false], inflight := st.inflight[k := Recorded(ev)]))
  {
  }

  /** Entering the handler moves the id from the recorded requests to the log. */
  lemma EntryKeepsLedger(st: State, k: nat, next: Pending)
    requires LedgerOk(st) && k < |st.inflight| && st.inflight[k].Recorded?
    requires next.Closed? || (next.NewSub? && next.event == Some(st.inflight[k].ev.id))
    ensures LedgerOk(st.(handled := st.handled + [st.inflight[k].ev.id], inflight := st.inflight[k := next]))
  {
  }

  lemma StampKeepsLedger(st: State, id: string)
    requires LedgerOk(st) && id in st.ledger
    ensures LedgerOk(st.(ledger := st.ledger[id := true]))
  {
  }

  lemma CreateLandKeepsLedger(cfg: Config, st: State, k: nat, now: int)
    requires LedgerOk(st) && k < |st.inflight| && (st.inflight[k].NewSub? || st.inflight[k].NewInvoice?)
    ensures LedgerOk(LandStep(cfg, st, k, now).0)
  {
  }

  lemma HandlerLandKeepsLedger(cfg: Config, st: State, k: nat, now: int)
    requires LedgerOk(st) && k < |st.inflight| && st.inflight[k].Recorded?
    ensures LedgerOk(LandStep(cfg, st, k, now).0)
  {
    var ev := st.inflight[k].ev;
    var entered := st.(handled := st.handled + [ev.id], inflight := st.inflight[k := Closed]);
    if ev.payload.Checkout? && PlanCheckout(st, ev.payload.session, now).Create? {
      EntryKeepsLedger(st, k, NewSub(PlanCheckout(st, ev.payload.session, now).row, Some(ev.id)));
    } else {
      EntryKeepsLedger(st, k, Closed);
      HandleIgnoresTheRest(cfg, entered, st, ev.payload, now);
      var after := entered.(subs := Handle(cfg, st, ev.payload, now).0.subs);
      StampKeepsLedger(after, ev.id);
    }
  }

  lemma LandKeepsLedger(cfg: Config, st: State, k: nat, now: int)
    requires LedgerOk(st)
    ensures LedgerOk(LandStep(cfg, st, k, now).0)
  {
    if k < |st.inflight| {
      match st.inflight[k]
      case Closed =>
      case NewInvoice(_) => CreateLandKeepsLedger(cfg, st, k, now);
      case NewSub(_, _) => CreateLandKeepsLedger(cfg, st, k, now);
      case LookedUp(ev) => if ev.id !in st.ledger { RecordKeepsLedger(st, k); }
      case Recorded(_) => HandlerLandKeepsLedger(cfg, st, k, now);
    }
  }

  /** Neither the ledger nor a recorded delivery is touched. */
  lemma StillOk(st: State, after: State)
    requires LedgerOk(st) && after.ledger == st.ledger && after.handled == st.handled
    requires after.inflight == st.inflight
      || (|after.inflight| == |st.inflight| + 1 && after.inflight[..|st.inflight|] == st.inflight
          && var p := after.inflight[|st.inflight|]; !p.Recorded? && (p.NewSub? ==> p.event.None?))
    ensures LedgerOk(after)
  {
  }

  lemma StepKeepsLedger(cfg: Config, st: State, step: Step)
    requires LedgerOk(st)
    ensures LedgerOk(Apply(cfg, st, step).0)
  {
    hide SubsAdmitted, InvoicesAdmitted, SubscribeStep, ChangePlanStep, CancelStep, ResumeStep, DeliverStep, SweepMany,
         LiveFor, CommitSubs, EndedRows,
         SweepDunningStep, SetStatusStep, OverridePlanStep, LandStep, AllowedInvoice, PrepareGenerate, PrepareSweep,
         LedgerOk, Recovered,
         PrepareSubscribe;
    if SubscriptionStep(step) {
      SubscriptionStepFrame(cfg, st, step);
      StillOk(st, Apply(cfg, st, step).0);
    } else {
      match step
      case Deliver(ev, crash, now) => DeliverKeepsLedger(cfg, st, ev, crash, now);
      case Land(k, now) => LandKeepsLedger(cfg, st, k, now);
      case _ => StillOk(st, Apply(cfg, st, step).0);
    }
  }

  /** However deliveries interleave, with or without crashes, no event id enters a handler twice. */
  lemma {:induction false} NoHandlerRunsTwice(cfg: Config, st: State, steps: seq<Step>)
    requires LedgerOk(st)
    ensures LedgerOk(Run(cfg, st, steps))
    ensures var h := Run(cfg, st, steps).handled; forall i, j | 0 <= i < j < |h| :: h[i] != h[j]
    decreases |steps|
  {
    if steps != [] {
      NoHandlerRunsTwice(cfg, st, steps[..|steps| - 1]);
      StepKeepsLedger(cfg, Run(cfg, st, steps[..|steps| - 1]), steps[|steps| - 1]);
    }
  }

  // ------------------------------- what interleaved deliveries do to the tables

  /** The ledger-free machine's part in a step. */
  datatype Work =
    | Idle
    | Reserve
    | Handled(ev: Event, now: int)
    | Entered(k: nat, ev: Event, now: int)
    | Plain(step: Step)

  /** A request without its delivery: one that has not entered its handler has done nothing yet. */
  function Unrecorded(p: Pending): Pending
  {
    match p
    case NewSub(row, _) => NewSub(row, None)
    case NewInvoice(_) => p
    case _ => Closed
  }

  function AllUnrecorded(ps: seq<Pending>): (r: seq<Pending>)
    ensures |r| == |ps| && forall k | 0 <= k < |ps| :: r[k] == Unrecorded(ps[k])
  {
    seq(|ps|, k requires 0 <= k < |ps| => Unrecorded(ps[k]))
  }

  /** The state without ledger, log and deliveries under way. */
  function Essence(st: State): State
  {
    st.(ledger := map[], handled := [], inflight := AllUnrecorded(st.inflight))
  }

  function WorkOf(st: State, step: Step): Work
  {
    match step
    case Deliver(ev, crash, now) =>
      if ValidEvent(ev) && ev.id !in st.ledger && !crash.BeforeHandler? then Handled(ev, now) else Idle
    case BeginDeliver(ev) => if ValidEvent(ev) && ev.id !in st.ledger then Reserve else Idle
    case Land(k, now) =>
      if k >= |st.inflight| || st.inflight[k].Closed? || st.inflight[k].LookedUp? then Idle
      else if st.inflight[k].Recorded? then Entered(k, st.inflight[k].ev, now)
      else Plain(step)
    case _ => Plain(step)
  }

  /** The ledger-free machine: no lookup, no ledger row, no stamp. */
  function Perform(cfg: Config, st: State, w: Work): State
  {
    match w
    case Idle => st
    case Reserve => st.(inflight := st.inflight + [Closed])
    case Handled(ev, now) => Handle(cfg, st, ev.payload, now).0
    case Entered(k, ev, now) =>
      if ev.payload.Checkout? && PlanCheckout(st, ev.payload.session, now).Create? && k < |st.inflight|
      then st.(inflight := st.inflight[k := NewSub(PlanCheckout(st, ev.payload.session, now).row, None)])
      else Handle(cfg, st, ev.payload, now).0
    case Plain(step) => Apply(cfg, st, step).0
  }

  function Works(cfg: Config, st: State, steps: seq<Step>): seq<Work>
  {
    if steps == [] then []
    else
      var front, last := steps[..|steps| - 1], steps[|steps| - 1];
      Works(cfg, st, front) + [WorkOf(Run(cfg, st, front), last)]
  }

  function PerformAll(cfg: Config, st: State, ws: seq<Work>): State
  {
    if ws == [] then st else Perform(cfg, PerformAll(cfg, st, ws[..|ws| - 1]), ws[|ws| - 1])
  }

  function EventsOf(w: Work): seq<string>
  {
    if w.Handled? || w.Entered? then [w.ev.id] else []
  }

  /** The event ids the machine handles, in order. */
  function AllEvents(ws: seq<Work>): seq<string>
  {
    if ws == [] then [] else AllEvents(ws[..|ws| - 1]) + EventsOf(ws[|ws| - 1])
  }

  /** What the step does, and which handler it enters, is the ledger-free machine's work. */
  predicate Mirrors(cfg: Config, st: State, step: Step)
  {
    var n := Apply(cfg, st, step).0;
    Essence(n) == Perform(cfg, Essence(st), WorkOf(st, step)) && n.handled == st.handled + EventsOf(WorkOf(st, step))
  }

  lemma DeliverMirrors(cfg: Config, st: State, step: Step)
    requires step.Deliver?
    ensures Mirrors(cfg, st, step)
  {
    hide Handle;
    var ev := step.ev;
    var seen := st.(ledger := st.ledger[ev.id := false], handled := st.handled + [ev.id]);
    HandleIgnoresTheRest(cfg, seen, st, ev.payload, step.now);
    HandleIgnoresTheRest(cfg, Essence(st), st, ev.payload, step.now);
  }

  lemma EnteredMirrors(cfg: Config, st: State, k: nat, now: int)
    requires k < |st.inflight| && st.inflight[k].Recorded?
    ensures Mirrors(cfg, st, Land(k, now))
  {
    hide Handle, PlanCheckout;
    var ev := st.inflight[k].ev;
    var entered := st.(inflight := st.inflight[k := Closed], handled := st.handled + [ev.id]);
    HandleIgnoresTheRest(cfg, entered, st, ev.payload, now);
    HandleIgnoresTheRest(cfg, Essence(st), st, ev.payload, now);
    if ev.payload.Checkout? { PlanIgnoresTheRest(st, ev.payload.session, now); }
    assert AllUnrecorded(st.inflight[k := Closed]) == AllUnrecorded(st.inflight);
    var plan := if ev.payload.Checkout? then PlanCheckout(st, ev.payload.session, now) else Answer(Done(Ignored));
    if plan.Create? {
      var p := NewSub(plan.row, Some(ev.id));
      assert AllUnrecorded(st.inflight[k := p]) == AllUnrecorded(st.inflight)[k := Unrecorded(p)];
    }
  }

  lemma PlanIgnoresTheRest(st: State, c: CheckoutSession, now: int)
    ensures PlanCheckout(Essence(st), c, now) == PlanCheckout(st, c, now)
  {
  }

  lemma LandMirrors(cfg: Config, st: State, k: nat, now: int)
    ensures Mirrors(cfg, st, Land(k, now))
  {
    hide Handle, SubsAdmitted, InvoicesAdmitted, PlanCheckout;
    if k < |st.inflight| {
      if st.inflight[k].Recorded? {
        EnteredMirrors(cfg, st, k, now);
      } else {
        assert AllUnrecorded(st.inflight[k := Closed]) == AllUnrecorded(st.inflight)[k := Closed];
        if st.inflight[k].LookedUp? {
          assert AllUnrecorded(st.inflight[k := Recorded(st.inflight[k].ev)]) == AllUnrecorded(st.inflight);
          assert AllUnrecorded(st.inflight[k := Closed]) == AllUnrecorded(st.inflight);
        }
      }
    }
  }

  lemma SubscribeIgnoresBooks(st: State, b: State, t: Option<int>, su: bool, p: int, now: int)
    ensures PrepareSubscribe(Rebooked(st, b), t, su, p, now) == PrepareSubscribe(st, t, su, p, now)
  {
    hide LiveFor, NextPeriodEnd;
  }

  lemma BeginMirrors(cfg: Config, st: State, step: Step)
    requires step.BeginSubscribe? || step.BeginGenerate? || step.BeginSweep? || step.BeginDeliver?
    ensures Mirrors(cfg, st, step)
  {
    hide PrepareSubscribe, PrepareGenerate, PrepareSweep;
    if step.BeginSweep? {
      PrepareSweepIgnoresBooks(st, Essence(st), step.id, step.now, step.usage);
    } else if step.BeginGenerate? {
      PrepareIgnoresBooks(st, Essence(st), step.tenant, step.start, step.end, step.usage);
    } else if step.BeginSubscribe? {
      SubscribeIgnoresBooks(st, Essence(st), step.tenant, step.superuser, step.plan, step.now);
    }
    assert Rebooked(st, Essence(st)) == Essence(st);
    var n := Apply(cfg, st, step).0;
    if |n.inflight| > |st.inflight| {
      var p := n.inflight[|st.inflight|];
      assert AllUnrecorded(n.inflight) == AllUnrecorded(st.inflight) + [Unrecorded(p)];
    }
  }

  lemma StepMirrors(cfg: Config, st: State, step: Step)
    ensures Mirrors(cfg, st, step)
  {
    if Serial(step) {
      if step.Deliver? {
        DeliverMirrors(cfg, st, step);
      } else {
        SerialMirrors(cfg, st, step);
      }
    } else if step.Land? {
      LandMirrors(cfg, st, step.k, step.now);
    } else {
      BeginMirrors(cfg, st, step);
    }
  }

  lemma SerialMirrors(cfg: Config, st: State, step: Step)
    requires Serial(step) && !step.Deliver?
    ensures Mirrors(cfg, st, step)
  {
    hide Apply;
    SerialStepsIgnoreBooks(cfg, st, Essence(st), step);
    var n := Apply(cfg, st, step).0;
    assert n.inflight == Rebooked(n, st).inflight;
    assert Rebooked(st, Essence(st)) == Essence(st);
    assert Rebooked(n, Essence(st)) == Essence(n);
  }

  /**
    Any interleaving, with any replays and crashes: the tables are those of the
    ledger-free machine, and the events that machine handles are pairwise
    distinct and none had been handled before.
   */
  lemma {:induction false} InterleavingRefinesOnce(cfg: Config, st: State, steps: seq<Step>)
    requires LedgerOk(st)
    ensures Essence(Run(cfg, st, steps)) == PerformAll(cfg, Essence(st), Works(cfg, st, steps))
    ensures var h := st.handled + AllEvents(Works(cfg, st, steps)); forall i, j | 0 <= i < j < |h| :: h[i] != h[j]
  {
    RunMirrors(cfg, st, steps);
    NoHandlerRunsTwice(cfg, st, steps);
  }

  lemma {:induction false} RunMirrors(cfg: Config, st: State, steps: seq<Step>)
    ensures Essence(Run(cfg, st, steps)) == PerformAll(cfg, Essence(st), Works(cfg, st, steps))
    ensures Run(cfg, st, steps).handled == st.handled + AllEvents(Works(cfg, st, steps))
    decreases |steps|
  {
    hide Apply, Perform, Essence, WorkOf;
    if steps != [] {
      var front, last := steps[..|steps| - 1], steps[|steps| - 1];
      RunMirrors(cfg, st, front);
      StepMirrors(cfg, Run(cfg, st, front), last);
      var ws := Works(cfg, st, steps);
      assert ws[..|ws| - 1] == Works(cfg, st, front);
    }
  }
}
