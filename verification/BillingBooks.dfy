/**
  What every run of the billing machine keeps of its invoices: figures, stamps,
  the invoice state machine and one document per slot. Nothing here depends on
  what happens to subscriptions.
 */
module BillingBooks {
  import opened Common
  import opened Lifecycle
  import opened Invoicing
  import opened Billing
  import opened BillingRuns

  // -------------------------------------------------------------- invariants

  predicate DocumentOk(inv: Invoice)
  {
    && inv.periodStart < inv.periodEnd
    && LinesAddUp(inv.lines)
    && inv.subtotal == Subtotal(inv.lines)
    && inv.tax == TaxTotal(inv.lines)
    && inv.total == inv.subtotal + inv.tax
    && (inv.paidAt.Some? <==> inv.status.Paid?)
    && (inv.status.Draft? ==> inv.issuedAt.None?)
    && (inv.status.Open? || inv.status.Paid? ==> inv.issuedAt.Some?)
  }

  predicate DocumentsOk(invoices: seq<Invoice>) { forall i | 0 <= i < |invoices| :: DocumentOk(invoices[i]) }

  predicate InvoicesInFlightOk(ps: seq<Pending>)
  {
    forall k | 0 <= k < |ps| && ps[k].NewInvoice? :: DocumentOk(ps[k].inv)
  }

  predicate BooksOk(cfg: Config, st: State)
  {
    DocumentsOk(st.invoices) && InvoicesAdmitted(cfg, st.invoices) && InvoicesInFlightOk(st.inflight)
  }

  /** An invoice is unchanged, or moves along one edge and keeps everything but its stamps. */
  predicate Advances(a: Invoice, b: Invoice)
  {
    || b == a
    || (AllowedInvoice(a.status, b.status)
        && b == a.(status := b.status, issuedAt := b.issuedAt, paidAt := b.paidAt))
  }

  predicate DocumentsAdvance(a: seq<Invoice>, b: seq<Invoice>)
  {
    |a| <= |b| && forall i | 0 <= i < |a| :: Advances(a[i], b[i])
  }

  // ----------------------------------------------------------- single steps

  lemma BuiltInvoiceIsSound(s: Subscription, id: nat, plan: Plan, start: int, end: int, usage: Usage)
    requires start < end
    ensures DocumentOk(BuiltInvoice(s, id, plan, start, end, usage))
  {
    GeneratedFigures(s, id, plan, start, end, usage);
  }

  predicate KeepsDocuments(cfg: Config, before: State, after: State)
  {
    && DocumentsOk(after.invoices)
    && InvoicesAdmitted(cfg, after.invoices)
    && DocumentsAdvance(before.invoices, after.invoices)
  }

  lemma PreparedInvoiceIsSound(st: State, id: nat, plan: Plan, start: Option<int>, end: Option<int>, usage: Usage)
    requires id < |st.subs|
    ensures var r := PrepareInvoice(st, id, plan, start, end, usage);
      r.ReadyInvoice? ==> DocumentOk(r.inv) && r.inv.status.Draft?
  {
    var s := st.subs[id];
    var from := if start.Some? then start.value else s.periodStart;
    var to := if end.Some? then end.value else s.periodEnd;
    if from < to { BuiltInvoiceIsSound(s, id, plan, from, to, usage); }
  }

  /** The sweep only appends: one sound document, as a draft or already issued. */
  lemma SweepOneAppends(cfg: Config, st: State, id: nat, now: int, usage: Usage, fault: Fault)
    requires id < |st.subs|
    ensures var n := SweepOne(cfg, st, id, now, usage, fault).0.invoices;
      || n == st.invoices
      || (InvoicesAdmitted(cfg, n) && exists inv: Invoice :: DocumentOk(inv) && n == st.invoices + [inv])
  {
    hide InvoicesAdmitted, DocumentOk;
    var s := st.subs[id];
    if s.plan in st.plans {
      PreparedInvoiceIsSound(st, id, st.plans[s.plan], None, None, usage);
      var r := PrepareInvoice(st, id, st.plans[s.plan], None, None, usage);
      if r.ReadyInvoice? {
        var issued := r.inv.(status := Open, issuedAt := Some(now));
        IssuedIsSound(r.inv, now);
        assert (st.invoices + [r.inv])[|st.invoices| := issued] == st.invoices + [issued];
      }
    }
  }

  lemma IssuedIsSound(inv: Invoice, now: int)
    requires DocumentOk(inv) && inv.status.Draft?
    ensures DocumentOk(inv.(status := Open, issuedAt := Some(now)))
  {
  }

  lemma SweepOneKeepsDocuments(cfg: Config, st: State, id: nat, now: int, usage: Usage, fault: Fault)
    requires id < |st.subs| && DocumentsOk(st.invoices) && InvoicesAdmitted(cfg, st.invoices)
    ensures KeepsDocuments(cfg, st, SweepOne(cfg, st, id, now, usage, fault).0)
    ensures var n := SweepOne(cfg, st, id, now, usage, fault).0.invoices; st.invoices <= n
  {
    hide SweepOne, InvoicesAdmitted, DocumentOk;
    SweepOneAppends(cfg, st, id, now, usage, fault);
  }

  lemma {:induction false} SweepManyKeepsDocuments(
    cfg: Config, st: State, ids: seq<nat>, now: int, usage: Usage, faults: map<nat, Fault>)
    requires Within(ids, |st.subs|) && DocumentsOk(st.invoices) && InvoicesAdmitted(cfg, st.invoices)
    ensures KeepsDocuments(cfg, st, SweepMany(cfg, st, ids, now, usage, faults).0)
    ensures st.invoices <= SweepMany(cfg, st, ids, now, usage, faults).0.invoices
  {
    if ids != [] {
      var rest, i := ids[..|ids| - 1], ids[|ids| - 1];
      SweepManyKeepsDocuments(cfg, st, rest, now, usage, faults);
      SweepOneKeepsDocuments(cfg, SweepMany(cfg, st, rest, now, usage, faults).0, i, now, usage, FaultOf(faults, i));
    }
  }

  lemma PreparedGenerateIsSound(st: State, tenant: Option<int>, start: Option<int>, end: Option<int>, usage: Usage)
    ensures var r := PrepareGenerate(st, tenant, start, end, usage);
      r.ReadyInvoice? ==> DocumentOk(r.inv) && r.inv.status.Draft?
  {
    match LiveFor(st.subs, tenant)
    case None =>
    case Some(i) =>
      if st.subs[i].plan in st.plans {
        PreparedInvoiceIsSound(st, i, st.plans[st.subs[i].plan], start, end, usage);
      }
  }

  lemma PreparedSweepIsSound(st: State, id: nat, now: int, usage: Usage)
    ensures var r := PrepareSweep(st, id, now, usage); r.ReadyInvoice? ==> DocumentOk(r.inv) && r.inv.status.Draft?
  {
    if id < |st.subs| && st.subs[id].plan in st.plans {
      PreparedInvoiceIsSound(st, id, st.plans[st.subs[id].plan], None, None, usage);
    }
  }

  lemma SameDocumentsKept(cfg: Config, st: State, after: State)
    requires BooksOk(cfg, st) && after.invoices == st.invoices
    ensures KeepsDocuments(cfg, st, after)
  {
  }

  lemma ReplaceKeepsDocuments(cfg: Config, st: State, id: nat, inv: Invoice, after: State)
    requires BooksOk(cfg, st) && id < |st.invoices| && DocumentOk(inv) && Advances(st.invoices[id], inv)
    requires after.invoices == st.invoices[id := inv] && InvoicesAdmitted(cfg, after.invoices)
    ensures KeepsDocuments(cfg, st, after)
  {
  }

  lemma LifecycleKeepsDocuments(cfg: Config, st: State, step: Step)
    requires BooksOk(cfg, st) && (step.Issue? || step.Pay? || step.VoidInvoice?)
    ensures KeepsDocuments(cfg, st, Apply(cfg, st, step).0)
  {
    hide KeepsDocuments, SubsAdmitted, UniqueSlot;
    var after := Apply(cfg, st, step).0;
    if after.invoices == st.invoices {
      SameDocumentsKept(cfg, st, after);
    } else {
      ReplaceKeepsDocuments(cfg, st, step.id, after.invoices[step.id], after);
    }
  }

  /** Where a step may bring a document from: the table and the requests in flight. */
  lemma LandKeepsBooks(cfg: Config, st: State, k: nat, now: int)
    requires BooksOk(cfg, st)
    ensures KeepsDocuments(cfg, st, LandStep(cfg, st, k, now).0)
    ensures InvoicesInFlightOk(LandStep(cfg, st, k, now).0.inflight)
  {
    hide SubsAdmitted, DocumentOk;
    if k < |st.inflight| && st.inflight[k].Recorded? {
      var ev := st.inflight[k].ev;
      var entered := st.(inflight := st.inflight[k := Closed], handled := st.handled + [ev.id]);
      HandleIgnoresTheRest(cfg, entered, st, ev.payload, now);
    }
  }

  /** Every step keeps the books, and moves invoices only along their edges. */
  lemma StepKeepsBooks(cfg: Config, st: State, step: Step)
    requires BooksOk(cfg, st)
    ensures var n := Apply(cfg, st, step).0; BooksOk(cfg, n) && DocumentsAdvance(st.invoices, n.invoices)
  {
    hide SubscribeStep, ChangePlanStep, CancelStep, ResumeStep, DeliverStep, SweepDunningStep, PayStep, IssueStep,
         VoidStep, SetStatusStep, OverridePlanStep, LandStep, PrepareSubscribe, PrepareGenerate, PrepareSweep,
         DocumentOk;
    if SubscriptionStep(step) {
      SubscriptionStepFrame(cfg, st, step);
    } else if step.Issue? || step.Pay? || step.VoidInvoice? {
      LifecycleKeepsDocuments(cfg, st, step);
      LifecycleFrame(cfg, st, step);
    } else {
      match step
      case Generate(t, s, e, usage) => PreparedGenerateIsSound(st, t, s, e, usage);
      case BeginGenerate(t, s, e, usage) => PreparedGenerateIsSound(st, t, s, e, usage);
      case BeginSweep(id, now, usage) => PreparedSweepIsSound(st, id, now, usage);
      case SweepInvoices(now, usage, faults) =>
        SweepManyKeepsDocuments(cfg, st, EndedRows(st.subs, now), now, usage, faults);
      case Deliver(ev, crash, now) => DeliverFrame(cfg, st, ev, crash, now);
      case Land(k, now) => LandKeepsBooks(cfg, st, k, now);
      case _ =>
    }
  }

  lemma LifecycleFrame(cfg: Config, st: State, step: Step)
    requires step.Issue? || step.Pay? || step.VoidInvoice?
    ensures Apply(cfg, st, step).0.inflight == st.inflight
  {
    hide InvoicesAdmitted, SubsAdmitted;
  }

  // -------------------------------------------------------------- whole runs

  /** What may differ between two moments of one run, however far apart. */
  predicate LaterBooks(a: seq<Invoice>, b: seq<Invoice>)
  {
    |a| <= |b| && forall i | 0 <= i < |a| :: SameFigures(a[i], b[i])
  }

  /** Figures, owner and period are for ever; a paid or void invoice changes no more at all. */
  predicate SameFigures(a: Invoice, b: Invoice)
  {
    && b == a.(status := b.status, issuedAt := b.issuedAt, paidAt := b.paidAt)
    && (a.status.Paid? || a.status.Void? ==> b == a)
  }

  lemma LaterAfterStep(a: seq<Invoice>, b: seq<Invoice>, c: seq<Invoice>)
    requires LaterBooks(a, b) && DocumentsAdvance(b, c)
    ensures LaterBooks(a, c)
  {
    forall i | 0 <= i < |a| ensures SameFigures(a[i], c[i]) {
      assert SameFigures(a[i], b[i]) && Advances(b[i], c[i]);
    }
  }

  /**
    Over every run, interleaved requests and revivals included: the books stay
    sound, figures survive repricing and every lifecycle step, paid and void are
    final.
   */
  lemma {:induction false} RunKeepsBooks(cfg: Config, st: State, steps: seq<Step>, k: nat)
    requires BooksOk(cfg, st) && k <= |steps|
    ensures BooksOk(cfg, Run(cfg, st, steps))
    ensures LaterBooks(Run(cfg, st, steps[..k]).invoices, Run(cfg, st, steps).invoices)
    decreases |steps|
  {
    hide Apply, BooksOk;
    if k == |steps| { assert steps[..k] == steps; }
    if steps != [] {
      var front := steps[..|steps| - 1];
      var j := if k <= |front| then k else |front|;
      RunKeepsBooks(cfg, st, front, j);
      StepKeepsBooks(cfg, Run(cfg, st, front), steps[|steps| - 1]);
      if k <= |front| {
        assert front[..k] == steps[..k];
        LaterAfterStep(Run(cfg, st, steps[..k]).invoices, Run(cfg, st, front).invoices, Run(cfg, st, steps).invoices);
      }
    }
  }

  lemma EmptyBooksOk(cfg: Config, plans: map<int, Plan>)
    ensures BooksOk(cfg, Initial(plans))
  {
  }

  /** The same from the empty tables: every reachable state, and any two moments of the run to it. */
  lemma ReachableBooksAreSound(cfg: Config, plans: map<int, Plan>, steps: seq<Step>, k: nat)
    requires k <= |steps|
    ensures BooksOk(cfg, Run(cfg, Initial(plans), steps))
    ensures LaterBooks(Run(cfg, Initial(plans), steps[..k]).invoices, Run(cfg, Initial(plans), steps).invoices)
  {
    EmptyBooksOk(cfg, plans);
    RunKeepsBooks(cfg, Initial(plans), steps, k);
  }

  /** At most one invoice of a slot is ever paid, at whatever moments of whatever run we look. */
  lemma OnePaidInvoicePerSlot(cfg: Config, plans: map<int, Plan>, steps: seq<Step>, k1: nat, k2: nat, i: nat, j: nat)
    requires cfg.slotIndex && k1 <= |steps| && k2 <= |steps|
    requires var a := Run(cfg, Initial(plans), steps[..k1]).invoices; i < |a| && a[i].status.Paid?
    requires var b := Run(cfg, Initial(plans), steps[..k2]).invoices; j < |b| && b[j].status.Paid?
    requires var a, b := Run(cfg, Initial(plans), steps[..k1]).invoices, Run(cfg, Initial(plans), steps[..k2]).invoices;
      a[i].sub == b[j].sub && a[i].periodStart == b[j].periodStart
    ensures i == j
  {
    hide Run, BooksOk;
    ReachableBooksAreSound(cfg, plans, steps, k1);
    ReachableBooksAreSound(cfg, plans, steps, k2);
    var end := Run(cfg, Initial(plans), steps);
    BooksHaveUniqueSlots(cfg, end);
    var a, b := Run(cfg, Initial(plans), steps[..k1]).invoices, Run(cfg, Initial(plans), steps[..k2]).invoices;
    assert SameFigures(a[i], end.invoices[i]) && SameFigures(b[j], end.invoices[j]);
    assert end.invoices[i].Blocks(end.invoices[j].sub, end.invoices[j].periodStart);
    assert end.invoices[j].Blocks(end.invoices[i].sub, end.invoices[i].periodStart);
  }

  lemma BooksHaveUniqueSlots(cfg: Config, st: State)
    requires cfg.slotIndex && BooksOk(cfg, st)
    ensures UniqueSlot(st.invoices)
  {
  }

  /** Voiding an invoice frees its slot, and no other slot notices. */
  lemma VoidFreesExactlyItsSlot(cfg: Config, st: State, id: nat, sub: nat, start: int)
    requires UniqueSlot(st.invoices)
    requires id < |st.invoices| && AllowedInvoice(st.invoices[id].status, Void)
    ensures var n := VoidStep(cfg, st, id).0;
      Blocking(n.invoices, sub, start)
      == if st.invoices[id].sub == sub && st.invoices[id].periodStart == start then None
         else Blocking(st.invoices, sub, start)
  {
    var n := st.invoices[id := st.invoices[id].(status := Void)];
    assert UniqueSlot(n);
    var before, after := Blocking(st.invoices, sub, start), Blocking(n, sub, start);
    if after.Some? {
      assert st.invoices[after.value].Blocks(sub, start);
    }
    if before.Some? {
      assert before.value != id ==> n[before.value].Blocks(sub, start);
    }
  }
}
