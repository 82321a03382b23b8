/** The two periodic sweeps: conserved counts and idempotence at one instant. */
module BillingSweeps {
  import opened Common
  import opened Lifecycle
  import opened Dunning
  import opened Invoicing
  import opened Billing
  import opened BillingRuns
  import opened BillingTenants

  /** Ticks only take rows out of the live set, so the sweep's commit always goes through. */
  lemma SweepCommits(cfg: Config, subs: seq<Subscription>, ids: seq<nat>, now: int)
    requires SubsAdmitted(cfg, subs) && Within(ids, |subs|) && Ascending(ids)
    ensures SubsAdmitted(cfg, TickAll(cfg.dunning, subs, ids, now))
  {
    TickAllFrame(cfg.dunning, subs, ids, now);
  }

  /** An ascending listing is determined by its elements. */
  lemma {:induction false} AscendingIsUnique(a: seq<nat>, b: seq<nat>)
    requires Ascending(a) && Ascending(b) && forall x :: x in a <==> x in b
    ensures a == b
    decreases |a|
  {
    assert a != [] ==> a[0] in a;
    assert b != [] ==> b[0] in b;
    if a != [] {
      assert a[0] == b[0];
      forall x ensures x in a[1..] <==> x in b[1..] {
        assert x in a[1..] ==> x in a && x > a[0];
        assert x in b[1..] ==> x in b && x > b[0];
      }
      AscendingIsUnique(a[1..], b[1..]);
    }
  }

  /** What a sweep with a limit leaves due: exactly the rows the limit cut off. */
  lemma SweepLeavesTheRest(cfg: Config, st: State, limit: Option<nat>, now: int)
    requires SubsAdmitted(cfg, st.subs)
    ensures var due := DueRows(st.subs, now);
      var n := SweepDunningStep(cfg, st, limit, now).0;
      && n == st.(subs := TickAll(cfg.dunning, st.subs, Limited(due, limit), now))
      && DueRows(n.subs, now) == due[|Limited(due, limit)|..]
  {
    hide DueRows, Tick, TickAll, SubsAdmitted;
    var due := DueRows(st.subs, now);
    var ids := Limited(due, limit);
    assert ids == due[..|ids|];
    assert Ascending(due);
    SweepCommits(cfg, st.subs, ids, now);
    var out := TickAll(cfg.dunning, st.subs, ids, now);
    var rest, left := due[|ids|..], DueRows(out, now);
    assert due == ids + rest;
    forall i: nat ensures i in left <==> i in rest {
      if i < |out| {
        TickAllPointwise(cfg.dunning, st.subs, ids, now, i);
        TickSettles(cfg.dunning, st.subs[i], now);
        assert i in due <==> i in ids || i in rest;
        assert i in left <==> IsDue(out[i], now);
        assert i in due <==> IsDue(st.subs[i], now);
        LimitSplits(due, |ids|, i);
      }
    }
    AscendingIsUnique(left, rest);
  }

  lemma LimitSplits(ids: seq<nat>, k: nat, i: nat)
    requires Ascending(ids) && k <= |ids|
    ensures !(i in ids[..k] && i in ids[k..])
  {
  }

  /** A due row changes when it is ticked. */
  lemma TickChanges(cfg: Settings, s: Subscription, now: int)
    requires IsDue(s, now)
    ensures Tick(cfg, s, now) != s
  {
    TickSettles(cfg, s, now);
  }

  /**
    A second dunning sweep at the same instant changes nothing, if and only if
    the limit cut nothing off the first one (or lets nothing through at all).
    Without a limit it never changes anything.
   */
  lemma DunningSweepIsIdempotent(cfg: Config, st: State, limit: Option<nat>, now: int)
    requires SubsAdmitted(cfg, st.subs)
    ensures var once := SweepDunningStep(cfg, st, limit, now).0;
      SweepDunningStep(cfg, once, limit, now).0 == once
      <==> limit.None? || limit == Some(0) || |DueRows(st.subs, now)| <= limit.value
  {
    hide DueRows, Tick, TickAll, SubsAdmitted, SweepDunningStep;
    var due := DueRows(st.subs, now);
    var ids := Limited(due, limit);
    SweepLeavesTheRest(cfg, st, limit, now);
    var once := SweepDunningStep(cfg, st, limit, now).0;
    SweepCommits(cfg, st.subs, ids, now);
    SweepLeavesTheRest(cfg, once, limit, now);
    var rest := DueRows(once.subs, now);
    var again := Limited(rest, limit);
    if again == [] {
      NothingTicked(cfg.dunning, once.subs, now);
    } else {
      var i := again[0];
      assert rest[0] == i;
      TickAllPointwise(cfg.dunning, once.subs, again, now, i);
      TickChanges(cfg.dunning, once.subs[i], now);
    }
  }

  lemma NothingTicked(cfg: Settings, subs: seq<Subscription>, now: int)
    ensures TickAll(cfg, subs, [], now) == subs
  {
  }

  /** Every subscription the invoice sweep looks at is counted exactly once. */
  lemma {:induction false} InvoiceSweepConservesCounts(
    cfg: Config, st: State, ids: seq<nat>, now: int, usage: Usage, faults: map<nat, Fault>)
    requires Within(ids, |st.subs|)
    ensures var t := SweepMany(cfg, st, ids, now, usage, faults).1; t.generated + t.skipped + t.failed == |ids|
  {
    if ids != [] {
      InvoiceSweepConservesCounts(cfg, st, ids[..|ids| - 1], now, usage, faults);
    }
  }

  /** One subscription: its outcome other than a failure leaves the slot covered; coverage is never lost. */
  lemma SweepOneCovers(cfg: Config, st: State, id: nat, now: int, usage: Usage, fault: Fault)
    requires id < |st.subs|
    ensures var r := SweepOne(cfg, st, id, now, usage, fault);
      && (forall s: nat, p: int :: Blocking(st.invoices, s, p).Some? ==> Blocking(r.0.invoices, s, p).Some?)
      && (r.1.failed == 0 ==> st.subs[id].plan in st.plans && Blocking(r.0.invoices, id, st.subs[id].periodStart).Some?)
  {
    var r := SweepOne(cfg, st, id, now, usage, fault).0.invoices;
    assert |st.invoices| <= |r| && forall j | 0 <= j < |st.invoices| :: r[j] == st.invoices[j];
    forall s: nat, p: int | Blocking(st.invoices, s, p).Some?
      ensures Blocking(r, s, p).Some?
    {
      var j := Blocking(st.invoices, s, p).value;
      assert r[j].Blocks(s, p);
    }
    if |r| > |st.invoices| {
      assert r[|st.invoices|].Blocks(id, st.subs[id].periodStart);
    }
  }

  lemma {:induction false} FaultlessSweepCovers(
    cfg: Config, st: State, ids: seq<nat>, now: int, usage: Usage, faults: map<nat, Fault>)
    requires Within(ids, |st.subs|)
    requires SweepMany(cfg, st, ids, now, usage, faults).1.failed == 0
    ensures var n := SweepMany(cfg, st, ids, now, usage, faults).0;
      forall a | 0 <= a < |ids| ::
        st.subs[ids[a]].plan in st.plans && Blocking(n.invoices, ids[a], st.subs[ids[a]].periodStart).Some?
  {
    hide SweepOne;
    if ids != [] {
      var rest, i := ids[..|ids| - 1], ids[|ids| - 1];
      FaultlessSweepCovers(cfg, st, rest, now, usage, faults);
      SweepOneCovers(cfg, SweepMany(cfg, st, rest, now, usage, faults).0, i, now, usage, FaultOf(faults, i));
    }
  }

  /** How many of the sweep's lookups break down. */
  function BrokenLookups(ids: seq<nat>, faults: map<nat, Fault>): nat
  {
    if ids == [] then 0
    else
      var i := ids[|ids| - 1];
      BrokenLookups(ids[..|ids| - 1], faults) + if FaultOf(faults, i).AtLookup? then 1 else 0
  }

  lemma {:induction false} CoveredSweepSkips(
    cfg: Config, st: State, ids: seq<nat>, now: int, usage: Usage, faults: map<nat, Fault>)
    requires Within(ids, |st.subs|)
    requires forall a | 0 <= a < |ids| ::
      st.subs[ids[a]].plan in st.plans && Blocking(st.invoices, ids[a], st.subs[ids[a]].periodStart).Some?
    ensures var broken := BrokenLookups(ids, faults);
      broken <= |ids| && SweepMany(cfg, st, ids, now, usage, faults) == (st, Tally(0, |ids| - broken, broken))
  {
    hide SweepOne;
    if ids != [] {
      CoveredSweepSkips(cfg, st, ids[..|ids| - 1], now, usage, faults);
      CoveredOneSkips(cfg, st, ids[|ids| - 1], now, usage, FaultOf(faults, ids[|ids| - 1]));
    }
  }

  lemma CoveredOneSkips(cfg: Config, st: State, id: nat, now: int, usage: Usage, fault: Fault)
    requires id < |st.subs| && st.subs[id].plan in st.plans
    requires Blocking(st.invoices, id, st.subs[id].periodStart).Some?
    ensures SweepOne(cfg, st, id, now, usage, fault) == (st, if fault.AtLookup? then Tally(0, 0, 1) else Tally(0, 1, 0))
  {
  }

  /**
    After an invoice sweep with no failures, a second one at the same instant
    changes nothing, whatever usage and faults it meets: it skips every
    subscription but those whose lookup breaks down.
   */
  lemma InvoiceSweepIsIdempotent(
    cfg: Config, st: State, now: int, usage: Usage, faults: map<nat, Fault>, usage': Usage, faults': map<nat, Fault>)
    requires SweepMany(cfg, st, EndedRows(st.subs, now), now, usage, faults).1.failed == 0
    ensures var once := SweepInvoicesStep(cfg, st, now, usage, faults).0;
      var ids := EndedRows(once.subs, now);
      var broken := BrokenLookups(ids, faults');
      broken <= |ids| && SweepMany(cfg, once, ids, now, usage', faults') == (once, Tally(0, |ids| - broken, broken))
  {
    hide SweepMany, Blocking, EndedRows, BrokenLookups;
    var ids := EndedRows(st.subs, now);
    FaultlessSweepCovers(cfg, st, ids, now, usage, faults);
    CoveredSweepSkips(cfg, SweepMany(cfg, st, ids, now, usage, faults).0, ids, now, usage', faults');
  }

  // ----------------------------------------------------- what the sweep issues

  /** The slot holds an invoice that has left draft. */
  predicate SlotIssued(invoices: seq<Invoice>, sub: nat, start: int)
  {
    var b := Blocking(invoices, sub, start);
    b.Some? && !invoices[b.value].status.Draft?
  }

  /** The sweep has something to do for the row: live, non-empty period, known plan, free slot. */
  predicate Billable(st: State, id: nat)
  {
    && id < |st.subs| && st.subs[id].Live() && PeriodOk(st.subs[id]) && st.subs[id].plan in st.plans
    && Blocking(st.invoices, id, st.subs[id].periodStart).None?
  }

  /** What the sweep appends for a billable row: issued, unless it breaks down before that. */
  function SweptInvoice(st: State, id: nat, now: int, usage: Usage, fault: Fault): Invoice
    requires Billable(st, id)
  {
    var s := st.subs[id];
    var inv := BuiltInvoice(s, id, st.plans[s.plan], s.periodStart, s.periodEnd, usage);
    if fault.BeforeIssue? then inv else inv.(status := Open, issuedAt := Some(now))
  }

  lemma SweepOneAppendsExactly(cfg: Config, st: State, id: nat, now: int, usage: Usage, fault: Fault)
    requires UniqueSlot(st.invoices) && id < |st.subs|
    ensures SweepOne(cfg, st, id, now, usage, fault).0.invoices
         == if Billable(st, id) && !fault.AtLookup? && !fault.BeforeInsert?
            then st.invoices + [SweptInvoice(st, id, now, usage, fault)] else st.invoices
  {
    hide UniqueSlot, Blocking, MeteredLines, Extracted, Subtotal, TaxTotal;
    if Billable(st, id) {
      var s, n := st.subs[id], |st.invoices|;
      var inv := BuiltInvoice(s, id, st.plans[s.plan], s.periodStart, s.periodEnd, usage);
      var all := st.invoices + [inv];
      var issued := inv.(status := Open, issuedAt := Some(now));
      AppendKeepsUniqueSlot(st.invoices, inv);
      assert all[n] == inv && inv.status.Draft?;
      UpdateKeepsUniqueSlot(all, n, issued);
      assert all[n := issued] == st.invoices + [issued];
    }
  }

  /** Which of the three counters the row moves. */
  lemma SweepOneCounts(cfg: Config, st: State, id: nat, now: int, usage: Usage, fault: Fault)
    requires UniqueSlot(st.invoices) && id < |st.subs|
    ensures var s := st.subs[id];
      var read := s.plan in st.plans && !fault.AtLookup?;
      var covered := Blocking(st.invoices, id, s.periodStart).Some?;
      SweepOne(cfg, st, id, now, usage, fault).1
      == if Billable(st, id) && fault.NoFault? then Tally(1, 0, 0)
         else if read && covered then Tally(0, 1, 0) else Tally(0, 0, 1)
  {
    hide UniqueSlot, Blocking, MeteredLines, Extracted, Subtotal, TaxTotal;
    if Billable(st, id) {
      var s, n := st.subs[id], |st.invoices|;
      var inv := BuiltInvoice(s, id, st.plans[s.plan], s.periodStart, s.periodEnd, usage);
      AppendKeepsUniqueSlot(st.invoices, inv);
      assert (st.invoices + [inv])[n] == inv;
      UpdateKeepsUniqueSlot(st.invoices + [inv], n, inv.(status := Open, issuedAt := Some(now)));
    }
  }

  lemma BlockingOfAppended(invoices: seq<Invoice>, inv: Invoice, sub: nat, start: int)
    ensures Blocking(invoices + [inv], sub, start)
         == if inv.Blocks(sub, start) then Some(|invoices|) else Blocking(invoices, sub, start)
  {
    var all := invoices + [inv];
    assert all[..|all| - 1] == invoices;
  }

  /** One row: its slot ends up issued exactly when it was, or when the row is billable and nothing breaks down. */
  lemma SweepOneIssuesExactly(cfg: Config, st: State, id: nat, now: int, usage: Usage, fault: Fault, sub: nat, p: int)
    requires UniqueSlot(st.invoices) && id < |st.subs|
    ensures var n := SweepOne(cfg, st, id, now, usage, fault).0.invoices;
      if sub == id && p == st.subs[id].periodStart
      then SlotIssued(n, sub, p) <==> SlotIssued(st.invoices, sub, p) || (Billable(st, id) && fault.NoFault?)
      else Blocking(n, sub, p) == Blocking(st.invoices, sub, p)
           && (SlotIssued(n, sub, p) <==> SlotIssued(st.invoices, sub, p))
  {
    hide SweepOne, Blocking, UniqueSlot, BuiltInvoice;
    SweepOneAppendsExactly(cfg, st, id, now, usage, fault);
    if Billable(st, id) {
      var inv := SweptInvoice(st, id, now, usage, fault);
      SweptInvoiceSlot(st, id, now, usage, fault);
      BlockingOfAppended(st.invoices, inv, sub, p);
    }
  }

  lemma SweptInvoiceSlot(st: State, id: nat, now: int, usage: Usage, fault: Fault)
    requires Billable(st, id)
    ensures var inv := SweptInvoice(st, id, now, usage, fault);
      && inv.sub == id && inv.periodStart == st.subs[id].periodStart && !inv.status.Void?
      && (inv.status.Draft? <==> fault.BeforeIssue?)
  {
  }

  lemma {:induction false} SweepManyIssuesExactly(
    cfg: Config, st: State, ids: seq<nat>, now: int, usage: Usage, faults: map<nat, Fault>, id: nat)
    requires UniqueSlot(st.invoices) && Within(ids, |st.subs|) && Ascending(ids) && id < |st.subs|
    ensures var n, p := SweepMany(cfg, st, ids, now, usage, faults).0.invoices, st.subs[id].periodStart;
      && (SlotIssued(n, id, p)
          <==> SlotIssued(st.invoices, id, p) || (id in ids && Billable(st, id) && FaultOf(faults, id).NoFault?))
      && (id !in ids ==> Blocking(n, id, p) == Blocking(st.invoices, id, p))
  {
    hide SweepOne, Blocking, UniqueSlot, SlotIssued, FaultOf;
    if ids != [] {
      var rest, i := ids[..|ids| - 1], ids[|ids| - 1];
      assert ids == rest + [i] && i !in rest;
      SweepManyIssuesExactly(cfg, st, rest, now, usage, faults, id);
      SweepManyNeedsNoIndex(cfg, st, rest, now, usage, faults);
      var mid := SweepMany(cfg, st, rest, now, usage, faults).0;
      SweepOneIssuesExactly(cfg, mid, i, now, usage, FaultOf(faults, i), id, st.subs[id].periodStart);
    }
  }

  /**
    The whole sweep: a row's slot ends up issued if and only if it already was,
    or the period has ended, the row is billable and nothing breaks down for it.
    In particular a draft in the slot is never issued.
   */
  lemma InvoiceSweepIssuesExactly(cfg: Config, st: State, now: int, usage: Usage, faults: map<nat, Fault>, id: nat)
    requires UniqueSlot(st.invoices) && id < |st.subs|
    ensures var n, p := SweepInvoicesStep(cfg, st, now, usage, faults).0.invoices, st.subs[id].periodStart;
      SlotIssued(n, id, p)
      <==> SlotIssued(st.invoices, id, p)
           || (st.subs[id].periodEnd <= now && Billable(st, id) && FaultOf(faults, id).NoFault?)
  {
    hide SweepMany, SlotIssued;
    var ids := EndedRows(st.subs, now);
    assert Ascending(ids);
    assert Billable(st, id) ==> (id in ids <==> st.subs[id].periodEnd <= now);
    SweepManyIssuesExactly(cfg, st, ids, now, usage, faults, id);
  }

  lemma SweepInsertSplit(cfg: Config, st: State, id: nat, now: int, usage: Usage)
    requires UniqueSlot(st.invoices) && Billable(st, id) && st.subs[id].periodEnd <= now
    ensures var a := Apply(cfg, st, BeginSweep(id, now, usage)).0;
      LandStep(cfg, a, |st.inflight|, now).0
      == st.(invoices := st.invoices + [SweptInvoice(st, id, now, usage, BeforeIssue)],
             inflight := st.inflight + [Closed])
  {
    hide UniqueSlot, Blocking, BuiltInvoice;
    var inv := SweptInvoice(st, id, now, usage, BeforeIssue);
    SweptInvoiceSlot(st, id, now, usage, BeforeIssue);
    AppendKeepsUniqueSlot(st.invoices, inv);
    var ps := st.inflight + [NewInvoice(inv)];
    assert ps[|st.inflight| := Closed] == st.inflight + [Closed];
  }

  /** With nothing in between, the sweep's check, insert and issue of one row are its whole work on the row. */
  lemma SweepSplit(cfg: Config, st: State, id: nat, now: int, usage: Usage)
    requires UniqueSlot(st.invoices) && Billable(st, id) && st.subs[id].periodEnd <= now
    ensures var a := Apply(cfg, st, BeginSweep(id, now, usage)).0;
      var b := LandStep(cfg, a, |st.inflight|, now).0;
      IssueStep(cfg, b, |st.invoices|, now).0
      == SweepOne(cfg, st, id, now, usage, NoFault).0.(inflight := st.inflight + [Closed])
  {
    hide UniqueSlot, Blocking, SweepOne, BuiltInvoice, Apply, LandStep;
    SweepOneAppendsExactly(cfg, st, id, now, usage, NoFault);
    SweepInsertSplit(cfg, st, id, now, usage);
    var n := |st.invoices|;
    var draft, issued := SweptInvoice(st, id, now, usage, BeforeIssue), SweptInvoice(st, id, now, usage, NoFault);
    SweptInvoiceSlot(st, id, now, usage, BeforeIssue);
    SweptInvoiceSlot(st, id, now, usage, NoFault);
    AppendKeepsUniqueSlot(st.invoices, draft);
    UpdateKeepsUniqueSlot(st.invoices + [draft], n, issued);
    assert (st.invoices + [draft])[n := issued] == st.invoices + [issued];
  }

  /** A breakdown between creating and issuing leaves a draft that every later sweep skips. */
  lemma StrandedDraftIsSkipped(
    cfg: Config, st: State, id: nat, now: int, usage: Usage, now': int, usage': Usage, fault': Fault)
    requires UniqueSlot(st.invoices) && Billable(st, id)
    ensures var mid := SweepOne(cfg, st, id, now, usage, BeforeIssue).0;
      && |mid.invoices| == |st.invoices| + 1 && mid.invoices[|st.invoices|].status.Draft?
      && Blocking(mid.invoices, id, st.subs[id].periodStart) == Some(|st.invoices|)
      && SweepOne(cfg, mid, id, now', usage', fault').0 == mid
  {
    hide UniqueSlot, Blocking, SweptInvoice;
    SweepOneAppendsExactly(cfg, st, id, now, usage, BeforeIssue);
    SweptInvoiceSlot(st, id, now, usage, BeforeIssue);
    var inv := SweptInvoice(st, id, now, usage, BeforeIssue);
    BlockingOfAppended(st.invoices, inv, id, st.subs[id].periodStart);
    var mid := SweepOne(cfg, st, id, now, usage, BeforeIssue).0;
    CoveredOneSkips(cfg, mid, id, now', usage', fault');
  }

  // ------------------------------------- the schedule inside the whole machine

  /** The part of a row the schedule lives in. */
  predicate SameSchedule(s: Subscription, t: Subscription)
  {
    && s.status == t.status && s.failures == t.failures
    && s.nextRetryAt == t.nextRetryAt && s.suspendedAt == t.suspendedAt
  }

  lemma TickRespectsSchedule(cfg: Settings, s: Subscription, t: Subscription, now: int)
    requires SameSchedule(s, t)
    ensures SameSchedule(Tick(cfg, s, now), Tick(cfg, t, now)) && (IsDue(s, now) <==> IsDue(t, now))
  {
  }

  /** The event is about row i: a sync of it to another status, or a failed payment for it. */
  predicate EventConcerns(st: State, p: Payload, now: int, i: nat)
    requires i < |st.subs|
  {
    match p
    case SubscriptionUpdated(obj) => SyncConcerns(st, obj, now, i)
    case SubscriptionDeleted(obj) => SyncConcerns(st, obj.(status := SCanceled), now, i)
    case PaymentFailed(id) => id.Some? && FindStripe(st.subs, id.value) == Some(i)
    case _ => false
  }

  predicate SyncConcerns(st: State, obj: StripeSub, now: int, i: nat)
    requires i < |st.subs|
  {
    var target := StatusFromStripe(obj, now);
    FindStripe(st.subs, obj.id) == Some(i) && target.Some? && target.value != st.subs[i].status
  }

  /**
    The steps that can touch the schedule of row i other than a sweep: a payment
    of one of its invoices, a Stripe event about it, its immediate cancellation,
    an admin status change. One that is refused does not count.
   */
  predicate Touches(st: State, step: Step, i: nat)
  {
    i < |st.subs| &&
    match step
    case Pay(id, _) =>
      id < |st.invoices| && st.invoices[id].sub == i && AllowedInvoice(st.invoices[id].status, Paid)
    case Cancel(tenant, immediate, _) => immediate && LiveFor(st.subs, tenant) == Some(i)
    case SetStatus(id, target, _) => id == i && target.Some? && Allowed(st.subs[i].status, target.value)
    case Deliver(_, _, now) => RunsHandler(st, step) && EventConcerns(st, PayloadOf(st, step), now, i)
    case Land(_, now) => RunsHandler(st, step) && EventConcerns(st, PayloadOf(st, step), now, i)
    case _ => false
  }

  /** Row i is still there with its schedule. */
  predicate Spares(before: State, after: State, i: nat)
  {
    i < |before.subs| && i < |after.subs| && SameSchedule(before.subs[i], after.subs[i])
  }

  lemma CommitSpares(cfg: Config, st: State, j: nat, row: Subscription, reply: Reply, err: Error, i: nat)
    requires i < |st.subs| && j < |st.subs| && (j == i ==> SameSchedule(st.subs[i], row))
    ensures Spares(st, CommitSubs(cfg, st, st.subs[j := row], reply, err).0, i)
  {
    hide SubsAdmitted;
  }

  lemma AppendSpares(cfg: Config, st: State, row: Subscription, reply: Reply, err: Error, i: nat)
    requires i < |st.subs|
    ensures Spares(st, CommitSubs(cfg, st, st.subs + [row], reply, err).0, i)
  {
    hide SubsAdmitted;
  }

  lemma PlanChangeSpares(cfg: Config, st: State, tenant: Option<int>, plan: int, now: int, i: nat)
    requires i < |st.subs|
    ensures Spares(st, ChangePlanStep(cfg, st, tenant, plan, now).0, i)
  {
    hide CommitSubs, DecidePlanChange;
    var r := LiveFor(st.subs, tenant);
    if r.Some? && PlanOffered(st.plans, plan) && st.subs[r.value].plan in st.plans {
      var s := st.subs[r.value];
      match DecidePlanChange(st.plans[s.plan], st.plans[plan], s, now)
      case CrossCurrency =>
      case Immediate(preview) =>
        CommitSpares(cfg, st, r.value, OnPlan(s, plan, st.plans[plan], now), Upgraded(preview), IntegrityFault, i);
      case AtPeriodEnd =>
        CommitSpares(cfg, st, r.value, s.(pendingPlan := Some(plan)), Scheduled, IntegrityFault, i);
    }
  }

  lemma RequestsSpare(cfg: Config, st: State, step: Step, i: nat)
    requires i < |st.subs| && !Touches(st, step, i) && (step.Subscribe? || step.Cancel? || step.Resume?)
    ensures Spares(st, Apply(cfg, st, step).0, i)
  {
    hide CommitSubs;
    match step
    case Subscribe(t, su, p, now) =>
      var r := PrepareSubscribe(st, t, su, p, now);
      if r.Ready? { AppendSpares(cfg, st, r.row, Created, IntegrityFault, i); }
    case Cancel(t, immediate, now) =>
      var r := LiveFor(st.subs, t);
      if r.Some? {
        if immediate {
          CommitSpares(cfg, st, r.value, CanceledRow(st.subs[r.value], now), Updated, IntegrityFault, i);
        } else {
          var row := st.subs[r.value].(cancelAtPeriodEnd := true);
          CommitSpares(cfg, st, r.value, row, Updated, IntegrityFault, i);
        }
      }
    case Resume(t) =>
      var r := LiveFor(st.subs, t);
      if r.Some? {
        CommitSpares(cfg, st, r.value, st.subs[r.value].(cancelAtPeriodEnd := false), Updated, IntegrityFault, i);
      }
  }

  lemma AdminSpares(cfg: Config, st: State, step: Step, i: nat)
    requires i < |st.subs| && !Touches(st, step, i) && (step.SetStatus? || step.OverridePlan?)
    ensures Spares(st, Apply(cfg, st, step).0, i)
  {
    hide CommitSubs;
    if step.id < |st.subs| {
      match step
      case SetStatus(id, target, now) =>
        if target.Some? && Allowed(st.subs[id].status, target.value) {
          CommitSpares(cfg, st, id, AdminRow(st.subs[id], target.value, now), Updated, IntegrityFault, i);
        }
      case OverridePlan(id, plan, now) =>
        if PlanOffered(st.plans, plan) {
          CommitSpares(cfg, st, id, OnPlan(st.subs[id], plan, st.plans[plan], now), Updated, IntegrityFault, i);
        }
    }
  }

  lemma PaymentSpares(cfg: Config, st: State, id: nat, now: int, i: nat)
    requires i < |st.subs| && !Touches(st, Pay(id, now), i)
    ensures Spares(st, PayStep(cfg, st, id, now).0, i)
  {
    hide SubsAdmitted, InvoicesAdmitted;
  }

  lemma HandlersSpare(cfg: Config, st: State, p: Payload, now: int, i: nat)
    requires i < |st.subs| && !EventConcerns(st, p, now, i)
    ensures Spares(st, Handle(cfg, st, p, now).0, i)
  {
    hide CommitSubs, HandleSync;
    match p
    case Checkout(c) =>
      match PlanCheckout(st, c, now) {
        case Answer(_) =>
        case Link(j) =>
          CommitSpares(cfg, st, j, st.subs[j].(stripeId := c.stripeSub), Linked, IntegrityFault, i);
        case Create(row) => AppendSpares(cfg, st, row, Created, IntegrityFault, i);
      }
    case SubscriptionUpdated(obj) => SyncSpares(cfg, st, obj, now, i);
    case SubscriptionDeleted(obj) => SyncSpares(cfg, st, obj.(status := SCanceled), now, i);
    case PaymentFailed(id) =>
      if id.Some? && FindStripe(st.subs, id.value).Some? {
        var j := FindStripe(st.subs, id.value).value;
        var row := WithFailure(cfg.dunning, st.subs[j], now);
        if row.Some? { CommitSpares(cfg, st, j, row.value, MarkedPastDue, IntegrityFault, i); }
      }
    case _ =>
  }

  lemma SyncSpares(cfg: Config, st: State, obj: StripeSub, now: int, i: nat)
    requires i < |st.subs| && !SyncConcerns(st, obj, now, i)
    ensures Spares(st, HandleSync(cfg, st, obj, now).0, i)
  {
    hide CommitSubs;
    match FindStripe(st.subs, obj.id)
    case None =>
    case Some(j) =>
      var target := StatusFromStripe(obj, now);
      if target.Some? && target.value != st.subs[j].status {
        CommitSpares(cfg, st, j, SyncedRow(st.subs[j], obj, target.value, now), Synced, Conflict, i);
      }
  }

  lemma StripeStepSpares(cfg: Config, st: State, step: Step, i: nat)
    requires i < |st.subs| && !Touches(st, step, i) && (step.Deliver? || step.Land?)
    ensures Spares(st, Apply(cfg, st, step).0, i)
  {
    hide Handle, EventConcerns, PlanCheckout;
    if RunsHandler(st, step) {
      var p := PayloadOf(st, step);
      HandlersSpare(cfg, st, p, step.now, i);
      if step.Deliver? {
        var seen := st.(ledger := st.ledger[step.ev.id := false], handled := st.handled + [step.ev.id]);
        HandleIgnoresTheRest(cfg, seen, st, p, step.now);
      } else {
        var ev := st.inflight[step.k].ev;
        var entered := st.(inflight := st.inflight[step.k := Closed], handled := st.handled + [ev.id]);
        HandleIgnoresTheRest(cfg, entered, st, p, step.now);
      }
    } else if step.Land? && step.k < |st.inflight| && st.inflight[step.k].NewSub? {
      hide SubsAdmitted;
    }
  }

  /** Every step but a sweep and those of `Touches` leaves the schedule of row i alone. */
  lemma OtherStepsSpare(cfg: Config, st: State, step: Step, i: nat)
    requires i < |st.subs| && !Touches(st, step, i) && !step.SweepDunning?
    ensures Spares(st, Apply(cfg, st, step).0, i)
  {
    hide SubscribeStep, ChangePlanStep, CancelStep, ResumeStep, DeliverStep, PayStep, SetStatusStep, OverridePlanStep,
         LandStep, InvoicesAdmitted, PrepareSubscribe, PrepareGenerate, PrepareSweep, Touches;
    match step
    case ChangePlan(t, p, now) => PlanChangeSpares(cfg, st, t, p, now, i);
    case Subscribe(_, _, _, _) => RequestsSpare(cfg, st, step, i);
    case Cancel(_, _, _) => RequestsSpare(cfg, st, step, i);
    case Resume(_) => RequestsSpare(cfg, st, step, i);
    case SetStatus(_, _, _) => AdminSpares(cfg, st, step, i);
    case OverridePlan(_, _, _) => AdminSpares(cfg, st, step, i);
    case Pay(id, now) => PaymentSpares(cfg, st, id, now, i);
    case Deliver(_, _, _) => StripeStepSpares(cfg, st, step, i);
    case Land(_, _) => StripeStepSpares(cfg, st, step, i);
    case _ =>
  }

  /** The sweep gets to row i: its limit, if any, does not cut the row off. */
  predicate Reaches(st: State, step: Step, i: nat)
  {
    && step.SweepDunning? && i < |st.subs|
    && (IsDue(st.subs[i], step.now) ==> i in Limited(DueRows(st.subs, step.now), step.limit))
  }

  lemma SweepTicksRow(cfg: Config, st: State, step: Step, i: nat)
    requires SubsAdmitted(cfg, st.subs) && i < |st.subs| && step.SweepDunning?
    ensures var n := Apply(cfg, st, step).0;
      |n.subs| == |st.subs|
      && n.subs[i] == if Reaches(st, step, i) then Tick(cfg.dunning, st.subs[i], step.now) else st.subs[i]
  {
    hide SubsAdmitted, DueRows, TickAll;
    var ids := Limited(DueRows(st.subs, step.now), step.limit);
    assert Ascending(ids);
    SweepCommits(cfg, st.subs, ids, step.now);
    TickAllPointwise(cfg.dunning, st.subs, ids, step.now, i);
  }

  /** The instants of the run's sweeps that get to row i. */
  function SweepTimes(cfg: Config, st: State, steps: seq<Step>, i: nat): seq<int>
  {
    if steps == [] then []
    else
      var front, last := steps[..|steps| - 1], steps[|steps| - 1];
      SweepTimes(cfg, st, front, i) + if Reaches(Run(cfg, st, front), last, i) then [last.now] else []
  }

  /** How many of them find it due. */
  function DueSweeps(cfg: Config, st: State, steps: seq<Step>, i: nat): nat
  {
    if steps == [] then 0
    else
      var front, last := steps[..|steps| - 1], steps[|steps| - 1];
      var mid := Run(cfg, st, front);
      DueSweeps(cfg, st, front, i) + if Reaches(mid, last, i) && IsDue(mid.subs[i], last.now) then 1 else 0
  }

  /** No payment, failure, sync to another status, immediate cancellation or admin status change of row i. */
  ghost predicate Unpaid(cfg: Config, st: State, steps: seq<Step>, i: nat)
  {
    forall k | 0 <= k < |steps| :: !Touches(Run(cfg, st, steps[..k]), steps[k], i)
  }

  lemma UnpaidFront(cfg: Config, st: State, steps: seq<Step>, i: nat)
    requires steps != [] && Unpaid(cfg, st, steps, i)
    ensures Unpaid(cfg, st, steps[..|steps| - 1], i)
    ensures !Touches(Run(cfg, st, steps[..|steps| - 1]), steps[|steps| - 1], i)
  {
    var front := steps[..|steps| - 1];
    forall j | 0 <= j < |front| ensures !Touches(Run(cfg, st, front[..j]), front[j], i) {
      assert front[..j] == steps[..j];
    }
  }

  lemma {:induction false} AfterSweepsSnoc(cfg: Settings, s: Subscription, sweeps: seq<int>, t: int)
    ensures AfterSweeps(cfg, s, sweeps + [t]) == Tick(cfg, AfterSweeps(cfg, s, sweeps), t)
    ensures DueTicks(cfg, s, sweeps + [t])
         == DueTicks(cfg, s, sweeps) + if IsDue(AfterSweeps(cfg, s, sweeps), t) then 1 else 0
    decreases |sweeps|
  {
    hide Tick, IsDue;
    if sweeps == [] {
      assert (sweeps + [t])[1..] == [];
    } else {
      assert (sweeps + [t])[1..] == sweeps[1..] + [t];
      AfterSweepsSnoc(cfg, Tick(cfg, s, sweeps[0]), sweeps[1..], t);
    }
  }

  /** In an unpaid run the schedule of row i is that of the sweeps alone. */
  lemma {:induction false} RunIsRowwise(cfg: Config, st: State, steps: seq<Step>, i: nat)
    requires SubsAdmitted(cfg, st.subs) && i < |st.subs| && Unpaid(cfg, st, steps, i)
    ensures i < |Run(cfg, st, steps).subs|
    ensures var times := SweepTimes(cfg, st, steps, i);
      && SameSchedule(Run(cfg, st, steps).subs[i], AfterSweeps(cfg.dunning, st.subs[i], times))
      && DueSweeps(cfg, st, steps, i) == DueTicks(cfg.dunning, st.subs[i], times)
    decreases |steps|
  {
    hide Apply, SubsAdmitted, Touches, Tick, IsDue, Unpaid, Reaches;
    if steps != [] {
      var front, last := steps[..|steps| - 1], steps[|steps| - 1];
      var mid := Run(cfg, st, front);
      UnpaidFront(cfg, st, steps, i);
      RunIsRowwise(cfg, st, front, i);
      RunCommitsAdmitted(cfg, st, front);
      var times := SweepTimes(cfg, st, front, i);
      if last.SweepDunning? {
        SweepTicksRow(cfg, mid, last, i);
        AfterSweepsSnoc(cfg.dunning, st.subs[i], times, last.now);
        TickRespectsSchedule(cfg.dunning, mid.subs[i], AfterSweeps(cfg.dunning, st.subs[i], times), last.now);
      } else {
        OtherStepsSpare(cfg, mid, last, i);
        OnlySweepsReach(mid, last, i);
      }
      assert times + [] == times;
    }
  }

  lemma OnlySweepsReach(st: State, step: Step, i: nat)
    requires !step.SweepDunning?
    ensures !Reaches(st, step, i)
  {
  }

  /**
    Dunning terminates in the whole machine: in any run with no payment, failure,
    sync, immediate cancellation or admin status change of row i, whatever else
    happens to it and to other rows, sweeps that get to it at least every `period`
    seconds suspend it within the budget, after exactly max - c + 1 due ticks.
   */
  lemma UnpaidRowIsSuspended(cfg: Config, st: State, steps: seq<Step>, i: nat, from: int, period: int)
    requires SubsAdmitted(cfg, st.subs) && i < |st.subs| && Unpaid(cfg, st, steps, i)
    requires st.subs[i].status.PastDue?
    requires st.subs[i].nextRetryAt == Some(from + Delay(cfg.dunning, st.subs[i].failures))
    requires period > 0 && SweptEvery(period, from, SweepTimes(cfg, st, steps, i))
    requires LastSweep(from, SweepTimes(cfg, st, steps, i)) >= from + Budget(cfg.dunning, st.subs[i].failures, period)
    ensures i < |Run(cfg, st, steps).subs|
    ensures var end := Run(cfg, st, steps).subs[i];
      && end.status.Suspended?
      && end.suspendedAt.Some?
      && end.suspendedAt.value <= from + Budget(cfg.dunning, st.subs[i].failures, period)
    ensures DueSweeps(cfg, st, steps, i) == Max(1, cfg.dunning.maxAttempts - st.subs[i].failures + 1)
  {
    hide SubsAdmitted, Unpaid, Run, AfterSweeps, DueTicks, SweptEvery, Budget, Delay, SweepTimes, DueSweeps;
    RunIsRowwise(cfg, st, steps, i);
    DunningTerminates(cfg.dunning, st.subs[i], from, period, SweepTimes(cfg, st, steps, i));
  }
}
