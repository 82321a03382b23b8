/**
  Invoice documents (app/billing/services/invoicing.py, app/billing/models/invoice.py):
  line arithmetic, metered overage, totals and the invoice state machine.
 */
module Invoicing {
  import opened Common
  import opened Rounding
  import opened Lifecycle

  datatype InvoiceStatus = Draft | Open | Paid | Void

  /** The edges of the invoice state machine. */
  predicate AllowedInvoice(current: InvoiceStatus, target: InvoiceStatus)
  {
    match current
    case Draft => target.Open? || target.Void?
    case Open => target.Paid? || target.Void?
    case Paid => false
    case Void => false
  }

  /** Paid and void are final, void is reached from draft or open, paid from open, open from draft. */
  lemma InvoiceEdges(s: InvoiceStatus)
    ensures (forall t :: !AllowedInvoice(s, t)) <==> s.Paid? || s.Void?
    ensures !AllowedInvoice(s, Draft)
    ensures AllowedInvoice(s, Open) <==> s.Draft?
    ensures AllowedInvoice(s, Paid) <==> s.Open?
    ensures AllowedInvoice(s, Void) <==> s.Draft? || s.Open?
  {
    assert s.Draft? || s.Open? ==> AllowedInvoice(s, Void);
  }

  const BPS: int := 10_000

  datatype Line = Line(quantity: int, unit: int, taxBps: int, amount: int) {
    function Computed(): int { quantity * unit }

    function Tax(): int { RoundHalfEven(Computed() * taxBps, BPS) }
  }

  datatype Invoice = Invoice(
    tenant: Option<int>,
    sub: nat,
    status: InvoiceStatus,
    currency: string,
    subtotal: int,
    tax: int,
    total: int,
    periodStart: int,
    periodEnd: int,
    issuedAt: Option<int>,
    paidAt: Option<int>,
    lines: seq<Line>)
  {
    /** Occupies the (subscription, period start) slot, as the partial index sees it. */
    predicate Blocks(s: nat, start: int) { !status.Void? && sub == s && periodStart == start }
  }

  function Subtotal(lines: seq<Line>): int
  {
    if lines == [] then 0 else Subtotal(lines[..|lines| - 1]) + lines[|lines| - 1].Computed()
  }

  function TaxTotal(lines: seq<Line>): int
  {
    if lines == [] then 0 else TaxTotal(lines[..|lines| - 1]) + lines[|lines| - 1].Tax()
  }

  function WithTotals(inv: Invoice): Invoice
  {
    inv.(subtotal := Subtotal(inv.lines), tax := TaxTotal(inv.lines),
         total := Subtotal(inv.lines) + TaxTotal(inv.lines))
  }

  /** The tax due before rounding, in ten-thousandths of a cent. */
  ghost function ExactTax(lines: seq<Line>): int
  {
    if lines == [] then 0
    else ExactTax(lines[..|lines| - 1]) + lines[|lines| - 1].Computed() * lines[|lines| - 1].taxBps
  }

  /** Rounding every line by itself costs at most half a cent per line. */
  lemma {:induction false} TaxWithinHalfACentPerLine(lines: seq<Line>)
    ensures -|lines| * 10_000 <= 2 * (TaxTotal(lines) * 10_000 - ExactTax(lines)) <= |lines| * 10_000
  {
    if lines != [] {
      var l := lines[|lines| - 1];
      TaxWithinHalfACentPerLine(lines[..|lines| - 1]);
      RoundIsTheNearest(l.Computed() * l.taxBps, BPS, l.Tax());
    }
  }

  // ---------------------------------------------------------------- metering

  datatype DimensionConfig = DimensionConfig(unit: int, included: int)

  /** Counter readings; a missing counter reads as zero. */
  type Usage = map<(int, string, int), int>

  function UsageOf(usage: Usage, tenant: int, dimension: string, start: int): int
  {
    if (tenant, dimension, start) in usage then usage[(tenant, dimension, start)] else 0
  }

  function NumberOrZero(raw: RawNumber): Option<int>
  {
    match raw
    case Absent => Some(0)
    case Number(n) => Some(n)
    case Malformed => None
  }

  function Normalized(raw: RawConfig): Option<DimensionConfig>
  {
    match raw
    case NotADict => None
    case Dict(unit, included) =>
      var u, i := NumberOrZero(unit), NumberOrZero(included);
      if u.Some? && i.Some? then Some(DimensionConfig(u.value, i.value)) else None
  }

  /** The dimensions whose configuration is well formed, in document order. */
  function Extracted(raw: seq<(string, RawConfig)>): seq<(string, DimensionConfig)>
  {
    if raw == [] then []
    else
      var (name, cfg) := raw[|raw| - 1];
      var before := Extracted(raw[..|raw| - 1]);
      match Normalized(cfg)
      case None => before
      case Some(c) => before + [(name, c)]
  }

  function Overage(used: int, cfg: DimensionConfig): int
  {
    Max(0, used - cfg.included) * cfg.unit
  }

  /** One line per dimension with a positive overage. */
  function MeteredLines(dims: seq<(string, DimensionConfig)>, tenant: int, start: int, usage: Usage): seq<Line>
  {
    if dims == [] then []
    else
      var (name, cfg) := dims[|dims| - 1];
      var before := MeteredLines(dims[..|dims| - 1], tenant, start, usage);
      var used := UsageOf(usage, tenant, name, start);
      if Overage(used, cfg) <= 0 then before
      else before + [Line(used - cfg.included, cfg.unit, 0, Overage(used, cfg))]
  }

  /** What the tenant owes for usage: the positive overages, summed. */
  ghost function OverageOwed(dims: seq<(string, DimensionConfig)>, tenant: int, start: int, usage: Usage): int
  {
    if dims == [] then 0
    else
      var (name, cfg) := dims[|dims| - 1];
      OverageOwed(dims[..|dims| - 1], tenant, start, usage)
      + Max(0, Max(0, UsageOf(usage, tenant, name, start) - cfg.included) * cfg.unit)
  }

  /** The raw number reads as n: an absent one as zero. */
  predicate ReadsAs(raw: RawNumber, n: int) { raw == Number(n) || (raw.Absent? && n == 0) }

  /** The raw entry is a document that prices a unit and includes a quantity. */
  predicate Prices(raw: RawConfig, unit: int, included: int)
  {
    raw.Dict? && ReadsAs(raw.unit, unit) && ReadsAs(raw.included, included)
  }

  /** Exactly the readable entries are kept, with their own unit price and allowance. */
  lemma {:induction false} ExtractedAreTheReadable(
    raw: seq<(string, RawConfig)>, name: string, unit: int, included: int)
    ensures (name, DimensionConfig(unit, included)) in Extracted(raw)
      <==> exists k :: 0 <= k < |raw| && raw[k].0 == name && Prices(raw[k].1, unit, included)
    decreases |raw|
  {
    if raw != [] {
      var front, last := raw[..|raw| - 1], raw[|raw| - 1];
      ExtractedAreTheReadable(front, name, unit, included);
      if k :| 0 <= k < |raw| && raw[k].0 == name && Prices(raw[k].1, unit, included) {
        if k < |front| { assert front[k].0 == name && Prices(front[k].1, unit, included); }
      }
      if k :| 0 <= k < |front| && front[k].0 == name && Prices(front[k].1, unit, included) {
        assert raw[k].0 == name && Prices(raw[k].1, unit, included);
      }
      if last.0 == name && Prices(last.1, unit, included) {
        assert raw[|front|].0 == name && Prices(raw[|front|].1, unit, included);
      }
    }
  }

  /** What one raw entry owes for `used` units; an unreadable one owes nothing. */
  ghost function EntryOwed(raw: RawConfig, used: int): int
  {
    match raw
    case NotADict => 0
    case Dict(unit, included) =>
      if unit.Malformed? || included.Malformed? then 0
      else
        var price := if unit.Number? then unit.n else 0;
        var free := if included.Number? then included.n else 0;
        if used > free && price > 0 then (used - free) * price else 0
  }

  /** What the plan's raw metering document owes: its entries, summed. */
  ghost function MeteringOwed(raw: seq<(string, RawConfig)>, tenant: int, start: int, usage: Usage): int
  {
    if raw == [] then 0
    else
      var (name, cfg) := raw[|raw| - 1];
      MeteringOwed(raw[..|raw| - 1], tenant, start, usage) + EntryOwed(cfg, UsageOf(usage, tenant, name, start))
  }

  lemma OverageIsEntryOwed(used: int, cfg: DimensionConfig)
    ensures Max(0, Max(0, used - cfg.included) * cfg.unit)
         == if used > cfg.included && cfg.unit > 0 then (used - cfg.included) * cfg.unit else 0
  {
    if cfg.unit <= 0 { MulMonotone(cfg.unit, 0, Max(0, used - cfg.included)); }
    if cfg.unit > 0 { MulMonotone(0, Max(0, used - cfg.included), cfg.unit); }
  }

  /** Normalising the document changes nothing of what it owes. */
  lemma {:induction false} ExtractionKeepsWhatIsOwed(
    raw: seq<(string, RawConfig)>, tenant: int, start: int, usage: Usage)
    ensures OverageOwed(Extracted(raw), tenant, start, usage) == MeteringOwed(raw, tenant, start, usage)
    decreases |raw|
  {
    if raw != [] {
      var (name, cfg) := raw[|raw| - 1];
      var before := Extracted(raw[..|raw| - 1]);
      ExtractionKeepsWhatIsOwed(raw[..|raw| - 1], tenant, start, usage);
      match Normalized(cfg)
      case None =>
      case Some(c) =>
        assert (before + [(name, c)])[..|before|] == before;
        OverageIsEntryOwed(UsageOf(usage, tenant, name, start), c);
    }
  }

  /** The draft built for one period: the plan's price line, the metered lines, the totals. */
  function BuiltInvoice(s: Subscription, id: nat, plan: Plan, start: int, end: int, usage: Usage): Invoice
  {
    var base := [Line(1, plan.price, 0, plan.price)];
    var lines := if s.tenant.None? then base
                 else base + MeteredLines(Extracted(plan.metering), s.tenant.value, start, usage);
    WithTotals(Invoice(s.tenant, id, Draft, plan.currency, 0, 0, 0, start, end, None, None, lines))
  }

  predicate LinesAddUp(lines: seq<Line>)
  {
    forall l <- lines :: l.amount == l.Computed()
  }

  lemma {:induction false} TotalsSplit(a: seq<Line>, b: seq<Line>)
    ensures Subtotal(a + b) == Subtotal(a) + Subtotal(b)
    ensures TaxTotal(a + b) == TaxTotal(a) + TaxTotal(b)
  {
    if b == [] {
      assert a + b == a;
    } else {
      TotalsSplit(a, b[..|b| - 1]);
      assert (a + b)[..|a + b| - 1] == a + b[..|b| - 1];
    }
  }

  lemma {:induction false} MeteredLinesBillTheOverage(
    dims: seq<(string, DimensionConfig)>, tenant: int, start: int, usage: Usage)
    ensures var ls := MeteredLines(dims, tenant, start, usage);
      && Subtotal(ls) == OverageOwed(dims, tenant, start, usage)
      && TaxTotal(ls) == 0
      && LinesAddUp(ls)
      && (forall l <- ls :: l.quantity > 0 && l.unit > 0)
  {
    if dims != [] {
      var (name, cfg) := dims[|dims| - 1];
      var before := MeteredLines(dims[..|dims| - 1], tenant, start, usage);
      MeteredLinesBillTheOverage(dims[..|dims| - 1], tenant, start, usage);
      var used := UsageOf(usage, tenant, name, start);
      if Overage(used, cfg) > 0 {
        PositiveOverage(used, cfg);
        var l := Line(used - cfg.included, cfg.unit, 0, Overage(used, cfg));
        TotalsSplit(before, [l]);
        assert Subtotal([l]) == Subtotal([l][..0]) + l.Computed();
        assert TaxTotal([l]) == TaxTotal([l][..0]) + l.Tax();
        RoundExact(0, BPS);
      }
    }
  }

  lemma PositiveOverage(used: int, cfg: DimensionConfig)
    requires Overage(used, cfg) > 0
    ensures used > cfg.included && cfg.unit > 0 && Overage(used, cfg) == (used - cfg.included) * cfg.unit
  {
    if cfg.unit <= 0 { MulMonotone(cfg.unit, 0, Max(0, used - cfg.included)); }
  }

  /**
    Every generated invoice: total = subtotal + tax, amounts multiply out, and
    the subtotal is the plan price plus what the plan's own metering document
    owes. Owner, currency and period are as asked, and the first line is the price.
   */
  lemma GeneratedFigures(s: Subscription, id: nat, plan: Plan, start: int, end: int, usage: Usage)
    ensures var inv := BuiltInvoice(s, id, plan, start, end, usage);
      && inv.total == inv.subtotal + inv.tax
      && inv.tax == 0
      && LinesAddUp(inv.lines)
      && inv.subtotal == plan.price
           + (if s.tenant.None? then 0 else MeteringOwed(plan.metering, s.tenant.value, start, usage))
      && inv.lines != [] && inv.lines[0] == Line(1, plan.price, 0, plan.price)
      && inv.tenant == s.tenant && inv.sub == id && inv.currency == plan.currency
      && inv.periodStart == start && inv.periodEnd == end
      && inv.status.Draft? && inv.issuedAt.None? && inv.paidAt.None?
  {
    var base := [Line(1, plan.price, 0, plan.price)];
    assert Subtotal(base) == Subtotal(base[..0]) + plan.price;
    assert TaxTotal(base) == TaxTotal(base[..0]) + base[0].Tax();
    RoundExact(0, BPS);
    if s.tenant.Some? {
      var dims := Extracted(plan.metering);
      var metered := MeteredLines(dims, s.tenant.value, start, usage);
      MeteredLinesBillTheOverage(dims, s.tenant.value, start, usage);
      TotalsSplit(base, metered);
      ExtractionKeepsWhatIsOwed(plan.metering, s.tenant.value, start, usage);
    }
  }

  method ExtractMetering(raw: seq<(string, RawConfig)>) returns (out: seq<(string, DimensionConfig)>)
    ensures out == Extracted(raw)
  {
    out := [];
    for k := 0 to |raw|
      invariant out == Extracted(raw[..k])
    {
      assert raw[..k + 1][..k] == raw[..k];
      var (name, cfg) := raw[k];
      match Normalized(cfg) {
        case None =>
        case Some(c) => out := out + [(name, c)];
      }
    }
    assert raw[..|raw|] == raw;
  }

  /** A loaded invoice row; the lifecycle service assigns its fields in place. */
  class InvoiceRow {
    var tenant: Option<int>
    var sub: nat
    var status: InvoiceStatus
    var currency: string
    var subtotal: int
    var tax: int
    var total: int
    var periodStart: int
    var periodEnd: int
    var issuedAt: Option<int>
    var paidAt: Option<int>
    var lines: seq<Line>

    function Value(): Invoice
      reads this
    {
      Invoice(tenant, sub, status, currency, subtotal, tax, total, periodStart, periodEnd, issuedAt, paidAt, lines)
    }

    constructor (inv: Invoice)
      ensures Value() == inv
    {
      tenant, sub, status, currency := inv.tenant, inv.sub, inv.status, inv.currency;
      subtotal, tax, total := inv.subtotal, inv.tax, inv.total;
      periodStart, periodEnd := inv.periodStart, inv.periodEnd;
      issuedAt, paidAt, lines := inv.issuedAt, inv.paidAt, inv.lines;
    }

    /** Appends one line per dimension in overage; a subscription without a tenant has no counters. */
    method AppendMeteredLines(plan: Plan, owner: Option<int>, start: int, usage: Usage)
      modifies this
      ensures Value() == old(Value()).(lines :=
        old(lines) + if owner.None? then [] else MeteredLines(Extracted(plan.metering), owner.value, start, usage))
    {
      if owner.None? {
        assert lines == lines + [];
        return;
      }
      var dims := ExtractMetering(plan.metering);
      for k := 0 to |dims|
        invariant Value() == old(Value()).(lines := old(lines) + MeteredLines(dims[..k], owner.value, start, usage))
      {
        assert dims[..k + 1][..k] == dims[..k];
        var (name, cfg) := dims[k];
        var used := UsageOf(usage, owner.value, name, start);
        var cents := Overage(used, cfg);
        if cents <= 0 { continue; }
        lines := lines + [Line(used - cfg.included, cfg.unit, 0, cents)];
      }
      assert dims[..|dims|] == dims;
    }

    method ApplyTotals()
      modifies this
      ensures Value() == WithTotals(old(Value()))
    {
      subtotal, tax := Subtotal(lines), TaxTotal(lines);
      total := subtotal + tax;
    }
  }
}
