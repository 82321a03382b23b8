# Billing and its neighbours, in Dafny

This project models the billing context of a multi-tenant FastAPI service as one
state machine, together with seven smaller mechanisms around it, and proves what
holds over every run.

**Billing.** The state is the plan table, the subscription table, the invoice
table with its lines, the Stripe event ledger and the requests that are between
their check and their commit. The steps are subscribe, change plan, cancel,
resume, the four Stripe events, both sweeps, invoice generation, issue, pay,
void, the two admin actions and plan repricing. `Billing.dfy` defines each step
as a function on the state; `BillingStore.dfy` has the same operations as
imperative code on rows and tables, each proved equal to its step function.
The theorems are in `BillingRuns` (status edges, dunning fields and periods, row
by row), `BillingBooks` (invoice figures, stamps and slots), `BillingTenants`
(one live subscription per tenant, with and without the unique indexes),
`BillingLedger` (replay, crash and interleaved deliveries) and `BillingSweeps`
(counts, idempotence, termination of dunning inside the whole machine).
`BillingEffects` says outright, field by field, what each operation does to the
tables and when it is refused, and that a request split in two is the request.

**Around it.** `RateLimiter` (sliding window), `Lockout` (login lockout),
`Usage` (expiring counters and the quota), `Entitlements` (the 60-second
cache), `Webhooks` (outgoing deliveries with retries), `Sockets` (the WebSocket
registry), `TenantFilter` (the SQL rewrite), `CursorCodec` and `Inbox` (keyset
pages and their opaque cursors).

## How the model reads the code

- A commit is one atomic step. The partial unique indexes are guards on the
  committed table; `Config` says which of them the database has, so that runs
  with and without an index can be compared.
- `Begin…` and `Land` steps split a request between its check and its commit,
  so check and insert of two requests may interleave. `Crash` says where a
  Stripe delivery dies; `Fault` and `broken` say where a sweep's work on one row
  raises.
- Exceptions are `Outcome`/`Option` values. Redis pipelines are atomic; Redis
  being down is a parameter. HTTP outcomes, clock readings and password
  verdicts are parameters, one clock reading per step.
- Time is an integer number of seconds (microseconds in `Usage`, where the code
  truncates). Where the code rounds a float, the model rounds the exact rational
  half to even, as Python's `round` does.
- Tables are sequences and a row's id is its position: nothing deletes
  subscriptions or invoices. The invoice sweep visits rows in id order; its query
  has no ORDER BY.

## Where the code does less than one would expect

- A Stripe sync whose target is `trialing` skips the transition check
  (app/billing/services/stripe_events.py:176-187), so `canceled` and `suspended`
  are not final. `BillingRuns.CanceledRowIsRevived` is a reachable run;
  `BillingRuns.EdgesExactlyUnlessRevived` says that this write is the only
  exception, for every step. What is said of a row over a run assumes only that
  this row is not revived; invoices, periods, indexes and the dunning time bound
  need no such assumption.
- Undisturbed requests meet the live-subscription index only when a dead row is
  synced to trialing beside a live one: `BillingTenants.ReachableClash`;
  `BillingTenants.SerialStepNeedsNoIndexExactly` is an if-and-only-if.
- The live-subscription index leaves null tenants out.
  `BillingTenants.NullTenantRace` shows two interleaved subscribes that both
  land; `BillingTenants.OneLiveExactlyUnlessDoubled` is an if-and-only-if over
  every step of every interleaving.
- An invalidation that falls while an entitlement query is in flight is lost:
  `Entitlements.InterruptedQueryOutlivesInvalidation`;
  `Entitlements.CachedAnswersAreRecent` says exactly when.
- The 60 seconds of a cached entitlement start after its query has returned
  (app/billing/api/deps.py:88-92), so an answer can be older than 60 seconds by
  the query's latency: `Entitlements.SlowQueryOutlivesTtl`;
  `Entitlements.AgeOfServedAnswers` says exactly when.
- The tenant rewrite stops at the first table that shows a tenant column, and
  the column keys of an explicit JOIN carry the table name, so no table of a JOIN
  shows one: `TenantFilter.HiddenSourceLeaks`,
  `TenantFilter.ExplicitJoinIsUnfiltered`;
  `TenantFilter.RewriteIsolatesExactlyOneShown` is an if-and-only-if.
- An invoice sweep that fails between creating and issuing leaves a draft that
  later sweeps skip: `BillingSweeps.StrandedDraftIsSkipped`;
  `BillingSweeps.InvoiceSweepIssuesExactly` says exactly which slots a sweep
  issues.
- A dunning sweep with a limit is not idempotent:
  `BillingSweeps.DunningSweepIsIdempotent` is an if-and-only-if.

## Model

| member | source | states |
|---|---|---|
| `Rounding.RoundIsTheNearest` | app/billing/services/billing.py:98-107 | the rounding used for money is the one nearest integer, even on a tie |
| `Rounding.RoundMonotone` | app/billing/services/billing.py:98-107 | rounding preserves order |
| `Lifecycle.EdgesOfTheMachine` | app/billing/services/billing.py:27-53 | dead states are final, nothing leads into a trial, every live row can be canceled, only a trial or active row becomes past due, only a past due row is suspended |
| `Lifecycle.FractionRemaining` | app/billing/services/billing.py:70-76 | the remaining share lies in [0, 1], for empty periods too |
| `Lifecycle.FractionNeverGrows` | app/billing/services/billing.py:70-76 | the remaining share never grows with time |
| `Lifecycle.FractionIsTheShareLeft` | app/billing/services/billing.py:70-76 | the share is exactly the time left over the length of the period, with now clamped to it |
| `Lifecycle.PeriodLengths` | app/billing/services/billing.py:60-67 | a month is thirty days, a year 365 |
| `Lifecycle.ProrationNeverGrows` | app/billing/services/billing.py:98-107 | credits and charges lie between 0 and the price and never grow with time |
| `Lifecycle.RoundedDifference` | app/billing/services/billing.py:98-136 | two separately rounded amounts never drift apart by more than the price difference |
| `Lifecycle.PlanChangeIsProrated` | app/billing/services/billing.py:98-136 | an upgrade in the same currency costs the nearest cent of price times time left over period length, as credit for the old and charge for the new plan; any other change is refused or scheduled |
| `Lifecycle.UpgradeNetIsBounded` | app/billing/services/billing.py:110-136 | every upgrade at every instant nets between 0 and the price difference; the full difference at the period's start, nothing at its end |
| `Dunning.DelayIsMonotoneAndBounded` | app/billing/services/dunning.py:43-47 | the backoff is monotone, at least a minute, at most seven days |
| `Dunning.DelayDoubles` | app/billing/services/dunning.py:43-47 | the backoff starts at the base and doubles with every position, up to seven days |
| `Dunning.TickSettles` | app/billing/services/dunning.py:197-207 | no row is due twice at one instant |
| `Dunning.SubscriptionRow.ResetDunning` | app/billing/services/dunning.py:55-63 | clears exactly the three dunning fields; reports whether a schedule was running |
| `Dunning.SubscriptionRow.RecordPaymentFailure` | app/billing/services/dunning.py:105-135 | succeeds exactly on past_due or on an edge to it; new row is the scheduled one, else unchanged |
| `Dunning.SubscriptionRow.Suspend` | app/billing/services/dunning.py:138-150 | terminal suspension along its edge, idempotent |
| `Dunning.SubscriptionRow.Recover` | app/billing/services/dunning.py:153-164 | past_due goes back to active with all dunning state cleared |
| `Dunning.DunningTerminates` | app/billing/services/dunning.py:167-211 | with sweeps at least every P and no payment or failure: suspended after exactly max - c + 1 due ticks and within the sum of delay(k) + P |
| `Invoicing.InvoiceEdges` | app/billing/services/invoicing.py:26-45 | paid and void are final; open comes from draft, paid from open, void from draft or open |
| `Invoicing.TaxWithinHalfACentPerLine` | app/billing/models/invoice.py:133-140 | for any n lines the total tax is within n/2 cents of the exact tax |
| `Invoicing.ExtractMetering` | app/billing/services/usage.py:76-90 | the loop keeps exactly the well-formed dimensions, in order |
| `Invoicing.ExtractedAreTheReadable` | app/billing/services/usage.py:76-90 | a dimension is kept with a unit price and an allowance if and only if the raw document gives it exactly those, an absent number being zero |
| `Invoicing.MeteredLinesBillTheOverage` | app/billing/services/invoicing.py:67-98 | metered lines add up to the positive overages owed; each has positive quantity and unit, amount = quantity × unit, no tax |
| `Invoicing.ExtractionKeepsWhatIsOwed` | app/billing/services/usage.py:70-90 | the overage billed is what the raw document owes, entry by entry; unreadable entries owe nothing |
| `Invoicing.GeneratedFigures` | app/billing/services/invoicing.py:133-150 | total = subtotal + tax; subtotal = plan price + what the plan's own metering document owes; amounts multiply out; owner, currency and period are as asked |
| `Invoicing.InvoiceRow.AppendMeteredLines` | app/billing/services/invoicing.py:67-98 | appends one line per dimension in overage and nothing else; none without a tenant |
| `Invoicing.InvoiceRow.ApplyTotals` | app/billing/services/invoicing.py:60-64 | the stored figures are the totals of the row's lines |
| `Billing.LiveFor` | app/billing/crud/subscription.py:17-37 | the newest live row of the tenant; none exactly when no row is live |
| `Billing.FindStripe` | app/billing/services/stripe_events.py:67-71 | a row with that Stripe id; none exactly when there is none |
| `Billing.Blocking` | app/billing/crud/invoice.py:41-53 | an invoice holding the slot; none exactly when the slot is free |
| `Billing.PeriodFromStripe` | app/billing/services/stripe_events.py:74-86 | every period read from Stripe is non-empty |
| `Billing.DueRows` | app/billing/services/dunning.py:183-195 | exactly the due rows, each once, in id order |
| `Billing.EndedRows` | app/tasks/invoicing.py:40-48 | exactly the live rows whose period has ended, each once |
| `BillingRuns.TickAllPointwise` | app/billing/services/dunning.py:197-210 | the sweep ticks each selected row once and leaves all others alone |
| `BillingRuns.TrialSyncOutcome` | app/billing/services/stripe_events.py:173-200 | a sync to trialing is committed exactly when the live index lets it through |
| `BillingRuns.StepKeepsRows` | app/billing/services/billing.py:27-53 | every step but a revival moves rows only along edges, keeps sound rows sound, adds only sound rows and keeps the subscription indexes |
| `BillingRuns.EdgesExactlyUnlessRevived` | app/billing/services/stripe_events.py:165-200 | a step keeps to ALLOWED_TRANSITIONS if and only if it is not an unchecked sync to trialing that the index admits |
| `BillingRuns.CanceledRowIsRevived` | app/billing/services/stripe_events.py:176-187 | a reachable run in which a canceled row becomes trialing |
| `BillingRuns.StepMovesRow` | app/billing/services/stripe_events.py:165-200 | row by row: every step, a revival of another row included, keeps a sound row sound and on its edges |
| `BillingRuns.StepKeepsTable` | app/billing/services/stripe_events.py:74-86 | every step, revivals included, keeps the indexes and the core of every row |
| `BillingRuns.RunKeepsTable` | app/billing/models/subscription.py:40-94 | over every run, revivals included, the indexes hold and every row keeps its core: non-empty period, a retry time only with failures, a failure time exactly with failures, suspended_at when suspended, a scheduled plan that differs from the current one |
| `BillingRuns.ReachableTablesAreSound` | app/billing/models/subscription.py:40-94 | the same for every row, revived or not, of every state reachable from empty tables |
| `BillingRuns.StatusFollowsEdgesOverRuns` | app/billing/services/billing.py:27-53 | over every run from empty tables, at every step and for every row, the status stays or follows an edge if and only if the step does not revive this very row |
| `BillingRuns.RunKeepsRow` | app/billing/services/dunning.py:55-164 | over every run, whatever happens to other rows, a row that is not itself revived is sound: failure count, failure time and retry time agree with the status, suspended_at is set exactly when suspended, only canceled rows carry canceled_at, a canceled row has no scheduled plan, only active, past_due or suspended rows may end at period end, a scheduled plan differs from the current one; canceled and suspended are final |
| `BillingRuns.ReachableRowsAreSound` | app/billing/models/subscription.py:40-96 | all of this for every row of every state reachable from empty tables |
| `BillingRuns.ResumeUndoesCancel` | app/billing/api/endpoints/subscriptions.py:193-244 | resuming after a scheduled cancellation restores the whole state |
| `BillingRuns.DefaultPeriodIsNeverEmpty` | app/billing/services/invoicing.py:122-125 | in every reachable state, after any run, default-period generation does not raise its date error |
| `BillingBooks.StepKeepsBooks` | app/billing/services/invoicing.py:26-230 | every step, revivals included, keeps the invoice invariant and the slot index and moves invoices only along their edges |
| `BillingBooks.RunKeepsBooks` | app/billing/services/invoicing.py:106-230 | over every run: totals and amounts add up, paid_at is set exactly when paid, figures survive repricing and every lifecycle step, paid and void are final |
| `BillingBooks.ReachableBooksAreSound` | app/billing/models/invoice.py:56-100 | the same for every run from empty tables, with no assumption |
| `BillingBooks.OnePaidInvoicePerSlot` | app/billing/models/invoice.py:92-100 | at whatever two moments of whatever run we look, at most one invoice of a slot is paid |
| `BillingBooks.VoidFreesExactlyItsSlot` | app/billing/services/invoicing.py:220-230 | voiding frees the invoice's slot and no other slot changes |
| `BillingTenants.SerialStepNeedsNoIndexExactly` | app/billing/api/endpoints/subscriptions.py:98-117 | an undisturbed step does the same with and without the two partial indexes and keeps both uniqueness properties, if and only if it does not sync a dead row to trialing beside a live one |
| `BillingTenants.ReachableClash` | app/billing/services/stripe_events.py:176-198 | a reachable state in which such a sync arrives: bought, canceled, subscribed again, then reported as trialing |
| `BillingTenants.SerialRunsNeedNoIndex` | app/billing/models/subscription.py:87-94 | serial runs keep one live row per tenant, null tenant included, by application logic alone; the indexes never fire |
| `BillingTenants.OneLiveExactlyUnlessDoubled` | app/billing/services/stripe_events.py:126-200 | in any interleaving a step keeps one live row per tenant if and only if it neither lands a create nor revives a row beside a live one where the index does not look |
| `BillingTenants.NullTenantRace` | app/billing/api/endpoints/subscriptions.py:98-117 | from every state with no live null-tenant row, two interleaved subscribes leave two |
| `BillingLedger.DeliveryHandlesFreshOnly` | app/billing/services/stripe_events.py:226-262 | a first delivery that reaches its handler handles; every other one changes only the ledger |
| `BillingLedger.LedgerRefinesOnce` | app/billing/services/stripe_events.py:35-54 | after any replays and crashes the business state is that of a ledger-free machine fed each event at most once |
| `BillingLedger.OnceHasNoReplay` | app/billing/services/stripe_events.py:35-54 | in that erased run no event id occurs twice and none was recorded before |
| `BillingLedger.ReplayIsANoOp` | app/billing/services/stripe_events.py:240-242 | replaying any delivery of a run changes nothing at all |
| `BillingLedger.NoHandlerRunsTwice` | app/billing/services/stripe_events.py:35-54 | however deliveries interleave between lookup and commit, no event id enters a handler twice |
| `BillingLedger.InterleavingRefinesOnce` | app/billing/services/stripe_events.py:35-262 | after any interleaving, with any replays and crashes, the tables are those of a machine without ledger, and the events it handles are pairwise distinct and new |
| `BillingSweeps.SweepLeavesTheRest` | app/billing/services/dunning.py:183-207 | a sweep with a limit leaves due exactly the rows the limit cut off |
| `BillingSweeps.DunningSweepIsIdempotent` | app/billing/services/dunning.py:174-211 | a second sweep at the same instant changes nothing, if and only if the limit cut nothing off the first one or is zero; so always without a limit |
| `BillingSweeps.InvoiceSweepConservesCounts` | app/tasks/invoicing.py:50-79 | every subscription looked at is generated, skipped or failed, exactly one of them |
| `BillingSweeps.FaultlessSweepCovers` | app/tasks/invoicing.py:50-71 | after a pass with no failures every ended period is covered |
| `BillingSweeps.InvoiceSweepIsIdempotent` | app/tasks/invoicing.py:36-79 | after such a pass a second one changes nothing, whatever usage and faults it meets; it skips all subscriptions but those whose lookup raises, which it counts as failed |
| `BillingSweeps.SweepOneCounts` | app/tasks/invoicing.py:51-71 | a row counts as generated exactly when it is billable and nothing breaks down, as skipped when its slot is already covered, else as failed |
| `BillingSweeps.InvoiceSweepIssuesExactly` | app/tasks/invoicing.py:50-71 | a slot ends up issued if and only if it already was, or its period has ended, the row is billable with a free slot and nothing breaks down for it |
| `BillingSweeps.StrandedDraftIsSkipped` | app/tasks/invoicing.py:57-67 | a breakdown between creating and issuing leaves a draft in the slot, and every later pass over the row changes nothing |
| `BillingSweeps.SweepSplit` | app/tasks/invoicing.py:57-67 | check, insert and issue of one row with nothing in between are the sweep's whole work on it |
| `BillingSweeps.OtherStepsSpare` | app/billing/services/dunning.py:55-164 | only a payment, a Stripe event about the row, its immediate cancellation, an admin status change or a sweep touches its schedule; plan changes, scheduled cancellations, resumes, links and overrides do not |
| `BillingSweeps.UnpaidRowIsSuspended` | app/billing/services/dunning.py:167-211 | in any run of the whole machine without those steps for the row, whatever else happens to it and to other rows, sweeps that get to it suspend it within the time bound, after exactly max - c + 1 due ticks |
| `BillingEffects.SubscribeEffect` | app/billing/api/endpoints/subscriptions.py:92-124 | a first subscription starts now, on trial exactly if the plan has one, for thirty or 365 days; a second one and an unknown plan are refused |
| `BillingEffects.ChangePlanEffect` | app/billing/api/endpoints/subscriptions.py:144-184 | a dearer plan applies at once, in a new period, at the prorated difference; any other is only scheduled; each refusal |
| `BillingEffects.CancelEffect` | app/billing/api/endpoints/subscriptions.py:193-224 | immediate cancellation ends the row now; a scheduled one only sets the flag, and never on a trial |
| `BillingEffects.ResumeEffect` | app/billing/api/endpoints/subscriptions.py:232-244 | takes back the flag, or is refused |
| `BillingEffects.NothingToChange` | app/billing/api/endpoints/subscriptions.py:40-44 | without a live subscription all three are refused |
| `BillingEffects.UpdatedEffect` | app/billing/services/stripe_events.py:89-104 | the row takes the status Stripe reports (ended trials are active, unpaid is past due) and Stripe's own period, if the edge allows, and nothing else changes |
| `BillingEffects.DeletedEffect` | app/billing/services/stripe_events.py:251-253 | a deleted subscription is canceled now, whatever status the event carries |
| `BillingEffects.UnknownSubscription` | app/billing/services/stripe_events.py:165-171 | events about an unknown subscription change nothing |
| `BillingEffects.FailureEffect` | app/billing/services/stripe_events.py:203-223 | a failed payment makes a live row past due, counts it and schedules the retry |
| `BillingEffects.CheckoutEffect` | app/billing/services/stripe_events.py:107-162 | links, leaves alone or creates; status, trial and period of the created row are those Stripe reports |
| `BillingEffects.DeliveryStamp` | app/billing/services/stripe_events.py:240-262 | the processed stamp is set exactly when the handler returned and the process lived |
| `BillingEffects.SetStatusEffect` | app/admin/__init__.py:719-761 | each admin target with the fields that go with it; refused off the edges |
| `BillingEffects.OverrideEffect` | app/admin/__init__.py:685-714 | plan and period switch at once |
| `BillingEffects.GenerateEffect` | app/billing/services/invoicing.py:106-156 | one draft for the asked or current period with the figures owed, unless the slot is taken, the period empty or nothing is live |
| `BillingEffects.IssueEffect` | app/billing/services/invoicing.py:177-188 | only a draft is issued, stamped now |
| `BillingEffects.PayEffect` | app/billing/services/invoicing.py:191-217 | only an open invoice is paid, stamped now, and a past_due subscription goes back to active with its schedule cleared |
| `BillingEffects.VoidEffect` | app/billing/services/invoicing.py:220-230 | only a draft or open invoice is voided |
| `BillingEffects.SubscribeSplit` | app/billing/api/endpoints/subscriptions.py:98-117 | check and commit with nothing in between are the whole subscribe |
| `BillingEffects.GenerateSplit` | app/billing/services/invoicing.py:122-156 | the same for generation |
| `BillingEffects.DeliverSplit` | app/billing/services/stripe_events.py:226-262 | lookup, ledger row, handler and insert with nothing in between are the whole delivery |
| `BillingStore.WriteSync` | app/billing/services/stripe_events.py:174-191 | refuses exactly off the edges unless the target is trialing; else writes the synced row |
| `BillingStore.WriteStatus` | app/admin/__init__.py:746-756 | the field writes of each admin target |
| `BillingStore.TickRow` | app/billing/services/dunning.py:198-207 | one due row: suspended exactly when its positions are used up, else one position further |
| `BillingStore.TickRows` | app/billing/services/dunning.py:196-211 | the loop equals the row-wise sweep; reminded + suspended + failed = due, with failed and suspended counted exactly |
| `BillingStore.BuildInvoice` | app/billing/services/invoicing.py:133-150 | the document assembled in place is the specified one |
| `BillingStore.Store.Subscribe` | app/billing/api/endpoints/subscriptions.py:92-124 | new tables and reply are those of the subscribe step |
| `BillingStore.Store.ChangePlan` | app/billing/api/endpoints/subscriptions.py:144-184 | new tables and reply are those of the plan-change step |
| `BillingStore.Store.CancelSubscription` | app/billing/api/endpoints/subscriptions.py:193-224 | new tables and reply are those of the cancel step |
| `BillingStore.Store.ResumeSubscription` | app/billing/api/endpoints/subscriptions.py:232-244 | new tables and reply are those of the resume step |
| `BillingStore.Store.OnCheckoutCompleted` | app/billing/services/stripe_events.py:107-162 | skip, link, duplicate or create, as the checkout step says |
| `BillingStore.Store.OnSubscriptionSync` | app/billing/services/stripe_events.py:165-200 | the sync step, with rollback on an index violation |
| `BillingStore.Store.OnPaymentFailed` | app/billing/services/stripe_events.py:203-223 | the payment-failed step |
| `BillingStore.Store.RecordEvent` | app/billing/services/stripe_events.py:35-54 | true exactly for a new id, which is then in the ledger unstamped |
| `BillingStore.Store.ProcessEvent` | app/billing/services/stripe_events.py:226-262 | ledger first, handler second, stamp last; the delivery step for every crash point |
| `BillingStore.Store.AdminSetStatus` | app/admin/__init__.py:719-761 | the set-status step |
| `BillingStore.Store.AdminOverridePlan` | app/admin/__init__.py:685-714 | the override-plan step |
| `BillingStore.Store.GenerateInvoice` | app/billing/services/invoicing.py:106-156 | refuses or commits exactly as the specification of one period says |
| `BillingStore.Store.Generate` | app/billing/api/endpoints/invoices.py:78-102 | the generate step for the caller's live subscription |
| `BillingStore.Store.Issue` | app/billing/services/invoicing.py:177-188 | the issue step |
| `BillingStore.Store.MarkPaid` | app/billing/services/invoicing.py:191-217 | the pay step, recovery of a past_due subscription included, in one commit |
| `BillingStore.Store.VoidInvoice` | app/billing/services/invoicing.py:220-230 | the void step |
| `BillingStore.Store.ProcessDueRetries` | app/billing/services/dunning.py:167-211 | the sweep step; due = reminded + suspended + failed with exact counts |
| `BillingStore.Store.SweepSubscription` | app/tasks/invoicing.py:51-71 | the loop body: exactly one of the three counters moves |
| `BillingStore.Store.GenerateDueInvoices` | app/tasks/invoicing.py:33-79 | the loop over the ended rows: final tables and all three counts |
| `RateLimiter.Limiter.Check` | app/core/rate_limiter.py:26-42 | the stored set, the decision, remaining and reset of one request |
| `RateLimiter.StoredShowsTheHistory` | app/core/rate_limiter.py:31-36 | pruning and key expiry never change what lies within the window |
| `RateLimiter.FastDecisionIsSimpleDecision` | app/core/rate_limiter.py:31-39 | every decision is the one a set that keeps everything would give |
| `RateLimiter.AllowedExactlyWhenRoom` | app/core/rate_limiter.py:31-39 | a request is allowed if and only if fewer than `limit` earlier ones, denied ones included, lie within the window |
| `RateLimiter.WindowNeverExceedsLimit` | app/core/rate_limiter.py:26-42 | every half-open window of the configured length holds at most `limit` allowed requests |
| `Lockout.User.Authenticate` | app/core/security.py:152-202 | new account state and verdict of one attempt |
| `Lockout.ChecksFitThePotential` | app/core/security.py:155-183 | remaining free failures plus one check per lockout bound the checks still to come, from every state |
| `Lockout.ChecksAreRationed` | app/core/security.py:155-183 | with no successful login, at most (max - 1) + floor((b - a) / lockout) + 1 password checks run in [a, b] |
| `Lockout.AccountIsItsHistory` | app/core/security.py:155-202 | over every run: a login resets the account, and no lock is set before max failures since the last login |
| `Lockout.VerdictsFollowTheHistory` | app/core/security.py:155-202 | an attempt is refused if and only if max failures since the last login are reached and the last is less than a lockout ago; else the password decides |
| `Usage.Counters.Bump` | app/billing/services/usage.py:36-56 | counter, expiry and returned value of one increment; nothing when Redis is down |
| `Usage.Counters.GetUsage` | app/billing/services/usage.py:59-67 | the unexpired value, zero when missing or down |
| `Usage.KeysAreDistinct` | app/billing/services/usage.py:27-28 | two counters share a key if and only if tenant, dimension and period start in whole seconds agree |
| `Usage.ReadingIsTotal` | app/billing/services/usage.py:27-67 | within the grace period a reading is the sum of all increments of that tenant, dimension and period |
| `Usage.OutlivedCounterReadsZero` | app/billing/services/usage.py:31-33 | an hour and a second after its period, and a minute after its last increment, a counter reads zero |
| `Usage.GraceIsTight` | app/billing/services/usage.py:31-33 | one microsecond past the stated bound a counter can read zero |
| `Usage.EnforceQuota` | app/billing/api/deps.py:115-135 | admits exactly when the count so far stays within the allowance; fails open |
| `Usage.QuotaAdmitsExactlyTheAllowance` | app/billing/api/deps.py:96-135 | with fixed entitlements and Redis up, exactly the first included_quantity requests of a period are admitted, whatever other tenants and dimensions count in between |
| `Entitlements.Resolver.Invalidate` | app/billing/api/deps.py:57-62 | drops one tenant's entry, or all |
| `Entitlements.Resolver.Resolve` | app/billing/api/deps.py:65-93 | a fresh entry is served unchanged; otherwise the query's answer is served and stored until 60 seconds after it came back |
| `Entitlements.ResolveIsAskReadFinish` | app/billing/api/deps.py:65-93 | an uninterrupted resolution is exactly an Ask, a Read and a Finish |
| `Entitlements.EntryEffect` | app/billing/api/deps.py:57-93 | a tenant's entry goes exactly with an invalidation that covers it, changes with a store of its own and else stays |
| `Entitlements.AnswersHaveQueries` | app/billing/api/deps.py:65-93 | every cached or pending answer is what the direct query returned at a recorded event |
| `Entitlements.CachedAnswersAreRecent` | app/billing/api/deps.py:50-93 | a served answer is that of the tenant's own earlier query, stored less than 60 seconds ago with no invalidation since; it is newer than the last invalidation if and only if none fell during its query |
| `Entitlements.AgeOfServedAnswers` | app/billing/api/deps.py:86-93 | an answer is served exactly while its age is below 60 seconds plus the latency of its query; never older than 60 seconds if and only if the query took no time |
| `Entitlements.SlowQueryOutlivesTtl` | app/billing/api/deps.py:79-91 | a run with no invalidation in which an answer that has been wrong for 88 seconds is served |
| `Entitlements.CachedAnswersAreCurrent` | app/billing/api/deps.py:50-93 | if the tenant's own queries take at most L and no invalidation of the tenant overtakes them, every served answer equals the direct query at a moment in the last 60 + L seconds and since the last invalidation, whatever other requests overlap, negative answers included |
| `Entitlements.OwnAnswersAreCurrent` | app/billing/api/deps.py:79-93 | an answer returned from its own query is that of its read, newer than the last invalidation if and only if none fell in between; both, and at most L old, when the tenant's queries are prompt |
| `Entitlements.InterruptedQueryOutlivesInvalidation` | app/billing/api/deps.py:67-93 | a run in which a stale answer is served after an invalidation |
| `Webhooks.BackoffDoublesUpToTheCap` | app/notifications/services/webhook.py:20-26 | the delay starts at the base, doubles up to the cut second, never shrinks and stops at the cap |
| `Webhooks.Dispatcher.RecordOutcome` | app/notifications/tasks/webhook.py:49-83 | one commit on delivery and webhook; nothing when either is missing |
| `Webhooks.Dispatcher.DeliverWebhook` | app/notifications/tasks/webhook.py:86-197 | new tables and task result for every HTTP outcome |
| `Webhooks.WorkKeepsInv` | app/notifications/tasks/webhook.py:169-197 | a queued task is never cut off by Celery's cap, and its requeue countdown is the recorded backoff |
| `Webhooks.OutcomeOfWork` | app/notifications/tasks/webhook.py:86-197 | delivered exactly on a 2xx response of an active webhook, else retried while attempts are left, else failed; every field of the delivery and its webhook, and nothing else |
| `Webhooks.RunKeepsInv` | app/notifications/tasks/webhook.py:49-166 | over every interleaving: at most max_attempts POSTs per delivery, next_retry_at exactly when retrying, delivered_at exactly when delivered, failure_count = failed outcomes since the last delivered one |
| `Webhooks.ChainEnds` | app/notifications/tasks/webhook.py:169-197 | a queued delivery runs at most its remaining attempts, ends delivered or failed and never comes back |
| `Sockets.ConnectionManager.Connect` | app/websocket/manager.py:18-21 | adds exactly that pair; nothing when accept raises |
| `Sockets.ConnectionManager.Disconnect` | app/websocket/manager.py:23-28 | removes exactly that pair and an emptied user |
| `Sockets.ConnectionManager.PrunePersonal` | app/websocket/manager.py:39-46 | removes exactly the dead sockets of the user; leaves no empty user |
| `Sockets.ConnectionManager.PruneBroadcast` | app/websocket/manager.py:62-69 | the loop drops the dead pairs one by one; leaves no empty user |
| `Sockets.PruneRemovesExactlyTheDead` | app/websocket/manager.py:62-69 | a pair survives a prune exactly when it was registered and not dead |
| `Sockets.NeverAnEmptyUser` | app/websocket/manager.py:18-69 | in every interleaving no user maps to an empty set |
| `Sockets.RegisteredExactlyWhileConnected` | app/websocket/manager.py:18-69 | a socket is registered exactly when it connected, with its accept going through, and was since neither disconnected nor pruned after its own failed send |
| `Sockets.PruneTakesOutExactly` | app/websocket/manager.py:30-69 | a prune removes a pair if and only if the pair was in its message's snapshot and its own send failed since |
| `Sockets.PruneOnlyTakesOutSnapshot` | app/websocket/manager.py:30-69 | every pruned pair was in that message's snapshot and failed its own send |
| `Sockets.PruneSparesLateSockets` | app/websocket/manager.py:30-69 | a prune never removes a socket registered after its message's snapshot |
| `TenantFilter.FirstScoped` | app/core/database.py:290-295 | the first source with a tenant column; none exactly when there is none |
| `TenantFilter.ApplyTenantFilter` | app/core/database.py:284-307 | the loop with break and the branches compute the specified rewrite |
| `TenantFilter.NoTenantNoRewrite` | app/core/database.py:287-288 | without a tenant in context nothing is rewritten |
| `TenantFilter.InsertIsStamped` | app/core/database.py:296-301 | an insert is stamped with the caller's tenant exactly where the table shows a tenant column and the statement gives none; every other column, row and table is as it was |
| `TenantFilter.WritesHitExactly` | app/core/database.py:302-305 | an update assigns, a delete removes, exactly the rows its own condition and, on a scoped table, the caller's tenant select |
| `TenantFilter.WritesAddNothing` | app/core/database.py:302-305 | nothing appears or changes beside them, and the answer counts them |
| `TenantFilter.SelectSeesOnlyTheTenant` | app/core/database.py:290-295 | a rewritten select over one scoped table that shows its tenant column answers as the original on the tenant's own rows, for any condition, grouping, order or limit |
| `TenantFilter.RewriteIsolatesExactlyOneShown` | app/core/database.py:290-295 | the rewritten product is the tenant's own, for all databases and conditions, if and only if at most one table is scoped and it shows its tenant column |
| `TenantFilter.HiddenSourceLeaks` | app/core/database.py:290-295 | whenever that fails there is a database in which another tenant's row gets through |
| `TenantFilter.ExplicitJoinIsUnfiltered` | app/core/database.py:290-295 | a select over tables that show no tenant column, as those of an explicit JOIN, is left as it is and leaks |
| `TenantFilter.CallKeepsForeignRows` | app/core/database.py:296-305 | no statement, whatever it reads, changes or removes another tenant's row of a scoped table |
| `TenantFilter.RunKeepsForeignRows` | app/core/database.py:284-307 | the same over every run, for rows of tenants that do not call |
| `TenantFilter.CallIsConsistent` | app/core/database.py:284-307 | to databases that look alike to the tenant a statement answers alike and leaves them alike |
| `TenantFilter.ConfinedCallIsInvisible` | app/core/database.py:296-305 | another tenant's statement on scoped tables is invisible to the tenant |
| `TenantFilter.NonInterference` | app/core/database.py:106-130 | over two runs: a tenant is answered, statement by statement, as if the other tenants had neither rows nor statements |
| `CursorCodec.IntRoundTrip` | app/utils/pagination.py:45-52 | every integer survives its JSON text (section 6 of RFC 8259) |
| `CursorCodec.Base64RoundTrip` | app/utils/pagination.py:45-52 | every byte string survives padded base64url (section 5 of RFC 4648) |
| `CursorCodec.CursorRoundTrip` | app/utils/pagination.py:45-52 | decode_cursor(encode_cursor(n)) = n for every integer, and no cursor is empty |
| `CursorCodec.KnownEncodings` | app/utils/pagination.py:45-52 | the test vectors of section 10 of RFC 4648 and the URL-safe symbols |
| `CursorCodec.KnownCursors` | app/utils/pagination.py:45-52 | the cursors of 0, 12 and -1 |
| `Inbox.Desc` | app/notifications/crud/notification.py:120-131 | the listing is descending and holds exactly the given rows, each once |
| `Inbox.PageAt` | app/notifications/api/endpoints/notifications.py:66-83 | a page is the first `size` rows below the cursor, with a cursor at its last row exactly when more follow |
| `Inbox.WalkListsWhatStays` | app/notifications/api/endpoints/notifications.py:66-83 | while newer rows arrive and rows may vanish, following next_cursor ends within ceil(rows / size) pages and lists in descending order, each at most once, only rows of the first table and every one that stays |
| `Inbox.WalkVisitsEveryRowOnce` | app/notifications/api/endpoints/notifications.py:66-83 | when no row vanishes, the pages concatenate to exactly the first table's rows, newest first, each once |
| `Inbox.InboxWalk` | app/notifications/crud/notification.py:110-131 | the same for the inbox of one user while rows arrive, are deleted and are marked read: only the user's rows, unread if asked, are listed, and every one that stays so is |

## Left out

- Renewal of subscriptions and the application of `pending_plan_id` at period end: no code in scope performs them.
- Float rounding of proration and tax: amounts are exact rationals before the final rounding.
- A notification that raises inside the payment-failed handler or `mark_paid` before their commit: the tables then stay as they were, as with a crash before the handler.
- Publication after a commit, in every endpoint: it cannot change the tables any more.
- BillingStore.Store.GenerateDueInvoices: a whole pass is one step here, although the code commits twice per row; interleaved with other requests, its work on one row is the steps BeginSweep, Land and Issue, over which the run theorems range.
- Two requests that update the same existing row at the same time: only check and insert, and ledger lookup and insert, are split into separate steps.
- Overlapping custom invoice periods: the slot rule is keyed on the period start, so nothing is claimed about overlap.
- The membership check of the invoice endpoints (`_ensure_tenant_invoice`), permissions and request validation.
- Descriptions, numbers and other texts of invoices and webhook requests.
- Refunds, the Stripe REST client, signatures, JWT, password hashing, TOTP and WebAuthn.
- CursorCodec.DecodeCursor: does not model what Python's lenient base64 and JSON readers accept beyond canonical cursors.
- Inbox.InboxWalk: rows of the first table that come into view only later (restored after a deletion) are outside the statement.
- `CRUDBase.get_multi_cursor` and the users listing: another cursor convention.
- Webhooks: a recorded outcome is one atomic step; two workers that read the same webhook row before either commits could lose an update of failure_count. Not modelled either: deletion of webhooks, the fan-out's event-type filter and channel preferences, response bodies, and loss of a worker in the middle of a task.
- TenantFilter.SelectSeesOnlyTheTenant: needs at most one scoped table, in sight, for the reason `TenantFilter.RewriteIsolatesExactlyOneShown` gives; conditions that run subqueries, inserts whose values come as execution parameters, and the unfiltered context without a tenant are not modelled.
- TenantFilter.NonInterference: other tenants' writes to shared, unscoped tables and rows they hand over explicitly are excluded, since those are visible by design. The identity of an inserted row is given with the call and the same in both runs: a shared id sequence would show how many rows others insert.
- Lockout.ChecksAreRationed: does not model two attempts that read the account at the same time.
- Sockets: a socket object is accepted once, as the handshake of the WebSocket library demands; the order of sends within one message and the network itself.
- JWT blacklist, sessions, CMS, files, i18n, health, tracing, metrics, middlewares, CLI, operator and generic admin screens.
