/**
  The in-process entitlement cache (app/billing/api/deps.py). Resolving awaits
  the database between the cache lookup and the cache write, so other requests
  and invalidations may run in between.
 */
module Entitlements {
  import opened Common

  const TTL: int := 60

  /** A metering snapshot; None is the cached negative lookup. */
  datatype Grant = Grant(config: map<string, (int, int)>, start: int, end: int)
  type Answer = Option<Grant>

  /** A cached answer, with the events that queried and stored it. */
  datatype Entry = Entry(answer: Answer, expiresAt: int, queried: nat, stored: nat)

  /** A resolution under way: sent to the database, or read there by event `queried` and on its way back. */
  datatype Waiting = Sent(tenant: int) | Returning(tenant: int, answer: Answer, queried: nat)

  datatype Event =
    | Change(tenant: int, answer: Answer)
    | Invalidate(scope: Option<int>)
    | Ask(request: nat, tenant: int)
    | Read(request: nat)
    | Finish(request: nat)

  /** Events with their instants on the monotonic clock. */
  type Trace = seq<(int, Event)>

  datatype State = State(db: map<int, Answer>, cache: map<int, Entry>, waiting: map<nat, Waiting>)

  /** The direct live-subscription query. */
  function Direct(st: State, tenant: int): Answer
  {
    if tenant in st.db then st.db[tenant] else None
  }

  predicate Hit(st: State, tenant: int, now: int)
  {
    tenant in st.cache && now < st.cache[tenant].expiresAt
  }

  predicate Covers(scope: Option<int>, t: int) { scope.None? || scope.value == t }

  function Invalidated(cache: map<int, Entry>, scope: Option<int>): map<int, Entry>
  {
    if scope.None? then map[] else cache - {scope.value}
  }

  function Next(st: State, k: nat, now: int, ev: Event): State
  {
    match ev
    case Change(t, a) => st.(db := st.db[t := a])
    case Invalidate(scope) => st.(cache := Invalidated(st.cache, scope))
    case Ask(r, t) =>
      if Hit(st, t, now) then st
      else st.(waiting := st.waiting[r := Sent(t)])
    case Read(r) =>
      if r !in st.waiting || st.waiting[r].Returning? then st
      else
        var t := st.waiting[r].tenant;
        st.(waiting := st.waiting[r := Returning(t, Direct(st, t), k)])
    case Finish(r) =>
      if r !in st.waiting || st.waiting[r].Sent? then st
      else
        var w := st.waiting[r];
        st.(cache := st.cache[w.tenant := Entry(w.answer, now + TTL, w.queried, k)], waiting := st.waiting - {r})
  }

  function After(trace: Trace): State
  {
    if trace == [] then State(map[], map[], map[])
    else
      var k := |trace| - 1;
      Next(After(trace[..k]), k, trace[k].0, trace[k].1)
  }

  /** The cache object. */
  class Resolver {
    var cache: map<int, Entry>

    /** Drops one tenant's entry, or all of them. */
    method Invalidate(tenant: Option<int>)
      modifies this
      ensures cache == Invalidated(old(cache), tenant)
    {
      if tenant.None? { cache := map[]; } else { cache := cache - {tenant.value}; }
    }

    /**
      A resolution that nothing interrupts: asked at `now`, with `direct` what
      the query reads in event k, stored at `later` in event l.
     */
    method Resolve(tenant: int, now: int, later: int, direct: Answer, k: nat, l: nat) returns (answer: Answer)
      modifies this
      ensures (cache, answer) == Resolved(old(cache), tenant, now, later, direct, k, l)
    {
      if tenant in cache && now < cache[tenant].expiresAt { return cache[tenant].answer; }
      cache := cache[tenant := Entry(direct, later + TTL, k, l)];
      return direct;
    }
  }

  function Resolved(cache: map<int, Entry>, tenant: int, now: int, later: int, direct: Answer, k: nat, l: nat)
    : (map<int, Entry>, Answer)
  {
    if tenant in cache && now < cache[tenant].expiresAt then (cache, cache[tenant].answer)
    else (cache[tenant := Entry(direct, later + TTL, k, l)], direct)
  }

  /** The object does what the events say: a resolution is an Ask, a Read and a Finish. */
  lemma ResolveIsAskReadFinish(st: State, r: nat, tenant: int, now: int, read: int, later: int, j: nat, k: nat, l: nat)
    requires r !in st.waiting
    ensures var back := Next(Next(st, j, now, Ask(r, tenant)), k, read, Read(r));
      var done := Next(back, l, later, Finish(r));
      var (cache, answer) := Resolved(st.cache, tenant, now, later, Direct(st, tenant), k, l);
      && done == st.(cache := cache)
      && (if Hit(st, tenant, now) then answer == st.cache[tenant].answer
          else back.waiting[r] == Returning(tenant, answer, k))
  {
    var back := Next(Next(st, j, now, Ask(r, tenant)), k, read, Read(r));
    if !Hit(st, tenant, now) { assert back.waiting - {r} == st.waiting; }
  }

  // -------------------------------------------------------------- whole runs

  /** The answer was the direct query's at event j, for tenant t. */
  predicate QueriedAt(trace: Trace, j: nat, t: int, answer: Answer)
  {
    && j < |trace|
    && trace[j].1.Read?
    && trace[j].1.request in After(trace[..j]).waiting
    && After(trace[..j]).waiting[trace[j].1.request] == Sent(t)
    && answer == Direct(After(trace[..j]), t)
  }

  /** No event in (from, to) invalidates the tenant. */
  predicate Undisturbed(trace: Trace, from: nat, to: nat, t: int)
  {
    to <= |trace| && forall i | from < i < to && trace[i].1.Invalidate? :: !Covers(trace[i].1.scope, t)
  }

  /** Event s stores what tenant t's query at event q returned. */
  predicate Pair(trace: Trace, q: nat, s: nat, t: int)
  {
    && q < s < |trace|
    && trace[s].1.Finish?
    && var waiting := After(trace[..s]).waiting;
       var r := trace[s].1.request;
       r in waiting && waiting[r].Returning? && waiting[r].tenant == t && waiting[r].queried == q
  }

  predicate EntryOk(trace: Trace, t: int, e: Entry)
  {
    && Pair(trace, e.queried, e.stored, t)
    && QueriedAt(trace, e.queried, t, e.answer)
    && e.expiresAt == trace[e.stored].0 + TTL
    && Undisturbed(trace, e.stored, |trace|, t)
  }

  predicate WaitingOk(trace: Trace, w: Waiting)
  {
    w.Returning? ==> QueriedAt(trace, w.queried, w.tenant, w.answer)
  }

  lemma QueriedEarlier(trace: Trace, j: nat, t: int, answer: Answer)
    requires trace != [] && QueriedAt(trace[..|trace| - 1], j, t, answer)
    ensures QueriedAt(trace, j, t, answer)
  {
    assert trace[..|trace| - 1][..j] == trace[..j];
  }

  lemma PairEarlier(trace: Trace, q: nat, s: nat, t: int)
    requires trace != [] && Pair(trace[..|trace| - 1], q, s, t)
    ensures Pair(trace, q, s, t)
  {
    assert trace[..|trace| - 1][..s] == trace[..s];
  }

  predicate CacheOk(trace: Trace, st: State) { forall t | t in st.cache :: EntryOk(trace, t, st.cache[t]) }

  predicate AllWaitingOk(trace: Trace, st: State) { forall r | r in st.waiting :: WaitingOk(trace, st.waiting[r]) }

  /** Every cached and every waiting answer has its query in the trace. */
  lemma {:induction false} AnswersHaveQueries(trace: Trace)
    ensures CacheOk(trace, After(trace)) && AllWaitingOk(trace, After(trace))
    decreases |trace|
  {
    hide CacheOk, AllWaitingOk, Next;
    if trace == [] {
      EmptyTraceOk(trace);
    } else {
      var k := |trace| - 1;
      AnswersHaveQueries(trace[..k]);
      WaitingStep(trace, k, trace[..k], After(trace[..k]));
      EntryStep(trace, k, trace[..k], After(trace[..k]));
    }
  }

  lemma EmptyTraceOk(trace: Trace)
    requires trace == []
    ensures CacheOk(trace, After(trace)) && AllWaitingOk(trace, After(trace))
  {
  }

  lemma WaitingStep(trace: Trace, k: nat, front: Trace, before: State)
    requires |trace| == k + 1 && front == trace[..k] && before == After(front) && AllWaitingOk(front, before)
    ensures AllWaitingOk(trace, Next(before, k, trace[k].0, trace[k].1))
  {
    hide After;
    var after := Next(before, k, trace[k].0, trace[k].1);
    forall r | r in after.waiting ensures WaitingOk(trace, after.waiting[r]) {
      var w := after.waiting[r];
      if r in before.waiting && before.waiting[r] == w {
        assert WaitingOk(front, w);
        if w.Returning? { QueriedEarlier(trace, w.queried, w.tenant, w.answer); }
      }
    }
  }

  lemma EntryStep(trace: Trace, k: nat, front: Trace, before: State)
    requires |trace| == k + 1 && front == trace[..k] && before == After(front)
    requires CacheOk(front, before) && AllWaitingOk(front, before)
    ensures CacheOk(trace, Next(before, k, trace[k].0, trace[k].1))
  {
    hide QueriedAt, After, Pair;
    var after := Next(before, k, trace[k].0, trace[k].1);
    forall t | t in after.cache ensures EntryOk(trace, t, after.cache[t]) {
      var e := after.cache[t];
      if t in before.cache && before.cache[t] == e {
        assert EntryOk(front, t, e);
        QueriedEarlier(trace, e.queried, t, e.answer);
        PairEarlier(trace, e.queried, e.stored, t);
        PairInRange(front, e.queried, e.stored, t);
        assert forall i | 0 <= i < k :: trace[i] == front[i];
      } else {
        var w := before.waiting[trace[k].1.request];
        assert WaitingOk(front, w);
        QueriedEarlier(trace, w.queried, w.tenant, w.answer);
        QueriedInRange(front, w.queried, w.tenant, w.answer);
        PairNow(trace, k, trace[k].1.request);
      }
    }
  }

  lemma PairNow(trace: Trace, k: nat, r: nat)
    requires |trace| == k + 1 && trace[k].1 == Finish(r)
    requires r in After(trace[..k]).waiting && After(trace[..k]).waiting[r].Returning?
    requires After(trace[..k]).waiting[r].queried < k
    ensures var w := After(trace[..k]).waiting[r]; Pair(trace, w.queried, k, w.tenant)
  {
  }

  lemma PairInRange(trace: Trace, q: nat, s: nat, t: int)
    requires Pair(trace, q, s, t)
    ensures q < s < |trace|
  {
  }

  lemma QueriedInRange(trace: Trace, j: nat, t: int, answer: Answer)
    requires QueriedAt(trace, j, t, answer)
    ensures j < |trace|
  {
  }

  /**
    Every answer taken from the cache is what the direct query returned at the
    tenant's own earlier query, stored less than 60 seconds ago, with no
    invalidation of the tenant since then; negative answers included. It is
    newer than the tenant's last invalidation if and only if none fell while its
    query was in flight.
   */
  lemma CachedAnswersAreRecent(trace: Trace, tenant: int, now: int)
    requires Hit(After(trace), tenant, now)
    ensures var e := After(trace).cache[tenant];
      && QueriedAt(trace, e.queried, tenant, e.answer)
      && Pair(trace, e.queried, e.stored, tenant)
      && now < trace[e.stored].0 + TTL
      && Undisturbed(trace, e.stored, |trace|, tenant)
      && (Undisturbed(trace, e.queried, |trace|, tenant) <==> Undisturbed(trace, e.queried, e.stored, tenant))
  {
    AnswersHaveQueries(trace);
    var e := After(trace).cache[tenant];
    assert EntryOk(trace, tenant, e) && !trace[e.stored].1.Invalidate?;
  }

  /**
    How old a served answer can be: it is served until 60 seconds after its
    store, so its age stays below 60 seconds plus the latency of its query, and
    below 60 seconds for as long as it is served if and only if the query took
    no time.
   */
  lemma AgeOfServedAnswers(trace: Trace, tenant: int)
    requires tenant in After(trace).cache
    ensures var e := After(trace).cache[tenant];
      && Pair(trace, e.queried, e.stored, tenant)
      && var latency := trace[e.stored].0 - trace[e.queried].0;
         && (forall now :: Hit(After(trace), tenant, now) <==> now - trace[e.queried].0 < TTL + latency)
         && ((forall now | Hit(After(trace), tenant, now) :: now - trace[e.queried].0 < TTL) <==> latency <= 0)
  {
    AnswersHaveQueries(trace);
    var e := After(trace).cache[tenant];
    assert EntryOk(trace, tenant, e);
    var q := trace[e.queried].0;
    assert Hit(After(trace), tenant, q + TTL) <==> q < trace[e.stored].0;
  }

  /** The tenant's own queries take at most `latency`, and none is overtaken by an invalidation of the tenant. */
  ghost predicate Prompt(trace: Trace, tenant: int, latency: int)
  {
    forall q: nat, s: nat | Pair(trace, q, s, tenant) ::
      trace[s].0 <= trace[q].0 + latency && Undisturbed(trace, q, s, tenant)
  }

  /**
    Whatever other requests overlap: if the tenant's own queries are prompt,
    every cached answer equals what the direct query returned less than 60
    seconds plus that latency ago and since the last invalidation.
   */
  lemma CachedAnswersAreCurrent(trace: Trace, tenant: int, latency: int, now: int)
    requires Prompt(trace, tenant, latency) && Hit(After(trace), tenant, now)
    ensures exists j: nat ::
      && QueriedAt(trace, j, tenant, After(trace).cache[tenant].answer)
      && now - trace[j].0 < TTL + latency
      && Undisturbed(trace, j, |trace|, tenant)
  {
    hide After;
    CachedAnswersAreRecent(trace, tenant, now);
    var e := After(trace).cache[tenant];
    assert Pair(trace, e.queried, e.stored, tenant);
  }

  /**
    An answer that a resolution returns from its own query, at its Finish event s:
    what the direct query returned at its read, newer than the tenant's last
    invalidation if and only if none fell in between; both, and no older than the
    latency, when the tenant's queries are prompt.
   */
  lemma OwnAnswersAreCurrent(trace: Trace, q: nat, s: nat, tenant: int, latency: int)
    requires Pair(trace, q, s, tenant)
    ensures QueriedAt(trace, q, tenant, After(trace[..s]).waiting[trace[s].1.request].answer)
    ensures Undisturbed(trace, q, s + 1, tenant) <==> Undisturbed(trace, q, s, tenant)
    ensures Prompt(trace, tenant, latency) ==>
      trace[s].0 - trace[q].0 <= latency && Undisturbed(trace, q, s + 1, tenant)
  {
    hide After;
    AnswersHaveQueries(trace[..s]);
    var w := After(trace[..s]).waiting[trace[s].1.request];
    assert WaitingOk(trace[..s], w);
    assert trace[..s][..q] == trace[..q];
    assert !trace[s].1.Invalidate?;
  }

  /** A slow query outlives the 60 seconds: no invalidation, and at 89 an answer that has been wrong since 1. */
  lemma SlowQueryOutlivesTtl(t: int, g: Grant)
    ensures var trace: Trace := [(0, Ask(0, t)), (0, Read(0)), (1, Change(t, Some(g))), (30, Finish(0))];
      && Hit(After(trace), t, 89) && !Hit(After(trace), t, 90)
      && After(trace).cache[t].answer == None
      && Direct(After(trace[..3]), t) == Direct(After(trace), t) == Some(g)
  {
    var e0, e1, e2, e3 := (0, Ask(0, t)), (0, Read(0)), (1, Change(t, Some(g))), (30, Finish(0));
    var trace: Trace := [e0, e1, e2, e3];
    assert trace[..3] == [e0, e1, e2] && [e0, e1, e2][..2] == [e0, e1];
    ReadFirst(t, e0, e1);
    assert After([e0, e1, e2]) == State(map[t := Some(g)], map[], map[0 := Returning(t, None, 1)]);
  }

  lemma ReadFirst(t: int, e0: (int, Event), e1: (int, Event))
    requires e0 == (0, Ask(0, t)) && e1 == (0, Read(0))
    ensures After([e0, e1]) == State(map[], map[], map[0 := Returning(t, None, 1)])
  {
    var none: Trace := [];
    assert [e0, e1][..1] == [e0] && [e0][..0] == none;
    assert After([e0]) == State(map[], map[], map[0 := Sent(t)]);
  }

  /** The event stores an answer for tenant t. */
  predicate Stores(st: State, ev: Event, t: int)
  {
    && ev.Finish? && ev.request in st.waiting
    && st.waiting[ev.request].Returning? && st.waiting[ev.request].tenant == t
  }

  /** A tenant's entry goes with an invalidation that covers it, changes with a store of its own, else stays. */
  lemma EntryEffect(st: State, k: nat, now: int, ev: Event, t: int)
    ensures var n := Next(st, k, now, ev);
      && (ev.Invalidate? && (ev.scope == None || ev.scope == Some(t)) ==> t !in n.cache)
      && (Stores(st, ev, t) ==> t in n.cache && n.cache[t].answer == st.waiting[ev.request].answer)
      && (!(ev.Invalidate? && (ev.scope == None || ev.scope == Some(t))) && !Stores(st, ev, t) ==>
            && (t in n.cache <==> t in st.cache)
            && (t in n.cache ==> n.cache[t] == st.cache[t]))
      && (!ev.Change? ==> n.db == st.db)
  {
  }

  /** An interrupted query loses an invalidation: the old answer is served after it. */
  lemma InterruptedQueryOutlivesInvalidation(t: int, g: Grant)
    ensures var trace: Trace :=
        [(0, Ask(0, t)), (0, Read(0)), (1, Change(t, Some(g))), (1, Invalidate(Some(t))), (2, Finish(0))];
      && Hit(After(trace), t, 3)
      && After(trace).cache[t].answer == None != Direct(After(trace), t)
  {
    var e0, e1, e2 := (0, Ask(0, t)), (0, Read(0)), (1, Change(t, Some(g)));
    var e3, e4 := (1, Invalidate(Some(t))), (2, Finish(0));
    var trace: Trace := [e0, e1, e2, e3, e4];
    assert trace[..4] == [e0, e1, e2, e3] && [e0, e1, e2, e3][..3] == [e0, e1, e2] && [e0, e1, e2][..2] == [e0, e1];
    ReadFirst(t, e0, e1);
    var changed := State(map[t := Some(g)], map[], map[0 := Returning(t, None, 1)]);
    assert After([e0, e1, e2]) == changed;
    assert After([e0, e1, e2, e3]) == changed;
  }
}
