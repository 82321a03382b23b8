/**
  The WebSocket registry (app/websocket/manager.py): the connection table is
  changed under a lock, but messages are sent outside it.
 */
module Sockets {
  import opened Common

  type User = string
  type Socket = nat
  type Table = map<User, set<Socket>>

  predicate Registered(t: Table, u: User, s: Socket) { u in t && s in t[u] }

  /** No user maps to an empty set. */
  predicate NoEmptyUser(t: Table) { forall u | u in t :: t[u] != {} }

  function Added(t: Table, u: User, s: Socket): Table
  {
    t[u := (if u in t then t[u] else {}) + {s}]
  }

  /** The table without one pair; a user left with no socket goes too. */
  function Dropped(t: Table, u: User, s: Socket): Table
  {
    if u !in t then t
    else if t[u] - {s} == {} then t - {u}
    else t[u := t[u] - {s}]
  }

  function DroppedAll(t: Table, dead: seq<(User, Socket)>): Table
  {
    if dead == [] then t
    else
      var (u, s) := dead[|dead| - 1];
      Dropped(DroppedAll(t, dead[..|dead| - 1]), u, s)
  }

  /** The registered pairs a message goes to: one user's, or everyone's. */
  function Targets(t: Table, to: Option<User>): set<(User, Socket)>
  {
    set u, s | u in t && s in t[u] && (to.None? || to.value == u) :: (u, s)
  }

  // --------------------------------------------------- the manager as it runs

  class ConnectionManager {
    var active: Table

    constructor ()
      ensures active == map[]
    {
      active := map[];
    }

    /** `accepted` says whether `websocket.accept()` goes through; it raises before the table is touched. */
    method Connect(u: User, s: Socket, accepted: bool)
      modifies this
      ensures active == if accepted then Added(old(active), u, s) else old(active)
    {
      if !accepted { return; }
      if u !in active { active := active[u := {}]; }
      active := active[u := active[u] + {s}];
    }

    method Disconnect(u: User, s: Socket)
      modifies this
      ensures active == Dropped(old(active), u, s)
    {
      if u in active {
        active := active[u := active[u] - {s}];
        if active[u] == {} { active := active - {u}; }
      }
    }

    /** The locked section after a broadcast: one pair at a time. */
    method PruneBroadcast(dead: seq<(User, Socket)>)
      requires NoEmptyUser(active)
      modifies this
      ensures NoEmptyUser(active)
      ensures active == DroppedAll(old(active), dead)
    {
      for k := 0 to |dead|
        invariant NoEmptyUser(active)
        invariant active == DroppedAll(old(active), dead[..k])
      {
        assert dead[..k + 1][..k] == dead[..k];
        var (u, s) := dead[k];
        if u in active && active[u] != {} {
          active := active[u := active[u] - {s}];
          if active[u] == {} { active := active - {u}; }
        }
      }
      assert dead[..|dead|] == dead;
    }

    /** The locked section after a personal message: discard all, then drop the user if none is left. */
    method PrunePersonal(u: User, dead: seq<Socket>)
      requires NoEmptyUser(active)
      modifies this
      ensures NoEmptyUser(active)
      ensures forall v, s :: Registered(active, v, s) <==> Registered(old(active), v, s) && !(v == u && s in dead)
    {
      if u in active && active[u] != {} {
        for k := 0 to |dead|
          invariant u in active && active == old(active)[u := active[u]]
          invariant forall s :: s in active[u] <==> s in old(active)[u] && s !in dead[..k]
        {
          active := active[u := active[u] - {dead[k]}];
        }
        assert dead[..|dead|] == dead;
        if active[u] == {} { active := active - {u}; }
      }
    }
  }

  lemma DroppedRegistration(t: Table, u: User, s: Socket, v: User, r: Socket)
    ensures Registered(Dropped(t, u, s), v, r) <==> Registered(t, v, r) && (v, r) != (u, s)
  {
    if u in t { assert r in t[u] - {s} <==> r in t[u] && r != s; }
  }

  /** The pruning loop removes exactly the dead pairs, in whatever order they failed. */
  lemma {:induction false} PruneRemovesExactlyTheDead(t: Table, dead: seq<(User, Socket)>, u: User, s: Socket)
    requires NoEmptyUser(t)
    ensures NoEmptyUser(DroppedAll(t, dead))
    ensures Registered(DroppedAll(t, dead), u, s) <==> Registered(t, u, s) && (u, s) !in dead
  {
    if dead != [] {
      var front, last := dead[..|dead| - 1], dead[|dead| - 1];
      PruneRemovesExactlyTheDead(t, front, u, s);
      DroppedRegistration(DroppedAll(t, front), last.0, last.1, u, s);
      assert dead == front + [last];
    }
  }

  // ------------------------------------------------- interleaved operations

  /** A message on its way: the pairs of its snapshot and those whose send failed. */
  datatype Sending = Sending(targets: set<(User, Socket)>, dead: seq<(User, Socket)>)

  datatype Event =
    | Connect(u: User, s: Socket)
    | Disconnect(u: User, s: Socket)
    | Begin(op: nat, to: Option<User>)
    | SendFails(op: nat, u: User, s: Socket)
    | Prune(op: nat)

  type Trace = seq<Event>

  /** `accepted` holds the sockets whose handshake is behind them. */
  datatype State = State(table: Table, sending: map<nat, Sending>, accepted: set<Socket>)

  function Next(st: State, ev: Event): State
  {
    match ev
    case Connect(u, s) =>
      // A socket is accepted once: a second accept raises before the registration.
      if s in st.accepted then st
      else st.(table := Added(st.table, u, s), accepted := st.accepted + {s})
    case Disconnect(u, s) => st.(table := Dropped(st.table, u, s))
    case Begin(op, to) =>
      if op in st.sending then st else st.(sending := st.sending[op := Sending(Targets(st.table, to), [])])
    case SendFails(op, u, s) =>
      if op in st.sending && (u, s) in st.sending[op].targets
      then st.(sending := st.sending[op := st.sending[op].(dead := st.sending[op].dead + [(u, s)])])
      else st
    case Prune(op) =>
      if op in st.sending
      then st.(table := DroppedAll(st.table, st.sending[op].dead), sending := st.sending - {op})
      else st
  }

  function After(trace: Trace): State
  {
    if trace == [] then State(map[], map[], {}) else Next(After(trace[..|trace| - 1]), trace[|trace| - 1])
  }

  lemma {:induction false} NeverAnEmptyUser(trace: Trace)
    ensures NoEmptyUser(After(trace).table)
    decreases |trace|
  {
    if trace != [] {
      var front, last := trace[..|trace| - 1], trace[|trace| - 1];
      NeverAnEmptyUser(front);
      if last.Prune? && last.op in After(front).sending {
        PruneRemovesExactlyTheDead(After(front).table, After(front).sending[last.op].dead, "", 0);
      }
    }
  }

  /** At event b the message took its snapshot with (u, s) in it; at event f its own send to (u, s) failed. */
  predicate FailedOwnSend(trace: Trace, b: nat, f: nat, op: nat, u: User, s: Socket)
  {
    && b < f < |trace|
    && trace[b].Begin? && trace[b].op == op && (trace[b].to.None? || trace[b].to.value == u)
    && Registered(After(trace[..b]).table, u, s)
    && trace[f] == SendFails(op, u, s)
  }

  predicate SnapshotAt(trace: Trace, b: nat, op: nat, u: User, s: Socket)
  {
    && b < |trace| && trace[b].Begin? && trace[b].op == op && (trace[b].to.None? || trace[b].to.value == u)
    && Registered(After(trace[..b]).table, u, s)
  }

  /** Every target was registered at the snapshot; every dead pair has its own failed send. */
  lemma {:induction false} DeadPairsFailed(trace: Trace, op: nat, u: User, s: Socket)
    requires op in After(trace).sending
    ensures (u, s) in After(trace).sending[op].targets ==> exists b: nat :: SnapshotAt(trace, b, op, u, s)
    ensures (u, s) in After(trace).sending[op].dead ==>
      (u, s) in After(trace).sending[op].targets && exists b: nat, f: nat :: FailedOwnSend(trace, b, f, op, u, s)
    decreases |trace|
  {
    var front, last := trace[..|trace| - 1], trace[|trace| - 1];
    if op in After(front).sending {
      DeadPairsFailed(front, op, u, s);
      if b: nat :| SnapshotAt(front, b, op, u, s) {
        assert front[..b] == trace[..b];
        assert SnapshotAt(trace, b, op, u, s);
        if last == SendFails(op, u, s) { assert FailedOwnSend(trace, b, |front|, op, u, s); }
      }
      if b: nat, f: nat :| FailedOwnSend(front, b, f, op, u, s) {
        assert front[..b] == trace[..b];
        assert FailedOwnSend(trace, b, f, op, u, s);
      }
    } else {
      if (u, s) in After(trace).sending[op].targets { assert SnapshotAt(trace, |front|, op, u, s); }
    }
  }

  /** Event k takes (u, s) out of the registry: a disconnect, or the prune of a message whose send to it failed. */
  predicate TakesOut(trace: Trace, k: nat, u: User, s: Socket)
  {
    && k < |trace|
    && (trace[k] == Disconnect(u, s)
        || (trace[k].Prune? && trace[k].op in After(trace[..k]).sending
            && (u, s) in After(trace[..k]).sending[trace[k].op].dead))
  }

  /** Event c registers (u, s): a connect whose accept goes through. */
  predicate Joins(trace: Trace, c: nat, u: User, s: Socket)
  {
    c < |trace| && trace[c] == Connect(u, s) && s !in After(trace[..c]).accepted
  }

  predicate StaysIn(trace: Trace, c: nat, u: User, s: Socket)
  {
    Joins(trace, c, u, s) && forall k | c < k < |trace| :: !TakesOut(trace, k, u, s)
  }

  lemma OneStep(trace: Trace, u: User, s: Socket)
    requires trace != []
    ensures var front := trace[..|trace| - 1];
      Registered(After(trace).table, u, s)
      <==> Joins(trace, |front|, u, s)
           || (Registered(After(front).table, u, s) && !TakesOut(trace, |front|, u, s))
  {
    var front, last := trace[..|trace| - 1], trace[|trace| - 1];
    assert trace[..|front|] == front;
    var st := After(front);
    if last.Prune? && last.op in st.sending {
      NeverAnEmptyUser(front);
      PruneRemovesExactlyTheDead(st.table, st.sending[last.op].dead, u, s);
    } else if last.Disconnect? {
      DroppedRegistration(st.table, last.u, last.s, u, s);
    }
  }

  lemma TakesOutOfPrefix(trace: Trace, k: nat, u: User, s: Socket)
    requires trace != [] && k < |trace| - 1
    ensures TakesOut(trace[..|trace| - 1], k, u, s) <==> TakesOut(trace, k, u, s)
    ensures Joins(trace[..|trace| - 1], k, u, s) <==> Joins(trace, k, u, s)
  {
    assert trace[..|trace| - 1][..k] == trace[..k];
  }

  lemma JoinsInRange(trace: Trace, u: User, s: Socket)
    ensures forall c: nat | Joins(trace, c, u, s) :: c < |trace|
  {
  }

  lemma NobodyAtFirst(trace: Trace, u: User, s: Socket)
    requires trace == []
    ensures !Registered(After(trace).table, u, s)
  {
  }

  /**
    Main result, over every interleaving: a socket is registered exactly when it
    connected and has since been neither disconnected nor pruned after its own
    failed send.
   */
  lemma {:induction false} RegisteredExactlyWhileConnected(trace: Trace, u: User, s: Socket)
    ensures Registered(After(trace).table, u, s) <==> exists c: nat :: StaysIn(trace, c, u, s)
    decreases |trace|
  {
    if trace == [] {
      NobodyAtFirst(trace, u, s);
    } else {
      hide After, Registered, TakesOut, Joins;
      var front := trace[..|trace| - 1];
      JoinsInRange(trace, u, s);
      JoinsInRange(front, u, s);
      OneStep(trace, u, s);
      RegisteredExactlyWhileConnected(front, u, s);
      forall k: nat | k < |front|
        ensures TakesOut(front, k, u, s) <==> TakesOut(trace, k, u, s)
        ensures Joins(front, k, u, s) <==> Joins(trace, k, u, s)
      {
        TakesOutOfPrefix(trace, k, u, s);
      }
      if Joins(trace, |front|, u, s) {
        assert StaysIn(trace, |front|, u, s);
      }
      if c: nat :| StaysIn(front, c, u, s) {
        assert !TakesOut(trace, |front|, u, s) ==> StaysIn(trace, c, u, s);
      }
      if c: nat :| StaysIn(trace, c, u, s) {
        if c < |front| { assert StaysIn(front, c, u, s); }
      }
    }
  }

  /** Every pair a prune removes was registered at that message's snapshot and failed its own send since. */
  lemma PruneOnlyTakesOutSnapshot(trace: Trace, k: nat, u: User, s: Socket)
    requires TakesOut(trace, k, u, s) && trace[k].Prune?
    ensures exists b: nat, f: nat :: f < k && FailedOwnSend(trace, b, f, trace[k].op, u, s)
  {
    var op := trace[k].op;
    DeadPairsFailed(trace[..k], op, u, s);
    var b: nat, f: nat :| FailedOwnSend(trace[..k], b, f, op, u, s);
    assert trace[..k][..b] == trace[..b];
    assert FailedOwnSend(trace, b, f, op, u, s);
  }

  /** From event b on the message op is in flight, up to event k. */
  predicate InFlight(trace: Trace, b: nat, k: nat, op: nat)
  {
    && b < k <= |trace|
    && trace[b].Begin? && trace[b].op == op && op !in After(trace[..b]).sending
    && forall i | b < i < k :: trace[i] != Prune(op)
  }

  lemma TargetsAreRegistered(t: Table, to: Option<User>, u: User, s: Socket)
    ensures (u, s) in Targets(t, to) <==> Registered(t, u, s) && (to.None? || to.value == u)
  {
  }

  /** What one event does to one message in flight. */
  lemma SendingStep(st: State, ev: Event, op: nat, u: User, s: Socket)
    ensures op in st.sending && ev != Prune(op) ==>
      && op in Next(st, ev).sending
      && Next(st, ev).sending[op].targets == st.sending[op].targets
      && ((u, s) in Next(st, ev).sending[op].dead <==>
            (u, s) in st.sending[op].dead || (ev == SendFails(op, u, s) && (u, s) in st.sending[op].targets))
    ensures op !in st.sending && ev.Begin? && ev.op == op ==>
      op in Next(st, ev).sending && Next(st, ev).sending[op] == Sending(Targets(st.table, ev.to), [])
  {
  }

  /** The snapshot stays as taken; the dead are its pairs whose send has failed. */
  lemma {:induction false} SendingInFlight(trace: Trace, b: nat, k: nat, op: nat, u: User, s: Socket)
    requires InFlight(trace, b, k, op)
    ensures op in After(trace[..k]).sending
    ensures After(trace[..k]).sending[op].targets == Targets(After(trace[..b]).table, trace[b].to)
    ensures (u, s) in After(trace[..k]).sending[op].dead <==>
      exists f: nat :: f < k && FailedOwnSend(trace, b, f, op, u, s)
    decreases k
  {
    hide Next, Registered;
    assert trace[..k][..k - 1] == trace[..k - 1];
    var st := After(trace[..k - 1]);
    SendingStep(st, trace[k - 1], op, u, s);
    TargetsAreRegistered(After(trace[..b]).table, trace[b].to, u, s);
    if k - 1 > b {
      SendingInFlight(trace, b, k - 1, op, u, s);
      if trace[k - 1] == SendFails(op, u, s) && (u, s) in st.sending[op].targets {
        assert FailedOwnSend(trace, b, k - 1, op, u, s);
      }
    }
  }

  /** A prune removes exactly the pairs of its message's snapshot whose own send has failed. */
  lemma PruneTakesOutExactly(trace: Trace, b: nat, k: nat, u: User, s: Socket)
    requires k < |trace| && trace[k].Prune? && InFlight(trace, b, k, trace[k].op)
    ensures TakesOut(trace, k, u, s) <==> exists f: nat :: f < k && FailedOwnSend(trace, b, f, trace[k].op, u, s)
  {
    SendingInFlight(trace, b, k, trace[k].op, u, s);
  }

  /** A socket that has joined stays accepted for good. */
  lemma {:induction false} AcceptedForGood(trace: Trace, c: nat, k: nat, u: User, s: Socket)
    requires Joins(trace, c, u, s) && c < k <= |trace|
    ensures s in After(trace[..k]).accepted
    decreases k
  {
    assert trace[..k][..k - 1] == trace[..k - 1];
    if c < k - 1 { AcceptedForGood(trace, c, k - 1, u, s); }
  }

  /** A prune spares every socket registered after its message's snapshot. */
  lemma PruneSparesLateSockets(trace: Trace, b: nat, k: nat, c: nat, u: User, s: Socket)
    requires k < |trace| && trace[k].Prune? && InFlight(trace, b, k, trace[k].op)
    requires Joins(trace, c, u, s) && b < c
    ensures !TakesOut(trace, k, u, s)
  {
    hide After, Registered, TakesOut;
    PruneTakesOutExactly(trace, b, k, u, s);
    if f: nat :| f < k && FailedOwnSend(trace, b, f, trace[k].op, u, s) {
      RegisteredExactlyWhileConnected(trace[..b], u, s);
      var d: nat :| StaysIn(trace[..b], d, u, s);
      assert trace[..b][..d] == trace[..d];
      AcceptedForGood(trace, d, c, u, s);
    }
  }
}
