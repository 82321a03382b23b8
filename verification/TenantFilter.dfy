/**
  The tenant rewrite of SQL statements (app/core/database.py:284-307, and the
  listener at 106-130): what a rewritten statement reads and writes, alone and
  over whole runs of several tenants.
 */
module TenantFilter {
  import opened Common

  const TENANT_COLUMN: string := "tenant_id"

  /** Column values by name; None is NULL. */
  type Row = map<string, Option<int>>

  /** Rows by the identity the database gave them. */
  type Table = map<nat, Row>

  type Database = map<string, Table>

  /** A conjunct of a WHERE clause; a custom one looks at the joined rows. */
  datatype Condition =
    | TenantIs(source: nat, tenant: int)
    | Custom(test: seq<Row> -> bool)

  /**
    A table in FROM, with the column keys its FROM element shows: None for an
    element without a columns attribute. An explicit JOIN contributes each of its
    tables, and its keys carry the table name (`users_tenant_id`).
   */
  datatype Source = Source(name: string, columns: Option<set<string>>)
  {
    predicate Scoped() { columns.Some? && TENANT_COLUMN in columns.value }
  }

  /** The joined rows a SELECT keeps, by their identities. */
  type Joined = imap<seq<nat>, seq<Row>>

  /** `finish` stands for projection, grouping, ordering and limits. */
  datatype Statement =
    | Select(froms: seq<Source>, where: seq<Condition>, finish: Joined -> seq<Row>)
    | Insert(into: Source, values: Row)
    | Update(target: Source, where: seq<Condition>, assign: Row -> Row)
    | Delete(target: Source, where: seq<Condition>)
    | Other

  // ------------------------------------------------------------- the rewrite

  /** The first source at or after k with a tenant column. */
  function FirstScoped(froms: seq<Source>, k: nat): (r: Option<nat>)
    requires k <= |froms|
    ensures r.Some? ==> k <= r.value < |froms| && froms[r.value].Scoped()
                        && forall i | k <= i < r.value :: !froms[i].Scoped()
    ensures r.None? ==> forall i | k <= i < |froms| :: !froms[i].Scoped()
    decreases |froms| - k
  {
    if k == |froms| then None
    else if froms[k].Scoped() then Some(k)
    else FirstScoped(froms, k + 1)
  }

  function Rewrite(tenant: Option<int>, s: Statement): Statement
  {
    if tenant.None? then s
    else
      match s
      case Select(froms, where, finish) =>
        var k := FirstScoped(froms, 0);
        if k.Some? then Select(froms, where + [TenantIs(k.value, tenant.value)], finish) else s
      case Insert(into, values) =>
        if into.Scoped() && TENANT_COLUMN !in values
        then Insert(into, values[TENANT_COLUMN := tenant]) else s
      case Update(target, where, assign) =>
        if target.Scoped() then Update(target, where + [TenantIs(0, tenant.value)], assign) else s
      case Delete(target, where) =>
        if target.Scoped() then Delete(target, where + [TenantIs(0, tenant.value)]) else s
      case Other => s
  }

  /** `apply_tenant_filter`: the loop stops at the first source with a tenant column. */
  method ApplyTenantFilter(tenant: Option<int>, s: Statement) returns (r: Statement)
    ensures r == Rewrite(tenant, s)
  {
    r := s;
    if tenant.None? { return; }
    match s
    case Select(froms, where, finish) =>
      var k: nat := 0;
      while k < |froms|
        invariant k <= |froms| && r == s
        invariant FirstScoped(froms, 0) == FirstScoped(froms, k)
      {
        if froms[k].columns.Some? && TENANT_COLUMN in froms[k].columns.value {
          r := Select(froms, where + [TenantIs(k, tenant.value)], finish);
          break;
        }
        k := k + 1;
      }
    case Insert(into, values) =>
      if into.columns.Some? && TENANT_COLUMN in into.columns.value && TENANT_COLUMN !in values {
        r := Insert(into, values[TENANT_COLUMN := tenant]);
      }
    case Update(target, where, assign) =>
      if target.columns.Some? && TENANT_COLUMN in target.columns.value {
        r := Update(target, where + [TenantIs(0, tenant.value)], assign);
      }
    case Delete(target, where) =>
      if target.columns.Some? && TENANT_COLUMN in target.columns.value {
        r := Delete(target, where + [TenantIs(0, tenant.value)]);
      }
    case Other =>
  }

  // ------------------------------------------------------------- the meaning

  predicate Owned(row: Row, t: int) { TENANT_COLUMN in row && row[TENANT_COLUMN] == Some(t) }

  function Rows(db: Database, name: string): Table { if name in db then db[name] else map[] }

  predicate Holds(c: Condition, rows: seq<Row>)
  {
    match c
    case TenantIs(i, t) => i < |rows| && Owned(rows[i], t)
    case Custom(test) => test(rows)
  }

  predicate AllHold(where: seq<Condition>, rows: seq<Row>)
  {
    forall k | 0 <= k < |where| :: Holds(where[k], rows)
  }

  /** One identity for each source. */
  predicate Combination(db: Database, froms: seq<Source>, ids: seq<nat>)
  {
    |ids| == |froms| && forall i | 0 <= i < |froms| :: ids[i] in Rows(db, froms[i].name)
  }

  function RowsOf(db: Database, froms: seq<Source>, ids: seq<nat>): (r: seq<Row>)
    requires Combination(db, froms, ids)
  {
    seq(|froms|, i requires 0 <= i < |froms| => Rows(db, froms[i].name)[ids[i]])
  }

  /** FROM and WHERE: the product of the sources, filtered. */
  ghost function Join(db: Database, froms: seq<Source>, where: seq<Condition>): Joined
  {
    imap ids | Combination(db, froms, ids) && AllHold(where, RowsOf(db, froms, ids)) :: RowsOf(db, froms, ids)
  }

  datatype Answer = Found(rows: seq<Row>) | Affected(count: nat) | DuplicateKey | Nothing

  function Hit(table: Table, where: seq<Condition>): set<nat>
  {
    set id | id in table && AllHold(where, [table[id]])
  }

  function Changed(table: Table, hit: set<nat>, assign: Row -> Row): Table
  {
    map id | id in table :: if id in hit then assign(table[id]) else table[id]
  }

  function Without(table: Table, hit: set<nat>): Table
  {
    map id | id in table && id !in hit :: table[id]
  }

  /** `key` is the identity the database would give an inserted row. */
  ghost function Exec(db: Database, s: Statement, key: nat): (Database, Answer)
  {
    match s
    case Select(froms, where, finish) => (db, Found(finish(Join(db, froms, where))))
    case Insert(into, values) =>
      var table := Rows(db, into.name);
      if key in table then (db, DuplicateKey) else (db[into.name := table[key := values]], Affected(1))
    case Update(target, where, assign) =>
      var table := Rows(db, target.name);
      var hit := Hit(table, where);
      (db[target.name := Changed(table, hit, assign)], Affected(|hit|))
    case Delete(target, where) =>
      var table := Rows(db, target.name);
      var hit := Hit(table, where);
      (db[target.name := Without(table, hit)], Affected(|hit|))
    case Other => (db, Nothing)
  }

  // ----------------------------------------------------- one tenant's database

  function Mine(table: Table, t: int): Table { map id | id in table && Owned(table[id], t) :: table[id] }

  /** Every tenant-scoped table cut down to the tenant's rows. */
  function Restrict(db: Database, scoped: set<string>, t: int): Database
  {
    map name | name in db :: if name in scoped then Mine(db[name], t) else db[name]
  }

  /** `scoped` names at least the tables that show a tenant column. */
  predicate Declared(scoped: set<string>, froms: seq<Source>)
  {
    forall i | 0 <= i < |froms| && froms[i].Scoped() :: froms[i].name in scoped
  }

  /** At most one table is tenant-scoped, and it shows its tenant column. */
  predicate OneShown(scoped: set<string>, froms: seq<Source>)
  {
    forall i: nat | i < |froms| && froms[i].name in scoped :: FirstScoped(froms, 0) == Some(i)
  }

  /** The WHERE clause the rewrite gives a SELECT. */
  function Filtered(froms: seq<Source>, where: seq<Condition>, t: int): seq<Condition>
  {
    var k := FirstScoped(froms, 0);
    if k.Some? then where + [TenantIs(k.value, t)] else where
  }

  lemma AllHoldAppend(where: seq<Condition>, c: Condition, rows: seq<Row>)
    ensures AllHold(where + [c], rows) <==> AllHold(where, rows) && Holds(c, rows)
  {
    var both := where + [c];
    assert both[|where|] == c;
    assert forall k | 0 <= k < |where| :: both[k] == where[k];
  }

  /** In the restricted database exactly the combinations of own rows are left, with the same rows. */
  lemma RestrictedCombination(db: Database, scoped: set<string>, froms: seq<Source>, t: int, ids: seq<nat>)
    ensures Combination(Restrict(db, scoped, t), froms, ids) <==>
            && Combination(db, froms, ids)
            && forall i | 0 <= i < |froms| && froms[i].name in scoped :: Owned(RowsOf(db, froms, ids)[i], t)
    ensures Combination(Restrict(db, scoped, t), froms, ids) ==>
            RowsOf(Restrict(db, scoped, t), froms, ids) == RowsOf(db, froms, ids)
  {
    var r := Restrict(db, scoped, t);
    if |ids| == |froms| {
      forall i | 0 <= i < |froms|
        ensures ids[i] in Rows(r, froms[i].name) <==>
                && ids[i] in Rows(db, froms[i].name)
                && (froms[i].name in scoped ==> Owned(Rows(db, froms[i].name)[ids[i]], t))
        ensures ids[i] in Rows(r, froms[i].name) ==>
                Rows(r, froms[i].name)[ids[i]] == Rows(db, froms[i].name)[ids[i]]
      {
      }
      if Combination(db, froms, ids) {
        assert forall i | 0 <= i < |froms| :: RowsOf(db, froms, ids)[i] == Rows(db, froms[i].name)[ids[i]];
      }
    }
  }

  /** With one scoped table, in sight, the filtered product is the product over the tenant's rows. */
  lemma FilteredJoin(db: Database, scoped: set<string>, froms: seq<Source>, where: seq<Condition>, t: int)
    requires Declared(scoped, froms) && OneShown(scoped, froms)
    ensures Join(db, froms, Filtered(froms, where, t)) == Join(Restrict(db, scoped, t), froms, where)
  {
    hide Restrict;
    var r := Restrict(db, scoped, t);
    var k := FirstScoped(froms, 0);
    forall ids: seq<nat>
      ensures ids in Join(db, froms, Filtered(froms, where, t)) <==> ids in Join(r, froms, where)
      ensures ids in Join(r, froms, where) ==> RowsOf(r, froms, ids) == RowsOf(db, froms, ids)
    {
      RestrictedCombination(db, scoped, froms, t, ids);
      if Combination(db, froms, ids) && k.Some? {
        AllHoldAppend(where, TenantIs(k.value, t), RowsOf(db, froms, ids));
      }
    }
  }

  /** Main result on one SELECT: rewritten, it answers as the original on the tenant's own database. */
  lemma SelectSeesOnlyTheTenant(db: Database, scoped: set<string>, s: Statement, t: int, key: nat)
    requires s.Select? && Declared(scoped, s.froms) && OneShown(scoped, s.froms)
    ensures Exec(db, Rewrite(Some(t), s), key).1 == Exec(Restrict(db, scoped, t), s, key).1
  {
    FilteredJoin(db, scoped, s.froms, s.where, t);
  }

  /** Every table holds one row of the tenant and one of another tenant. */
  function TwoRows(t: int): Table
  {
    map[0 := map[TENANT_COLUMN := Some(t)], 1 := map[TENANT_COLUMN := Some(t + 1)]]
  }

  function Everywhere(froms: seq<Source>, table: Table): Database
  {
    map i | 0 <= i < |froms| :: froms[i].name := table
  }

  /** A scoped table the rewrite does not filter leaks. */
  lemma HiddenSourceLeaks(scoped: set<string>, froms: seq<Source>, t: int)
    requires Declared(scoped, froms) && !OneShown(scoped, froms)
    ensures var db := Everywhere(froms, TwoRows(t));
      Join(db, froms, Filtered(froms, [], t)) != Join(Restrict(db, scoped, t), froms, [])
  {
    hide Everywhere, Restrict;
    var db := Everywhere(froms, TwoRows(t));
    var first := FirstScoped(froms, 0);
    var j: nat :| j < |froms| && froms[j].name in scoped && first != Some(j);
    var ids := seq(|froms|, i => if i == j then 1 else 0);
    LeakingCombination(froms, t, j, ids);
    var rows := RowsOf(db, froms, ids);
    if first.Some? { AllHoldAppend([], TenantIs(first.value, t), rows); }
    assert ids in Join(db, froms, Filtered(froms, [], t));
    RestrictedCombination(db, scoped, froms, t, ids);
    assert ids !in Join(Restrict(db, scoped, t), froms, []);
  }

  /** No table of an explicit JOIN shows its tenant column: the statement is left as it is, and leaks. */
  lemma ExplicitJoinIsUnfiltered(scoped: set<string>, s: Statement, j: nat, t: int)
    requires s.Select? && (forall i | 0 <= i < |s.froms| :: !s.froms[i].Scoped())
    requires j < |s.froms| && s.froms[j].name in scoped
    ensures Rewrite(Some(t), s) == s
    ensures var db := Everywhere(s.froms, TwoRows(t));
      Join(db, s.froms, []) != Join(Restrict(db, scoped, t), s.froms, [])
  {
    HiddenSourceLeaks(scoped, s.froms, t);
  }

  lemma LeakingCombination(froms: seq<Source>, t: int, j: nat, ids: seq<nat>)
    requires j < |froms| == |ids|
    requires forall i | 0 <= i < |froms| :: ids[i] == if i == j then 1 else 0
    ensures var db := Everywhere(froms, TwoRows(t));
      && Combination(db, froms, ids)
      && forall i | 0 <= i < |froms| :: Owned(RowsOf(db, froms, ids)[i], t) <==> i != j
  {
    var db := Everywhere(froms, TwoRows(t));
    forall i | 0 <= i < |froms| ensures Rows(db, froms[i].name) == TwoRows(t) {
      assert froms[i].name in db;
    }
  }

  /**
    The rewrite isolates the products over a FROM list, for all databases and
    conditions, exactly when at most one table is scoped and it is in sight.
   */
  lemma RewriteIsolatesExactlyOneShown(scoped: set<string>, froms: seq<Source>, t: int)
    requires Declared(scoped, froms)
    ensures (forall db: Database, where: seq<Condition> ::
               Join(db, froms, Filtered(froms, where, t)) == Join(Restrict(db, scoped, t), froms, where))
            <==> OneShown(scoped, froms)
  {
    if OneShown(scoped, froms) {
      forall db: Database, where: seq<Condition>
        ensures Join(db, froms, Filtered(froms, where, t)) == Join(Restrict(db, scoped, t), froms, where)
      {
        FilteredJoin(db, scoped, froms, where, t);
      }
    } else {
      HiddenSourceLeaks(scoped, froms, t);
    }
  }

  // -------------------------------------------------- runs of several tenants

  /** A statement issued under a tenant context, with the identity a new row would get. */
  datatype Call = Call(tenant: int, s: Statement, key: nat)

  /** A written table shows its tenant column exactly when it is scoped. */
  predicate TargetFits(scoped: set<string>, s: Statement)
  {
    match s
    case Insert(into, _) => into.Scoped() <==> into.name in scoped
    case Update(target, _, _) => target.Scoped() <==> target.name in scoped
    case Delete(target, _) => target.Scoped() <==> target.name in scoped
    case _ => true
  }

  /** ... and a read has at most one scoped table, in sight. */
  predicate Fits(scoped: set<string>, s: Statement)
  {
    TargetFits(scoped, s) && (s.Select? ==> Declared(scoped, s.froms) && OneShown(scoped, s.froms))
  }

  ghost function Issue(db: Database, c: Call): (Database, Answer)
  {
    Exec(db, Rewrite(Some(c.tenant), c.s), c.key)
  }

  /** Nothing another tenant has in a scoped table is changed or lost. */
  predicate ForeignRowsKept(scoped: set<string>, t: int, before: Database, after: Database)
  {
    forall name, id | name in scoped && id in Rows(before, name) && !Owned(Rows(before, name)[id], t) ::
      id in Rows(after, name) && Rows(after, name)[id] == Rows(before, name)[id]
  }

  /** The rewritten UPDATE or DELETE of a scoped table hits own rows only. */
  lemma HitsAreOwned(table: Table, where: seq<Condition>, t: int)
    ensures Hit(table, where + [TenantIs(0, t)]) == Hit(Mine(table, t), where)
  {
    forall id | id in table
      ensures id in Hit(table, where + [TenantIs(0, t)]) <==> id in Hit(Mine(table, t), where)
    {
      AllHoldAppend(where, TenantIs(0, t), [table[id]]);
    }
  }

  lemma CallKeepsForeignRows(scoped: set<string>, db: Database, c: Call)
    requires TargetFits(scoped, c.s)
    ensures ForeignRowsKept(scoped, c.tenant, db, Issue(db, c).0)
  {
    hide AllHold;
    if (c.s.Update? || c.s.Delete?) && c.s.target.Scoped() {
      HitsAreOwned(Rows(db, c.s.target.name), c.s.where, c.tenant);
    }
  }

  // ------------------------------------------------- what a rewritten write does

  /** Without a tenant in context nothing is rewritten. */
  lemma NoTenantNoRewrite(s: Statement)
    ensures Rewrite(None, s) == s
  {
  }

  /**
    An insert is stamped with the caller's tenant exactly where the table shows a
    tenant column and the statement gives none; every other column is as given.
   */
  lemma InsertIsStamped(db: Database, c: Call)
    requires c.s.Insert? && c.key !in Rows(db, c.s.into.name)
    ensures var (n, answer) := Issue(db, c);
      var table := Rows(n, c.s.into.name);
      && answer == Affected(1)
      && c.key in table
      && (if c.s.into.columns.Some? && TENANT_COLUMN in c.s.into.columns.value && TENANT_COLUMN !in c.s.values
          then Owned(table[c.key], c.tenant) && SameElsewhere(table[c.key], c.s.values)
          else table[c.key] == c.s.values)
      && (forall id | id in Rows(db, c.s.into.name) :: id in table && table[id] == Rows(db, c.s.into.name)[id])
      && (forall id | id in table && id != c.key :: id in Rows(db, c.s.into.name))
      && (forall name: string | name != c.s.into.name :: Rows(n, name) == Rows(db, name))
  {
  }

  predicate SameElsewhere(row: Row, values: Row)
  {
    && (forall col | col in values :: col in row && row[col] == values[col])
    && (forall col | col in row && col != TENANT_COLUMN :: col in values)
  }

  /** The rows an UPDATE or DELETE is meant for: its own condition, and the caller's where the table is scoped. */
  predicate Meant(c: Call, row: Row)
    requires c.s.Update? || c.s.Delete?
  {
    AllHold(c.s.where, [row])
    && (c.s.target.columns.Some? && TENANT_COLUMN in c.s.target.columns.value ==> Owned(row, c.tenant))
  }

  function MeantRows(table: Table, c: Call): set<nat>
    requires c.s.Update? || c.s.Delete?
  {
    set id | id in table && Meant(c, table[id])
  }

  lemma HitsAreTheMeant(db: Database, c: Call, id: nat)
    requires (c.s.Update? || c.s.Delete?) && id in Rows(db, c.s.target.name)
    ensures id in Hit(Rows(db, c.s.target.name), Rewrite(Some(c.tenant), c.s).where)
        <==> Meant(c, Rows(db, c.s.target.name)[id])
  {
    hide AllHold;
    AllHoldAppend(c.s.where, TenantIs(0, c.tenant), [Rows(db, c.s.target.name)[id]]);
  }

  /** An update assigns exactly the rows it is meant for, a delete removes exactly those; no other row changes. */
  lemma WritesHitExactly(db: Database, c: Call, id: nat)
    requires (c.s.Update? || c.s.Delete?) && id in Rows(db, c.s.target.name)
    ensures var row, after := Rows(db, c.s.target.name)[id], Rows(Issue(db, c).0, c.s.target.name);
      && (c.s.Update? ==> id in after && after[id] == if Meant(c, row) then c.s.assign(row) else row)
      && (c.s.Delete? ==> (id in after <==> !Meant(c, row)) && (id in after ==> after[id] == row))
  {
    hide AllHold, Hit, Meant;
    HitsAreTheMeant(db, c, id);
  }

  /** ... no row or table appears or changes beside them, and the answer counts them. */
  lemma WritesAddNothing(db: Database, c: Call)
    requires c.s.Update? || c.s.Delete?
    ensures Issue(db, c).1 == Affected(|MeantRows(Rows(db, c.s.target.name), c)|)
    ensures forall id | id in Rows(Issue(db, c).0, c.s.target.name) :: id in Rows(db, c.s.target.name)
    ensures forall name: string | name != c.s.target.name :: Rows(Issue(db, c).0, name) == Rows(db, name)
  {
    hide AllHold, Meant;
    var table := Rows(db, c.s.target.name);
    var hit := Hit(table, Rewrite(Some(c.tenant), c.s).where);
    forall id | id in table ensures id in hit <==> Meant(c, table[id]) { HitsAreTheMeant(db, c, id); }
    assert hit == MeantRows(table, c);
  }

  // ------------------------------------------------------ what a tenant can see

  /** Two databases look alike to the tenant: same own rows, same unscoped tables. */
  ghost predicate Alike(scoped: set<string>, t: int, a: Database, b: Database)
  {
    forall name: string :: SameView(scoped, t, a, b, name)
  }

  predicate SameView(scoped: set<string>, t: int, a: Database, b: Database, name: string)
  {
    if name in scoped then Mine(Rows(a, name), t) == Mine(Rows(b, name), t) else Rows(a, name) == Rows(b, name)
  }

  /** The database never hands out an identity in use. */
  predicate FreshKey(db: Database, c: Call)
  {
    c.s.Insert? ==> c.key !in Rows(db, c.s.into.name)
  }

  lemma AlikeJoins(scoped: set<string>, t: int, a: Database, b: Database, froms: seq<Source>, where: seq<Condition>)
    requires Alike(scoped, t, a, b)
    ensures Join(Restrict(a, scoped, t), froms, where) == Join(Restrict(b, scoped, t), froms, where)
  {
    var ra, rb := Restrict(a, scoped, t), Restrict(b, scoped, t);
    forall name: string ensures Rows(ra, name) == Rows(rb, name) {
      assert SameView(scoped, t, a, b, name);
    }
    forall ids: seq<nat>
      ensures Combination(ra, froms, ids) <==> Combination(rb, froms, ids)
      ensures Combination(ra, froms, ids) ==> RowsOf(ra, froms, ids) == RowsOf(rb, froms, ids)
    {
    }
  }

  /** Tables that look alike are hit alike. */
  lemma AlikeHits(scoped: set<string>, t: int, a: Database, b: Database, target: Source, where: seq<Condition>)
    requires Alike(scoped, t, a, b) && (target.Scoped() <==> target.name in scoped)
    ensures var w := if target.Scoped() then where + [TenantIs(0, t)] else where;
      Hit(Rows(a, target.name), w) == Hit(Rows(b, target.name), w)
    ensures target.Scoped() ==>
      Hit(Rows(a, target.name), where + [TenantIs(0, t)]) <= Mine(Rows(a, target.name), t).Keys
  {
    assert SameView(scoped, t, a, b, target.name);
    HitsAreOwned(Rows(a, target.name), where, t);
    HitsAreOwned(Rows(b, target.name), where, t);
  }

  /** Writes to own rows keep own rows alike. */
  lemma OwnWritesAlike(a: Table, b: Table, t: int, hit: set<nat>, assign: Row -> Row)
    requires Mine(a, t) == Mine(b, t) && hit <= Mine(a, t).Keys
    ensures Mine(Changed(a, hit, assign), t) == Mine(Changed(b, hit, assign), t)
    ensures Mine(Without(a, hit), t) == Mine(Without(b, hit), t)
  {
    forall id: nat
      ensures id in a && Owned(a[id], t) <==> id in b && Owned(b[id], t)
      ensures id in a && Owned(a[id], t) ==> a[id] == b[id]
    {
      assert id in Mine(a, t) <==> id in Mine(b, t);
    }
  }

  lemma OwnInsertAlike(a: Table, b: Table, t: int, key: nat, row: Row)
    requires Mine(a, t) == Mine(b, t) && key !in a && key !in b
    ensures Mine(a[key := row], t) == Mine(b[key := row], t)
  {
    forall id: nat
      ensures id in a && Owned(a[id], t) <==> id in b && Owned(b[id], t)
      ensures id in a && Owned(a[id], t) ==> a[id] == b[id]
    {
      assert id in Mine(a, t) <==> id in Mine(b, t);
    }
  }

  lemma AlikeReplaced(scoped: set<string>, t: int, a: Database, b: Database, name: string, x: Table, y: Table)
    requires Alike(scoped, t, a, b)
    requires if name in scoped then Mine(x, t) == Mine(y, t) else x == y
    ensures Alike(scoped, t, a[name := x], b[name := y])
  {
    hide Mine;
    var a', b' := a[name := x], b[name := y];
    forall n: string ensures SameView(scoped, t, a', b', n) {
      assert SameView(scoped, t, a, b, n);
    }
  }

  /** Step consistency: to alike databases the tenant's call answers alike and leaves them alike. */
  lemma CallIsConsistent(scoped: set<string>, a: Database, b: Database, c: Call)
    requires Fits(scoped, c.s) && Alike(scoped, c.tenant, a, b) && FreshKey(a, c) && FreshKey(b, c)
    ensures Issue(a, c).1 == Issue(b, c).1
    ensures Alike(scoped, c.tenant, Issue(a, c).0, Issue(b, c).0)
  {
    hide Join, Hit, Mine, Alike, Changed, Without;
    var t := c.tenant;
    match c.s
    case Select(froms, where, finish) =>
      FilteredJoin(a, scoped, froms, where, t);
      FilteredJoin(b, scoped, froms, where, t);
      AlikeJoins(scoped, t, a, b, froms, where);
    case Insert(into, values) =>
      var x, y, row := Rows(a, into.name), Rows(b, into.name), Rewrite(Some(t), c.s).values;
      AlikeAt(scoped, t, a, b, into.name);
      if into.Scoped() { OwnInsertAlike(x, y, t, c.key, row); }
      AlikeReplaced(scoped, t, a, b, into.name, x[c.key := row], y[c.key := row]);
    case Update(target, where, assign) =>
      var x, y, w := Rows(a, target.name), Rows(b, target.name), Rewrite(Some(t), c.s).where;
      AlikeHits(scoped, t, a, b, target, where);
      AlikeAt(scoped, t, a, b, target.name);
      if target.Scoped() { OwnWritesAlike(x, y, t, Hit(x, w), assign); }
      AlikeReplaced(scoped, t, a, b, target.name, Changed(x, Hit(x, w), assign), Changed(y, Hit(y, w), assign));
    case Delete(target, where) =>
      var x, y, w := Rows(a, target.name), Rows(b, target.name), Rewrite(Some(t), c.s).where;
      AlikeHits(scoped, t, a, b, target, where);
      AlikeAt(scoped, t, a, b, target.name);
      if target.Scoped() { OwnWritesAlike(x, y, t, Hit(x, w), (row: Row) => row); }
      AlikeReplaced(scoped, t, a, b, target.name, Without(x, Hit(x, w)), Without(y, Hit(y, w)));
    case Other =>
  }

  lemma AlikeAt(scoped: set<string>, t: int, a: Database, b: Database, name: string)
    requires Alike(scoped, t, a, b)
    ensures SameView(scoped, t, a, b, name)
  {
  }

  /** A call of another tenant that writes only scoped tables and hands no row to t. */
  ghost predicate Confined(scoped: set<string>, t: int, c: Call)
  {
    && TargetFits(scoped, c.s)
    && c.tenant != t
    && match c.s
       case Insert(into, values) => into.Scoped() && !Owned(values, t)
       case Update(target, _, assign) =>
         target.Scoped() && forall row: Row | Owned(row, c.tenant) :: !Owned(assign(row), t)
       case Delete(target, _) => target.Scoped()
       case _ => true
  }

  lemma ForeignWritesInvisible(table: Table, t: int, u: int, hit: set<nat>, assign: Row -> Row)
    requires t != u && hit <= Mine(table, u).Keys
    requires forall row: Row | Owned(row, u) :: !Owned(assign(row), t)
    ensures Mine(Changed(table, hit, assign), t) == Mine(table, t)
    ensures Mine(Without(table, hit), t) == Mine(table, t)
  {
    forall id | id in hit ensures id in table && Owned(table[id], u) && !Owned(table[id], t) {
      assert id in Mine(table, u);
    }
  }

  lemma ReplacedUnseen(scoped: set<string>, t: int, db: Database, name: string, y: Table)
    requires name in scoped && Mine(y, t) == Mine(Rows(db, name), t)
    ensures Alike(scoped, t, db, db[name := y])
  {
    hide Mine;
    var after := db[name := y];
    forall n: string ensures SameView(scoped, t, db, after, n) {
    }
  }

  /** Local respect: such a call is invisible to t. */
  lemma ConfinedCallIsInvisible(scoped: set<string>, t: int, db: Database, c: Call)
    requires Confined(scoped, t, c)
    ensures Alike(scoped, t, db, Issue(db, c).0)
  {
    hide Join, Hit, Alike, Changed, Without, Mine;
    AlikeItself(scoped, t, db);
    match c.s
    case Select(_, _, _) =>
    case Insert(into, values) =>
      var table, row := Rows(db, into.name), Rewrite(Some(c.tenant), c.s).values;
      if c.key !in table {
        UnownedInsert(table, t, c.key, row);
        ReplacedUnseen(scoped, t, db, into.name, table[c.key := row]);
      }
    case Update(target, where, assign) =>
      var table := Rows(db, target.name);
      var hit := Hit(table, where + [TenantIs(0, c.tenant)]);
      HitsAreMine(table, where, c.tenant);
      ForeignWritesInvisible(table, t, c.tenant, hit, assign);
      ReplacedUnseen(scoped, t, db, target.name, Changed(table, hit, assign));
    case Delete(target, where) =>
      var table := Rows(db, target.name);
      var hit := Hit(table, where + [TenantIs(0, c.tenant)]);
      HitsAreMine(table, where, c.tenant);
      ForeignWritesInvisible(table, t, c.tenant, hit, (row: Row) => row);
      ReplacedUnseen(scoped, t, db, target.name, Without(table, hit));
    case Other =>
  }

  lemma HitsAreMine(table: Table, where: seq<Condition>, u: int)
    ensures Hit(table, where + [TenantIs(0, u)]) <= Mine(table, u).Keys
  {
    hide AllHold;
    HitsAreOwned(table, where, u);
  }

  lemma UnownedInsert(table: Table, t: int, key: nat, row: Row)
    requires key !in table && !Owned(row, t)
    ensures Mine(table[key := row], t) == Mine(table, t)
  {
  }

  lemma AlikeItself(scoped: set<string>, t: int, db: Database)
    ensures Alike(scoped, t, db, db)
  {
  }

  lemma AlikeTransitive(scoped: set<string>, t: int, a: Database, b: Database, c: Database)
    requires Alike(scoped, t, a, b) && Alike(scoped, t, a, c)
    ensures Alike(scoped, t, b, c)
  {
    hide Mine;
    forall n: string ensures SameView(scoped, t, b, c, n) {
      assert SameView(scoped, t, a, b, n) && SameView(scoped, t, a, c, n);
    }
  }

  /** What tenant t is answered over a run. */
  ghost function AnswersTo(t: int, db: Database, calls: seq<Call>): seq<Answer>
    decreases |calls|
  {
    if calls == [] then []
    else
      var (next, answer) := Issue(db, calls[0]);
      (if calls[0].tenant == t then [answer] else []) + AnswersTo(t, next, calls[1..])
  }

  ghost function After(db: Database, calls: seq<Call>): Database
    decreases |calls|
  {
    if calls == [] then db else After(Issue(db, calls[0]).0, calls[1..])
  }

  /** The run with everybody else's calls struck out. */
  function Purge(t: int, calls: seq<Call>): seq<Call>
    decreases |calls|
  {
    if calls == [] then [] else (if calls[0].tenant == t then [calls[0]] else []) + Purge(t, calls[1..])
  }

  ghost predicate FreshKeys(db: Database, calls: seq<Call>)
    decreases |calls|
  {
    calls == [] || (FreshKey(db, calls[0]) && FreshKeys(Issue(db, calls[0]).0, calls[1..]))
  }

  ghost predicate Separated(scoped: set<string>, t: int, calls: seq<Call>)
  {
    forall k | 0 <= k < |calls| ::
      if calls[k].tenant == t then Fits(scoped, calls[k].s) else Confined(scoped, t, calls[k])
  }

  /**
    Main result, over two runs: t is answered, statement by statement, as if
    the other tenants had neither data nor calls.
   */
  lemma {:induction false} NonInterference(scoped: set<string>, t: int, a: Database, b: Database, calls: seq<Call>)
    requires Alike(scoped, t, a, b) && Separated(scoped, t, calls)
    requires FreshKeys(a, calls) && FreshKeys(b, Purge(t, calls))
    ensures AnswersTo(t, a, calls) == AnswersTo(t, b, Purge(t, calls))
    ensures Alike(scoped, t, After(a, calls), After(b, Purge(t, calls)))
    decreases |calls|
  {
    hide Issue, Alike, Fits, Confined, FreshKey;
    if calls != [] {
      var c, rest := calls[0], calls[1..];
      var next := Issue(a, c).0;
      if c.tenant == t {
        assert Purge(t, calls)[0] == c && Purge(t, calls)[1..] == Purge(t, rest);
        CallIsConsistent(scoped, a, b, c);
        NonInterference(scoped, t, next, Issue(b, c).0, rest);
      } else {
        assert Purge(t, calls) == Purge(t, rest);
        ConfinedCallIsInvisible(scoped, t, a, c);
        AlikeTransitive(scoped, t, a, next, b);
        NonInterference(scoped, t, next, b, rest);
      }
    }
  }

  /** Over every run, a row of a scoped table that belongs to none of the callers is still there, unchanged. */
  lemma {:induction false} RunKeepsForeignRows(
    scoped: set<string>, db: Database, calls: seq<Call>, name: string, id: nat)
    requires forall k | 0 <= k < |calls| :: TargetFits(scoped, calls[k].s)
    requires name in scoped && id in Rows(db, name)
    requires forall k | 0 <= k < |calls| :: !Owned(Rows(db, name)[id], calls[k].tenant)
    ensures id in Rows(After(db, calls), name) && Rows(After(db, calls), name)[id] == Rows(db, name)[id]
    decreases |calls|
  {
    hide Issue, TargetFits, Rows, Owned;
    if calls != [] {
      CallKeepsForeignRows(scoped, db, calls[0]);
      RunKeepsForeignRows(scoped, Issue(db, calls[0]).0, calls[1..], name, id);
    }
  }
}
