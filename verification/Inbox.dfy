/**
  The notification inbox (app/notifications/crud/notification.py,
  app/notifications/api/endpoints/notifications.py): keyset pages in descending
  id order, chained by opaque cursors.
 */
module Inbox {
  import opened Common
  import opened CursorCodec

  datatype Notification = Notification(user: int, isRead: bool)

  /** The table, by id. */
  type Table = map<nat, Notification>

  /** The ids a listing may show. */
  function Visible(t: Table, user: int, unreadOnly: bool): set<nat>
  {
    set id | id in t && t[id].user == user && (unreadOnly ==> !t[id].isRead)
  }

  predicate Descending(s: seq<nat>) { forall i, j | 0 <= i < j < |s| :: s[i] > s[j] }

  lemma {:induction false} MaxExists(s: set<nat>)
    requires |s| > 0
    ensures exists m :: m in s && forall x | x in s :: x <= m
    decreases |s|
  {
    var x :| x in s;
    var rest := s - {x};
    assert s == rest + {x};
    if |rest| == 0 {
      assert x in s && forall y | y in s :: y <= x;
    } else {
      MaxExists(rest);
      var m :| m in rest && forall y | y in rest :: y <= m;
      var top := if x < m then m else x;
      assert top in s && forall y | y in s :: y <= top;
    }
  }

  /** ORDER BY id DESC. */
  ghost function Desc(s: set<nat>): (r: seq<nat>)
    ensures Descending(r)
    ensures forall x :: x in r <==> x in s
    ensures |r| == |s|
    decreases |s|
  {
    if s == {} then []
    else
      MaxExists(s);
      var m :| m in s && forall x | x in s :: x <= m;
      [m] + Desc(s - {m})
  }

  /** A descending listing is determined by its elements. */
  lemma {:induction false} DescendingIsUnique(a: seq<nat>, b: seq<nat>)
    requires Descending(a) && Descending(b) && forall x :: x in a <==> x in b
    ensures a == b
    decreases |a|
  {
    assert a != [] ==> a[0] in a;
    assert b != [] ==> b[0] in b;
    if a != [] {
      assert a[0] == b[0];
      forall x ensures x in a[1..] <==> x in b[1..] {
        assert x in a[1..] ==> x in a && x < a[0];
        assert x in b[1..] ==> x in b && x < b[0];
      }
      DescendingIsUnique(a[1..], b[1..]);
    }
  }

  /** The ids below the cursor. */
  function Below(s: set<nat>, cursor: Option<int>): set<nat>
  {
    set id | id in s && (cursor.None? || id < cursor.value)
  }

  /** `list_for_user_cursor`: the next size + 1 rows below the cursor. */
  ghost function Fetch(visible: set<nat>, cursor: Option<int>, size: nat): seq<nat>
  {
    var rows := Desc(Below(visible, cursor));
    if |rows| <= size + 1 then rows else rows[..size + 1]
  }

  datatype Page = Page(items: seq<nat>, next: Option<string>, hasMore: bool)

  /** `list_notifications`; None when the cursor does not decode. */
  ghost function List(visible: set<nat>, cursor: Option<string>, size: nat): Option<Page>
  {
    var at := if cursor.Some? && cursor.value != "" then DecodeCursor(cursor.value) else None;
    if cursor.Some? && cursor.value != "" && at.None? then None
    else
      var items := Fetch(visible, at, size);
      var hasMore := |items| > size;
      var page := if hasMore then items[..size] else items;
      Some(Page(page, if hasMore && page != [] then Some(EncodeCursor(page[|page| - 1])) else None, hasMore))
  }

  // ------------------------------------------------------------ the whole walk

  /** Following next_cursor: the k-th request sees the k-th table. */
  ghost function Walk(tables: seq<set<nat>>, cursor: Option<string>, size: nat): (r: (seq<nat>, bool))
    decreases |tables|
  {
    if tables == [] then ([], false)
    else
      match List(tables[0], cursor, size)
      case None => ([], false)
      case Some(page) =>
        if page.next.None? then (page.items, true)
        else
          var (rest, done) := Walk(tables[1..], page.next, size);
          (page.items + rest, done)
  }

  /** Whatever a later table has that the first had not lies above all of the first: ids only grow. */
  predicate NewOnesAbove(first: set<nat>, later: set<nat>)
  {
    forall x, y | x in first && y in later - first :: x < y
  }

  /** Cutting a descending listing after `size` rows leaves the listing below the last row shown. */
  lemma CutListing(s: set<nat>, size: nat)
    requires 0 < size < |s|
    ensures Desc(Below(s, Some(Desc(s)[size - 1]))) == Desc(s)[size..]
  {
    hide Desc;
    var all := Desc(s);
    var last := all[size - 1];
    assert last in all;
    forall x ensures x in all[size..] <==> x in Below(s, Some(last)) {
      if x in all[size..] {
        var i :| size <= i < |all| && all[i] == x;
        assert x in all;
      }
      if x in Below(s, Some(last)) {
        assert x in all;
        var i :| 0 <= i < |all| && all[i] == x;
        assert i >= size;
      }
    }
    DescendingIsUnique(Desc(Below(s, Some(last))), all[size..]);
  }

  function CursorText(cursor: Option<int>): Option<string>
  {
    if cursor.None? then None else Some(EncodeCursor(cursor.value))
  }

  /** One page: the first `size` rows of the listing, and a cursor at the last of them if more follow. */
  lemma PageAt(visible: set<nat>, cursor: Option<int>, size: nat)
    requires size >= 1
    ensures var rows := Desc(Below(visible, cursor));
      List(visible, CursorText(cursor), size)
      == Some(if |rows| > size then Page(rows[..size], Some(EncodeCursor(rows[size - 1])), true)
              else Page(rows, None, false))
  {
    hide Desc, DecodeCursor, EncodeCursor;
    if cursor.Some? { CursorRoundTrip(cursor.value); }
    var rows := Desc(Below(visible, cursor));
    var items := Fetch(visible, cursor, size);
    assert |rows| > size ==> items[..size] == rows[..size];
  }

  /** What a walk lists: descending, only rows of `from`, every row of `from` that stays in all tables. */
  ghost predicate Lists(out: seq<nat>, from: set<nat>, tables: seq<set<nat>>)
  {
    && Descending(out)
    && (forall x | x in out :: x in from)
    && (forall x | x in from && InAll(tables, x) :: x in out)
  }

  predicate InAll(tables: seq<set<nat>>, x: nat) { forall k | 0 <= k < |tables| :: x in tables[k] }

  lemma BelowTwice(s: set<nat>, cursor: Option<int>, last: nat)
    requires last in Below(s, cursor)
    ensures Below(Below(s, cursor), Some(last)) == Below(s, Some(last))
  {
  }

  /** Rows shown are used up: at most the others of `from` are left below the cursor. */
  lemma ShownRowsAreGone(from: set<nat>, page: set<nat>, size: nat, last: nat)
    requires page <= from && 1 <= size < |page| && last == Desc(page)[size - 1]
    ensures |Below(from, Some(last))| + size <= |from|
  {
    hide Desc;
    CutListing(page, size);
    var below, shown := Below(from, Some(last)), page - Below(page, Some(last));
    assert |Below(page, Some(last))| == |page| - size;
    assert shown + Below(page, Some(last)) == page;
    assert shown !! below && below + shown <= from;
    SubsetCount(below + shown, from);
  }

  lemma {:induction false} SubsetCount(a: set<nat>, b: set<nat>)
    requires a <= b
    ensures |a| <= |b|
    decreases |a|
  {
    if a != {} {
      var x :| x in a;
      SubsetCount(a - {x}, b - {x});
    }
  }

  /** One page less is enough for what is left, and at least one more page is there. */
  lemma PageCount(pages: nat, size: nat, rows: nat)
    requires size >= 1 && pages * size >= rows > size
    ensures pages >= 2 && (pages - 1) * size >= rows - size
  {
    assert (pages - 1) * size == pages * size - size;
    if pages <= 1 { MulMonotone(pages, 1, size); }
  }

  /** A page followed by what the rest of the walk lists below its last row. */
  lemma PageThenRest(
    from: set<nat>, rows: seq<nat>, size: nat, rest: seq<nat>, tables: seq<set<nat>>, cursor: Option<int>)
    requires 1 <= size <= |rows| && tables != [] && rows == Desc(Below(tables[0], cursor))
    requires forall x | x in rows :: x in Below(from, cursor)
    requires Lists(rest, Below(from, Some(rows[size - 1])), tables[1..])
    ensures Lists(rows[..size] + rest, Below(from, cursor), tables)
  {
    hide Desc;
    var last := rows[size - 1];
    var out := rows[..size] + rest;
    assert last in rows;
    forall x | x in rest ensures x < last && x in Below(from, cursor) {
      assert x in Below(from, Some(last)) && last in Below(from, cursor);
    }
    assert Descending(out) by {
      forall i, j | 0 <= i < j < |out| ensures out[i] > out[j] {
        if j >= size {
          assert out[j] == rest[j - size] && rest[j - size] in rest;
          if i < size { assert rows[i] >= last; }
        }
      }
    }
    forall x | x in out ensures x in Below(from, cursor) {
      if x in rows[..size] { assert x in rows; }
    }
    forall x | x in Below(from, cursor) && InAll(tables, x) ensures x in out {
      assert x in tables[0];
      assert x in rows;
      var i :| 0 <= i < |rows| && rows[i] == x;
      if i < size {
        assert out[i] == x;
      } else {
        assert InAll(tables[1..], x);
        assert x in Below(from, Some(last));
        assert x in rest;
      }
    }
  }

  lemma WholePage(from: set<nat>, rows: seq<nat>, tables: seq<set<nat>>, cursor: Option<int>)
    requires tables != [] && rows == Desc(Below(tables[0], cursor))
    requires forall x | x in rows :: x in Below(from, cursor)
    ensures Lists(rows, Below(from, cursor), tables)
  {
    hide Desc;
    forall x | x in Below(from, cursor) && InAll(tables, x) ensures x in rows {
      assert x in tables[0];
      assert x in Below(tables[0], cursor);
    }
  }

  /** From any cursor on: rows may vanish between requests, none appears below the cursor. */
  lemma {:induction false} WalkFrom(first: set<nat>, tables: seq<set<nat>>, cursor: Option<int>, size: nat)
    requires size >= 1 && |tables| * size >= |Below(first, cursor)| && tables != []
    requires forall k | 0 <= k < |tables| :: Below(tables[k], cursor) <= Below(first, cursor)
    ensures var (out, done) := Walk(tables, CursorText(cursor), size); done && Lists(out, Below(first, cursor), tables)
    decreases |tables|
  {
    hide Desc, EncodeCursor, List, Below, Lists;
    var rows := Desc(Below(tables[0], cursor));
    PageAt(tables[0], cursor, size);
    if |rows| <= size {
      WholePage(first, rows, tables, cursor);
    } else {
      var last := rows[size - 1];
      assert last in rows;
      BelowTwice(first, cursor, last);
      SubsetCount(Below(tables[0], cursor), Below(first, cursor));
      PageCount(|tables|, size, |Below(first, cursor)|);
      ShownRowsAreGone(Below(first, cursor), Below(tables[0], cursor), size, last);
      forall k | 0 <= k < |tables[1..]| ensures Below(tables[1..][k], Some(last)) <= Below(first, Some(last)) {
        BelowNarrows(first, tables[k + 1], cursor, last);
      }
      MorePages(|tables|, size, |Below(first, cursor)|, |Below(first, Some(last))|);
      WalkFrom(first, tables[1..], Some(last), size);
      PageThenRest(first, rows, size, Walk(tables[1..], CursorText(Some(last)), size).0, tables, cursor);
    }
  }

  lemma MorePages(pages: nat, size: nat, rows: nat, left: nat)
    requires size >= 1 && pages * size >= rows >= left + size && pages >= 1
    ensures (pages - 1) * size >= left
  {
    assert (pages - 1) * size == pages * size - size;
  }

  lemma BelowNarrows(first: set<nat>, t: set<nat>, cursor: Option<int>, last: nat)
    requires Below(t, cursor) <= Below(first, cursor) && last in Below(first, cursor)
    ensures Below(t, Some(last)) <= Below(first, Some(last))
  {
    forall x: nat | x in Below(t, Some(last)) ensures x in Below(first, Some(last)) {
      assert x in Below(t, cursor);
    }
  }

  /**
    Main result: while new rows only come in above the first table's and rows may
    vanish at any time, following next_cursor from the first page ends within
    ceil(rows / size) pages and lists, newest first and each at most once, only
    rows of the first table, among them every row that stays.
   */
  lemma WalkListsWhatStays(tables: seq<set<nat>>, size: nat)
    requires size >= 1 && tables != [] && |tables| * size >= |tables[0]|
    requires forall k | 0 <= k < |tables| :: NewOnesAbove(tables[0], tables[k])
    ensures var (out, done) := Walk(tables, None, size); done && Lists(out, tables[0], tables)
  {
    hide Desc, EncodeCursor, List, Below, Lists;
    var first := tables[0];
    var rows := Desc(first);
    BelowNothing(first);
    PageAt(first, None, size);
    if |first| <= size {
      WholePage(first, rows, tables, None);
    } else {
      var last := rows[size - 1];
      assert last in rows;
      PageCount(|tables|, size, |first|);
      ShownRowsAreGone(first, first, size, last);
      forall k | 0 <= k < |tables[1..]| ensures Below(tables[1..][k], Some(last)) <= Below(first, Some(last)) {
        GrowthIsAbove(first, tables[k + 1], last);
      }
      MorePages(|tables|, size, |first|, |Below(first, Some(last))|);
      WalkFrom(first, tables[1..], Some(last), size);
      PageThenRest(first, rows, size, Walk(tables[1..], CursorText(Some(last)), size).0, tables, None);
    }
  }

  lemma BelowNothing(s: set<nat>)
    ensures Below(s, None) == s
  {
  }

  /** Rows that arrive later lie above every cursor of the walk. */
  lemma GrowthIsAbove(first: set<nat>, later: set<nat>, last: nat)
    requires NewOnesAbove(first, later) && last in first
    ensures Below(later, Some(last)) <= Below(first, Some(last))
  {
    forall x: nat | x in Below(later, Some(last)) ensures x in Below(first, Some(last)) {
      if x !in first { assert x in later - first; }
    }
  }

  /** When no row vanishes, the pages concatenate to exactly the first table's rows, each once. */
  lemma WalkVisitsEveryRowOnce(tables: seq<set<nat>>, size: nat)
    requires size >= 1 && tables != [] && |tables| * size >= |tables[0]|
    requires forall k | 0 <= k < |tables| :: tables[0] <= tables[k] && NewOnesAbove(tables[0], tables[k])
    ensures Walk(tables, None, size) == (Desc(tables[0]), true)
  {
    hide Desc, Walk;
    WalkListsWhatStays(tables, size);
    var out := Walk(tables, None, size).0;
    forall x ensures x in out <==> x in tables[0] {
      if x in tables[0] { assert InAll(tables, x); }
    }
    DescendingIsUnique(out, Desc(tables[0]));
  }

  /** What one user sees in each of the notification tables. */
  function Views(tables: seq<Table>, user: int, unreadOnly: bool): (v: seq<set<nat>>)
    ensures |v| == |tables| && forall k | 0 <= k < |tables| :: v[k] == Visible(tables[k], user, unreadOnly)
  {
    seq(|tables|, k requires 0 <= k < |tables| => Visible(tables[k], user, unreadOnly))
  }

  /** Ids are handed out in increasing order: an id new to the table lies above all of the first table's. */
  predicate IdsGrow(first: Table, later: Table)
  {
    forall x, y | x in first && y in later && y !in first :: x < y
  }

  /** A later table shows a user nothing the first table held but did not show: rows keep their user, and stay read. */
  predicate NothingReappears(first: Table, later: Table, user: int, unreadOnly: bool)
  {
    forall y | y in first && y in Visible(later, user, unreadOnly) :: y in Visible(first, user, unreadOnly)
  }

  /** The row is the user's, and unread if only those are asked for. */
  predicate Wanted(n: Notification, user: int, unreadOnly: bool)
  {
    n.user == user && !(unreadOnly && n.isRead)
  }

  /**
    The same for the inbox of one user, while rows arrive, are deleted and are
    marked read: only wanted rows are listed, and every row that stays wanted is.
   */
  lemma InboxWalk(tables: seq<Table>, user: int, unreadOnly: bool, size: nat)
    requires size >= 1 && tables != [] && |tables| * size >= |Visible(tables[0], user, unreadOnly)|
    requires forall k | 0 <= k < |tables| ::
      IdsGrow(tables[0], tables[k]) && NothingReappears(tables[0], tables[k], user, unreadOnly)
    ensures var views := Views(tables, user, unreadOnly);
      var (out, done) := Walk(views, None, size);
      && done
      && Lists(out, Visible(tables[0], user, unreadOnly), views)
      && (forall id | id in out :: id in tables[0] && Wanted(tables[0][id], user, unreadOnly))
      && (forall id: nat | StaysWanted(tables, user, unreadOnly, id) :: id in out)
  {
    hide Walk;
    var views := Views(tables, user, unreadOnly);
    forall k | 0 <= k < |views| ensures NewOnesAbove(views[0], views[k]) {
      assert IdsGrow(tables[0], tables[k]) && NothingReappears(tables[0], tables[k], user, unreadOnly);
    }
    WalkListsWhatStays(views, size);
    forall id: nat | StaysWanted(tables, user, unreadOnly, id) ensures id in Walk(views, None, size).0 {
      assert id in views[0] && InAll(views, id);
    }
  }

  predicate StaysWanted(tables: seq<Table>, user: int, unreadOnly: bool, id: nat)
  {
    forall k | 0 <= k < |tables| :: id in tables[k] && Wanted(tables[k][id], user, unreadOnly)
  }
}
