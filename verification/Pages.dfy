/**
 Listing files page by page. A cursor is the creation time and id of the last file seen; the
 next page starts strictly below it in the listing order.
 */
module Pages {
  import opened Prelude
  import opened Lexicographic

  const MAX_LIST_PAGE_SIZE: nat := 200

  /** What orders a file in the listing. Neither part changes while the file exists. */
  datatype Key = Key(createdAt: string, id: string)

  predicate Above(a: Key, b: Key) {
    Less(b.createdAt, a.createdAt) || (a.createdAt == b.createdAt && Less(b.id, a.id))
  }

  lemma AboveTransitive(a: Key, b: Key, c: Key)
    requires Above(a, b) && Above(b, c)
    ensures Above(a, c)
  {
    if Less(b.createdAt, a.createdAt) && Less(c.createdAt, b.createdAt) {
      LessTransitive(c.createdAt, b.createdAt, a.createdAt);
    } else if a.createdAt == b.createdAt == c.createdAt {
      LessTransitive(c.id, b.id, a.id);
    }
  }

  lemma AboveStrict(a: Key, b: Key)
    ensures !(Above(a, b) && Above(b, a))
    ensures a == b || Above(a, b) || Above(b, a)
  {
    if Above(a, b) && Above(b, a) {
      AboveTransitive(a, b, a);
      LessIrreflexive(a.createdAt);
      LessIrreflexive(a.id);
    }
    LessTotal(a.createdAt, b.createdAt);
    LessTotal(a.id, b.id);
  }

  // ------------------------------------------------------- the ordered query

  ghost function Top(s: set<Key>): (t: Key)
    requires s != {}
    ensures t in s && forall k | k in s && k != t :: Above(t, k)
    decreases |s|
  {
    var k :| k in s;
    if s == {k} then k else
      assert s - {k} != {};
      var t := Top(s - {k});
      AboveStrict(k, t);
      if Above(k, t) then
        assert forall j | j in s && j != k :: Above(k, j) by {
          forall j | j in s && j != k && j != t ensures Above(k, j) { AboveTransitive(k, t, j); }
        }
        k
      else t
  }

  /** All keys of a table, newest first: what listing without paging returns. */
  ghost function Descending(s: set<Key>): (r: seq<Key>)
    ensures |r| == |s|
    ensures forall k :: k in r <==> k in s
    decreases |s|
  {
    if s == {} then [] else
      var t := Top(s);
      var rest := Descending(s - {t});
      assert forall k :: k in [t] + rest <==> k == t || k in rest;
      [t] + rest
  }

  lemma {:induction false} DescendingDown(s: set<Key>)
    ensures StrictlyDown(Descending(s))
    decreases |s|
  {
    if s != {} {
      DescendingDown(s - {Top(s)});
      var r := Descending(s);
      forall j | 0 < j < |r| ensures Above(r[0], r[j]) {
        assert r[j] in Descending(s - {Top(s)});
      }
    }
  }

  predicate StrictlyDown(r: seq<Key>) {
    forall i, j | 0 <= i < j < |r| :: Above(r[i], r[j])
  }

  lemma FirstIsMember(q: seq<Key>)
    ensures q == [] || q[0] in q
  {
  }

  lemma {:induction false} DownIsUnique(r: seq<Key>, q: seq<Key>)
    requires StrictlyDown(r) && StrictlyDown(q)
    requires forall k :: k in r <==> k in q
    ensures r == q
    decreases |r|
  {
    FirstIsMember(q);
    if r != [] {
      assert r[0] in q;
      var i :| 0 <= i < |q| && q[i] == r[0];
      assert q[0] in r;
      var j :| 0 <= j < |r| && r[j] == q[0];
      if i > 0 {
        AboveStrict(q[0], r[0]);
      }
      assert i == 0;
      forall k ensures k in r[1..] <==> k in q[1..] {
        TailMembers(r, k);
        TailMembers(q, k);
      }
      DownIsUnique(r[1..], q[1..]);
    }
  }

  lemma TailMembers(r: seq<Key>, k: Key)
    requires StrictlyDown(r) && r != []
    ensures k in r[1..] <==> k in r && k != r[0]
  {
    if k in r[1..] {
      var i :| 0 < i < |r| && r[i] == k;
      AboveStrict(r[0], k);
    }
  }

  function Below(live: set<Key>, cursor: Option<Key>): set<Key> {
    set k | k in live && (cursor.None? || Above(cursor.value, k))
  }

  // ----------------------------------------------------------------- one page

  predicate Hex(c: char) {
    '0' <= c <= '9' || 'a' <= c <= 'f'
  }

  /** What a cursor must look like to be taken back. */
  predicate GoodCursor(k: Key) {
    && 0 < |k.createdAt| <= 40
    && |k.id| == 35 && k.id[..3] == "pd_" && forall i | 3 <= i < 35 :: Hex(k.id[i])
  }

  datatype Page = Page(files: seq<Key>, hasMore: bool, next: Option<Key>)

  /** One page: fetch one row more than asked for to learn whether there is a next page. */
  ghost function ListPage(live: set<Key>, limit: int, cursor: Option<Key>): Result<Page, string> {
    if limit < 1 || limit > MAX_LIST_PAGE_SIZE then Err("bad_limit")
    else if cursor.Some? && !GoodCursor(cursor.value) then Err("bad_cursor")
    else Ok(CutPage(Fetch(Descending(Below(live, cursor)), limit + 1), limit))
  }

  function Fetch(all: seq<Key>, most: nat): seq<Key> {
    if |all| > most then all[..most] else all
  }

  function CutPage(rows: seq<Key>, limit: nat): Page
    requires limit > 0
  {
    if |rows| > limit then Page(rows[..limit], true, Some(rows[limit - 1])) else Page(rows, false, None)
  }

  predicate InRange(limit: int) {
    1 <= limit <= MAX_LIST_PAGE_SIZE
  }

  ghost predicate AllGood(live: set<Key>) {
    forall k | k in live :: GoodCursor(k)
  }

  lemma BelowLast(live: set<Key>, limit: int, cursor: Option<Key>, k: Key)
    requires 1 <= limit < |Descending(Below(live, cursor))|
    ensures var all := Descending(Below(live, cursor));
            k in all[limit..] <==> k in Below(live, Some(all[limit - 1]))
  {
    var all := Descending(Below(live, cursor));
    var last := all[limit - 1];
    DescendingDown(Below(live, cursor));
    assert last in Below(live, cursor);
    AfterLast(all, limit, k);
    if cursor.Some? && Above(last, k) {
      AboveTransitive(cursor.value, last, k);
    }
  }

  lemma SuffixDown(all: seq<Key>, limit: nat)
    requires StrictlyDown(all) && limit <= |all|
    ensures StrictlyDown(all[limit..])
  {
    forall i, j | 0 <= i < j < |all[limit..]| ensures Above(all[limit..][i], all[limit..][j]) {
      assert Above(all[limit + i], all[limit + j]);
    }
  }

  lemma SuffixIsBelow(live: set<Key>, limit: int, cursor: Option<Key>)
    requires 1 <= limit < |Descending(Below(live, cursor))|
    ensures var all := Descending(Below(live, cursor));
            all[limit..] == Descending(Below(live, Some(all[limit - 1])))
  {
    var all := Descending(Below(live, cursor));
    var rest := Below(live, Some(all[limit - 1]));
    DescendingDown(Below(live, cursor));
    DescendingDown(rest);
    SuffixDown(all, limit);
    forall k ensures k in all[limit..] <==> k in Descending(rest) {
      BelowLast(live, limit, cursor, k);
    }
    DownIsUnique(all[limit..], Descending(rest));
  }

  lemma TakeDrop(all: seq<Key>, n: nat)
    requires n <= |all|
    ensures all == all[..n] + all[n..]
  {
  }

  lemma RestBelow(live: set<Key>, limit: int, cursor: Option<Key>)
    requires 1 <= limit < |Descending(Below(live, cursor))|
    ensures var all := Descending(Below(live, cursor));
            all == all[..limit] + Descending(Below(live, Some(all[limit - 1])))
  {
    var all := Descending(Below(live, cursor));
    SuffixIsBelow(live, limit, cursor);
    TakeDrop(all, limit);
  }

  lemma PageShape(live: set<Key>, limit: int, cursor: Option<Key>)
    requires InRange(limit) && (cursor.Some? ==> GoodCursor(cursor.value))
    ensures var all := Descending(Below(live, cursor));
            ListPage(live, limit, cursor) ==
              Ok(if |all| > limit then Page(all[..limit], true, Some(all[limit - 1])) else Page(all, false, None))
  {
    var all := Descending(Below(live, cursor));
    assert |all| > limit ==> Fetch(all, limit + 1)[..limit] == all[..limit];
    assert CutPage(Fetch(all, limit + 1), limit) ==
             if |all| > limit then Page(all[..limit], true, Some(all[limit - 1])) else Page(all, false, None);
  }

  /** A page with a successor leaves exactly the keys below its last one. */
  lemma PageSplits(live: set<Key>, limit: int, cursor: Option<Key>)
    requires InRange(limit) && AllGood(live) && (cursor.Some? ==> GoodCursor(cursor.value))
    ensures var p := ListPage(live, limit, cursor);
            && p.Ok?
            && Descending(Below(live, cursor))
                 == p.value.files + (if p.value.hasMore then Descending(Below(live, p.value.next)) else [])
            && (p.value.hasMore ==>
                  && |p.value.files| == limit
                  && p.value.next == Some(p.value.files[limit - 1]) && GoodCursor(p.value.next.value)
                  && |Below(live, p.value.next)| < |Below(live, cursor)|)
  {
    PageShape(live, limit, cursor);
    var all := Descending(Below(live, cursor));
    if |all| > limit {
      RestBelow(live, limit, cursor);
      assert all[limit - 1] in Below(live, cursor);
    }
  }

  lemma AfterLast(all: seq<Key>, limit: int, k: Key)
    requires StrictlyDown(all) && 1 <= limit < |all|
    ensures k in all[limit..] <==> k in all && Above(all[limit - 1], k)
  {
    if k in all[limit..] {
      var j :| limit <= j < |all| && all[j] == k;
    }
    if k in all && Above(all[limit - 1], k) {
      var i :| 0 <= i < |all| && all[i] == k;
      AboveStrict(all[limit - 1], k);
      assert i >= limit;
      assert all[limit..][i - limit] == k;
    }
  }

  // -------------------------------------------------------- a table at rest

  /** Following the cursors of a table that does not change, to the last page. */
  ghost function FollowAll(live: set<Key>, limit: int, cursor: Option<Key>): seq<Key>
    requires InRange(limit) && AllGood(live) && (cursor.Some? ==> GoodCursor(cursor.value))
    decreases |Below(live, cursor)|
  {
    PageSplits(live, limit, cursor);
    var p := ListPage(live, limit, cursor).value;
    p.files + if p.hasMore then FollowAll(live, limit, p.next) else []
  }

  /** Whatever the page size, the pages together are exactly the unpaged listing. */
  lemma {:induction false} PagesAreTheListing(live: set<Key>, limit: int, cursor: Option<Key>)
    requires InRange(limit) && AllGood(live) && (cursor.Some? ==> GoodCursor(cursor.value))
    ensures FollowAll(live, limit, cursor) == Descending(Below(live, cursor))
    ensures cursor.None? ==> FollowAll(live, limit, cursor) == Descending(live)
    decreases |Below(live, cursor)|
  {
    PageSplits(live, limit, cursor);
    var p := ListPage(live, limit, cursor).value;
    if p.hasMore {
      PagesAreTheListing(live, limit, p.next);
    }
    if cursor.None? {
      assert Below(live, cursor) == live;
    }
  }

  // ------------------------------------------------------- a table in motion

  /**
   Following cursors while files come and go: page i is taken from tables[i]. The walk is
   complete when a page has no successor.
   */
  datatype Walked = Walked(files: seq<Key>, complete: bool, used: nat)

  ghost predicate CanWalk(tables: seq<set<Key>>, limit: int, cursor: Option<Key>) {
    && InRange(limit)
    && (cursor.Some? ==> GoodCursor(cursor.value))
    && forall i | 0 <= i < |tables| :: AllGood(tables[i])
  }

  ghost function Walk(tables: seq<set<Key>>, limit: int, cursor: Option<Key>): Walked
    requires CanWalk(tables, limit, cursor)
    decreases |tables|
  {
    if tables == [] then Walked([], false, 0) else
      PageSplits(tables[0], limit, cursor);
      var p := ListPage(tables[0], limit, cursor).value;
      if !p.hasMore then Walked(p.files, true, 1)
      else
        var rest := Walk(tables[1..], limit, p.next);
        Walked(p.files + rest.files, rest.complete, rest.used + 1)
  }

  lemma PageMembers(live: set<Key>, limit: int, cursor: Option<Key>)
    requires InRange(limit) && (cursor.Some? ==> GoodCursor(cursor.value))
    ensures var p := ListPage(live, limit, cursor);
            && p.Ok? && StrictlyDown(p.value.files)
            && forall k | k in p.value.files :: k in live && (cursor.None? || Above(cursor.value, k))
  {
    PageShape(live, limit, cursor);
    DescendingDown(Below(live, cursor));
    forall k | k in ListPage(live, limit, cursor).value.files ensures k in Below(live, cursor) {
      assert k in Descending(Below(live, cursor));
    }
  }

  lemma {:induction false} WalkMembers(tables: seq<set<Key>>, limit: int, cursor: Option<Key>, k: Key)
    requires CanWalk(tables, limit, cursor) && k in Walk(tables, limit, cursor).files
    ensures cursor.None? || Above(cursor.value, k)
    ensures exists i :: 0 <= i < |tables| && k in tables[i]
    decreases |tables|
  {
    PageSplits(tables[0], limit, cursor);
    PageMembers(tables[0], limit, cursor);
    var p := ListPage(tables[0], limit, cursor).value;
    if k in p.files {
      assert k in tables[0];
    } else {
      WalkMembers(tables[1..], limit, p.next, k);
      var i :| 0 <= i < |tables[1..]| && k in tables[1..][i];
      assert k in tables[i + 1];
      assert p.next.value in p.files;
      if cursor.Some? {
        AboveTransitive(cursor.value, p.next.value, k);
      }
    }
  }

  lemma WalkOn(tables: seq<set<Key>>, limit: int, cursor: Option<Key>, next: Option<Key>)
    requires tables != [] && CanWalk(tables, limit, cursor) && (next.Some? ==> GoodCursor(next.value))
    ensures CanWalk(tables[1..], limit, next)
  {
  }

  lemma NextOfPage(live: set<Key>, limit: int, cursor: Option<Key>)
    requires InRange(limit) && AllGood(live) && (cursor.Some? ==> GoodCursor(cursor.value))
    ensures var p := ListPage(live, limit, cursor);
            && p.Ok?
            && (p.value.hasMore ==>
                  && p.value.files != [] && p.value.next == Some(p.value.files[|p.value.files| - 1])
                  && GoodCursor(p.value.next.value))
  {
    PageShape(live, limit, cursor);
    var all := Descending(Below(live, cursor));
    if |all| > limit {
      assert all[limit - 1] in Below(live, cursor);
    }
  }

  /** A page with a successor is followed by the walk from its cursor. */
  lemma WalkStep(tables: seq<set<Key>>, limit: int, cursor: Option<Key>, p: Page)
    requires tables != [] && CanWalk(tables, limit, cursor) && ListPage(tables[0], limit, cursor) == Ok(p)
    requires p.hasMore ==> CanWalk(tables[1..], limit, p.next)
    ensures Walk(tables, limit, cursor).files
              == p.files + if p.hasMore then Walk(tables[1..], limit, p.next).files else []
  {
  }

  lemma {:induction false} WalkDescends(tables: seq<set<Key>>, limit: int, cursor: Option<Key>)
    requires CanWalk(tables, limit, cursor)
    ensures StrictlyDown(Walk(tables, limit, cursor).files)
    decreases |tables|
  {
    if tables != [] {
      NextOfPage(tables[0], limit, cursor);
      PageMembers(tables[0], limit, cursor);
      var p := ListPage(tables[0], limit, cursor).value;
      if p.hasMore {
        WalkOn(tables, limit, cursor, p.next);
        WalkDescends(tables[1..], limit, p.next);
        forall k | k in Walk(tables[1..], limit, p.next).files ensures Above(p.files[|p.files| - 1], k) {
          WalkMembers(tables[1..], limit, p.next, k);
        }
        WalkJoins(p.files, Walk(tables[1..], limit, p.next).files);
      }
      WalkStep(tables, limit, cursor, p);
    }
  }

  lemma WalkJoins(a: seq<Key>, b: seq<Key>)
    ensures StrictlyDown(a) && StrictlyDown(b) && a != [] && (forall k | k in b :: Above(a[|a| - 1], k)) ==>
              StrictlyDown(a + b)
  {
    if StrictlyDown(a) && StrictlyDown(b) && a != [] && forall k | k in b :: Above(a[|a| - 1], k) {
      var c := a + b;
      forall i, j | 0 <= i < j < |c| ensures Above(c[i], c[j]) {
        if i < |a| <= j {
          assert c[j] in b;
          if i < |a| - 1 {
            AboveTransitive(a[i], a[|a| - 1], c[j]);
          }
        }
      }
    }
  }

  /** While a file exists its creation time does not change. */
  ghost predicate IdsFixed(tables: seq<set<Key>>) {
    forall i, j, k, l | 0 <= i < |tables| && 0 <= j < |tables| && k in tables[i] && l in tables[j] && k.id == l.id :: k == l
  }

  /** Whatever is inserted or deleted between pages, no file is returned twice. */
  lemma NoFileTwice(tables: seq<set<Key>>, limit: int)
    requires CanWalk(tables, limit, None) && IdsFixed(tables)
    ensures var files := Walk(tables, limit, None).files;
            forall i, j | 0 <= i < j < |files| :: files[i].id != files[j].id
  {
    WalkDescends(tables, limit, None);
    var files := Walk(tables, limit, None).files;
    forall i, j | 0 <= i < j < |files| ensures files[i].id != files[j].id {
      NotTheSame(tables, limit, files[i], files[j]);
    }
  }

  lemma NotTheSame(tables: seq<set<Key>>, limit: int, k: Key, l: Key)
    requires CanWalk(tables, limit, None) && IdsFixed(tables) && Above(k, l)
    ensures k in Walk(tables, limit, None).files && l in Walk(tables, limit, None).files ==> k.id != l.id
  {
    AboveStrict(k, l);
    if k in Walk(tables, limit, None).files && l in Walk(tables, limit, None).files {
      WalkMembers(tables, limit, None, k);
      WalkMembers(tables, limit, None, l);
    }
  }

  /** A file on the table and below the cursor is on this page or below the next cursor. */
  lemma OnPageOrBelow(live: set<Key>, limit: int, cursor: Option<Key>, k: Key)
    requires InRange(limit) && AllGood(live) && (cursor.Some? ==> GoodCursor(cursor.value))
    requires k in live && (cursor.None? || Above(cursor.value, k))
    ensures var p := ListPage(live, limit, cursor);
            && p.Ok?
            && (k in p.value.files || (p.value.hasMore && p.value.next.Some? && Above(p.value.next.value, k)))
  {
    PageSplits(live, limit, cursor);
    var p := ListPage(live, limit, cursor).value;
    assert k in Descending(Below(live, cursor));
    if k !in p.files {
      assert k in Descending(Below(live, p.next));
    }
  }

  /** A complete walk returns every file that was there on each of its pages. */
  lemma {:induction false} NoFileMissed(tables: seq<set<Key>>, limit: int, cursor: Option<Key>, k: Key)
    requires CanWalk(tables, limit, cursor)
    requires Walk(tables, limit, cursor).complete
    requires forall i | 0 <= i < |tables| && i < Walk(tables, limit, cursor).used :: k in tables[i]
    requires cursor.None? || Above(cursor.value, k)
    ensures k in Walk(tables, limit, cursor).files
    decreases |tables|
  {
    PageSplits(tables[0], limit, cursor);
    var p := ListPage(tables[0], limit, cursor).value;
    assert k in tables[0];
    OnPageOrBelow(tables[0], limit, cursor, k);
    if p.hasMore && k !in p.files {
      var later := tables[1..];
      forall i | 0 <= i < |later| && i < Walk(later, limit, p.next).used ensures k in later[i] {
        assert later[i] == tables[i + 1];
      }
      NoFileMissed(later, limit, p.next, k);
    }
  }
}
