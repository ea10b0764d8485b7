/** Keyset pagination on (created_at, id), as the evidence and member lists do it
    (app/services/evidence_service.py, app/routers/v1/members.py). */
module Keyset {
  import opened Vocabulary

  datatype Key = Key(created: nat, id: nat)

  predicate Less(a: Key, b: Key) {
    a.created < b.created || (a.created == b.created && a.id < b.id)
  }

  /** A listed row; `status` is what the member list filters on. */
  datatype Row = Row(key: Key, status: string)

  /** The table in key order; identifiers are unique, so the order is strict. */
  predicate Sorted(t: seq<Row>) {
    forall i, j | 0 <= i < j < |t| :: Less(t[i].key, t[j].key)
  }

  // --- Cursors ---------------------------------------------------------------------------------

  function Digit(n: nat): (c: char)
    requires n < 10
    ensures '0' <= c <= '9' && c as int - '0' as int == n
  {
    (n + '0' as int) as char
  }

  /** The text form of a number; it stands for the ISO form of a timestamp and the hex form of an
      identifier, neither of which contains a bar. */
  function Show(n: nat): (s: string)
    ensures |s| > 0 && forall k | 0 <= k < |s| :: '0' <= s[k] <= '9'
  {
    if n < 10 then [Digit(n)] else Show(n / 10) + [Digit(n % 10)]
  }

  function Parse(s: string): Option<nat> {
    if |s| == 0 then None
    else
      var last := s[|s| - 1];
      if !('0' <= last <= '9') then None
      else if |s| == 1 then Some(last as int - '0' as int)
      else
        var front := Parse(s[..|s| - 1]);
        if front.None? then None else Some(10 * front.value + (last as int - '0' as int))
  }

  lemma {:induction false} ParseShow(n: nat)
    ensures Parse(Show(n)) == Some(n)
  {
    if n >= 10 {
      ParseShow(n / 10);
      assert Show(n)[..|Show(n)| - 1] == Show(n / 10);
    }
  }

  function EncodeCursor(k: Key): string {
    Show(k.created) + "|" + Show(k.id)
  }

  /** `raw.split("|", 1)`: the position of the first bar. */
  function FirstBar(s: string, from: nat): (r: nat)
    requires from <= |s|
    ensures from <= r <= |s| && (r < |s| ==> s[r] == '|') && forall k | from <= k < r :: s[k] != '|'
    decreases |s| - from
  {
    if from < |s| && s[from] != '|' then FirstBar(s, from + 1) else from
  }

  function DecodeCursor(s: string): Option<Key> {
    var bar := FirstBar(s, 0);
    if bar == |s| then None
    else
      var created, id := Parse(s[..bar]), Parse(s[bar + 1..]);
      if created.None? || id.None? then None else Some(Key(created.value, id.value))
  }

  /** A cursor is never empty, and decodes to the key it was made from. */
  lemma CursorRoundTrip(k: Key)
    ensures EncodeCursor(k) != "" && DecodeCursor(EncodeCursor(k)) == Some(k)
  {
    var s, left := EncodeCursor(k), Show(k.created);
    assert s[|left|] == '|';
    forall j | 0 <= j < |left| ensures s[j] != '|' { assert s[j] == left[j]; }
    assert FirstBar(s, 0) == |left|;
    assert s[..|left|] == left && s[|left| + 1..] == Show(k.id);
    ParseShow(k.created);
    ParseShow(k.id);
  }

  predicate Numeric(s: string) {
    |s| > 0 && forall k | 0 <= k < |s| :: '0' <= s[k] <= '9'
  }

  lemma {:induction false} ParsesIff(s: string)
    ensures Parse(s).Some? <==> Numeric(s)
  {
    if |s| > 1 { ParsesIff(s[..|s| - 1]); }
  }

  /** A cursor is accepted exactly when two numbers stand on either side of its first bar. */
  lemma CursorIsAcceptedIff(s: string)
    ensures DecodeCursor(s).Some? <==>
            exists b | 0 <= b < |s| :: s[b] == '|' && (forall k | 0 <= k < b :: s[k] != '|') && Numeric(s[..b]) && Numeric(s[b + 1..])
  {
    var bar := FirstBar(s, 0);
    if bar < |s| {
      ParsesIff(s[..bar]);
      ParsesIff(s[bar + 1..]);
    }
    if b :| 0 <= b < |s| && s[b] == '|' && forall k | 0 <= k < b :: s[k] != '|' { assert b == bar; }
  }

  /** Oldest first, and by identifier among rows of one moment. */
  lemma OldestFirst(rows: seq<Row>)
    ensures Sorted(rows) <==>
            forall i, j | 0 <= i < j < |rows| ::
              && rows[i].key.created <= rows[j].key.created
              && (rows[i].key.created == rows[j].key.created ==> rows[i].key.id < rows[j].key.id)
  {
  }

  // --- Pages -----------------------------------------------------------------------------------

  predicate Past(after: Option<Key>, k: Key) {
    after.None? || Less(after.value, k)
  }

  /** The rows beyond a position, in order. */
  function Beyond(t: seq<Row>, after: Option<Key>): (r: seq<Row>)
    ensures forall x :: x in r <==> x in t && Past(after, x.key)
    ensures Sorted(t) ==> Sorted(r)
  {
    if |t| == 0 then []
    else
      var rest := Beyond(t[1..], after);
      assert t == [t[0]] + t[1..];
      assert Sorted(t) ==> Sorted(t[1..]);
      assert forall x | x in rest :: x in t[1..];
      if Past(after, t[0].key) then [t[0]] + rest else rest
  }

  datatype Page = Page(rows: seq<Row>, next: Option<string>)

  /** Up to `limit` rows beyond the position, and a cursor to the last of them if there are more. */
  function PageAfter(t: seq<Row>, after: Option<Key>, limit: nat): Page
    requires limit > 0
  {
    var beyond := Beyond(t, after);
    if |beyond| > limit then Page(beyond[..limit], Some(EncodeCursor(beyond[limit - 1].key))) else Page(beyond, None)
  }

  /** An empty cursor counts as none; a malformed one is refused. */
  function Position(cursor: Option<string>): Option<Option<Key>> {
    if cursor.None? || cursor.value == "" then Some(None)
    else
      var k := DecodeCursor(cursor.value);
      if k.None? then None else Some(k)
  }

  function Take(s: seq<Row>, n: nat): seq<Row> {
    if |s| <= n then s else s[..n]
  }

  method ListEvidence(table: seq<Row>, cursor: Option<string>, limit: nat) returns (page: Page, error: Option<Error>)
    requires limit > 0
    ensures error == (if Position(cursor).None? then Some(BadRequest) else None)
    ensures error.None? ==> page == PageAfter(table, Position(cursor).value, limit)
    ensures cursor == None || cursor == Some("") ==> error.None? && page == PageAfter(table, None, limit)
    ensures cursor.Some? && cursor.value != "" ==> (error.None? <==> DecodeCursor(cursor.value).Some?)
  {
    hide EncodeCursor, DecodeCursor, Beyond;
    var after := None;
    if cursor.Some? && cursor.value != "" {
      after := DecodeCursor(cursor.value);
      if after.None? {
        return Page([], None), Some(BadRequest);
      }
    }
    var rows := Take(Beyond(table, after), limit + 1);
    var hasNext := |rows| > limit;
    rows := Take(rows, limit);
    var next := None;
    if hasNext && rows != [] {
      next := Some(EncodeCursor(rows[|rows| - 1].key));
    }
    return Page(rows, next), None;
  }

  /** The rows with the wanted status, in order; no filter keeps all. */
  function Filtered(rows: seq<Row>, status: Option<string>): seq<Row> {
    if |rows| == 0 then []
    else Filtered(rows[..|rows| - 1], status)
         + if status.None? || status.value == "" || rows[|rows| - 1].status == status.value then [rows[|rows| - 1]] else []
  }

  method KeepStatus(rows: seq<Row>, status: Option<string>) returns (items: seq<Row>)
    ensures items == Filtered(rows, status)
  {
    items := [];
    for k := 0 to |rows|
      invariant items == Filtered(rows[..k], status)
    {
      assert rows[..k + 1][..k] == rows[..k];
      if status.Some? && status.value != "" && rows[k].status != status.value {
        continue;
      }
      items := items + [rows[k]];
    }
    assert rows[..|rows|] == rows;
  }

  /** Pages first, filters after: a page may come out short, or empty, with a cursor to go on. */
  method ListMembers(table: seq<Row>, cursor: Option<string>, limit: nat, status: Option<string>)
    returns (page: Page, error: Option<Error>)
    requires limit > 0
    ensures error == (if Position(cursor).None? then Some(BadRequest) else None)
    ensures error.None? ==>
              var full := PageAfter(table, Position(cursor).value, limit);
              page == Page(Filtered(full.rows, status), full.next)
  {
    page, error := ListEvidence(table, cursor, limit);
    if error.Some? {
      return;
    }
    var items := KeepStatus(page.rows, status);
    page := Page(items, page.next);
  }

  // --- Walks -----------------------------------------------------------------------------------

  /** The key a cursor stands for; None for the start of the list. */
  function KeyOf(cursor: Option<string>): Option<Key> {
    if Position(cursor).None? then None else Position(cursor).value
  }

  /** The cursor that page i is read from. */
  function CursorOf(pages: seq<Page>, i: nat): Option<string>
    requires i <= |pages|
  {
    if i == 0 then None else pages[i - 1].next
  }

  predicate ReadsOn(tables: seq<seq<Row>>, pages: seq<Page>, limit: nat, i: nat)
    requires i < |pages| <= |tables| && limit > 0
  {
    && (i > 0 ==> pages[i - 1].next.Some?)
    && Position(CursorOf(pages, i)).Some? && pages[i] == PageAfter(tables[i], KeyOf(CursorOf(pages, i)), limit)
  }

  /** A client follows cursors; between any two of its pages the table may change. */
  predicate IsWalk(tables: seq<seq<Row>>, pages: seq<Page>, limit: nat)
    requires |pages| <= |tables| && limit > 0
  {
    && (forall i | 0 <= i < |tables| :: Sorted(tables[i]))
    && forall i {:trigger ReadsOn(tables, pages, limit, i)} | 0 <= i < |pages| :: ReadsOn(tables, pages, limit, i)
  }

  function Collected(pages: seq<Page>): seq<Row> {
    if |pages| == 0 then [] else Collected(pages[..|pages| - 1]) + pages[|pages| - 1].rows
  }

  /** Everything is at or before this key. */
  predicate UpTo(rows: seq<Row>, k: Key) {
    forall x | x in rows :: x.key == k || Less(x.key, k)
  }

  lemma WalkPrefix(tables: seq<seq<Row>>, pages: seq<Page>, limit: nat)
    requires 0 < |pages| <= |tables| && limit > 0 && IsWalk(tables, pages, limit)
    ensures IsWalk(tables, pages[..|pages| - 1], limit)
  {
    var front := pages[..|pages| - 1];
    forall i | 0 <= i < |front| ensures ReadsOn(tables, front, limit, i) { assert ReadsOn(tables, pages, limit, i); }
  }

  /** One page: its rows are those past its position and up to the key its own cursor carries. */
  lemma OnePage(t: seq<Row>, after: Option<Key>, limit: nat) returns (last: Option<Key>)
    requires Sorted(t) && limit > 0
    ensures var page := PageAfter(t, after, limit);
            && last == KeyOf(page.next) && (last.Some? <==> page.next.Some?) && Sorted(page.rows)
            && (forall x | x in page.rows :: x in t && Past(after, x.key))
            && (last.Some? ==> |page.rows| == limit && UpTo(page.rows, last.value))
            && (forall x | x in t && Past(after, x.key) && (last.Some? ==> !Less(last.value, x.key)) :: x in page.rows)
  {
    var beyond, page := Beyond(t, after), PageAfter(t, after, limit);
    last := if |beyond| > limit then Some(beyond[limit - 1].key) else None;
    if last.Some? { CursorRoundTrip(last.value); }
    hide EncodeCursor, DecodeCursor, Beyond;
    forall x | x in page.rows ensures x in t && Past(after, x.key) { assert x in beyond; }
    forall x | x in t && Past(after, x.key) && (last.Some? ==> !Less(last.value, x.key)) ensures x in page.rows {
      var k :| 0 <= k < |beyond| && beyond[k] == x;
      if last.Some? { assert beyond[..limit][k] == x; }
    }
  }

  /** The last page of a walk. */
  lemma LastPage(tables: seq<seq<Row>>, pages: seq<Page>, limit: nat) returns (after: Option<Key>, last: Option<Key>)
    requires 0 < |pages| <= |tables| && limit > 0 && IsWalk(tables, pages, limit)
    ensures var n, rows := |pages| - 1, pages[|pages| - 1].rows;
            && after == KeyOf(CursorOf(pages, n)) && (n == 0 <==> after.None?) && (n > 0 ==> pages[n - 1].next.Some?)
            && last == KeyOf(pages[n].next) && (last.Some? <==> pages[n].next.Some?)
            && Sorted(rows) && (forall x | x in rows :: x in tables[n] && Past(after, x.key))
            && (last.Some? ==> |rows| == limit && UpTo(rows, last.value))
            && (forall x | x in tables[n] && Past(after, x.key) && (last.Some? ==> !Less(last.value, x.key)) :: x in rows)
  {
    hide PageAfter, Position, KeyOf;
    var n := |pages| - 1;
    assert ReadsOn(tables, pages, limit, n);
    after := KeyOf(CursorOf(pages, n));
    last := OnePage(tables[n], after, limit);
    if n > 0 {
      assert ReadsOn(tables, pages, limit, n - 1);
      var same := OnePage(tables[n - 1], KeyOf(CursorOf(pages, n - 1)), limit);
    } else {
      Start();
    }
  }

  lemma Start()
    ensures KeyOf(None) == None
  {
  }

  /** Nothing is ever repeated: over any walk, whatever is inserted or deleted between its pages,
      the keys delivered are strictly ascending. */
  lemma {:induction false} WalkAscends(tables: seq<seq<Row>>, pages: seq<Page>, limit: nat)
    requires |pages| <= |tables| && limit > 0 && IsWalk(tables, pages, limit)
    ensures Sorted(Collected(pages))
    ensures |pages| > 0 && KeyOf(pages[|pages| - 1].next).Some? ==> UpTo(Collected(pages), KeyOf(pages[|pages| - 1].next).value)
  {
    hide KeyOf, ReadsOn;
    if |pages| > 0 {
      var n := |pages| - 1;
      var front, rows := pages[..n], pages[n].rows;
      var after, last := LastPage(tables, pages, limit);
      WalkPrefix(tables, pages, limit);
      WalkAscends(tables, front, limit);
      var left := Collected(front);
      if n > 0 { assert front[n - 1] == pages[n - 1] && UpTo(left, after.value); }
      if last.Some? { assert rows[0] in rows; }
      forall x, y | x in left && y in rows ensures Less(x.key, y.key) { }
      SortedConcat(left, rows);
    }
  }

  lemma SortedConcat(p: seq<Row>, q: seq<Row>)
    requires Sorted(p) && Sorted(q) && forall x, y | x in p && y in q :: Less(x.key, y.key)
    ensures Sorted(p + q)
  {
  }

  /** What a walk has passed it has delivered: a row present at every page, up to the position
      reached, is among the rows collected. */
  lemma {:induction false} WalkDelivers(tables: seq<seq<Row>>, pages: seq<Page>, limit: nat, x: Row)
    requires 0 < |pages| <= |tables| && limit > 0 && IsWalk(tables, pages, limit)
    requires forall i | 0 <= i < |pages| :: x in tables[i]
    ensures var last := KeyOf(pages[|pages| - 1].next);
            (last.Some? ==> !Less(last.value, x.key)) ==> x in Collected(pages)
  {
    hide KeyOf, ReadsOn;
    var n := |pages| - 1;
    var after, last := LastPage(tables, pages, limit);
    if !Past(after, x.key) {
      WalkPrefix(tables, pages, limit);
      WalkDelivers(tables, pages[..n], limit, x);
    }
  }

  /** Exactly once: following cursors to the end delivers every row that was there throughout, once,
      in order, whatever was inserted or deleted between the pages. */
  lemma WalkIsExact(tables: seq<seq<Row>>, pages: seq<Page>, limit: nat, x: Row)
    requires 0 < |pages| <= |tables| && limit > 0 && IsWalk(tables, pages, limit) && pages[|pages| - 1].next.None?
    requires forall i | 0 <= i < |pages| :: x in tables[i]
    ensures Sorted(Collected(pages))
    ensures exists k | 0 <= k < |Collected(pages)| ::
              Collected(pages)[k] == x && forall j | 0 <= j < |Collected(pages)| && j != k :: Collected(pages)[j].key != x.key
  {
    WalkAscends(tables, pages, limit);
    WalkDelivers(tables, pages, limit, x);
    var all := Collected(pages);
    var k :| 0 <= k < |all| && all[k] == x;
    forall j | 0 <= j < |all| && j != k ensures all[j].key != x.key {
      if j < k { assert Less(all[j].key, all[k].key); } else { assert Less(all[k].key, all[j].key); }
    }
  }

  /** Only rows that some page's table had are delivered. */
  lemma {:induction false} WalkInvents(tables: seq<seq<Row>>, pages: seq<Page>, limit: nat, x: Row)
    requires |pages| <= |tables| && limit > 0 && IsWalk(tables, pages, limit) && x in Collected(pages)
    ensures exists i | 0 <= i < |pages| :: x in tables[i]
  {
    var n := |pages| - 1;
    var after, last := LastPage(tables, pages, limit);
    if x !in pages[n].rows {
      WalkPrefix(tables, pages, limit);
      WalkInvents(tables, pages[..n], limit, x);
    }
  }

  lemma Head(p: seq<Row>)
    ensures |p| == 0 || p[0] in p
  {
  }

  lemma {:induction false} SortedIsDetermined(p: seq<Row>, q: seq<Row>)
    requires Sorted(p) && Sorted(q) && forall x :: x in p <==> x in q
    ensures p == q
  {
    Head(p);
    Head(q);
    if |p| > 0 {
      assert p[0] == q[0] by {
        var i :| 0 <= i < |q| && q[i] == p[0];
        var j :| 0 <= j < |p| && p[j] == q[0];
      }
      forall x ensures x in p[1..] <==> x in q[1..] {
        TailMembers(p, x);
        TailMembers(q, x);
      }
      SortedIsDetermined(p[1..], q[1..]);
      assert p == [p[0]] + p[1..] && q == [q[0]] + q[1..];
    }
  }

  lemma TailMembers(p: seq<Row>, x: Row)
    requires Sorted(p) && |p| > 0
    ensures x in p[1..] <==> x in p && x != p[0]
  {
  }

  /** On a table that nobody changes, the pages of a finished walk put together are the table. */
  lemma QuietWalkIsTheTable(table: seq<Row>, tables: seq<seq<Row>>, pages: seq<Page>, limit: nat)
    requires 0 < |pages| <= |tables| && limit > 0 && IsWalk(tables, pages, limit) && pages[|pages| - 1].next.None?
    requires forall i | 0 <= i < |tables| :: tables[i] == table
    ensures Collected(pages) == table
  {
    WalkAscends(tables, pages, limit);
    forall x ensures x in Collected(pages) <==> x in table {
      if x in Collected(pages) { WalkInvents(tables, pages, limit, x); }
      if x in table { WalkDelivers(tables, pages, limit, x); }
    }
    assert tables[0] == table;
    SortedIsDetermined(Collected(pages), table);
  }

  /** Walks end: every page but the last is full, so over the rows that ever exist a walk has at most
      one page more than they fill. */
  lemma {:induction false} WalksEnd(tables: seq<seq<Row>>, pages: seq<Page>, limit: nat, ever: set<Key>)
    requires 0 < |pages| <= |tables| && limit > 0 && IsWalk(tables, pages, limit)
    requires forall i, x | 0 <= i < |tables| && x in tables[i] :: x.key in ever
    ensures limit * (|pages| - 1) <= |ever|
  {
    FullPages(tables, pages, limit);
    WalkAscends(tables, pages, limit);
    forall x | x in Collected(pages) ensures x.key in ever { WalkInvents(tables, pages, limit, x); }
    DistinctKeys(Collected(pages), ever);
  }

  lemma {:induction false} FullPages(tables: seq<seq<Row>>, pages: seq<Page>, limit: nat)
    requires |pages| <= |tables| && limit > 0 && IsWalk(tables, pages, limit)
    ensures |pages| > 0 ==> |Collected(pages)| >= limit * (|pages| - 1)
    ensures |pages| > 0 && pages[|pages| - 1].next.Some? ==> |Collected(pages)| >= limit * |pages|
  {
    if |pages| > 0 {
      var n := |pages| - 1;
      var after, last := LastPage(tables, pages, limit);
      WalkPrefix(tables, pages, limit);
      FullPages(tables, pages[..n], limit);
      assert n > 0 ==> pages[..n][n - 1] == pages[n - 1];
      assert limit * (n + 1) == limit * n + limit;
    }
  }

  lemma {:induction false} DistinctKeys(rows: seq<Row>, ever: set<Key>)
    requires Sorted(rows) && forall x | x in rows :: x.key in ever
    ensures |rows| <= |ever|
  {
    if |rows| > 0 {
      var front, last := rows[..|rows| - 1], rows[|rows| - 1];
      forall x | x in front ensures x.key in ever - {last.key} {
        var k :| 0 <= k < |front| && front[k] == x;
        assert rows[k] == x && x in rows && Less(rows[k].key, last.key);
      }
      DistinctKeys(front, ever - {last.key});
      assert last in rows && |ever - {last.key}| == |ever| - 1;
    }
  }

  // --- Filtering page by page --------------------------------------------------------------------

  lemma {:induction false} FilteredConcat(p: seq<Row>, q: seq<Row>, status: Option<string>)
    ensures Filtered(p + q, status) == Filtered(p, status) + Filtered(q, status)
  {
    if |q| == 0 {
      assert p + q == p;
    } else {
      FilteredConcat(p, q[..|q| - 1], status);
      assert (p + q)[..|p + q| - 1] == p + q[..|q| - 1];
    }
  }

  /** A filter keeps exactly the rows with its status; an empty one, or none, keeps them all. */
  lemma {:induction false} FilterKeepsIff(rows: seq<Row>, status: string, x: Row)
    ensures status != "" ==> (x in Filtered(rows, Some(status)) <==> x in rows && x.status == status)
    ensures Filtered(rows, Some("")) == rows && Filtered(rows, None) == rows
  {
    if |rows| > 0 {
      assert rows == rows[..|rows| - 1] + [rows[|rows| - 1]];
      FilterKeepsIff(rows[..|rows| - 1], status, x);
    }
  }

  /** And it keeps their order. */
  lemma {:induction false} FilterKeepsOrder(rows: seq<Row>, status: Option<string>)
    requires Sorted(rows)
    ensures Sorted(Filtered(rows, status)) && forall x | x in Filtered(rows, status) :: x in rows
  {
    if |rows| > 0 {
      var front, last := rows[..|rows| - 1], rows[|rows| - 1];
      FilterKeepsOrder(front, status);
      assert rows == front + [last];
      forall x | x in Filtered(front, status) ensures Less(x.key, last.key) {
        var k :| 0 <= k < |front| && front[k] == x;
        assert rows[k] == x && rows[|front|] == last;
      }
    }
  }

  /** The pages as the member list returns them. */
  function FilteredPages(pages: seq<Page>, status: Option<string>): (r: seq<Page>)
    ensures |r| == |pages| && forall k | 0 <= k < |pages| :: r[k] == Page(Filtered(pages[k].rows, status), pages[k].next)
  {
    seq(|pages|, k requires 0 <= k < |pages| => Page(Filtered(pages[k].rows, status), pages[k].next))
  }

  /** Although each page is filtered after it was cut, the filtered pages put together are the filter
      of everything the walk reads. */
  lemma {:induction false} FilterAfterPaging(pages: seq<Page>, status: Option<string>)
    ensures Collected(FilteredPages(pages, status)) == Filtered(Collected(pages), status)
  {
    if |pages| > 0 {
      var front := pages[..|pages| - 1];
      FilterAfterPaging(front, status);
      FilteredConcat(Collected(front), pages[|pages| - 1].rows, status);
      assert FilteredPages(pages, status)[..|pages| - 1] == FilteredPages(front, status);
    }
  }

  /** So on a quiet table the member list is the filter of the full list. */
  lemma MembersAreTheFilteredList(table: seq<Row>, tables: seq<seq<Row>>, pages: seq<Page>, limit: nat, status: Option<string>)
    requires 0 < |pages| <= |tables| && limit > 0 && IsWalk(tables, pages, limit) && pages[|pages| - 1].next.None?
    requires forall i | 0 <= i < |tables| :: tables[i] == table
    ensures Collected(FilteredPages(pages, status)) == Filtered(table, status)
  {
    QuietWalkIsTheTable(table, tables, pages, limit);
    FilterAfterPaging(pages, status);
  }
}
