/** Keyset pagination with filtering after the page is cut: a client that follows the cursor against what
    it would have got in one unbounded list, first on a table that stands still and then on one that
    changes between the pages.
 */
module Pagination {
  import opened Options

  /** A row's place in the order, newest first, ids breaking ties. */
  datatype Key = Key(at: int, id: nat)

  predicate Before(a: Key, b: Key) { a.at > b.at || (a.at == b.at && a.id > b.id) }

  ghost predicate Sorted(q: seq<Key>) { forall i, j :: 0 <= i < j < |q| ==> Before(q[i], q[j]) }

  /** What one request sees: the rows, and those of them its caller may read. */
  datatype Snapshot = Snapshot(rows: seq<Key>, visible: set<Key>)

  predicate Past(after: Option<Key>, k: Key) { after.Some? ==> Before(after.value, k) }

  // ---------- the store's query ----------

  /** How many rows are not past the cursor. */
  function Skip(rows: seq<Key>, after: Option<Key>): (n: nat)
    ensures n <= |rows|
  {
    if rows == [] || Past(after, rows[0]) then 0 else 1 + Skip(rows[1..], after)
  }

  /** The rows strictly after the cursor. */
  function Rest(rows: seq<Key>, after: Option<Key>): seq<Key> { rows[Skip(rows, after)..] }

  /** Where the page ends. */
  function Stop(rows: seq<Key>, limit: nat, after: Option<Key>): (n: nat)
    ensures Skip(rows, after) <= n <= |rows|
  {
    if limit == 0 || |rows| - Skip(rows, after) <= limit then |rows| else Skip(rows, after) + limit
  }

  function Page(rows: seq<Key>, limit: nat, after: Option<Key>): seq<Key> {
    rows[Skip(rows, after)..Stop(rows, limit, after)]
  }

  lemma {:induction false} SkipIs(rows: seq<Key>, after: Option<Key>, i: nat)
    requires Sorted(rows) && i < |rows|
    ensures Skip(rows, after) <= i <==> Past(after, rows[i])
  {
    if Past(after, rows[0]) {
      assert i > 0 ==> Before(rows[0], rows[i]);
    } else if i > 0 {
      assert rows[1..][i - 1] == rows[i];
      SkipIs(rows[1..], after, i - 1);
    }
  }

  /** Rest is the filter it is meant to be. */
  lemma RestIs(rows: seq<Key>, after: Option<Key>, k: Key)
    requires Sorted(rows)
    ensures k in Rest(rows, after) <==> k in rows && Past(after, k)
  {
    hide Skip, Past, Sorted;
    var d := Skip(rows, after);
    if k in rows {
      var i :| 0 <= i < |rows| && rows[i] == k;
      SkipIs(rows, after, i);
      if d <= i { assert rows[d..][i - d] == k; }
    }
    if k in rows[d..] {
      var j :| 0 <= j < |rows[d..]| && rows[d..][j] == k;
      SkipIs(rows, after, d + j);
    }
  }

  /** A page holds no more than was asked for, and all there is if nothing was; the rows come newest first. */
  lemma PageFits(rows: seq<Key>, limit: nat, after: Option<Key>)
    requires Sorted(rows)
    ensures var page := Page(rows, limit, after);
      && (limit > 0 ==> |page| <= limit)
      && |page| == (if limit > 0 && |Rest(rows, after)| > limit then limit else |Rest(rows, after)|)
      && (NextCursor(limit, page).Some? <==> limit > 0 && |page| == limit)
      && (forall i, j :: 0 <= i < j < |page| ==> page[i].at >= page[j].at)
  {
    hide Skip;
    SliceSorted(rows, Skip(rows, after), Stop(rows, limit, after));
  }

  lemma SliceSorted(rows: seq<Key>, lo: nat, hi: nat)
    requires Sorted(rows) && lo <= hi <= |rows|
    ensures Sorted(rows[lo..hi])
  {
  }

  // ---------- the handler ----------

  function Filter(q: seq<Key>, visible: set<Key>): seq<Key> {
    if q == [] then []
    else if q[0] in visible then [q[0]] + Filter(q[1..], visible)
    else Filter(q[1..], visible)
  }

  /** The token of the last row scanned, whether shown or not; none once a page is short. */
  function NextCursor(limit: nat, page: seq<Key>): Option<Key> {
    if limit == 0 || |page| < limit then None else Some(page[|page| - 1])
  }

  method List(s: Snapshot, limit: nat, after: Option<Key>) returns (out: seq<Key>, next: Option<Key>)
    ensures out == Filter(Page(s.rows, limit, after), s.visible)
    ensures next == NextCursor(limit, Page(s.rows, limit, after))
  {
    hide Page;
    var page := Page(s.rows, limit, after);
    out := [];
    for i := 0 to |page|
      invariant out == Filter(page[..i], s.visible)
    {
      assert page[..i + 1] == page[..i] + [page[i]];
      FilterSnoc(page[..i], page[i], s.visible);
      hide Filter;
      if page[i] in s.visible {
        out := out + [page[i]];
      }
    }
    assert page[..|page|] == page;
    next := None;
    if |page| > 0 && limit > 0 && |page| >= limit {
      next := Some(page[|page| - 1]);
    }
  }

  lemma {:induction false} FilterAppend(a: seq<Key>, b: seq<Key>, visible: set<Key>)
    ensures Filter(a + b, visible) == Filter(a, visible) + Filter(b, visible)
  {
    if a == [] {
      assert a + b == b;
    } else {
      assert (a + b)[1..] == a[1..] + b;
      FilterAppend(a[1..], b, visible);
      if a[0] in visible {
        assert [a[0]] + (Filter(a[1..], visible) + Filter(b, visible)) == [a[0]] + Filter(a[1..],
            visible) + Filter(b, visible);
      }
    }
  }

  lemma FilterSnoc(q: seq<Key>, k: Key, visible: set<Key>)
    ensures Filter(q + [k], visible) == if k in visible then Filter(q, visible) + [k] else Filter(q, visible)
  {
    FilterAppend(q, [k], visible);
    assert Filter([k], visible) == if k in visible then [k] else [];
  }

  lemma {:induction false} FilterHas(q: seq<Key>, visible: set<Key>, k: Key)
    ensures k in Filter(q, visible) <==> k in q && k in visible
  {
    if q != [] {
      FilterHas(q[1..], visible, k);
    }
  }

  lemma {:induction false} FilterSorted(q: seq<Key>, visible: set<Key>)
    requires Sorted(q)
    ensures Sorted(Filter(q, visible))
  {
    if q != [] {
      FilterSorted(q[1..], visible);
      var f := Filter(q[1..], visible);
      if q[0] in visible {
        forall k | k in f ensures Before(q[0], k) {
          FilterHas(q[1..], visible, k);
        }
        SortedAppend([q[0]], f);
      }
    }
  }

  lemma SortedAppend(a: seq<Key>, b: seq<Key>)
    requires Sorted(a) && Sorted(b) && forall x, y :: x in a && y in b ==> Before(x, y)
    ensures Sorted(a + b)
  {
  }

  // ---------- a table that stands still ----------

  /** A full page moves the cursor past itself and leaves exactly what comes after it. */
  lemma NextPageStarts(rows: seq<Key>, limit: nat, after: Option<Key>)
    requires Sorted(rows) && NextCursor(limit, Page(rows, limit, after)).Some?
    ensures var next := NextCursor(limit, Page(rows, limit, after));
      && Skip(rows, next) == Stop(rows, limit, after) == Skip(rows, after) + limit
      && next.value == rows[Stop(rows, limit, after) - 1]
  {
    hide Skip;
    var n := Stop(rows, limit, after);
    var next := NextCursor(limit, Page(rows, limit, after));
    assert next.value == rows[n - 1];
    SkipIs(rows, next, n - 1);
    if n < |rows| { SkipIs(rows, next, n); }
  }

  lemma NextPageIsRest(rows: seq<Key>, limit: nat, after: Option<Key>)
    requires Sorted(rows) && NextCursor(limit, Page(rows, limit, after)).Some?
    ensures Rest(rows, after) == Page(rows, limit, after) + Rest(rows, NextCursor(limit, Page(rows, limit, after)))
    ensures |Rest(rows, NextCursor(limit, Page(rows, limit, after)))| < |Rest(rows, after)|
  {
    hide Skip, Sorted;
    NextPageStarts(rows, limit, after);
  }

  lemma LastPageIsRest(rows: seq<Key>, limit: nat, after: Option<Key>)
    requires NextCursor(limit, Page(rows, limit, after)).None?
    ensures Page(rows, limit, after) == Rest(rows, after)
  {
  }

  /** Everything a client gets that follows the cursor to its end. */
  function Follow(s: Snapshot, limit: nat, after: Option<Key>): seq<Key>
    requires Sorted(s.rows)
    decreases |Rest(s.rows, after)|
  {
    var page := Page(s.rows, limit, after);
    var next := NextCursor(limit, page);
    if next.None? then Filter(page, s.visible)
    else
      NextPageIsRest(s.rows, limit, after);
      Filter(page, s.visible) + Follow(s, limit, next)
  }

  /** Following the cursor ends, and yields exactly the unbounded filtered list, in order. */
  lemma {:induction false} PagesAddUp(s: Snapshot, limit: nat, after: Option<Key>)
    requires Sorted(s.rows)
    ensures Follow(s, limit, after) == Filter(Rest(s.rows, after), s.visible)
    decreases |Rest(s.rows, after)|
  {
    hide Page, Rest, NextCursor, Sorted, Filter;
    var page := Page(s.rows, limit, after);
    var next := NextCursor(limit, page);
    if next.None? {
      LastPageIsRest(s.rows, limit, after);
    } else {
      NextPageIsRest(s.rows, limit, after);
      PagesAddUp(s, limit, next);
      FilterAppend(page, Rest(s.rows, next), s.visible);
    }
  }

  lemma FirstToLast(s: Snapshot, limit: nat)
    requires Sorted(s.rows)
    ensures Follow(s, limit, None) == Filter(s.rows, s.visible) == Follow(s, 0, None)
  {
    PagesAddUp(s, limit, None);
    PagesAddUp(s, 0, None);
  }

  // ---------- a table that changes between the pages ----------

  /** The rows shown over a series of requests, each on its own snapshot; the walk may run out of them. */
  function Walk(snaps: seq<Snapshot>, limit: nat, after: Option<Key>): seq<Key> {
    if snaps == [] then []
    else
      var page := Page(snaps[0].rows, limit, after);
      var next := NextCursor(limit, page);
      Filter(page, snaps[0].visible) + if next.None? then [] else Walk(snaps[1..], limit, next)
  }

  /** The walk got to a page without a cursor. */
  predicate Ends(snaps: seq<Snapshot>, limit: nat, after: Option<Key>) {
    snaps != [] &&
    var next := NextCursor(limit, Page(snaps[0].rows, limit, after));
    next.None? || Ends(snaps[1..], limit, next)
  }

  ghost predicate AllSorted(snaps: seq<Snapshot>) { forall i :: 0 <= i < |snaps| ==> Sorted(snaps[i].rows) }

  lemma PageIsPast(rows: seq<Key>, limit: nat, after: Option<Key>)
    requires Sorted(rows)
    ensures Sorted(Page(rows, limit, after))
    ensures forall k :: k in Page(rows, limit, after) ==> k in rows && Past(after, k)
  {
    hide Past, Skip;
    var page := Page(rows, limit, after);
    var d := Skip(rows, after);
    SliceSorted(rows, d, Stop(rows, limit, after));
    hide Sorted;
    forall k | k in page ensures k in rows && Past(after, k) {
      var j :| 0 <= j < |page| && page[j] == k;
      SkipIs(rows, after, d + j);
    }
  }

  lemma CursorEndsPage(page: seq<Key>, limit: nat)
    requires Sorted(page) && NextCursor(limit, page).Some?
    ensures NextCursor(limit, page).value in page && EndsWith(page, NextCursor(limit, page).value)
  {
  }

  ghost predicate EndsWith(page: seq<Key>, last: Key) { forall k :: k in page ==> k == last || Before(k, last) }

  /** No row is shown twice, and the order holds across pages, whatever is inserted or deleted between
      them. */
  lemma {:induction false} NoRowTwice(snaps: seq<Snapshot>, limit: nat, after: Option<Key>)
    requires AllSorted(snaps)
    ensures Sorted(Walk(snaps, limit, after))
    ensures forall k :: k in Walk(snaps, limit, after) ==> Past(after, k)
  {
    hide Page, NextCursor, Sorted, Filter;
    if snaps == [] {
      NothingIsSorted();
    } else {
      var page := Page(snaps[0].rows, limit, after);
      var next := NextCursor(limit, page);
      PageIsPast(snaps[0].rows, limit, after);
      FilterSorted(page, snaps[0].visible);
      var shown := Filter(page, snaps[0].visible);
      forall k | k in shown ensures k in page { FilterHas(page, snaps[0].visible, k); }
      if next.Some? {
        CursorEndsPage(page, limit);
        NoRowTwice(snaps[1..], limit, next);
        SortedAppend(shown, Walk(snaps[1..], limit, next));
      } else {
        assert Walk(snaps, limit, after) == shown;
      }
    }
  }

  lemma NothingIsSorted()
    ensures Sorted([])
  {
  }

  /** Nothing is shown that the caller could not read in one of the requests. */
  lemma {:induction false} OnlyVisibleRows(snaps: seq<Snapshot>, limit: nat, after: Option<Key>, k: Key)
    requires AllSorted(snaps) && k in Walk(snaps, limit, after)
    ensures exists i :: 0 <= i < |snaps| && k in snaps[i].rows && k in snaps[i].visible
  {
    hide Page, NextCursor, Sorted, Filter, Past;
    var page := Page(snaps[0].rows, limit, after);
    var next := NextCursor(limit, page);
    PageIsPast(snaps[0].rows, limit, after);
    FilterHas(page, snaps[0].visible, k);
    if k !in Filter(page, snaps[0].visible) {
      OnlyVisibleRows(snaps[1..], limit, next, k);
      var i :| 0 <= i < |snaps[1..]| && k in snaps[1..][i].rows && k in snaps[1..][i].visible;
      assert snaps[i + 1] == snaps[1..][i];
    }
  }

  /** A row that is there and readable all along is shown (and, by the above, only once). */
  lemma {:induction false} StableRowsAreShown(snaps: seq<Snapshot>, limit: nat, after: Option<Key>, k: Key)
    requires AllSorted(snaps) && Ends(snaps, limit, after) && Past(after, k)
    requires forall i :: 0 <= i < |snaps| ==> k in snaps[i].rows && k in snaps[i].visible
    ensures k in Walk(snaps, limit, after)
  {
    hide Page, Rest, NextCursor, Sorted, Filter, Past;
    var rows := snaps[0].rows;
    var page := Page(rows, limit, after);
    var next := NextCursor(limit, page);
    RestIs(rows, after, k);
    FilterHas(page, snaps[0].visible, k);
    if next.None? {
      LastPageIsRest(rows, limit, after);
    } else if k !in page {
      NextPageIsRest(rows, limit, after);
      RestIs(rows, next, k);
      assert forall i :: 0 <= i < |snaps[1..]| ==> snaps[1..][i] == snaps[i + 1];
      StableRowsAreShown(snaps[1..], limit, next, k);
    }
  }

  // ---------- and it ends ----------

  /** New rows are newer than every row already there. */
  ghost predicate OnlyNewer(rows: seq<Key>, later: seq<Key>) {
    forall k, o :: k in later && k !in rows && o in rows ==> Before(k, o)
  }

  lemma {:induction false} DistinctLength(q: seq<Key>)
    requires Sorted(q)
    ensures |set k | k in q| == |q|
  {
    if q != [] {
      DistinctLength(q[1..]);
      var tail := set k | k in q[1..];
      assert q[0] !in q[1..];
      assert (set k | k in q) == {q[0]} + tail;
    }
  }

  /** Rows inserted at the front never come behind the cursor: what is left only shrinks. */
  lemma RestShrinks(rows: seq<Key>, later: seq<Key>, last: Key)
    requires Sorted(rows) && Sorted(later) && OnlyNewer(rows, later) && last in rows
    ensures |Rest(later, Some(last))| <= |Rest(rows, Some(last))|
  {
    var a, b := Rest(later, Some(last)), Rest(rows, Some(last));
    SliceSorted(later, Skip(later, Some(last)), |later|);
    SliceSorted(rows, Skip(rows, Some(last)), |rows|);
    hide Rest, Sorted, Skip;
    forall k | k in a ensures k in b {
      RestIs(later, Some(last), k);
      RestIs(rows, Some(last), k);
    }
    DistinctLength(a);
    DistinctLength(b);
    SubsetSize((set k | k in a), (set k | k in b));
  }

  lemma {:induction false} SubsetSize(a: set<Key>, b: set<Key>)
    requires a <= b
    ensures |a| <= |b|
  {
    assert b == a + (b - a);
  }

  /** While rows are only added at the front, a walk with a limit ends within one request per row left. */
  lemma {:induction false} WalkEnds(snaps: seq<Snapshot>, limit: nat, after: Option<Key>)
    requires AllSorted(snaps) && limit > 0 && |snaps| > 0 && |snaps| > |Rest(snaps[0].rows, after)|
    requires forall i :: 0 < i < |snaps| ==> OnlyNewer(snaps[i - 1].rows, snaps[i].rows)
    ensures Ends(snaps, limit, after)
  {
    hide Sorted, OnlyNewer, Rest, Page, NextCursor, Skip;
    var rows := snaps[0].rows;
    var page := Page(rows, limit, after);
    var next := NextCursor(limit, page);
    if next.Some? {
      NextPageIsRest(rows, limit, after);
      PageIsPast(rows, limit, after);
      CursorEndsPage(page, limit);
      RestShrinks(rows, snaps[1].rows, next.value);
      assert forall i :: 0 < i < |snaps[1..]| ==> snaps[1..][i - 1] == snaps[i] && snaps[1..][i] == snaps[i + 1];
      WalkEnds(snaps[1..], limit, next);
    }
  }
}
