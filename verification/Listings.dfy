/** Keyset pagination: newest first, at most `limit` rows strictly below a cursor. */
module Listings {
  import opened Text
  import opened Sorting

  /** The sort key of a listed row, and the content of a cursor. */
  datatype Stamp = Stamp(at: int, id: string)

  datatype Row<+T> = Row(stamp: Stamp, item: T)

  predicate Precedes(a: Stamp, b: Stamp) { a.at < b.at || (a.at == b.at && Less(a.id, b.id)) }

  /** Listing order: newer first, then the greater identifier. */
  predicate Newer<T>(a: Row<T>, b: Row<T>) {
    a.stamp.at > b.stamp.at || (a.stamp.at == b.stamp.at && Less(b.stamp.id, a.stamp.id))
  }

  predicate Eligible(stamp: Stamp, cursor: Option<Stamp>) { cursor.None? || Precedes(stamp, cursor.value) }

  lemma StampTrichotomy(a: Stamp, b: Stamp)
    ensures Precedes(a, b) || Precedes(b, a) || a == b
    ensures !(Precedes(a, b) && Precedes(b, a)) && !Precedes(a, a)
  {
    LessTrichotomy(a.id, b.id);
    LessTrichotomy(a.id, a.id);
  }

  lemma StampTransitive(a: Stamp, b: Stamp, c: Stamp)
    requires Precedes(a, b) && Precedes(b, c)
    ensures Precedes(a, c)
  {
    if a.at == b.at == c.at {
      LessTransitive(a.id, b.id, c.id);
    }
  }

  lemma NewerIsOrdering<T(!new)>()
    ensures Ordering<Row<T>>(Newer<T>)
  {
    forall a: Row<T>, b: Row<T> | Newer(a, b) ensures !Newer(b, a) {
      StampTrichotomy(a.stamp, b.stamp);
    }
    forall a: Row<T>, b: Row<T>, c: Row<T> | !Newer(b, a) && !Newer(c, b) ensures !Newer(c, a) {
      StampTrichotomy(a.stamp, b.stamp);
      StampTrichotomy(b.stamp, c.stamp);
      StampTrichotomy(a.stamp, c.stamp);
      if Precedes(b.stamp, a.stamp) && Precedes(c.stamp, b.stamp) {
        StampTransitive(c.stamp, b.stamp, a.stamp);
      }
    }
  }

  // ---- What a page is ---------------------------------------------------------------------------------

  ghost predicate Descending<T>(rows: seq<Row<T>>) {
    forall i, j | 0 <= i < j < |rows| :: Precedes(rows[j].stamp, rows[i].stamp)
  }

  /** No two rows share a stamp. */
  ghost predicate Distinct<T(!new)>(rows: set<Row<T>>) {
    forall a, b | a in rows && b in rows && a.stamp == b.stamp :: a == b
  }

  ghost function Stamps<T(!new)>(rows: set<Row<T>>): set<Stamp> { set r | r in rows :: r.stamp }

  /** A row the cursor admits and the page does not show. */
  ghost predicate Left<T>(rows: set<Row<T>>, cursor: Option<Stamp>, page: seq<Row<T>>, r: Row<T>) {
    r in rows && Eligible(r.stamp, cursor) && r !in page
  }

  /** The page shows, in order, the newest rows below the cursor; what it leaves is older than all it
      shows, it leaves something only when it is full, and `more` says whether it leaves anything. */
  ghost predicate IsPage<T(!new)>(rows: set<Row<T>>, cursor: Option<Stamp>, limit: nat, page: seq<Row<T>>, more: bool) {
    && Descending(page)
    && (forall r | r in page :: r in rows && Eligible(r.stamp, cursor))
    && |page| <= limit
    && (forall r, q | Left(rows, cursor, page, r) && q in page :: Precedes(r.stamp, q.stamp))
    && (more <==> exists r :: Left(rows, cursor, page, r))
    && (more ==> |page| == limit)
  }

  /** The same where rows may share a stamp: rows with one stamp come in any order, and may fall on either side of the
      end of the page. */
  ghost predicate IsTiedPage<T(!new)>(rows: set<Row<T>>, cursor: Option<Stamp>, limit: nat, page: seq<Row<T>>, more: bool) {
    && NoRepeats(page) && InOrder<Row<T>>(page, Newer<T>)
    && (forall r | r in page :: r in rows && Eligible(r.stamp, cursor))
    && |page| <= limit
    && (forall r, q | Left(rows, cursor, page, r) && q in page :: !Newer(r, q))
    && (more <==> exists r :: Left(rows, cursor, page, r))
    && (more ==> |page| == limit)
  }

  /** Where no two rows share a stamp there are no ties. */
  lemma TiedIsPage<T(!new)>(rows: set<Row<T>>, cursor: Option<Stamp>, limit: nat, page: seq<Row<T>>, more: bool)
    requires IsTiedPage(rows, cursor, limit, page, more) && Distinct(rows)
    ensures IsPage(rows, cursor, limit, page, more)
  {
    forall i, j | 0 <= i < j < |page| ensures Precedes(page[j].stamp, page[i].stamp) {
      assert page[i] in page && page[j] in page && !Newer(page[j], page[i]);
      StampTrichotomy(page[i].stamp, page[j].stamp);
    }
    forall r, q | Left(rows, cursor, page, r) && q in page ensures Precedes(r.stamp, q.stamp) {
      StampTrichotomy(r.stamp, q.stamp);
    }
  }

  lemma DescendingNoRepeats<T>(rows: seq<Row<T>>)
    requires Descending(rows)
    ensures NoRepeats(rows)
  {
    forall i, j | 0 <= i < j < |rows| ensures rows[i] != rows[j] {
      StampTrichotomy(rows[i].stamp, rows[j].stamp);
    }
  }

  /** There is only one such page, so differently written listings that meet it agree. */
  lemma PageUnique<T(!new)>(rows: set<Row<T>>, cursor: Option<Stamp>, limit: nat,
                            p: seq<Row<T>>, pMore: bool, q: seq<Row<T>>, qMore: bool)
    requires Distinct(rows) && IsPage(rows, cursor, limit, p, pMore) && IsPage(rows, cursor, limit, q, qMore)
    ensures p == q && pMore == qMore
  {
    if |p| <= |q| {
      PagePrefix(rows, cursor, limit, p, pMore, q, qMore, |p|);
      NotLonger(rows, cursor, limit, p, pMore, q, qMore);
    } else {
      PagePrefix(rows, cursor, limit, q, qMore, p, pMore, |q|);
      NotLonger(rows, cursor, limit, q, qMore, p, pMore);
    }
    assert p == q;
  }

  lemma NotLonger<T(!new)>(rows: set<Row<T>>, cursor: Option<Stamp>, limit: nat,
                           p: seq<Row<T>>, pMore: bool, q: seq<Row<T>>, qMore: bool)
    requires IsPage(rows, cursor, limit, p, pMore) && IsPage(rows, cursor, limit, q, qMore)
    requires |p| <= |q| && p == q[..|p|]
    ensures |p| == |q|
  {
    DescendingNoRepeats(q);
    if |p| < |q| {
      assert q[|p|] in q && q[|p|] !in q[..|p|];
      assert Left(rows, cursor, p, q[|p|]);
    }
  }

  lemma {:induction false} PagePrefix<T(!new)>(rows: set<Row<T>>, cursor: Option<Stamp>, limit: nat,
                                               p: seq<Row<T>>, pMore: bool, q: seq<Row<T>>, qMore: bool, n: nat)
    requires Distinct(rows) && IsPage(rows, cursor, limit, p, pMore) && IsPage(rows, cursor, limit, q, qMore)
    requires n <= |p| && n <= |q|
    ensures p[..n] == q[..n]
  {
    if n > 0 {
      PagePrefix(rows, cursor, limit, p, pMore, q, qMore, n - 1);
      SameNext(rows, cursor, limit, p, pMore, q, qMore, n - 1);
      assert p[..n] == p[..n - 1] + [p[n - 1]] && q[..n] == q[..n - 1] + [q[n - 1]];
    }
  }

  lemma SameNext<T(!new)>(rows: set<Row<T>>, cursor: Option<Stamp>, limit: nat,
                          p: seq<Row<T>>, pMore: bool, q: seq<Row<T>>, qMore: bool, i: nat)
    requires Distinct(rows) && IsPage(rows, cursor, limit, p, pMore) && IsPage(rows, cursor, limit, q, qMore)
    requires i < |p| && i < |q| && p[..i] == q[..i]
    ensures p[i] == q[i]
  {
    NotNewer(rows, cursor, limit, p, pMore, q, qMore, i);
    NotNewer(rows, cursor, limit, q, qMore, p, pMore, i);
    StampTrichotomy(p[i].stamp, q[i].stamp);
    assert p[i] in p && q[i] in q;
  }

  lemma NotNewer<T(!new)>(rows: set<Row<T>>, cursor: Option<Stamp>, limit: nat,
                          p: seq<Row<T>>, pMore: bool, q: seq<Row<T>>, qMore: bool, i: nat)
    requires IsPage(rows, cursor, limit, p, pMore) && IsPage(rows, cursor, limit, q, qMore)
    requires i < |p| && i < |q| && p[..i] == q[..i]
    ensures !Precedes(q[i].stamp, p[i].stamp)
  {
    var r := p[i];
    StampTrichotomy(r.stamp, q[i].stamp);
    DescendingNoRepeats(p);
    if r in q {
      assert r !in q[..i];
      var j :| i <= j < |q| && q[j] == r;
    } else {
      assert Left(rows, cursor, q, r);
      assert q[i] in q;
    }
  }

  // ---- The three ways the server builds a page ------------------------------------------------------------

  method Sort<T(!new)>(rows: seq<Row<T>>) returns (sorted: seq<Row<T>>)
    requires NoRepeats(rows)
    ensures InOrder<Row<T>>(sorted, Newer<T>) && NoRepeats(sorted) && Elements(sorted) == Elements(rows)
  {
    NewerIsOrdering<T>();
    sorted := SortSlice(rows, Newer<T>);
    Permuted(sorted, rows);
  }

  /** Truncation to a page of what is left after the cursor. */
  method Truncate<T(!new)>(rows: seq<Row<T>>, limit: nat) returns (page: seq<Row<T>>, more: bool)
    requires InOrder<Row<T>>(rows, Newer<T>) && NoRepeats(rows)
    ensures IsTiedPage(Elements(rows), None, limit, page, more)
  {
    more := |rows| > limit;
    page := if more then rows[..limit] else rows;
    if more {
      assert rows[limit] in rows && rows[limit] !in page;
      assert Left(Elements(rows), None, page, rows[limit]);
    }
  }

  /** Paging the eligible rows is paging all rows below the cursor. */
  lemma EligiblePage<T(!new)>(all: set<Row<T>>, kept: set<Row<T>>, cursor: Option<Stamp>, limit: nat, page: seq<Row<T>>, more: bool)
    requires forall r :: r in kept <==> r in all && Eligible(r.stamp, cursor)
    requires IsTiedPage(kept, None, limit, page, more)
    ensures IsTiedPage(all, cursor, limit, page, more)
    ensures Distinct(all) ==> IsPage(all, cursor, limit, page, more)
  {
    assert forall r :: Left(kept, None, page, r) <==> Left(all, cursor, page, r);
    if Distinct(all) {
      TiedIsPage(all, cursor, limit, page, more);
    }
  }

  /** Sort everything, then drop up to the first row below the cursor. */
  method PageBySuffix<T(!new)>(rows: seq<Row<T>>, cursor: Option<Stamp>, limit: nat) returns (page: seq<Row<T>>, more: bool)
    requires NoRepeats(rows)
    ensures IsTiedPage(Elements(rows), cursor, limit, page, more)
    ensures Distinct(Elements(rows)) ==> IsPage(Elements(rows), cursor, limit, page, more)
  {
    var rest := Sort(rows);
    if cursor.Some? {
      rest := AfterCursor(rest, cursor.value);
    }
    page, more := Truncate(rest, limit);
    EligiblePage(Elements(rows), Elements(rest), cursor, limit, page, more);
  }

  method AfterCursor<T(!new)>(sorted: seq<Row<T>>, cursor: Stamp) returns (rest: seq<Row<T>>)
    requires InOrder<Row<T>>(sorted, Newer<T>) && NoRepeats(sorted)
    ensures InOrder<Row<T>>(rest, Newer<T>) && NoRepeats(rest) && (Descending(sorted) ==> Descending(rest))
    ensures forall r :: r in rest <==> r in sorted && Precedes(r.stamp, cursor)
  {
    for index := 0 to |sorted|
      invariant forall i | 0 <= i < index :: !Precedes(sorted[i].stamp, cursor)
    {
      if Precedes(sorted[index].stamp, cursor) {
        forall i | index < i < |sorted| ensures Precedes(sorted[i].stamp, cursor) {
          StampTrichotomy(sorted[i].stamp, sorted[index].stamp);
          if Precedes(sorted[i].stamp, sorted[index].stamp) {
            StampTransitive(sorted[i].stamp, sorted[index].stamp, cursor);
          }
        }
        return sorted[index..];
      }
    }
    return [];
  }

  /** Keep the rows below the cursor, then sort. */
  method PageByFilter<T(!new)>(rows: seq<Row<T>>, cursor: Option<Stamp>, limit: nat) returns (page: seq<Row<T>>, more: bool)
    requires NoRepeats(rows)
    ensures IsTiedPage(Elements(rows), cursor, limit, page, more)
    ensures Distinct(Elements(rows)) ==> IsPage(Elements(rows), cursor, limit, page, more)
  {
    var kept: seq<Row<T>> := [];
    for i := 0 to |rows|
      invariant forall r :: r in kept <==> r in rows[..i] && Eligible(r.stamp, cursor)
      invariant NoRepeats(kept)
    {
      if cursor.None? || rows[i].stamp.at < cursor.value.at
         || (rows[i].stamp.at == cursor.value.at && Less(rows[i].stamp.id, cursor.value.id)) {
        kept := kept + [rows[i]];
      }
    }
    var sorted := Sort(kept);
    page, more := Truncate(sorted, limit);
    EligiblePage(Elements(rows), Elements(kept), cursor, limit, page, more);
  }

  /** Skip the rows at or above the cursor, then sort. */
  method PageByExclusion<T(!new)>(rows: seq<Row<T>>, cursor: Option<Stamp>, limit: nat) returns (page: seq<Row<T>>, more: bool)
    requires NoRepeats(rows)
    ensures IsTiedPage(Elements(rows), cursor, limit, page, more)
    ensures Distinct(Elements(rows)) ==> IsPage(Elements(rows), cursor, limit, page, more)
  {
    var kept: seq<Row<T>> := [];
    for i := 0 to |rows|
      invariant forall r :: r in kept <==> r in rows[..i] && Eligible(r.stamp, cursor)
      invariant NoRepeats(kept)
    {
      if cursor.Some? && (rows[i].stamp.at > cursor.value.at
         || (rows[i].stamp.at == cursor.value.at && (Less(cursor.value.id, rows[i].stamp.id) || rows[i].stamp.id == cursor.value.id))) {
        StampTrichotomy(rows[i].stamp, cursor.value);
        continue;
      }
      if cursor.Some? {
        StampTrichotomy(rows[i].stamp, cursor.value);
      }
      kept := kept + [rows[i]];
    }
    var sorted := Sort(kept);
    page, more := Truncate(sorted, limit);
    EligiblePage(Elements(rows), Elements(kept), cursor, limit, page, more);
  }

  /** Different entries of a map give different rows. */
  ghost predicate OneRowEach<K(!new), V, T(!new)>(m: map<K, V>, row: (K, V) -> Option<Row<T>>) {
    forall k, l | k in m && l in m && row(k, m[k]).Some? && row(k, m[k]) == row(l, m[l]) :: k == l
  }

  /** Different entries of a map never even give rows with the same stamp. */
  ghost predicate OneStampEach<K(!new), V, T(!new)>(m: map<K, V>, row: (K, V) -> Option<Row<T>>) {
    forall k, l | k in m && l in m && row(k, m[k]).Some? && row(l, m[l]).Some?
                  && row(k, m[k]).value.stamp == row(l, m[l]).value.stamp :: k == l
  }

  ghost predicate RowOf<K(!new), V, T>(m: map<K, V>, row: (K, V) -> Option<Row<T>>, r: Row<T>) {
    exists k :: k in m && row(k, m[k]) == Some(r)
  }

  /** Visit a map in any order and append the rows its entries give. */
  method Gather<K(!new, ==), V, T(!new)>(m: map<K, V>, row: (K, V) -> Option<Row<T>>) returns (rows: seq<Row<T>>)
    requires OneRowEach(m, row)
    ensures NoRepeats(rows) && (OneStampEach(m, row) ==> Distinct(Elements(rows)))
    ensures forall r :: r in rows <==> RowOf(m, row, r)
  {
    rows := [];
    var keys := m.Keys;
    while keys != {}
      invariant keys <= m.Keys
      invariant NoRepeats(rows)
      invariant forall r | r in rows :: exists k :: k in m && k !in keys && row(k, m[k]) == Some(r)
      invariant forall k | k in m && k !in keys && row(k, m[k]).Some? :: row(k, m[k]).value in rows
    {
      var k :| k in keys;
      keys := keys - {k};
      if row(k, m[k]).Some? {
        rows := rows + [row(k, m[k]).value];
      }
    }
  }

  // ---- Following cursors to the end ---------------------------------------------------------------------------

  /** One page request: the rows there were, and the page they gave. */
  datatype Fetch<T(==)> = Fetch(rows: set<Row<T>>, limit: nat, page: seq<Row<T>>, more: bool)

  ghost function LastStamp<T>(page: seq<Row<T>>): Option<Stamp> {
    if page == [] then None else Some(page[|page| - 1].stamp)
  }

  /** Successive requests: each is made because the one before reported more, and starts from the last row that
      one showed. Rows may come and go in between. */
  ghost predicate Trail<T(!new)>(fetches: seq<Fetch<T>>) {
    fetches == [] ||
    var n := |fetches| - 1;
    && Trail(fetches[..n])
    && fetches[n].limit >= 1
    && IsPage(fetches[n].rows, NextCursor(fetches[..n]), fetches[n].limit, fetches[n].page, fetches[n].more)
    && (n > 0 ==> fetches[n - 1].more)
  }

  ghost function NextCursor<T>(fetches: seq<Fetch<T>>): Option<Stamp> {
    if fetches == [] then None else LastStamp(fetches[|fetches| - 1].page)
  }

  ghost function Collected<T>(fetches: seq<Fetch<T>>): seq<Row<T>> {
    if fetches == [] then [] else Collected(fetches[..|fetches| - 1]) + fetches[|fetches| - 1].page
  }

  ghost predicate Shown<T>(rows: seq<Row<T>>, stamp: Stamp) {
    exists i :: 0 <= i < |rows| && rows[i].stamp == stamp
  }

  /** The stamp is there at every request. */
  ghost predicate Stays<T(!new)>(fetches: seq<Fetch<T>>, stamp: Stamp) {
    forall f | f in fetches :: stamp in Stamps(f.rows)
  }

  /** Following cursors to the end repeats nothing, and shows every row that stays there while the pages are
      read exactly once, whatever else comes or goes between them and whatever the limits are. */
  lemma FollowingCursorsIsExact<T(!new)>(fetches: seq<Fetch<T>>)
    requires Trail(fetches) && fetches != [] && !fetches[|fetches| - 1].more
    ensures NoRepeats(Collected(fetches)) && Descending(Collected(fetches))
    ensures forall stamp | Stays(fetches, stamp) :: Shown(Collected(fetches), stamp)
  {
    TrailDescends(fetches);
    DescendingNoRepeats(Collected(fetches));
    forall stamp | Stays(fetches, stamp) ensures Shown(Collected(fetches), stamp) {
      TrailCovers(fetches, stamp);
    }
  }

  /** Every row is at or above the edge. */
  ghost predicate Above<T>(rows: seq<Row<T>>, edge: Option<Stamp>) {
    if edge.None? then rows == [] else forall r | r in rows :: r.stamp == edge.value || Precedes(edge.value, r.stamp)
  }

  lemma {:induction false} TrailDescends<T(!new)>(fetches: seq<Fetch<T>>)
    requires Trail(fetches)
    ensures Descending(Collected(fetches))
    ensures fetches != [] && fetches[|fetches| - 1].more ==> Above(Collected(fetches), NextCursor(fetches))
  {
    if fetches != [] {
      var n := |fetches| - 1;
      var last := fetches[n];
      TrailDescends(fetches[..n]);
      PageDescends(Collected(fetches[..n]), NextCursor(fetches[..n]), last.rows, last.limit, last.page, last.more);
    }
  }

  lemma PageDescends<T(!new)>(before: seq<Row<T>>, cursor: Option<Stamp>, rows: set<Row<T>>, limit: nat, page: seq<Row<T>>, more: bool)
    requires Descending(before) && Above(before, cursor) && limit >= 1
    requires IsPage(rows, cursor, limit, page, more)
    ensures Descending(before + page)
    ensures page != [] ==> Above(before + page, LastStamp(page))
  {
    forall q, r | q in before && r in page ensures Precedes(r.stamp, q.stamp) {
      assert Precedes(r.stamp, cursor.value);
      if q.stamp != cursor.value {
        StampTransitive(r.stamp, cursor.value, q.stamp);
      }
    }
  }

  lemma {:induction false} TrailCovers<T(!new)>(fetches: seq<Fetch<T>>, stamp: Stamp)
    requires Trail(fetches) && fetches != [] && Stays(fetches, stamp)
    ensures Shown(Collected(fetches), stamp) || (fetches[|fetches| - 1].more && Eligible(stamp, NextCursor(fetches)))
  {
    var n := |fetches| - 1;
    var last := fetches[n];
    assert last in fetches;
    if n > 0 {
      TrailCovers(fetches[..n], stamp);
    }
    PageCovers(stamp, Collected(fetches[..n]), NextCursor(fetches[..n]), last.rows, last.limit, last.page, last.more);
  }

  /** A row that was shown, or lies below the cursor, is shown by the page or lies below its last row. */
  lemma PageCovers<T(!new)>(stamp: Stamp, before: seq<Row<T>>, cursor: Option<Stamp>,
                            rows: set<Row<T>>, limit: nat, page: seq<Row<T>>, more: bool)
    requires Shown(before, stamp) || Eligible(stamp, cursor)
    requires stamp in Stamps(rows) && limit >= 1 && IsPage(rows, cursor, limit, page, more)
    ensures Shown(before + page, stamp) || (more && Eligible(stamp, LastStamp(page)))
  {
    if Shown(before, stamp) {
      var i :| 0 <= i < |before| && before[i].stamp == stamp;
      assert (before + page)[i].stamp == stamp;
    } else {
      var r :| r in rows && r.stamp == stamp;
      if r in page {
        var i :| 0 <= i < |page| && page[i] == r;
        assert (before + page)[|before| + i].stamp == stamp;
      } else {
        assert Left(rows, cursor, page, r);
      }
    }
  }
}
