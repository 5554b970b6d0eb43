/** The child-record table of `ExceptionStore` (api/store.py) and its cursor pagination. */
module Records {
  import opened Wrappers
  import opened Sequences
  import opened Ordering
  import opened Model

  // The records dict is a sequence in insertion order; ids are distinct.

  ghost predicate UniqueIds(records: seq<ChildCase>) {
    && (forall r :: r in records ==> r.id != "")
    && (forall i, j :: 0 <= i < j < |records| ==> records[i].id != records[j].id)
  }

  function Ids(records: seq<ChildCase>): set<string> {
    set r | r in records :: r.id
  }

  function Position(rows: seq<ChildCase>, id: string): Option<nat> {
    if rows == [] then None
    else if rows[0].id == id then Some(0)
    else match Position(rows[1..], id) case None => None case Some(k) => Some(k + 1)
  }

  lemma {:induction false} PositionFinds(rows: seq<ChildCase>, k: nat)
    requires UniqueIds(rows) && k < |rows|
    ensures Position(rows, rows[k].id) == Some(k)
  {
    if 0 < k {
      PositionFinds(rows[1..], k - 1);
    }
  }

  lemma {:induction false} PositionSound(rows: seq<ChildCase>, id: string)
    ensures match Position(rows, id)
            case None => id !in Ids(rows)
            case Some(k) => k < |rows| && rows[k].id == id
  {
    if rows != [] && rows[0].id != id {
      PositionSound(rows[1..], id);
      assert rows == [rows[0]] + rows[1..];
    }
  }

  function ChildrenOf(tenant: string, caseId: string): ChildCase -> bool {
    (r: ChildCase) => r.tenantId == tenant && r.parentCaseId == Some(caseId)
  }

  /** list_by_case. */
  function ListByCase(records: seq<ChildCase>, tenant: string, caseId: string): seq<ChildCase> {
    Filter(records, ChildrenOf(tenant, caseId))
  }

  function OrphanOf(tenant: string): ChildCase -> bool {
    (r: ChildCase) => r.tenantId == tenant && r.parentCaseId == None
  }

  /** list_orphans. */
  function ListOrphans(records: seq<ChildCase>, tenant: string): seq<ChildCase> {
    Filter(records, OrphanOf(tenant))
  }

  // ----- pagination ---------------------------------------------------------

  datatype Query = Query(tenant: string, status: Option<Lifecycle>, intent: Option<string>)

  datatype Page = Page(items: seq<ChildCase>, nextCursor: Option<string>, hasMore: bool)

  function Matches(q: Query): ChildCase -> bool {
    (r: ChildCase) =>
      && r.tenantId == q.tenant
      && (q.status.Some? ==> r.lifecycle == q.status.value)
      && (Truthy(q.intent) ==> r.intent == q.intent)
  }

  function NewestFirst(): ChildCase -> int {
    (r: ChildCase) => -r.createdAt
  }

  /** The full result list: matching records, `created_at` descending, ties in insertion order. */
  function Rows(records: seq<ChildCase>, q: Query): seq<ChildCase> {
    SortByKey(Filter(records, Matches(q)), NewestFirst())
  }

  function After(rows: seq<ChildCase>, cursor: Option<string>): seq<ChildCase> {
    if !Truthy(cursor) then rows
    else match Position(rows, cursor.value)
      case None => rows
      case Some(k) => PositionSound(rows, cursor.value); rows[k + 1..]
  }

  /** Python's `rows[:limit]`: a negative limit counts from the end. */
  function Cut(rows: seq<ChildCase>, limit: int): seq<ChildCase> {
    if |rows| <= limit then rows
    else if 0 <= limit then rows[..limit]
    else if 0 <= |rows| + limit then rows[..|rows| + limit]
    else []
  }

  /** ExceptionStore.list. */
  function ListPage(records: seq<ChildCase>, q: Query, limit: int, cursor: Option<string>): Page {
    var rows := After(Rows(records, q), cursor);
    var hasMore := |rows| > limit;
    var items := Cut(rows, limit);
    Page(items, if hasMore && items != [] then Some(items[|items| - 1].id) else None, hasMore)
  }

  /** A client following `next_cursor`; its i-th request meets `tables[i]`. Returns the rows
      it collected and whether it reached the end. */
  function WalkOver(tables: seq<seq<ChildCase>>, q: Query, limit: int, cursor: Option<string>): (seq<ChildCase>, bool)
    decreases |tables|
  {
    if tables == [] then ([], false)
    else
      var page := ListPage(tables[0], q, limit, cursor);
      if page.nextCursor == None then (page.items, true)
      else
        var (rest, finished) := WalkOver(tables[1..], q, limit, page.nextCursor);
        (page.items + rest, finished)
  }

  function IdIn(ids: set<string>): ChildCase -> bool {
    (r: ChildCase) => r.id in ids
  }

  /** How many rows are already behind the cursor. */
  function Behind(rows: seq<ChildCase>, cursor: Option<string>): (k: nat)
    ensures k <= |rows| && After(rows, cursor) == rows[k..]
  {
    if !Truthy(cursor) then 0
    else match Position(rows, cursor.value)
      case None => 0
      case Some(k) => PositionSound(rows, cursor.value); k + 1
  }

  predicate OnRow(rows: seq<ChildCase>, cursor: Option<string>) {
    cursor == None || (Truthy(cursor) && Position(rows, cursor.value).Some?)
  }

  // Sorting keeps exactly the matching records.

  function CreatedAtIs(at: int): ChildCase -> bool {
    HasKey(NewestFirst(), -at)
  }

  /** Newest first, and among equally old records in insertion order. */
  lemma RowsAreOrdered(records: seq<ChildCase>, q: Query, at: int)
    ensures var rows := Rows(records, q);
            && (forall i, j :: 0 <= i < j < |rows| ==> rows[i].createdAt >= rows[j].createdAt)
            && Filter(rows, CreatedAtIs(at)) == Filter(Filter(records, Matches(q)), CreatedAtIs(at))
  {
    var kept := Filter(records, Matches(q));
    var rows := Rows(records, q);
    SortIsSorted(kept, NewestFirst());
    SortIsStable(kept, NewestFirst(), -at);
    forall i, j | 0 <= i < j < |rows| ensures rows[i].createdAt >= rows[j].createdAt {
      assert NewestFirst()(rows[i]) <= NewestFirst()(rows[j]);
    }
  }

  lemma RowsAreMatches(records: seq<ChildCase>, q: Query, r: ChildCase)
    ensures r in Rows(records, q) <==> r in records && Matches(q)(r)
  {
    var kept := Filter(records, Matches(q));
    SortByMultiset(kept, ByKey(NewestFirst()));
    FilterMember(records, Matches(q), r);
    assert r in multiset(Rows(records, q)) <==> r in multiset(kept);
  }

  /** Which records the three lists hold, by their fields. An absent or empty intent asks for
      every intent. */
  lemma ListedByFields(records: seq<ChildCase>, q: Query, tenant: string, caseId: string, r: ChildCase)
    ensures r in Rows(records, q) <==>
              && r in records && r.tenantId == q.tenant
              && (q.status == None || q.status == Some(r.lifecycle))
              && (q.intent == None || q.intent == Some("") || q.intent == r.intent)
    ensures r in ListByCase(records, tenant, caseId) <==>
              r in records && r.tenantId == tenant && r.parentCaseId == Some(caseId)
    ensures r in ListOrphans(records, tenant) <==> r in records && r.tenantId == tenant && r.parentCaseId == None
  {
    RowsAreMatches(records, q, r);
    FilterMember(records, ChildrenOf(tenant, caseId), r);
    FilterMember(records, OrphanOf(tenant), r);
  }

  /** A page by its length: from the row behind the cursor on, at most `limit` rows, or all but
      the last `-limit`; there is more exactly when more rows than `limit` were left. */
  lemma PageByLength(records: seq<ChildCase>, q: Query, limit: int, cursor: Option<string>)
    ensures var rows := After(Rows(records, q), cursor); var page := ListPage(records, q, limit, cursor);
            && |page.items| <= |rows| && page.items == rows[..|page.items|]
            && (page.hasMore <==> |rows| > limit)
            && (0 <= limit <= |rows| ==> |page.items| == limit)
            && (limit > |rows| ==> |page.items| == |rows|)
            && (-|rows| <= limit < 0 ==> |page.items| == |rows| + limit)
            && (limit < -|rows| ==> page.items == [])
            && (page.nextCursor.Some? <==> page.hasMore && page.items != [])
            && (page.nextCursor.Some? ==> page.nextCursor == Some(page.items[|page.items| - 1].id))
  {
  }

  /** Where a request starts: behind the row with the cursor's id, or at the start without
      a cursor, with an empty one, or with one that is not listed. */
  lemma StartsBehindCursor(rows: seq<ChildCase>, cursor: Option<string>, k: nat)
    requires UniqueIds(rows) && k < |rows|
    ensures cursor == Some(rows[k].id) ==> After(rows, cursor) == rows[k + 1..]
    ensures cursor == None || cursor == Some("") || cursor.value !in Ids(rows) ==> After(rows, cursor) == rows
  {
    assert rows[k] in rows;
    PositionFinds(rows, k);
    if Truthy(cursor) {
      PositionSound(rows, cursor.value);
      if Position(rows, cursor.value).Some? {
        assert rows[Position(rows, cursor.value).value] in rows;
      }
    }
  }

  lemma {:induction false} FilterKeepsUnique(s: seq<ChildCase>, p: ChildCase -> bool)
    requires UniqueIds(s)
    ensures UniqueIds(Filter(s, p))
  {
    if s != [] {
      var front, last := s[..|s| - 1], s[|s| - 1];
      FilterKeepsUnique(front, p);
      forall r | r in Filter(front, p) ensures r.id != last.id && r in s {
        FilterMember(front, p, r);
        var i :| 0 <= i < |front| && front[i] == r;
        assert s[i].id != s[|s| - 1].id;
      }
      assert last in s;
    }
  }

  lemma SpliceKeepsUnique(s: seq<ChildCase>, x: ChildCase, q: nat)
    requires UniqueIds(s) && q <= |s| && x.id != "" && x.id !in Ids(s)
    ensures UniqueIds(s[..q] + [x] + s[q..])
  {
    var t := s[..q] + [x] + s[q..];
    forall i | 0 <= i < |t| && i != q
      ensures t[i].id != x.id && t[i] == s[if i < q then i else i - 1]
    {
      assert s[if i < q then i else i - 1] in s;
    }
  }

  lemma {:induction false} SortKeepsUnique(s: seq<ChildCase>)
    requires UniqueIds(s)
    ensures UniqueIds(SortByKey(s, NewestFirst()))
  {
    if s != [] {
      var front, last := s[..|s| - 1], s[|s| - 1];
      var sorted := SortByKey(front, NewestFirst());
      SortKeepsUnique(front);
      SortByMultiset(front, ByKey(NewestFirst()));
      forall r | r in sorted ensures r.id != last.id {
        assert r in multiset(front);
        var i :| 0 <= i < |front| && front[i] == r;
        assert s[i].id != s[|s| - 1].id;
      }
      assert last in s;
      var q := InsertSplices(sorted, last, ByKey(NewestFirst()));
      SpliceKeepsUnique(sorted, last, q);
    }
  }

  lemma RowsUnique(records: seq<ChildCase>, q: Query)
    requires UniqueIds(records)
    ensures UniqueIds(Rows(records, q))
  {
    FilterKeepsUnique(records, Matches(q));
    SortKeepsUnique(Filter(records, Matches(q)));
  }

  // ----- what a create between two pages does -------------------------------

  /** A create splices at most one row into the list: the rows behind the cursor
      stay behind it, and the ones ahead stay ahead, in the same order. */
  lemma CreateKeepsPlace(records: seq<ChildCase>, r: ChildCase, q: Query, cursor: Option<string>, base: set<string>)
    requires UniqueIds(records + [r]) && r.id !in base
    requires OnRow(Rows(records, q), cursor)
    ensures var rows := Rows(records, q); var rows' := Rows(records + [r], q);
            && OnRow(rows', cursor)
            && Filter(After(rows', cursor), IdIn(base)) == Filter(After(rows, cursor), IdIn(base))
            && Ids(rows[..Behind(rows, cursor)]) <= Ids(rows'[..Behind(rows', cursor)])
  {
    var rows, rows' := Rows(records, q), Rows(records + [r], q);
    assert records == (records + [r])[..|records|];
    assert UniqueIds(records);
    RowsUnique(records, q);
    RowsUnique(records + [r], q);
    if Matches(q)(r) {
      var kept := Filter(records, Matches(q));
      assert Filter(records + [r], Matches(q)) == kept + [r];
      assert rows' == InsertBy(rows, r, ByKey(NewestFirst())) by { assert (kept + [r])[..|kept|] == kept; }
      var s := InsertSplices(rows, r, ByKey(NewestFirst()));
      SpliceKeepsPlace(rows, r, s, cursor, base);
    }
  }

  lemma SpliceMovesCursor(rows: seq<ChildCase>, r: ChildCase, s: nat, cursor: Option<string>)
    requires s <= |rows| && UniqueIds(rows[..s] + [r] + rows[s..])
    requires OnRow(rows, cursor)
    ensures var rows' := rows[..s] + [r] + rows[s..]; var k := Behind(rows, cursor);
            && OnRow(rows', cursor)
            && Behind(rows', cursor) == if k == 0 || k <= s then k else k + 1
  {
    if cursor != None {
      var rows' := rows[..s] + [r] + rows[s..];
      var k := Behind(rows, cursor);
      PositionSound(rows, cursor.value);
      var k' := if k <= s then k else k + 1;
      assert rows'[k' - 1] == rows[k - 1];
      PositionFinds(rows', k' - 1);
    }
  }

  lemma SpliceKeepsAhead(rows: seq<ChildCase>, r: ChildCase, s: nat, k: nat, p: ChildCase -> bool)
    requires k <= s <= |rows| && !p(r)
    ensures Filter((rows[..s] + [r] + rows[s..])[k..], p) == Filter(rows[k..], p)
  {
    assert (rows[..s] + [r] + rows[s..])[k..] == rows[k..s] + [r] + rows[s..];
    assert rows[k..] == rows[k..s] + rows[s..];
    FilterConcat(rows[k..s] + [r], rows[s..], p);
    FilterConcat(rows[k..s], [r], p);
    FilterConcat(rows[k..s], rows[s..], p);
  }

  lemma SpliceKeepsPlace(rows: seq<ChildCase>, r: ChildCase, s: nat, cursor: Option<string>, base: set<string>)
    requires s <= |rows| && r.id !in base
    requires UniqueIds(rows[..s] + [r] + rows[s..])
    requires OnRow(rows, cursor)
    ensures var rows' := rows[..s] + [r] + rows[s..];
            && OnRow(rows', cursor)
            && Filter(After(rows', cursor), IdIn(base)) == Filter(After(rows, cursor), IdIn(base))
            && Ids(rows[..Behind(rows, cursor)]) <= Ids(rows'[..Behind(rows', cursor)])
  {
    var rows' := rows[..s] + [r] + rows[s..];
    var k := Behind(rows, cursor);
    SpliceMovesCursor(rows, r, s, cursor);
    if k == 0 || k <= s {
      SpliceKeepsAhead(rows, r, s, k, IdIn(base));
      assert rows'[..k] == rows[..k];
    } else {
      assert rows'[k + 1..] == rows[k..];
      assert rows'[..k + 1] == rows[..s] + [r] + rows[s..k];
      assert rows[..k] == rows[..s] + rows[s..k];
    }
  }

  lemma {:induction false} CreatesKeepPlace(records: seq<ChildCase>, added: seq<ChildCase>, q: Query,
                                            cursor: Option<string>, base: set<string>)
    requires UniqueIds(records + added) && Ids(added) !! base
    requires OnRow(Rows(records, q), cursor)
    ensures var rows := Rows(records, q); var rows' := Rows(records + added, q);
            && OnRow(rows', cursor)
            && Filter(After(rows', cursor), IdIn(base)) == Filter(After(rows, cursor), IdIn(base))
            && Ids(rows[..Behind(rows, cursor)]) <= Ids(rows'[..Behind(rows', cursor)])
  {
    if added == [] {
      assert records + added == records;
    } else {
      var front, last := added[..|added| - 1], added[|added| - 1];
      assert (records + front) + [last] == records + added;
      UniquePrefix(records + front, [last]);
      assert last in added;
      assert Ids(front) <= Ids(added) by { assert added == front + [last]; }
      CreatesKeepPlace(records, front, q, cursor, base);
      CreateKeepsPlace(records + front, last, q, cursor, base);
    }
  }

  lemma UniquePrefix(s: seq<ChildCase>, t: seq<ChildCase>)
    requires UniqueIds(s + t)
    ensures UniqueIds(s)
  {
    assert forall i :: 0 <= i < |s| ==> (s + t)[i] == s[i];
  }

  // ----- following the cursor -----------------------------------------------

  lemma PageIsCut(records: seq<ChildCase>, q: Query, limit: nat, cursor: Option<string>)
    requires 1 <= limit
    ensures var page := ListPage(records, q, limit, cursor); var ahead := After(Rows(records, q), cursor);
            && page.items == Cut(ahead, limit)
            && page.nextCursor == NextCursor(ahead, limit)
  {
  }

  lemma CursorLandsOn(rows: seq<ChildCase>, k: nat)
    requires UniqueIds(rows) && k < |rows|
    ensures OnRow(rows, Some(rows[k].id)) && Behind(rows, Some(rows[k].id)) == k + 1
  {
    assert rows[k] in rows;
    PositionFinds(rows, k);
  }

  function NextCursor(ahead: seq<ChildCase>, limit: nat): Option<string>
    requires 1 <= limit
  {
    if |ahead| <= limit then None else Some(ahead[limit - 1].id)
  }

  /** Where a cut of the rows from k on ends. */
  lemma CutAdvances(rows: seq<ChildCase>, k: nat, limit: nat)
    requires 1 <= limit && UniqueIds(rows) && k <= |rows|
    ensures var items, next := Cut(rows[k..], limit), NextCursor(rows[k..], limit);
            && (next == None ==> items == rows[k..])
            && (next != None ==>
                  && k + limit < |rows| && items == rows[k..k + limit]
                  && OnRow(rows, next) && Behind(rows, next) == k + limit)
  {
    if |rows[k..]| > limit {
      assert rows[k..][limit - 1] == rows[k + limit - 1];
      CursorLandsOn(rows, k + limit - 1);
    }
  }

  /** A page that has a successor ends exactly where the next one starts. */
  lemma PageAdvances(records: seq<ChildCase>, q: Query, limit: nat, cursor: Option<string>)
    requires 1 <= limit && UniqueIds(records)
    ensures var page := ListPage(records, q, limit, cursor); var rows := Rows(records, q);
            var k := Behind(rows, cursor);
            && (page.nextCursor == None ==> page.items == rows[k..])
            && (page.nextCursor != None ==>
                  && k + limit < |rows| && page.items == rows[k..k + limit]
                  && OnRow(rows, page.nextCursor) && Behind(rows, page.nextCursor) == k + limit)
  {
    var rows := Rows(records, q);
    RowsUnique(records, q);
    PageIsCut(records, q, limit, cursor);
    CutPageAdvances(rows, Behind(rows, cursor), limit, ListPage(records, q, limit, cursor));
  }

  lemma CutPageAdvances(rows: seq<ChildCase>, k: nat, limit: nat, page: Page)
    requires 1 <= limit && UniqueIds(rows) && k <= |rows|
    requires page.items == Cut(rows[k..], limit) && page.nextCursor == NextCursor(rows[k..], limit)
    ensures page.nextCursor == None ==> page.items == rows[k..]
    ensures page.nextCursor != None ==>
              && k + limit < |rows| && page.items == rows[k..k + limit]
              && OnRow(rows, page.nextCursor) && Behind(rows, page.nextCursor) == k + limit
  {
    CutAdvances(rows, k, limit);
  }

  /** A page shares no id with the rows behind it; both lie behind the next cursor. */
  lemma PageIsFresh(rows: seq<ChildCase>, k: nat, limit: nat)
    requires UniqueIds(rows) && k + limit <= |rows|
    ensures var page := rows[k..k + limit];
            && UniqueIds(page) && Ids(page) !! Ids(rows[..k])
            && Ids(rows[..k + limit]) == Ids(rows[..k]) + Ids(page)
  {
    var seen := rows[..k + limit];
    SplitUnique(rows, k + limit);
    SplitUnique(seen, k);
    assert seen[..k] == rows[..k] && seen[k..] == rows[k..k + limit];
    assert seen == rows[..k] + rows[k..k + limit];
  }

  lemma SplitUnique(rows: seq<ChildCase>, k: nat)
    requires UniqueIds(rows) && k <= |rows|
    ensures UniqueIds(rows[k..]) && UniqueIds(rows[..k]) && Ids(rows[..k]) !! Ids(rows[k..])
  {
    var ahead := rows[k..];
    forall i, j | 0 <= i < k && 0 <= j < |ahead| ensures rows[i].id != ahead[j].id {
      assert ahead[j] == rows[k + j];
    }
  }

  lemma JoinUnique(s: seq<ChildCase>, t: seq<ChildCase>)
    requires UniqueIds(s) && UniqueIds(t) && Ids(s) !! Ids(t)
    ensures UniqueIds(s + t)
  {
    forall i, j | 0 <= i < j < |s + t| ensures (s + t)[i].id != (s + t)[j].id {
      if i < |s| <= j {
        assert s[i].id in Ids(s) && t[j - |s|].id in Ids(t);
      } else if |s| <= i {
        assert t[i - |s|].id != t[j - |s|].id;
      }
    }
  }

  // ----- walks over a table that does not change ----------------------------

  /** `n` requests that meet the same table. */
  function Still(records: seq<ChildCase>, n: nat): seq<seq<ChildCase>> {
    seq(n, _ => records)
  }

  lemma FewerRowsAhead(records: seq<ChildCase>, q: Query, limit: nat, cursor: Option<string>)
    requires 1 <= limit && UniqueIds(records)
    ensures var rows := Rows(records, q); var next := ListPage(records, q, limit, cursor).nextCursor;
            if next == None then |After(rows, cursor)| <= limit
            else 1 <= |After(rows, next)| == |After(rows, cursor)| - limit
  {
    PageIsCut(records, q, limit, cursor);
    PageAdvances(records, q, limit, cursor);
  }

  lemma OneRequest(records: seq<ChildCase>, q: Query, limit: int, cursor: Option<string>, n: nat)
    requires 1 <= n
    ensures var next := ListPage(records, q, limit, cursor).nextCursor;
            WalkOver(Still(records, n), q, limit, cursor).1 <==>
              next == None || WalkOver(Still(records, n - 1), q, limit, next).1
  {
    assert Still(records, n)[1..] == Still(records, n - 1);
  }

  /** How many pages it takes to show that many rows. */
  function Pages(rows: nat, limit: nat): nat
    requires 1 <= limit
  {
    if rows <= limit then 1 else 1 + Pages(rows - limit, limit)
  }

  lemma OnePageMore(rows: nat, left: int, limit: nat, n: nat, last: bool, doneLater: bool)
    requires 1 <= limit && 1 <= n
    requires if last then rows <= limit else 1 <= left == rows - limit && (doneLater <==> Pages(left, limit) <= n - 1)
    ensures last || doneLater <==> Pages(rows, limit) <= n
  {
  }

  /** Over a still table the client is done after exactly that many requests. */
  lemma {:induction false} EndsAfterPages(records: seq<ChildCase>, q: Query, limit: nat, cursor: Option<string>, n: nat)
    requires 1 <= limit && UniqueIds(records)
    ensures WalkOver(Still(records, n), q, limit, cursor).1 <==> Pages(|After(Rows(records, q), cursor)|, limit) <= n
    decreases n
  {
    if n > 0 {
      var rows, next := Rows(records, q), ListPage(records, q, limit, cursor).nextCursor;
      var doneLater := WalkOver(Still(records, n - 1), q, limit, next).1;
      OneRequest(records, q, limit, cursor, n);
      FewerRowsAhead(records, q, limit, cursor);
      EndsAfterPages(records, q, limit, next, n - 1);
      OnePageMore(|After(rows, cursor)|, |After(rows, next)|, limit, n, next == None, doneLater);
    }
  }

  lemma {:induction false} PagesSuffice(rows: nat, limit: nat, n: nat)
    requires 1 <= limit && 1 <= n && rows <= n * limit
    ensures Pages(rows, limit) <= n
    decreases n
  {
    if rows > limit {
      assert n * limit == (n - 1) * limit + limit;
      PagesSuffice(rows - limit, limit, n - 1);
    }
  }

  /** Once the table is still, the client reaches the end within ceil(rows / limit) requests. */
  lemma PaginationEnds(records: seq<ChildCase>, q: Query, limit: nat, cursor: Option<string>, n: nat)
    requires 1 <= limit && UniqueIds(records)
    requires 1 <= n && |After(Rows(records, q), cursor)| <= n * limit
    ensures WalkOver(Still(records, n), q, limit, cursor).1
  {
    PagesSuffice(|After(Rows(records, q), cursor)|, limit, n);
    EndsAfterPages(records, q, limit, cursor, n);
  }

  lemma CutShort(rows: seq<ChildCase>, k: nat, limit: int) returns (m: nat)
    requires limit < 1 && UniqueIds(rows) && k < |rows|
    ensures k + m < |rows| && Cut(rows[k..], limit) == rows[k..k + m]
    ensures rows[|rows| - 1] !in rows[k..k + m]
  {
    m := |Cut(rows[k..], limit)|;
    var items := rows[k..k + m];
    forall i | 0 <= i < m ensures items[i] != rows[|rows| - 1] {
      assert items[i] == rows[k + i] && rows[k + i].id != rows[|rows| - 1].id;
    }
  }

  /** A page cut with a limit below 1 stops short of the last row. */
  lemma ShortPage(records: seq<ChildCase>, q: Query, limit: int, cursor: Option<string>)
    requires limit < 1 && UniqueIds(records) && Behind(Rows(records, q), cursor) < |Rows(records, q)|
    ensures var page := ListPage(records, q, limit, cursor); var rows := Rows(records, q);
            && rows[|rows| - 1] !in page.items
            && (page.nextCursor != None ==> Behind(rows, page.nextCursor) < |rows|)
  {
    var rows := Rows(records, q);
    RowsUnique(records, q);
    var m := CutShort(rows, Behind(rows, cursor), limit);
    if m > 0 {
      CursorLandsOn(rows, Behind(rows, cursor) + m - 1);
    }
  }

  /** With a limit below 1 no walk is complete: the last row is never returned, however
      many requests follow. */
  lemma {:induction false} LimitBelowOneLosesLastRow(records: seq<ChildCase>, q: Query, limit: int,
                                                     cursor: Option<string>, n: nat)
    requires limit < 1 && UniqueIds(records) && Behind(Rows(records, q), cursor) < |Rows(records, q)|
    ensures var rows := Rows(records, q); rows[|rows| - 1] !in WalkOver(Still(records, n), q, limit, cursor).0
    decreases n
  {
    if n > 0 {
      var next := ListPage(records, q, limit, cursor).nextCursor;
      assert Still(records, n)[1..] == Still(records, n - 1);
      ShortPage(records, q, limit, cursor);
      if next != None {
        LimitBelowOneLosesLastRow(records, q, limit, next, n - 1);
      }
    }
  }

  /** With `limit` 0 the walk ends at once, empty-handed, although rows remain. */
  lemma ZeroLimitStops(records: seq<ChildCase>, q: Query)
    ensures WalkOver([records], q, 0, None) == ([], true)
    ensures ListPage(records, q, 0, None).hasMore <==> Rows(records, q) != []
  {
  }
}
