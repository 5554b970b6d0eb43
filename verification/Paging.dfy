/** Cursor pagination while records are created and updated between the pages. */
module Paging {
  import opened Wrappers
  import opened Sequences
  import opened Ordering
  import opened Model
  import opened Records
  import opened Cases
  import opened Children

  // ----- how the table moves between two requests ---------------------------

  predicate SamePlace(r: ChildCase, r': ChildCase) {
    r'.id == r.id && r'.tenantId == r.tenantId && r'.createdAt == r.createdAt
  }

  /** Records are updated in place and new ones are added behind them. */
  ghost predicate Evolves(before: seq<ChildCase>, after: seq<ChildCase>) {
    |before| <= |after| && forall i :: 0 <= i < |before| ==> SamePlace(before[i], after[i])
  }

  lemma CreateEvolves(records: seq<ChildCase>, d: Draft, id: string, now: int)
    ensures Evolves(records, Create(records, d, id, now))
  {
  }

  lemma UpdateEvolves(records: seq<ChildCase>, s: Store, id: string, tenant: string, p: RecordPatch, who: Attribution,
                      now: int)
    requires p.createdAt == None
    ensures Evolves(records, UpdateRecord(records, s, id, tenant, p, who, now).0)
  {
    PositionSound(records, id);
  }

  lemma EvolvesTransitively(a: seq<ChildCase>, b: seq<ChildCase>, c: seq<ChildCase>)
    requires Evolves(a, b) && Evolves(b, c)
    ensures Evolves(a, c)
  {
    forall i | 0 <= i < |a| ensures SamePlace(a[i], c[i]) {
      assert SamePlace(a[i], b[i]) && SamePlace(b[i], c[i]);
    }
  }

  /** One call on the record store; an update meets the case store `s`. */
  datatype Change =
    | Creates(d: Draft, newId: string, now: int)
    | Updates(s: Store, id: string, tenant: string, patch: RecordPatch, who: Attribution, now: int)

  function Changed(records: seq<ChildCase>, c: Change): seq<ChildCase> {
    match c
    case Creates(d, newId, now) => Create(records, d, newId, now)
    case Updates(s, id, tenant, patch, who, now) => UpdateRecord(records, s, id, tenant, patch, who, now).0
  }

  /** New ids are unused, and no update sets `created_at`. */
  predicate Proper(records: seq<ChildCase>, c: Change) {
    match c
    case Creates(_, newId, _) => newId != "" && newId !in Ids(records)
    case Updates(_, _, _, patch, _, _) => patch.createdAt == None
  }

  function AllChanged(records: seq<ChildCase>, cs: seq<Change>): seq<ChildCase> {
    if cs == [] then records else Changed(AllChanged(records, cs[..|cs| - 1]), cs[|cs| - 1])
  }

  ghost predicate AllProper(records: seq<ChildCase>, cs: seq<Change>) {
    forall i :: 0 <= i < |cs| ==> Proper(AllChanged(records, cs[..i]), cs[i])
  }

  lemma OneChangeEvolves(records: seq<ChildCase>, c: Change)
    requires UniqueIds(records) && Proper(records, c)
    ensures UniqueIds(Changed(records, c)) && Evolves(records, Changed(records, c))
  {
    match c {
      case Creates(d, newId, now) =>
        CreateEvolves(records, d, newId, now);
        JoinUnique(records, [NewRecord(d, newId, now)]);
      case Updates(s, id, tenant, patch, who, now) =>
        UpdateEvolves(records, s, id, tenant, patch, who, now);
        PositionSound(records, id);
        if Changed(records, c) != records {
          UpdateKeepsUnique(records, Position(records, id).value,
                            PatchedRecord(records[Position(records, id).value], patch, now));
        }
    }
  }

  /** Any calls between two requests leave an evolved table. */
  lemma {:induction false} ChangesEvolve(records: seq<ChildCase>, cs: seq<Change>)
    requires UniqueIds(records) && AllProper(records, cs)
    ensures UniqueIds(AllChanged(records, cs)) && Evolves(records, AllChanged(records, cs))
  {
    if cs != [] {
      var front := cs[..|cs| - 1];
      assert forall i :: 0 <= i < |front| ==> front[..i] == cs[..i];
      ChangesEvolve(records, front);
      OneChangeEvolves(AllChanged(records, front), cs[|cs| - 1]);
      EvolvesTransitively(records, AllChanged(records, front), AllChanged(records, cs));
    }
  }

  /** The tables the requests meet when `rounds[i]` are the calls before the i-th of them. */
  function TablesOf(records: seq<ChildCase>, rounds: seq<seq<Change>>): seq<seq<ChildCase>>
    decreases |rounds|
  {
    if rounds == [] then []
    else [AllChanged(records, rounds[0])] + TablesOf(AllChanged(records, rounds[0]), rounds[1..])
  }

  ghost predicate RoundsProper(records: seq<ChildCase>, rounds: seq<seq<Change>>)
    decreases |rounds|
  {
    rounds == [] || (AllProper(records, rounds[0]) && RoundsProper(AllChanged(records, rounds[0]), rounds[1..]))
  }

  /** Each table is the one before it, with updates and creates. */
  ghost predicate History(tables: seq<seq<ChildCase>>) {
    && (forall i :: 0 <= i < |tables| ==> UniqueIds(tables[i]))
    && (forall i :: 0 <= i < |tables| - 1 ==> Evolves(tables[i], tables[i + 1]))
  }

  /** Whatever is called between the requests, the tables they meet are such a history. */
  lemma {:induction false} RunsAreHistories(records: seq<ChildCase>, rounds: seq<seq<Change>>)
    requires UniqueIds(records) && RoundsProper(records, rounds)
    ensures History(TablesOf(records, rounds))
    ensures rounds != [] ==> Evolves(records, TablesOf(records, rounds)[0])
    decreases |rounds|
  {
    if rounds != [] {
      var t := AllChanged(records, rounds[0]);
      var later := TablesOf(t, rounds[1..]);
      ChangesEvolve(records, rounds[0]);
      RunsAreHistories(t, rounds[1..]);
      var tables := [t] + later;
      forall i | 0 <= i < |tables| - 1 ensures Evolves(tables[i], tables[i + 1]) {
        assert i > 0 ==> Evolves(later[i - 1], later[i]);
      }
    }
  }

  /** The cursor's record is still listed. */
  ghost predicate Listed(records: seq<ChildCase>, q: Query, cursor: Option<string>) {
    cursor == None || (Truthy(cursor) && exists r :: r in records && r.id == cursor.value && Matches(q)(r))
  }

  ghost predicate AlwaysListed(tables: seq<seq<ChildCase>>, q: Query, limit: nat, cursor: Option<string>)
    decreases |tables|
  {
    tables == [] ||
    (&& Listed(tables[0], q, cursor)
     && var next := ListPage(tables[0], q, limit, cursor).nextCursor;
        next == None || AlwaysListed(tables[1..], q, limit, next))
  }

  /** A request finds its place exactly while the cursor's record still matches the
      query; once an update has taken it out, the client is sent back to the start. */
  lemma CursorFoundIffListed(records: seq<ChildCase>, q: Query, limit: int, cursor: Option<string>)
    ensures OnRow(Rows(records, q), cursor) <==> Listed(records, q, cursor)
    ensures !Listed(records, q, cursor) ==> ListPage(records, q, limit, cursor) == ListPage(records, q, limit, None)
  {
    var rows := Rows(records, q);
    if Truthy(cursor) {
      PositionSound(rows, cursor.value);
      if Position(rows, cursor.value).Some? {
        var r := rows[Position(rows, cursor.value).value];
        RowsAreMatches(records, q, r);
      }
      if Listed(records, q, cursor) {
        var r :| r in records && r.id == cursor.value && Matches(q)(r);
        RowsAreMatches(records, q, r);
      }
    }
  }

  // ----- what updates cannot move -------------------------------------------

  /** A record without the fields that updates change. */
  function Bare(r: ChildCase): ChildCase {
    ChildCase(r.id, r.tenantId, None, INGESTED, None, None, None, None, Missing, r.createdAt, 0)
  }

  function AllBare(s: seq<ChildCase>): seq<ChildCase> {
    seq(|s|, i requires 0 <= i < |s| => Bare(s[i]))
  }

  /** Every record of the tenant. */
  function Everything(tenant: string): Query {
    Query(tenant, None, None)
  }

  function Order(records: seq<ChildCase>, tenant: string): seq<ChildCase> {
    Rows(records, Everything(tenant))
  }

  lemma {:induction false} FilterBare(s: seq<ChildCase>, p: ChildCase -> bool)
    requires forall r :: p(Bare(r)) == p(r)
    ensures Filter(AllBare(s), p) == AllBare(Filter(s, p))
  {
    if s != [] {
      FilterBare(s[..|s| - 1], p);
      assert AllBare(s)[..|s| - 1] == AllBare(s[..|s| - 1]);
    }
  }

  lemma {:induction false} InsertBare(s: seq<ChildCase>, x: ChildCase)
    ensures InsertBy(AllBare(s), Bare(x), ByKey(NewestFirst())) == AllBare(InsertBy(s, x, ByKey(NewestFirst())))
  {
    if s != [] {
      InsertBare(s[..|s| - 1], x);
      assert AllBare(s)[..|s| - 1] == AllBare(s[..|s| - 1]);
    }
  }

  lemma {:induction false} SortBare(s: seq<ChildCase>)
    ensures SortByKey(AllBare(s), NewestFirst()) == AllBare(SortByKey(s, NewestFirst()))
  {
    if s != [] {
      SortBare(s[..|s| - 1]);
      assert AllBare(s)[..|s| - 1] == AllBare(s[..|s| - 1]);
      InsertBare(SortByKey(s[..|s| - 1], NewestFirst()), s[|s| - 1]);
    }
  }

  lemma OrderBare(records: seq<ChildCase>, tenant: string)
    ensures Order(AllBare(records), tenant) == AllBare(Order(records, tenant))
  {
    FilterBare(records, Matches(Everything(tenant)));
    SortBare(Filter(records, Matches(Everything(tenant))));
  }

  lemma {:induction false} PositionBare(rows: seq<ChildCase>, id: string)
    ensures Position(AllBare(rows), id) == Position(rows, id)
  {
    if rows != [] && rows[0].id != id {
      PositionBare(rows[1..], id);
      assert AllBare(rows)[1..] == AllBare(rows[1..]);
    }
  }

  lemma BareIds(s: seq<ChildCase>)
    ensures Ids(AllBare(s)) == Ids(s) && (UniqueIds(s) ==> UniqueIds(AllBare(s)))
  {
    forall r | r in s ensures r.id in Ids(AllBare(s)) {
      var i :| 0 <= i < |s| && s[i] == r;
      assert AllBare(s)[i] in AllBare(s);
    }
  }

  lemma BareBehind(rows: seq<ChildCase>, cursor: Option<string>)
    ensures Behind(AllBare(rows), cursor) == Behind(rows, cursor)
    ensures OnRow(AllBare(rows), cursor) <==> OnRow(rows, cursor)
    ensures After(AllBare(rows), cursor) == AllBare(After(rows, cursor))
    ensures AllBare(rows)[..Behind(rows, cursor)] == AllBare(rows[..Behind(rows, cursor)])
  {
    if Truthy(cursor) {
      PositionBare(rows, cursor.value);
    }
  }

  /** Updates and creates leave the known rows ahead of a cursor ahead of it, in the same
      order, and those behind it behind. */
  lemma EvolvingKeepsPlace(t: seq<ChildCase>, t': seq<ChildCase>, tenant: string, cursor: Option<string>,
                           base: set<string>)
    requires UniqueIds(t) && UniqueIds(t') && Evolves(t, t') && base <= Ids(t) && OnRow(Order(t, tenant), cursor)
    ensures var u, u' := Order(t, tenant), Order(t', tenant);
            && OnRow(u', cursor)
            && AllBare(Filter(After(u', cursor), IdIn(base))) == AllBare(Filter(After(u, cursor), IdIn(base)))
            && Ids(u[..Behind(u, cursor)]) <= Ids(u'[..Behind(u', cursor)])
  {
    var u, u' := Order(t, tenant), Order(t', tenant);
    var b, b' := AllBare(t), AllBare(t');
    var news := b'[|t|..];
    assert b' == b + news;
    BareIds(t);
    BareIds(t');
    NewsAreNew(b, news);
    OrderBare(t, tenant);
    OrderBare(t', tenant);
    BareBehind(u, cursor);
    BareBehind(u', cursor);
    CreatesKeepPlace(b, news, Everything(tenant), cursor, base);
    FilterBare(After(u, cursor), IdIn(base));
    FilterBare(After(u', cursor), IdIn(base));
    BareIds(u[..Behind(u, cursor)]);
    BareIds(u'[..Behind(u', cursor)]);
  }

  lemma NewsAreNew(b: seq<ChildCase>, news: seq<ChildCase>)
    requires UniqueIds(b + news)
    ensures Ids(news) !! Ids(b)
  {
    forall r, s | r in b && s in news ensures r.id != s.id {
      var i :| 0 <= i < |b| && b[i] == r;
      var j :| 0 <= j < |news| && news[j] == s;
      assert (b + news)[i].id != (b + news)[|b| + j].id;
    }
  }

  // ----- a page, seen from the order of everything --------------------------

  /** A query's rows are the matching ones of all rows, in the same order. */
  lemma RowsInOrder(records: seq<ChildCase>, q: Query)
    ensures Rows(records, q) == Filter(Order(records, q.tenant), Matches(q))
  {
    FilterTwice(records, Matches(Everything(q.tenant)), Matches(q), Matches(q));
    KeyIsOrder(NewestFirst());
    SortCommutesWithFilter(Filter(records, Matches(Everything(q.tenant))), ByKey(NewestFirst()), Matches(q));
  }

  lemma AfterInOrder(u: seq<ChildCase>, p: ChildCase -> bool, cursor: Option<string>)
    requires UniqueIds(u) && OnRow(u, cursor) && (cursor != None ==> p(u[Behind(u, cursor) - 1]))
    ensures OnRow(Filter(u, p), cursor) && After(Filter(u, p), cursor) == Filter(After(u, cursor), p)
  {
    if cursor != None {
      var k := Behind(u, cursor);
      PositionSound(u, cursor.value);
      var c := u[k - 1];
      var front, back := Filter(u[..k - 1], p), Filter(u[k..], p);
      assert u == u[..k - 1] + [c] + u[k..];
      FilterMiddle(u[..k - 1], c, u[k..], p);
      assert [c][..0] == [];
      FilterKeepsUnique(u, p);
      assert Filter(u, p)[|front|] == c;
      PositionFinds(Filter(u, p), |front|);
      assert Filter(u, p)[|front| + 1..] == back;
    }
  }

  /** The first n of the kept elements come from a prefix that ends with the last of them. */
  lemma {:induction false} PrefixOfFilter(s: seq<ChildCase>, p: ChildCase -> bool, n: nat) returns (j: nat)
    requires 0 < n <= |Filter(s, p)|
    ensures 0 < j <= |s| && Filter(s[..j], p) == Filter(s, p)[..n] && s[j - 1] == Filter(s, p)[n - 1]
  {
    if n == |Filter(s, p)| && p(s[|s| - 1]) {
      j := |s|;
      assert s[..j] == s;
    } else {
      j := PrefixOfFilter(s[..|s| - 1], p, n);
      assert s[..|s| - 1][..j] == s[..j];
    }
  }

  lemma CutInOrder(u: seq<ChildCase>, k: nat, p: ChildCase -> bool, limit: nat) returns (j: nat)
    requires UniqueIds(u) && k <= |u| && 1 <= limit
    ensures k <= j <= |u| && Cut(Filter(u[k..], p), limit) == Filter(u[k..j], p)
    ensures var ahead := Filter(u[k..], p);
            if |ahead| <= limit then j == |u|
            else var cursor := Some(ahead[limit - 1].id); OnRow(u, cursor) && Behind(u, cursor) == j
  {
    var ahead := Filter(u[k..], p);
    if |ahead| <= limit {
      j := |u|;
      assert u[k..j] == u[k..];
    } else {
      var i := PrefixOfFilter(u[k..], p, limit);
      j := k + i;
      assert u[k..][..i] == u[k..j];
      assert u[j - 1] == ahead[limit - 1] && u[j - 1] in u;
      PositionFinds(u, j - 1);
    }
  }

  lemma AheadInOrder(records: seq<ChildCase>, q: Query, cursor: Option<string>)
    requires UniqueIds(records) && OnRow(Order(records, q.tenant), cursor) && Listed(records, q, cursor)
    ensures After(Rows(records, q), cursor) == Filter(After(Order(records, q.tenant), cursor), Matches(q))
  {
    RowsUnique(records, Everything(q.tenant));
    RowsInOrder(records, q);
    if cursor != None {
      ListedRowMatches(records, q, cursor);
    }
    AfterInOrder(Order(records, q.tenant), Matches(q), cursor);
  }

  lemma PageInOrder(records: seq<ChildCase>, q: Query, limit: nat, cursor: Option<string>) returns (j: nat)
    requires 1 <= limit && UniqueIds(records) && OnRow(Order(records, q.tenant), cursor) && Listed(records, q, cursor)
    ensures var page := ListPage(records, q, limit, cursor); var u := Order(records, q.tenant);
            var k := Behind(u, cursor);
            && k <= j <= |u| && page.items == Filter(u[k..j], Matches(q))
            && (page.nextCursor == None ==> j == |u|)
            && (page.nextCursor != None ==> OnRow(u, page.nextCursor) && Behind(u, page.nextCursor) == j)
  {
    var u := Order(records, q.tenant);
    RowsUnique(records, Everything(q.tenant));
    AheadInOrder(records, q, cursor);
    PageIsCut(records, q, limit, cursor);
    j := CutInOrder(u, Behind(u, cursor), Matches(q), limit);
  }

  lemma ListedRowMatches(records: seq<ChildCase>, q: Query, cursor: Option<string>)
    requires UniqueIds(records) && cursor != None && OnRow(Order(records, q.tenant), cursor)
             && Listed(records, q, cursor)
    ensures Matches(q)(Order(records, q.tenant)[Behind(Order(records, q.tenant), cursor) - 1])
  {
    var u := Order(records, q.tenant);
    PositionSound(u, cursor.value);
    var c := u[Behind(u, cursor) - 1];
    RowsAreMatches(records, Everything(q.tenant), c);
    var r :| r in records && r.id == cursor.value && Matches(q)(r);
    var a :| 0 <= a < |records| && records[a] == r;
    var b :| 0 <= b < |records| && records[b] == c;
  }

  // ----- the whole walk -----------------------------------------------------

  function IdsInOrder(s: seq<ChildCase>): seq<string> {
    seq(|s|, i requires 0 <= i < |s| => s[i].id)
  }

  /** Records of these ids match the query at every request. */
  ghost predicate Steady(tables: seq<seq<ChildCase>>, q: Query, ids: set<string>) {
    forall i, r :: 0 <= i < |tables| && r in tables[i] && r.id in ids ==> Matches(q)(r)
  }

  ghost predicate Gathers(got: seq<ChildCase>, u: seq<ChildCase>, k: nat, ids: set<string>)
    requires k <= |u|
  {
    && UniqueIds(got) && Ids(got) !! Ids(u[..k])
    && IdsInOrder(Filter(got, IdIn(ids))) == IdsInOrder(Filter(u[k..], IdIn(ids)))
  }

  lemma SameIdsInOrder(s: seq<ChildCase>, t: seq<ChildCase>)
    requires AllBare(s) == AllBare(t)
    ensures IdsInOrder(s) == IdsInOrder(t)
  {
    assert |s| == |AllBare(s)| == |AllBare(t)| == |t|;
    forall i | 0 <= i < |s| ensures s[i].id == t[i].id {
      assert AllBare(s)[i] == AllBare(t)[i];
    }
  }

  lemma IdsOfEvolved(t: seq<ChildCase>, t': seq<ChildCase>)
    requires Evolves(t, t')
    ensures Ids(t) <= Ids(t')
  {
    forall r | r in t ensures r.id in Ids(t') {
      var i :| 0 <= i < |t| && t[i] == r;
      assert SamePlace(t[i], t'[i]) && t'[i] in t';
    }
  }

  /** The kept part of one page. */
  lemma PageGathers(u: seq<ChildCase>, k: nat, j: nat, p: ChildCase -> bool, ids: set<string>)
    requires UniqueIds(u) && k <= j <= |u| && forall r :: r in u && r.id in ids ==> p(r)
    ensures var items := Filter(u[k..j], p);
            && UniqueIds(items) && Ids(items) <= Ids(u[..j]) && Ids(items) !! Ids(u[..k])
            && Filter(items, IdIn(ids)) == Filter(u[k..j], IdIn(ids))
  {
    var page := u[k..j];
    var items := Filter(page, p);
    PageIsFresh(u, k, j - k);
    FilterKeepsUnique(page, p);
    FilterTwice(page, p, IdIn(ids), IdIn(ids));
    forall r | r in items ensures r in page {
      FilterMember(page, p, r);
    }
  }

  lemma IdsConcat(s: seq<ChildCase>, t: seq<ChildCase>)
    ensures IdsInOrder(s + t) == IdsInOrder(s) + IdsInOrder(t)
  {
  }

  lemma JoinInOrder(items: seq<ChildCase>, rest: seq<ChildCase>, page: seq<ChildCase>, tail: seq<ChildCase>,
                    p: ChildCase -> bool)
    requires Filter(items, p) == Filter(page, p) && IdsInOrder(Filter(rest, p)) == IdsInOrder(Filter(tail, p))
    ensures IdsInOrder(Filter(items + rest, p)) == IdsInOrder(Filter(page + tail, p))
  {
    FilterConcat(items, rest, p);
    FilterConcat(page, tail, p);
    IdsConcat(Filter(items, p), Filter(rest, p));
    IdsConcat(Filter(page, p), Filter(tail, p));
  }

  /** Gluing a page onto what the rest of the walk gathers. */
  lemma PageThenGathers(u: seq<ChildCase>, k: nat, j: nat, p: ChildCase -> bool, ids: set<string>, rest: seq<ChildCase>)
    requires UniqueIds(u) && k <= j <= |u| && forall r :: r in u && r.id in ids ==> p(r)
    requires Gathers(rest, u, j, ids)
    ensures Gathers(Filter(u[k..j], p) + rest, u, k, ids)
  {
    var items := Filter(u[k..j], p);
    PageGathers(u, k, j, p, ids);
    JoinInOrder(items, rest, u[k..j], u[j..], IdIn(ids));
    assert u[k..] == u[k..j] + u[j..];
    JoinApart(items, rest, u, k, j);
  }

  lemma JoinApart(items: seq<ChildCase>, rest: seq<ChildCase>, u: seq<ChildCase>, k: nat, j: nat)
    requires k <= j <= |u| && UniqueIds(items) && UniqueIds(rest)
    requires Ids(items) <= Ids(u[..j]) && Ids(items) !! Ids(u[..k]) && Ids(rest) !! Ids(u[..j])
    ensures UniqueIds(items + rest) && Ids(items + rest) !! Ids(u[..k])
  {
    JoinUnique(items, rest);
    assert u[..j] == u[..k] + u[k..j];
    assert Ids(u[..k]) <= Ids(u[..j]);
    assert Ids(items + rest) == Ids(items) + Ids(rest);
  }

  /** One request, and what the later ones gather seen from its table. */
  lemma RequestGathers(tables: seq<seq<ChildCase>>, q: Query, limit: nat, cursor: Option<string>, ids: set<string>,
                       rest: seq<ChildCase>)
    requires 1 <= limit && tables != [] && History(tables) && Steady(tables, q, ids)
    requires OnRow(Order(tables[0], q.tenant), cursor) && Listed(tables[0], q, cursor)
    requires var u := Order(tables[0], q.tenant); var next := ListPage(tables[0], q, limit, cursor).nextCursor;
             if next == None then rest == [] else Gathers(rest, u, Behind(u, next), ids)
    ensures var u := Order(tables[0], q.tenant);
            Gathers(ListPage(tables[0], q, limit, cursor).items + rest, u, Behind(u, cursor), ids)
  {
    var u := Order(tables[0], q.tenant);
    var k := Behind(u, cursor);
    var j := PageInOrder(tables[0], q, limit, cursor);
    RowsUnique(tables[0], Everything(q.tenant));
    SteadyInOrder(tables, q, ids);
    if j == |u| && rest == [] {
      assert u[j..] == [] && Gathers(rest, u, j, ids);
    }
    PageThenGathers(u, k, j, Matches(q), ids, rest);
  }

  lemma {:induction false} WalkOverGathers(tables: seq<seq<ChildCase>>, q: Query, limit: nat, cursor: Option<string>,
                                           ids: set<string>)
    requires 1 <= limit && tables != [] && History(tables) && Steady(tables, q, ids) && ids <= Ids(tables[0])
    requires OnRow(Order(tables[0], q.tenant), cursor) && AlwaysListed(tables, q, limit, cursor)
    requires WalkOver(tables, q, limit, cursor).1
    ensures var u := Order(tables[0], q.tenant);
            Gathers(WalkOver(tables, q, limit, cursor).0, u, Behind(u, cursor), ids)
    decreases |tables|
  {
    var next := ListPage(tables[0], q, limit, cursor).nextCursor;
    if next == None {
      var items := ListPage(tables[0], q, limit, cursor).items;
      RequestGathers(tables, q, limit, cursor, ids, []);
      assert items + [] == items;
    } else {
      var later := tables[1..];
      var rest := WalkOver(later, q, limit, next).0;
      NextOnRow(tables[0], q, limit, cursor);
      LaterRequests(tables, q, limit, cursor, ids);
      EvolvingKeepsPlace(tables[0], later[0], q.tenant, next, ids);
      WalkOverGathers(later, q, limit, next, ids);
      CarryBack(Order(tables[0], q.tenant), Order(later[0], q.tenant), next, ids, rest);
      RequestGathers(tables, q, limit, cursor, ids, rest);
    }
  }

  lemma NextOnRow(records: seq<ChildCase>, q: Query, limit: nat, cursor: Option<string>)
    requires 1 <= limit && UniqueIds(records) && OnRow(Order(records, q.tenant), cursor) && Listed(records, q, cursor)
    ensures OnRow(Order(records, q.tenant), ListPage(records, q, limit, cursor).nextCursor)
  {
    var j := PageInOrder(records, q, limit, cursor);
  }

  lemma SteadyInOrder(tables: seq<seq<ChildCase>>, q: Query, ids: set<string>)
    requires tables != [] && Steady(tables, q, ids)
    ensures forall r :: r in Order(tables[0], q.tenant) && r.id in ids ==> Matches(q)(r)
  {
    forall r | r in Order(tables[0], q.tenant) && r.id in ids ensures Matches(q)(r) {
      RowsAreMatches(tables[0], Everything(q.tenant), r);
    }
  }

  lemma LaterRequests(tables: seq<seq<ChildCase>>, q: Query, limit: nat, cursor: Option<string>, ids: set<string>)
    requires tables != [] && History(tables) && Steady(tables, q, ids) && ids <= Ids(tables[0])
    requires WalkOver(tables, q, limit, cursor).1 && ListPage(tables[0], q, limit, cursor).nextCursor != None
    ensures |tables| > 1 && History(tables[1..]) && Steady(tables[1..], q, ids) && ids <= Ids(tables[1])
  {
    assert |tables| > 1;
    LaterHistory(tables);
    IdsOfEvolved(tables[0], tables[1]);
  }

  /** What the rest of the walk gathers from the next table, seen from this one. */
  lemma CarryBack(u: seq<ChildCase>, u': seq<ChildCase>, next: Option<string>, ids: set<string>, rest: seq<ChildCase>)
    requires Gathers(rest, u', Behind(u', next), ids)
    requires AllBare(Filter(After(u', next), IdIn(ids))) == AllBare(Filter(After(u, next), IdIn(ids)))
    requires Ids(u[..Behind(u, next)]) <= Ids(u'[..Behind(u', next)])
    ensures Gathers(rest, u, Behind(u, next), ids)
  {
    SameIdsInOrder(Filter(After(u', next), IdIn(ids)), Filter(After(u, next), IdIn(ids)));
  }

  /** However records are updated and created between the pages: while the cursor's
      record is still listed at each request, no record is returned twice, and every
      record that was there at the start and matches throughout is returned exactly once,
      newest first. */
  lemma PaginationUnderUpdates(tables: seq<seq<ChildCase>>, q: Query, limit: nat, ids: set<string>)
    requires 1 <= limit && tables != [] && History(tables) && Steady(tables, q, ids) && ids <= Ids(tables[0])
    requires AlwaysListed(tables, q, limit, None) && WalkOver(tables, q, limit, None).1
    ensures var got := WalkOver(tables, q, limit, None).0;
            && UniqueIds(got)
            && IdsInOrder(Filter(got, IdIn(ids))) == IdsInOrder(Filter(Rows(tables[0], q), IdIn(ids)))
  {
    WalkOverGathers(tables, q, limit, None, ids);
    RowsInOrder(tables[0], q);
    SteadyInOrder(tables, q, ids);
    FilterTwice(Order(tables[0], q.tenant), Matches(q), IdIn(ids), IdIn(ids));
  }

  // ----- without a filter ---------------------------------------------------

  predicate Unfiltered(q: Query) {
    q.status == None && !Truthy(q.intent)
  }

  lemma NextIsListed(records: seq<ChildCase>, records': seq<ChildCase>, q: Query, limit: nat, cursor: Option<string>)
    requires 1 <= limit && Unfiltered(q) && UniqueIds(records) && Evolves(records, records')
    ensures var next := ListPage(records, q, limit, cursor).nextCursor; next != None ==> Listed(records', q, next)
  {
    var rows := Rows(records, q);
    var ahead := After(rows, cursor);
    PageIsCut(records, q, limit, cursor);
    if |ahead| > limit {
      var r := ahead[limit - 1];
      assert r == rows[Behind(rows, cursor) + limit - 1];
      RowsAreMatches(records, q, r);
      var i :| 0 <= i < |records| && records[i] == r;
      assert SamePlace(records[i], records'[i]) && records'[i] in records';
    }
  }

  lemma LaterHistory(tables: seq<seq<ChildCase>>)
    requires tables != [] && History(tables)
    ensures History(tables[1..])
  {
    forall k | 0 <= k < |tables[1..]| - 1 ensures Evolves(tables[1..][k], tables[1..][k + 1]) {
      assert Evolves(tables[k + 1], tables[k + 2]);
    }
  }

  /** Without a status or intent filter no update takes the cursor's record off the list. */
  lemma {:induction false} UnfilteredStaysListed(tables: seq<seq<ChildCase>>, q: Query, limit: nat,
                                                 cursor: Option<string>)
    requires 1 <= limit && Unfiltered(q) && tables != [] && History(tables) && Listed(tables[0], q, cursor)
    ensures AlwaysListed(tables, q, limit, cursor)
    decreases |tables|
  {
    var next := ListPage(tables[0], q, limit, cursor).nextCursor;
    if next != None && |tables| > 1 {
      assert Evolves(tables[0], tables[1]);
      NextIsListed(tables[0], tables[1], q, limit, cursor);
      LaterHistory(tables);
      UnfilteredStaysListed(tables[1..], q, limit, next);
    }
  }

  /** So an unfiltered walk is exact whatever is created and updated between its pages. */
  lemma UnfilteredPaginationIsExact(tables: seq<seq<ChildCase>>, q: Query, limit: nat)
    requires 1 <= limit && Unfiltered(q) && tables != [] && History(tables) && WalkOver(tables, q, limit, None).1
    ensures var got := WalkOver(tables, q, limit, None).0;
            && UniqueIds(got)
            && IdsInOrder(Filter(got, IdIn(Ids(Rows(tables[0], q))))) == IdsInOrder(Rows(tables[0], q))
  {
    var ids := Ids(Rows(tables[0], q));
    UnfilteredStaysListed(tables, q, limit, None);
    forall r | r in Rows(tables[0], q) ensures r in tables[0] {
      RowsAreMatches(tables[0], q, r);
    }
    SteadyTenant(tables, q, ids);
    PaginationUnderUpdates(tables, q, limit, ids);
    FilterAll(Rows(tables[0], q), IdIn(ids));
  }

  lemma {:induction false} KeepsTenant(tables: seq<seq<ChildCase>>, n: nat, j: nat)
    requires History(tables) && n < |tables| && j < |tables[0]|
    ensures j < |tables[n]| && SamePlace(tables[0][j], tables[n][j])
  {
    if n > 0 {
      KeepsTenant(tables, n - 1, j);
      assert Evolves(tables[n - 1], tables[n]);
    }
  }

  lemma SteadyTenant(tables: seq<seq<ChildCase>>, q: Query, ids: set<string>)
    requires tables != [] && History(tables) && Unfiltered(q)
    requires ids == Ids(Rows(tables[0], q))
    ensures Steady(tables, q, ids)
  {
    forall i, r | 0 <= i < |tables| && r in tables[i] && r.id in ids ensures Matches(q)(r) {
      var r0 :| r0 in Rows(tables[0], q) && r0.id == r.id;
      RowsAreMatches(tables[0], q, r0);
      var j :| 0 <= j < |tables[0]| && tables[0][j] == r0;
      KeepsTenant(tables, i, j);
      var k :| 0 <= k < |tables[i]| && tables[i][k] == r;
      assert tables[i][j].id == tables[i][k].id;
    }
  }

  /** In terms of the store's own calls. */
  lemma UnfilteredRunIsExact(records: seq<ChildCase>, rounds: seq<seq<Change>>, q: Query, limit: nat)
    requires 1 <= limit && Unfiltered(q) && rounds != [] && UniqueIds(records) && RoundsProper(records, rounds)
    requires WalkOver(TablesOf(records, rounds), q, limit, None).1
    ensures var tables := TablesOf(records, rounds); var got := WalkOver(tables, q, limit, None).0;
            && UniqueIds(got)
            && IdsInOrder(Filter(got, IdIn(Ids(Rows(tables[0], q))))) == IdsInOrder(Rows(tables[0], q))
  {
    RunsAreHistories(records, rounds);
    UnfilteredPaginationIsExact(TablesOf(records, rounds), q, limit);
  }

  // ----- with a filter, while only creates happen ---------------------------

  ghost predicate OnlyCreates(tables: seq<seq<ChildCase>>) {
    && (forall i :: 0 <= i < |tables| ==> UniqueIds(tables[i]))
    && (forall i :: 0 <= i < |tables| - 1 ==> tables[i] <= tables[i + 1])
  }

  lemma {:induction false} FirstTableStays(tables: seq<seq<ChildCase>>, n: nat)
    requires OnlyCreates(tables) && n < |tables|
    ensures tables[0] <= tables[n]
  {
    if n > 0 {
      FirstTableStays(tables, n - 1);
      assert tables[n - 1] <= tables[n];
    }
  }

  lemma PrefixEvolves(t: seq<ChildCase>, t': seq<ChildCase>)
    requires t <= t'
    ensures Evolves(t, t') && forall r :: r in t ==> r in t'
  {
  }

  lemma CreatesAreHistory(tables: seq<seq<ChildCase>>)
    requires OnlyCreates(tables)
    ensures History(tables)
  {
    forall i | 0 <= i < |tables| - 1 ensures Evolves(tables[i], tables[i + 1]) {
      assert tables[i] <= tables[i + 1];
      PrefixEvolves(tables[i], tables[i + 1]);
    }
  }

  lemma NextStaysListed(t: seq<ChildCase>, t': seq<ChildCase>, q: Query, limit: nat, cursor: Option<string>)
    requires 1 <= limit && UniqueIds(t) && t <= t'
    ensures var next := ListPage(t, q, limit, cursor).nextCursor; next != None ==> Listed(t', q, next)
  {
    var rows := Rows(t, q);
    var ahead := After(rows, cursor);
    PageIsCut(t, q, limit, cursor);
    PrefixEvolves(t, t');
    if |ahead| > limit {
      var r := ahead[limit - 1];
      assert r == rows[Behind(rows, cursor) + limit - 1];
      RowsAreMatches(t, q, r);
    }
  }

  lemma LaterCreates(tables: seq<seq<ChildCase>>)
    requires tables != [] && OnlyCreates(tables)
    ensures OnlyCreates(tables[1..])
  {
    forall i | 0 <= i < |tables[1..]| - 1 ensures tables[1..][i] <= tables[1..][i + 1] {
      assert tables[i + 1] <= tables[i + 2];
    }
  }

  lemma {:induction false} CreatesStayListed(tables: seq<seq<ChildCase>>, q: Query, limit: nat, cursor: Option<string>)
    requires 1 <= limit && OnlyCreates(tables) && (tables != [] ==> Listed(tables[0], q, cursor))
    ensures AlwaysListed(tables, q, limit, cursor)
    decreases |tables|
  {
    if tables != [] {
      var next := ListPage(tables[0], q, limit, cursor).nextCursor;
      if next != None && |tables| > 1 {
        assert tables[0] <= tables[1];
        NextStaysListed(tables[0], tables[1], q, limit, cursor);
        LaterCreates(tables);
        CreatesStayListed(tables[1..], q, limit, next);
      }
    }
  }

  /** What a walk returns was listed when it was returned. */
  lemma {:induction false} GotWasListed(tables: seq<seq<ChildCase>>, q: Query, limit: int, cursor: Option<string>,
                                        r: ChildCase)
    requires r in WalkOver(tables, q, limit, cursor).0
    ensures exists i :: 0 <= i < |tables| && r in tables[i] && Matches(q)(r)
    decreases |tables|
  {
    var page := ListPage(tables[0], q, limit, cursor);
    if r in page.items {
      var rows := Rows(tables[0], q);
      assert r in After(rows, cursor) && r in rows;
      RowsAreMatches(tables[0], q, r);
    } else {
      GotWasListed(tables[1..], q, limit, page.nextCursor, r);
      var i :| 0 <= i < |tables[1..]| && r in tables[1..][i] && Matches(q)(r);
      assert r in tables[i + 1];
    }
  }

  lemma {:induction false} SameIdsSameRecords(s: seq<ChildCase>, t: seq<ChildCase>, table: seq<ChildCase>)
    requires UniqueIds(table) && IdsInOrder(s) == IdsInOrder(t)
    requires (forall r :: r in s ==> r in table) && (forall r :: r in t ==> r in table)
    ensures s == t
  {
    assert |s| == |IdsInOrder(s)| == |t|;
    forall i | 0 <= i < |s| ensures s[i] == t[i] {
      assert IdsInOrder(s)[i] == IdsInOrder(t)[i] && s[i] in s && t[i] in t;
      var a :| 0 <= a < |table| && table[a] == s[i];
      var b :| 0 <= b < |table| && table[b] == t[i];
    }
  }

  /** A record with the id of one of the first table's records is that record. */
  lemma StillTheSame(tables: seq<seq<ChildCase>>, n: nat, r: ChildCase)
    requires OnlyCreates(tables) && n < |tables| && r in tables[n] && r.id in Ids(tables[0])
    ensures r in tables[0]
  {
    FirstTableStays(tables, n);
    var r0 :| r0 in tables[0] && r0.id == r.id;
    var a :| 0 <= a < |tables[0]| && tables[0][a] == r0;
    var b :| 0 <= b < |tables[n]| && tables[n][b] == r;
    assert tables[n][a] == r0;
  }

  lemma CreatesAreSteady(tables: seq<seq<ChildCase>>, q: Query)
    requires OnlyCreates(tables) && tables != []
    ensures Steady(tables, q, Ids(Rows(tables[0], q))) && Ids(Rows(tables[0], q)) <= Ids(tables[0])
  {
    forall r | r in Rows(tables[0], q) ensures r in tables[0] && Matches(q)(r) {
      RowsAreMatches(tables[0], q, r);
    }
    forall i, r | 0 <= i < |tables| && r in tables[i] && r.id in Ids(Rows(tables[0], q)) ensures Matches(q)(r) {
      StillTheSame(tables, i, r);
      var r0 :| r0 in Rows(tables[0], q) && r0.id == r.id;
      var a :| 0 <= a < |tables[0]| && tables[0][a] == r0;
      var b :| 0 <= b < |tables[0]| && tables[0][b] == r;
    }
  }

  /** Whatever is created between the pages, following `next_cursor` to the end yields every
      matching record present at the start exactly once, newest first, and no row twice. */
  lemma PaginationIsExact(tables: seq<seq<ChildCase>>, q: Query, limit: nat)
    requires 1 <= limit && OnlyCreates(tables) && tables != [] && WalkOver(tables, q, limit, None).1
    ensures var got := WalkOver(tables, q, limit, None).0;
            UniqueIds(got) && Filter(got, IdIn(Ids(tables[0]))) == Rows(tables[0], q)
  {
    var got := WalkOver(tables, q, limit, None).0;
    var rows := Rows(tables[0], q);
    CreatesAreHistory(tables);
    CreatesStayListed(tables, q, limit, None);
    CreatesAreSteady(tables, q);
    PaginationUnderUpdates(tables, q, limit, Ids(rows));
    FilterAll(rows, IdIn(Ids(rows)));
    forall r | r in got && r.id in Ids(tables[0]) ensures r in rows {
      GotWasListed(tables, q, limit, None, r);
      var i :| 0 <= i < |tables| && r in tables[i] && Matches(q)(r);
      StillTheSame(tables, i, r);
      RowsAreMatches(tables[0], q, r);
    }
    SameFilter(got, IdIn(Ids(tables[0])), IdIn(Ids(rows)));
    KnownRows(got, rows, tables[0], q);
    SameIdsSameRecords(Filter(got, IdIn(Ids(rows))), rows, tables[0]);
  }

  lemma KnownRows(got: seq<ChildCase>, rows: seq<ChildCase>, table: seq<ChildCase>, q: Query)
    requires rows == Rows(table, q) && (forall r :: r in got && r.id in Ids(table) ==> r in rows)
    ensures forall r :: r in Filter(got, IdIn(Ids(rows))) ==> r in table
    ensures forall r :: r in rows ==> r in table
  {
    forall r | r in rows ensures r in table {
      RowsAreMatches(table, q, r);
    }
    forall r | r in Filter(got, IdIn(Ids(rows))) ensures r in table {
      FilterMember(got, IdIn(Ids(rows)), r);
      var r0 :| r0 in rows && r0.id == r.id;
    }
  }

  // ----- with a filter, when an update takes the cursor's record off the list ----

  const ALL_PENDING := Query("t", Some(PENDING_REVIEW), None)

  function Pending(id: string, at: int): ChildCase {
    ChildCase(id, "t", None, PENDING_REVIEW, None, None, None, None, Missing, at, at)
  }

  function Before(): seq<ChildCase> {
    [Pending("a", 3), Pending("b", 2), Pending("c", 1)]
  }

  /** b has been escalated since. */
  function Meanwhile(): seq<ChildCase> {
    [Pending("a", 3), Pending("b", 2).(lifecycle := ESCALATED), Pending("c", 1)]
  }

  lemma RowsBefore()
    ensures Rows(Before(), ALL_PENDING) == Before()
  {
    FilterAll(Before(), Matches(ALL_PENDING));
    SortOfSorted(Before(), ByKey(NewestFirst()));
  }

  lemma RowsMeanwhile()
    ensures Rows(Meanwhile(), ALL_PENDING) == [Pending("a", 3), Pending("c", 1)]
  {
    var m := Meanwhile();
    var p := Matches(ALL_PENDING);
    assert m == [m[0]] + [m[1]] + [m[2]];
    FilterMiddle([m[0]], m[1], [m[2]], p);
    FilterAll([m[0]], p);
    FilterAll([m[2]], p);
    assert [m[1]][..0] == [] && Filter([m[1]], p) == [];
    assert Filter(m, p) == [m[0], m[2]];
    SortOfSorted([m[0], m[2]], ByKey(NewestFirst()));
  }

  lemma FirstPage()
    ensures ListPage(Before(), ALL_PENDING, 2, None) == Page([Pending("a", 3), Pending("b", 2)], Some("b"), true)
  {
    RowsBefore();
  }

  lemma SecondPage()
    ensures ListPage(Meanwhile(), ALL_PENDING, 2, Some("b")) == Page([Pending("a", 3), Pending("c", 1)], None, false)
  {
    RowsMeanwhile();
    var rows := Rows(Meanwhile(), ALL_PENDING);
    PositionSound(rows, "b");
    assert |rows| == 2 && rows[0].id == "a" && rows[1].id == "c";
  }

  lemma TwoRequests(t: seq<ChildCase>, t': seq<ChildCase>, q: Query, limit: int)
    ensures var first := ListPage(t, q, limit, None); var second := ListPage(t', q, limit, first.nextCursor);
            first.nextCursor != None && second.nextCursor == None ==>
              WalkOver([t, t'], q, limit, None) == (first.items + second.items, true)
  {
    assert [t, t'][1..] == [t'];
  }

  lemma Joined(a: ChildCase, b: ChildCase, c: ChildCase)
    ensures [a, b] + [a, c] == [a, b, a, c]
  {
  }

  lemma MeanwhileEvolves()
    ensures History([Before(), Meanwhile()])
  {
    assert UniqueIds(Before()) && UniqueIds(Meanwhile()) && Evolves(Before(), Meanwhile());
  }

  /** With limit 2 and the escalation between the two requests, the client is sent back to
      the start and receives a twice. */
  lemma LostCursorRepeatsRows()
    ensures History([Before(), Meanwhile()])
    ensures WalkOver([Before(), Meanwhile()], ALL_PENDING, 2, None) ==
            ([Pending("a", 3), Pending("b", 2), Pending("a", 3), Pending("c", 1)], true)
  {
    MeanwhileEvolves();
    FirstPage();
    SecondPage();
    TwoRequests(Before(), Meanwhile(), ALL_PENDING, 2);
    Joined(Pending("a", 3), Pending("b", 2), Pending("c", 1));
  }
}
