/** Pass 2 of the backfill (agents/backfill.py): cases of one tenant that share a
    purchase order are merged into the earliest-opened one. */
module Merge {
  import opened Wrappers
  import opened Sequences
  import opened Ordering
  import opened Model
  import opened Records
  import opened Cases
  import opened CaseIndex
  import opened Backfill
  import opened Interleaving

  datatype Tables = Tables(records: seq<ChildCase>, store: Store)

  function CasesIn(cases: map<string, OrderCase>, order: seq<string>): seq<OrderCase> {
    if order == [] then []
    else
      var front := CasesIn(cases, order[..|order| - 1]);
      if order[|order| - 1] in cases then front + [cases[order[|order| - 1]]] else front
  }

  function OfTenant(tenant: string): OrderCase -> bool {
    (c: OrderCase) => c.tenantId == tenant
  }

  /** list_by_tenant. */
  function ListByTenant(s: Store, tenant: string): seq<OrderCase> {
    Filter(CasesIn(s.cases, s.order), OfTenant(tenant))
  }

  function WithPo(po: string): OrderCase -> bool {
    (c: OrderCase) => c.customerPo == Some(po)
  }

  /** The cases of a tenant that carry one purchase order, in table order. */
  function Group(s: Store, tenant: string, po: string): seq<OrderCase> {
    Filter(ListByTenant(s, tenant), WithPo(po))
  }

  function OpenedAt(): OrderCase -> int {
    (c: OrderCase) => c.openedAt
  }

  /** Earliest opened; the first in table order among equals. */
  function Primary(s: Store, tenant: string, po: string): OrderCase
    requires Group(s, tenant, po) != []
  {
    SortByKey(Group(s, tenant, po), OpenedAt())[0]
  }

  lemma {:induction false} CasesInMember(cases: map<string, OrderCase>, order: seq<string>, c: OrderCase)
    ensures c in CasesIn(cases, order) <==> exists id :: id in order && id in cases && cases[id] == c
  {
    if order != [] {
      var front, last := order[..|order| - 1], order[|order| - 1];
      CasesInMember(cases, front, c);
      assert order == front + [last];
      assert last in order;
      assert forall id :: id in order <==> id in front || id == last;
    }
  }

  lemma GroupMember(s: Store, tenant: string, po: string, c: OrderCase)
    requires WellFormed(s)
    ensures c in Group(s, tenant, po) <==>
            c.caseId in s.cases && s.cases[c.caseId] == c && c.tenantId == tenant && c.customerPo == Some(po)
  {
    CasesInMember(s.cases, s.order, c);
    FilterMember(CasesIn(s.cases, s.order), OfTenant(tenant), c);
    FilterMember(ListByTenant(s, tenant), WithPo(po), c);
  }

  lemma PrimaryIsEarliest(s: Store, tenant: string, po: string)
    requires WellFormed(s) && Group(s, tenant, po) != []
    ensures Primary(s, tenant, po) in Group(s, tenant, po)
    ensures forall c :: c in Group(s, tenant, po) ==> Primary(s, tenant, po).openedAt <= c.openedAt
  {
    var group := Group(s, tenant, po);
    var sorted := SortByKey(group, OpenedAt());
    SortByMultiset(group, ByKey(OpenedAt()));
    SortIsSorted(group, OpenedAt());
    assert sorted[0] in multiset(sorted);
    forall c | c in group ensures sorted[0].openedAt <= c.openedAt {
      assert c in multiset(sorted);
      var i :| 0 <= i < |sorted| && sorted[i] == c;
      assert OpenedAt()(sorted[0]) <= OpenedAt()(sorted[i]);
    }
  }

  function OpenedAtIs(at: int): OrderCase -> bool {
    HasKey(OpenedAt(), at)
  }

  /** Among equally early cases the first in table order is the one merged into. */
  lemma PrimaryIsFirst(s: Store, tenant: string, po: string)
    requires WellFormed(s) && Group(s, tenant, po) != []
    ensures var p := Primary(s, tenant, po); var ties := Filter(Group(s, tenant, po), OpenedAtIs(p.openedAt));
            ties != [] && ties[0] == p
  {
    var group := Group(s, tenant, po);
    var sorted := SortByKey(group, OpenedAt());
    var p := sorted[0];
    SortIsStable(group, OpenedAt(), p.openedAt);
    assert sorted == [p] + sorted[1..];
    FilterConcat([p], sorted[1..], OpenedAtIs(p.openedAt));
    assert [p][..0] == [];
    assert Filter([p], OpenedAtIs(p.openedAt)) == [p];
  }

  // ----- the pass in closed form --------------------------------------------

  /** A case that is merged away, i.e. shares its PO with an earlier one. */
  predicate Duplicate(s: Store, tenant: string, id: string) {
    && id in s.cases && s.cases[id].tenantId == tenant && Truthy(s.cases[id].customerPo)
    && Group(s, tenant, s.cases[id].customerPo.value) != []
    && Primary(s, tenant, s.cases[id].customerPo.value).caseId != id
  }

  /** Each duplicate with the case it is merged into. */
  function Moves(s: Store, tenant: string): map<string, string> {
    map id | id in s.cases && Duplicate(s, tenant, id) :: Primary(s, tenant, s.cases[id].customerPo.value).caseId
  }

  /** No move goes to this case. */
  ghost predicate NoneInto(moves: map<string, string>, id: string) {
    forall x :: x in moves ==> moves[x] != id
  }

  function Survives(moves: map<string, string>): string -> bool {
    (id: string) => id !in moves
  }

  function MoveChild(r: ChildCase, tenant: string, moves: map<string, string>, now: int): ChildCase {
    var to := NewParent(r, tenant, moves);
    if to.Some? then r.(parentCaseId := to, updatedAt := now) else r
  }

  function MoveChildren(records: seq<ChildCase>, tenant: string, moves: map<string, string>, now: int): seq<ChildCase> {
    seq(|records|, i requires 0 <= i < |records| => MoveChild(records[i], tenant, moves, now))
  }

  /** Children of the moved cases re-pointed, the moved cases and their keys dropped. */
  function Apply(t: Tables, tenant: string, moves: map<string, string>, now: int): Tables {
    Tables(MoveChildren(t.records, tenant, moves, now),
           t.store.(cases := t.store.cases - moves.Keys,
                    order := Filter(t.store.order, Survives(moves)),
                    index := map k | k in t.store.index && t.store.index[k] !in moves :: t.store.index[k]))
  }

  function NewParent(r: ChildCase, tenant: string, moves: map<string, string>): Option<string> {
    if r.tenantId == tenant && r.parentCaseId.Some? && r.parentCaseId.value in moves
    then Some(moves[r.parentCaseId.value]) else None
  }

  /** `record_to_case`: each moved child with its new case. */
  function LinksOf(records: seq<ChildCase>, tenant: string, moves: map<string, string>): map<string, string> {
    if records == [] then map[]
    else
      var front, r := LinksOf(records[..|records| - 1], tenant, moves), records[|records| - 1];
      var to := NewParent(r, tenant, moves);
      if to.Some? then front[r.id := to.value] else front
  }

  /** merge_orphan_cases_by_correlation: the tables it leaves, `cases_merged` and `record_to_case`. */
  function MergePass(t: Tables, tenant: string, dryRun: bool, now: int): (Tables, nat, map<string, string>) {
    var moves := Moves(t.store, tenant);
    (if dryRun then t else Apply(t, tenant, moves, now), |moves|,
     if dryRun then map[] else LinksOf(t.records, tenant, moves))
  }

  // ----- what it achieves ---------------------------------------------------

  lemma {:induction false} CasesInPlace(cases: map<string, OrderCase>, order: seq<string>)
    requires forall i :: 0 <= i < |order| ==> order[i] in cases
    ensures |CasesIn(cases, order)| == |order|
    ensures forall i :: 0 <= i < |order| ==> CasesIn(cases, order)[i] == cases[order[i]]
  {
    if order != [] {
      CasesInPlace(cases, order[..|order| - 1]);
    }
  }

  function Tied(tenant: string, po: string, at: int): OrderCase -> bool {
    (c: OrderCase) => c.tenantId == tenant && c.customerPo == Some(po) && c.openedAt == at
  }

  lemma PrimaryPlace(s: Store, tenant: string, po: string) returns (i: nat)
    requires WellFormed(s) && Group(s, tenant, po) != []
    ensures i < |s.order| && s.cases[s.order[i]] == Primary(s, tenant, po)
    ensures Tied(tenant, po, Primary(s, tenant, po).openedAt)(s.cases[s.order[i]])
    ensures forall j :: 0 <= j < i ==> !Tied(tenant, po, Primary(s, tenant, po).openedAt)(s.cases[s.order[j]])
  {
    var at := Primary(s, tenant, po).openedAt;
    var rows := CasesIn(s.cases, s.order);
    PrimaryIsFirst(s, tenant, po);
    CasesInPlace(s.cases, s.order);
    forall c | c in ListByTenant(s, tenant) ensures c.tenantId == tenant {
      FilterMember(rows, OfTenant(tenant), c);
    }
    FilterTwice(ListByTenant(s, tenant), WithPo(po), OpenedAtIs(at), Tied(tenant, po, at));
    FilterTwice(rows, OfTenant(tenant), Tied(tenant, po, at), Tied(tenant, po, at));
    i := FilterStarts(rows, Tied(tenant, po, at));
  }

  /** The case at `i` goes before the one at `j`: it carries the same PO of the same tenant and was
      opened earlier, or at the same time and stands before it in the table. */
  predicate Before(s: Store, i: nat, j: nat)
    requires i < |s.order| && j < |s.order| && s.order[i] in s.cases && s.order[j] in s.cases
  {
    var c, d := s.cases[s.order[i]], s.cases[s.order[j]];
    && c.tenantId == d.tenantId && c.customerPo == d.customerPo
    && (c.openedAt < d.openedAt || (c.openedAt == d.openedAt && i < j))
  }

  /** A case is merged away exactly when it is of the tenant, has a PO, and another goes before it. */
  lemma MovedIff(s: Store, tenant: string, j: nat)
    requires WellFormed(s) && j < |s.order|
    ensures var c := s.cases[s.order[j]];
            s.order[j] in Moves(s, tenant) <==>
              c.tenantId == tenant && c.customerPo != None && c.customerPo != Some("")
              && exists i :: 0 <= i < |s.order| && Before(s, i, j)
  {
    var c := s.cases[s.order[j]];
    if c.tenantId == tenant && Truthy(c.customerPo) {
      var po := c.customerPo.value;
      GroupMember(s, tenant, po, c);
      PrimaryIsEarliest(s, tenant, po);
      var i := PrimaryPlace(s, tenant, po);
      if i != j {
        assert Before(s, i, j);
      } else {
        forall k | 0 <= k < |s.order| ensures !Before(s, k, j) {
          GroupMember(s, tenant, po, s.cases[s.order[k]]);
          assert Tied(tenant, po, c.openedAt)(s.cases[s.order[k]]) ==> j <= k;
        }
      }
    }
  }


  lemma MoveTarget(s: Store, tenant: string, id: string)
    requires WellFormed(s) && id in Moves(s, tenant)
    ensures var to := Moves(s, tenant)[id];
            && to in s.cases && to !in Moves(s, tenant) && to != id
            && s.cases[to].tenantId == tenant && s.cases[to].customerPo == s.cases[id].customerPo
            && s.cases[to].openedAt <= s.cases[id].openedAt
  {
    var po := s.cases[id].customerPo.value;
    var primary := Primary(s, tenant, po);
    PrimaryIsEarliest(s, tenant, po);
    GroupMember(s, tenant, po, primary);
    GroupMember(s, tenant, po, s.cases[id]);
  }

  /** A live case with a PO stays exactly when it is the primary of its PO. */
  lemma StaysIffPrimary(s: Store, tenant: string, id: string)
    requires WellFormed(s) && id in s.cases && s.cases[id].tenantId == tenant && Truthy(s.cases[id].customerPo)
    ensures var po := s.cases[id].customerPo.value;
            && Group(s, tenant, po) != [] && Primary(s, tenant, po).openedAt <= s.cases[id].openedAt
            && (id in Moves(s, tenant) <==> Primary(s, tenant, po).caseId != id)
            && (id in Moves(s, tenant) ==> Moves(s, tenant)[id] == Primary(s, tenant, po).caseId)
  {
    var po := s.cases[id].customerPo.value;
    GroupMember(s, tenant, po, s.cases[id]);
    PrimaryIsEarliest(s, tenant, po);
  }

  /** Every case that is not merged away stays as it is, and so does every history. */
  lemma SurvivorsAreUnmoved(t: Tables, tenant: string, now: int, x: string)
    ensures x in MergePass(t, tenant, false, now).0.store.cases <==> x in t.store.cases && x !in Moves(t.store, tenant)
    ensures var s, s' := t.store, MergePass(t, tenant, false, now).0.store;
            (x in s'.cases ==> s'.cases[x] == s.cases[x]) && s'.history == s.history
  {
  }

  lemma UnmovedIsPrimary(s: Store, tenant: string, a: string, b: string)
    requires WellFormed(s) && a in s.cases && b in s.cases && a !in Moves(s, tenant)
    requires s.cases[a].tenantId == tenant && Truthy(s.cases[a].customerPo)
    requires s.cases[b].tenantId == tenant && s.cases[b].customerPo == s.cases[a].customerPo
    ensures s.cases[a].openedAt <= s.cases[b].openedAt
    ensures b in Moves(s, tenant) <==> b != a
    ensures b != a ==> Moves(s, tenant)[b] == a
  {
    var po := s.cases[a].customerPo.value;
    StaysIffPrimary(s, tenant, a);
    StaysIffPrimary(s, tenant, b);
    var primary := Primary(s, tenant, po);
    PrimaryIsEarliest(s, tenant, po);
    GroupMember(s, tenant, po, primary);
  }

  lemma SurvivorTakesAll(t: Tables, tenant: string, now: int, a: string, b: string)
    requires WellFormed(t.store)
    requires a in MergePass(t, tenant, false, now).0.store.cases && b in t.store.cases
    requires a in t.store.cases && t.store.cases[a].tenantId == tenant && Truthy(t.store.cases[a].customerPo)
    requires t.store.cases[b].tenantId == tenant && t.store.cases[b].customerPo == t.store.cases[a].customerPo
    ensures t.store.cases[a].openedAt <= t.store.cases[b].openedAt
    ensures b in MergePass(t, tenant, false, now).0.store.cases <==> b == a
    ensures b != a ==> b in Moves(t.store, tenant) && Moves(t.store, tenant)[b] == a
  {
    SurvivorsAreUnmoved(t, tenant, now, a);
    SurvivorsAreUnmoved(t, tenant, now, b);
    UnmovedIsPrimary(t.store, tenant, a, b);
  }

  predicate SamePo(c: OrderCase, d: OrderCase) {
    c.tenantId == d.tenantId && c.customerPo == d.customerPo
  }

  /** Afterwards a tenant has exactly one case per purchase order, `a`: the earliest opened.
      Every case `b` of that purchase order is `a`, unchanged, or has been merged into it. */
  lemma MergeLeavesOnePerPo(t: Tables, tenant: string, now: int, b: string) returns (a: string)
    requires WellFormed(t.store) && b in t.store.cases
    requires t.store.cases[b].tenantId == tenant && Truthy(t.store.cases[b].customerPo)
    ensures var s, s' := t.store, MergePass(t, tenant, false, now).0.store;
            && a in s.cases && a in s'.cases && s'.cases[a] == s.cases[a]
            && SamePo(s.cases[a], s.cases[b]) && s.cases[a].openedAt <= s.cases[b].openedAt
            && (b != a ==> b !in s'.cases && b in Moves(s, tenant) && Moves(s, tenant)[b] == a)
            && forall x :: x in s'.cases && SamePo(s'.cases[x], s.cases[b]) ==> x == a
  {
    StaysIffPrimary(t.store, tenant, b);
    a := if b in Moves(t.store, tenant) then Moves(t.store, tenant)[b] else b;
    if b in Moves(t.store, tenant) {
      MoveTarget(t.store, tenant, b);
    }
    SurvivorsAreUnmoved(t, tenant, now, a);
    SurvivorTakesAll(t, tenant, now, a, b);
    var s' := MergePass(t, tenant, false, now).0.store;
    forall x | x in s'.cases && SamePo(s'.cases[x], t.store.cases[b]) ensures x == a {
      SurvivorTakesAll(t, tenant, now, a, x);
    }
  }

  /** Every child record survives; a child moves exactly when its case was merged, to
      the case it was merged into; and parents stay live. */
  lemma MergeKeepsChildren(t: Tables, tenant: string, now: int, i: nat)
    requires WellFormed(t.store) && ParentsLive(t.records, t.store) && i < |t.records|
    ensures var t' := MergePass(t, tenant, false, now).0; |t'.records| == |t.records|
    ensures var t' := MergePass(t, tenant, false, now).0; var moves := Moves(t.store, tenant);
            var r, r' := t.records[i], t'.records[i];
            && r'.(parentCaseId := r.parentCaseId, updatedAt := r.updatedAt) == r
            && (r.parentCaseId.Some? ==>
                  && r'.parentCaseId == Some(if r.parentCaseId.value in moves then moves[r.parentCaseId.value]
                                             else r.parentCaseId.value)
                  && r'.parentCaseId.value in t'.store.cases
                  && t'.store.cases[r'.parentCaseId.value].tenantId == r'.tenantId)
            && ((r.parentCaseId == None || r.parentCaseId.value !in moves) ==> r' == r)
  {
    var r := t.records[i];
    assert r in t.records;
    if r.parentCaseId.Some? && r.parentCaseId.value in Moves(t.store, tenant) {
      MoveTarget(t.store, tenant, r.parentCaseId.value);
    }
  }

  /** The report names exactly the children that moved, each with the case it is under now. */
  lemma {:induction false} LinksAreMoves(records: seq<ChildCase>, tenant: string, moves: map<string, string>, i: nat)
    requires UniqueIds(records) && i < |records|
    ensures var r, links := records[i], LinksOf(records, tenant, moves);
            && (r.id in links <==> r.tenantId == tenant && r.parentCaseId.Some? && r.parentCaseId.value in moves)
            && (r.id in links ==> links[r.id] == moves[r.parentCaseId.value])
            && links.Keys <= Ids(records)
  {
    var n := |records| - 1;
    var front := records[..n];
    LinksWithin(records, tenant, moves);
    LinksWithin(front, tenant, moves);
    if i < n {
      LinksAreMoves(front, tenant, moves, i);
      assert records[i].id != records[n].id;
    } else {
      assert forall j :: 0 <= j < n ==> front[j].id != records[n].id;
    }
  }

  lemma {:induction false} LinksWithin(records: seq<ChildCase>, tenant: string, moves: map<string, string>)
    ensures LinksOf(records, tenant, moves).Keys <= Ids(records)
  {
    if records != [] {
      var front := records[..|records| - 1];
      LinksWithin(front, tenant, moves);
      assert records == front + [records[|records| - 1]];
      assert Ids(front) <= Ids(records) && records[|records| - 1].id in Ids(records);
    }
  }

  /** A record is in the report exactly when its parent changed, under its new parent;
      every other record is untouched. */
  lemma MergeReportsMoves(t: Tables, tenant: string, now: int, i: nat)
    requires WellFormed(t.store) && UniqueIds(t.records) && i < |t.records|
    ensures var (t', _, links) := MergePass(t, tenant, false, now); var r, r' := t.records[i], t'.records[i];
            && (r.id in links <==> r'.parentCaseId != r.parentCaseId)
            && (r.id in links ==> r'.parentCaseId == Some(links[r.id]))
            && (r.id in links ==> r'.updatedAt == now)
            && (r.id !in links ==> r' == r)
  {
    var moves := Moves(t.store, tenant);
    LinksAreMoves(t.records, tenant, moves, i);
    if t.records[i].parentCaseId.Some? && t.records[i].parentCaseId.value in moves {
      MoveTarget(t.store, tenant, t.records[i].parentCaseId.value);
    }
  }

  /** No index entry points at a deleted case, and the table stays well formed. */
  lemma MergeKeepsIndexLive(t: Tables, tenant: string, now: int)
    requires WellFormed(t.store) && IndexLive(t.store)
    ensures var s' := MergePass(t, tenant, false, now).0.store; IndexLive(s') && WellFormed(s')
  {
    var moves := Moves(t.store, tenant);
    FilterKeepsDistinct(t.store.order, Survives(moves));
    forall x ensures x in Filter(t.store.order, Survives(moves)) <==> x in t.store.order && x !in moves {
      FilterMember(t.store.order, Survives(moves), x);
    }
  }

  /** Keys of merged cases are dropped, not re-pointed: a key still resolves exactly
      when the case it named was not merged away. */
  lemma MergeDropsKeys(t: Tables, tenant: string, now: int, k: Key)
    requires WellFormed(t.store) && IndexLive(t.store)
    ensures Resolve(MergePass(t, tenant, false, now).0.store, k) ==
            if k in t.store.index && t.store.index[k] in Moves(t.store, tenant) then None else Resolve(t.store, k)
  {
  }

  /** Hence, if a PO's key had been re-pointed to a case that is merged away, the next
      event with that PO opens a second case beside the surviving one. */
  lemma MergedPoKeyReopens(t: Tables, tenant: string, now: int, r: Intake, newId: string, now': int, a: string)
    requires WellFormed(t.store) && IndexLive(t.store) && FreshId(MergePass(t, tenant, false, now).0.store, newId)
    requires Given(r.keys.customerPo) && ValidIntake(r) && r.supergroup == None
    requires Supplied(tenant, r.keys) == [Key(tenant, CUSTOMER_PO, r.keys.customerPo)]
    requires var k := Key(tenant, CUSTOMER_PO, r.keys.customerPo);
             k in t.store.index && t.store.index[k] in Moves(t.store, tenant)
    requires var s' := MergePass(t, tenant, false, now).0.store;
             a in s'.cases && s'.cases[a].tenantId == tenant && s'.cases[a].customerPo == TextOf(r.keys.customerPo)
    ensures var s' := MergePass(t, tenant, false, now).0.store;
            var (s'', res) := LookupOrCreate(s', tenant, r, newId, now');
            res == Ok((newId, true)) && a in s''.cases && newId in s''.cases && !OneCasePerPo(s'')
  {
    MergeDropsKeys(t, tenant, now, Key(tenant, CUSTOMER_PO, r.keys.customerPo));
    MergeKeepsIndexLive(t, tenant, now);
    KeylessPoReopens(MergePass(t, tenant, false, now).0.store, tenant, r, newId, now', a);
  }

  /** An event whose PO resolves to nothing opens a case beside one that carries the PO. */
  lemma KeylessPoReopens(s: Store, tenant: string, r: Intake, newId: string, now: int, a: string)
    requires IndexLive(s) && FreshId(s, newId) && ValidIntake(r) && r.supergroup == None && Given(r.keys.customerPo)
    requires Supplied(tenant, r.keys) == [Key(tenant, CUSTOMER_PO, r.keys.customerPo)]
    requires Resolve(s, Key(tenant, CUSTOMER_PO, r.keys.customerPo)) == None
    requires a in s.cases && s.cases[a].tenantId == tenant && s.cases[a].customerPo == TextOf(r.keys.customerPo)
    ensures var (s', res) := LookupOrCreate(s, tenant, r, newId, now);
            res == Ok((newId, true)) && a in s'.cases && newId in s'.cases && !OneCasePerPo(s')
  {
    TextualIsKeyable(r.keys);
    ResolveIsFind(s, tenant, r.keys);
    CommitEffect(s, tenant, r, None, newId, now);
    var s' := LookupOrCreate(s, tenant, r, newId, now).0;
    assert s'.cases[a] == s.cases[a] && s'.cases[newId] == NewCase(tenant, r, newId, now);
    assert PoKey(s'.cases[a]) == PoKey(s'.cases[newId]);
  }

  lemma TwoTies(s: Store, tenant: string, po: string, x: OrderCase, y: OrderCase)
    requires CasesIn(s.cases, s.order) == [x, y] && x.openedAt == y.openedAt
    requires x.tenantId == tenant == y.tenantId && x.customerPo == Some(po) == y.customerPo
    ensures Group(s, tenant, po) == [x, y] && Primary(s, tenant, po) == x
  {
    FilterAll([x, y], OfTenant(tenant));
    FilterAll([x, y], WithPo(po));
    SortOfSorted([x, y], ByKey(OpenedAt()));
  }

  lemma RaceMoves(s: Store, tenant: string, po: string, a: string, b: string)
    requires po != "" && a != b && s.order == [a, b]
    requires s.cases == map[a := NewCase(tenant, PoIntake(po), a, 0), b := NewCase(tenant, PoIntake(po), b, 0)]
    ensures Moves(s, tenant) == map[b := a]
  {
    var x, y := s.cases[a], s.cases[b];
    assert s.order[..1] == [a] && s.order[..1][..0] == [];
    assert CasesIn(s.cases, [a]) == [x];
    TwoTies(s, tenant, po, x, y);
    assert Duplicate(s, tenant, b) && !Duplicate(s, tenant, a);
  }

  /** The store as the race leaves it. */
  ghost predicate Raced(s: Store, tenant: string, po: string, a: string, b: string) {
    && s.cases == map[a := NewCase(tenant, PoIntake(po), a, 0), b := NewCase(tenant, PoIntake(po), b, 0)]
    && s.order == [a, b] && s.index == map[Key(tenant, CUSTOMER_PO, Str(po)) := b] && s.history == map[]
  }

  lemma RacedIsSound(s: Store, tenant: string, po: string, a: string, b: string)
    requires a != b && Raced(s, tenant, po, a, b)
    ensures WellFormed(s) && IndexLive(s)
  {
  }

  lemma RacedMerged(t: Tables, tenant: string, po: string, a: string, b: string, now: int)
    requires po != "" && a != b && Raced(t.store, tenant, po, a, b)
    ensures var s' := MergePass(t, tenant, false, now).0.store;
            && Moves(t.store, tenant) == map[b := a]
            && s'.cases == map[a := NewCase(tenant, PoIntake(po), a, 0)] && s'.history == map[]
            && s'.index == map[] && (forall id :: id in s'.order <==> id == a)
  {
    RaceMoves(t.store, tenant, po, a, b);
    var moves := map[b := a];
    assert t.store.cases - moves.Keys == map[a := NewCase(tenant, PoIntake(po), a, 0)];
    forall id ensures id in Filter(t.store.order, Survives(moves)) <==> id == a {
      FilterMember(t.store.order, Survives(moves), id);
    }
  }

  /** This happens: two threads race for a new PO, the pass merges the second case, which
      the PO's key names, into the first, and the next event opens a third case. */
  lemma RaceMergeReopens(records: seq<ChildCase>, tenant: string, po: string, a: string, b: string, c: string,
                         now: int, now': int)
    requires po != "" && a != b && c != a && c != b
    ensures var t := Tables(records, Play(Race(tenant, po, a, b)).store);
            var s' := MergePass(t, tenant, false, now).0.store;
            var (s'', res) := LookupOrCreate(s', tenant, PoIntake(po), c, now');
            && Moves(t.store, tenant) == map[b := a] && s'.cases.Keys == {a} && s'.index == map[]
            && res == Ok((c, true)) && a in s''.cases && c in s''.cases && !OneCasePerPo(s'')
  {
    var t := Tables(records, Play(Race(tenant, po, a, b)).store);
    RaceLeaves(tenant, po, a, b);
    RacedIsSound(t.store, tenant, po, a, b);
    RacedMerged(t, tenant, po, a, b, now);
    PoOnly(tenant, po);
    MergedPoKeyReopens(t, tenant, now, PoIntake(po), c, now', a);
  }

  /** A second run merges nothing and changes nothing. */
  lemma MergeIdempotent(t: Tables, tenant: string, now: int, now': int)
    requires WellFormed(t.store) && IndexLive(t.store)
    ensures var t' := MergePass(t, tenant, false, now).0; MergePass(t', tenant, false, now') == (t', 0, map[])
  {
    var t' := MergePass(t, tenant, false, now).0;
    MergeKeepsIndexLive(t, tenant, now);
    forall id | id in t'.store.cases ensures !Duplicate(t'.store, tenant, id) {
      var c := t'.store.cases[id];
      if Duplicate(t'.store, tenant, id) {
        var po := c.customerPo.value;
        var p := Primary(t'.store, tenant, po);
        PrimaryIsEarliest(t'.store, tenant, po);
        GroupMember(t'.store, tenant, po, p);
        SurvivorTakesAll(t, tenant, now, id, p.caseId);
      }
    }
    var none := Moves(t'.store, tenant);
    assert none == map[];
    NoMovesNoChange(t', tenant, now');
    NoMovesNoLinks(t'.records, tenant);
  }

  lemma {:induction false} NoMovesNoLinks(records: seq<ChildCase>, tenant: string)
    ensures LinksOf(records, tenant, map[]) == map[]
  {
    if records != [] {
      NoMovesNoLinks(records[..|records| - 1], tenant);
    }
  }

  lemma NoMovesNoChange(t: Tables, tenant: string, now: int)
    ensures Apply(t, tenant, map[], now) == t
  {
    FilterAll(t.store.order, Survives(map[]));
    var t' := Apply(t, tenant, map[], now);
    assert t'.records == t.records;
    assert t'.store.cases == t.store.cases && t'.store.index == t.store.index;
  }

  /** The dry run counts what the real run would merge, and leaves everything alone. */
  lemma DryRunPredicts(t: Tables, tenant: string, now: int)
    requires WellFormed(t.store)
    ensures MergePass(t, tenant, true, now).0 == t && MergePass(t, tenant, true, now).2 == map[]
    ensures MergePass(t, tenant, true, now).1 == MergePass(t, tenant, false, now).1
    ensures |MergePass(t, tenant, false, now).0.store.cases| + MergePass(t, tenant, true, now).1 == |t.store.cases|
  {
    var moves := Moves(t.store, tenant);
    assert moves.Keys <= t.store.cases.Keys;
    var rest := t.store.cases - moves.Keys;
    assert rest.Keys == t.store.cases.Keys - moves.Keys;
    assert |rest.Keys| + |moves.Keys| == |t.store.cases.Keys|;
  }

  // ----- one duplicate at a time --------------------------------------------

  /** Merging one more duplicate on top of those already merged. */
  lemma ApplyOneMore(t: Tables, tenant: string, moves: map<string, string>, from: string, to: string, now: int)
    requires from !in moves && NoneInto(moves, from) && to != from
    ensures Apply(t, tenant, moves[from := to], now) ==
              Apply(Apply(t, tenant, moves, now), tenant, map[from := to], now)
  {
    ChildrenOneMore(t.records, tenant, moves, from, to, now);
    var two := Apply(Apply(t, tenant, moves, now), tenant, map[from := to], now);
    var all := Apply(t, tenant, moves[from := to], now);
    assert two.store.cases == all.store.cases;
    assert two.store.index == all.store.index;
    FilterTwice(t.store.order, Survives(moves), Survives(map[from := to]), Survives(moves[from := to]));
  }

  lemma ChildrenOneMore(records: seq<ChildCase>, tenant: string, moves: map<string, string>, from: string, to: string,
                        now: int)
    requires from !in moves && NoneInto(moves, from) && to != from
    ensures MoveChildren(records, tenant, moves[from := to], now) ==
              MoveChildren(MoveChildren(records, tenant, moves, now), tenant, map[from := to], now)
  {
    var one := MoveChildren(records, tenant, moves, now);
    var two := MoveChildren(one, tenant, map[from := to], now);
    var all := MoveChildren(records, tenant, moves[from := to], now);
    forall i | 0 <= i < |records| ensures two[i] == all[i] {
      var r := records[i];
      if r.tenantId == tenant && r.parentCaseId.Some? && r.parentCaseId.value in moves {
        assert moves[r.parentCaseId.value] != from;
      }
    }
  }

  /** One record moves at most once: by the earlier moves, or by the additional one. */
  lemma MovesOnce(r: ChildCase, tenant: string, moves: map<string, string>, from: string, to: string, now: int)
    requires from !in moves && NoneInto(moves, from)
    ensures var first := NewParent(r, tenant, moves); var r' := MoveChild(r, tenant, moves, now);
            && NewParent(r', tenant, map[from := to]) ==
               (if first == None then NewParent(r, tenant, map[from := to]) else None)
            && NewParent(r, tenant, moves[from := to]) ==
               (if first == None then NewParent(r, tenant, map[from := to]) else first)
  {
    if NewParent(r, tenant, moves).Some? {
      assert moves[r.parentCaseId.value] != from;
    }
  }

  lemma JoinLinks(a: map<string, string>, b: map<string, string>, id: string, x: string)
    requires id !in a && id !in b
    ensures (a + b)[id := x] == a[id := x] + b == a + b[id := x]
  {
  }

  lemma {:induction false} LinksOfMoved(records: seq<ChildCase>, tenant: string, moves: map<string, string>,
                                        from: string, to: string, now: int)
    requires UniqueIds(records) && from !in moves && NoneInto(moves, from)
    ensures LinksOf(records, tenant, moves[from := to]) ==
            LinksOf(records, tenant, moves)
              + LinksOf(MoveChildren(records, tenant, moves, now), tenant, map[from := to])
  {
    if records != [] {
      var n := |records| - 1;
      var front, r := records[..n], records[n];
      var moved := MoveChildren(records, tenant, moves, now);
      var movedFront := MoveChildren(front, tenant, moves, now);
      assert UniqueIds(front) by { UniquePrefix(front, [r]); }
      LinksOfMoved(front, tenant, moves, from, to, now);
      assert moved[..n] == movedFront;
      MovesOnce(r, tenant, moves, from, to, now);
      var a, b := LinksOf(front, tenant, moves), LinksOf(movedFront, tenant, map[from := to]);
      IdIsNew(records, tenant, moves, from, to, now);
      if NewParent(r, tenant, moves[from := to]).Some? {
        JoinLinks(a, b, r.id, NewParent(r, tenant, moves[from := to]).value);
      }
    }
  }

  lemma IdIsNew(records: seq<ChildCase>, tenant: string, moves: map<string, string>, from: string, to: string, now: int)
    requires UniqueIds(records) && records != []
    ensures var n := |records| - 1; var front := records[..n];
            && records[n].id !in LinksOf(front, tenant, moves)
            && records[n].id !in LinksOf(MoveChildren(front, tenant, moves, now), tenant, map[from := to])
  {
    var n := |records| - 1;
    var front := records[..n];
    var movedFront := MoveChildren(front, tenant, moves, now);
    LinksWithin(front, tenant, moves);
    LinksWithin(movedFront, tenant, map[from := to]);
    assert forall j :: 0 <= j < n ==> front[j].id == records[j].id != records[n].id;
    assert forall j :: 0 <= j < n ==> movedFront[j].id == front[j].id;
  }

  lemma LinksOneMore(t: Tables, tenant: string, moves: map<string, string>, from: string, to: string, now: int)
    requires UniqueIds(t.records) && from !in moves && NoneInto(moves, from)
    ensures LinksOf(t.records, tenant, moves[from := to]) ==
            LinksOf(t.records, tenant, moves) + LinksOf(Apply(t, tenant, moves, now).records, tenant, map[from := to])
  {
    LinksOfMoved(t.records, tenant, moves, from, to, now);
  }

  /** Deleting one case through the store API is the table side of moving it. */
  lemma DeleteIsApply(t: Tables, tenant: string, from: string, to: string, now: int)
    ensures Delete(t.store, from) == Apply(t, tenant, map[from := to], now).store
  {
    SameFilter(t.store.order, NotId(from), Survives(map[from := to]));
  }
}
