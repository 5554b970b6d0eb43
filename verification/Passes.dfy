/** The two backfill passes of agents/backfill.py as loops over the live stores. */
module Passes {
  import opened Wrappers
  import opened Sequences
  import opened Ordering
  import opened Model
  import opened Records
  import opened Cases
  import opened Children
  import opened EventIntake
  import opened RollUp
  import opened Stores
  import opened Backfill
  import M = Merge

  /** materialise_for_event. */
  method MaterialiseForEvent(exc: ExceptionStore, cse: CaseStore, tenant: string, r: Intake,
                             finalStatus: Option<FinalStatus>,
                             newId: string, now: int) returns (res: Result<(string, seq<Signal>), Error>)
    modifies cse
    ensures (cse.State(), res) == Materialise(exc.records, old(cse.State()), tenant, r, finalStatus, newId, now)
  {
    var found := cse.LookupOrCreate(tenant, r, newId, now);
    if found.Err? {
      return Err(found.error);
    }
    var (id, isNew) := found.value;
    ghost var s1 := cse.State();
    var rolled := RecomputeCaseStatus(exc, cse, tenant, id, Some(finalStatus), now);
    MaterialiseSteps(exc.records, old(cse.State()), tenant, r, finalStatus, newId, now, s1, found, cse.State(), rolled);
    if rolled.Err? {
      return Err(rolled.error);
    }
    if isNew {
      return Ok((id, [CaseOpen]));
    }
    if !rolled.value {
      return Ok((id, [SummaryChanged]));
    }
    if id in cse.cases && Terminal(cse.cases[id].status) {
      return Ok((id, [CaseClose]));
    }
    return Ok((id, [CaseUpdate]));
  }

  lemma MaterialiseSteps(records: seq<ChildCase>, s: Store, tenant: string, r: Intake, finalStatus: Option<FinalStatus>,
                         newId: string, now: int, s1: Store, found: Result<(string, bool), Error>,
                         s2: Store, rolled: Result<bool, Error>)
    requires (s1, found) == LookupOrCreate(s, tenant, r, newId, now) && found.Ok?
    requires (s2, rolled) == Recompute(records, s1, tenant, found.value.0, Some(finalStatus), now)
    ensures Materialise(records, s, tenant, r, finalStatus, newId, now) ==
            (s2, if rolled.Err? then Err(rolled.error)
                 else Ok((found.value.0, SignalsFor(s2, found.value.0, found.value.1, rolled.value))))
  {
  }

  /** The body of the backfill loop for one orphan. */
  method LinkOrphan(exc: ExceptionStore, cse: CaseStore, r: ChildCase, newId: string, now: int, before: Report)
    returns (report: Report, aborted: bool)
    requires exc.Valid()
    modifies exc`records, cse
    ensures exc.Valid()
    ensures Progress(exc.records, cse.State(), report, aborted) ==
            LinkOne(Progress(old(exc.records), old(cse.State()), before, false), r, newId, now)
  {
    report, aborted := before.(scanned := before.scanned + 1), false;
    if !r.originalEvent.Event? {
      report := report.(skipped := report.skipped + 1);
      return;
    }
    var found := cse.LookupOrCreate(r.tenantId, BackfillIntake(r.originalEvent.event), newId, now);
    if found.Err? {
      aborted := true;
      return;
    }
    var (id, isNew) := found.value;
    ghost var s' := cse.State();
    var updated := exc.Update(cse, r.id, r.tenantId, NO_CHANGE.(parentCaseId := Some(Some(id))),
                              Attribution(None, None, None), now);
    report := report.(links := report.links[r.id := id]);
    if isNew {
      report := report.(linkedNew := report.linkedNew + 1);
    } else {
      report := report.(attached := report.attached + 1);
    }
    LinkSteps(Progress(old(exc.records), old(cse.State()), before, false), r, newId, now, s', found,
              (exc.records, cse.State(), updated));
  }

  lemma LinkSteps(p: Progress, r: ChildCase, newId: string, now: int, s': Store,
                  found: Result<(string, bool), Error>,
                  updated: (seq<ChildCase>, Store, Result<Option<ChildCase>, Error>))
    requires r.originalEvent.Event? && found.Ok? && !p.aborted
    requires (s', found) == LookupOrCreate(p.store, r.tenantId, BackfillIntake(r.originalEvent.event), newId, now)
    requires updated == UpdateRecord(p.records, s', r.id, r.tenantId,
                                     NO_CHANGE.(parentCaseId := Some(Some(found.value.0))),
                                     Attribution(None, None, None), now)
    ensures var (id, isNew) := found.value;
            var seen := p.report.(scanned := p.report.scanned + 1, links := p.report.links[r.id := id]);
            LinkOne(p, r, newId, now) ==
              Progress(updated.0, updated.1, if isNew then seen.(linkedNew := seen.linkedNew + 1)
                                             else seen.(attached := seen.attached + 1), false)
  {
  }

  /** backfill_orphan_cases; returns early when an exception leaves the loop. */
  method BackfillOrphanCases(exc: ExceptionStore, cse: CaseStore, tenant: string, ids: seq<string>, now: int)
    returns (report: Report, aborted: bool)
    requires exc.Valid() && |ListOrphans(exc.records, tenant)| <= |ids|
    modifies exc`records, cse
    ensures exc.Valid()
    ensures Progress(exc.records, cse.State(), report, aborted) ==
            BackfillPass(old(exc.records), old(cse.State()), tenant, ids, now)
  {
    var orphans := ListOrphans(exc.records, tenant);
    report, aborted := NO_REPORT, false;
    for i := 0 to |orphans|
      invariant exc.Valid() && !aborted
      invariant Progress(exc.records, cse.State(), report, false) ==
                LinkFirst(old(exc.records), old(cse.State()), orphans, ids, now, i)
    {
      report, aborted := LinkOrphan(exc, cse, orphans[i], ids[i], now, report);
      if aborted {
        LoopStops(old(exc.records), old(cse.State()), orphans, ids, now, i + 1, |orphans|,
                  Progress(exc.records, cse.State(), report, true));
        return;
      }
    }
  }

  /** Once aborted, the rest of the loop does not happen. */
  lemma StaysAborted(records: seq<ChildCase>, s: Store, orphans: seq<ChildCase>, ids: seq<string>, now: int, n: nat,
                     p: Progress)
    requires 0 < n <= |orphans| <= |ids| && LinkFirst(records, s, orphans, ids, now, n - 1) == p && p.aborted
    ensures LinkFirst(records, s, orphans, ids, now, n) == p
  {
  }

  ghost predicate StoppedAt(records: seq<ChildCase>, s: Store, orphans: seq<ChildCase>, ids: seq<string>, now: int,
                            p: Progress, n: nat)
  {
    n <= |orphans| <= |ids| && LinkFirst(records, s, orphans, ids, now, n) == p
  }

  lemma StaysStopped(records: seq<ChildCase>, s: Store, orphans: seq<ChildCase>, ids: seq<string>, now: int,
                     p: Progress, n: nat)
    requires StoppedAt(records, s, orphans, ids, now, p, n) && n < |orphans| && p.aborted
    ensures StoppedAt(records, s, orphans, ids, now, p, n + 1)
  {
    StaysAborted(records, s, orphans, ids, now, n + 1, p);
  }

  lemma {:induction false} LoopStops(records: seq<ChildCase>, s: Store, orphans: seq<ChildCase>, ids: seq<string>,
                                     now: int, k: nat, n: nat, p: Progress)
    requires k <= n <= |orphans| && StoppedAt(records, s, orphans, ids, now, p, k) && p.aborted
    ensures StoppedAt(records, s, orphans, ids, now, p, n)
    decreases n - k
  {
    if k < n {
      StaysStopped(records, s, orphans, ids, now, p, k);
      LoopStops(records, s, orphans, ids, now, k + 1, n, p);
    }
  }

  // ----- pass 2 -------------------------------------------------------------

  /** `before` with the children in `moved` re-pointed onto `to`. */
  function Repointed(before: seq<ChildCase>, moved: seq<ChildCase>, to: string, now: int): seq<ChildCase> {
    seq(|before|, i requires 0 <= i < |before| =>
      if before[i] in moved then before[i].(parentCaseId := Some(to), updatedAt := now) else before[i])
  }

  lemma RepointedIds(before: seq<ChildCase>, moved: seq<ChildCase>, to: string, now: int)
    requires UniqueIds(before)
    ensures UniqueIds(Repointed(before, moved, to, now))
  {
    forall r | r in Repointed(before, moved, to, now) ensures r.id != "" {
      var i :| 0 <= i < |before| && Repointed(before, moved, to, now)[i] == r;
      assert before[i] in before;
    }
  }

  /** Re-pointing one more child is one parent update. */
  lemma RepointNext(before: seq<ChildCase>, moved: seq<ChildCase>, child: ChildCase, s: Store, tenant: string,
                    to: string, now: int)
    requires UniqueIds(before) && child in before && child !in moved && child.tenantId == tenant
    ensures UpdateRecord(Repointed(before, moved, to, now), s, child.id, tenant,
                         NO_CHANGE.(parentCaseId := Some(Some(to))),
                         Attribution(None, None, None), now).0 == Repointed(before, moved + [child], to, now)
    ensures UpdateRecord(Repointed(before, moved, to, now), s, child.id, tenant,
                         NO_CHANGE.(parentCaseId := Some(Some(to))),
                         Attribution(None, None, None), now).1 == s
  {
    var k :| 0 <= k < |before| && before[k] == child;
    var now0 := Repointed(before, moved, to, now);
    RepointedIds(before, moved, to, now);
    assert now0[k] == child;
    ParentUpdate(now0, s, k, tenant, to, now);
    assert forall i :: 0 <= i < |before| && i != k ==> before[i].id != child.id;
    assert now0[k := child.(parentCaseId := Some(to), updatedAt := now)] == Repointed(before, moved + [child], to, now);
  }

  /** Re-pointing all children of a case is the record side of moving it. */
  lemma RepointAll(before: seq<ChildCase>, s: Store, tenant: string, from: string, to: string, now: int)
    ensures Repointed(before, ListByCase(before, tenant, from), to, now) ==
            M.Apply(M.Tables(before, s), tenant, map[from := to], now).records
  {
    forall i | 0 <= i < |before|
      ensures before[i] in ListByCase(before, tenant, from) <==> ChildrenOf(tenant, from)(before[i]) {
      FilterMember(before, ChildrenOf(tenant, from), before[i]);
    }
  }

  /** The report entries of re-pointed children. */
  function LinksTo(children: seq<ChildCase>, to: string): map<string, string> {
    if children == [] then map[] else LinksTo(children[..|children| - 1], to)[children[|children| - 1].id := to]
  }

  lemma LinksToAppend(children: seq<ChildCase>, r: ChildCase, to: string)
    ensures LinksTo(children + [r], to) == LinksTo(children, to)[r.id := to]
  {
    assert (children + [r])[..|children|] == children;
  }

  lemma {:induction false} LinksToAll(records: seq<ChildCase>, tenant: string, from: string, to: string)
    ensures LinksTo(ListByCase(records, tenant, from), to) == M.LinksOf(records, tenant, map[from := to])
  {
    if records != [] {
      var front, r := records[..|records| - 1], records[|records| - 1];
      LinksToAll(front, tenant, from, to);
      LinksToAppend(ListByCase(front, tenant, from), r, to);
      assert ChildrenOf(tenant, from)(r) <==> M.NewParent(r, tenant, map[from := to]) == Some(to);
    }
  }

  /** One more child re-pointed. */
  method RepointOne(exc: ExceptionStore, cse: CaseStore, tenant: string, from: string, to: string, now: int,
                    ghost was: seq<ChildCase>, children: seq<ChildCase>, j: nat)
    requires exc.Valid() && UniqueIds(was) && children == ListByCase(was, tenant, from) && j < |children|
    requires UniqueIds(children) && exc.records == Repointed(was, children[..j], to, now)
    modifies exc`records, cse`history
    ensures exc.Valid() && cse.State() == old(cse.State())
    ensures exc.records == Repointed(was, children[..j + 1], to, now)
  {
    FilterMember(was, ChildrenOf(tenant, from), children[j]);
    assert children[..j + 1] == children[..j] + [children[j]];
    RepointNext(was, children[..j], children[j], cse.State(), tenant, to, now);
    var patch := NO_CHANGE.(parentCaseId := Some(Some(to)));
    var _ := exc.Update(cse, children[j].id, tenant, patch, Attribution(None, None, None), now);
  }

  lemma LinksToNext(before: map<string, string>, children: seq<ChildCase>, j: nat, to: string)
    requires j < |children|
    ensures (before + LinksTo(children[..j], to))[children[j].id := to] == before + LinksTo(children[..j + 1], to)
  {
    assert children[..j + 1][..j] == children[..j];
  }

  /** Children of `from` re-pointed onto `to`, one update each. */
  method RepointChildren(exc: ExceptionStore, cse: CaseStore, tenant: string, from: string, to: string, now: int,
                         before: map<string, string>) returns (links: map<string, string>)
    requires exc.Valid()
    modifies exc`records, cse`history
    ensures exc.Valid() && cse.State() == old(cse.State())
    ensures exc.records == M.Apply(M.Tables(old(exc.records), old(cse.State())), tenant, map[from := to], now).records
    ensures links == before + M.LinksOf(old(exc.records), tenant, map[from := to])
  {
    links := before;
    var children := ListByCase(exc.records, tenant, from);
    ghost var was := exc.records;
    FilterKeepsUnique(was, ChildrenOf(tenant, from));
    assert exc.records == Repointed(was, [], to, now);
    for j := 0 to |children|
      invariant exc.Valid() && cse.State() == old(cse.State())
      invariant exc.records == Repointed(was, children[..j], to, now)
      invariant links == before + LinksTo(children[..j], to)
    {
      RepointOne(exc, cse, tenant, from, to, now, was, children, j);
      LinksToNext(before, children, j, to);
      links := links[children[j].id := to];
    }
    assert children[..|children|] == children;
    RepointAll(was, cse.State(), tenant, from, to, now);
    LinksToAll(was, tenant, from, to);
  }

  /** The grouping dict after the cases in `seen`: each PO with its cases, in order. */
  ghost predicate Grouped(byPo: map<string, seq<OrderCase>>, pos: seq<string>, seen: seq<OrderCase>) {
    && Distinct(pos)
    && (forall po :: po in pos <==> po in byPo)
    && (forall po :: po in byPo ==> po != "" && byPo[po] == Filter(seen, M.WithPo(po)))
    && (forall c :: c in seen && Truthy(c.customerPo) ==> c.customerPo.value in byPo)
  }

  method GroupByPo(listed: seq<OrderCase>) returns (byPo: map<string, seq<OrderCase>>, pos: seq<string>)
    ensures Grouped(byPo, pos, listed)
  {
    byPo, pos := map[], [];
    for i := 0 to |listed|
      invariant Grouped(byPo, pos, listed[..i])
    {
      var c := listed[i];
      assert listed[..i + 1] == listed[..i] + [c];
      ghost var byPo0, pos0 := byPo, pos;
      if Truthy(c.customerPo) {
        var po := c.customerPo.value;
        if po !in byPo {
          pos := pos + [po];
          NoneOfPo(byPo, pos0, listed[..i], po);
          byPo := byPo[po := []];
        }
        byPo := byPo[po := byPo[po] + [c]];
      }
      forall po | po in byPo ensures po != "" && byPo[po] == Filter(listed[..i + 1], M.WithPo(po)) {
        FilterConcat(listed[..i], [c], M.WithPo(po));
        if po !in byPo0 {
          NoneOfPo(byPo0, pos0, listed[..i], po);
        }
      }
    }
    assert listed[..|listed|] == listed;
  }

  lemma NoneOfPo(byPo: map<string, seq<OrderCase>>, pos: seq<string>, seen: seq<OrderCase>, po: string)
    requires Grouped(byPo, pos, seen) && po !in byPo && po != ""
    ensures Filter(seen, M.WithPo(po)) == []
  {
    if Filter(seen, M.WithPo(po)) != [] {
      var c := Filter(seen, M.WithPo(po))[0];
      FilterMember(seen, M.WithPo(po), c);
    }
  }

  /** The moves whose PO is among the first groups. */
  function MovesIn(s: Store, tenant: string, pos: seq<string>): map<string, string> {
    map id | id in M.Moves(s, tenant) && s.cases[id].customerPo.value in pos :: M.Moves(s, tenant)[id]
  }

  /** merge_orphan_cases_by_correlation. */
  method MergeOrphanCases(exc: ExceptionStore, cse: CaseStore, tenant: string, dryRun: bool, now: int)
    returns (merged: nat, links: map<string, string>)
    requires exc.Valid() && WellFormed(cse.State())
    modifies exc`records, cse
    ensures exc.Valid()
    ensures (M.Tables(exc.records, cse.State()), merged, links) ==
            M.MergePass(M.Tables(old(exc.records), old(cse.State())), tenant, dryRun, now)
  {
    ghost var t0 := M.Tables(exc.records, cse.State());
    var listed := M.ListByTenant(cse.State(), tenant);
    var byPo, pos := GroupByPo(listed);
    merged, links := 0, map[];
    M.NoMovesNoChange(t0, tenant, now);
    M.NoMovesNoLinks(t0.records, tenant);
    assert MovesIn(t0.store, tenant, pos[..0]) == map[];
    for k := 0 to |pos|
      invariant exc.Valid()
      invariant Standing(exc, cse, links, t0, tenant, MovesIn(t0.store, tenant, pos[..k]), dryRun, now)
      invariant merged == MergedUpTo(t0.store, tenant, pos, k)
    {
      assert pos[k] in byPo;
      GroupMerges(t0.store, tenant, pos, k);
      merged, links := MergeGroup(exc, cse, tenant, byPo[pos[k]], dryRun, now, merged, links, t0,
                                  MovesIn(t0.store, tenant, pos[..k]));
    }
    assert pos[..|pos|] == pos;
    AllGroups(t0.store, tenant, byPo, pos);
    MergedIsMoves(t0.store, tenant, pos, |pos|);
  }

  /** How many cases the first `k` groups lose. */
  ghost function MergedUpTo(s: Store, tenant: string, pos: seq<string>, k: nat): nat
    requires k <= |pos|
  {
    if k == 0 then 0 else MergedUpTo(s, tenant, pos, k - 1) + LaterCount(M.Group(s, tenant, pos[k - 1]))
  }

  lemma {:induction false} MergedIsMoves(s: Store, tenant: string, pos: seq<string>, k: nat)
    requires WellFormed(s) && k <= |pos| && Distinct(pos) && "" !in pos
    ensures MergedUpTo(s, tenant, pos, k) == |MovesIn(s, tenant, pos[..k])|
  {
    if k > 0 {
      MergedIsMoves(s, tenant, pos, k - 1);
      GroupCounts(s, tenant, pos, k - 1);
    } else {
      assert MovesIn(s, tenant, pos[..0]) == map[];
    }
  }

  /** The stores and the report show the original tables with exactly `moves` carried out. */
  ghost predicate Standing(exc: ExceptionStore, cse: CaseStore, links: map<string, string>, t0: M.Tables,
                           tenant: string,
                           moves: map<string, string>, dryRun: bool, now: int)
    reads exc, cse
  {
    && M.Tables(exc.records, cse.State()) == (if dryRun then t0 else M.Apply(t0, tenant, moves, now))
    && links == (if dryRun then map[] else M.LinksOf(t0.records, tenant, moves))
    && UniqueIds(t0.records)
  }

  lemma AllGroups(s: Store, tenant: string, byPo: map<string, seq<OrderCase>>, pos: seq<string>)
    requires WellFormed(s) && Grouped(byPo, pos, M.ListByTenant(s, tenant))
    ensures MovesIn(s, tenant, pos) == M.Moves(s, tenant)
  {
    forall id | id in M.Moves(s, tenant) ensures s.cases[id].customerPo.value in pos {
      var c := s.cases[id];
      M.GroupMember(s, tenant, c.customerPo.value, c);
      FilterMember(M.ListByTenant(s, tenant), M.WithPo(c.customerPo.value), c);
    }
  }

  /** One duplicate merged into its primary on the live stores, unless this is a dry run. */
  method MergeOne(exc: ExceptionStore, cse: CaseStore, tenant: string, from: string, to: string, dryRun: bool, now: int,
                  before: map<string, string>, ghost t0: M.Tables, ghost moves: map<string, string>)
    returns (links: map<string, string>)
    requires exc.Valid() && from != to && from !in moves && M.NoneInto(moves, from)
    requires Standing(exc, cse, before, t0, tenant, moves, dryRun, now)
    modifies exc`records, cse
    ensures exc.Valid()
    ensures Standing(exc, cse, links, t0, tenant, moves[from := to], dryRun, now)
  {
    links := before;
    if dryRun {
      return;
    }
    M.ApplyOneMore(t0, tenant, moves, from, to, now);
    M.LinksOneMore(t0, tenant, moves, from, to, now);
    M.DeleteIsApply(M.Tables(exc.records, cse.State()), tenant, from, to, now);
    links := RepointChildren(exc, cse, tenant, from, to, now, before);
    cse.Delete(from);
  }

  ghost predicate AllMergeable(before: map<string, string>, sorted: seq<OrderCase>) {
    forall j :: 1 <= j < |sorted| ==> Mergeable(before, sorted, j)
  }

  /** The moves after a whole group: every case but the earliest goes to it. */
  function GroupMoves(before: map<string, string>, sorted: seq<OrderCase>): map<string, string> {
    if |sorted| < 2 then before else MovesAfter(before, sorted, |sorted| - 1)
  }

  function LaterCount(group: seq<OrderCase>): nat {
    if |group| < 2 then 0 else |group| - 1
  }

  /** One group: every case but the earliest is merged into it. */
  method MergeGroup(exc: ExceptionStore, cse: CaseStore, tenant: string, group: seq<OrderCase>, dryRun: bool, now: int,
                    start: nat, report: map<string, string>, ghost t0: M.Tables, ghost before: map<string, string>)
    returns (merged: nat, links: map<string, string>)
    requires exc.Valid() && AllMergeable(before, SortByKey(group, M.OpenedAt()))
    requires Standing(exc, cse, report, t0, tenant, before, dryRun, now)
    modifies exc`records, cse
    ensures exc.Valid() && merged == start + LaterCount(group)
    ensures Standing(exc, cse, links, t0, tenant, GroupMoves(before, SortByKey(group, M.OpenedAt())), dryRun, now)
  {
    merged, links := start, report;
    if |group| < 2 {
      return;
    }
    var sorted := SortByKey(group, M.OpenedAt());
    merged, links := MergeLater(exc, cse, tenant, sorted, dryRun, now, start, report, t0, before);
  }

  /** The j-th case can be merged into the first on top of the moves before it. */
  ghost predicate Mergeable(before: map<string, string>, sorted: seq<OrderCase>, j: nat)
    requires 1 <= j < |sorted|
  {
    var moves, from := MovesAfter(before, sorted, j - 1), sorted[j].caseId;
    from != sorted[0].caseId && from !in moves && M.NoneInto(moves, from)
  }

  /** One later case of a sorted group merged into the first. */
  method MergeNext(exc: ExceptionStore, cse: CaseStore, tenant: string, sorted: seq<OrderCase>, j: nat, dryRun: bool,
                   now: int, report: map<string, string>, ghost t0: M.Tables, ghost before: map<string, string>)
    returns (links: map<string, string>)
    requires exc.Valid() && 1 <= j < |sorted| && Mergeable(before, sorted, j)
    requires Standing(exc, cse, report, t0, tenant, MovesAfter(before, sorted, j - 1), dryRun, now)
    modifies exc`records, cse
    ensures exc.Valid()
    ensures Standing(exc, cse, links, t0, tenant, MovesAfter(before, sorted, j), dryRun, now)
  {
    links := MergeOne(exc, cse, tenant, sorted[j].caseId, sorted[0].caseId, dryRun, now, report, t0,
                      MovesAfter(before, sorted, j - 1));
  }

  /** The loop over the later cases of one sorted group. */
  method MergeLater(exc: ExceptionStore, cse: CaseStore, tenant: string, sorted: seq<OrderCase>, dryRun: bool, now: int,
                    start: nat, report: map<string, string>, ghost t0: M.Tables, ghost before: map<string, string>)
    returns (merged: nat, links: map<string, string>)
    requires exc.Valid() && sorted != [] && AllMergeable(before, sorted)
    requires Standing(exc, cse, report, t0, tenant, before, dryRun, now)
    modifies exc`records, cse
    ensures exc.Valid() && merged == start + |sorted| - 1
    ensures Standing(exc, cse, links, t0, tenant, MovesAfter(before, sorted, |sorted| - 1), dryRun, now)
  {
    merged, links := start, report;
    for j := 1 to |sorted|
      invariant exc.Valid() && merged == start + j - 1
      invariant Standing(exc, cse, links, t0, tenant, MovesAfter(before, sorted, j - 1), dryRun, now)
    {
      merged := merged + 1;
      links := MergeNext(exc, cse, tenant, sorted, j, dryRun, now, links, t0, before);
    }
  }

  function SortedGroup(s: Store, tenant: string, po: string): seq<OrderCase> {
    SortByKey(M.Group(s, tenant, po), M.OpenedAt())
  }

  /** The cases after the first, up to the j-th. */
  function Later(sorted: seq<OrderCase>, j: nat): set<string>
    requires j < |sorted|
  {
    if j == 0 then {} else Later(sorted, j - 1) + {sorted[j].caseId}
  }

  lemma {:induction false} LaterMember(sorted: seq<OrderCase>, j: nat, id: string)
    requires j < |sorted|
    ensures id in Later(sorted, j) <==> exists i :: 1 <= i <= j && sorted[i].caseId == id
  {
    if j > 0 {
      LaterMember(sorted, j - 1, id);
    }
  }

  /** `moves` holds the earlier groups' moves and those of the first `j` later cases here. */
  ghost predicate MovesSoFar(all: map<string, string>, earlier: set<string>, sorted: seq<OrderCase>, j: nat,
                             moves: map<string, string>)
    requires j < |sorted|
  {
    moves.Keys == earlier + Later(sorted, j) && Within(moves, all)
  }

  /** What the loop over one sorted group relies on. */
  ghost predicate GroupOk(all: map<string, string>, earlier: set<string>, sorted: seq<OrderCase>) {
    && DistinctCases(sorted)
    && (forall i :: 1 <= i < |sorted| ==> sorted[i].caseId in all && all[sorted[i].caseId] == sorted[0].caseId
                                          && sorted[i].caseId !in earlier)
  }

  /** No case is merged into a later one. */
  ghost predicate Untargeted(all: map<string, string>, sorted: seq<OrderCase>) {
    forall i :: 1 <= i < |sorted| ==> M.NoneInto(all, sorted[i].caseId)
  }

  /** The earlier groups' moves and those of the first `j` later cases here. */
  function MovesAfter(before: map<string, string>, sorted: seq<OrderCase>, j: nat): map<string, string>
    requires j < |sorted|
  {
    if j == 0 then before else MovesAfter(before, sorted, j - 1)[sorted[j].caseId := sorted[0].caseId]
  }

  lemma MovesAfterNone(all: map<string, string>, before: map<string, string>, sorted: seq<OrderCase>)
    requires sorted != [] && Within(before, all)
    ensures MovesSoFar(all, before.Keys, sorted, 0, MovesAfter(before, sorted, 0))
  {
  }

  lemma {:induction false} MovesAfterOk(all: map<string, string>, before: map<string, string>, sorted: seq<OrderCase>,
                                        j: nat)
    requires j < |sorted| && GroupOk(all, before.Keys, sorted) && Within(before, all)
    ensures MovesSoFar(all, before.Keys, sorted, j, MovesAfter(before, sorted, j))
  {
    if j > 0 {
      MovesAfterOk(all, before, sorted, j - 1);
      NextMove(all, before.Keys, sorted, j, MovesAfter(before, sorted, j - 1));
    } else {
      MovesAfterNone(all, before, sorted);
    }
  }

  lemma NewMove(all: map<string, string>, earlier: set<string>, sorted: seq<OrderCase>, j: nat,
                moves: map<string, string>)
    requires 1 <= j < |sorted| && GroupOk(all, earlier, sorted) && MovesSoFar(all, earlier, sorted, j - 1, moves)
    ensures sorted[j].caseId != sorted[0].caseId && sorted[j].caseId !in moves
  {
    LaterMember(sorted, j - 1, sorted[j].caseId);
  }

  lemma NoneIntoPart(all: map<string, string>, part: map<string, string>, id: string)
    requires Within(part, all) && M.NoneInto(all, id)
    ensures M.NoneInto(part, id)
  {
    forall x | x in part ensures part[x] != id {
      assert x in all && all[x] == part[x];
    }
  }

  lemma NextMove(all: map<string, string>, earlier: set<string>, sorted: seq<OrderCase>, j: nat,
                 moves: map<string, string>)
    requires 1 <= j < |sorted| && GroupOk(all, earlier, sorted) && MovesSoFar(all, earlier, sorted, j - 1, moves)
    ensures var next := moves[sorted[j].caseId := sorted[0].caseId];
            MovesSoFar(all, earlier, sorted, j, next)
  {
    var from := sorted[j].caseId;
    var next := moves[from := sorted[0].caseId];
    NewMove(all, earlier, sorted, j, moves);
    assert next.Keys == moves.Keys + {from};
  }

  /** No case is merged into one that is itself merged away. */
  lemma NotATarget(s: Store, tenant: string, from: string)
    requires WellFormed(s) && from in M.Moves(s, tenant)
    ensures M.NoneInto(M.Moves(s, tenant), from)
  {
    var all := M.Moves(s, tenant);
    forall id | id in all ensures all[id] != from {
      M.MoveTarget(s, tenant, id);
    }
  }

  lemma GroupReady(s: Store, tenant: string, pos: seq<string>, k: nat)
    requires WellFormed(s) && k < |pos| && Distinct(pos) && pos[k] != ""
    ensures GroupOk(M.Moves(s, tenant), MovesIn(s, tenant, pos[..k]).Keys, SortedGroup(s, tenant, pos[k]))
    ensures Untargeted(M.Moves(s, tenant), SortedGroup(s, tenant, pos[k]))
    ensures Within(MovesIn(s, tenant, pos[..k]), M.Moves(s, tenant))
  {
    SortedGroupFacts(s, tenant, pos[k]);
    var sorted := SortedGroup(s, tenant, pos[k]);
    forall i | 1 <= i < |sorted| ensures M.NoneInto(M.Moves(s, tenant), sorted[i].caseId) {
      NotATarget(s, tenant, sorted[i].caseId);
    }
    assert pos[k] !in pos[..k];
  }

  lemma SortedGroupFacts(s: Store, tenant: string, po: string)
    requires WellFormed(s) && po != ""
    ensures var sorted := SortedGroup(s, tenant, po);
            && (forall c :: c in sorted <==> c in M.Group(s, tenant, po))
            && (forall i, j :: 0 <= i < j < |sorted| ==> sorted[i].caseId != sorted[j].caseId)
            && (forall i :: 1 <= i < |sorted| ==>
                  && sorted[i].caseId in M.Moves(s, tenant) && M.Moves(s, tenant)[sorted[i].caseId] == sorted[0].caseId
                  && s.cases[sorted[i].caseId] == sorted[i] && sorted[i].customerPo == Some(po))
            && (sorted != [] ==> sorted[0].caseId !in M.Moves(s, tenant))
  {
    var group, sorted := M.Group(s, tenant, po), SortedGroup(s, tenant, po);
    SortByMultiset(group, ByKey(M.OpenedAt()));
    forall c ensures c in sorted <==> c in group {
      assert c in multiset(sorted) <==> c in multiset(group);
    }
    GroupUnique(s, tenant, po);
    SortedUnique(group);
    forall c | c in group
      ensures c.caseId in s.cases && s.cases[c.caseId] == c && c.tenantId == tenant && c.customerPo == Some(po)
    {
      M.GroupMember(s, tenant, po, c);
    }
    MovesOfSorted(s, tenant, po, sorted);
  }

  lemma MovesOfSorted(s: Store, tenant: string, po: string, sorted: seq<OrderCase>)
    requires po != "" && sorted == SortedGroup(s, tenant, po) && DistinctCases(sorted)
    requires sorted != [] ==> M.Group(s, tenant, po) != []
    requires forall i :: 0 <= i < |sorted| ==>
               && sorted[i].caseId in s.cases && s.cases[sorted[i].caseId] == sorted[i]
               && sorted[i].tenantId == tenant && sorted[i].customerPo == Some(po)
    ensures forall i :: 1 <= i < |sorted| ==>
              sorted[i].caseId in M.Moves(s, tenant) && M.Moves(s, tenant)[sorted[i].caseId] == sorted[0].caseId
    ensures sorted != [] ==> sorted[0].caseId !in M.Moves(s, tenant)
  {
  }

  ghost predicate DistinctCases(cs: seq<OrderCase>) {
    forall i, j :: 0 <= i < j < |cs| ==> cs[i].caseId != cs[j].caseId
  }

  lemma {:induction false} CasesInUnique(s: Store, order: seq<string>)
    requires Distinct(order) && forall id :: id in s.cases ==> s.cases[id].caseId == id
    ensures DistinctCases(M.CasesIn(s.cases, order))
  {
    if order != [] {
      var front, last := order[..|order| - 1], order[|order| - 1];
      CasesInUnique(s, front);
      forall c | c in M.CasesIn(s.cases, front) ensures c.caseId != last {
        M.CasesInMember(s.cases, front, c);
      }
    }
  }

  lemma {:induction false} FilterDistinctCases(cs: seq<OrderCase>, p: OrderCase -> bool)
    requires DistinctCases(cs)
    ensures DistinctCases(Filter(cs, p))
  {
    if cs != [] {
      var front, last := cs[..|cs| - 1], cs[|cs| - 1];
      FilterDistinctCases(front, p);
      forall c | c in Filter(front, p) ensures c.caseId != last.caseId {
        FilterMember(front, p, c);
        var i :| 0 <= i < |front| && front[i] == c;
        assert cs[i].caseId != cs[|cs| - 1].caseId;
      }
    }
  }

  lemma GroupUnique(s: Store, tenant: string, po: string)
    requires WellFormed(s)
    ensures DistinctCases(M.Group(s, tenant, po))
  {
    CasesInUnique(s, s.order);
    FilterDistinctCases(M.CasesIn(s.cases, s.order), M.OfTenant(tenant));
    FilterDistinctCases(M.ListByTenant(s, tenant), M.WithPo(po));
  }

  lemma {:induction false} SortedUnique(cs: seq<OrderCase>)
    requires DistinctCases(cs)
    ensures DistinctCases(SortByKey(cs, M.OpenedAt()))
  {
    if cs != [] {
      var front, last := cs[..|cs| - 1], cs[|cs| - 1];
      SortedUnique(front);
      var sorted := SortByKey(front, M.OpenedAt());
      SortByMultiset(front, ByKey(M.OpenedAt()));
      forall i | 0 <= i < |sorted| ensures sorted[i].caseId != last.caseId {
        assert sorted[i] in multiset(front);
        var j :| 0 <= j < |front| && front[j] == sorted[i];
        assert cs[j].caseId != cs[|cs| - 1].caseId;
      }
      var q := InsertSplices(sorted, last, ByKey(M.OpenedAt()));
      SpliceDistinct(sorted, last, q);
    }
  }

  lemma SpliceDistinct(cs: seq<OrderCase>, c: OrderCase, q: nat)
    requires DistinctCases(cs) && q <= |cs| && forall i :: 0 <= i < |cs| ==> cs[i].caseId != c.caseId
    ensures DistinctCases(cs[..q] + [c] + cs[q..])
  {
    var t := cs[..q] + [c] + cs[q..];
    forall i | 0 <= i < |t| && i != q ensures t[i] == cs[if i < q then i else i - 1] {
    }
  }

  lemma MovesInAgrees(s: Store, tenant: string, pos: seq<string>)
    ensures Within(MovesIn(s, tenant, pos), M.Moves(s, tenant))
  {
  }

  ghost predicate Within(part: map<string, string>, all: map<string, string>) {
    forall id :: id in part ==> id in all && part[id] == all[id]
  }

  lemma SameMoves(all: map<string, string>, a: map<string, string>, b: map<string, string>)
    requires a.Keys == b.Keys && Within(a, all) && Within(b, all)
    ensures a == b
  {
    assert forall id :: id in a <==> id in b;
  }

  lemma InMovesIn(s: Store, tenant: string, pos: seq<string>, k: nat, id: string)
    requires k < |pos|
    ensures id in MovesIn(s, tenant, pos[..k + 1]) <==>
              || id in MovesIn(s, tenant, pos[..k])
              || (id in M.Moves(s, tenant) && s.cases[id].customerPo.value == pos[k])
  {
    assert pos[..k + 1] == pos[..k] + [pos[k]];
  }

  lemma InLater(s: Store, tenant: string, po: string, id: string)
    requires WellFormed(s) && po != "" && SortedGroup(s, tenant, po) != []
    ensures var sorted := SortedGroup(s, tenant, po);
            id in Later(sorted, |sorted| - 1) <==> id in M.Moves(s, tenant) && s.cases[id].customerPo.value == po
  {
    var sorted := SortedGroup(s, tenant, po);
    LaterMember(sorted, |sorted| - 1, id);
    SortedGroupFacts(s, tenant, po);
    if id in M.Moves(s, tenant) && s.cases[id].customerPo.value == po {
      GroupHasMove(s, tenant, po, id);
    }
  }

  lemma GroupKeys(s: Store, tenant: string, pos: seq<string>, k: nat)
    requires WellFormed(s) && k < |pos| && pos[k] != "" && |SortedGroup(s, tenant, pos[k])| >= 1
    ensures var sorted := SortedGroup(s, tenant, pos[k]);
            MovesIn(s, tenant, pos[..k + 1]).Keys == MovesIn(s, tenant, pos[..k]).Keys + Later(sorted, |sorted| - 1)
  {
    var sorted := SortedGroup(s, tenant, pos[k]);
    var next, before := MovesIn(s, tenant, pos[..k + 1]), MovesIn(s, tenant, pos[..k]);
    forall id ensures id in next <==> id in before || id in Later(sorted, |sorted| - 1) {
      InMovesIn(s, tenant, pos, k, id);
      InLater(s, tenant, pos[k], id);
    }
    KeysJoin(next, before, Later(sorted, |sorted| - 1));
  }

  lemma KeysJoin(next: map<string, string>, before: map<string, string>, more: set<string>)
    requires forall id :: id in next <==> id in before || id in more
    ensures next.Keys == before.Keys + more
  {
  }

  /** A group can be merged case by case, which makes up the group's moves. */
  lemma GroupMerges(s: Store, tenant: string, pos: seq<string>, k: nat)
    requires WellFormed(s) && k < |pos| && Distinct(pos) && pos[k] != ""
    ensures var before, after := MovesIn(s, tenant, pos[..k]), MovesIn(s, tenant, pos[..k + 1]);
            && AllMergeable(before, SortedGroup(s, tenant, pos[k]))
            && after == GroupMoves(before, SortedGroup(s, tenant, pos[k]))
  {
    if |M.Group(s, tenant, pos[k])| < 2 {
      SmallGroup(s, tenant, pos, k);
    } else {
      GroupReady(s, tenant, pos, k);
      GroupKeys(s, tenant, pos, k);
      MovesInAgrees(s, tenant, pos[..k + 1]);
      MergesUp(M.Moves(s, tenant), MovesIn(s, tenant, pos[..k]), MovesIn(s, tenant, pos[..k + 1]),
               SortedGroup(s, tenant, pos[k]));
    }
  }

  lemma MergesUp(all: map<string, string>, before: map<string, string>, after: map<string, string>,
                 sorted: seq<OrderCase>)
    requires sorted != [] && GroupOk(all, before.Keys, sorted) && Untargeted(all, sorted)
    requires Within(before, all) && Within(after, all) && after.Keys == before.Keys + Later(sorted, |sorted| - 1)
    ensures AllMergeable(before, sorted) && MovesAfter(before, sorted, |sorted| - 1) == after
  {
    AllReadyToMerge(all, before, sorted);
    AfterAllMoves(all, before, after, sorted);
  }

  lemma GroupCounts(s: Store, tenant: string, pos: seq<string>, k: nat)
    requires WellFormed(s) && k < |pos| && Distinct(pos) && pos[k] != ""
    ensures |MovesIn(s, tenant, pos[..k + 1])| ==
              |MovesIn(s, tenant, pos[..k])| + LaterCount(M.Group(s, tenant, pos[k]))
  {
    GroupMerges(s, tenant, pos, k);
    GroupMovesSize(MovesIn(s, tenant, pos[..k]), SortedGroup(s, tenant, pos[k]));
  }

  lemma GroupMovesSize(before: map<string, string>, sorted: seq<OrderCase>)
    requires AllMergeable(before, sorted)
    ensures |GroupMoves(before, sorted)| == |before| + LaterCount(sorted)
  {
    if |sorted| >= 2 {
      MovesAfterSize(before, sorted, |sorted| - 1);
    }
  }

  lemma {:induction false} MovesAfterSize(before: map<string, string>, sorted: seq<OrderCase>, j: nat)
    requires j < |sorted| && forall i :: 1 <= i <= j ==> Mergeable(before, sorted, i)
    ensures |MovesAfter(before, sorted, j)| == |before| + j
  {
    if j > 0 {
      MovesAfterSize(before, sorted, j - 1);
      assert Mergeable(before, sorted, j);
    }
  }

  lemma AfterAllMoves(all: map<string, string>, before: map<string, string>, after: map<string, string>,
                      sorted: seq<OrderCase>)
    requires sorted != [] && GroupOk(all, before.Keys, sorted) && Within(before, all) && Within(after, all)
    requires after.Keys == before.Keys + Later(sorted, |sorted| - 1)
    ensures MovesAfter(before, sorted, |sorted| - 1) == after
  {
    MovesAfterOk(all, before, sorted, |sorted| - 1);
    SameMoves(all, MovesAfter(before, sorted, |sorted| - 1), after);
  }

  lemma AllReadyToMerge(all: map<string, string>, before: map<string, string>, sorted: seq<OrderCase>)
    requires GroupOk(all, before.Keys, sorted) && Untargeted(all, sorted) && Within(before, all)
    ensures forall j :: 1 <= j < |sorted| ==> Mergeable(before, sorted, j)
  {
    forall j | 1 <= j < |sorted| ensures Mergeable(before, sorted, j) {
      ReadyToMerge(all, before, sorted, j);
    }
  }

  lemma ReadyToMerge(all: map<string, string>, before: map<string, string>, sorted: seq<OrderCase>, j: nat)
    requires 1 <= j < |sorted| && GroupOk(all, before.Keys, sorted) && Within(before, all)
    requires M.NoneInto(all, sorted[j].caseId)
    ensures Mergeable(before, sorted, j)
  {
    MovesAfterOk(all, before, sorted, j - 1);
    NewMove(all, before.Keys, sorted, j, MovesAfter(before, sorted, j - 1));
    NoneIntoPart(all, MovesAfter(before, sorted, j - 1), sorted[j].caseId);
  }

  lemma GroupHasMove(s: Store, tenant: string, po: string, id: string)
    requires WellFormed(s) && po != "" && id in M.Moves(s, tenant) && s.cases[id].customerPo.value == po
    ensures var sorted := SortedGroup(s, tenant, po); sorted != [] && id in Later(sorted, |sorted| - 1)
  {
    var sorted := SortedGroup(s, tenant, po);
    SortedGroupFacts(s, tenant, po);
    M.GroupMember(s, tenant, po, s.cases[id]);
    assert s.cases[id] in sorted;
    var i :| 0 <= i < |sorted| && sorted[i] == s.cases[id];
    LaterMember(sorted, |sorted| - 1, id);
  }

  lemma SmallGroup(s: Store, tenant: string, pos: seq<string>, k: nat)
    requires WellFormed(s) && k < |pos| && pos[k] != "" && |M.Group(s, tenant, pos[k])| < 2
    ensures MovesIn(s, tenant, pos[..k + 1]) == MovesIn(s, tenant, pos[..k])
  {
    assert pos[..k + 1] == pos[..k] + [pos[k]];
    SortedGroupFacts(s, tenant, pos[k]);
    assert forall c :: c in SortedGroup(s, tenant, pos[k]) ==> c.caseId !in M.Moves(s, tenant);
    forall id | id in M.Moves(s, tenant) ensures s.cases[id].customerPo.value != pos[k] {
      M.GroupMember(s, tenant, pos[k], s.cases[id]);
    }
  }
}
