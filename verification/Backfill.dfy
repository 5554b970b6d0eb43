/** Pass 1 of the orphan backfill (agents/backfill.py): every orphan record with a
    usable event is linked to a case. */
module Backfill {
  import opened Wrappers
  import opened Sequences
  import opened Model
  import opened Records
  import opened Cases
  import opened CaseIndex
  import opened Children
  import opened Interleaving
  import opened EventIntake

  datatype Report = Report(scanned: nat, linkedNew: nat, attached: nat, skipped: nat, links: map<string, string>)

  const NO_REPORT := Report(0, 0, 0, 0, map[])

  /** `aborted` when an exception has left the loop. */
  datatype Progress = Progress(records: seq<ChildCase>, store: Store, report: Report, aborted: bool)

  function BackfillIntake(e: OrderEvent): Intake {
    EventToIntake(e, None, None, "system:case_intake", "RULE")
  }

  /** The body of the loop for one orphan. */
  function LinkOne(p: Progress, r: ChildCase, newId: string, now: int): Progress {
    var seen := p.report.(scanned := p.report.scanned + 1);
    match r.originalEvent
    case Missing => p.(report := seen.(skipped := seen.skipped + 1))
    case Malformed => p.(report := seen.(skipped := seen.skipped + 1))
    case Event(e) =>
      var (s', res) := LookupOrCreate(p.store, r.tenantId, BackfillIntake(e), newId, now);
      if res.Err? then p.(store := s', report := seen, aborted := true)
      else
        var (records', s'', _) := UpdateRecord(p.records, s', r.id, r.tenantId,
                                               NO_CHANGE.(parentCaseId := Some(Some(res.value.0))),
                                               Attribution(None, None, None), now);
        var linked := seen.(links := seen.links[r.id := res.value.0]);
        Progress(records', s'',
                 if res.value.1 then linked.(linkedNew := linked.linkedNew + 1)
                 else linked.(attached := linked.attached + 1), false)
  }

  /** The loop after its first `n` orphans. */
  function LinkFirst(records: seq<ChildCase>, s: Store, orphans: seq<ChildCase>, ids: seq<string>, now: int,
                     n: nat): Progress
    requires n <= |orphans| <= |ids|
  {
    if n == 0 then Progress(records, s, NO_REPORT, false)
    else
      var p := LinkFirst(records, s, orphans, ids, now, n - 1);
      if p.aborted then p else LinkOne(p, orphans[n - 1], ids[n - 1], now)
  }

  /** backfill_orphan_cases; `ids` are the uuids it may draw, `now` its clock. */
  function BackfillPass(records: seq<ChildCase>, s: Store, tenant: string, ids: seq<string>, now: int): Progress
    requires |ListOrphans(records, tenant)| <= |ids|
  {
    var orphans := ListOrphans(records, tenant);
    LinkFirst(records, s, orphans, ids, now, |orphans|)
  }

  ghost predicate FreshIds(s: Store, ids: seq<string>) {
    Distinct(ids) && forall i :: 0 <= i < |ids| ==> FreshId(s, ids[i])
  }

  // ----- one step -----------------------------------------------------------

  predicate Usable(r: ChildCase) {
    r.originalEvent.Event?
  }

  function ParentAfter(r: ChildCase, links: map<string, string>): Option<string> {
    if r.id in links then Some(links[r.id]) else r.parentCaseId
  }

  /** `records` with parents set by `links`; nothing but parent and time stamp moves. */
  ghost predicate Relinked(before: seq<ChildCase>, after: seq<ChildCase>, links: map<string, string>) {
    && |before| == |after|
    && forall i :: 0 <= i < |before| ==>
         after[i] == before[i].(parentCaseId := ParentAfter(before[i], links), updatedAt := after[i].updatedAt)
  }

  lemma RelinkedUnique(before: seq<ChildCase>, after: seq<ChildCase>, links: map<string, string>)
    requires UniqueIds(before) && Relinked(before, after, links)
    ensures UniqueIds(after)
  {
    forall r | r in after ensures r.id != "" {
      var i :| 0 <= i < |after| && after[i] == r;
      assert before[i] in before;
    }
    forall i | 0 <= i < |after| ensures after[i].id == before[i].id {
    }
  }

  /** A parent-only update is a plain rewrite of one record. */
  lemma ParentUpdate(records: seq<ChildCase>, s: Store, k: nat, tenant: string, parent: string, now: int)
    requires UniqueIds(records) && k < |records| && records[k].tenantId == tenant
    ensures UpdateRecord(records, s, records[k].id, tenant, NO_CHANGE.(parentCaseId := Some(Some(parent))),
                         Attribution(None, None, None), now)
            == (records[k := records[k].(parentCaseId := Some(parent), updatedAt := now)], s,
                Ok(Some(records[k].(parentCaseId := Some(parent), updatedAt := now))))
  {
    PositionFinds(records, k);
  }

  /** What linking one usable orphan does, when it does not abort. */
  lemma LinkStep(before: seq<ChildCase>, p: Progress, k: nat, newId: string, now: int)
    requires UniqueIds(before) && Relinked(before, p.records, p.report.links) && k < |before|
    requires before[k].id !in p.report.links && Usable(before[k])
    requires IndexLive(p.store) && WellFormed(p.store) && FreshId(p.store, newId)
    ensures var p' := LinkOne(p, before[k], newId, now);
            var r := before[k]; var t := r.tenantId; var intake := BackfillIntake(r.originalEvent.event);
            && p'.store == LookupOrCreate(p.store, t, intake, newId, now).0
            && (p'.aborted <==> LookupOrCreate(p.store, t, intake, newId, now).1.Err?)
            && (p'.aborted ==> p'.records == p.records && p'.report.links == p.report.links)
            && (!p'.aborted ==>
                  var id := LookupOrCreate(p.store, t, intake, newId, now).1.value.0;
                  && p'.report.links == p.report.links[r.id := id]
                  && Relinked(before, p'.records, p'.report.links))
  {
    var r := before[k];
    var (s', res) := LookupOrCreate(p.store, r.tenantId, BackfillIntake(r.originalEvent.event), newId, now);
    RelinkedUnique(before, p.records, p.report.links);
    if res.Ok? {
      var id := res.value.0;
      ParentUpdate(p.records, s', k, r.tenantId, id, now);
      var p' := LinkOne(p, r, newId, now);
      forall i | 0 <= i < |before|
        ensures p'.records[i] ==
                  before[i].(parentCaseId := ParentAfter(before[i], p'.report.links),
                             updatedAt := p'.records[i].updatedAt)
      {
        assert i != k ==> before[i].id != r.id;
      }
    }
  }

  // ----- the loop invariant -------------------------------------------------

  /** The ids of the usable orphans among the first n. */
  function Done(orphans: seq<ChildCase>, n: nat): set<string>
    requires n <= |orphans|
  {
    set i | 0 <= i < n && Usable(orphans[i]) :: orphans[i].id
  }

  ghost predicate LinksLive(links: map<string, string>, s: Store, tenant: string) {
    forall id :: id in links ==> links[id] in s.cases && s.cases[links[id]].tenantId == tenant
  }

  ghost predicate Sound(records: seq<ChildCase>, s: Store, tenant: string, orphans: seq<ChildCase>, ids: seq<string>,
                        p: Progress, n: nat)
    requires n <= |orphans| <= |ids|
  {
    && IndexLive(p.store) && WellFormed(p.store) && Keeps(s.cases, p.store.cases)
    && (forall i :: n <= i < |ids| ==> FreshId(p.store, ids[i]))
    && Relinked(records, p.records, p.report.links)
    && p.report.links.Keys <= Done(orphans, n)
    && LinksLive(p.report.links, p.store, tenant)
    && (!p.aborted ==> p.report.links.Keys == Done(orphans, n) && p.report.scanned == n
                       && p.report.scanned == p.report.linkedNew + p.report.attached + p.report.skipped)
  }

  lemma OrphanPosition(records: seq<ChildCase>, tenant: string, j: nat) returns (k: nat)
    requires j < |ListOrphans(records, tenant)|
    ensures k < |records| && records[k] == ListOrphans(records, tenant)[j] && OrphanOf(tenant)(records[k])
  {
    FilterMember(records, OrphanOf(tenant), ListOrphans(records, tenant)[j]);
    k :| 0 <= k < |records| && records[k] == ListOrphans(records, tenant)[j];
  }

  lemma LookupAddsOnly(s: Store, tenant: string, r: Intake, newId: string, now: int, other: string)
    requires other != newId
    ensures var s' := LookupOrCreate(s, tenant, r, newId, now).0;
            (other in s'.history <==> other in s.history)
  {
  }

  /** Ids stay unused until their turn. */
  lemma LookupKeepsFresh(s: Store, tenant: string, r: Intake, newId: string, now: int, other: string)
    requires FreshId(s, newId) && FreshId(s, other) && other != newId
    ensures FreshId(LookupOrCreate(s, tenant, r, newId, now).0, other)
  {
    CommitEffect(s, tenant, r, Find(s, tenant, r.keys), newId, now);
    LookupAddsOnly(s, tenant, r, newId, now, other);
  }

  lemma LookupKeepsSound(s: Store, tenant: string, r: Intake, newId: string, now: int)
    requires IndexLive(s) && WellFormed(s) && FreshId(s, newId)
    ensures var s' := LookupOrCreate(s, tenant, r, newId, now).0;
            IndexLive(s') && WellFormed(s') && Keeps(s.cases, s'.cases)
  {
    var op := LookupOp(tenant, r, newId, now);
    StepKeepsIndexIff(s, op);
    StepKeepsWellFormed(s, op);
    WholeKeepsCases(s, op);
  }

  lemma DoneGrows(orphans: seq<ChildCase>, n: nat)
    requires n < |orphans| && UniqueIds(orphans)
    ensures Done(orphans, n + 1) == Done(orphans, n) + if Usable(orphans[n]) then {orphans[n].id} else {}
    ensures orphans[n].id !in Done(orphans, n)
  {
  }

  /** The table side of linking one usable orphan. */
  lemma LinkKeepsTables(s: Store, p: Progress, r: ChildCase, ids: seq<string>, n: nat, now: int)
    requires Usable(r) && n < |ids| && Distinct(ids)
    requires IndexLive(p.store) && WellFormed(p.store) && Keeps(s.cases, p.store.cases)
    requires forall i :: n <= i < |ids| ==> FreshId(p.store, ids[i])
    ensures var s' := LookupOrCreate(p.store, r.tenantId, BackfillIntake(r.originalEvent.event), ids[n], now).0;
            && IndexLive(s') && WellFormed(s') && Keeps(s.cases, s'.cases) && Keeps(p.store.cases, s'.cases)
            && (forall i :: n + 1 <= i < |ids| ==> FreshId(s', ids[i]))
  {
    var intake := BackfillIntake(r.originalEvent.event);
    LookupKeepsSound(p.store, r.tenantId, intake, ids[n], now);
    forall i | n + 1 <= i < |ids|
      ensures FreshId(LookupOrCreate(p.store, r.tenantId, intake, ids[n], now).0, ids[i])
    {
      LookupKeepsFresh(p.store, r.tenantId, intake, ids[n], now, ids[i]);
    }
  }

  lemma KeepsLinksLive(links: map<string, string>, s: Store, s': Store, tenant: string)
    requires LinksLive(links, s, tenant) && Keeps(s.cases, s'.cases)
    ensures LinksLive(links, s', tenant)
  {
  }

  lemma StepKeepsSound(records: seq<ChildCase>, s: Store, tenant: string, ids: seq<string>, now: int, p: Progress,
                       n: nat)
    requires UniqueIds(records) && Distinct(ids)
    requires n < |ListOrphans(records, tenant)| <= |ids|
    requires Sound(records, s, tenant, ListOrphans(records, tenant), ids, p, n) && !p.aborted
    ensures Sound(records, s, tenant, ListOrphans(records, tenant), ids,
                  LinkOne(p, ListOrphans(records, tenant)[n], ids[n], now), n + 1)
  {
    var orphans := ListOrphans(records, tenant);
    FilterKeepsUnique(records, OrphanOf(tenant));
    DoneGrows(orphans, n);
    if Usable(orphans[n]) {
      UsableStepKeepsSound(records, s, tenant, orphans, ids, now, p, n);
    }
  }

  lemma UsableStepKeepsSound(records: seq<ChildCase>, s: Store, tenant: string, orphans: seq<ChildCase>,
                             ids: seq<string>,
                             now: int, p: Progress, n: nat)
    requires UniqueIds(records) && Distinct(ids) && orphans == ListOrphans(records, tenant)
    requires n < |orphans| <= |ids| && Usable(orphans[n])
    requires Done(orphans, n + 1) == Done(orphans, n) + {orphans[n].id} && orphans[n].id !in Done(orphans, n)
    requires Sound(records, s, tenant, orphans, ids, p, n) && !p.aborted
    ensures Sound(records, s, tenant, orphans, ids, LinkOne(p, orphans[n], ids[n], now), n + 1)
  {
    var r := orphans[n];
    var p' := LinkOne(p, r, ids[n], now);
    var k := OrphanPosition(records, tenant, n);
    LinkStep(records, p, k, ids[n], now);
    LinkKeepsTables(s, p, r, ids, n, now);
    KeepsLinksLive(p.report.links, p.store, p'.store, tenant);
    if !p'.aborted {
      LookupOutcome(p.store, tenant, BackfillIntake(r.originalEvent.event), ids[n], now);
    }
  }

  lemma StartSound(records: seq<ChildCase>, s: Store, tenant: string, orphans: seq<ChildCase>, ids: seq<string>)
    requires IndexLive(s) && WellFormed(s) && FreshIds(s, ids) && |orphans| <= |ids|
    ensures Sound(records, s, tenant, orphans, ids, Progress(records, s, NO_REPORT, false), 0)
  {
  }

  lemma AbortedSound(records: seq<ChildCase>, s: Store, tenant: string, orphans: seq<ChildCase>, ids: seq<string>,
                     p: Progress, n: nat)
    requires n < |orphans| <= |ids| && Sound(records, s, tenant, orphans, ids, p, n) && p.aborted
    ensures Sound(records, s, tenant, orphans, ids, p, n + 1)
  {
    assert Done(orphans, n) <= Done(orphans, n + 1);
  }

  lemma {:induction false} LoopSound(records: seq<ChildCase>, s: Store, tenant: string, ids: seq<string>, now: int,
                                     n: nat)
    requires UniqueIds(records) && IndexLive(s) && WellFormed(s) && FreshIds(s, ids)
    requires n <= |ListOrphans(records, tenant)| <= |ids|
    ensures Sound(records, s, tenant, ListOrphans(records, tenant), ids,
                  LinkFirst(records, s, ListOrphans(records, tenant), ids, now, n), n)
  {
    var orphans := ListOrphans(records, tenant);
    if n == 0 {
      StartSound(records, s, tenant, orphans, ids);
    } else {
      LoopSound(records, s, tenant, ids, now, n - 1);
      var p := LinkFirst(records, s, orphans, ids, now, n - 1);
      if p.aborted {
        AbortedSound(records, s, tenant, orphans, ids, p, n - 1);
      } else {
        StepKeepsSound(records, s, tenant, ids, now, p, n - 1);
      }
    }
  }

  // ----- what the pass achieves ---------------------------------------------

  /** Every record of the tenant that has a parent has a live one of that tenant. */
  ghost predicate ParentsLive(records: seq<ChildCase>, s: Store) {
    forall r :: r in records && r.parentCaseId.Some? ==>
      r.parentCaseId.value in s.cases && s.cases[r.parentCaseId.value].tenantId == r.tenantId
  }

  predicate ParentLive(r: ChildCase, s: Store) {
    r.parentCaseId.Some? && r.parentCaseId.value in s.cases && s.cases[r.parentCaseId.value].tenantId == r.tenantId
  }

  /** A record linked by the pass is under a live case of its tenant; any other keeps its parent. */
  lemma LinkedParents(records: seq<ChildCase>, s: Store, tenant: string, ids: seq<string>, now: int, i: nat)
    requires UniqueIds(records) && IndexLive(s) && WellFormed(s) && FreshIds(s, ids)
    requires |ListOrphans(records, tenant)| <= |ids| && i < |records|
    ensures var p := BackfillPass(records, s, tenant, ids, now); |p.records| == |records|
    ensures var p := BackfillPass(records, s, tenant, ids, now);
            && p.records[i].tenantId == records[i].tenantId && p.records[i].id == records[i].id
            && Keeps(s.cases, p.store.cases)
            && if records[i].id in p.report.links then ParentLive(p.records[i], p.store)
               else p.records[i].parentCaseId == records[i].parentCaseId
  {
    var orphans := ListOrphans(records, tenant);
    LoopSound(records, s, tenant, ids, now, |orphans|);
    var p := BackfillPass(records, s, tenant, ids, now);
    if records[i].id in p.report.links {
      var j :| 0 <= j < |orphans| && orphans[j].id == records[i].id;
      var k := OrphanPosition(records, tenant, j);
      assert k == i;
    }
  }

  /** Scanned records are each opened, attached or skipped; every record the pass linked is
      under a live case of its tenant; and existing links, cases and index entries stay
      sound. All of this also when the pass aborts half way. */
  lemma BackfillConserves(records: seq<ChildCase>, s: Store, tenant: string, ids: seq<string>, now: int)
    requires UniqueIds(records) && IndexLive(s) && WellFormed(s) && FreshIds(s, ids)
    requires |ListOrphans(records, tenant)| <= |ids|
    ensures var p := BackfillPass(records, s, tenant, ids, now);
            && IndexLive(p.store) && WellFormed(p.store)
            && (forall r :: r in p.records && r.id in p.report.links ==> ParentLive(r, p.store))
            && (ParentsLive(records, s) ==> ParentsLive(p.records, p.store))
            && Relinked(records, p.records, p.report.links)
            && (!p.aborted ==> p.report.scanned == |ListOrphans(records, tenant)|
                               && p.report.scanned == p.report.linkedNew + p.report.attached + p.report.skipped)
  {
    LoopSound(records, s, tenant, ids, now, |ListOrphans(records, tenant)|);
    var p := BackfillPass(records, s, tenant, ids, now);
    forall r | r in p.records
      ensures r.id in p.report.links ==> ParentLive(r, p.store)
      ensures ParentsLive(records, s) && r.parentCaseId.Some? ==> ParentLive(r, p.store)
    {
      var i :| 0 <= i < |p.records| && p.records[i] == r;
      LinkedParents(records, s, tenant, ids, now, i);
      assert records[i] in records;
    }
  }

  lemma OneEntryMore<K, V>(m: map<K, V>, k: K, v: V)
    requires k !in m
    ensures |m[k := v]| == |m| + 1
  {
    assert m[k := v].Keys == m.Keys + {k};
  }

  /** A lookup without a supergroup gains the store one case if it opens one, and none if not. */
  lemma LookupCounts(s: Store, tenant: string, r: Intake, newId: string, now: int)
    requires IndexLive(s) && FreshId(s, newId) && r.supergroup == None
    ensures var (s', res) := LookupOrCreate(s, tenant, r, newId, now);
            && (res.Err? ==> s'.cases == s.cases)
            && (res.Ok? && !res.value.1 ==> s'.cases == s.cases && res.value.0 in s.cases)
            && (res.Ok? && res.value.1 ==>
                  res.value.0 == newId && newId in s'.cases && |s'.cases| == |s.cases| + 1)
  {
    FindIsFirstHit(s, tenant, r.keys);
    CommitEffect(s, tenant, r, Find(s, tenant, r.keys), newId, now);
    TextualIsKeyable(r.keys);
    OneEntryMore(s.cases, newId, NewCase(tenant, r, newId, now));
  }

  /** What one orphan does to the counters: it is scanned; skipped iff its event is unusable;
      linked to the fresh id, which becomes a case, iff `linkedNew` grows; linked to a case the
      store already had iff `attached` grows; and neither if it aborts the pass. */
  lemma LinkOneCounts(p: Progress, r: ChildCase, newId: string, now: int)
    requires IndexLive(p.store) && FreshId(p.store, newId) && !p.aborted && r.id !in p.report.links
    ensures var p' := LinkOne(p, r, newId, now); var had, has := p.report, p'.report;
            && has.scanned == had.scanned + 1
            && has.skipped == had.skipped + (if r.originalEvent.Event? then 0 else 1)
            && (newId in p'.store.cases <==> has.linkedNew == had.linkedNew + 1)
            && (newId !in p'.store.cases <==> has.linkedNew == had.linkedNew)
            && (newId in p'.store.cases ==> r.id in has.links && has.links[r.id] == newId)
            && (has.attached == had.attached + 1 <==> r.id in has.links && has.links[r.id] in p.store.cases)
            && (has.attached == had.attached || has.attached == had.attached + 1)
            && |p'.store.cases| - |p.store.cases| == has.linkedNew - had.linkedNew
            && |has.links| - |had.links| == (has.linkedNew - had.linkedNew) + (has.attached - had.attached)
            && (p'.aborted ==> has == had.(scanned := had.scanned + 1))
  {
    if r.originalEvent.Event? {
      var intake := BackfillIntake(r.originalEvent.event);
      var (s', res) := LookupOrCreate(p.store, r.tenantId, intake, newId, now);
      LookupCounts(p.store, r.tenantId, intake, newId, now);
      LinkOneSteps(p, r, newId, now, s', res);
      if res.Ok? {
        OneEntryMore(p.report.links, r.id, res.value.0);
      }
    }
  }

  /** A usable orphan, by the outcome of its lookup. */
  lemma LinkOneSteps(p: Progress, r: ChildCase, newId: string, now: int, s': Store,
                     res: Result<(string, bool), Error>)
    requires r.originalEvent.Event?
    requires (s', res) == LookupOrCreate(p.store, r.tenantId, BackfillIntake(r.originalEvent.event), newId, now)
    ensures var p' := LinkOne(p, r, newId, now); var seen := p.report.(scanned := p.report.scanned + 1);
            && p'.store.cases == s'.cases
            && match res
               case Err(_) => p' == p.(store := s', report := seen, aborted := true)
               case Ok((id, opened')) =>
                 !p'.aborted
                 && p'.report == seen.(links := seen.links[r.id := id],
                                       linkedNew := seen.linkedNew + (if opened' then 1 else 0),
                                       attached := seen.attached + (if opened' then 0 else 1))
  {
  }

  /** The counters agree with what the loop has done: cases gained, records linked, and the
      unusable ones among the `n` it has got to. */
  ghost predicate Tallied(s: Store, orphans: seq<ChildCase>, p: Progress, n: nat)
    requires n <= |orphans|
  {
    && |p.store.cases| == |s.cases| + p.report.linkedNew
    && |p.report.links| == p.report.linkedNew + p.report.attached
    && (!p.aborted ==> p.report.skipped == |Filter(orphans[..n], UnusableRecord())|)
  }

  function UnusableRecord(): ChildCase -> bool {
    (r: ChildCase) => !r.originalEvent.Event?
  }

  lemma SkippedNext(orphans: seq<ChildCase>, n: nat)
    requires n < |orphans|
    ensures |Filter(orphans[..n + 1], UnusableRecord())| ==
              |Filter(orphans[..n], UnusableRecord())| + if orphans[n].originalEvent.Event? then 0 else 1
  {
    assert orphans[..n + 1][..n] == orphans[..n];
  }

  /** While the loop goes on, the next id is unused and the next orphan not yet linked. */
  lemma NextIsFresh(records: seq<ChildCase>, s: Store, tenant: string, ids: seq<string>, now: int, n: nat)
    requires UniqueIds(records) && IndexLive(s) && WellFormed(s) && FreshIds(s, ids)
    requires n < |ListOrphans(records, tenant)| <= |ids|
    ensures var orphans := ListOrphans(records, tenant); var p := LinkFirst(records, s, orphans, ids, now, n);
            p.aborted || (IndexLive(p.store) && FreshId(p.store, ids[n]) && orphans[n].id !in p.report.links)
  {
    LoopSound(records, s, tenant, ids, now, n);
    FilterKeepsUnique(records, OrphanOf(tenant));
    DoneGrows(ListOrphans(records, tenant), n);
  }

  lemma TallyOne(s: Store, orphans: seq<ChildCase>, p: Progress, n: nat, newId: string, now: int)
    requires n < |orphans| && Tallied(s, orphans, p, n)
    requires p.aborted || (IndexLive(p.store) && FreshId(p.store, newId) && orphans[n].id !in p.report.links)
    ensures Tallied(s, orphans, if p.aborted then p else LinkOne(p, orphans[n], newId, now), n + 1)
  {
    if !p.aborted {
      LinkOneCounts(p, orphans[n], newId, now);
      SkippedNext(orphans, n);
    }
  }

  lemma TallyNext(records: seq<ChildCase>, s: Store, tenant: string, ids: seq<string>, now: int, n: nat, p: Progress)
    requires UniqueIds(records) && IndexLive(s) && WellFormed(s) && FreshIds(s, ids)
    requires n < |ListOrphans(records, tenant)| <= |ids|
    requires p == LinkFirst(records, s, ListOrphans(records, tenant), ids, now, n)
    requires Tallied(s, ListOrphans(records, tenant), p, n)
    ensures Tallied(s, ListOrphans(records, tenant),
                    if p.aborted then p else LinkOne(p, ListOrphans(records, tenant)[n], ids[n], now), n + 1)
  {
    NextIsFresh(records, s, tenant, ids, now, n);
    TallyOne(s, ListOrphans(records, tenant), p, n, ids[n], now);
  }

  ghost predicate TalliedAt(records: seq<ChildCase>, s: Store, orphans: seq<ChildCase>, ids: seq<string>, now: int,
                            n: nat)
  {
    n <= |orphans| <= |ids| && Tallied(s, orphans, LinkFirst(records, s, orphans, ids, now, n), n)
  }

  lemma TallyTurn(records: seq<ChildCase>, s: Store, tenant: string, ids: seq<string>, now: int, n: nat)
    requires UniqueIds(records) && IndexLive(s) && WellFormed(s) && FreshIds(s, ids)
    requires n < |ListOrphans(records, tenant)| && TalliedAt(records, s, ListOrphans(records, tenant), ids, now, n)
    ensures TalliedAt(records, s, ListOrphans(records, tenant), ids, now, n + 1)
  {
    TallyNext(records, s, tenant, ids, now, n, LinkFirst(records, s, ListOrphans(records, tenant), ids, now, n));
  }

  lemma {:induction false} LoopTallies(records: seq<ChildCase>, s: Store, tenant: string, ids: seq<string>, now: int,
                                       n: nat, end: nat)
    requires UniqueIds(records) && IndexLive(s) && WellFormed(s) && FreshIds(s, ids)
    requires n <= end <= |ListOrphans(records, tenant)|
    requires TalliedAt(records, s, ListOrphans(records, tenant), ids, now, n)
    ensures TalliedAt(records, s, ListOrphans(records, tenant), ids, now, end)
    decreases end - n
  {
    if n < end {
      TallyTurn(records, s, tenant, ids, now, n);
      LoopTallies(records, s, tenant, ids, now, n + 1, end);
    }
  }

  /** At the end of a pass, aborted or not, `linkedNew` is the number of cases the store has
      gained, and every other linked record was attached; a pass that runs to the end has
      skipped exactly the orphans without a usable event. */
  lemma CountersAreEffects(records: seq<ChildCase>, s: Store, tenant: string, ids: seq<string>, now: int)
    requires UniqueIds(records) && IndexLive(s) && WellFormed(s) && FreshIds(s, ids)
    requires |ListOrphans(records, tenant)| <= |ids|
    ensures var p := BackfillPass(records, s, tenant, ids, now); var orphans := ListOrphans(records, tenant);
            && p.report.linkedNew == |p.store.cases| - |s.cases|
            && p.report.linkedNew + p.report.attached == |p.report.links|
            && (!p.aborted ==> p.report.scanned == |orphans|
                               && p.report.skipped == |Filter(orphans, UnusableRecord())|)
  {
    var orphans := ListOrphans(records, tenant);
    LoopTallies(records, s, tenant, ids, now, 0, |orphans|);
    LoopSound(records, s, tenant, ids, now, |orphans|);
    assert orphans[..|orphans|] == orphans;
  }

  function UnusableOrphan(tenant: string): ChildCase -> bool {
    (r: ChildCase) => OrphanOf(tenant)(r) && !Usable(r)
  }

  /** A pass that runs to the end leaves exactly the orphans with no usable event. */
  lemma BackfillLeavesUnusable(records: seq<ChildCase>, s: Store, tenant: string, ids: seq<string>, now: int, i: nat)
    requires UniqueIds(records) && IndexLive(s) && WellFormed(s) && FreshIds(s, ids)
    requires |ListOrphans(records, tenant)| <= |ids| && i < |records|
    requires !BackfillPass(records, s, tenant, ids, now).aborted
    ensures var p := BackfillPass(records, s, tenant, ids, now); |p.records| == |records|
    ensures var p := BackfillPass(records, s, tenant, ids, now);
            && (OrphanOf(tenant)(p.records[i]) <==> UnusableOrphan(tenant)(records[i]))
            && (records[i].id in p.report.links <==> OrphanOf(tenant)(records[i]) && Usable(records[i]))
            && (records[i].id !in p.report.links ==> p.records[i].(updatedAt := records[i].updatedAt) == records[i])
  {
    LoopSound(records, s, tenant, ids, now, |ListOrphans(records, tenant)|);
    DoneIff(records, tenant, i);
  }

  lemma DoneIff(records: seq<ChildCase>, tenant: string, i: nat)
    requires UniqueIds(records) && i < |records|
    ensures var orphans := ListOrphans(records, tenant);
            records[i].id in Done(orphans, |orphans|) <==> OrphanOf(tenant)(records[i]) && Usable(records[i])
  {
    var orphans := ListOrphans(records, tenant);
    FilterMember(records, OrphanOf(tenant), records[i]);
    if records[i].id in Done(orphans, |orphans|) {
      var j :| 0 <= j < |orphans| && Usable(orphans[j]) && orphans[j].id == records[i].id;
      var k := OrphanPosition(records, tenant, j);
      assert k == i;
    }
  }

  /** A pass over records none of which is usable skips them all and changes nothing. */
  lemma {:induction false} NothingToLink(records: seq<ChildCase>, s: Store, orphans: seq<ChildCase>, ids: seq<string>,
                                         now: int, n: nat)
    requires n <= |orphans| <= |ids| && forall i :: 0 <= i < |orphans| ==> !Usable(orphans[i])
    ensures LinkFirst(records, s, orphans, ids, now, n) == Progress(records, s, Report(n, 0, 0, n, map[]), false)
  {
    if n > 0 {
      NothingToLink(records, s, orphans, ids, now, n - 1);
    }
  }

  /** A second run scans the skipped records again, opens and links nothing. */
  lemma BackfillIdempotent(records: seq<ChildCase>, s: Store, tenant: string, ids: seq<string>, now: int,
                           ids': seq<string>, now': int)
    requires UniqueIds(records) && IndexLive(s) && WellFormed(s) && FreshIds(s, ids)
    requires |ListOrphans(records, tenant)| <= |ids|
    requires var p := BackfillPass(records, s, tenant, ids, now);
             !p.aborted && |ListOrphans(p.records, tenant)| <= |ids'|
    ensures var p := BackfillPass(records, s, tenant, ids, now);
            var n := |ListOrphans(p.records, tenant)|;
            BackfillPass(p.records, p.store, tenant, ids', now') ==
                Progress(p.records, p.store, Report(n, 0, 0, n, map[]), false)
  {
    var p := BackfillPass(records, s, tenant, ids, now);
    var orphans := ListOrphans(p.records, tenant);
    forall j | 0 <= j < |orphans| ensures !Usable(orphans[j]) {
      var k := OrphanPosition(p.records, tenant, j);
      LoopSound(records, s, tenant, ids, now, |ListOrphans(records, tenant)|);
      BackfillLeavesUnusable(records, s, tenant, ids, now, k);
    }
    NothingToLink(p.records, p.store, orphans, ids', now', |orphans|);
  }

  // ----- when a pass aborts -------------------------------------------------

  /** The keys that looking up the record's event registers. */
  function KeysAt(r: ChildCase): set<Key> {
    if Usable(r) then set k | k in Supplied(r.tenantId, KeysOf(r.originalEvent.event)) else {}
  }

  /** The keys known once the first n orphans have been looked up. */
  function KnownKeys(before: set<Key>, orphans: seq<ChildCase>, n: nat): set<Key>
    requires n <= |orphans|
  {
    if n == 0 then before else KnownKeys(before, orphans, n - 1) + KeysAt(orphans[n - 1])
  }

  /** A case cannot be opened from the event: its origin is unknown, or a key is no string. */
  predicate Refused(r: ChildCase) {
    Usable(r) && !ValidIntake(BackfillIntake(r.originalEvent.event))
  }

  /** The event carries a list or object as a key. */
  predicate Unlookable(r: ChildCase) {
    Usable(r) && Unkeyable(KeysOf(r.originalEvent.event))
  }

  /** The event has a key that cannot be looked up; or no case can be opened from it and
      none of its keys is known, neither beforehand nor from an earlier orphan. */
  predicate Unopenable(before: set<Key>, orphans: seq<ChildCase>, i: nat)
    requires i < |orphans|
  {
    Unlookable(orphans[i]) || (Refused(orphans[i]) && KeysAt(orphans[i]) !! KnownKeys(before, orphans, i))
  }

  predicate SomeUnopenable(before: set<Key>, orphans: seq<ChildCase>, n: nat)
    requires n <= |orphans|
  {
    exists i :: 0 <= i < n && Unopenable(before, orphans, i)
  }

  /** One orphan aborts the loop exactly when its event cannot be looked up, or is refused and finds no case;
      otherwise the index gains exactly its keys. */
  lemma LinkOneKeys(p: Progress, r: ChildCase, newId: string, now: int)
    requires IndexLive(p.store) && !p.aborted
    ensures var p' := LinkOne(p, r, newId, now);
            && (p'.aborted <==> Unlookable(r) || (Refused(r) && KeysAt(r) !! p.store.index.Keys))
            && (!p'.aborted ==> p'.store.index.Keys == p.store.index.Keys + KeysAt(r))
  {
    if Usable(r) {
      var intake := BackfillIntake(r.originalEvent.event);
      var (s', res) := LookupOrCreate(p.store, r.tenantId, intake, newId, now);
      FindIsFirstHit(p.store, r.tenantId, intake.keys);
      FirstHitSound(p.store.index, Supplied(r.tenantId, intake.keys));
      CommitEffect(p.store, r.tenantId, intake, Find(p.store, r.tenantId, intake.keys), newId, now);
      TextualIsKeyable(intake.keys);
      if res.Ok? {
        var patch := NO_CHANGE.(parentCaseId := Some(Some(res.value.0)));
        ChildUpdateTouchesOneHistory(p.records, s', r.id, r.tenantId, patch, Attribution(None, None, None), now, "");
      }
    }
  }

  lemma SomeUnopenableNext(before: set<Key>, orphans: seq<ChildCase>, n: nat)
    requires n < |orphans|
    ensures SomeUnopenable(before, orphans, n + 1) <==>
              SomeUnopenable(before, orphans, n) || Unopenable(before, orphans, n)
  {
  }

  lemma {:induction false} LoopAbortsIff(records: seq<ChildCase>, s: Store, tenant: string, ids: seq<string>, now: int,
                                         n: nat)
    requires UniqueIds(records) && IndexLive(s) && WellFormed(s) && FreshIds(s, ids)
    requires n <= |ListOrphans(records, tenant)| <= |ids|
    ensures var orphans := ListOrphans(records, tenant); var p := LinkFirst(records, s, orphans, ids, now, n);
            && (p.aborted <==> SomeUnopenable(s.index.Keys, orphans, n))
            && (!p.aborted ==> p.store.index.Keys == KnownKeys(s.index.Keys, orphans, n))
  {
    if n > 0 {
      var orphans := ListOrphans(records, tenant);
      var p := LinkFirst(records, s, orphans, ids, now, n - 1);
      LoopAbortsIff(records, s, tenant, ids, now, n - 1);
      SomeUnopenableNext(s.index.Keys, orphans, n - 1);
      if !p.aborted {
        LoopSound(records, s, tenant, ids, now, n - 1);
        LinkOneKeys(p, orphans[n - 1], ids[n - 1], now);
      }
    }
  }

  /** A pass aborts if and only if some orphan's event is unopenable, which
      can be told from the orphans and the index before the pass starts. */
  lemma AbortsIff(records: seq<ChildCase>, s: Store, tenant: string, ids: seq<string>, now: int)
    requires UniqueIds(records) && IndexLive(s) && WellFormed(s) && FreshIds(s, ids)
    requires |ListOrphans(records, tenant)| <= |ids|
    ensures BackfillPass(records, s, tenant, ids, now).aborted <==>
            exists i :: 0 <= i < |ListOrphans(records, tenant)|
              && Unopenable(s.index.Keys, ListOrphans(records, tenant), i)
  {
    LoopAbortsIff(records, s, tenant, ids, now, |ListOrphans(records, tenant)|);
  }

  lemma OneOrphan(r: ChildCase, s: Store, tenant: string, newId: string, now: int)
    requires r.tenantId == tenant && r.parentCaseId == None
    ensures ListOrphans([r], tenant) == [r]
    ensures BackfillPass([r], s, tenant, [newId], now) ==
              LinkOne(Progress([r], s, NO_REPORT, false), r, newId, now)
  {
    FilterAll([r], OrphanOf(tenant));
    assert LinkFirst([r], s, [r], [newId], now, 0) == Progress([r], s, NO_REPORT, false);
  }

  lemma UnknownOriginRefused(e: OrderEvent, tenant: string, newId: string, now: int)
    requires e == OrderEvent("PO1", "EDI_ORDER", None, Some("PORTAL"), Some("portal"), NoValue, NoValue, NoValue,
                             NoValue)
    ensures LookupOrCreate(EMPTY, tenant, BackfillIntake(e), newId, now) == (EMPTY, Err(InvalidCase))
  {
    PoOnly(tenant, "PO1");
  }

  /** One orphan whose event claims an unknown origin: the pass raises and links nothing. */
  lemma UnknownOriginAborts(id: string, tenant: string, newId: string, now: int)
    requires id != ""
    ensures var e := OrderEvent("PO1", "EDI_ORDER", None, Some("PORTAL"), Some("portal"), NoValue, NoValue, NoValue,
                                NoValue);
            var r := NewRecord(Draft(tenant, None, None, None, None, None, Event(e)), id, now);
            && ListOrphans([r], tenant) == [r]
            && BackfillPass([r], EMPTY, tenant, [newId], now) == Progress([r], EMPTY, NO_REPORT.(scanned := 1), true)
  {
    var e := OrderEvent("PO1", "EDI_ORDER", None, Some("PORTAL"), Some("portal"), NoValue, NoValue, NoValue, NoValue);
    var r := NewRecord(Draft(tenant, None, None, None, None, None, Event(e)), id, now);
    OneOrphan(r, EMPTY, tenant, newId, now);
    UnknownOriginRefused(e, tenant, newId, now);
  }

  /** One orphan from an accepted source whose sales order is a number: the pass raises too. */
  lemma NumberKeyAborts(id: string, tenant: string, newId: string, now: int)
    requires id != ""
    ensures var e := OrderEvent("PO1", "EDI_ORDER", None, None, None, NoValue, Num(4500012345), NoValue, NoValue);
            var r := NewRecord(Draft(tenant, None, None, None, None, None, Event(e)), id, now);
            && ValidOrigin(OriginAndChannel(e).0) && ListOrphans([r], tenant) == [r]
            && BackfillPass([r], EMPTY, tenant, [newId], now).aborted
  {
    var e := OrderEvent("PO1", "EDI_ORDER", None, None, None, NoValue, Num(4500012345), NoValue, NoValue);
    var r := NewRecord(Draft(tenant, None, None, None, None, None, Event(e)), id, now);
    FilterAll([r], OrphanOf(tenant));
    assert KnownKeys(EMPTY.index.Keys, [r], 0) == {};
    assert UniqueIds([r]) && FreshIds(EMPTY, [newId]);
    assert Unopenable(EMPTY.index.Keys, [r], 0);
    AbortsIff([r], EMPTY, tenant, [newId], now);
  }

  // ----- records of one purchase order --------------------------------------

  /** Without a sales order, the PO is looked up first. */
  lemma PoComesFirst(tenant: string, keys: Keys, k: Key)
    requires !Given(keys.salesOrder) && k in Supplied(tenant, keys) && k.kind == CUSTOMER_PO
    ensures k == Key(tenant, CUSTOMER_PO, keys.customerPo) == Supplied(tenant, keys)[0]
  {
    var ks := AllGiven(tenant, keys);
    HashedAll(ks);
    assert ks == One(tenant, CUSTOMER_PO, keys.customerPo) + One(tenant, EDI_TXN, keys.edi)
                 + One(tenant, SOURCE_EMAIL, keys.email);
    assert k in One(tenant, CUSTOMER_PO, keys.customerPo);
  }

  /** A PO key that exists is never moved by an event without a sales order, also when the
      lookup raises. */
  lemma KeepsPoKey(s: Store, tenant: string, r: Intake, newId: string, now: int, k: Key)
    requires IndexLive(s) && FreshId(s, newId) && !Given(r.keys.salesOrder) && k.kind == CUSTOMER_PO && k in s.index
    ensures var s' := LookupOrCreate(s, tenant, r, newId, now).0; k in s'.index && s'.index[k] == s.index[k]
  {
    var ks := Supplied(tenant, r.keys);
    FindIsFirstHit(s, tenant, r.keys);
    FirstHitSound(s.index, ks);
    CommitEffect(s, tenant, r, Find(s, tenant, r.keys), newId, now);
    if k in ks {
      PoComesFirst(tenant, r.keys, k);
    }
  }

  /** Without a sales order, a lookup follows the PO key. */
  lemma PoDecides(s: Store, tenant: string, r: Intake, newId: string, now: int)
    requires IndexLive(s) && FreshId(s, newId) && !Given(r.keys.salesOrder) && Given(r.keys.customerPo)
    requires LookupOrCreate(s, tenant, r, newId, now).1.Ok?
    ensures var (s', res) := LookupOrCreate(s, tenant, r, newId, now);
            var own := Key(tenant, CUSTOMER_PO, r.keys.customerPo);
            && own in s'.index && s'.index[own] == res.value.0
            && (own in s.index ==> res.value.0 == s.index[own])
  {
    var own := Key(tenant, CUSTOMER_PO, r.keys.customerPo);
    LookupOutcome(s, tenant, r, newId, now);
    TextualIsKeyable(r.keys);
    SuppliedIsAllGiven(tenant, r.keys);
    PoAmongSupplied(tenant, r);
    PoComesFirst(tenant, r.keys, own);
    FindIsFirstHit(s, tenant, r.keys);
  }

  /** A sales order that already names a case wins over the PO, and takes the PO key with
      it, even if a later key then makes the call raise. */
  lemma SalesOrderWins(s: Store, tenant: string, r: Intake, newId: string, now: int)
    requires IndexLive(s) && Given(r.keys.salesOrder) && Given(r.keys.customerPo)
    requires Hashable(r.keys.salesOrder) && Hashable(r.keys.customerPo)
    requires Key(tenant, SALES_ORDER, r.keys.salesOrder) in s.index
    ensures var (s', res) := LookupOrCreate(s, tenant, r, newId, now);
            var named := s.index[Key(tenant, SALES_ORDER, r.keys.salesOrder)];
            && res == (if Unkeyable(r.keys) then Err(Unhashable) else Ok((named, false)))
            && Key(tenant, CUSTOMER_PO, r.keys.customerPo) in s'.index
            && s'.index[Key(tenant, CUSTOMER_PO, r.keys.customerPo)] == named
  {
    var so, po := Key(tenant, SALES_ORDER, r.keys.salesOrder), Key(tenant, CUSTOMER_PO, r.keys.customerPo);
    var ks := AllGiven(tenant, r.keys);
    assert ks[0] == so && ks[1..][0] == po;
    assert Hashed(ks[1..])[0] == po;
    assert Supplied(tenant, r.keys)[0] == so && Supplied(tenant, r.keys)[1] == po;
    assert po in Supplied(tenant, r.keys);
    CommitEffect(s, tenant, r, Find(s, tenant, r.keys), newId, now);
    FindIsFirstHit(s, tenant, r.keys);
  }

  function PoOf(r: ChildCase): Json {
    if Usable(r) then BackfillIntake(r.originalEvent.event).keys.customerPo else NoValue
  }

  ghost predicate NoSalesOrders(orphans: seq<ChildCase>) {
    forall i :: 0 <= i < |orphans| && Usable(orphans[i]) ==>
      !Given(BackfillIntake(orphans[i].originalEvent.event).keys.salesOrder)
  }

  /** The record is linked to the case that its PO's key names. */
  predicate PoLeads(s: Store, links: map<string, string>, tenant: string, r: ChildCase)
    requires r.id in links
  {
    var k := Key(tenant, CUSTOMER_PO, PoOf(r));
    k in s.index && s.index[k] == links[r.id]
  }

  /** So far, every linked record with a PO sits where that PO's key points. */
  ghost predicate FollowsPo(p: Progress, tenant: string, orphans: seq<ChildCase>, n: nat)
    requires n <= |orphans|
  {
    forall i :: 0 <= i < n && Given(PoOf(orphans[i])) && orphans[i].id in p.report.links ==>
      PoLeads(p.store, p.report.links, tenant, orphans[i])
  }

  /** The state in which the loop meets its n-th orphan. */
  ghost predicate Ready(records: seq<ChildCase>, tenant: string, ids: seq<string>, p: Progress, n: nat)
    requires n < |ListOrphans(records, tenant)| <= |ids|
  {
    && IndexLive(p.store) && WellFormed(p.store) && (!p.aborted ==> FreshId(p.store, ids[n]))
    && Relinked(records, p.records, p.report.links)
    && ListOrphans(records, tenant)[n].id !in p.report.links
  }

  lemma LoopReady(records: seq<ChildCase>, s: Store, tenant: string, ids: seq<string>, now: int, n: nat)
    requires UniqueIds(records) && IndexLive(s) && WellFormed(s) && FreshIds(s, ids)
    requires n < |ListOrphans(records, tenant)| <= |ids|
    ensures Ready(records, tenant, ids, LinkFirst(records, s, ListOrphans(records, tenant), ids, now, n), n)
  {
    LoopSound(records, s, tenant, ids, now, n);
    FilterKeepsUnique(records, OrphanOf(tenant));
    DoneGrows(ListOrphans(records, tenant), n);
  }

  lemma {:induction false} LoopFollowsPo(records: seq<ChildCase>, s: Store, tenant: string, ids: seq<string>, now: int,
                                         n: nat)
    requires UniqueIds(records) && IndexLive(s) && WellFormed(s) && FreshIds(s, ids)
    requires n <= |ListOrphans(records, tenant)| <= |ids| && NoSalesOrders(ListOrphans(records, tenant))
    ensures FollowsPo(LinkFirst(records, s, ListOrphans(records, tenant), ids, now, n), tenant,
                      ListOrphans(records, tenant), n)
  {
    if n > 0 {
      LoopFollowsPo(records, s, tenant, ids, now, n - 1);
      LoopReady(records, s, tenant, ids, now, n - 1);
      NextFollowsPo(records, tenant, ids, now, LinkFirst(records, s, ListOrphans(records, tenant), ids, now, n - 1),
                    n - 1);
    }
  }

  lemma NextFollowsPo(records: seq<ChildCase>, tenant: string, ids: seq<string>, now: int, p: Progress, n: nat)
    requires UniqueIds(records) && n < |ListOrphans(records, tenant)| <= |ids|
             && NoSalesOrders(ListOrphans(records, tenant))
    requires Ready(records, tenant, ids, p, n) && FollowsPo(p, tenant, ListOrphans(records, tenant), n)
    ensures FollowsPo(if p.aborted then p else LinkOne(p, ListOrphans(records, tenant)[n], ids[n], now),
                      tenant, ListOrphans(records, tenant), n + 1)
  {
    var orphans := ListOrphans(records, tenant);
    if !p.aborted && Usable(orphans[n]) {
      FilterKeepsUnique(records, OrphanOf(tenant));
      StepFollowsPo(records, tenant, ids, now, p, n);
    } else {
      SkipFollowsPo(p, if p.aborted then p else LinkOne(p, orphans[n], ids[n], now), tenant, orphans, n);
    }
  }

  lemma SkipFollowsPo(p: Progress, p': Progress, tenant: string, orphans: seq<ChildCase>, n: nat)
    requires n < |orphans| && FollowsPo(p, tenant, orphans, n)
    requires p'.store.index == p.store.index && p'.report.links == p.report.links
    requires orphans[n].id !in p.report.links
    ensures FollowsPo(p', tenant, orphans, n + 1)
  {
  }

  lemma StepFollowsPo(records: seq<ChildCase>, tenant: string, ids: seq<string>, now: int, p: Progress, n: nat)
    requires UniqueIds(records) && n < |ListOrphans(records, tenant)| <= |ids|
             && NoSalesOrders(ListOrphans(records, tenant))
    requires IndexLive(p.store) && WellFormed(p.store) && FreshId(p.store, ids[n])
    requires Relinked(records, p.records, p.report.links) && FollowsPo(p, tenant, ListOrphans(records, tenant), n)
    requires Usable(ListOrphans(records, tenant)[n])
    requires ListOrphans(records, tenant)[n].id !in p.report.links
    requires UniqueIds(ListOrphans(records, tenant))
    ensures FollowsPo(LinkOne(p, ListOrphans(records, tenant)[n], ids[n], now), tenant, ListOrphans(records, tenant),
                      n + 1)
  {
    var orphans := ListOrphans(records, tenant);
    var r := orphans[n];
    var intake := BackfillIntake(r.originalEvent.event);
    var p' := LinkOne(p, r, ids[n], now);
    var k := OrphanPosition(records, tenant, n);
    LinkStep(records, p, k, ids[n], now);
    forall i | 0 <= i < n && Given(PoOf(orphans[i])) && orphans[i].id in p'.report.links
      ensures PoLeads(p'.store, p'.report.links, tenant, orphans[i])
    {
      assert orphans[i].id != r.id && PoLeads(p.store, p.report.links, tenant, orphans[i]);
      KeepsPoKey(p.store, tenant, intake, ids[n], now, Key(tenant, CUSTOMER_PO, PoOf(orphans[i])));
    }
    if Given(PoOf(r)) && r.id in p'.report.links {
      PoDecides(p.store, tenant, intake, ids[n], now);
      assert PoLeads(p'.store, p'.report.links, tenant, r);
    }
  }

  /** If no scanned event carries a sales order, records of one PO end on one case. */
  lemma SamePoSameCase(records: seq<ChildCase>, s: Store, tenant: string, ids: seq<string>, now: int, i: nat, j: nat)
    requires UniqueIds(records) && IndexLive(s) && WellFormed(s) && FreshIds(s, ids)
    requires |ListOrphans(records, tenant)| <= |ids| && NoSalesOrders(ListOrphans(records, tenant))
    requires i < |ListOrphans(records, tenant)| && j < |ListOrphans(records, tenant)|
    requires Given(PoOf(ListOrphans(records, tenant)[i]))
    requires PoOf(ListOrphans(records, tenant)[i]) == PoOf(ListOrphans(records, tenant)[j])
    ensures var p := BackfillPass(records, s, tenant, ids, now);
            var a, b := ListOrphans(records, tenant)[i].id, ListOrphans(records, tenant)[j].id;
            && (a in p.report.links && b in p.report.links ==> p.report.links[a] == p.report.links[b])
            && (!p.aborted ==> a in p.report.links && b in p.report.links)
  {
    var orphans := ListOrphans(records, tenant);
    LoopFollowsPo(records, s, tenant, ids, now, |orphans|);
    LoopSound(records, s, tenant, ids, now, |orphans|);
    assert orphans[i].id in Done(orphans, |orphans|) && orphans[j].id in Done(orphans, |orphans|);
  }
}
