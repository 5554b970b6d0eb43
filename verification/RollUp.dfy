/** The case-status roll-up (api/case_resolver.py): a case sits at the status of its
    least-settled child. */
module RollUp {
  import opened Wrappers
  import opened Sequences
  import opened Model
  import opened Records
  import opened Cases
  import opened Children

  /** _CASE_STATUS_RANK; the projection below yields only the four ranked statuses. */
  function Rank(s: CaseStatus): nat {
    match s
    case OPEN_AWAITING_HUMAN => 3
    case BLOCKED => 2
    case FAILED => 1
    case _ => 0
  }

  /** _case_status_from_lifecycle. */
  function Project(l: Lifecycle): CaseStatus {
    match l
    case RESOLVED_RECORD => RESOLVED
    case CLOSED => RESOLVED
    case REJECTED_RECORD => RESOLVED
    case BLOCKED_RECORD => BLOCKED
    case FAILED_RECORD => FAILED
    case _ => OPEN_AWAITING_HUMAN
  }

  /** `incoming` is None for "no incoming record", Some(f) for a record about to be
      persisted with final status `f` (which may itself be absent). */
  function Candidates(children: seq<ChildCase>, incoming: Option<Option<FinalStatus>>): seq<CaseStatus> {
    seq(|children|, i requires 0 <= i < |children| => Project(children[i].lifecycle))
    + (if incoming.Some? then [Project(LifecycleOf(incoming.value))] else [])
  }

  /** max(candidates, key=rank). */
  function Worst(cs: seq<CaseStatus>): CaseStatus
    requires cs != []
  {
    if |cs| == 1 then cs[0]
    else
      var front := Worst(cs[..|cs| - 1]);
      if Rank(front) < Rank(cs[|cs| - 1]) then cs[|cs| - 1] else front
  }

  /** _aggregate_case_status. */
  function Aggregate(records: seq<ChildCase>, tenant: string, id: string,
                     incoming: Option<Option<FinalStatus>>): Option<CaseStatus>
  {
    var cs := Candidates(ListByCase(records, tenant, id), incoming);
    if cs == [] then None else Some(Worst(cs))
  }

  lemma {:induction false} WorstIsMax(cs: seq<CaseStatus>)
    requires cs != []
    ensures Worst(cs) in cs && forall c :: c in cs ==> Rank(c) <= Rank(Worst(cs))
  {
    if |cs| > 1 {
      WorstIsMax(cs[..|cs| - 1]);
      assert cs == cs[..|cs| - 1] + [cs[|cs| - 1]];
    }
  }

  lemma WorstChild(children: seq<ChildCase>, st: CaseStatus)
    requires children != []
    ensures Worst(Candidates(children, None)) == st <==>
            && (exists r :: r in children && Project(r.lifecycle) == st)
            && (forall r :: r in children ==> Rank(Project(r.lifecycle)) <= Rank(st))
  {
    var cs := Candidates(children, None);
    WorstIsMax(cs);
    CandidatesAreProjected(children);
    assert forall r :: r in children ==> Rank(Project(r.lifecycle)) <= Rank(Worst(cs));
    var w :| w in children && Project(w.lifecycle) == Worst(cs);
    if r :| r in children && Project(r.lifecycle) == st && Rank(Worst(cs)) <= Rank(st) {
      RankTellsApart(r.lifecycle, w.lifecycle);
    }
  }

  lemma CandidatesAreProjected(children: seq<ChildCase>)
    ensures forall r :: r in children ==> Project(r.lifecycle) in Candidates(children, None)
    ensures forall c :: c in Candidates(children, None) ==> exists r :: r in children && Project(r.lifecycle) == c
  {
    var cs := Candidates(children, None);
    forall r | r in children ensures Project(r.lifecycle) in cs {
      var i :| 0 <= i < |children| && children[i] == r;
      assert cs[i] == Project(r.lifecycle);
    }
    forall c | c in cs ensures exists r :: r in children && Project(r.lifecycle) == c {
      var i :| 0 <= i < |cs| && cs[i] == c;
      assert children[i] in children;
    }
  }

  lemma RankTellsApart(a: Lifecycle, b: Lifecycle)
    ensures Rank(Project(a)) == Rank(Project(b)) ==> Project(a) == Project(b)
  {
  }

  /** What the aggregate means: some child sits there, and no child is less settled. */
  lemma AggregateIsLeastSettled(records: seq<ChildCase>, tenant: string, id: string, st: CaseStatus)
    ensures Aggregate(records, tenant, id, None) == Some(st) <==>
            && (exists r :: r in records && ChildrenOf(tenant, id)(r) && Project(r.lifecycle) == st)
            && (forall r :: r in records && ChildrenOf(tenant, id)(r) ==> Rank(Project(r.lifecycle)) <= Rank(st))
  {
    var children := ListByCase(records, tenant, id);
    forall r ensures r in children <==> r in records && ChildrenOf(tenant, id)(r) {
      FilterMember(records, ChildrenOf(tenant, id), r);
    }
    if children != [] {
      WorstChild(children, st);
    } else {
      assert forall r :: r in records ==> r in children || !ChildrenOf(tenant, id)(r);
    }
  }

  /** Some child of the case is in that lifecycle state. */
  ghost predicate ChildIn(records: seq<ChildCase>, tenant: string, id: string, l: Lifecycle) {
    exists r :: r in records && r.tenantId == tenant && r.parentCaseId == Some(id) && r.lifecycle == l
  }

  /** Some child still owes progress: it is in none of the five states that end a record. */
  ghost predicate ChildOpen(records: seq<ChildCase>, tenant: string, id: string) {
    exists r :: r in records && r.tenantId == tenant && r.parentCaseId == Some(id)
                && r.lifecycle !in {RESOLVED_RECORD, CLOSED, REJECTED_RECORD, BLOCKED_RECORD, FAILED_RECORD}
  }

  lemma OpenIff(records: seq<ChildCase>, tenant: string, id: string)
    ensures Aggregate(records, tenant, id, None) == Some(OPEN_AWAITING_HUMAN) <==> ChildOpen(records, tenant, id)
  {
    AggregateIsLeastSettled(records, tenant, id, OPEN_AWAITING_HUMAN);
  }

  lemma BlockedIff(records: seq<ChildCase>, tenant: string, id: string)
    ensures Aggregate(records, tenant, id, None) == Some(BLOCKED) <==>
              ChildIn(records, tenant, id, BLOCKED_RECORD) && !ChildOpen(records, tenant, id)
  {
    AggregateIsLeastSettled(records, tenant, id, BLOCKED);
  }

  lemma FailedIff(records: seq<ChildCase>, tenant: string, id: string)
    ensures Aggregate(records, tenant, id, None) == Some(FAILED) <==>
              && ChildIn(records, tenant, id, FAILED_RECORD) && !ChildIn(records, tenant, id, BLOCKED_RECORD)
              && !ChildOpen(records, tenant, id)
  {
    AggregateIsLeastSettled(records, tenant, id, FAILED);
  }

  lemma AggregateIsRanked(records: seq<ChildCase>, tenant: string, id: string)
    ensures Aggregate(records, tenant, id, None) in
              {None, Some(OPEN_AWAITING_HUMAN), Some(BLOCKED), Some(FAILED), Some(RESOLVED)}
    ensures Aggregate(records, tenant, id, None) == None <==>
              forall r :: r in records ==> !(r.tenantId == tenant && r.parentCaseId == Some(id))
  {
    var worst := Aggregate(records, tenant, id, None);
    if worst.Some? {
      AggregateIsLeastSettled(records, tenant, id, worst.value);
    } else {
      forall r | r in records ensures !(r.tenantId == tenant && r.parentCaseId == Some(id)) {
        FilterMember(records, ChildrenOf(tenant, id), r);
      }
    }
  }

  /** The aggregate by the children's own lifecycle states: none without children; a human is
      awaited iff some child still owes progress; otherwise a blocked child decides, then a
      failed one, and only when there is neither the case is resolved. */
  lemma AggregateByLifecycles(records: seq<ChildCase>, tenant: string, id: string)
    ensures Aggregate(records, tenant, id, None) ==
              if ChildOpen(records, tenant, id) then Some(OPEN_AWAITING_HUMAN)
              else if ChildIn(records, tenant, id, BLOCKED_RECORD) then Some(BLOCKED)
              else if ChildIn(records, tenant, id, FAILED_RECORD) then Some(FAILED)
              else if exists r :: r in records && r.tenantId == tenant && r.parentCaseId == Some(id) then Some(RESOLVED)
              else None
  {
    OpenIff(records, tenant, id);
    BlockedIff(records, tenant, id);
    FailedIff(records, tenant, id);
    AggregateIsRanked(records, tenant, id);
  }

  /** The aggregate does not depend on the order the children are stored in. */
  lemma AggregateIgnoresOrder(records: seq<ChildCase>, records': seq<ChildCase>, tenant: string, id: string)
    requires multiset(records) == multiset(records')
    ensures Aggregate(records, tenant, id, None) == Aggregate(records', tenant, id, None)
  {
    forall r ensures r in records <==> r in records' {
      assert r in multiset(records) <==> r in multiset(records');
    }
    var a, a' := Aggregate(records, tenant, id, None), Aggregate(records', tenant, id, None);
    if a.Some? {
      AggregateIsLeastSettled(records, tenant, id, a.value);
      AggregateIsLeastSettled(records', tenant, id, a.value);
    } else if a'.Some? {
      AggregateIsLeastSettled(records, tenant, id, a'.value);
      AggregateIsLeastSettled(records', tenant, id, a'.value);
    }
  }

  /** A case rolls up to RESOLVED exactly when it has children and all of them are settled. */
  lemma ResolvedIff(records: seq<ChildCase>, tenant: string, id: string)
    ensures Aggregate(records, tenant, id, None) == Some(RESOLVED) <==>
            && (exists r :: r in records && ChildrenOf(tenant, id)(r))
            && (forall r :: r in records && ChildrenOf(tenant, id)(r) ==>
                  r.lifecycle == RESOLVED_RECORD || r.lifecycle == CLOSED || r.lifecycle == REJECTED_RECORD)
  {
    AggregateIsLeastSettled(records, tenant, id, RESOLVED);
  }

  /** Folding in the incoming record gives what aggregating gives once `create` has
      stored it. */
  lemma FoldingIsPersisting(records: seq<ChildCase>, d: Draft, newId: string, now: int, id: string)
    requires d.parentCaseId == Some(id)
    ensures Aggregate(records, d.tenantId, id, Some(d.finalStatus)) ==
            Aggregate(Create(records, d, newId, now), d.tenantId, id, None)
  {
    var r := NewRecord(d, newId, now);
    var p := ChildrenOf(d.tenantId, id);
    assert (records + [r])[..|records|] == records;
    assert Filter(records + [r], p) == Filter(records, p) + [r];
    assert Candidates(Filter(records, p) + [r], None) == Candidates(Filter(records, p), Some(d.finalStatus));
  }

  /** Attaching a record never makes its case look more settled. */
  lemma AttachNeverLowers(records: seq<ChildCase>, r: ChildCase, tenant: string, id: string)
    ensures var before := Aggregate(records, tenant, id, None); var after := Aggregate(records + [r], tenant, id, None);
            before.Some? ==> after.Some? && Rank(before.value) <= Rank(after.value)
  {
    var p := ChildrenOf(tenant, id);
    assert (records + [r])[..|records|] == records;
    var cs := Candidates(Filter(records, p), None);
    if p(r) {
      var cs' := Candidates(Filter(records, p) + [r], None);
      assert cs'[..|cs'| - 1] == cs;
    }
  }

  // ----- recompute_case_status ----------------------------------------------

  function StatusPatch(c: OrderCase, st: CaseStatus, now: int): CasePatch {
    NO_FIELDS.(status := Some(st),
               closedAt := if Terminal(st) then (if c.closedAt == None then Some(Some(now)) else None)
                           else (if c.closedAt != None then Some(None) else None))
  }

  const NOBODY := Attribution(None, None, None)

  /** recompute_case_status; the result says whether the status changed. */
  function Recompute(records: seq<ChildCase>, s: Store, tenant: string, id: string,
                     incoming: Option<Option<FinalStatus>>, now: int): (Store, Result<bool, Error>)
  {
    if id !in s.cases then (s, Ok(false))
    else
      var c := s.cases[id];
      var st := Aggregate(records, tenant, id, incoming);
      if c.pendingOverride.Some? || st == None || st.value == c.status then (s, Ok(false))
      else
        var (s', res) := Update(s, id, StatusPatch(c, st.value, now), NOBODY, now);
        (s', if res.Err? then Err(res.error) else Ok(true))
  }

  /** The triage guard stops the roll-up exactly when it would resolve an untriaged case. */
  lemma RecomputeBlockedIff(records: seq<ChildCase>, s: Store, tenant: string, id: string,
                            incoming: Option<Option<FinalStatus>>, now: int)
    requires id in s.cases
    ensures var (s', res) := Recompute(records, s, tenant, id, incoming, now); var c := s.cases[id];
            && (res.Err? <==> c.pendingOverride == None && c.status != RESOLVED && c.supergroup == Some(NEEDS_TRIAGE)
                              && Aggregate(records, tenant, id, incoming) == Some(RESOLVED))
            && (res.Err? ==> res.error == CloseBlocked && s' == s)
            && (res.Ok? && c.pendingOverride == None && Aggregate(records, tenant, id, incoming).Some? ==>
                  s'.cases[id].status == Aggregate(records, tenant, id, incoming).value)
  {
  }

  /** The status written before the record is stored is the one the stored children
      aggregate to, so recomputing afterwards reports no change. */
  lemma RollUpCommutes(records: seq<ChildCase>, s: Store, d: Draft, newId: string, id: string, now: int, now': int,
                       now'': int)
    requires id in s.cases && s.cases[id].pendingOverride == None && d.parentCaseId == Some(id)
    requires Recompute(records, s, d.tenantId, id, Some(d.finalStatus), now).1.Ok?
    ensures var s' := Recompute(records, s, d.tenantId, id, Some(d.finalStatus), now).0;
            var records' := Create(records, d, newId, now');
            && Aggregate(records', d.tenantId, id, None) == Some(s'.cases[id].status)
            && Recompute(records', s', d.tenantId, id, None, now'') == (s', Ok(false))
  {
    FoldingIsPersisting(records, d, newId, now', id);
    RecomputeBlockedIff(records, s, d.tenantId, id, Some(d.finalStatus), now);
  }

  /** A roll-up rewrites the case's status, its time stamp and `closed_at`, which a terminal
      status stamps unless it is set and any other status clears; it says whether it did. */
  lemma RollUpFields(records: seq<ChildCase>, s: Store, tenant: string, id: string,
                     incoming: Option<Option<FinalStatus>>, now: int)
    requires id in s.cases
    ensures var (s', res) := Recompute(records, s, tenant, id, incoming, now);
            var c, st := s.cases[id], Aggregate(records, tenant, id, incoming);
            if c.pendingOverride.Some? || st == None || st.value == c.status then s' == s && res == Ok(false)
            else if st == Some(RESOLVED) && c.supergroup == Some("SG_NEEDS_TRIAGE")
            then s' == s && res == Err(CloseBlocked)
            else res == Ok(true) && s' == s.(cases := s.cases[id := c.(
                   status := st.value, updatedAt := now,
                   closedAt := if st.value !in {RESOLVED, FAILED, BLOCKED} then None
                               else if c.closedAt == None then Some(now) else c.closedAt)])
  {
  }

  // ----- closed_at ----------------------------------------------------------

  /** The ways a case row changes when status moves only by roll-up and override staging. */
  datatype Move =
    | Roll(records: seq<ChildCase>, tenant: string, id: string, incoming: Option<Option<FinalStatus>>, now: int)
    | Other(op: Op)

  /** Other calls leave status and closed_at alone, apart from staging an override. */
  predicate Disciplined(m: Move) {
    m.Other? && m.op.UpdateOp? ==> m.op.patch.status == None && m.op.patch.closedAt == None
  }

  function Make(s: Store, m: Move): Store {
    match m
    case Roll(records, t, id, incoming, now) => Recompute(records, s, t, id, incoming, now).0
    case Other(op) => Step(s, op)
  }

  function MakeAll(s: Store, ms: seq<Move>): Store {
    if ms == [] then s else Make(MakeAll(s, ms[..|ms| - 1]), ms[|ms| - 1])
  }

  ghost predicate ClosedIfTerminal(s: Store) {
    forall id :: id in s.cases && Terminal(s.cases[id].status) ==> s.cases[id].closedAt.Some?
  }

  ghost predicate ClosedIffTerminal(s: Store) {
    forall id :: id in s.cases ==> (Terminal(s.cases[id].status) <==> s.cases[id].closedAt.Some?)
  }

  /** Staging an override on a case that is closed. */
  predicate StagesOnClosed(s: Store, m: Move) {
    && m.Other? && m.op.OverrideOp? && m.op.id in s.cases
    && s.cases[m.op.id].pendingOverride == None && s.cases[m.op.id].closedAt.Some?
  }

  /** The rows of one case before and after a move that is not a staging. */
  predicate StampOk(c: OrderCase, c': OrderCase) {
    (c'.status == c.status && c'.closedAt == c.closedAt) || (Terminal(c'.status) <==> c'.closedAt.Some?)
  }

  lemma RollStamps(records: seq<ChildCase>, s: Store, t: string, id: string, incoming: Option<Option<FinalStatus>>,
                   now: int, x: string)
    ensures var s' := Recompute(records, s, t, id, incoming, now).0;
            s'.cases.Keys == s.cases.Keys && (x in s.cases ==> StampOk(s.cases[x], s'.cases[x]))
  {
    var s' := Recompute(records, s, t, id, incoming, now).0;
    if s' != s {
      var c := s.cases[id];
      var st := Aggregate(records, t, id, incoming).value;
      assert s'.cases == s.cases[id := Patched(c, StatusPatch(c, st, now), now)];
    }
  }

  lemma OtherStamps(s: Store, op: Op, x: string)
    requires Admissible(s, op) && !op.OverrideOp? && Disciplined(Other(op)) && x in Step(s, op).cases
    ensures x in s.cases ==> StampOk(s.cases[x], Step(s, op).cases[x])
    ensures x !in s.cases ==>
              Step(s, op).cases[x].status == OPEN_AGENT_PROCESSING && Step(s, op).cases[x].closedAt == None
  {
    var s' := Step(s, op);
    match op {
      case LookupOp(t, r, newId, now) =>
        CommitEffect(s, t, r, Find(s, t, r.keys), newId, now);
      case UpdateOp(id, p, who, now) =>
        assert s'.cases == s.cases || s'.cases == s.cases[id := Patched(s.cases[id], p, now)];
      case RegisterOp(_, _, _, _) => assert s'.cases == s.cases;
      case RecordOp(_) => assert s'.cases == s.cases;
      case ChildOp(_, _, _, _, _, _) => assert s'.cases == s.cases;
      case LiftOp(id, now) => assert s' == s || s'.cases == s.cases[id := s'.cases[id]];
      case DeleteOp(id) => assert s'.cases[x] == s.cases[x];
      case ClearOp =>
    }
  }

  /** A terminal status always carries a close time. */
  lemma MoveKeepsClosedIfTerminal(s: Store, m: Move)
    requires ClosedIfTerminal(s) && Disciplined(m) && (m.Other? ==> Admissible(s, m.op))
    ensures ClosedIfTerminal(Make(s, m))
  {
    var s' := Make(s, m);
    forall x | x in s'.cases && Terminal(s'.cases[x].status) ensures s'.cases[x].closedAt.Some? {
      match m {
        case Roll(records, t, id, incoming, now) => RollStamps(records, s, t, id, incoming, now, x);
        case Other(op) =>
          if op.OverrideOp? {
            assert s' == s || s'.cases == s.cases[op.id := s'.cases[op.id]];
          } else {
            OtherStamps(s, op, x);
          }
      }
    }
  }

  /** Close time and terminal status go together in both directions, until an
      override is staged on a closed case. */
  lemma MoveKeepsClosedIffTerminal(s: Store, m: Move)
    requires ClosedIffTerminal(s) && Disciplined(m) && (m.Other? ==> Admissible(s, m.op))
    ensures ClosedIffTerminal(Make(s, m)) <==> !StagesOnClosed(s, m)
  {
    var s' := Make(s, m);
    if m.Other? && m.op.OverrideOp? {
      var id := m.op.id;
      assert s' == s || s'.cases == s.cases[id := s.cases[id].(pendingOverride := Some(m.op.override),
                                                               status := OPEN_AWAITING_HUMAN, updatedAt := m.op.now)];
      assert s' != s ==> id in s'.cases && s'.cases[id].status == OPEN_AWAITING_HUMAN;
    } else {
      forall x | x in s'.cases ensures Terminal(s'.cases[x].status) <==> s'.cases[x].closedAt.Some? {
        match m {
          case Roll(records, t, id, incoming, now) => RollStamps(records, s, t, id, incoming, now, x);
          case Other(op) => OtherStamps(s, op, x);
        }
      }
    }
  }

  ghost predicate DisciplinedRun(ms: seq<Move>) {
    forall i :: 0 <= i < |ms| ==> Disciplined(ms[i]) && (ms[i].Other? ==> Admissible(MakeAll(EMPTY, ms[..i]), ms[i].op))
  }

  ghost predicate NeverStagesOnClosed(ms: seq<Move>) {
    forall i :: 0 <= i < |ms| ==> !StagesOnClosed(MakeAll(EMPTY, ms[..i]), ms[i])
  }

  lemma RunPrefix(ms: seq<Move>)
    requires ms != [] && DisciplinedRun(ms)
    ensures DisciplinedRun(ms[..|ms| - 1])
    ensures NeverStagesOnClosed(ms) ==> NeverStagesOnClosed(ms[..|ms| - 1])
  {
    var front := ms[..|ms| - 1];
    assert forall i :: 0 <= i < |front| ==> front[..i] == ms[..i];
  }

  lemma {:induction false} ReachableClosed(ms: seq<Move>)
    requires DisciplinedRun(ms)
    ensures ClosedIfTerminal(MakeAll(EMPTY, ms))
    ensures NeverStagesOnClosed(ms) ==> ClosedIffTerminal(MakeAll(EMPTY, ms))
  {
    if ms != [] {
      var front, last := ms[..|ms| - 1], ms[|ms| - 1];
      RunPrefix(ms);
      ReachableClosed(front);
      MoveKeepsClosedIfTerminal(MakeAll(EMPTY, front), last);
      if NeverStagesOnClosed(ms) {
        MoveKeepsClosedIffTerminal(MakeAll(EMPTY, front), last);
      }
    }
  }

  /** The override slot: it takes one override at a time; while it is taken no roll-up
      moves the case and a second one is refused; lifting frees it and restores the
      row, except for the status it set and the time stamp. */
  lemma OverrideHoldsCase(records: seq<ChildCase>, s: Store, tenant: string, id: string, override: string,
                          second: string,
                          incoming: Option<Option<FinalStatus>>, t1: int, t2: int, t3: int)
    requires id in s.cases && s.cases[id].pendingOverride == None
    ensures var (staged, res) := SetPendingOverride(s, id, override, t1);
            && res == Ok(())
            && Recompute(records, staged, tenant, id, incoming, t2) == (staged, Ok(false))
            && SetPendingOverride(staged, id, second, t2) == (staged, Err(OverrideStaged))
            && ClearPendingOverride(staged, id, t3) ==
               (s.(cases := s.cases[id := s.cases[id].(status := OPEN_AWAITING_HUMAN, updatedAt := t3)]), Ok(()))
  {
    var staged := SetPendingOverride(s, id, override, t1).0;
    var lifted := ClearPendingOverride(staged, id, t3).0;
    assert lifted.cases == s.cases[id := lifted.cases[id]];
  }

  /** Once an override on a closed case is lifted again, a roll-up that finds a child
      still waiting for a human changes nothing: the open case keeps its close time. */
  lemma StaleCloseTimeSurvives(records: seq<ChildCase>, s: Store, tenant: string, id: string, override: string,
                               t1: int, t2: int, t3: int)
    requires id in s.cases && s.cases[id].pendingOverride == None && s.cases[id].closedAt.Some?
    requires Aggregate(records, tenant, id, None) == Some(OPEN_AWAITING_HUMAN)
    ensures var lifted := Step(Step(s, OverrideOp(id, override, t1)), LiftOp(id, t2));
            && Recompute(records, lifted, tenant, id, None, t3) == (lifted, Ok(false))
            && lifted.cases[id].status == OPEN_AWAITING_HUMAN && lifted.cases[id].closedAt == s.cases[id].closedAt
  {
  }

  // ----- a run that ends with a stale close time ----------------------------

  function ChildOfC(id: string, l: Lifecycle): ChildCase {
    ChildCase(id, "t", Some("c"), l, None, None, None, None, Missing, 0, 0)
  }

  const ONE_DONE := [ChildOfC("r1", RESOLVED_RECORD)]
  const ONE_PENDING := [ChildOfC("r1", RESOLVED_RECORD), ChildOfC("r2", PENDING_REVIEW)]

  /** A case is opened and closes with its first record; an override is staged on it and
      lifted; then a second record waits for review. */
  function StaleRun(): seq<Move> {
    var intake := Intake(Keys(NoValue, NoValue, NoValue, NoValue), "API", "portal", None, None, "ann", "RULE");
    [Other(LookupOp("t", intake, "c", 0)), Roll(ONE_DONE, "t", "c", None, 1), Other(OverrideOp("c", "o", 2)),
     Other(LiftOp("c", 3)), Roll(ONE_PENDING, "t", "c", None, 4)]
  }

  lemma MakeNext(ms: seq<Move>, i: nat)
    requires i < |ms|
    ensures MakeAll(EMPTY, ms[..i + 1]) == Make(MakeAll(EMPTY, ms[..i]), ms[i])
  {
    assert ms[..i + 1][..i] == ms[..i];
  }

  /** The store with the one case of the run. */
  ghost predicate OnlyC(s: Store, status: CaseStatus, closedAt: Option<int>, override: Option<string>) {
    && s.cases.Keys == {"c"} && s.cases["c"].status == status && s.cases["c"].closedAt == closedAt
    && s.cases["c"].pendingOverride == override && s.cases["c"].supergroup == None
  }

  lemma ChildrenOfC()
    ensures Aggregate(ONE_DONE, "t", "c", None) == Some(RESOLVED)
    ensures Aggregate(ONE_PENDING, "t", "c", None) == Some(OPEN_AWAITING_HUMAN)
  {
    assert ONE_DONE[0] in ONE_DONE && ONE_PENDING[1] in ONE_PENDING;
    ResolvedIff(ONE_DONE, "t", "c");
    AggregateIsLeastSettled(ONE_PENDING, "t", "c", OPEN_AWAITING_HUMAN);
  }

  lemma OpensC()
    ensures OnlyC(MakeAll(EMPTY, StaleRun()[..1]), OPEN_AGENT_PROCESSING, None, None)
  {
    MakeNext(StaleRun(), 0);
    assert AllGiven("t", Keys(NoValue, NoValue, NoValue, NoValue)) == [];
  }

  lemma RollsC(s: Store, status: CaseStatus, st: CaseStatus, records: seq<ChildCase>, now: int)
    requires OnlyC(s, status, None, None) && status != st && Terminal(st)
    requires Aggregate(records, "t", "c", None) == Some(st)
    ensures OnlyC(Recompute(records, s, "t", "c", None, now).0, st, Some(now), None)
  {
  }

  lemma StagesC(s: Store, status: CaseStatus, closedAt: Option<int>)
    requires OnlyC(s, status, closedAt, None)
    ensures OnlyC(Step(s, OverrideOp("c", "o", 2)), OPEN_AWAITING_HUMAN, closedAt, Some("o"))
  {
  }

  lemma LiftsFromC(s: Store, closedAt: Option<int>)
    requires OnlyC(s, OPEN_AWAITING_HUMAN, closedAt, Some("o"))
    ensures OnlyC(Step(s, LiftOp("c", 3)), OPEN_AWAITING_HUMAN, closedAt, None)
  {
  }

  lemma ClosesC()
    ensures OnlyC(MakeAll(EMPTY, StaleRun()[..2]), RESOLVED, Some(1), None)
  {
    ChildrenOfC();
    OpensC();
    MakeNext(StaleRun(), 1);
    RollsC(MakeAll(EMPTY, StaleRun()[..1]), OPEN_AGENT_PROCESSING, RESOLVED, ONE_DONE, 1);
  }

  lemma LiftsC()
    ensures OnlyC(MakeAll(EMPTY, StaleRun()[..4]), OPEN_AWAITING_HUMAN, Some(1), None)
  {
    StagedC();
    MakeNext(StaleRun(), 3);
    LiftsFromC(MakeAll(EMPTY, StaleRun()[..3]), Some(1));
  }

  lemma StagedC()
    ensures OnlyC(MakeAll(EMPTY, StaleRun()[..3]), OPEN_AWAITING_HUMAN, Some(1), Some("o"))
  {
    ClosesC();
    MakeNext(StaleRun(), 2);
    StagesC(MakeAll(EMPTY, StaleRun()[..2]), RESOLVED, Some(1));
  }

  lemma NoChangeForC(s: Store, closedAt: Option<int>)
    requires OnlyC(s, OPEN_AWAITING_HUMAN, closedAt, None)
    ensures Recompute(ONE_PENDING, s, "t", "c", None, 4).0 == s
  {
    ChildrenOfC();
  }

  lemma StaleRunIsDisciplined()
    ensures DisciplinedRun(StaleRun())
  {
    assert StaleRun()[..0] == [];
    assert Admissible(MakeAll(EMPTY, StaleRun()[..0]), StaleRun()[0].op);
  }

  /** Reached by the stores' own calls: an open case that carries a close time, which the
      last roll-up has left. */
  lemma StaleCloseTimeIsReached()
    ensures DisciplinedRun(StaleRun())
    ensures OnlyC(MakeAll(EMPTY, StaleRun()), OPEN_AWAITING_HUMAN, Some(1), None)
  {
    StaleRunIsDisciplined();
    LiftsC();
    MakeNext(StaleRun(), 4);
    NoChangeForC(MakeAll(EMPTY, StaleRun()[..4]), Some(1));
    assert StaleRun()[..5] == StaleRun();
  }
}
