/** The two in-memory stores of api/store.py as objects, proved against the state
    functions of the other modules. */
module Stores {
  import opened Wrappers
  import opened Sequences
  import opened Model
  import Audit = AuditChain
  import opened Records
  import opened Cases
  import opened Children
  import opened RollUp

  /** The four key columns in resolution priority order. */
  function Priority(keys: Keys): seq<(KeyKind, Json)> {
    [(SALES_ORDER, keys.salesOrder), (CUSTOMER_PO, keys.customerPo), (EDI_TXN, keys.edi), (SOURCE_EMAIL, keys.email)]
  }

  function NonEmpty(tenant: string, columns: seq<(KeyKind, Json)>): seq<Key> {
    if columns == [] then [] else One(tenant, columns[0].0, columns[0].1) + NonEmpty(tenant, columns[1..])
  }

  lemma PriorityIsAllGiven(tenant: string, keys: Keys)
    ensures NonEmpty(tenant, Priority(keys)) == AllGiven(tenant, keys)
  {
    var p := Priority(keys);
    assert p[1..][1..] == p[2..] && p[2..][1..] == p[3..] && p[3..][1..] == [];
    assert NonEmpty(tenant, p[3..]) == One(tenant, SOURCE_EMAIL, keys.email);
    assert NonEmpty(tenant, p[2..]) == One(tenant, EDI_TXN, keys.edi) + NonEmpty(tenant, p[3..]);
    assert NonEmpty(tenant, p[1..]) == One(tenant, CUSTOMER_PO, keys.customerPo) + NonEmpty(tenant, p[2..]);
  }

  class CaseStore {
    var cases: map<string, OrderCase>
    var order: seq<string>
    var index: map<Key, string>
    var history: map<string, seq<ClassificationEvent>>

    function State(): Store
      reads this
    {
      Store(cases, order, index, history)
    }

    constructor ()
      ensures State() == EMPTY
    {
      cases, order, index, history := map[], [], map[], map[];
    }

    /** find_by_correlation; an unhashable key met before a hit raises. */
    method FindByCorrelation(tenant: string, keys: Keys) returns (res: Result<Option<string>, Error>)
      ensures res == if SearchRaises(State(), tenant, keys) then Err(Unhashable) else Ok(Find(State(), tenant, keys))
    {
      var columns := Priority(keys);
      PriorityIsAllGiven(tenant, keys);
      UnhashableIsUnkeyable(tenant, keys);
      var i := 0;
      while i < |columns|
        invariant 0 <= i <= |columns|
        invariant FirstHit(index, Hashed(NonEmpty(tenant, columns[i..]))) == FirstHit(index, Supplied(tenant, keys))
        invariant SomeUnhashable(NonEmpty(tenant, columns[i..])) <==> Unkeyable(keys)
      {
        var (kind, value) := columns[i];
        assert columns[i..][1..] == columns[i + 1..];
        ghost var one, rest := One(tenant, kind, value), NonEmpty(tenant, columns[i + 1..]);
        SearchNext(index, tenant, kind, value, rest);
        if Given(value) {
          assert Key(tenant, kind, value) in one + rest;
          if !Hashable(value) {
            return Err(Unhashable);
          }
          if Key(tenant, kind, value) in index {
            var id := index[Key(tenant, kind, value)];
            return Ok(if id in cases then Some(id) else None);
          }
        }
        assert forall k :: k in one + rest <==> k in one || k in rest;
        i := i + 1;
      }
      return Ok(None);
    }

    /** _register_correlations_locked; an unhashable key raises after the ones before it
        have been registered. */
    method RegisterCorrelationsLocked(tenant: string, id: string, keys: Keys) returns (raised: bool)
      modifies this`index
      ensures index == Register(old(index), Supplied(tenant, keys), id) && raised == Unkeyable(keys)
    {
      var columns := Priority(keys);
      PriorityIsAllGiven(tenant, keys);
      UnhashableIsUnkeyable(tenant, keys);
      var i := 0;
      while i < |columns|
        invariant 0 <= i <= |columns|
        invariant Register(index, Hashed(NonEmpty(tenant, columns[i..])), id) ==
                    Register(old(index), Supplied(tenant, keys), id)
        invariant SomeUnhashable(NonEmpty(tenant, columns[i..])) <==> Unkeyable(keys)
      {
        var (kind, value) := columns[i];
        assert columns[i..][1..] == columns[i + 1..];
        ghost var before, one, rest := index, One(tenant, kind, value), NonEmpty(tenant, columns[i + 1..]);
        HashedNext(one, rest);
        if Given(value) {
          assert Key(tenant, kind, value) in one + rest;
          if !Hashable(value) {
            return true;
          }
          index := index[Key(tenant, kind, value) := id];
        }
        RegisterSplit(before, one, Hashed(rest), id);
        assert forall k :: k in one + rest <==> k in one || k in rest;
        i := i + 1;
      }
      return false;
    }

    method LookupOrCreate(tenant: string, r: Intake, newId: string, now: int)
      returns (res: Result<(string, bool), Error>)
      modifies this
      ensures (State(), res) == Cases.LookupOrCreate(old(State()), tenant, r, newId, now)
    {
      TextualIsKeyable(r.keys);
      var search := FindByCorrelation(tenant, r.keys);
      if search.Err? {
        return Err(search.error);
      }
      var existing := search.value;
      if existing.Some? {
        var raised := RegisterCorrelationsLocked(tenant, existing.value, r.keys);
        return if raised then Err(Unhashable) else Ok((existing.value, false));
      }
      if !ValidIntake(r) {
        return Err(InvalidCase);
      }
      var c := NewCase(tenant, r, newId, now);
      cases := cases[newId := c];
      order := order + [newId];
      var _ := RegisterCorrelationsLocked(tenant, newId, r.keys);
      if r.supergroup.Some? {
        if !ValidClassifier(r.classifierType) {
          return Err(InvalidEvent);
        }
        RecordClassificationLocked(
          ClassificationEvent(newId, None, r.supergroup.value, r.intentCode, r.classifiedBy, r.classifierType));
      }
      return Ok((newId, true));
    }

    method RecordClassificationLocked(e: ClassificationEvent)
      modifies this`history
      ensures State() == Record(old(State()), e)
    {
      var rows := if e.caseId in history then history[e.caseId] else [];
      history := history[e.caseId := rows + [e]];
    }

    method RegisterCorrelation(tenant: string, id: string, kind: KeyKind, value: Json)
      returns (res: Result<(), Error>)
      modifies this`index
      ensures (State(), res) == Cases.RegisterCorrelation(old(State()), tenant, id, kind, value)
    {
      if id !in cases {
        return Err(UnknownCase);
      }
      if !Hashable(value) {
        return Err(Unhashable);
      }
      index := index[Key(tenant, kind, value) := id];
      return Ok(());
    }

    method Update(id: string, p: CasePatch, who: Attribution, now: int) returns (res: Result<(), Error>)
      modifies this
      ensures (State(), res) == Cases.Update(old(State()), id, p, who, now)
    {
      if id !in cases {
        return Err(UnknownCase);
      }
      var existing := cases[id];
      var targetStatus := Or(p.status, existing.status);
      var targetSg := Or(p.supergroup, existing.supergroup);
      var reclassified := p.supergroup.Some? && p.supergroup.value != existing.supergroup;
      if reclassified && (!Truthy(who.actor) || !Truthy(who.kind)) {
        return Err(Unattributed);
      }
      if targetStatus == RESOLVED && targetSg == Some(NEEDS_TRIAGE) {
        return Err(CloseBlocked);
      }
      var updated := Patched(existing, p, now);
      cases := cases[id := updated];
      if reclassified {
        if !ValidClassifier(who.kind.value) {
          return Err(InvalidEvent);
        }
        RecordClassificationLocked(
          ClassificationEvent(id, None, if updated.supergroup.Some? then updated.supergroup.value else "",
                              who.intentCode, who.actor.value, who.kind.value));
      }
      return Ok(());
    }

    method RecordClassification(e: ClassificationEvent) returns (res: Result<(), Error>)
      modifies this`history
      ensures (State(), res) == Cases.RecordClassification(old(State()), e)
    {
      if e.caseId !in cases {
        return Err(UnknownCase);
      }
      if !ValidClassifier(e.classifierType) {
        return Err(InvalidEvent);
      }
      RecordClassificationLocked(e);
      return Ok(());
    }

    method RecordForChild(id: string, child: string, supergroup: Option<string>, intentCode: Option<string>,
                          actor: string, kind: string) returns (res: Result<(), Error>)
      modifies this`history
      ensures (State(), res) == Cases.RecordForChild(old(State()), id, child, supergroup, intentCode, actor, kind)
    {
      if id !in cases {
        return Err(UnknownCase);
      }
      if supergroup == None || !ValidClassifier(kind) {
        return Err(InvalidEvent);
      }
      RecordClassificationLocked(ClassificationEvent(id, Some(child), supergroup.value, intentCode, actor, kind));
      return Ok(());
    }

    method SetPendingOverride(id: string, override: string, now: int) returns (res: Result<(), Error>)
      modifies this`cases
      ensures (State(), res) == Cases.SetPendingOverride(old(State()), id, override, now)
    {
      if id !in cases {
        return Err(UnknownCase);
      }
      if cases[id].pendingOverride.Some? {
        return Err(OverrideStaged);
      }
      cases := cases[id := cases[id].(pendingOverride := Some(override), status := OPEN_AWAITING_HUMAN,
                                      updatedAt := now)];
      return Ok(());
    }

    method ClearPendingOverride(id: string, now: int) returns (res: Result<(), Error>)
      modifies this`cases
      ensures (State(), res) == Cases.ClearPendingOverride(old(State()), id, now)
    {
      if id !in cases {
        return Err(UnknownCase);
      }
      cases := cases[id := cases[id].(pendingOverride := None, updatedAt := now)];
      return Ok(());
    }

    method Delete(id: string)
      modifies this
      ensures State() == Cases.Delete(old(State()), id)
    {
      cases := cases - {id};
      order := Filter(order, NotId(id));
      index := map k | k in index && index[k] != id :: index[k];
    }

    method Clear()
      modifies this
      ensures State() == Cases.Clear(old(State()))
    {
      cases, order, index := map[], [], map[];
    }
  }

  /** Registering keys one column at a time is registering them all. */
  lemma RegisterSplit(index: map<Key, string>, first: seq<Key>, rest: seq<Key>, id: string)
    requires |first| <= 1
    ensures Register(if first == [] then index else index[first[0] := id], rest, id) ==
              Register(index, first + rest, id)
  {
    var one := Register(if first == [] then index else index[first[0] := id], rest, id);
    var all := Register(index, first + rest, id);
    assert forall k :: k in first + rest <==> k in first || k in rest;
    assert forall k :: k in first <==> first != [] && k == first[0];
    assert one.Keys == all.Keys;
    assert one == all;
  }

  class ExceptionStore {
    var records: seq<ChildCase>
    var auditLog: seq<Audit.AuditEvent>

    ghost predicate Valid()
      reads this
    {
      UniqueIds(records)
    }

    constructor ()
      ensures Valid() && records == [] && auditLog == []
    {
      records, auditLog := [], [];
    }

    method Create(d: Draft, id: string, now: int) returns (r: ChildCase)
      requires Valid() && id != "" && id !in Ids(records)
      modifies this`records
      ensures Valid() && records == Children.Create(old(records), d, id, now) && r == NewRecord(d, id, now)
    {
      r := NewRecord(d, id, now);
      records := records + [r];
      JoinUnique(old(records), [r]);
    }

    /** list: filter, sort, seek the cursor, cut a page. */
    method List(q: Query, limit: int, cursor: Option<string>) returns (page: Page)
      ensures page == ListPage(records, q, limit, cursor)
    {
      var rows := Rows(records, q);
      if Truthy(cursor) {
        var i := 0;
        while i < |rows| && rows[i].id != cursor.value
          invariant 0 <= i <= |rows|
          invariant Position(rows, cursor.value) ==
                    match Position(rows[i..], cursor.value) case None => None case Some(k) => Some(i + k)
        {
          assert rows[i..][1..] == rows[i + 1..];
          i := i + 1;
        }
        if i < |rows| {
          rows := rows[i + 1..];
        }
      }
      var hasMore := |rows| > limit;
      var items := Cut(rows, limit);
      page := Page(items, if hasMore && items != [] then Some(items[|items| - 1].id) else None, hasMore);
    }

    method Update(store: CaseStore, id: string, tenant: string, p: RecordPatch, who: Attribution, now: int)
      returns (res: Result<Option<ChildCase>, Error>)
      requires Valid()
      modifies this`records, store`history
      ensures Valid() && Ids(records) == Ids(old(records)) && |records| == |old(records)|
      ensures (records, store.State(), res) == UpdateRecord(old(records), old(store.State()), id, tenant, p, who, now)
    {
      var at := Position(records, id);
      PositionSound(records, id);
      if at == None || records[at.value].tenantId != tenant {
        return Ok(None);
      }
      var k := at.value;
      var r := records[k];
      var sgChanged := p.supergroup.Some? && p.supergroup.value != r.supergroup;
      var intentChanged := p.intentCode.Some? && p.intentCode.value != r.intentCode;
      if sgChanged && p.supergroup.value == None {
        return Err(NullReclassification);
      }
      if (sgChanged || intentChanged) && (!Truthy(who.actor) || !Truthy(who.kind)) {
        return Err(Unattributed);
      }
      var r' := PatchedRecord(r, p, now);
      UpdateKeepsUnique(records, k, r');
      records := records[k := r'];
      if (sgChanged || intentChanged) && Truthy(r'.parentCaseId) {
        var recorded := store.RecordForChild(r'.parentCaseId.value, id, r'.supergroup, r'.intentCode,
                                             who.actor.value, who.kind.value);
        if recorded.Err? {
          return Err(recorded.error);
        }
      }
      return Ok(Some(r'));
    }

    /** log_audit_event: walk back to the tenant's latest event and link to it. */
    method LogAuditEvent(h: Audit.Hashing, e: Audit.Entry)
      modifies this`auditLog
      ensures auditLog == Audit.Append(h, old(auditLog), e)
    {
      var prevHash := Audit.GENESIS;
      var i := |auditLog|;
      assert auditLog[..i] == auditLog;
      while i > 0
        invariant 0 <= i <= |auditLog| && prevHash == Audit.GENESIS
        invariant Audit.LastHash(auditLog[..i], e.tenantId) == Audit.LastHash(auditLog, e.tenantId)
      {
        assert auditLog[..i][..i - 1] == auditLog[..i - 1];
        if auditLog[i - 1].body.tenantId == e.tenantId {
          prevHash := auditLog[i - 1].eventHash;
          break;
        }
        i := i - 1;
      }
      auditLog := auditLog + [Audit.Seal(h, e, prevHash)];
    }

    /** verify_audit_chain: (True, None), or (False, i) for the first break. */
    method VerifyAuditChain(h: Audit.Hashing, tenant: string) returns (ok: bool, at: Option<nat>)
      ensures ok <==> at == None
      ensures Audit.FirstBreak(h, Audit.TenantLog(auditLog, tenant), at)
    {
      var events := Audit.TenantLog(auditLog, tenant);
      var expectedPrev := Audit.GENESIS;
      for i := 0 to |events|
        invariant expectedPrev == Audit.ExpectedPrev(events, i)
        invariant forall j :: 0 <= j < i ==> Audit.LinkOk(h, events, j)
      {
        var e := events[i];
        if e.body.prevHash != expectedPrev {
          return false, Some(i);
        }
        if e.eventHash != h.Digest(e.body) {
          return false, Some(i);
        }
        expectedPrev := e.eventHash;
      }
      return true, None;
    }
  }

  /** recompute_case_status on the live stores. */
  method RecomputeCaseStatus(exc: ExceptionStore, cse: CaseStore, tenant: string, id: string,
                             incoming: Option<Option<FinalStatus>>, now: int) returns (res: Result<bool, Error>)
    modifies cse
    ensures (cse.State(), res) == Recompute(exc.records, old(cse.State()), tenant, id, incoming, now)
  {
    if id !in cse.cases {
      return Ok(false);
    }
    var c := cse.cases[id];
    if c.pendingOverride.Some? {
      return Ok(false);
    }
    var children := ListByCase(exc.records, tenant, id);
    var worst := WorstOf(children, incoming);
    if worst == None || worst.value == c.status {
      return Ok(false);
    }
    var updated := cse.Update(id, StatusPatch(c, worst.value, now), NOBODY, now);
    return if updated.Err? then Err(updated.error) else Ok(true);
  }

  /** The loop of `max` over the children and the incoming record. */
  method WorstOf(children: seq<ChildCase>, incoming: Option<Option<FinalStatus>>) returns (worst: Option<CaseStatus>)
    ensures worst == if Candidates(children, incoming) == [] then None else Some(Worst(Candidates(children, incoming)))
  {
    var candidates := Candidates(children, incoming);
    if candidates == [] {
      return None;
    }
    var best := candidates[0];
    assert candidates[..1] == [candidates[0]];
    for i := 1 to |candidates|
      invariant best == Worst(candidates[..i])
    {
      assert candidates[..i + 1][..i] == candidates[..i];
      if Rank(best) < Rank(candidates[i]) {
        best := candidates[i];
      }
    }
    assert candidates[..|candidates|] == candidates;
    return Some(best);
  }
}
