/** What each call of the two stores (api/store.py) leaves behind, field by field: which
    guard refuses it, what every field of the row it writes holds, the history row it adds,
    and what it does not touch. */
module Fields {
  import opened Wrappers
  import opened Sequences
  import opened Model
  import opened Records
  import opened Cases
  import opened CaseIndex
  import opened Children

  /** A keyword argument that was not passed leaves the field alone. */
  predicate Becomes<T(==)>(change: Option<T>, before: T, after: T) {
    (change == None ==> after == before) && (change.Some? ==> after == change.value)
  }

  predicate Unset(s: Option<string>) {
    s == None || s == Some("")
  }

  predicate KnownClassifier(kind: string) {
    kind in {"HUMAN", "MODEL", "RULE"}
  }

  /** Apart from the case `id`, the two case tables agree. */
  ghost predicate OthersKept(s: Store, s': Store, id: string) {
    forall x :: x != id ==> (x in s'.cases <==> x in s.cases) && (x in s.cases ==> s'.cases[x] == s.cases[x])
  }

  /** The history of the event's case grew by just this row, and no other history changed. */
  ghost predicate RowAdded(s: Store, s': Store, e: ClassificationEvent) {
    && History(s', e.caseId) == History(s, e.caseId) + [e]
    && forall id :: id != e.caseId ==> History(s', id) == History(s, id)
  }

  // ----- lookup_or_create ---------------------------------------------------

  predicate StringKeys(keys: Keys) {
    && (keys.salesOrder.NoValue? || keys.salesOrder.Str?) && (keys.customerPo.NoValue? || keys.customerPo.Str?)
    && (keys.edi.NoValue? || keys.edi.Str?) && (keys.email.NoValue? || keys.email.Str?)
  }

  /** The new case: the event's origin, channel, supergroup and PO, open and unclosed at tier 2. */
  lemma OpenedCase(s: Store, tenant: string, r: Intake, newId: string, now: int)
    requires !SearchRaises(s, tenant, r.keys) && Find(s, tenant, r.keys) == None
    requires r.origin in {"CUSTOMER", "API"}
    requires StringKeys(r.keys)
    ensures var s' := LookupOrCreate(s, tenant, r, newId, now).0;
            && newId in s'.cases && OthersKept(s, s', newId) && s'.order == s.order + [newId]
            && var c := s'.cases[newId];
               && c.caseId == newId && c.tenantId == tenant && c.origin == r.origin && c.channel == r.channel
               && c.supergroup == r.supergroup && c.openedAt == now && c.updatedAt == now && c.closedAt == None
               && c.status == OPEN_AGENT_PROCESSING && c.tier == 2 && c.summary == None && c.pendingOverride == None
               && (r.keys.customerPo.NoValue? ==> c.customerPo == None)
               && (r.keys.customerPo.Str? ==> c.customerPo == Some(r.keys.customerPo.text))
  {
    CommitEffect(s, tenant, r, None, newId, now);
  }

  /** Its history row, if it was opened with a supergroup; the row is refused, and the call
      raises, when the classifier type is not one of three. */
  lemma OpenedRow(s: Store, tenant: string, r: Intake, newId: string, now: int)
    requires !SearchRaises(s, tenant, r.keys) && Find(s, tenant, r.keys) == None && FreshId(s, newId)
    requires r.origin in {"CUSTOMER", "API"}
    requires StringKeys(r.keys)
    ensures var (s', res) := LookupOrCreate(s, tenant, r, newId, now);
            match r.supergroup
            case None => res == Ok((newId, true)) && s'.history == s.history
            case Some(sg) =>
              if KnownClassifier(r.classifierType)
              then res == Ok((newId, true))
                   && RowAdded(s, s', ClassificationEvent(newId, None, sg, r.intentCode, r.classifiedBy,
                                                          r.classifierType))
              else res == Err(InvalidEvent) && s'.history == s.history
  {
  }

  /** Any other origin, or a key that is no string, opens nothing. */
  lemma RefusedOpening(s: Store, tenant: string, r: Intake, newId: string, now: int)
    requires !SearchRaises(s, tenant, r.keys) && Find(s, tenant, r.keys) == None
    requires r.origin !in {"CUSTOMER", "API"} || !StringKeys(r.keys)
    ensures LookupOrCreate(s, tenant, r, newId, now) == (s, Err(InvalidCase))
  {
  }

  /** An attach changes nothing but the index: the case keeps its origin, channel and PO. */
  lemma AttachKeepsCases(s: Store, tenant: string, r: Intake, newId: string, now: int)
    requires Find(s, tenant, r.keys).Some? || SearchRaises(s, tenant, r.keys)
    ensures LookupOrCreate(s, tenant, r, newId, now).0.(index := s.index) == s
  {
  }

  // ----- update -------------------------------------------------------------

  /** The guards of `update`, in order; a refused update changes nothing. */
  lemma UpdateRefused(s: Store, id: string, p: CasePatch, who: Attribution, now: int)
    ensures var (s', res) := Update(s, id, p, who, now);
            if id !in s.cases then s' == s && res == Err(UnknownCase)
            else
              var c := s.cases[id];
              var status := if p.status == None then c.status else p.status.value;
              var supergroup := if p.supergroup == None then c.supergroup else p.supergroup.value;
              if supergroup != c.supergroup && (Unset(who.actor) || Unset(who.kind))
              then s' == s && res == Err(Unattributed)
              else if status == RESOLVED && supergroup == Some("SG_NEEDS_TRIAGE") then s' == s
                   && res == Err(CloseBlocked)
              else id in s'.cases && s'.cases[id].status == status && s'.cases[id].supergroup == supergroup
  {
  }

  predicate Refused(res: Result<(), Error>) {
    res == Err(UnknownCase) || res == Err(Unattributed) || res == Err(CloseBlocked)
  }

  /** An update that gets past them writes exactly the fields it was given, and the time. */
  lemma UpdateFields(s: Store, id: string, p: CasePatch, who: Attribution, now: int)
    requires !Refused(Update(s, id, p, who, now).1)
    ensures var s' := Update(s, id, p, who, now).0;
            && id in s.cases && id in s'.cases && OthersKept(s, s', id) && s'.order == s.order && s'.index == s.index
            && var c, c' := s.cases[id], s'.cases[id];
               && Becomes(p.status, c.status, c'.status) && Becomes(p.supergroup, c.supergroup, c'.supergroup)
               && Becomes(p.tier, c.tier, c'.tier) && Becomes(p.closedAt, c.closedAt, c'.closedAt)
               && Becomes(p.summary, c.summary, c'.summary) && Becomes(p.tenantId, c.tenantId, c'.tenantId)
               && Becomes(p.customerPo, c.customerPo, c'.customerPo) && Becomes(p.origin, c.origin, c'.origin)
               && Becomes(p.channel, c.channel, c'.channel) && Becomes(p.openedAt, c.openedAt, c'.openedAt)
               && Becomes(p.pendingOverride, c.pendingOverride, c'.pendingOverride)
               && c'.updatedAt == (if p.updatedAt == None then now else p.updatedAt.value) && c'.caseId == c.caseId
  {
  }

  /** And adds a row exactly when the supergroup changed, or raises if the row is not valid. */
  lemma UpdateRow(s: Store, id: string, p: CasePatch, who: Attribution, now: int)
    requires !Refused(Update(s, id, p, who, now).1)
    ensures var (s', res) := Update(s, id, p, who, now); var sg := s'.cases[id].supergroup;
            if sg == s.cases[id].supergroup then res == Ok(()) && s'.history == s.history
            else if !KnownClassifier(who.kind.value) then res == Err(InvalidEvent) && s'.history == s.history
            else res == Ok(()) && RowAdded(s, s', ClassificationEvent(id, None, if sg == None then "" else sg.value,
                                                                     who.intentCode, who.actor.value, who.kind.value))
  {
  }

  // ----- rows, overrides, keys, removal -------------------------------------

  /** A row is added for a known case, a known classifier type and, for a child, a supergroup. */
  lemma RecordedRow(s: Store, e: ClassificationEvent)
    ensures var (s', res) := RecordClassification(s, e);
            && s'.(history := s.history) == s
            && if e.caseId !in s.cases then s' == s && res == Err(UnknownCase)
               else if !KnownClassifier(e.classifierType) then s' == s && res == Err(InvalidEvent)
               else res == Ok(()) && RowAdded(s, s', e)
  {
  }

  lemma RecordedChildRow(s: Store, id: string, child: string, supergroup: Option<string>, intentCode: Option<string>,
                         actor: string, kind: string)
    ensures var (s', res) := RecordForChild(s, id, child, supergroup, intentCode, actor, kind);
            && s'.(history := s.history) == s
            && if id !in s.cases then s' == s && res == Err(UnknownCase)
               else if supergroup == None || !KnownClassifier(kind) then s' == s && res == Err(InvalidEvent)
               else res == Ok(())
                    && RowAdded(s, s', ClassificationEvent(id, Some(child), supergroup.value, intentCode, actor, kind))
  {
  }

  /** Staging waits for a human and is refused while another override is staged; lifting
      leaves the status, and staging again works. */
  lemma OverrideFields(s: Store, id: string, override: string, now: int, now': int)
    requires id in s.cases
    ensures var (s', res) := SetPendingOverride(s, id, override, now);
            var (s'', lifted) := ClearPendingOverride(s', id, now');
            if s.cases[id].pendingOverride.Some? then s' == s && res == Err(OverrideStaged)
            else && res == Ok(()) && lifted == Ok(()) && id in s'.cases && id in s''.cases
                 && OthersKept(s, s', id) && OthersKept(s, s'', id)
                 && s'.(cases := s.cases) == s && s''.(cases := s.cases) == s
                 && s'.cases[id] == s.cases[id].(pendingOverride := Some(override), status := OPEN_AWAITING_HUMAN,
                                                 updatedAt := now)
                 && s''.cases[id] == s.cases[id].(status := OPEN_AWAITING_HUMAN, updatedAt := now')
  {
  }

  /** One key more, whatever it named before. */
  lemma RegisteredKey(s: Store, tenant: string, id: string, kind: KeyKind, value: Json, k: Key)
    requires id in s.cases && !value.Compound?
    ensures var (s', res) := RegisterCorrelation(s, tenant, id, kind, value);
            && res == Ok(()) && s'.(index := s.index) == s
            && Resolve(s', k) == if k == Key(tenant, kind, value) then Some(id) else Resolve(s, k)
  {
  }

  /** Deleting takes out the case, its place in the order and every key that names it. */
  lemma DeletedFields(s: Store, at: nat, k: Key)
    requires WellFormed(s) && at < |s.order|
    ensures var id := s.order[at]; var s' := Delete(s, id);
            && id !in s'.cases && OthersKept(s, s', id) && s'.history == s.history
            && s'.order == s.order[..at] + s.order[at + 1..]
            && (k in s'.index <==> k in s.index && s.index[k] != id) && (k in s'.index ==> s'.index[k] == s.index[k])
  {
    var id, front, rest := s.order[at], s.order[..at], s.order[at + 1..];
    assert s.order == front + [id] + rest;
    assert [id][..0] == [];
    FilterMiddle(front, id, rest, NotId(id));
    FilterAll(front, NotId(id));
    FilterAll(rest, NotId(id));
  }

  /** Clearing keeps nothing but the history. */
  lemma ClearedFields(s: Store)
    ensures Clear(s) == Store(map[], [], map[], s.history)
  {
  }

  // ----- child records ------------------------------------------------------

  /** A created record goes last, with the caller's fields and the state its status maps to. */
  lemma CreatedFields(records: seq<ChildCase>, d: Draft, id: string, now: int)
    ensures var records' := Create(records, d, id, now);
            && |records'| == |records| + 1 && records'[..|records|] == records
            && var r := records'[|records|];
               && r.id == id && r.tenantId == d.tenantId && r.parentCaseId == d.parentCaseId
               && r.finalStatus == d.finalStatus && r.intent == d.intent && r.supergroup == d.supergroup
               && r.intentCode == d.intentCode && r.originalEvent == d.originalEvent
               && r.createdAt == now && r.updatedAt == now
               && r.lifecycle ==
                  if d.finalStatus in {Some(COMPLETE), Some(COMPLETE_WITH_CHILDREN)} then RESOLVED_RECORD
                  else if d.finalStatus in {Some(FAIL_TO_HUMAN), Some(AUDIT_CONTEXT_MISSING)} then FAILED_RECORD
                  else if d.finalStatus == Some(MANUAL_REVIEW_REQUIRED) then PENDING_REVIEW
                  else if d.finalStatus == Some(BLOCKED_STATUS) then BLOCKED_RECORD
                  else if d.finalStatus == Some(REJECTED_STATUS) then REJECTED_RECORD
                  else INGESTED
  {
  }

  /** The guards of a record update; a refused one, or one for another tenant's record,
      changes nothing. */
  lemma ChildUpdateRefused(records: seq<ChildCase>, s: Store, k: nat, tenant: string, p: RecordPatch, who: Attribution,
                           now: int)
    requires UniqueIds(records) && k < |records|
    ensures var r := records[k]; var (records', s', res) := UpdateRecord(records, s, r.id, tenant, p, who, now);
            var supergroup := if p.supergroup == None then r.supergroup else p.supergroup.value;
            var intentCode := if p.intentCode == None then r.intentCode else p.intentCode.value;
            if tenant != r.tenantId then (records', s', res) == (records, s, Ok(None))
            else if supergroup == None && r.supergroup != None
            then (records', s', res) == (records, s, Err(NullReclassification))
            else if (supergroup != r.supergroup || intentCode != r.intentCode)
                 && (Unset(who.actor) || Unset(who.kind))
            then (records', s', res) == (records, s, Err(Unattributed))
            else |records'| == |records| && records'[k].supergroup == supergroup && records'[k].intentCode == intentCode
  {
    PositionFinds(records, k);
  }

  predicate RefusedChild(res: Result<Option<ChildCase>, Error>) {
    res == Err(NullReclassification) || res == Err(Unattributed)
  }

  /** An update that gets past them writes exactly the fields it was given, and the time,
      of that record only. */
  lemma ChildUpdateFields(records: seq<ChildCase>, s: Store, k: nat, p: RecordPatch, who: Attribution, now: int)
    requires UniqueIds(records) && k < |records|
    requires !RefusedChild(UpdateRecord(records, s, records[k].id, records[k].tenantId, p, who, now).2)
    ensures var records' := UpdateRecord(records, s, records[k].id, records[k].tenantId, p, who, now).0;
            && |records'| == |records| && (forall i :: 0 <= i < |records| && i != k ==> records'[i] == records[i])
            && var r, r' := records[k], records'[k];
               && r'.id == r.id && r'.tenantId == r.tenantId && r'.updatedAt == now
               && Becomes(p.parentCaseId, r.parentCaseId, r'.parentCaseId)
                  && Becomes(p.lifecycle, r.lifecycle, r'.lifecycle)
               && Becomes(p.supergroup, r.supergroup, r'.supergroup)
                  && Becomes(p.intentCode, r.intentCode, r'.intentCode)
               && Becomes(p.finalStatus, r.finalStatus, r'.finalStatus) && Becomes(p.intent, r.intent, r'.intent)
               && Becomes(p.originalEvent, r.originalEvent, r'.originalEvent)
               && Becomes(p.createdAt, r.createdAt, r'.createdAt)
  {
    PositionFinds(records, k);
  }

  /** Its row goes to the new parent's history, with who reclassified the record; without a
      reclassification or a parent there is none. */
  lemma ChildUpdateRow(records: seq<ChildCase>, s: Store, k: nat, p: RecordPatch, who: Attribution, now: int)
    requires UniqueIds(records) && k < |records|
    requires !RefusedChild(UpdateRecord(records, s, records[k].id, records[k].tenantId, p, who, now).2)
    ensures var (records', s', res) := UpdateRecord(records, s, records[k].id, records[k].tenantId, p, who, now);
            && s'.(history := s.history) == s && |records'| == |records|
            && var r, r' := records[k], records'[k];
               if (r'.supergroup == r.supergroup && r'.intentCode == r.intentCode) || Unset(r'.parentCaseId)
               then s' == s && res == Ok(Some(r'))
               else if r'.parentCaseId.value !in s.cases then s' == s && res == Err(UnknownCase)
               else if r'.supergroup == None || !KnownClassifier(who.kind.value) then s' == s
                    && res == Err(InvalidEvent)
               else res == Ok(Some(r'))
                    && RowAdded(s, s', ClassificationEvent(r'.parentCaseId.value, Some(r.id), r'.supergroup.value,
                                                           r'.intentCode, who.actor.value, who.kind.value))
  {
    PositionFinds(records, k);
  }
}
