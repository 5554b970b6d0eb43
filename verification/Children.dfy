/** Creating and updating child records (`ExceptionStore.create` and `.update`), with
    the history rows that updates leave on the parent case. */
module Children {
  import opened Wrappers
  import opened Model
  import opened Records
  import opened Cases
  import opened CaseHistory

  /** What a caller of `create` supplies. */
  datatype Draft = Draft(tenantId: string, parentCaseId: Option<string>, finalStatus: Option<FinalStatus>,
                         intent: Option<string>, supergroup: Option<string>, intentCode: Option<string>,
                         originalEvent: Payload)

  function NewRecord(d: Draft, id: string, now: int): ChildCase {
    ChildCase(id, d.tenantId, d.parentCaseId, LifecycleOf(d.finalStatus), d.finalStatus, d.intent,
              d.supergroup, d.intentCode, d.originalEvent, now, now)
  }

  /** ExceptionStore.create. */
  function Create(records: seq<ChildCase>, d: Draft, id: string, now: int): seq<ChildCase> {
    records + [NewRecord(d, id, now)]
  }

  /** The fields `update` can set; `updated_at` is overwritten afterwards in any case. */
  datatype RecordPatch = RecordPatch(parentCaseId: Option<Option<string>>, lifecycle: Option<Lifecycle>,
                                     supergroup: Option<Option<string>>, intentCode: Option<Option<string>>,
                                     finalStatus: Option<Option<FinalStatus>>, intent: Option<Option<string>>,
                                     originalEvent: Option<Payload>, createdAt: Option<int>)

  const NO_CHANGE := RecordPatch(None, None, None, None, None, None, None, None)

  function PatchedRecord(r: ChildCase, p: RecordPatch, now: int): ChildCase {
    r.(parentCaseId := Or(p.parentCaseId, r.parentCaseId), lifecycle := Or(p.lifecycle, r.lifecycle),
       supergroup := Or(p.supergroup, r.supergroup), intentCode := Or(p.intentCode, r.intentCode),
       finalStatus := Or(p.finalStatus, r.finalStatus), intent := Or(p.intent, r.intent),
       originalEvent := Or(p.originalEvent, r.originalEvent), createdAt := Or(p.createdAt, r.createdAt),
       updatedAt := now)
  }

  function Reclassifies(r: ChildCase, p: RecordPatch): bool {
    Or(p.supergroup, r.supergroup) != r.supergroup || Or(p.intentCode, r.intentCode) != r.intentCode
  }

  /** ExceptionStore.update: the record is written before the parent's history row. */
  function UpdateRecord(records: seq<ChildCase>, s: Store, id: string, tenant: string, p: RecordPatch,
                        who: Attribution, now: int): (seq<ChildCase>, Store, Result<Option<ChildCase>, Error>)
  {
    match Position(records, id)
    case None => (records, s, Ok(None))
    case Some(k) =>
      PositionSound(records, id);
      var r := records[k];
      if r.tenantId != tenant then (records, s, Ok(None))
      else if p.supergroup == Some(None) && r.supergroup != None then (records, s, Err(NullReclassification))
      else if Reclassifies(r, p) && !(Truthy(who.actor) && Truthy(who.kind)) then (records, s, Err(Unattributed))
      else
        var r' := PatchedRecord(r, p, now);
        var records' := records[k := r'];
        if Reclassifies(r, p) && Truthy(r'.parentCaseId) then
          var (s', res) := RecordForChild(s, r'.parentCaseId.value, id, r'.supergroup, r'.intentCode,
                                          who.actor.value, who.kind.value);
          (records', s', if res.Err? then Err(res.error) else Ok(Some(r')))
        else (records', s, Ok(Some(r')))
  }

  lemma UpdateKeepsUnique(records: seq<ChildCase>, k: nat, r': ChildCase)
    requires UniqueIds(records) && k < |records| && r'.id == records[k].id
    ensures UniqueIds(records[k := r']) && Ids(records[k := r']) == Ids(records)
  {
    var records' := records[k := r'];
    forall i | 0 <= i < |records| ensures records'[i].id == records[i].id {
    }
    assert records[k] in records && records'[k] in records';
    forall x | x in Ids(records') ensures x in Ids(records) {
      var i :| 0 <= i < |records'| && records'[i].id == x;
      assert records[i] in records;
    }
    forall x | x in Ids(records) ensures x in Ids(records') {
      var i :| 0 <= i < |records| && records[i].id == x;
      assert records'[i] in records';
    }
  }

  /** A child update appends at most one row, marked with the child, to the new
      parent's history, and leaves every case and every other history alone. */
  lemma ChildUpdateTouchesOneHistory(records: seq<ChildCase>, s: Store, id: string, tenant: string, p: RecordPatch,
                                     who: Attribution, now: int, other: string)
    ensures var (records', s', res) := UpdateRecord(records, s, id, tenant, p, who, now);
            && s'.cases == s.cases && s'.order == s.order && s'.index == s.index
            && (History(s', other) == History(s, other)
                || exists r, e :: r in records' && r.id == id && r.parentCaseId == Some(other)
                                  && History(s', other) == History(s, other) + [e]
                                  && e.childCaseId == Some(id) && Some(e.supergroup) == r.supergroup
                                     && e.intentCode == r.intentCode)
  {
    var (records', s', res) := UpdateRecord(records, s, id, tenant, p, who, now);
    if s' != s {
      var k := Position(records, id).value;
      PositionSound(records, id);
      var r' := PatchedRecord(records[k], p, now);
      assert records'[k] == r' && r' in records';
      var e := ClassificationEvent(r'.parentCaseId.value, Some(id), r'.supergroup.value, r'.intentCode,
                                   who.actor.value, who.kind.value);
      assert s' == Record(s, e);
      if other == e.caseId {
        assert History(s', other) == History(s, other) + [e];
      } else {
        assert History(s', other) == History(s, other);
      }
    }
  }

  /** An attributed reclassification under a live parent adds exactly one child row
      if and only if the record ends with a supergroup and the classifier type is
      valid; otherwise it raises after the record has already been changed. */
  lemma ReclassificationRecordedIff(records: seq<ChildCase>, s: Store, k: nat, p: RecordPatch, who: Attribution,
                                    now: int)
    requires UniqueIds(records) && k < |records|
    requires p.supergroup == Some(None) ==> records[k].supergroup == None
    requires Reclassifies(records[k], p) && Truthy(who.actor) && Truthy(who.kind)
    requires var parent := PatchedRecord(records[k], p, now).parentCaseId; Truthy(parent) && parent.value in s.cases
    ensures var r := records[k]; var r' := PatchedRecord(r, p, now); var case' := r'.parentCaseId.value;
            var (records', s', res) := UpdateRecord(records, s, r.id, r.tenantId, p, who, now);
            && records' == records[k := r']
            && (res.Ok? <==> r'.supergroup.Some? && ValidClassifier(who.kind.value))
            && (res.Ok? ==> |History(s', case')| == |History(s, case')| + 1 && History(s, case') < History(s', case')
                            && History(s', case')[|History(s, case')|].childCaseId == Some(r.id))
            && (res.Err? ==> s' == s && records' != records)
  {
    var r := records[k];
    var r' := PatchedRecord(r, p, now);
    PositionFinds(records, k);
    assert records[k := r'][k] != records[k];
  }

  /** The update is accepted for writing, reclassifies a record with a parent, and the
      parent's history row cannot be written: the parent is gone, the record has no
      supergroup, or the classifier type is unknown. */
  predicate DirtyUpdate(r: ChildCase, s: Store, p: RecordPatch, who: Attribution) {
    && !(p.supergroup == Some(None) && r.supergroup != None)
    && Reclassifies(r, p) && Truthy(who.actor) && Truthy(who.kind)
    && var parent := Or(p.parentCaseId, r.parentCaseId);
       && Truthy(parent)
       && (parent.value !in s.cases || Or(p.supergroup, r.supergroup) == None || !ValidClassifier(who.kind.value))
  }

  /** An update both raises and changes the record if and only if it is dirty, which its
      caller can tell beforehand; no raising update changes the case store. */
  lemma UpdateRaisesDirtyIff(records: seq<ChildCase>, s: Store, k: nat, p: RecordPatch, who: Attribution, now: int)
    requires UniqueIds(records) && k < |records|
    ensures var (records', s', res) := UpdateRecord(records, s, records[k].id, records[k].tenantId, p, who, now);
            && (res.Err? && records' != records <==> DirtyUpdate(records[k], s, p, who))
            && (res.Err? ==> s' == s)
  {
    PositionFinds(records, k);
    var r' := PatchedRecord(records[k], p, now);
    assert records[k := r'][k] == r';
  }

  /** A record whose parent is gone: reclassifying it raises, and changes it. */
  lemma UpdateIsNotClean(id: string, tenant: string, parent: string, now: int)
    requires id != "" && parent != ""
    ensures var r := NewRecord(Draft(tenant, Some(parent), None, None, None, None, Missing), id, now);
            var p := NO_CHANGE.(supergroup := Some(Some("SG_NEW_ORDER")));
            var (records', s', res) := UpdateRecord([r], EMPTY, id, tenant, p,
                                                    Attribution(Some("ann"), Some("HUMAN"), None), now);
            res == Err(UnknownCase) && |records'| == 1 && records'[0].supergroup == Some("SG_NEW_ORDER")
  {
    var r := NewRecord(Draft(tenant, Some(parent), None, None, None, None, Missing), id, now);
    assert UniqueIds([r]) && [r][0].id == id;
    PositionFinds([r], 0);
  }

  /** Child updates never disturb the case-level explanation. */
  lemma ChildUpdateKeepsExplained(records: seq<ChildCase>, s: Store, id: string, tenant: string, p: RecordPatch,
                                  who: Attribution, now: int)
    requires Explained(s)
    ensures Explained(UpdateRecord(records, s, id, tenant, p, who, now).1)
  {
    var s' := UpdateRecord(records, s, id, tenant, p, who, now).1;
    if s' != s {
      var k := Position(records, id).value;
      PositionSound(records, id);
      var r' := PatchedRecord(records[k], p, now);
      var op := ChildOp(r'.parentCaseId.value, id, r'.supergroup, r'.intentCode, who.actor.value, who.kind.value);
      StepKeepsExplainedIff(s, op);
    }
  }
}
