/** From an inbound event to its case (api/case_resolver.py): which keys and origin
    an event carries, and the materialise step of the persistence path. */
module EventIntake {
  import opened Wrappers
  import opened Model
  import opened Cases
  import opened CaseIndex
  import opened Children
  import opened RollUp
  import opened Text

  const MANUAL_TYPES := {"MANUAL_ORDER_INTAKE", "EMAIL_ORDER_ENTRY_REQUEST", "EMAIL_ORDER"}

  /** derive_origin_and_channel. */
  function OriginAndChannel(e: OrderEvent): (string, string) {
    if e.metaOrigin.Some? && e.metaChannel.Some? then (e.metaOrigin.value, e.metaChannel.value)
    else if UpperAll(e.eventType) in MANUAL_TYPES then ("CUSTOMER", "email")
    else ("API", "edi_x12_850")
  }

  /** The PO defaults to the event's order id. */
  function KeysOf(e: OrderEvent): Keys {
    Keys(e.metaSalesOrder, if Given(e.metaCustomerPo) then e.metaCustomerPo else Str(e.orderId),
         e.metaEdi, e.metaEmail)
  }

  function EventToIntake(e: OrderEvent, supergroup: Option<string>, intentCode: Option<string>,
                         classifiedBy: string, classifierType: string): Intake
  {
    var (origin, channel) := OriginAndChannel(e);
    Intake(KeysOf(e), origin, channel, supergroup, intentCode, classifiedBy, classifierType)
  }

  /** Which metadata becomes which key: three columns as they come, and the order id as the
      purchase order unless the event names one. */
  lemma EachKeyHasItsColumn(e: OrderEvent, supergroup: Option<string>, intentCode: Option<string>, actor: string,
                            kind: string)
    ensures var r := EventToIntake(e, supergroup, intentCode, actor, kind);
            && r.keys.salesOrder == e.metaSalesOrder && r.keys.edi == e.metaEdi && r.keys.email == e.metaEmail
            && (if Blank(e.metaCustomerPo) then r.keys.customerPo == Str(e.orderId)
                else r.keys.customerPo == e.metaCustomerPo)
            && r.supergroup == supergroup && r.intentCode == intentCode
            && r.classifiedBy == actor && r.classifierType == kind
  {
  }

  /** Where an event comes from: what its metadata says if it gives both as strings; otherwise
      a customer's email for the three manual types in any case, and the EDI feed for the rest. */
  lemma OriginOfEvent(e: OrderEvent, supergroup: Option<string>, intentCode: Option<string>, actor: string,
                      kind: string)
    ensures var r := EventToIntake(e, supergroup, intentCode, actor, kind);
            if e.metaOrigin.Some? && e.metaChannel.Some?
            then Some(r.origin) == e.metaOrigin && Some(r.channel) == e.metaChannel
            else if UpperAll(e.eventType) == "MANUAL_ORDER_INTAKE" || UpperAll(e.eventType) == "EMAIL_ORDER"
                    || UpperAll(e.eventType) == "EMAIL_ORDER_ENTRY_REQUEST"
            then r.origin == "CUSTOMER" && r.channel == "email"
            else r.origin == "API" && r.channel == "edi_x12_850"
  {
  }

  /** The websocket events materialise_for_event publishes. */
  datatype Signal = CaseOpen | CaseClose | CaseUpdate | SummaryChanged

  /** An opened case announces itself; an attach that moved the status has been
      announced by the roll-up, any other attach only refreshes the summary. */
  function SignalsFor(s: Store, id: string, isNew: bool, changed: bool): seq<Signal> {
    if isNew then [CaseOpen]
    else if !changed then [SummaryChanged]
    else if id in s.cases && Terminal(s.cases[id].status) then [CaseClose]
    else [CaseUpdate]
  }

  /** materialise_for_event: open or attach, roll the status up with the record that
      is about to be stored, and say which signals went out. */
  function Materialise(records: seq<ChildCase>, s: Store, tenant: string, r: Intake, finalStatus: Option<FinalStatus>,
                       newId: string, now: int): (Store, Result<(string, seq<Signal>), Error>)
  {
    var (s1, found) := LookupOrCreate(s, tenant, r, newId, now);
    if found.Err? then (s1, Err(found.error))
    else
      var (id, isNew) := found.value;
      var (s2, rolled) := Recompute(records, s1, tenant, id, Some(finalStatus), now);
      if rolled.Err? then (s2, Err(rolled.error))
      else (s2, Ok((id, SignalsFor(s2, id, isNew, rolled.value))))
  }

  lemma RecomputeKeepsIndexAndTable(records: seq<ChildCase>, s: Store, tenant: string, id: string,
                                    incoming: Option<Option<FinalStatus>>, now: int)
    ensures var s' := Recompute(records, s, tenant, id, incoming, now).0;
            s'.index == s.index && SameIdentity(s.cases, s'.cases)
            && (id in s.cases ==> s'.cases[id].pendingOverride == s.cases[id].pendingOverride)
  {
    var s' := Recompute(records, s, tenant, id, incoming, now).0;
    if s' != s {
      var c := s.cases[id];
      var st := Aggregate(records, tenant, id, incoming).value;
      UpdateEffect(s, id, StatusPatch(c, st, now), NOBODY, now);
      assert s'.cases == s.cases[id := Patched(c, StatusPatch(c, st, now), now)];
    }
  }

  /** The whole persistence path: after an event is materialised and its record
      created under the returned case, every key of the event resolves to that live
      case and, unless an override is staged, the case's status is exactly what its
      stored children aggregate to. */
  lemma MaterialiseThenCreate(records: seq<ChildCase>, s: Store, tenant: string, r: Intake, d: Draft,
                              newId: string, recordId: string, now: int, now': int, k: Key)
    requires IndexLive(s) && WellFormed(s) && FreshId(s, newId)
    requires Materialise(records, s, tenant, r, d.finalStatus, newId, now).1.Ok?
    requires d.tenantId == tenant
    requires d.parentCaseId == Some(Materialise(records, s, tenant, r, d.finalStatus, newId, now).1.value.0)
    ensures var (s', res) := Materialise(records, s, tenant, r, d.finalStatus, newId, now); var id := res.value.0;
            && id in s'.cases && s'.cases[id].tenantId == tenant
            && (k in AllGiven(tenant, r.keys) ==> Resolve(s', k) == Some(id))
            && (s'.cases[id].pendingOverride == None ==>
                  Aggregate(Create(records, d, recordId, now'), tenant, id, None) == Some(s'.cases[id].status))
  {
    var (s1, found) := LookupOrCreate(s, tenant, r, newId, now);
    var id := found.value.0;
    LookupRegistersKeys(s, tenant, r, newId, now, k);
    RecomputeKeepsIndexAndTable(records, s1, tenant, id, Some(d.finalStatus), now);
    if s1.cases[id].pendingOverride == None {
      RollUpCommutes(records, s1, d, recordId, id, now, now', now');
    }
  }

  /** Exactly one signal goes out per materialised event: the opening one if and only
      if a case was opened, a close if and only if an attach ended it, a mere change of
      summary if and only if an attach left the status alone, and an update otherwise. */
  lemma OneSignalPerEvent(records: seq<ChildCase>, s: Store, tenant: string, r: Intake,
                          finalStatus: Option<FinalStatus>,
                          newId: string, now: int)
    requires IndexLive(s) && WellFormed(s) && FreshId(s, newId)
    requires Materialise(records, s, tenant, r, finalStatus, newId, now).1.Ok?
    ensures var (s', res) := Materialise(records, s, tenant, r, finalStatus, newId, now);
            var (id, signals) := res.value;
            && |signals| == 1
            && (signals[0] == CaseOpen <==> id !in s.cases)
            && (signals[0] == CaseClose <==>
                  id in s.cases && id in s'.cases && s'.cases[id].status != s.cases[id].status
                    && s'.cases[id].status in {RESOLVED, FAILED, BLOCKED})
            && (signals[0] == SummaryChanged <==>
                  id in s.cases && id in s'.cases && s'.cases[id].status == s.cases[id].status)
  {
    var (s1, found) := LookupOrCreate(s, tenant, r, newId, now);
    var id := found.value.0;
    LookupOutcome(s, tenant, r, newId, now);
    FindIsFirstHit(s, tenant, r.keys);
    CommitEffect(s, tenant, r, Find(s, tenant, r.keys), newId, now);
    RecomputeKeepsIndexAndTable(records, s1, tenant, id, Some(finalStatus), now);
    RecomputeBlockedIff(records, s1, tenant, id, Some(finalStatus), now);
  }

  /** When the triage guard stops the roll-up, the event's keys have been registered,
      and a new case possibly opened, although the call raises. */
  lemma BlockedMaterialiseKeepsLookup(records: seq<ChildCase>, s: Store, tenant: string, r: Intake,
                                      finalStatus: Option<FinalStatus>, newId: string, now: int)
    requires IndexLive(s) && Materialise(records, s, tenant, r, finalStatus, newId, now).1 == Err(CloseBlocked)
    ensures Materialise(records, s, tenant, r, finalStatus, newId, now).0 == LookupOrCreate(s, tenant, r, newId, now).0
  {
    LookupOutcome(s, tenant, r, newId, now);
    var (s1, found) := LookupOrCreate(s, tenant, r, newId, now);
    RecomputeBlockedIff(records, s1, tenant, found.value.0, Some(finalStatus), now);
  }
}
