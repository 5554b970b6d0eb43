/**
 The in-memory `CaseStore` (api/store.py) as functions on its state: the case
 table, the correlation index, the classification history, and every operation
 on them. Each operation returns the state it leaves, also when it raises.
 */
module Cases {
  import opened Wrappers
  import opened Sequences
  import opened Model

  /** The key types an event's identifiers register under; `register_correlation` takes any string. */
  datatype KeyKind = SALES_ORDER | CUSTOMER_PO | EDI_TXN | SOURCE_EMAIL | OTHER(name: string)

  datatype Key = Key(tenant: string, kind: KeyKind, value: Json)

  /** The correlation identifiers an event may carry. */
  datatype Keys = Keys(salesOrder: Json, customerPo: Json, edi: Json, email: Json)

  /** `order` is the insertion order of the case dict. */
  datatype Store = Store(cases: map<string, OrderCase>, order: seq<string>,
                         index: map<Key, string>, history: map<string, seq<ClassificationEvent>>)

  const EMPTY := Store(map[], [], map[], map[])

  /** The exceptions the operations raise. */
  datatype Error =
    | UnknownCase | Unattributed | CloseBlocked | OverrideStaged
    | InvalidCase | InvalidEvent | NullReclassification | Unhashable

  function History(s: Store, id: string): seq<ClassificationEvent> {
    if id in s.history then s.history[id] else []
  }

  // ----- correlation --------------------------------------------------------

  function One(tenant: string, kind: KeyKind, value: Json): seq<Key> {
    if Given(value) then [Key(tenant, kind, value)] else []
  }

  /** The non-empty keys, in resolution priority order. */
  function AllGiven(tenant: string, keys: Keys): seq<Key> {
    One(tenant, SALES_ORDER, keys.salesOrder) + One(tenant, CUSTOMER_PO, keys.customerPo)
    + One(tenant, EDI_TXN, keys.edi) + One(tenant, SOURCE_EMAIL, keys.email)
  }

  /** The keys a loop gets through before one that cannot be hashed stops it. */
  function Hashed(ks: seq<Key>): seq<Key> {
    if ks == [] || !Hashable(ks[0].value) then [] else [ks[0]] + Hashed(ks[1..])
  }

  function Supplied(tenant: string, keys: Keys): seq<Key> {
    Hashed(AllGiven(tenant, keys))
  }

  /** Some non-empty key cannot be hashed. */
  predicate Unkeyable(keys: Keys) {
    || (Given(keys.salesOrder) && !Hashable(keys.salesOrder)) || (Given(keys.customerPo) && !Hashable(keys.customerPo))
    || (Given(keys.edi) && !Hashable(keys.edi)) || (Given(keys.email) && !Hashable(keys.email))
  }

  /** The keys are what a case's string fields accept. */
  predicate TextualKeys(keys: Keys) {
    Textual(keys.salesOrder) && Textual(keys.customerPo) && Textual(keys.edi) && Textual(keys.email)
  }

  lemma {:induction false} HashedAll(ks: seq<Key>)
    ensures Hashed(ks) == ks <==> forall k :: k in ks ==> Hashable(k.value)
    ensures forall k :: k in Hashed(ks) ==> k in ks && Hashable(k.value)
  {
    if ks != [] {
      HashedAll(ks[1..]);
      assert ks == [ks[0]] + ks[1..];
    }
  }

  /** Every non-empty key is looked up and registered exactly when all can be hashed. */
  lemma SuppliedIsAllGiven(tenant: string, keys: Keys)
    ensures Supplied(tenant, keys) == AllGiven(tenant, keys) <==> !Unkeyable(keys)
  {
    var so, po := One(tenant, SALES_ORDER, keys.salesOrder), One(tenant, CUSTOMER_PO, keys.customerPo);
    var edi, email := One(tenant, EDI_TXN, keys.edi), One(tenant, SOURCE_EMAIL, keys.email);
    HashedAll(AllGiven(tenant, keys));
    assert forall k :: k in AllGiven(tenant, keys) <==> k in so || k in po || k in edi || k in email;
    assert Given(keys.salesOrder) ==> Key(tenant, SALES_ORDER, keys.salesOrder) in so;
    assert Given(keys.customerPo) ==> Key(tenant, CUSTOMER_PO, keys.customerPo) in po;
    assert Given(keys.edi) ==> Key(tenant, EDI_TXN, keys.edi) in edi;
    assert Given(keys.email) ==> Key(tenant, SOURCE_EMAIL, keys.email) in email;
  }

  lemma PoOnly(tenant: string, po: string)
    requires po != ""
    ensures Supplied(tenant, Keys(NoValue, Str(po), NoValue, NoValue)) == [Key(tenant, CUSTOMER_PO, Str(po))]
  {
    var ks := [Key(tenant, CUSTOMER_PO, Str(po))];
    assert AllGiven(tenant, Keys(NoValue, Str(po), NoValue, NoValue)) == ks;
    assert ks[1..] == [] && Hashed(ks) == ks;
  }

  /** The case id of the first key that is registered. */
  function FirstHit(index: map<Key, string>, ks: seq<Key>): Option<string> {
    if ks == [] then None
    else if ks[0] in index then Some(index[ks[0]])
    else FirstHit(index, ks[1..])
  }

  /** find_by_correlation: the first hit decides, even if its case is gone. */
  function Find(s: Store, tenant: string, keys: Keys): Option<string> {
    match FirstHit(s.index, Supplied(tenant, keys))
    case None => None
    case Some(id) => if id in s.cases then Some(id) else None
  }

  lemma HashedNext(first: seq<Key>, rest: seq<Key>)
    requires |first| <= 1
    ensures Hashed(first + rest) ==
              if first == [] then Hashed(rest) else if Hashable(first[0].value) then first + Hashed(rest) else []
  {
    if first == [] {
      assert first + rest == rest;
    } else {
      assert (first + rest)[1..] == rest && first == [first[0]];
    }
  }

  lemma FirstHitSkips(index: map<Key, string>, miss: seq<Key>, rest: seq<Key>)
    requires |miss| <= 1 && forall k :: k in miss ==> k !in index
    ensures FirstHit(index, miss + rest) == FirstHit(index, rest)
  {
    if miss == [] {
      assert miss + rest == rest;
    } else {
      assert miss[0] in miss && (miss + rest)[1..] == rest;
    }
  }

  /** One column of the search: a miss goes on to the rest, a hit or an unhashable key ends it. */
  lemma SearchNext(index: map<Key, string>, tenant: string, kind: KeyKind, value: Json, rest: seq<Key>)
    ensures var all := One(tenant, kind, value) + rest; var key := Key(tenant, kind, value);
            && (!Given(value) ==> all == rest)
            && (Given(value) && !Hashable(value) ==> Hashed(all) == [])
            && (Given(value) && Hashable(value) && key in index ==> FirstHit(index, Hashed(all)) == Some(index[key]))
            && (Given(value) && Hashable(value) && key !in index ==>
                  FirstHit(index, Hashed(all)) == FirstHit(index, Hashed(rest)))
  {
    var one := One(tenant, kind, value);
    HashedNext(one, rest);
    if Given(value) && Hashable(value) && Key(tenant, kind, value) !in index {
      FirstHitSkips(index, one, Hashed(rest));
    }
  }

  /** Some key from here on is a list or object. */
  predicate SomeUnhashable(ks: seq<Key>) {
    exists k :: k in ks && !Hashable(k.value)
  }

  lemma UnhashableIsUnkeyable(tenant: string, keys: Keys)
    ensures SomeUnhashable(AllGiven(tenant, keys)) <==> Unkeyable(keys)
  {
    HashedAll(AllGiven(tenant, keys));
    SuppliedIsAllGiven(tenant, keys);
  }

  /** _register_correlations_locked: every supplied key now names `id`. */
  function Register(index: map<Key, string>, ks: seq<Key>, id: string): map<Key, string> {
    index + map k | k in ks :: id
  }

  // ----- lookup_or_create ---------------------------------------------------

  datatype Intake = Intake(keys: Keys, origin: string, channel: string, supergroup: Option<string>,
                           intentCode: Option<string>, classifiedBy: string, classifierType: string)

  predicate ValidOrigin(origin: string) {
    origin == "CUSTOMER" || origin == "API"
  }

  /** What the case model accepts of an intake. */
  predicate ValidIntake(r: Intake) {
    ValidOrigin(r.origin) && TextualKeys(r.keys)
  }

  predicate ValidClassifier(kind: string) {
    kind == "HUMAN" || kind == "MODEL" || kind == "RULE"
  }

  function NewCase(tenant: string, r: Intake, id: string, now: int): OrderCase {
    OrderCase(id, tenant, r.origin, r.channel, r.supergroup, TextOf(r.keys.customerPo),
              now, None, now, OPEN_AGENT_PROCESSING, 2, None, None)
  }

  function Record(s: Store, e: ClassificationEvent): Store {
    s.(history := s.history[e.caseId := History(s, e.caseId) + [e]])
  }

  function InsertCase(s: Store, c: OrderCase): Store {
    s.(cases := s.cases[c.caseId := c], order := s.order + [c.caseId])
  }

  /** The write section of lookup_or_create, given what its find section saw. */
  function Commit(s: Store, tenant: string, r: Intake, found: Option<string>, newId: string, now: int)
    : (Store, Result<(string, bool), Error>)
  {
    var ks := Supplied(tenant, r.keys);
    match found
    case Some(id) => (s.(index := Register(s.index, ks, id)), if Unkeyable(r.keys) then Err(Unhashable)
                      else Ok((id, false)))
    case None =>
      if !ValidIntake(r) then (s, Err(InvalidCase))
      else
        var withCase := InsertCase(s, NewCase(tenant, r, newId, now)).(index := Register(s.index, ks, newId));
        if r.supergroup == None then (withCase, Ok((newId, true)))
        else if !ValidClassifier(r.classifierType) then (withCase, Err(InvalidEvent))
        else
          var e := ClassificationEvent(newId, None, r.supergroup.value, r.intentCode, r.classifiedBy, r.classifierType);
          (Record(withCase, e), Ok((newId, true)))
  }

  /** The search comes to a key it cannot hash before it finds one. */
  predicate SearchRaises(s: Store, tenant: string, keys: Keys) {
    FirstHit(s.index, Supplied(tenant, keys)) == None && Unkeyable(keys)
  }

  /** lookup_or_create as one atomic step. A search that raises changes nothing, as does the
      write section for what it saw. */
  function LookupOrCreate(s: Store, tenant: string, r: Intake, newId: string, now: int)
    : (Store, Result<(string, bool), Error>)
  {
    var (s', res) := Commit(s, tenant, r, Find(s, tenant, r.keys), newId, now);
    (s', if SearchRaises(s, tenant, r.keys) then Err(Unhashable) else res)
  }

  // ----- other operations ---------------------------------------------------

  function RegisterCorrelation(s: Store, tenant: string, id: string, kind: KeyKind, value: Json)
    : (Store, Result<(), Error>)
  {
    if id !in s.cases then (s, Err(UnknownCase))
    else if !Hashable(value) then (s, Err(Unhashable))
    else (s.(index := s.index[Key(tenant, kind, value) := id]), Ok(()))
  }

  /** Every field `update` can copy in; None leaves a field alone. */
  datatype CasePatch = CasePatch(status: Option<CaseStatus>, supergroup: Option<Option<string>>,
                                 tier: Option<int>, closedAt: Option<Option<int>>,
                                 summary: Option<Option<string>>, updatedAt: Option<int>,
                                 tenantId: Option<string>, customerPo: Option<Option<string>>,
                                 origin: Option<string>, channel: Option<string>,
                                 openedAt: Option<int>, pendingOverride: Option<Option<string>>)

  const NO_FIELDS := CasePatch(None, None, None, None, None, None, None, None, None, None, None, None)

  datatype Attribution = Attribution(actor: Option<string>, kind: Option<string>, intentCode: Option<string>)

  function Or<T>(change: Option<T>, current: T): T {
    if change.Some? then change.value else current
  }

  function Patched(c: OrderCase, p: CasePatch, now: int): OrderCase {
    c.(status := Or(p.status, c.status), supergroup := Or(p.supergroup, c.supergroup),
       tier := Or(p.tier, c.tier), closedAt := Or(p.closedAt, c.closedAt),
       summary := Or(p.summary, c.summary), updatedAt := Or(p.updatedAt, now),
       tenantId := Or(p.tenantId, c.tenantId), customerPo := Or(p.customerPo, c.customerPo),
       origin := Or(p.origin, c.origin), channel := Or(p.channel, c.channel),
       openedAt := Or(p.openedAt, c.openedAt), pendingOverride := Or(p.pendingOverride, c.pendingOverride))
  }

  function Update(s: Store, id: string, p: CasePatch, who: Attribution, now: int): (Store, Result<(), Error>) {
    if id !in s.cases then (s, Err(UnknownCase))
    else
      var c := s.cases[id];
      var next := Patched(c, p, now);
      var reclassified := next.supergroup != c.supergroup;
      if reclassified && !(Truthy(who.actor) && Truthy(who.kind)) then (s, Err(Unattributed))
      else if next.status == RESOLVED && next.supergroup == Some(NEEDS_TRIAGE) then (s, Err(CloseBlocked))
      else
        var s' := s.(cases := s.cases[id := next]);
        if !reclassified then (s', Ok(()))
        else if !ValidClassifier(who.kind.value) then (s', Err(InvalidEvent))
        else
          var e := ClassificationEvent(id, None, if next.supergroup.Some? then next.supergroup.value else "",
                                       who.intentCode, who.actor.value, who.kind.value);
          (Record(s', e), Ok(()))
  }

  /** record_classification. */
  function RecordClassification(s: Store, e: ClassificationEvent): (Store, Result<(), Error>) {
    if e.caseId !in s.cases then (s, Err(UnknownCase))
    else if !ValidClassifier(e.classifierType) then (s, Err(InvalidEvent))
    else (Record(s, e), Ok(()))
  }

  /** _record_for_child: a history row must name a supergroup. */
  function RecordForChild(s: Store, id: string, child: string, supergroup: Option<string>,
                          intentCode: Option<string>, actor: string, kind: string): (Store, Result<(), Error>)
  {
    if id !in s.cases then (s, Err(UnknownCase))
    else if supergroup == None then (s, Err(InvalidEvent))
    else RecordClassification(s, ClassificationEvent(id, Some(child), supergroup.value, intentCode, actor, kind))
  }

  function SetPendingOverride(s: Store, id: string, override: string, now: int): (Store, Result<(), Error>) {
    if id !in s.cases then (s, Err(UnknownCase))
    else if s.cases[id].pendingOverride.Some? then (s, Err(OverrideStaged))
    else (s.(cases := s.cases[id := s.cases[id].(pendingOverride := Some(override),
                                                 status := OPEN_AWAITING_HUMAN, updatedAt := now)]), Ok(()))
  }

  function ClearPendingOverride(s: Store, id: string, now: int): (Store, Result<(), Error>) {
    if id !in s.cases then (s, Err(UnknownCase))
    else (s.(cases := s.cases[id := s.cases[id].(pendingOverride := None, updatedAt := now)]), Ok(()))
  }

  function NotId(id: string): string -> bool {
    (x: string) => x != id
  }

  function Delete(s: Store, id: string): Store {
    s.(cases := s.cases - {id}, order := Filter(s.order, NotId(id)),
       index := map k | k in s.index && s.index[k] != id :: s.index[k])
  }

  /** clear(): the history survives. */
  function Clear(s: Store): Store {
    s.(cases := map[], order := [], index := map[])
  }

  // ----- runs ---------------------------------------------------------------

  datatype Op =
    | LookupOp(tenant: string, intake: Intake, newId: string, now: int)
    | RegisterOp(tenant: string, id: string, kind: KeyKind, value: Json)
    | UpdateOp(id: string, patch: CasePatch, who: Attribution, now: int)
    | RecordOp(event: ClassificationEvent)
    | ChildOp(id: string, child: string, supergroup: Option<string>, intentCode: Option<string>, actor: string,
              kindOf: string)
    | OverrideOp(id: string, override: string, now: int)
    | LiftOp(id: string, now: int)
    | DeleteOp(id: string)
    | ClearOp

  /** The state after one call, and the exception it raised, if any. */
  function Apply(s: Store, op: Op): (Store, Option<Error>) {
    match op
    case LookupOp(t, r, newId, now) => var (s', res) := LookupOrCreate(s, t, r, newId, now); (s', Raised(res))
    case RegisterOp(t, id, kind, v) => var (s', res) := RegisterCorrelation(s, t, id, kind, v); (s', Raised(res))
    case UpdateOp(id, p, who, now) => var (s', res) := Update(s, id, p, who, now); (s', Raised(res))
    case RecordOp(e) => var (s', res) := RecordClassification(s, e); (s', Raised(res))
    case ChildOp(id, child, sg, code, actor, kind) =>
      var (s', res) := RecordForChild(s, id, child, sg, code, actor, kind); (s', Raised(res))
    case OverrideOp(id, o, now) => var (s', res) := SetPendingOverride(s, id, o, now); (s', Raised(res))
    case LiftOp(id, now) => var (s', res) := ClearPendingOverride(s, id, now); (s', Raised(res))
    case DeleteOp(id) => (Delete(s, id), None)
    case ClearOp => (Clear(s), None)
  }

  function Raised<T>(r: Result<T, Error>): Option<Error> {
    match r case Ok(_) => None case Err(e) => Some(e)
  }

  function Step(s: Store, op: Op): Store {
    Apply(s, op).0
  }

  function Run(s: Store, ops: seq<Op>): Store {
    if ops == [] then s else Step(Run(s, ops[..|ops| - 1]), ops[|ops| - 1])
  }

  /** uuid4() never repeats an id: not of a live case, nor of one with a history. */
  predicate FreshId(s: Store, id: string) {
    id !in s.cases && id !in s.history && id !in s.order
  }

  predicate Admissible(s: Store, op: Op) {
    op.LookupOp? ==> FreshId(s, op.newId)
  }

  ghost predicate AdmissibleRun(s: Store, ops: seq<Op>) {
    forall i :: 0 <= i < |ops| ==> Admissible(Run(s, ops[..i]), ops[i])
  }

  /** The two dict views agree: same ids, no duplicates, each case under its own id. */
  ghost predicate WellFormed(s: Store) {
    && (forall id :: id in s.order <==> id in s.cases)
    && Distinct(s.order)
    && (forall id :: id in s.cases ==> s.cases[id].caseId == id)
  }

  lemma {:induction false} FilterKeepsDistinct(s: seq<string>, p: string -> bool)
    requires Distinct(s)
    ensures Distinct(Filter(s, p))
  {
    if s != [] {
      var front, last := s[..|s| - 1], s[|s| - 1];
      FilterKeepsDistinct(front, p);
      FilterMember(front, p, last);
    }
  }

  /** What the write section does to the case table and the index. */
  lemma CommitEffect(s: Store, tenant: string, r: Intake, found: Option<string>, newId: string, now: int)
    ensures var s' := Commit(s, tenant, r, found, newId, now).0; var ks := Supplied(tenant, r.keys);
            if found.Some? then s' == s.(index := Register(s.index, ks, found.value))
            else if !ValidIntake(r) then s' == s
            else && s'.cases == s.cases[newId := NewCase(tenant, r, newId, now)]
                 && s'.order == s.order + [newId]
                 && s'.index == Register(s.index, ks, newId)
  {
  }

  lemma InsertKeepsWellFormed(s: Store, s': Store, c: OrderCase)
    requires WellFormed(s) && c.caseId !in s.order
    requires s'.cases == s.cases[c.caseId := c] && s'.order == s.order + [c.caseId]
    ensures WellFormed(s')
  {
  }

  lemma DeleteKeepsWellFormed(s: Store, id: string)
    requires WellFormed(s)
    ensures WellFormed(Delete(s, id))
  {
    FilterKeepsDistinct(s.order, NotId(id));
    forall x ensures x in Filter(s.order, NotId(id)) <==> x in s.order && x != id {
      FilterMember(s.order, NotId(id), x);
    }
  }

  /** Same cases, each with the id, tenant and purchase order it was opened with. */
  ghost predicate SameIdentity(before: map<string, OrderCase>, after: map<string, OrderCase>) {
    && before.Keys == after.Keys
    && forall id :: id in before ==>
         after[id].caseId == before[id].caseId && after[id].tenantId == before[id].tenantId
         && after[id].customerPo == before[id].customerPo
  }

  predicate Regroups(c: OrderCase, p: CasePatch) {
    Or(p.supergroup, c.supergroup) != c.supergroup
  }

  /** The update gets past its guards and writes the case. */
  predicate Writes(s: Store, id: string, p: CasePatch, who: Attribution) {
    && id in s.cases
    && (Regroups(s.cases[id], p) ==> Truthy(who.actor) && Truthy(who.kind))
    && !(Or(p.status, s.cases[id].status) == RESOLVED && Or(p.supergroup, s.cases[id].supergroup) == Some(NEEDS_TRIAGE))
  }

  lemma UpdateEffect(s: Store, id: string, p: CasePatch, who: Attribution, now: int)
    ensures var s' := Update(s, id, p, who, now).0;
            && s'.order == s.order && s'.index == s.index
            && (Writes(s, id, p, who) ==> s'.cases == s.cases[id := Patched(s.cases[id], p, now)])
            && (!Writes(s, id, p, who) ==> s' == s)
  {
  }

  lemma OverrideEffect(s: Store, id: string, override: string, now: int)
    ensures SameIdentity(s.cases, SetPendingOverride(s, id, override, now).0.cases)
    ensures SameIdentity(s.cases, ClearPendingOverride(s, id, now).0.cases)
  {
    if id in s.cases {
      OneRowKeepsIdentity(s.cases, id, s.cases[id].(pendingOverride := Some(override), status := OPEN_AWAITING_HUMAN,
                                                    updatedAt := now));
      OneRowKeepsIdentity(s.cases, id, s.cases[id].(pendingOverride := None, updatedAt := now));
    }
  }

  lemma OneRowKeepsIdentity(cases: map<string, OrderCase>, id: string, c: OrderCase)
    requires id in cases && c.caseId == cases[id].caseId && c.tenantId == cases[id].tenantId
    requires c.customerPo == cases[id].customerPo
    ensures SameIdentity(cases, cases[id := c])
  {
  }

  /** The update gives a case another tenant or purchase order. */
  predicate Readdresses(s: Store, op: Op) {
    && op.UpdateOp? && Writes(s, op.id, op.patch, op.who)
    && (|| Or(op.patch.tenantId, s.cases[op.id].tenantId) != s.cases[op.id].tenantId
        || Or(op.patch.customerPo, s.cases[op.id].customerPo) != s.cases[op.id].customerPo)
  }

  predicate Structural(op: Op) {
    op.LookupOp? || op.DeleteOp? || op.ClearOp?
  }

  ghost predicate SameCaseIds(before: map<string, OrderCase>, after: map<string, OrderCase>) {
    before.Keys == after.Keys && forall id :: id in before ==> after[id].caseId == before[id].caseId
  }

  lemma UpdateKeepsIdentityIff(s: Store, id: string, p: CasePatch, who: Attribution, now: int)
    ensures var s' := Update(s, id, p, who, now).0;
            && SameCaseIds(s.cases, s'.cases) && s'.order == s.order && s'.index == s.index
            && (SameIdentity(s.cases, s'.cases) <==> !Readdresses(s, UpdateOp(id, p, who, now)))
  {
    UpdateEffect(s, id, p, who, now);
  }

  lemma TrailKeepsCases(s: Store, op: Op)
    requires op.RegisterOp? || op.RecordOp? || op.ChildOp?
    ensures Step(s, op).cases == s.cases && Step(s, op).order == s.order
    ensures !op.RegisterOp? ==> Step(s, op).index == s.index
  {
  }

  /** Apart from opening, deleting and clearing, the set of cases never changes, and
      their tenant and purchase order change exactly when an update says so. */
  lemma StepKeepsIdentityIff(s: Store, op: Op)
    requires !Structural(op)
    ensures SameCaseIds(s.cases, Step(s, op).cases) && Step(s, op).order == s.order
    ensures SameIdentity(s.cases, Step(s, op).cases) <==> !Readdresses(s, op)
    ensures !op.RegisterOp? ==> Step(s, op).index == s.index
  {
    match op {
      case UpdateOp(id, p, who, now) => UpdateKeepsIdentityIff(s, id, p, who, now);
      case OverrideOp(id, o, now) => OverrideEffect(s, id, o, now);
      case LiftOp(id, now) => OverrideEffect(s, id, "", now);
      case RegisterOp(_, _, _, _) => TrailKeepsCases(s, op);
      case RecordOp(_) => TrailKeepsCases(s, op);
      case ChildOp(_, _, _, _, _, _) => TrailKeepsCases(s, op);
    }
  }

  lemma StepKeepsWellFormed(s: Store, op: Op)
    requires WellFormed(s) && Admissible(s, op)
    ensures WellFormed(Step(s, op))
  {
    match op {
      case LookupOp(t, r, newId, now) =>
        CommitEffect(s, t, r, Find(s, t, r.keys), newId, now);
        if Find(s, t, r.keys) == None && ValidIntake(r) {
          InsertKeepsWellFormed(s, Step(s, op), NewCase(t, r, newId, now));
        }
      case DeleteOp(id) => DeleteKeepsWellFormed(s, id);
      case ClearOp =>
      case _ => StepKeepsIdentityIff(s, op);
    }
  }

  // ----- which failing calls leave a mark -----------------------------------

  /** Registering the keys for the case changes the index. */
  predicate Repoints(index: map<Key, string>, ks: seq<Key>, id: string) {
    exists k :: k in ks && !(k in index && index[k] == id)
  }

  /** The history row the call would write fails validation, which is noticed only after
      the case has been written; or a key that cannot be hashed comes after others that
      have been registered. */
  predicate Dirty(s: Store, op: Op) {
    match op
    case LookupOp(t, r, _, _) =>
      if Find(s, t, r.keys) == None then ValidIntake(r) && r.supergroup.Some? && !ValidClassifier(r.classifierType)
      else Unkeyable(r.keys) && Repoints(s.index, Supplied(t, r.keys), Find(s, t, r.keys).value)
    case UpdateOp(id, p, who, _) =>
      Writes(s, id, p, who) && Regroups(s.cases[id], p) && !ValidClassifier(who.kind.value)
    case _ => false
  }

  lemma RegisterChangesIff(index: map<Key, string>, ks: seq<Key>, id: string)
    ensures Register(index, ks, id) != index <==> Repoints(index, ks, id)
  {
    var index' := Register(index, ks, id);
    if Repoints(index, ks, id) {
      var k :| k in ks && !(k in index && index[k] == id);
      assert index'[k] == id;
    } else {
      assert forall k :: k in index' <==> k in index;
    }
  }

  lemma TextualIsKeyable(keys: Keys)
    ensures TextualKeys(keys) ==> !Unkeyable(keys)
  {
  }

  lemma LookupRaisesDirtyIff(s: Store, t: string, r: Intake, newId: string, now: int)
    requires FreshId(s, newId)
    ensures LookupOrCreate(s, t, r, newId, now).1.Err? && LookupOrCreate(s, t, r, newId, now).0 != s
            <==> Dirty(s, LookupOp(t, r, newId, now))
  {
    var s' := LookupOrCreate(s, t, r, newId, now).0;
    CommitEffect(s, t, r, Find(s, t, r.keys), newId, now);
    TextualIsKeyable(r.keys);
    match Find(s, t, r.keys) {
      case Some(id) => RegisterChangesIff(s.index, Supplied(t, r.keys), id);
      case None =>
        if ValidIntake(r) {
          assert newId in s'.cases;
        }
    }
  }

  /** A call both raises and changes the store if and only if it is dirty, which its
      caller can tell beforehand. */
  lemma RaisesDirtyIff(s: Store, op: Op)
    requires Admissible(s, op)
    ensures Apply(s, op).1.Some? && Step(s, op) != s <==> Dirty(s, op)
  {
    match op {
      case LookupOp(t, r, newId, now) => LookupRaisesDirtyIff(s, t, r, newId, now);
      case UpdateOp(id, p, who, now) =>
        if Dirty(s, op) {
          assert Step(s, op).cases[id].supergroup != s.cases[id].supergroup;
        }
      case _ =>
    }
  }

  /** The store with one open, unclassified case. */
  function OneCase(id: string, tenant: string): Store {
    EMPTY.(cases := map[id := OrderCase(id, tenant, "API", "portal", None, None, 0, None, 0,
                                        OPEN_AGENT_PROCESSING, 2, None, None)], order := [id])
  }

  /** An update with an unknown classifier type raises, yet the case is reclassified
      and its history does not say so. */
  lemma UpdateIsNotAtomic(id: string, tenant: string, now: int)
    ensures var s := OneCase(id, tenant); var p := NO_FIELDS.(supergroup := Some(Some("SG_NEW_ORDER")));
            var (s', res) := Update(s, id, p, Attribution(Some("ann"), Some("BOT"), None), now);
            && WellFormed(s) && res == Err(InvalidEvent)
            && s'.cases[id].supergroup == Some("SG_NEW_ORDER") && History(s', id) == []
  {
  }

  /** A lookup with an unknown classifier type raises, yet the case is open and its keys name it. */
  lemma LookupIsNotAtomic(tenant: string, po: string, newId: string, now: int)
    requires po != ""
    ensures var r := Intake(Keys(NoValue, Str(po), NoValue, NoValue), "API", "portal", Some("SG_NEW_ORDER"), None,
                            "ann",
                            "BOT");
            var (s', res) := LookupOrCreate(EMPTY, tenant, r, newId, now);
            && res == Err(InvalidEvent) && newId in s'.cases && Find(s', tenant, r.keys) == Some(newId)
  {
    PoOnly(tenant, po);
  }

  /** An event with a known sales order and a list as its EDI id: the lookup raises, yet
      the PO now names the sales order's case. */
  lemma ListKeyStopsRegistering(id: string, tenant: string, so: string, po: string, newId: string, now: int)
    requires so != "" && po != ""
    ensures var s := RegisterCorrelation(OneCase(id, tenant), tenant, id, SALES_ORDER, Str(so)).0;
            var r := Intake(Keys(Str(so), Str(po), Compound(false), NoValue), "API", "portal", None, None, "ann",
                            "RULE");
            var (s', res) := LookupOrCreate(s, tenant, r, newId, now);
            res == Err(Unhashable) && s'.index == s.index[Key(tenant, CUSTOMER_PO, Str(po)) := id]
  {
    var so', po' := Key(tenant, SALES_ORDER, Str(so)), Key(tenant, CUSTOMER_PO, Str(po));
    var edi := Key(tenant, EDI_TXN, Compound(false));
    var ks := [so', po', edi];
    assert AllGiven(tenant, Keys(Str(so), Str(po), Compound(false), NoValue)) == ks;
    assert ks[1..] == [po', edi] && ks[1..][1..] == [edi];
    assert Hashed([edi]) == [] && Hashed([po', edi]) == [po'];
    assert Hashed(ks) == [so', po'];
  }

  // ----- updates are not validated ------------------------------------------

  /** The bounds the case model puts on its fields. */
  predicate ValidCase(c: OrderCase) {
    ValidOrigin(c.origin) && 1 <= c.tier <= 4 && !c.status.OtherStatus?
  }

  /** `model_copy` checks nothing: what an update leaves is a valid case exactly when
      the caller's own values are valid, and it is stored either way. */
  lemma UpdateStoresInvalidIff(s: Store, id: string, p: CasePatch, who: Attribution, now: int)
    requires Writes(s, id, p, who) && ValidCase(s.cases[id])
    ensures ValidCase(Update(s, id, p, who, now).0.cases[id]) <==>
              && (p.origin.Some? ==> ValidOrigin(p.origin.value)) && (p.tier.Some? ==> 1 <= p.tier.value <= 4)
              && (p.status.Some? ==> !p.status.value.OtherStatus?)
    ensures Update(s, id, p, who, now).1 == Err(InvalidEvent) <==>
            Regroups(s.cases[id], p) && !ValidClassifier(who.kind.value)
  {
  }

  /** An unlisted status and tier 9 are accepted and stored. */
  lemma UpdateStoresAnything(id: string, tenant: string, now: int)
    ensures var p := NO_FIELDS.(status := Some(OtherStatus("BOGUS")), tier := Some(9));
            var (s', res) := Update(OneCase(id, tenant), id, p, Attribution(None, None, None), now);
            res == Ok(()) && s'.cases[id].status == OtherStatus("BOGUS") && s'.cases[id].tier == 9
              && !ValidCase(s'.cases[id])
  {
  }
}
