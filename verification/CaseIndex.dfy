/** What the correlation index of `CaseStore` promises, over all runs. */
module CaseIndex {
  import opened Wrappers
  import opened Model
  import opened Cases

  /** Every entry (tenant, kind, value) names a live case of that tenant. */
  ghost predicate IndexLive(s: Store) {
    Live(s.cases, s.index)
  }

  ghost predicate Live(cases: map<string, OrderCase>, index: map<Key, string>) {
    forall k :: k in index ==> index[k] in cases && cases[index[k]].tenantId == k.tenant
  }

  ghost predicate AllOf(ks: seq<Key>, tenant: string) {
    forall k :: k in ks ==> k.tenant == tenant
  }

  lemma RegisterKeepsLiveIff(cases: map<string, OrderCase>, index: map<Key, string>, ks: seq<Key>, tenant: string,
                             id: string)
    requires Live(cases, index) && AllOf(ks, tenant)
    ensures Live(cases, Register(index, ks, id)) <==>
            (ks != [] ==> id in cases && cases[id].tenantId == tenant)
  {
    if ks != [] {
      assert ks[0] in ks && Register(index, ks, id)[ks[0]] == id;
    }
  }

  lemma {:induction false} FirstHitSound(index: map<Key, string>, ks: seq<Key>)
    ensures match FirstHit(index, ks)
            case None => forall k :: k in ks ==> k !in index
            case Some(id) => exists k :: k in ks && k in index && index[k] == id
  {
    if ks != [] && ks[0] !in index {
      FirstHitSound(index, ks[1..]);
      assert ks == [ks[0]] + ks[1..];
    } else if ks != [] {
      assert ks[0] in ks;
    }
  }

  lemma SuppliedOfTenant(tenant: string, keys: Keys)
    ensures AllOf(Supplied(tenant, keys), tenant)
  {
    HashedAll(AllGiven(tenant, keys));
  }

  /** While the index is live, a hit is never a dangling one. */
  lemma FindIsFirstHit(s: Store, tenant: string, keys: Keys)
    requires IndexLive(s)
    ensures Find(s, tenant, keys) == FirstHit(s.index, Supplied(tenant, keys))
    ensures var f := Find(s, tenant, keys); f.Some? ==> f.value in s.cases && s.cases[f.value].tenantId == tenant
  {
    FirstHitSound(s.index, Supplied(tenant, keys));
    SuppliedOfTenant(tenant, keys);
  }

  /** The write section keeps the index live exactly when the case it was told
      about is still there (or it has nothing to write). */
  lemma CommitKeepsIndexIff(s: Store, tenant: string, r: Intake, found: Option<string>, newId: string, now: int)
    requires IndexLive(s) && FreshId(s, newId)
    ensures IndexLive(Commit(s, tenant, r, found, newId, now).0) <==>
            (found.Some? && Supplied(tenant, r.keys) != [] ==>
               found.value in s.cases && s.cases[found.value].tenantId == tenant)
  {
    var ks := Supplied(tenant, r.keys);
    SuppliedOfTenant(tenant, r.keys);
    CommitEffect(s, tenant, r, found, newId, now);
    if found.Some? {
      RegisterKeepsLiveIff(s.cases, s.index, ks, tenant, found.value);
    } else if ValidIntake(r) {
      var cases' := s.cases[newId := NewCase(tenant, r, newId, now)];
      assert Live(cases', s.index);
      RegisterKeepsLiveIff(cases', s.index, ks, tenant, newId);
    }
  }

  /** The ways to spoil the index: registering a key for a case of another tenant,
      and giving a case that some key names another tenant. */
  predicate SameTenant(s: Store, op: Op) {
    && (op.RegisterOp? && op.id in s.cases && Hashable(op.value) ==> s.cases[op.id].tenantId == op.tenant)
    && (op.UpdateOp? && Writes(s, op.id, op.patch, op.who)
        && Or(op.patch.tenantId, s.cases[op.id].tenantId) != s.cases[op.id].tenantId ==>
          forall k :: k in s.index ==> s.index[k] != op.id)
  }

  lemma UpdateKeepsIndexIff(s: Store, id: string, p: CasePatch, who: Attribution, now: int)
    requires IndexLive(s)
    ensures IndexLive(Update(s, id, p, who, now).0) <==> SameTenant(s, UpdateOp(id, p, who, now))
  {
    UpdateEffect(s, id, p, who, now);
    if Writes(s, id, p, who) && !SameTenant(s, UpdateOp(id, p, who, now)) {
      var k :| k in s.index && s.index[k] == id;
      assert k in Update(s, id, p, who, now).0.index;
    }
  }

  /** Each operation keeps the index live exactly when it spoils no entry. */
  lemma StepKeepsIndexIff(s: Store, op: Op)
    requires IndexLive(s) && WellFormed(s) && Admissible(s, op)
    ensures IndexLive(Step(s, op)) <==> SameTenant(s, op)
  {
    match op {
      case LookupOp(t, r, newId, now) =>
        FindIsFirstHit(s, t, r.keys);
        CommitKeepsIndexIff(s, t, r, Find(s, t, r.keys), newId, now);
      case RegisterOp(t, id, kind, v) =>
        if id in s.cases && Hashable(v) {
          assert Step(s, op).index[Key(t, kind, v)] == id;
        }
      case UpdateOp(id, p, who, now) => UpdateKeepsIndexIff(s, id, p, who, now);
      case DeleteOp(_) =>
      case ClearOp =>
      case _ => StepKeepsIdentityIff(s, op);
    }
  }

  /** Registering a key of one tenant for a case of another is accepted and spoils the index. */
  lemma CrossTenantKeySpoils(id: string, tenant: string, other: string, kind: KeyKind, value: Json)
    requires other != tenant && Hashable(value)
    ensures var s := OneCase(id, tenant); var (s', res) := RegisterCorrelation(s, other, id, kind, value);
            IndexLive(s) && res == Ok(()) && !IndexLive(s')
  {
    StepKeepsIndexIff(OneCase(id, tenant), RegisterOp(other, id, kind, value));
  }

  /** In every reachable state each entry names a live case of its tenant. */
  lemma {:induction false} ReachableIndexLive(ops: seq<Op>)
    requires AdmissibleRun(EMPTY, ops)
    requires forall i :: 0 <= i < |ops| ==> SameTenant(Run(EMPTY, ops[..i]), ops[i])
    ensures IndexLive(Run(EMPTY, ops)) && WellFormed(Run(EMPTY, ops))
  {
    if ops != [] {
      var front := ops[..|ops| - 1];
      forall i | 0 <= i < |front|
        ensures Admissible(Run(EMPTY, front[..i]), front[i]) && SameTenant(Run(EMPTY, front[..i]), front[i])
      {
        assert front[..i] == ops[..i];
      }
      ReachableIndexLive(front);
      assert Admissible(Run(EMPTY, front), ops[|ops| - 1]);
      StepKeepsIndexIff(Run(EMPTY, front), ops[|ops| - 1]);
      StepKeepsWellFormed(Run(EMPTY, front), ops[|ops| - 1]);
    }
  }

  // ----- lookup_or_create ---------------------------------------------------

  /** The case a single key resolves to, on its own. */
  function Resolve(s: Store, k: Key): Option<string> {
    if k in s.index && s.index[k] in s.cases then Some(s.index[k]) else None
  }

  lemma FirstHitOfOne(index: map<Key, string>, ks: seq<Key>)
    requires |ks| == 1
    ensures FirstHit(index, ks) == if ks[0] in index then Some(index[ks[0]]) else None
  {
    assert ks[1..] == [];
  }

  /** Alone, a key's answer is what the priority search gives for that key only. */
  lemma ResolveIsFind(s: Store, tenant: string, keys: Keys)
    requires |Supplied(tenant, keys)| == 1
    ensures Find(s, tenant, keys) == Resolve(s, Supplied(tenant, keys)[0])
  {
    FirstHitOfOne(s.index, Supplied(tenant, keys));
  }

  /** After a lookup every supplied key resolves on its own to the returned case,
      a live case of the tenant; all other keys resolve as before. */
  lemma LookupRegistersKeys(s: Store, tenant: string, r: Intake, newId: string, now: int, k: Key)
    requires IndexLive(s) && FreshId(s, newId)
    requires LookupOrCreate(s, tenant, r, newId, now).1.Ok?
    ensures var (s', res) := LookupOrCreate(s, tenant, r, newId, now); var id := res.value.0;
            && id in s'.cases && s'.cases[id].tenantId == tenant
            && Resolve(s', k) == (if k in AllGiven(tenant, r.keys) then Some(id) else Resolve(s, k))
            && (res.value.1 <==> Find(s, tenant, r.keys) == None) && (res.value.1 ==> id == newId)
  {
    LookupOutcome(s, tenant, r, newId, now);
    FindIsFirstHit(s, tenant, r.keys);
    CommitEffect(s, tenant, r, Find(s, tenant, r.keys), newId, now);
  }

  lemma {:induction false} FirstHitWhenAllAgree(index: map<Key, string>, ks: seq<Key>, id: string)
    requires ks != [] && forall k :: k in ks ==> k in index && index[k] == id
    ensures FirstHit(index, ks) == Some(id)
  {
    assert ks[0] in ks;
  }

  lemma RegisterTwice(index: map<Key, string>, ks: seq<Key>, id: string)
    requires ks != []
    ensures FirstHit(Register(index, ks, id), ks) == Some(id)
    ensures Register(Register(index, ks, id), ks, id) == Register(index, ks, id)
  {
    FirstHitWhenAllAgree(Register(index, ks, id), ks, id);
  }

  /** Repeating a lookup with at least one key finds the same case and changes nothing. */
  lemma LookupIdempotent(s: Store, tenant: string, r: Intake, newId: string, now: int, newId': string, now': int)
    requires IndexLive(s) && FreshId(s, newId) && Supplied(tenant, r.keys) != []
    requires LookupOrCreate(s, tenant, r, newId, now).1.Ok?
    ensures var (s', res) := LookupOrCreate(s, tenant, r, newId, now);
            LookupOrCreate(s', tenant, r, newId', now') == (s', Ok((res.value.0, false)))
  {
    var (s', res) := LookupOrCreate(s, tenant, r, newId, now);
    LookupOutcome(s, tenant, r, newId, now);
    RegisterTwice(s.index, Supplied(tenant, r.keys), res.value.0);
  }

  lemma LookupOutcome(s: Store, tenant: string, r: Intake, newId: string, now: int)
    requires IndexLive(s) && LookupOrCreate(s, tenant, r, newId, now).1.Ok?
    ensures Supplied(tenant, r.keys) == AllGiven(tenant, r.keys)
    ensures var (s', res) := LookupOrCreate(s, tenant, r, newId, now); var id := res.value.0;
            && id in s'.cases && s'.cases[id].tenantId == tenant
            && s'.index == Register(s.index, Supplied(tenant, r.keys), id)
            && id == (if Find(s, tenant, r.keys).Some? then Find(s, tenant, r.keys).value else newId)
            && res.value.1 == Find(s, tenant, r.keys).None?
  {
    FindIsFirstHit(s, tenant, r.keys);
    CommitEffect(s, tenant, r, Find(s, tenant, r.keys), newId, now);
    TextualIsKeyable(r.keys);
    SuppliedIsAllGiven(tenant, r.keys);
  }

  /** With no key at all, every lookup opens another case. */
  lemma KeylessAlwaysOpens(s: Store, tenant: string, r: Intake, newId: string, now: int)
    requires AllGiven(tenant, r.keys) == [] && ValidIntake(r) && r.supergroup == None && FreshId(s, newId)
    ensures LookupOrCreate(s, tenant, r, newId, now).1 == Ok((newId, true))
    ensures LookupOrCreate(s, tenant, r, newId, now).0.index == s.index
  {
    assert Register(s.index, [], newId) == s.index;
  }

  // ----- column by column ---------------------------------------------------

  datatype Search = Hit(id: string) | Raise | Miss

  function Searched(index: map<Key, string>, ks: seq<Key>): Search {
    match FirstHit(index, Hashed(ks))
    case Some(id) => Hit(id)
    case None => if SomeUnhashable(ks) then Raise else Miss
  }

  lemma ColumnDecides(index: map<Key, string>, tenant: string, kind: KeyKind, value: Json, rest: seq<Key>)
    ensures Searched(index, One(tenant, kind, value) + rest) ==
              if !Given(value) then Searched(index, rest)
              else if value.Compound? then Raise
              else if Key(tenant, kind, value) in index then Hit(index[Key(tenant, kind, value)])
              else Searched(index, rest)
  {
    var one := One(tenant, kind, value);
    SearchNext(index, tenant, kind, value, rest);
    assert forall k :: k in one + rest <==> k in one || k in rest;
    assert Given(value) ==> Key(tenant, kind, value) in one + rest;
  }

  lemma LastColumnsDecide(index: map<Key, string>, tenant: string, keys: Keys)
    ensures var edi, email := Key(tenant, EDI_TXN, keys.edi), Key(tenant, SOURCE_EMAIL, keys.email);
            Searched(index, One(tenant, EDI_TXN, keys.edi) + One(tenant, SOURCE_EMAIL, keys.email)) ==
              if Given(keys.edi) && keys.edi.Compound? then Raise
              else if Given(keys.edi) && edi in index then Hit(index[edi])
              else if Given(keys.email) && keys.email.Compound? then Raise
              else if Given(keys.email) && email in index then Hit(index[email])
              else Miss
  {
    var email := One(tenant, SOURCE_EMAIL, keys.email);
    ColumnDecides(index, tenant, EDI_TXN, keys.edi, email);
    ColumnDecides(index, tenant, SOURCE_EMAIL, keys.email, []);
    assert email + [] == email;
  }

  lemma AllColumnsDecide(index: map<Key, string>, tenant: string, keys: Keys)
    ensures var so, po := Key(tenant, SALES_ORDER, keys.salesOrder), Key(tenant, CUSTOMER_PO, keys.customerPo);
            var edi, email := Key(tenant, EDI_TXN, keys.edi), Key(tenant, SOURCE_EMAIL, keys.email);
            Searched(index, AllGiven(tenant, keys)) ==
              if Given(keys.salesOrder) && keys.salesOrder.Compound? then Raise
              else if Given(keys.salesOrder) && so in index then Hit(index[so])
              else if Given(keys.customerPo) && keys.customerPo.Compound? then Raise
              else if Given(keys.customerPo) && po in index then Hit(index[po])
              else if Given(keys.edi) && keys.edi.Compound? then Raise
              else if Given(keys.edi) && edi in index then Hit(index[edi])
              else if Given(keys.email) && keys.email.Compound? then Raise
              else if Given(keys.email) && email in index then Hit(index[email])
              else Miss
  {
    var email := One(tenant, SOURCE_EMAIL, keys.email);
    var edi := One(tenant, EDI_TXN, keys.edi) + email;
    var po := One(tenant, CUSTOMER_PO, keys.customerPo) + edi;
    assert AllGiven(tenant, keys) == One(tenant, SALES_ORDER, keys.salesOrder) + po;
    ColumnDecides(index, tenant, SALES_ORDER, keys.salesOrder, po);
    ColumnDecides(index, tenant, CUSTOMER_PO, keys.customerPo, edi);
    LastColumnsDecide(index, tenant, keys);
  }

  /** The search in terms of the four columns: sales order, purchase order, EDI transaction,
      email. The first one that is known decides, whatever the later ones name, even if its
      case is gone; a list or object met before raises. */
  lemma SearchByColumns(s: Store, tenant: string, keys: Keys)
    ensures var so, po := Key(tenant, SALES_ORDER, keys.salesOrder), Key(tenant, CUSTOMER_PO, keys.customerPo);
            var edi, email := Key(tenant, EDI_TXN, keys.edi), Key(tenant, SOURCE_EMAIL, keys.email);
            var raises, found := SearchRaises(s, tenant, keys), Find(s, tenant, keys);
            if Given(keys.salesOrder) && keys.salesOrder.Compound? then raises
            else if Given(keys.salesOrder) && so in s.index then !raises && found == Resolve(s, so)
            else if Given(keys.customerPo) && keys.customerPo.Compound? then raises
            else if Given(keys.customerPo) && po in s.index then !raises && found == Resolve(s, po)
            else if Given(keys.edi) && keys.edi.Compound? then raises
            else if Given(keys.edi) && edi in s.index then !raises && found == Resolve(s, edi)
            else if Given(keys.email) && keys.email.Compound? then raises
            else if Given(keys.email) && email in s.index then !raises && found == Resolve(s, email)
            else !raises && found == None
  {
    AllColumnsDecide(s.index, tenant, keys);
    UnhashableIsUnkeyable(tenant, keys);
  }

  /** A list or object that is not empty stops the loop over the columns. */
  predicate Stops(v: Json) {
    v.Compound? && Given(v)
  }

  /** The key is one of the columns, and no column before it stops the loop. */
  predicate Reached(tenant: string, keys: Keys, k: Key) {
    && k.tenant == tenant && Given(k.value) && !k.value.Compound?
    && match k.kind
       case SALES_ORDER => k.value == keys.salesOrder
       case CUSTOMER_PO => k.value == keys.customerPo && !Stops(keys.salesOrder)
       case EDI_TXN => k.value == keys.edi && !Stops(keys.salesOrder) && !Stops(keys.customerPo)
       case SOURCE_EMAIL =>
         k.value == keys.email && !Stops(keys.salesOrder) && !Stops(keys.customerPo) && !Stops(keys.edi)
       case OTHER(_) => false
  }

  lemma HashedColumn(tenant: string, kind: KeyKind, value: Json, rest: seq<Key>, k: Key)
    ensures k in Hashed(One(tenant, kind, value) + rest) <==>
              || (Given(value) && !value.Compound? && k == Key(tenant, kind, value))
              || (!Stops(value) && k in Hashed(rest))
  {
    HashedNext(One(tenant, kind, value), rest);
  }

  lemma LastReached(tenant: string, keys: Keys, k: Key)
    ensures k in Hashed(One(tenant, EDI_TXN, keys.edi) + One(tenant, SOURCE_EMAIL, keys.email)) <==>
              || (Given(keys.edi) && !keys.edi.Compound? && k == Key(tenant, EDI_TXN, keys.edi))
              || (!Stops(keys.edi) && Given(keys.email) && !keys.email.Compound?
                  && k == Key(tenant, SOURCE_EMAIL, keys.email))
  {
    var email := One(tenant, SOURCE_EMAIL, keys.email);
    HashedColumn(tenant, EDI_TXN, keys.edi, email, k);
    HashedColumn(tenant, SOURCE_EMAIL, keys.email, [], k);
    assert email + [] == email;
  }

  lemma SuppliedIffReached(tenant: string, keys: Keys, k: Key)
    ensures k in Supplied(tenant, keys) <==> Reached(tenant, keys, k)
  {
    var edi := One(tenant, EDI_TXN, keys.edi) + One(tenant, SOURCE_EMAIL, keys.email);
    var po := One(tenant, CUSTOMER_PO, keys.customerPo) + edi;
    assert AllGiven(tenant, keys) == One(tenant, SALES_ORDER, keys.salesOrder) + po;
    HashedColumn(tenant, SALES_ORDER, keys.salesOrder, po, k);
    HashedColumn(tenant, CUSTOMER_PO, keys.customerPo, edi, k);
    LastReached(tenant, keys, k);
  }

  /** Registering covers exactly the columns that are reached, whatever they named before. */
  lemma RegisteredByColumns(index: map<Key, string>, tenant: string, keys: Keys, id: string, k: Key)
    ensures var index' := Register(index, Supplied(tenant, keys), id);
            if Reached(tenant, keys, k) then k in index' && index'[k] == id
            else (k in index' <==> k in index) && (k in index ==> index'[k] == index[k])
  {
    SuppliedIffReached(tenant, keys, k);
  }

  /** After a lookup each of the event's own keys leads to the returned case. */
  lemma EachColumnLeadsToCase(s: Store, tenant: string, r: Intake, newId: string, now: int, k: Key)
    requires IndexLive(s) && FreshId(s, newId)
    requires LookupOrCreate(s, tenant, r, newId, now).1.Ok?
    requires k.tenant == tenant && Given(k.value)
    requires || (k.kind == SALES_ORDER && k.value == r.keys.salesOrder)
             || (k.kind == CUSTOMER_PO && k.value == r.keys.customerPo)
             || (k.kind == EDI_TXN && k.value == r.keys.edi)
             || (k.kind == SOURCE_EMAIL && k.value == r.keys.email)
    ensures var (s', res) := LookupOrCreate(s, tenant, r, newId, now);
            !k.value.Compound? && Resolve(s', k) == Some(res.value.0)
  {
    LookupOutcome(s, tenant, r, newId, now);
    SuppliedIsAllGiven(tenant, r.keys);
    RegisteredByColumns(s.index, tenant, r.keys, LookupOrCreate(s, tenant, r, newId, now).1.value.0, k);
  }

  predicate Blank(v: Json) {
    v == NoValue || v == Str("") || v == Num(0) || v == Compound(true)
  }

  /** Absent, empty and zero values, and no others, are no keys. */
  lemma NoKeysIff(tenant: string, keys: Keys)
    ensures AllGiven(tenant, keys) == [] <==>
              Blank(keys.salesOrder) && Blank(keys.customerPo) && Blank(keys.edi) && Blank(keys.email)
  {
  }

  // ----- one case per purchase order ----------------------------------------

  function PoKey(c: OrderCase): Key
    requires Truthy(c.customerPo)
  {
    Key(c.tenantId, CUSTOMER_PO, Str(c.customerPo.value))
  }

  /** The PO a case was opened with still resolves to some case. */
  ghost predicate PoIndexed(s: Store) {
    forall id :: id in s.cases && Truthy(s.cases[id].customerPo) ==> PoKey(s.cases[id]) in s.index
  }

  ghost predicate OneCasePerPo(s: Store) {
    forall a, b ::
      (a in s.cases && b in s.cases && Truthy(s.cases[a].customerPo) && Truthy(s.cases[b].customerPo)
       && PoKey(s.cases[a]) == PoKey(s.cases[b])) ==> a == b
  }

  lemma PoAmongSupplied(tenant: string, r: Intake)
    requires Given(r.keys.customerPo) && !Unkeyable(r.keys)
    ensures Key(tenant, CUSTOMER_PO, r.keys.customerPo) in Supplied(tenant, r.keys)
  {
    SuppliedIsAllGiven(tenant, r.keys);
    var so := One(tenant, SALES_ORDER, r.keys.salesOrder);
    assert AllGiven(tenant, r.keys)[|so|] == Key(tenant, CUSTOMER_PO, r.keys.customerPo);
  }

  /** A case's PO key goes missing in two ways: another case is deleted that the key had been
      re-pointed to, or an update gives the case a PO that is not registered. */
  predicate StrandsNoPo(s: Store, op: Op) {
    && (op.DeleteOp? ==>
          forall id :: id in s.cases && id != op.id && Truthy(s.cases[id].customerPo) && PoKey(s.cases[id]) in s.index
                       ==> s.index[PoKey(s.cases[id])] != op.id)
    && (op.UpdateOp? && Writes(s, op.id, op.patch, op.who) ==>
          var c := Patched(s.cases[op.id], op.patch, op.now);
          Truthy(c.customerPo) ==> PoKey(c) in s.index)
  }

  /** An update gives a case the PO of another one. */
  predicate Collides(s: Store, op: Op) {
    && op.UpdateOp? && Writes(s, op.id, op.patch, op.who)
    && var c := Patched(s.cases[op.id], op.patch, op.now);
       && Truthy(c.customerPo)
       && exists id :: id in s.cases && id != op.id && Truthy(s.cases[id].customerPo) && PoKey(s.cases[id]) == PoKey(c)
  }

  /** Opening a case for a PO nobody has registered yet. */
  lemma OpeningKeepsOneCasePerPo(s: Store, s': Store, c: OrderCase, ks: seq<Key>)
    requires PoIndexed(s) && OneCasePerPo(s) && c.caseId !in s.cases
    requires s'.cases == s.cases[c.caseId := c] && s'.index == Register(s.index, ks, c.caseId)
    requires Truthy(c.customerPo) ==> PoKey(c) in ks && PoKey(c) !in s.index
    ensures PoIndexed(s') && OneCasePerPo(s')
  {
    forall id | id in s'.cases && Truthy(s'.cases[id].customerPo)
      ensures PoKey(s'.cases[id]) in s'.index && (PoKey(s'.cases[id]) in s.index <==> id != c.caseId)
    {
      if id != c.caseId {
        assert s'.cases[id] == s.cases[id];
      }
    }
    forall a, b | a in s'.cases && b in s'.cases && Truthy(s'.cases[a].customerPo) && Truthy(s'.cases[b].customerPo)
                  && PoKey(s'.cases[a]) == PoKey(s'.cases[b])
      ensures a == b
    {
      assert a != c.caseId ==> s'.cases[a] == s.cases[a];
      assert b != c.caseId ==> s'.cases[b] == s.cases[b];
    }
  }

  lemma UpdateKeepsOneCasePerPoIff(s: Store, id: string, p: CasePatch, who: Attribution, now: int)
    requires PoIndexed(s) && OneCasePerPo(s)
    ensures var s' := Update(s, id, p, who, now).0; var op := UpdateOp(id, p, who, now);
            (OneCasePerPo(s') <==> !Collides(s, op)) && (PoIndexed(s') <==> StrandsNoPo(s, op))
  {
    var s' := Update(s, id, p, who, now).0;
    UpdateEffect(s, id, p, who, now);
    if Writes(s, id, p, who) {
      assert s'.cases[id] == Patched(s.cases[id], p, now);
      assert forall x :: x in s.cases && x != id ==> x in s'.cases && s'.cases[x] == s.cases[x];
    }
  }

  /** Atomic steps keep one case per (tenant, PO) exactly unless an update makes two
      collide, and keep every PO registered exactly when they strand none. */
  lemma StepKeepsOneCasePerPoIff(s: Store, op: Op)
    requires IndexLive(s) && WellFormed(s) && Admissible(s, op)
    requires PoIndexed(s) && OneCasePerPo(s)
    ensures OneCasePerPo(Step(s, op)) <==> !Collides(s, op)
    ensures PoIndexed(Step(s, op)) <==> StrandsNoPo(s, op)
  {
    match op {
      case LookupOp(t, r, newId, now) => LookupKeepsOneCasePerPo(s, t, r, newId, now);
      case DeleteOp(id) => DeleteKeepsOneCasePerPo(s, id);
      case UpdateOp(id, p, who, now) => UpdateKeepsOneCasePerPoIff(s, id, p, who, now);
      case ClearOp =>
      case _ =>
        StepKeepsIdentityIff(s, op);
        IdentityKeepsOneCasePerPo(s, Step(s, op));
    }
  }

  lemma IdentityKeepsOneCasePerPo(s: Store, s': Store)
    requires PoIndexed(s) && OneCasePerPo(s) && SameIdentity(s.cases, s'.cases)
    requires s.index.Keys <= s'.index.Keys
    ensures PoIndexed(s') && OneCasePerPo(s')
  {
    forall id | id in s'.cases && Truthy(s'.cases[id].customerPo)
      ensures PoKey(s'.cases[id]) == PoKey(s.cases[id]) && PoKey(s'.cases[id]) in s'.index
    {
      assert PoKey(s.cases[id]) in s.index.Keys;
    }
  }

  lemma DeleteKeepsOneCasePerPo(s: Store, id: string)
    requires PoIndexed(s) && OneCasePerPo(s)
    ensures OneCasePerPo(Delete(s, id))
    ensures PoIndexed(Delete(s, id)) <==> StrandsNoPo(s, DeleteOp(id))
  {
    var s' := Delete(s, id);
    assert forall x :: x in s'.cases <==> x in s.cases && x != id;
    assert forall x :: x in s'.cases ==> s'.cases[x] == s.cases[x];
    assert forall k :: k in s'.index <==> k in s.index && s.index[k] != id;
  }

  lemma LookupKeepsOneCasePerPo(s: Store, tenant: string, r: Intake, newId: string, now: int)
    requires IndexLive(s) && FreshId(s, newId) && PoIndexed(s) && OneCasePerPo(s)
    ensures var s' := LookupOrCreate(s, tenant, r, newId, now).0; OneCasePerPo(s') && PoIndexed(s')
  {
    var s' := LookupOrCreate(s, tenant, r, newId, now).0;
    var ks := Supplied(tenant, r.keys);
    FindIsFirstHit(s, tenant, r.keys);
    FirstHitSound(s.index, ks);
    CommitEffect(s, tenant, r, Find(s, tenant, r.keys), newId, now);
    if Find(s, tenant, r.keys) == None && ValidIntake(r) {
      TextualIsKeyable(r.keys);
      if Given(r.keys.customerPo) {
        PoAmongSupplied(tenant, r);
      }
      OpeningKeepsOneCasePerPo(s, s', NewCase(tenant, r, newId, now), ks);
    }
  }

  /** Over every run of atomic calls, deletions included, that strand no PO and make
      none collide, the store holds one case per PO. */
  lemma {:induction false} ReachableOneCasePerPo(ops: seq<Op>)
    requires AdmissibleRun(EMPTY, ops)
    requires forall i :: 0 <= i < |ops| ==> OrderlyOp(Run(EMPTY, ops[..i]), ops[i])
    ensures OneCasePerPo(Run(EMPTY, ops)) && PoIndexed(Run(EMPTY, ops))
  {
    if ops != [] {
      var front := ops[..|ops| - 1];
      forall i | 0 <= i < |front|
        ensures Admissible(Run(EMPTY, front[..i]), front[i]) && OrderlyOp(Run(EMPTY, front[..i]), front[i])
      {
        assert front[..i] == ops[..i];
      }
      ReachableOneCasePerPo(front);
      ReachableIndexLive(front);
      StepKeepsOneCasePerPoIff(Run(EMPTY, front), ops[|ops| - 1]);
    }
  }

  predicate OrderlyOp(s: Store, op: Op) {
    SameTenant(s, op) && StrandsNoPo(s, op) && !Collides(s, op)
  }
}
