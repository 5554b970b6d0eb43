/**
 `lookup_or_create` takes the lock twice: once to search, once to write. Here
 any number of threads interleave those two sections with the other operations.
 */
module Interleaving {
  import opened Wrappers
  import opened Model
  import opened Cases
  import opened CaseIndex

  /** A thread between its two sections remembers what its search saw. */
  datatype Pending = Pending(tenant: string, intake: Intake, found: Option<string>)

  datatype State = State(store: Store, pending: map<nat, Pending>)

  datatype Event =
    | SearchSection(thread: nat, tenant: string, intake: Intake)
    | WriteSection(thread: nat, newId: string, now: int)
    | Whole(op: Op)

  const START := State(EMPTY, map[])

  function Next(st: State, e: Event): State {
    match e
    case SearchSection(t, tenant, r) =>
      st.(pending := st.pending[t := Pending(tenant, r, Find(st.store, tenant, r.keys))])
    case WriteSection(t, newId, now) =>
      if t !in st.pending then st
      else
        var p := st.pending[t];
        State(Commit(st.store, p.tenant, p.intake, p.found, newId, now).0, st.pending - {t})
    case Whole(op) => st.(store := Step(st.store, op))
  }

  function Play(events: seq<Event>): State {
    if events == [] then START else Next(Play(events[..|events| - 1]), events[|events| - 1])
  }

  predicate Removes(e: Event) {
    e.Whole? && (e.op.DeleteOp? || e.op.ClearOp?)
  }

  /** Ids are unused, keys are registered within a tenant, and no case changes its address. */
  predicate Orderly(st: State, e: Event) {
    && (e.WriteSection? ==> FreshId(st.store, e.newId))
    && (e.Whole? ==> Admissible(st.store, e.op) && SameTenant(st.store, e.op) && !Readdresses(st.store, e.op))
  }

  /** What every pending search saw is still true of the table. */
  ghost predicate PendingLive(st: State) {
    forall t :: t in st.pending && st.pending[t].found.Some? ==>
      var p := st.pending[t]; p.found.value in st.store.cases && st.store.cases[p.found.value].tenantId == p.tenant
  }

  ghost predicate Intact(st: State) {
    WellFormed(st.store) && IndexLive(st.store) && PendingLive(st)
  }

  /** Cases neither vanish nor change tenant. */
  ghost predicate Keeps(before: map<string, OrderCase>, after: map<string, OrderCase>) {
    forall id :: id in before ==> id in after && after[id].tenantId == before[id].tenantId
  }

  lemma WriteKeepsCases(s: Store, p: Pending, newId: string, now: int)
    requires WellFormed(s) && FreshId(s, newId)
    ensures var s' := Commit(s, p.tenant, p.intake, p.found, newId, now).0;
            WellFormed(s') && Keeps(s.cases, s'.cases)
  {
    var s' := Commit(s, p.tenant, p.intake, p.found, newId, now).0;
    CommitEffect(s, p.tenant, p.intake, p.found, newId, now);
    if p.found == None && ValidIntake(p.intake) {
      InsertKeepsWellFormed(s, s', NewCase(p.tenant, p.intake, newId, now));
    }
  }

  lemma WholeKeepsCases(s: Store, op: Op)
    requires Admissible(s, op) && !op.DeleteOp? && !op.ClearOp? && !Readdresses(s, op)
    ensures Keeps(s.cases, Step(s, op).cases)
  {
    if op.LookupOp? {
      CommitEffect(s, op.tenant, op.intake, Find(s, op.tenant, op.intake.keys), op.newId, op.now);
    } else {
      StepKeepsIdentityIff(s, op);
    }
  }

  /** Without removals, index integrity survives the gap between the two sections. */
  lemma NextKeepsIntact(st: State, e: Event)
    requires Intact(st) && Orderly(st, e) && !Removes(e)
    ensures Intact(Next(st, e))
  {
    match e {
      case SearchSection(t, tenant, r) =>
        FindIsFirstHit(st.store, tenant, r.keys);
      case WriteSection(t, newId, now) =>
        if t in st.pending {
          var p := st.pending[t];
          CommitKeepsIndexIff(st.store, p.tenant, p.intake, p.found, newId, now);
          WriteKeepsCases(st.store, p, newId, now);
        }
      case Whole(op) =>
        StepKeepsIndexIff(st.store, op);
        StepKeepsWellFormed(st.store, op);
        WholeKeepsCases(st.store, op);
    }
  }

  lemma {:induction false} PlayKeepsIntact(events: seq<Event>)
    requires forall i :: 0 <= i < |events| ==> Orderly(Play(events[..i]), events[i]) && !Removes(events[i])
    ensures Intact(Play(events))
  {
    if events != [] {
      var front := events[..|events| - 1];
      forall i | 0 <= i < |front| ensures Orderly(Play(front[..i]), front[i]) && !Removes(front[i]) {
        assert front[..i] == events[..i];
      }
      PlayKeepsIntact(front);
      NextKeepsIntact(Play(front), events[|events| - 1]);
    }
  }

  // ----- when the two sections act as one -----------------------------------

  /** The keys an event registers. */
  function KeysWritten(st: State, e: Event): seq<Key> {
    match e
    case SearchSection(_, _, _) => []
    case WriteSection(t, _, _) =>
      if t in st.pending then Supplied(st.pending[t].tenant, st.pending[t].intake.keys) else []
    case Whole(op) =>
      if op.LookupOp? then Supplied(op.tenant, op.intake.keys)
      else if op.RegisterOp? then [Key(op.tenant, op.kind, op.value)]
      else []
  }

  /** The event registers a key that the search looked for, or removes the case it found. */
  ghost predicate Disturbs(st: State, e: Event, p: Pending) {
    || (exists k :: k in Supplied(p.tenant, p.intake.keys) && k in KeysWritten(st, e))
    || (p.found.Some? && e.Whole? && (e.op.ClearOp? || e.op == DeleteOp(p.found.value)))
  }

  predicate BelongsTo(e: Event, t: nat) {
    (e.SearchSection? || e.WriteSection?) && e.thread == t
  }

  /** The search would see the same again. */
  ghost predicate Stands(s: Store, p: Pending) {
    && FirstHit(s.index, Supplied(p.tenant, p.intake.keys)) == p.found
    && (p.found.Some? ==> p.found.value in s.cases)
  }

  lemma {:induction false} FirstHitAgrees(index: map<Key, string>, index': map<Key, string>, ks: seq<Key>)
    requires forall k :: k in ks ==> (k in index <==> k in index') && (k in index ==> index'[k] == index[k])
    ensures FirstHit(index', ks) == FirstHit(index, ks)
  {
    if ks != [] {
      assert ks == [ks[0]] + ks[1..];
      FirstHitAgrees(index, index', ks[1..]);
    }
  }

  /** Dropping the keys of one case changes only what that case was the answer to. */
  lemma {:induction false} FirstHitSurvivesDelete(s: Store, id: string, ks: seq<Key>)
    requires FirstHit(s.index, ks) != Some(id)
    ensures FirstHit(Delete(s, id).index, ks) == FirstHit(s.index, ks)
  {
    if ks != [] && ks[0] !in s.index {
      FirstHitSurvivesDelete(s, id, ks[1..]);
    }
  }

  lemma {:induction false} NoHitInEmpty(ks: seq<Key>)
    ensures FirstHit(map[], ks) == None
  {
    if ks != [] {
      NoHitInEmpty(ks[1..]);
    }
  }

  lemma CommitKeepsStanding(s: Store, tenant: string, r: Intake, found: Option<string>, newId: string, now: int,
                            p: Pending)
    requires Stands(s, p)
    requires forall k :: k in Supplied(p.tenant, p.intake.keys) ==> k !in Supplied(tenant, r.keys)
    ensures Stands(Commit(s, tenant, r, found, newId, now).0, p)
  {
    var s' := Commit(s, tenant, r, found, newId, now).0;
    CommitEffect(s, tenant, r, found, newId, now);
    FirstHitAgrees(s.index, s'.index, Supplied(p.tenant, p.intake.keys));
  }

  lemma WholeKeepsStanding(s: Store, op: Op, p: Pending)
    requires Stands(s, p) && !Disturbs(State(s, map[]), Whole(op), p)
    ensures Stands(Step(s, op), p)
  {
    var ks := Supplied(p.tenant, p.intake.keys);
    match op {
      case LookupOp(t, r, newId, now) => CommitKeepsStanding(s, t, r, Find(s, t, r.keys), newId, now, p);
      case RegisterOp(t, id, kind, v) =>
        assert Key(t, kind, v) in KeysWritten(State(s, map[]), Whole(op));
        FirstHitAgrees(s.index, Step(s, op).index, ks);
      case DeleteOp(id) => FirstHitSurvivesDelete(s, id, ks);
      case ClearOp => NoHitInEmpty(ks);
      case _ => StepKeepsIdentityIff(s, op);
    }
  }

  /** Undisturbed, a search stands. */
  lemma NextKeepsStanding(st: State, e: Event, p: Pending)
    requires Stands(st.store, p) && !Disturbs(st, e, p)
    ensures Stands(Next(st, e).store, p)
  {
    match e {
      case SearchSection(_, _, _) =>
      case WriteSection(t, newId, now) =>
        if t in st.pending {
          var w := st.pending[t];
          CommitKeepsStanding(st.store, w.tenant, w.intake, w.found, newId, now, p);
        }
      case Whole(op) =>
        assert KeysWritten(State(st.store, map[]), e) == KeysWritten(st, e);
        WholeKeepsStanding(st.store, op, p);
    }
  }

  function PlayOn(st: State, events: seq<Event>): State {
    if events == [] then st else Next(PlayOn(st, events[..|events| - 1]), events[|events| - 1])
  }

  lemma {:induction false} GapKeepsStanding(st: State, t: nat, gap: seq<Event>)
    requires t in st.pending && Stands(st.store, st.pending[t])
    requires forall i :: 0 <= i < |gap| ==>
               !BelongsTo(gap[i], t) && !Disturbs(PlayOn(st, gap[..i]), gap[i], st.pending[t])
    ensures t in PlayOn(st, gap).pending && PlayOn(st, gap).pending[t] == st.pending[t]
    ensures Stands(PlayOn(st, gap).store, st.pending[t])
  {
    if gap != [] {
      var front := gap[..|gap| - 1];
      assert forall i :: 0 <= i < |front| ==> front[..i] == gap[..i];
      GapKeepsStanding(st, t, front);
      NextKeepsStanding(PlayOn(st, front), gap[|gap| - 1], st.pending[t]);
    }
  }

  /** If, between a thread's search and its write, no other event registers one of its
      keys or removes the case it found, the write is the atomic call made at its own moment. */
  lemma UndisturbedIsAtomic(st: State, t: nat, tenant: string, r: Intake, gap: seq<Event>, newId: string, now: int)
    requires IndexLive(st.store)
    requires var searched := Next(st, SearchSection(t, tenant, r));
             forall i :: 0 <= i < |gap| ==>
               !BelongsTo(gap[i], t) && !Disturbs(PlayOn(searched, gap[..i]), gap[i], searched.pending[t])
    ensures var before := PlayOn(Next(st, SearchSection(t, tenant, r)), gap);
            && t in before.pending
            && Next(before, WriteSection(t, newId, now)).store == LookupOrCreate(before.store, tenant, r, newId, now).0
            && before.pending[t].found == Find(before.store, tenant, r.keys)
  {
    FindIsFirstHit(st.store, tenant, r.keys);
    GapKeepsStanding(Next(st, SearchSection(t, tenant, r)), t, gap);
  }

  // ----- serialisability ----------------------------------------------------

  /** The atomic calls a run amounts to: each lookup where it writes. */
  function Serial(events: seq<Event>): seq<Op> {
    if events == [] then []
    else
      var front, e := events[..|events| - 1], events[|events| - 1];
      match e
      case SearchSection(_, _, _) => Serial(front)
      case WriteSection(t, newId, now) =>
        var st := Play(front);
        if t in st.pending then Serial(front) + [LookupOp(st.pending[t].tenant, st.pending[t].intake, newId, now)]
        else Serial(front)
      case Whole(op) => Serial(front) + [op]
  }

  /** No event disturbs the search of a thread it does not belong to. */
  ghost predicate Undisturbed(st: State, e: Event) {
    forall t :: t in st.pending && !BelongsTo(e, t) ==> !Disturbs(st, e, st.pending[t])
  }

  ghost predicate Settled(st: State) {
    && WellFormed(st.store) && IndexLive(st.store)
    && forall t :: t in st.pending ==> Stands(st.store, st.pending[t])
  }

  lemma OthersStand(st: State, e: Event)
    requires Settled(st) && Undisturbed(st, e)
    ensures forall t :: t in Next(st, e).pending && !BelongsTo(e, t) ==>
              Stands(Next(st, e).store, Next(st, e).pending[t])
  {
    forall t | t in Next(st, e).pending && !BelongsTo(e, t)
      ensures Stands(Next(st, e).store, Next(st, e).pending[t])
    {
      assert t in st.pending && Next(st, e).pending[t] == st.pending[t];
      NextKeepsStanding(st, e, st.pending[t]);
    }
  }

  lemma NextKeepsSettled(st: State, e: Event)
    requires Settled(st) && Orderly(st, e) && Undisturbed(st, e)
    ensures Settled(Next(st, e))
    ensures e.WriteSection? && e.thread in st.pending ==>
              var p := st.pending[e.thread];
              Next(st, e).store == LookupOrCreate(st.store, p.tenant, p.intake, e.newId, e.now).0
  {
    OthersStand(st, e);
    match e {
      case SearchSection(t, tenant, r) => FindIsFirstHit(st.store, tenant, r.keys);
      case WriteSection(t, newId, now) =>
        if t in st.pending {
          var p := st.pending[t];
          StepKeepsIndexIff(st.store, LookupOp(p.tenant, p.intake, newId, now));
          StepKeepsWellFormed(st.store, LookupOp(p.tenant, p.intake, newId, now));
        }
      case Whole(op) =>
        StepKeepsIndexIff(st.store, op);
        StepKeepsWellFormed(st.store, op);
    }
  }

  /** A whole run in which no search is disturbed, removals included, leaves exactly the
      store of the atomic calls made one after the other. */
  lemma {:induction false} UndisturbedRunIsSerial(events: seq<Event>)
    requires forall i :: 0 <= i < |events| ==>
               Orderly(Play(events[..i]), events[i]) && Undisturbed(Play(events[..i]), events[i])
    ensures Play(events).store == Run(EMPTY, Serial(events)) && Settled(Play(events))
  {
    if events != [] {
      var front, e := events[..|events| - 1], events[|events| - 1];
      forall i | 0 <= i < |front|
        ensures Orderly(Play(front[..i]), front[i]) && Undisturbed(Play(front[..i]), front[i]) {
        assert front[..i] == events[..i];
      }
      UndisturbedRunIsSerial(front);
      NextKeepsSettled(Play(front), e);
      if |Serial(events)| > |Serial(front)| {
        assert Serial(events)[..|Serial(front)|] == Serial(front);
      }
    }
  }

  // ----- and when they do not -----------------------------------------------

  /** The write section keeps one case per PO exactly when it does not open a
      case for a PO that some live case already carries. */
  lemma WriteKeepsOneCasePerPoIff(s: Store, p: Pending, newId: string, now: int)
    requires OneCasePerPo(s) && FreshId(s, newId)
    ensures OneCasePerPo(Commit(s, p.tenant, p.intake, p.found, newId, now).0) <==>
            (p.found == None && ValidIntake(p.intake) && Given(p.intake.keys.customerPo) ==>
               forall id :: id in s.cases && Truthy(s.cases[id].customerPo) ==>
                 PoKey(s.cases[id]) != Key(p.tenant, CUSTOMER_PO, p.intake.keys.customerPo))
  {
    var s' := Commit(s, p.tenant, p.intake, p.found, newId, now).0;
    CommitEffect(s, p.tenant, p.intake, p.found, newId, now);
    if p.found == None && ValidIntake(p.intake) {
      assert newId in s'.cases && s'.cases[newId] == NewCase(p.tenant, p.intake, newId, now);
      assert forall id :: id in s.cases ==> id in s'.cases && s'.cases[id] == s.cases[id];
      assert forall id :: id in s'.cases ==> id == newId || id in s.cases;
    }
  }

  function PoIntake(po: string): Intake {
    Intake(Keys(NoValue, Str(po), NoValue, NoValue), "API", "edi_x12_850", None, None, "system:case_intake", "RULE")
  }

  /** Two threads search for one new PO before either writes. */
  function Race(tenant: string, po: string, a: string, b: string): seq<Event> {
    [SearchSection(1, tenant, PoIntake(po)), SearchSection(2, tenant, PoIntake(po)), WriteSection(1, a, 0),
     WriteSection(2, b, 0)]
  }

  lemma PlayNext(events: seq<Event>, i: nat)
    requires i < |events|
    ensures Play(events[..i + 1]) == Next(Play(events[..i]), events[i])
  {
    assert events[..i + 1][..i] == events[..i];
  }

  lemma RaceSearches(tenant: string, po: string, a: string, b: string)
    requires po != ""
    ensures var p := Pending(tenant, PoIntake(po), None);
            Play(Race(tenant, po, a, b)[..2]) == State(EMPTY, map[1 := p, 2 := p])
  {
    PlayNext(Race(tenant, po, a, b), 0);
    PlayNext(Race(tenant, po, a, b), 1);
    PoOnly(tenant, po);
  }

  /** The store the race leaves. */
  lemma RaceLeaves(tenant: string, po: string, a: string, b: string)
    requires po != "" && a != b
    ensures var s := Play(Race(tenant, po, a, b)).store; var r := PoIntake(po);
            && s.cases == map[a := NewCase(tenant, r, a, 0), b := NewCase(tenant, r, b, 0)] && s.order == [a, b]
            && s.index == map[Key(tenant, CUSTOMER_PO, Str(po)) := b] && s.history == map[]
  {
    var r := PoIntake(po);
    var es := Race(tenant, po, a, b);
    RaceSearches(tenant, po, a, b);
    PlayNext(es, 2);
    PlayNext(es, 3);
    assert es[..4] == es;
    PoOnly(tenant, po);
    CommitEffect(EMPTY, tenant, r, None, a, 0);
    CommitEffect(Play(es[..3]).store, tenant, r, None, b, 0);
  }

  /** Uniqueness does not survive: the two open two cases for the PO, and its key names
      only the second. */
  lemma RaceOpensTwoCases(tenant: string, po: string, a: string, b: string)
    requires po != "" && a != b
    ensures var s := Play(Race(tenant, po, a, b)).store;
            && !OneCasePerPo(s) && a in s.cases && b in s.cases
            && Resolve(s, Key(tenant, CUSTOMER_PO, Str(po))) == Some(b)
  {
    RaceLeaves(tenant, po, a, b);
    var s := Play(Race(tenant, po, a, b)).store;
    assert PoKey(s.cases[a]) == PoKey(s.cases[b]);
  }

  /** With a delete in the gap the write section leaves a dangling key. */
  lemma DeleteInGapDangles(st: State, t: nat, newId: string, now: int, id: string)
    requires Intact(st) && FreshId(st.store, newId) && id in st.store.cases
    requires t in st.pending && st.pending[t].found == Some(id)
    requires Supplied(st.pending[t].tenant, st.pending[t].intake.keys) != []
    ensures !IndexLive(Next(Next(st, Whole(DeleteOp(id))), WriteSection(t, newId, now)).store)
  {
    var st' := Next(st, Whole(DeleteOp(id)));
    StepKeepsIndexIff(st.store, DeleteOp(id));
    StepKeepsWellFormed(st.store, DeleteOp(id));
    CommitKeepsIndexIff(st'.store, st.pending[t].tenant, st.pending[t].intake, Some(id), newId, now);
  }
}
