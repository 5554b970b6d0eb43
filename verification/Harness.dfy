/**
 The L4 harness around the agent loop (agents/harness.py) as threads taking
 steps: a per-case lock, forward-only tier graduation, and the replay log.
 Moves of different threads interleave freely, down to single log writes.
 */
module Harness {
  import opened Wrappers
  import opened Sequences
  import opened AgentLoop

  // ----- per-case locks -----------------------------------------------------

  datatype CaseKey = CaseKey(tenant: string, caseId: string)

  /** threading.RLock: re-entrant for its owner. */
  datatype Lock = Free | Held(owner: nat, depth: nat)

  function LockOf(locks: map<CaseKey, Lock>, k: CaseKey): Lock {
    if k in locks then locks[k] else Free
  }

  /** try_acquire: creates the lock on first use, then acquires without blocking. */
  function TryAcquire(locks: map<CaseKey, Lock>, k: CaseKey, thread: nat): (map<CaseKey, Lock>, bool) {
    match LockOf(locks, k)
    case Free => (locks[k := Held(thread, 1)], true)
    case Held(owner, depth) =>
      if owner == thread then (locks[k := Held(thread, depth + 1)], true)
      else (locks, false)
  }

  function Release(locks: map<CaseKey, Lock>, k: CaseKey): map<CaseKey, Lock> {
    match LockOf(locks, k)
    case Free => locks
    case Held(owner, depth) => locks[k := if depth <= 1 then Free else Held(owner, depth - 1)]
  }

  class CaseLockManager {
    var locks: map<CaseKey, Lock>

    constructor ()
      ensures locks == map[]
    {
      locks := map[];
    }

    method TryAcquireLock(k: CaseKey, thread: nat) returns (acquired: bool)
      modifies this
      ensures (forall x :: LockOf(locks, x) == LockOf(TryAcquire(old(locks), k, thread).0, x))
      ensures acquired == TryAcquire(old(locks), k, thread).1
    {
      if k !in locks {
        locks := locks[k := Free];
      }
      match locks[k] {
        case Free =>
          locks := locks[k := Held(thread, 1)];
          return true;
        case Held(owner, depth) =>
          if owner == thread {
            locks := locks[k := Held(thread, depth + 1)];
            return true;
          }
          return false;
      }
    }

    method ReleaseLock(k: CaseKey)
      modifies this
      ensures locks == Release(old(locks), k)
    {
      match LockOf(locks, k) {
        case Free =>
        case Held(owner, depth) =>
          locks := locks[k := if depth <= 1 then Free else Held(owner, depth - 1)];
      }
    }
  }

  // ----- replay log ---------------------------------------------------------

  /** The caller's `OrderCase`, as far as the harness uses it. */
  datatype Snapshot = Snapshot(key: CaseKey, tier: int)

  datatype EventId = EventId(caseId: string, iterations: int, position: nat)

  datatype Entry = Entry(id: EventId, caseId: string, tenantId: string, toolName: string, step: Step, outcome: Outcome)

  function EntryAt(r: RunResult, c: Snapshot, i: nat): Entry
    requires i < |r.trace|
  {
    Entry(EventId(c.key.caseId, r.iterations, i), c.key.caseId, c.key.tenant, r.trace[i].call.name, r.trace[i],
          r.outcome)
  }

  /** The replay entries of one step, in trace order. */
  function Lift(r: RunResult, c: Snapshot): seq<Entry> {
    seq(|r.trace|, i requires 0 <= i < |r.trace| => EntryAt(r, c, i))
  }

  /** What a step's entries say: one per trace entry, in trace order, each with that call and
      its result, its position, the case and the run's outcome. */
  ghost predicate Renders(entries: seq<Entry>, r: RunResult, c: Snapshot) {
    && |entries| == |r.trace|
    && forall i :: 0 <= i < |entries| ==>
         && entries[i].step == r.trace[i] && entries[i].toolName == r.trace[i].call.name
         && entries[i].id == EventId(c.key.caseId, r.iterations, i) && entries[i].outcome == r.outcome
         && entries[i].caseId == c.key.caseId && entries[i].tenantId == c.key.tenant
  }

  lemma LiftRenders(r: RunResult, c: Snapshot)
    ensures Renders(Lift(r, c), r, c)
  {
  }

  /** So event ids are distinct within a step, and the trace can be read back from the log. */
  lemma RenderingIsFaithful(entries: seq<Entry>, r: RunResult, c: Snapshot, r': RunResult)
    requires Renders(entries, r, c)
    ensures forall i, j :: 0 <= i < j < |entries| ==> entries[i].id != entries[j].id
    ensures Renders(entries, r', c) ==> r'.trace == r.trace
  {
    if Renders(entries, r', c) {
      forall i | 0 <= i < |entries| ensures r'.trace[i] == r.trace[i] {
        assert entries[i].step == r.trace[i];
      }
    }
  }

  function ForCase(caseId: string): Entry -> bool {
    (e: Entry) => e.caseId == caseId
  }

  class ToolCallReplayLog {
    var entries: seq<Entry>

    constructor ()
      ensures entries == []
    {
      entries := [];
    }

    method Record(e: Entry)
      modifies this
      ensures entries == old(entries) + [e]
    {
      entries := entries + [e];
    }

    /** _persist_tool_trace. */
    method PersistToolTrace(r: RunResult, c: Snapshot) returns (written: seq<Entry>)
      modifies this
      ensures written == Lift(r, c) && entries == old(entries) + Lift(r, c)
      ensures Renders(written, r, c)
    {
      written := [];
      for i := 0 to |r.trace|
        invariant written == Lift(r, c)[..i] && entries == old(entries) + Lift(r, c)[..i]
      {
        assert Lift(r, c)[..i + 1] == Lift(r, c)[..i] + [EntryAt(r, c, i)];
        written := written + [EntryAt(r, c, i)];
        Record(EntryAt(r, c, i));
      }
      assert Lift(r, c)[..|r.trace|] == Lift(r, c);
      LiftRenders(r, c);
    }
  }

  // ----- tiers --------------------------------------------------------------

  /** graduate_tier_if_needed. */
  function Graduated(tier: int, clean: bool): Option<int> {
    if clean then None else if tier == 1 then Some(2) else if tier == 2 then Some(3) else None
  }

  // ----- threads ------------------------------------------------------------

  datatype Phase =
    | Idle
    | Entered(c: Snapshot, clean: bool)
    | Looping(c: Snapshot)
    | Writing(c: Snapshot, entries: seq<Entry>, next: nat)
    | Closing(c: Snapshot)

  datatype DoneStep = DoneStep(key: CaseKey, entries: seq<Entry>)

  /** `tiers` is the case table's tier column; `done` the traces fully written so far. */
  datatype State = State(locks: map<CaseKey, Lock>, phases: map<nat, Phase>, tiers: map<string, int>,
                         log: seq<Entry>, done: seq<DoneStep>)

  datatype Move =
    | Enter(thread: nat, c: Snapshot, clean: bool)
    | Graduate(thread: nat)
    | LoopReturns(thread: nat, r: RunResult)
    | LoopRaises(thread: nat)
    | WriteEntry(thread: nat)
    | WritingDone(thread: nat)
    | Leave(thread: nat)
    | OpenCase(caseId: string)

  function PhaseOf(st: State, t: nat): Phase {
    if t in st.phases then st.phases[t] else Idle
  }

  /** run_agent_step of one thread, one action at a time; a move that does not fit
      the thread's phase does nothing. */
  function Next(st: State, m: Move): State {
    match m
    case Enter(t, c, clean) =>
      if PhaseOf(st, t) != Idle then st
      else
        var (locks', acquired) := TryAcquire(st.locks, c.key, t);
        if acquired then st.(locks := locks', phases := st.phases[t := Entered(c, clean)]) else st
    case Graduate(t) =>
      (match PhaseOf(st, t)
       case Entered(c, clean) =>
         (match Graduated(c.tier, clean)
          case None => st.(phases := st.phases[t := Looping(c)])
          case Some(tier) =>
            if c.key.caseId in st.tiers
            then st.(tiers := st.tiers[c.key.caseId := tier], phases := st.phases[t := Looping(c.(tier := tier))])
            else st.(phases := st.phases[t := Closing(c)]))
       case _ => st)
    case LoopReturns(t, r) =>
      (match PhaseOf(st, t)
       case Looping(c) => st.(phases := st.phases[t := Writing(c, Lift(r, c), 0)])
       case _ => st)
    case LoopRaises(t) =>
      (match PhaseOf(st, t)
       case Looping(c) => st.(phases := st.phases[t := Closing(c)])
       case _ => st)
    case WriteEntry(t) =>
      (match PhaseOf(st, t)
       case Writing(c, entries, next) =>
         if next < |entries|
         then st.(log := st.log + [entries[next]], phases := st.phases[t := Writing(c, entries, next + 1)])
         else st
       case _ => st)
    case WritingDone(t) =>
      (match PhaseOf(st, t)
       case Writing(c, entries, next) =>
         if next == |entries|
         then st.(done := st.done + [DoneStep(c.key, entries)], phases := st.phases[t := Closing(c)])
         else st
       case _ => st)
    case Leave(t) =>
      (match PhaseOf(st, t)
       case Closing(c) => st.(locks := Release(st.locks, c.key), phases := st.phases[t := Idle])
       case _ => st)
    case OpenCase(id) => if id in st.tiers then st else st.(tiers := st.tiers[id := 2])
  }

  const START := State(map[], map[], map[], [], [])

  function Play(moves: seq<Move>): State {
    if moves == [] then START else Next(Play(moves[..|moves| - 1]), moves[|moves| - 1])
  }

  // ----- mutual exclusion ---------------------------------------------------

  predicate InStep(p: Phase) {
    p != Idle
  }

  /** A lock is held exactly by the thread whose step is in progress on its case. */
  ghost predicate LocksMatch(st: State) {
    && (forall t :: t in st.phases && InStep(st.phases[t]) ==> LockOf(st.locks, st.phases[t].c.key) == Held(t, 1))
    && (forall k :: k in st.locks && st.locks[k].Held? ==>
          st.locks[k].owner in st.phases && InStep(st.phases[st.locks[k].owner])
            && st.phases[st.locks[k].owner].c.key == k)
  }

  /** A step keeps its case from the moment it enters until it leaves. */
  lemma InnerMoveKeepsCase(st: State, m: Move)
    requires !m.Enter? && !m.Leave? && !m.OpenCase?
    ensures var st' := Next(st, m);
            && st'.locks == st.locks
            && (st' == st || (&& st'.phases == st.phases[m.thread := PhaseOf(st', m.thread)]
                              && InStep(PhaseOf(st, m.thread)) && InStep(PhaseOf(st', m.thread))
                              && PhaseOf(st', m.thread).c.key == PhaseOf(st, m.thread).c.key))
  {
  }

  lemma NextKeepsLocksMatch(st: State, m: Move)
    requires LocksMatch(st)
    ensures LocksMatch(Next(st, m))
  {
    var st' := Next(st, m);
    match m {
      case Enter(t, c, clean) =>
        if st' != st {
          assert st'.phases == st.phases[t := Entered(c, clean)];
          assert st'.locks == st.locks[c.key := Held(t, 1)];
        }
      case Leave(t) =>
        if st' != st {
          var c := st.phases[t].c;
          assert LockOf(st.locks, c.key) == Held(t, 1);
          assert st'.locks == st.locks[c.key := Free] && st'.phases == st.phases[t := Idle];
        }
      case OpenCase(_) =>
      case Graduate(_) => InnerMoveKeepsCase(st, m);
      case LoopReturns(_, _) => InnerMoveKeepsCase(st, m);
      case LoopRaises(_) => InnerMoveKeepsCase(st, m);
      case WriteEntry(_) => InnerMoveKeepsCase(st, m);
      case WritingDone(_) => InnerMoveKeepsCase(st, m);
    }
  }

  lemma {:induction false} PlayKeepsLocksMatch(moves: seq<Move>)
    ensures LocksMatch(Play(moves))
  {
    if moves != [] {
      PlayKeepsLocksMatch(moves[..|moves| - 1]);
      NextKeepsLocksMatch(Play(moves[..|moves| - 1]), moves[|moves| - 1]);
    }
  }

  /** Over any interleaving at most one step body per (tenant, case) is in progress. */
  lemma MutualExclusion(moves: seq<Move>, t: nat, u: nat)
    requires var st := Play(moves);
             InStep(PhaseOf(st, t)) && InStep(PhaseOf(st, u)) && PhaseOf(st, t).c.key == PhaseOf(st, u).c.key
    ensures t == u
  {
    PlayKeepsLocksMatch(moves);
  }

  /** An idle thread is let in exactly when no step holds the case; a refusal changes nothing. */
  lemma EnteredIffFree(moves: seq<Move>, t: nat, c: Snapshot, clean: bool)
    requires PhaseOf(Play(moves), t) == Idle
    ensures var st := Play(moves); var st' := Next(st, Enter(t, c, clean));
            && (PhaseOf(st', t) == Entered(c, clean) <==>
                forall u :: u in st.phases && InStep(st.phases[u]) ==> st.phases[u].c.key != c.key)
            && (PhaseOf(st', t) == Idle ==> st' == st)
  {
    PlayKeepsLocksMatch(moves);
    var st := Play(moves);
    if LockOf(st.locks, c.key).Held? {
      assert st.locks[c.key].owner in st.phases;
    }
  }

  /** Leaving frees the lock, whichever way the step ended. */
  lemma LeaveFreesLock(moves: seq<Move>, t: nat)
    requires PhaseOf(Play(moves), t).Closing?
    ensures var st := Play(moves); var st' := Next(st, Leave(t));
            LockOf(st'.locks, PhaseOf(st, t).c.key) == Free && PhaseOf(st', t) == Idle
  {
    PlayKeepsLocksMatch(moves);
  }

  // ----- the replay log is made of whole step traces ------------------------

  function ForKey(k: CaseKey): Entry -> bool {
    (e: Entry) => CaseKey(e.tenantId, e.caseId) == k
  }

  /** The traces finished so far on a case, one after the other. */
  function Whole(done: seq<DoneStep>, k: CaseKey): seq<Entry> {
    if done == [] then []
    else
      var front := Whole(done[..|done| - 1], k);
      if done[|done| - 1].key == k then front + done[|done| - 1].entries else front
  }

  predicate WritesTo(p: Phase, k: CaseKey) {
    p.Writing? && p.c.key == k
  }

  ghost predicate PhasesOk(st: State) {
    forall t :: t in st.phases && st.phases[t].Writing? ==>
      && st.phases[t].next <= |st.phases[t].entries|
      && forall e :: e in st.phases[t].entries ==> ForKey(st.phases[t].c.key)(e)
  }

  /** The log of a case is its finished traces, plus what its one writer has written. */
  ghost predicate LogIsWhole(st: State, k: CaseKey) {
    && ((forall t :: t in st.phases ==> !WritesTo(st.phases[t], k)) ==>
          Filter(st.log, ForKey(k)) == Whole(st.done, k))
    && (forall t :: t in st.phases && WritesTo(st.phases[t], k) && st.phases[t].next <= |st.phases[t].entries| ==>
          Filter(st.log, ForKey(k)) == Whole(st.done, k) + st.phases[t].entries[..st.phases[t].next])
  }

  lemma NextKeepsPhasesOk(st: State, m: Move)
    requires PhasesOk(st)
    ensures PhasesOk(Next(st, m))
  {
  }

  /** A thread in a step is alone on its case. */
  lemma SoleWriter(st: State, t: nat, k: CaseKey)
    requires LocksMatch(st) && t in st.phases && InStep(st.phases[t])
    ensures st.phases[t].c.key == k ==> forall u :: u in st.phases && u != t ==> !WritesTo(st.phases[u], k)
  {
  }

  lemma WholeGrows(done: seq<DoneStep>, d: DoneStep, k: CaseKey)
    ensures Whole(done + [d], k) == Whole(done, k) + if d.key == k then d.entries else []
  {
    assert (done + [d])[..|done|] == done;
  }

  lemma OnlyWriter(st: State, t: nat, k: CaseKey)
    requires t in st.phases && WritesTo(st.phases[t], k) && st.phases[t].next <= |st.phases[t].entries|
    requires forall u :: u in st.phases && u != t ==> !WritesTo(st.phases[u], k)
    requires Filter(st.log, ForKey(k)) == Whole(st.done, k) + st.phases[t].entries[..st.phases[t].next]
    ensures LogIsWhole(st, k)
  {
  }

  /** A thread that writes to the case neither before nor after does not matter to it. */
  lemma BystanderKeepsLog(st: State, st': State, t: nat, k: CaseKey)
    requires LogIsWhole(st, k) && t in st'.phases && st'.phases == st.phases[t := st'.phases[t]]
    requires !WritesTo(PhaseOf(st, t), k) && !WritesTo(st'.phases[t], k)
    requires Filter(st'.log, ForKey(k)) == Filter(st.log, ForKey(k))
    requires Whole(st'.done, k) == Whole(st.done, k)
    ensures LogIsWhole(st', k)
  {
    forall u | u in st'.phases && u != t ensures u in st.phases && st'.phases[u] == st.phases[u] {
    }
    if forall u :: u in st'.phases ==> !WritesTo(st'.phases[u], k) {
      forall u | u in st.phases ensures !WritesTo(st.phases[u], k) {
        assert u != t ==> st'.phases[u] == st.phases[u];
      }
    }
  }

  /** Only the three writing moves can affect what LogIsWhole says of a case. */
  lemma OtherMoveKeepsLog(st: State, m: Move, k: CaseKey)
    requires LogIsWhole(st, k) && !m.LoopReturns? && !m.WriteEntry? && !m.WritingDone?
    ensures LogIsWhole(Next(st, m), k)
  {
    var st' := Next(st, m);
    assert st'.log == st.log && st'.done == st.done;
    if !m.OpenCase? && st' != st {
      assert st'.phases == st.phases[m.thread := PhaseOf(st', m.thread)];
      assert !PhaseOf(st', m.thread).Writing? && !PhaseOf(st, m.thread).Writing?;
      BystanderKeepsLog(st, st', m.thread, k);
    }
  }

  lemma StartWritingKeepsLog(st: State, t: nat, r: RunResult, k: CaseKey)
    requires LocksMatch(st) && LogIsWhole(st, k)
    ensures LogIsWhole(Next(st, LoopReturns(t, r)), k)
  {
    var st' := Next(st, LoopReturns(t, r));
    if st' != st {
      var c := st.phases[t].c;
      assert st'.phases == st.phases[t := Writing(c, Lift(r, c), 0)];
      if c.key == k {
        SoleWriter(st, t, k);
        NextKeepsLocksMatch(st, LoopReturns(t, r));
        SoleWriter(st', t, k);
        assert Whole(st.done, k) + Lift(r, c)[..0] == Whole(st.done, k);
        OnlyWriter(st', t, k);
      } else {
        BystanderKeepsLog(st, st', t, k);
      }
    }
  }

  /** One write appends the writer's next entry, to the log of its own case only. */
  lemma WriteAddsEntry(st: State, t: nat, k: CaseKey)
    requires PhasesOk(st) && PhaseOf(st, t).Writing? && PhaseOf(st, t).next < |PhaseOf(st, t).entries|
    ensures var Writing(c, entries, next) := PhaseOf(st, t); var st' := Next(st, WriteEntry(t));
            && st'.phases == st.phases[t := Writing(c, entries, next + 1)] && st'.done == st.done
            && Filter(st'.log, ForKey(k)) == Filter(st.log, ForKey(k)) + if c.key == k then [entries[next]] else []
  {
    var Writing(c, entries, next) := st.phases[t];
    var e := entries[next];
    assert e in entries;
    FilterConcat(st.log, [e], ForKey(k));
    assert [e][..0] == [];
  }

  lemma WriteKeepsLog(st: State, t: nat, k: CaseKey)
    requires LocksMatch(st) && PhasesOk(st) && LogIsWhole(st, k)
    ensures LogIsWhole(Next(st, WriteEntry(t)), k)
  {
    var st' := Next(st, WriteEntry(t));
    if st' != st {
      WriteAddsEntry(st, t, k);
      var Writing(c, entries, next) := st.phases[t];
      if c.key == k {
        SoleWriter(st, t, k);
        assert WritesTo(st.phases[t], k);
        assert entries[..next + 1] == entries[..next] + [entries[next]];
        OnlyWriter(st', t, k);
      } else {
        BystanderKeepsLog(st, st', t, k);
      }
    }
  }

  lemma FinishKeepsLog(st: State, t: nat, k: CaseKey)
    requires LocksMatch(st) && PhasesOk(st) && LogIsWhole(st, k)
    ensures LogIsWhole(Next(st, WritingDone(t)), k)
  {
    var st' := Next(st, WritingDone(t));
    if st' != st {
      var Writing(c, entries, next) := st.phases[t];
      assert entries[..next] == entries;
      assert st'.phases == st.phases[t := Closing(c)];
      WholeGrows(st.done, DoneStep(c.key, entries), k);
      if c.key == k {
        assert WritesTo(st.phases[t], k);
        NextKeepsLocksMatch(st, WritingDone(t));
        SoleWriter(st', t, k);
      } else {
        BystanderKeepsLog(st, st', t, k);
      }
    }
  }

  /** Over any interleaving the replay log of each (tenant, case) is the concatenation of
      whole, uninterleaved step traces, plus the part its one current writer has written. */
  lemma {:induction false} PlayKeepsLogWhole(moves: seq<Move>, k: CaseKey)
    ensures PhasesOk(Play(moves)) && LogIsWhole(Play(moves), k)
  {
    if moves != [] {
      var front, m := moves[..|moves| - 1], moves[|moves| - 1];
      PlayKeepsLogWhole(front, k);
      PlayKeepsLocksMatch(front);
      NextKeepsPhasesOk(Play(front), m);
      match m {
        case LoopReturns(t, r) => StartWritingKeepsLog(Play(front), t, r, k);
        case WriteEntry(t) => WriteKeepsLog(Play(front), t, k);
        case WritingDone(t) => FinishKeepsLog(Play(front), t, k);
        case Enter(_, _, _) => OtherMoveKeepsLog(Play(front), m, k);
        case Graduate(_) => OtherMoveKeepsLog(Play(front), m, k);
        case LoopRaises(_) => OtherMoveKeepsLog(Play(front), m, k);
        case Leave(_) => OtherMoveKeepsLog(Play(front), m, k);
        case OpenCase(_) => OtherMoveKeepsLog(Play(front), m, k);
      }
    }
  }

  /** The entries render, in order, the whole trace of one loop result of the run. */
  ghost predicate Rendered(moves: seq<Move>, k: CaseKey, entries: seq<Entry>) {
    exists i, c: Snapshot ::
      0 <= i < |moves| && moves[i].LoopReturns? && c.key == k && Renders(entries, moves[i].r, c)
  }

  ghost predicate AllRendered(moves: seq<Move>, st: State) {
    && (forall t :: t in st.phases && st.phases[t].Writing? ==>
          Rendered(moves, st.phases[t].c.key, st.phases[t].entries))
    && (forall d :: d in st.done ==> Rendered(moves, d.key, d.entries))
  }

  lemma RenderedStays(moves: seq<Move>, m: Move, k: CaseKey, entries: seq<Entry>)
    requires Rendered(moves, k, entries)
    ensures Rendered(moves + [m], k, entries)
  {
    var i, c: Snapshot :|
      0 <= i < |moves| && moves[i].LoopReturns? && c.key == k && Renders(entries, moves[i].r, c);
    assert (moves + [m])[i] == moves[i];
  }

  lemma NextKeepsRendered(moves: seq<Move>, st: State, m: Move)
    requires AllRendered(moves, st)
    ensures AllRendered(moves + [m], Next(st, m))
  {
    var st' := Next(st, m);
    forall t | t in st'.phases && st'.phases[t].Writing?
      ensures Rendered(moves + [m], st'.phases[t].c.key, st'.phases[t].entries)
    {
      if t in st.phases && st.phases[t].Writing? && st.phases[t].c.key == st'.phases[t].c.key
         && st.phases[t].entries == st'.phases[t].entries {
        RenderedStays(moves, m, st.phases[t].c.key, st.phases[t].entries);
      } else {
        assert m.LoopReturns? && (moves + [m])[|moves|] == m && st'.phases[t].entries == Lift(m.r, st'.phases[t].c);
        LiftRenders(m.r, st'.phases[t].c);
      }
    }
    forall d | d in st'.done ensures Rendered(moves + [m], d.key, d.entries) {
      if d in st.done {
        RenderedStays(moves, m, d.key, d.entries);
      } else {
        RenderedStays(moves, m, st.phases[m.thread].c.key, st.phases[m.thread].entries);
      }
    }
  }

  /** So each finished trace in PlayKeepsLogWhole, and the one being written, is the
      rendering of one loop result. */
  lemma {:induction false} PlayKeepsRendered(moves: seq<Move>)
    ensures AllRendered(moves, Play(moves))
  {
    if moves != [] {
      var front := moves[..|moves| - 1];
      PlayKeepsRendered(front);
      NextKeepsRendered(front, Play(front), moves[|moves| - 1]);
      assert front + [moves[|moves| - 1]] == moves;
    }
  }

  /** Every case belongs to one tenant, and snapshots say so. */
  predicate Owned(owner: string -> string, m: Move) {
    m.Enter? ==> m.c.key.tenant == owner(m.c.key.caseId)
  }

  ghost predicate EntriesOwned(owner: string -> string, entries: seq<Entry>) {
    forall e :: e in entries ==> e.tenantId == owner(e.caseId)
  }

  ghost predicate StateOwned(owner: string -> string, st: State) {
    && EntriesOwned(owner, st.log)
    && (forall t :: t in st.phases && InStep(st.phases[t]) ==>
          st.phases[t].c.key.tenant == owner(st.phases[t].c.key.caseId))
    && (forall t :: t in st.phases && st.phases[t].Writing? ==> EntriesOwned(owner, st.phases[t].entries))
  }

  lemma NextKeepsOwned(owner: string -> string, st: State, m: Move)
    requires StateOwned(owner, st) && Owned(owner, m)
    ensures StateOwned(owner, Next(st, m))
  {
    var st' := Next(st, m);
    if !m.OpenCase? && st' != st {
      assert st'.phases == st.phases[m.thread := PhaseOf(st', m.thread)];
    }
  }

  lemma {:induction false} PlayKeepsOwned(moves: seq<Move>, owner: string -> string)
    requires forall i :: 0 <= i < |moves| ==> Owned(owner, moves[i])
    ensures StateOwned(owner, Play(moves))
  {
    if moves != [] {
      PlayKeepsOwned(moves[..|moves| - 1], owner);
      NextKeepsOwned(owner, Play(moves[..|moves| - 1]), moves[|moves| - 1]);
    }
  }

  /** Then `list_for_case`, which reads the log by case id alone, gives one case's log. */
  lemma CaseLogIsKeyLog(moves: seq<Move>, owner: string -> string, caseId: string)
    requires forall i :: 0 <= i < |moves| ==> Owned(owner, moves[i])
    ensures Filter(Play(moves).log, ForCase(caseId)) == Filter(Play(moves).log, ForKey(CaseKey(owner(caseId), caseId)))
  {
    PlayKeepsOwned(moves, owner);
    SameFilter(Play(moves).log, ForCase(caseId), ForKey(CaseKey(owner(caseId), caseId)));
  }

  // ----- tiers over a run ---------------------------------------------------

  /** Graduation writes the snapshot's next tier: the stored tier falls exactly when
      the snapshot lags two or more behind it. */
  lemma TierFallsIff(st: State, t: nat)
    requires PhaseOf(st, t).Entered? && PhaseOf(st, t).c.key.caseId in st.tiers
    ensures var Entered(c, clean) := PhaseOf(st, t); var id := c.key.caseId; var st' := Next(st, Graduate(t));
            && st'.tiers[id] < st.tiers[id] <==> !clean && (c.tier == 1 || c.tier == 2) && c.tier + 1 < st.tiers[id]
  {
  }

  /** Only a thread's own Graduate move, once per step, changes the tier. */
  lemma TierMovesOncePerStep(st: State, m: Move, caseId: string)
    requires caseId in st.tiers && Next(st, m).tiers != st.tiers && Next(st, m).tiers[caseId] != st.tiers[caseId]
    ensures m.Graduate? && PhaseOf(st, m.thread).Entered? && PhaseOf(Next(st, m), m.thread).Looping?
  {
  }

  /** Cases open at tier 2, so a caller's snapshot, however old, carries at least that. */
  predicate AtLeastTwo(m: Move) {
    m.Enter? ==> m.c.tier >= 2
  }

  /** Stored tiers are 2 or 3, and no step in progress carries less than 2. */
  ghost predicate TiersOk(st: State) {
    && (forall id :: id in st.tiers ==> 2 <= st.tiers[id] <= 3)
    && (forall t :: t in st.phases && InStep(st.phases[t]) ==> st.phases[t].c.tier >= 2)
  }

  lemma NextKeepsTiers(st: State, m: Move, caseId: string)
    requires TiersOk(st) && AtLeastTwo(m)
    ensures TiersOk(Next(st, m))
    ensures caseId in st.tiers ==>
              caseId in Next(st, m).tiers && st.tiers[caseId] <= Next(st, m).tiers[caseId] <= st.tiers[caseId] + 1
  {
  }

  lemma {:induction false} PlayKeepsTiers(moves: seq<Move>)
    requires forall i :: 0 <= i < |moves| ==> AtLeastTwo(moves[i])
    ensures TiersOk(Play(moves))
  {
    if moves != [] {
      PlayKeepsTiers(moves[..|moves| - 1]);
      NextKeepsTiers(Play(moves[..|moves| - 1]), moves[|moves| - 1], "");
    }
  }

  /** No move of such a run lowers a stored tier or raises it by more than one, even with
      snapshots read long before the lock was taken. */
  lemma TierMovesForward(moves: seq<Move>, m: Move, caseId: string)
    requires (forall i :: 0 <= i < |moves| ==> AtLeastTwo(moves[i])) && AtLeastTwo(m) && caseId in Play(moves).tiers
    ensures var st := Play(moves);
            caseId in Next(st, m).tiers && st.tiers[caseId] <= Next(st, m).tiers[caseId] <= st.tiers[caseId] + 1
  {
    PlayKeepsTiers(moves);
    NextKeepsTiers(Play(moves), m, caseId);
  }

  /** So over such a run a stored tier never falls. */
  lemma {:induction false} TiersNeverFall(moves: seq<Move>, k: nat, caseId: string)
    requires k <= |moves| && caseId in Play(moves[..k]).tiers
    requires forall i :: 0 <= i < |moves| ==> AtLeastTwo(moves[i])
    ensures caseId in Play(moves).tiers && Play(moves[..k]).tiers[caseId] <= Play(moves).tiers[caseId]
  {
    if k == |moves| {
      assert moves[..k] == moves;
    } else {
      var front := moves[..|moves| - 1];
      assert front[..k] == moves[..k];
      TiersNeverFall(front, k, caseId);
      TierMovesForward(front, moves[|moves| - 1], caseId);
    }
  }

  /** The snapshot was read from the table at some earlier moment of the run. */
  ghost predicate ReadEarlier(moves: seq<Move>, i: nat)
    requires i < |moves|
  {
    moves[i].Enter? ==>
      exists k :: 0 <= k <= i && var c := moves[i].c;
                  c.key.caseId in Play(moves[..k]).tiers && c.tier == Play(moves[..k]).tiers[c.key.caseId]
  }

  /** Hence callers that pass rows they once read, however stale, are covered. */
  lemma {:induction false} ReadRowsAreAtLeastTwo(moves: seq<Move>)
    requires forall i :: 0 <= i < |moves| ==> ReadEarlier(moves, i)
    ensures forall i :: 0 <= i < |moves| ==> AtLeastTwo(moves[i])
  {
    if moves != [] {
      var n := |moves| - 1;
      var front := moves[..n];
      forall i | 0 <= i < n ensures ReadEarlier(front, i) {
        assert ReadEarlier(moves, i);
        assert forall k :: 0 <= k <= i ==> front[..k] == moves[..k];
      }
      ReadRowsAreAtLeastTwo(front);
      if moves[n].Enter? {
        assert ReadEarlier(moves, n);
        var k :| 0 <= k <= n && moves[n].c.key.caseId in Play(moves[..k]).tiers
                 && moves[n].c.tier == Play(moves[..k]).tiers[moves[n].c.key.caseId];
        assert moves[..k] == front[..k];
        PlayKeepsTiers(moves[..k]);
      }
    }
  }

  function FallingRun(k: CaseKey): seq<Move> {
    [OpenCase(k.caseId), Enter(0, Snapshot(k, 2), false), Graduate(0), LoopRaises(0), Leave(0),
     Enter(0, Snapshot(k, 1), false), Graduate(0)]
  }

  lemma PlayNext(moves: seq<Move>, i: nat)
    requires i < |moves|
    ensures Play(moves[..i + 1]) == Next(Play(moves[..i]), moves[i])
  {
    assert moves[..i + 1][..i] == moves[..i];
  }

  lemma FirstTwoMoves(k: CaseKey)
    ensures Play(FallingRun(k)[..2]) == START.(tiers := map[k.caseId := 2], locks := map[k := Held(0, 1)],
                                               phases := map[0 := Entered(Snapshot(k, 2), false)])
  {
    PlayNext(FallingRun(k), 0);
    PlayNext(FallingRun(k), 1);
  }

  lemma FirstThreeMoves(k: CaseKey)
    ensures Play(FallingRun(k)[..3]) == START.(tiers := map[k.caseId := 3], locks := map[k := Held(0, 1)],
                                               phases := map[0 := Looping(Snapshot(k, 3))])
  {
    FirstTwoMoves(k);
    PlayNext(FallingRun(k), 2);
    assert map[0 := Entered(Snapshot(k, 2), false)][0 := Looping(Snapshot(k, 3))] == map[0 := Looping(Snapshot(k, 3))];
    assert map[k.caseId := 2][k.caseId := 3] == map[k.caseId := 3];
  }

  lemma RaiseAndLeave(st: State, t: nat, c: Snapshot)
    requires t in st.phases && st.phases[t] == Looping(c) && LockOf(st.locks, c.key) == Held(t, 1)
    ensures Next(Next(st, LoopRaises(t)), Leave(t)) ==
              st.(locks := st.locks[c.key := Free], phases := st.phases[t := Idle])
  {
    assert st.phases[t := Closing(c)][t := Idle] == st.phases[t := Idle];
  }

  lemma FirstFiveMoves(k: CaseKey)
    ensures Play(FallingRun(k)[..5]) ==
              START.(tiers := map[k.caseId := 3], locks := map[k := Free], phases := map[0 := Idle])
  {
    var third := START.(tiers := map[k.caseId := 3], locks := map[k := Held(0, 1)],
                        phases := map[0 := Looping(Snapshot(k, 3))]);
    FirstThreeMoves(k);
    PlayNext(FallingRun(k), 3);
    PlayNext(FallingRun(k), 4);
    RaiseAndLeave(third, 0, Snapshot(k, 3));
    assert third.locks[k := Free] == map[k := Free] && third.phases[0 := Idle] == map[0 := Idle];
  }

  /** A snapshot of tier 1, which no stored row supplies, would bring a tier-3 case down to 2. */
  lemma TierOneSnapshotFalls(k: CaseKey)
    ensures Play(FallingRun(k)[..6]).tiers == map[k.caseId := 3]
    ensures Play(FallingRun(k)).tiers == map[k.caseId := 2]
  {
    var ms := FallingRun(k);
    FirstFiveMoves(k);
    PlayNext(ms, 5);
    PlayNext(ms, 6);
    assert Play(ms[..6]).phases == map[0 := Entered(Snapshot(k, 1), false)];
    assert ms[..7] == ms;
  }
}
