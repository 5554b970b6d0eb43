/**
 One harness step as `run_agent_step` runs it (agents/harness.py), and that its
 effect is the one of its own moves in the machine of threads.
 */
module HarnessStep {
  import opened Wrappers
  import opened Sequences
  import opened AgentLoop
  import opened Compaction
  import opened Harness

  /** How far a step gets before the agent loop: not at all, stopped by an
      exception, or into the loop with this snapshot. */
  datatype Start = Refused | UnknownCase | NoBudget(tier: int) | Runs(c: Snapshot)

  function Current(c: Snapshot, clean: bool): Snapshot {
    match Graduated(c.tier, clean)
    case None => c
    case Some(tier) => c.(tier := tier)
  }

  predicate Updatable(tiers: map<string, int>, c: Snapshot, clean: bool) {
    Graduated(c.tier, clean).Some? ==> c.key.caseId in tiers
  }

  /** `handed` is whether the caller passes a budget of its own. */
  function StartOf(locks: map<CaseKey, Lock>, tiers: map<string, int>, thread: nat, c: Snapshot, clean: bool,
                   handed: bool): Start {
    if !TryAcquire(locks, c.key, thread).1 then Refused
    else if !Updatable(tiers, c, clean) then UnknownCase
    else if !handed && ForTier(Current(c, clean).tier) == None then NoBudget(Current(c, clean).tier)
    else Runs(Current(c, clean))
  }

  function TiersAfter(tiers: map<string, int>, c: Snapshot, clean: bool, start: Start): map<string, int> {
    if start.Refused? || start.UnknownCase? || Graduated(c.tier, clean) == None then tiers
    else tiers[c.key.caseId := Current(c, clean).tier]
  }

  ghost predicate SameLocks(a: map<CaseKey, Lock>, b: map<CaseKey, Lock>) {
    forall k :: LockOf(a, k) == LockOf(b, k)
  }

  /** Acquiring and releasing undo each other, also when the thread holds the lock already. */
  lemma ReleaseUndoesAcquire(locks: map<CaseKey, Lock>, k: CaseKey, thread: nat)
    requires forall x :: x in locks && locks[x].Held? ==> locks[x].depth > 0
    requires TryAcquire(locks, k, thread).1
    ensures SameLocks(Release(TryAcquire(locks, k, thread).0, k), locks)
  {
  }

  lemma ReleaseRespectsLocks(a: map<CaseKey, Lock>, b: map<CaseKey, Lock>, k: CaseKey)
    requires SameLocks(a, b)
    ensures SameLocks(Release(a, k), Release(b, k))
  {
    forall x ensures LockOf(Release(a, k), x) == LockOf(Release(b, k), x) {
      assert LockOf(a, k) == LockOf(b, k) && LockOf(a, x) == LockOf(b, x);
    }
  }

  /** How a step that reached the agent loop ends. An exception in compaction or in the
      L2 shadow leaves the trace logged; one in the loop leaves nothing. */
  datatype End = NotRun | LoopRaised | CompactionRaised | ShadowRaised | Finished(c: Snapshot)

  /** What the step depends on beside the loop's outcome: the summary that the agent's note
      tool leaves on the case, if it is called; the case's age; how an entry renders as an
      event line; and whether the shadow, if asked, raises. */
  datatype Setting = Setting(noted: Option<string>, ageSeconds: int, render: Entry -> string, shadowRaises: bool)

  /** The note tool writes the summary of a known case, while the loop runs. */
  function Noted(summaries: map<string, string>, start: Start, tiers: map<string, int>,
                 g: Setting): map<string, string> {
    if start.Runs? && g.noted.Some? && start.c.key.caseId in tiers
    then summaries[start.c.key.caseId := g.noted.value] else summaries
  }

  function Lines(entries: seq<Entry>, render: Entry -> string): seq<string> {
    seq(|entries|, i requires 0 <= i < |entries| => render(entries[i]))
  }

  /** The trigger, evaluated on the case's whole log after the trace has been written. */
  predicate Compacts(log: seq<Entry>, caseId: string, ageSeconds: int) {
    Evaluate(|Filter(log, ForCase(caseId))|, None, ageSeconds) != NoTrigger
  }

  /** The end of a step, from what the loop returned and the log it was written to. */
  function EndOf(start: Start, ran: Option<RunResult>, log: seq<Entry>, tiers: map<string, int>, g: Setting): End {
    if !start.Runs? || ran == None then NotRun
    else if ran.value.outcome == UNCAUGHT then LoopRaised
    else if Compacts(log, start.c.key.caseId, g.ageSeconds) && start.c.key.caseId !in tiers then CompactionRaised
    else if g.shadowRaises then ShadowRaised
    else if start.c.key.caseId in tiers then Finished(start.c.(tier := tiers[start.c.key.caseId]))
    else Finished(start.c)
  }

  function Written(start: Start, ran: Option<RunResult>): seq<Entry> {
    if start.Runs? && ran.Some? && ran.value.outcome != UNCAUGHT then Lift(ran.value, start.c) else []
  }

  /** A step past the loop logs its whole trace and nothing else; any other logs nothing. */
  lemma WrittenIsTrace(start: Start, ran: Option<RunResult>)
    requires ran.Some? ==> start.Runs?
    ensures if ran.Some? && ran.value.outcome != UNCAUGHT then Renders(Written(start, ran), ran.value, start.c)
            else Written(start, ran) == []
  {
  }

  /** `after` is `before` with the case's summary replaced when compaction fired on a known case. */
  ghost predicate Summarised(before: map<string, string>, after: map<string, string>, start: Start, end: End,
                             log: seq<Entry>, tiers: map<string, int>, g: Setting)
  {
    if end.NotRun? || end.LoopRaised? || !start.Runs? || start.c.key.caseId !in tiers
       || !Compacts(log, start.c.key.caseId, g.ageSeconds)
    then after == before
    else
      var lines := Lines(Filter(log, ForCase(start.c.key.caseId)), g.render);
      exists k :: IsKept(lines, 8_000, k) && after == before[start.c.key.caseId := Joined(Output(lines, k))]
  }

  /** How far a step gets: another thread's lock refuses it; a case of tier 1 or 2 whose event is
      not clean graduates by one, in the table and for this step, which stops it if the case is
      unknown; and a step without a budget of its own needs a tier that has one. */
  lemma StartByCase(locks: map<CaseKey, Lock>, tiers: map<string, int>, thread: nat, c: Snapshot, clean: bool,
                    handed: bool)
    ensures var start := StartOf(locks, tiers, thread, c, clean, handed);
            var after := TiersAfter(tiers, c, clean, start);
            var graduates := !clean && (c.tier == 1 || c.tier == 2);
            var tier := if graduates then c.tier + 1 else c.tier;
            if c.key in locks && locks[c.key].Held? && locks[c.key].owner != thread
            then start == Refused && after == tiers
            else if graduates && c.key.caseId !in tiers then start == UnknownCase && after == tiers
            else && after == (if graduates then tiers[c.key.caseId := tier] else tiers)
                 && start == if handed || tier == 1 || tier == 2 || tier == 3 then Runs(Snapshot(c.key, tier))
                             else NoBudget(tier)
  {
  }

  /** How a step past its start ends: with the loop's exception, before anything is logged; else
      with that of compacting an unknown case, when the case's log has reached 25 entries or
      the case a week; else with the shadow's; else with the case as it is stored, if it is. */
  lemma EndByCase(c: Snapshot, r: RunResult, log: seq<Entry>, tiers: map<string, int>, g: Setting)
    ensures var end := EndOf(Runs(c), Some(r), log, tiers, g); var id := c.key.caseId;
            if r.outcome == UNCAUGHT then end == LoopRaised
            else if id !in tiers && (|Filter(log, ForCase(id))| >= 25 || g.ageSeconds >= 604_800)
            then end == CompactionRaised
            else if g.shadowRaises then end == ShadowRaised
            else end == Finished(Snapshot(c.key, if id in tiers then tiers[id] else c.tier))
  {
    TriggerThresholds(|Filter(log, ForCase(c.key.caseId))|, None, g.ageSeconds);
  }

  /** The compacted text is made of the case's whole log, entry by entry. */
  lemma LinesAreEntries(entries: seq<Entry>, render: Entry -> string, i: nat)
    requires i < |entries|
    ensures |Lines(entries, render)| == |entries| && Lines(entries, render)[i] == render(entries[i])
  {
  }

  /** What a step past the loop leaves as a known case's summary, before the 25th entry and the
      first week: the agent's note if it left one, or what was there. No other case's changes. */
  lemma NoteIsSummary(before: map<string, string>, after: map<string, string>, c: Snapshot, r: RunResult,
                      log: seq<Entry>, tiers: map<string, int>, g: Setting)
    requires r.outcome != UNCAUGHT && c.key.caseId in tiers
    requires Summarised(Noted(before, Runs(c), tiers, g), after, Runs(c), EndOf(Runs(c), Some(r), log, tiers, g), log,
                        tiers, g)
    requires |Filter(log, ForCase(c.key.caseId))| < 25 && g.ageSeconds < 604_800
    ensures after == if g.noted == None then before else before[c.key.caseId := g.noted.value]
  {
    TriggerThresholds(|Filter(log, ForCase(c.key.caseId))|, None, g.ageSeconds);
  }

  /** And from either on: the text of the kept lines of its whole log, whatever was noted. */
  lemma LogIsSummary(before: map<string, string>, after: map<string, string>, c: Snapshot, r: RunResult,
                     log: seq<Entry>, tiers: map<string, int>, g: Setting) returns (k: nat)
    requires r.outcome != UNCAUGHT && c.key.caseId in tiers
    requires Summarised(Noted(before, Runs(c), tiers, g), after, Runs(c), EndOf(Runs(c), Some(r), log, tiers, g), log,
                        tiers, g)
    requires |Filter(log, ForCase(c.key.caseId))| >= 25 || g.ageSeconds >= 604_800
    ensures var lines := Lines(Filter(log, ForCase(c.key.caseId)), g.render);
            IsKept(lines, 8_000, k) && after == before[c.key.caseId := Joined(Output(lines, k))]
  {
    var id := c.key.caseId;
    var noted := Noted(before, Runs(c), tiers, g);
    TriggerThresholds(|Filter(log, ForCase(id))|, None, g.ageSeconds);
    k := KeptText(noted, after, c, EndOf(Runs(c), Some(r), log, tiers, g), log, tiers, g);
    Overwritten(before, noted, id, Joined(Output(Lines(Filter(log, ForCase(id)), g.render), k)));
  }

  lemma KeptText(noted: map<string, string>, after: map<string, string>, c: Snapshot, end: End, log: seq<Entry>,
                 tiers: map<string, int>, g: Setting) returns (k: nat)
    requires c.key.caseId in tiers && !end.NotRun? && !end.LoopRaised? && Compacts(log, c.key.caseId, g.ageSeconds)
    requires Summarised(noted, after, Runs(c), end, log, tiers, g)
    ensures var lines := Lines(Filter(log, ForCase(c.key.caseId)), g.render);
            IsKept(lines, 8_000, k) && after == noted[c.key.caseId := Joined(Output(lines, k))]
  {
    var lines := Lines(Filter(log, ForCase(c.key.caseId)), g.render);
    k :| IsKept(lines, 8_000, k) && after == noted[c.key.caseId := Joined(Output(lines, k))];
  }

  lemma Overwritten(before: map<string, string>, noted: map<string, string>, id: string, text: string)
    requires noted == before || (id in noted && noted == before[id := noted[id]])
    ensures noted[id := text] == before[id := text]
  {
  }

  class AgentHarness {
    const manager: CaseLockManager
    const replay: ToolCallReplayLog
    /** The case table's tier and summary columns; a case is known when it has a tier. */
    var tiers: map<string, int>
    var summaries: map<string, string>

    constructor (stored: map<string, int>)
      ensures fresh(manager) && fresh(replay) && tiers == stored && summaries == map[]
      ensures manager.locks == map[] && replay.entries == []
    {
      manager := new CaseLockManager();
      replay := new ToolCallReplayLog();
      tiers := stored;
      summaries := map[];
    }

    /** run_agent_step. Whatever happens inside, every lock ends as it was; a step that gets
        through the loop has logged its whole trace, also when it raises afterwards. */
    method RunAgentStep(thread: nat, c: Snapshot, clean: bool, w: World, g: Setting, handed: CaseBudget?)
      returns (start: Start, ran: Option<RunResult>, end: End,
               ghost turns: nat, ghost limits: Limits, ghost before: Counters)
      requires forall k :: k in manager.locks && manager.locks[k].Held? ==> manager.locks[k].depth > 0
      modifies this, manager, replay, handed
      ensures start == StartOf(old(manager.locks), old(tiers), thread, c, clean, handed != null)
      ensures SameLocks(manager.locks, old(manager.locks))
      ensures tiers == TiersAfter(old(tiers), c, clean, start)
      ensures replay.entries == old(replay.entries) + Written(start, ran)
      ensures end == EndOf(start, ran, replay.entries, tiers, g)
      ensures Summarised(Noted(old(summaries), start, tiers, g), summaries, start, end, replay.entries, tiers, g)
      ensures ran.Some? <==> start.Runs?
      ensures start.Runs? ==> IsRun(w, limits, before, turns, ran.value)
      ensures !start.Runs? && handed != null ==> handed.Used() == old(handed.Used())
      ensures start.Runs? && handed == null ==>
                Some(limits) == ForTier(start.c.tier) && before == Counters(0, 0, 0, 0.0)
      ensures start.Runs? && handed != null ==>
                limits == handed.limits && before == old(handed.Used()) && handed.Used() == Spent(w, before, turns)
    {
      turns, limits, before := 0, Limits(0, 0, 0, 0, 0.0), Counters(0, 0, 0, 0.0);
      ghost var locks := manager.locks;
      var acquired := manager.TryAcquireLock(c.key, thread);
      if !acquired {
        return Refused, None, NotRun, turns, limits, before;
      }
      ReleaseUndoesAcquire(locks, c.key, thread);
      ReleaseRespectsLocks(manager.locks, TryAcquire(locks, c.key, thread).0, c.key);
      start, ran, turns, limits, before := EnterLoop(c, clean, w, g, handed);
      end := NotRun;
      if start.Runs? {
        end := Conclude(start.c, ran.value, g);
      }
      manager.ReleaseLock(c.key);
    }

    /** Graduation and the agent loop. */
    method EnterLoop(c: Snapshot, clean: bool, w: World, g: Setting, handed: CaseBudget?)
      returns (start: Start, ran: Option<RunResult>, ghost turns: nat, ghost limits: Limits, ghost before: Counters)
      modifies this`tiers, this`summaries, handed
      ensures start == if !Updatable(old(tiers), c, clean) then UnknownCase
                       else if handed == null && ForTier(Current(c, clean).tier) == None
                       then NoBudget(Current(c, clean).tier)
                       else Runs(Current(c, clean))
      ensures tiers == TiersAfter(old(tiers), c, clean, start)
      ensures summaries == Noted(old(summaries), start, tiers, g)
      ensures ran.Some? <==> start.Runs?
      ensures start.Runs? ==> IsRun(w, limits, before, turns, ran.value)
      ensures !start.Runs? && handed != null ==> handed.Used() == old(handed.Used())
      ensures start.Runs? && handed == null ==>
                Some(limits) == ForTier(start.c.tier) && before == Counters(0, 0, 0, 0.0)
      ensures start.Runs? && handed != null ==>
                limits == handed.limits && before == old(handed.Used()) && handed.Used() == Spent(w, before, turns)
    {
      turns, limits, before, ran := 0, Limits(0, 0, 0, 0, 0.0), Counters(0, 0, 0, 0.0), None;
      var current := c;
      var next := Graduated(c.tier, clean);
      if next.Some? {
        if c.key.caseId !in tiers {
          start := UnknownCase;
          return;
        }
        tiers := tiers[c.key.caseId := next.value];
        current := c.(tier := next.value);
      }
      var budget: CaseBudget;
      if handed == null {
        var table := ForTier(current.tier);
        if table == None {
          start := NoBudget(current.tier);
          return;
        }
        budget := new CaseBudget(table.value);
      } else {
        budget := handed;
      }
      start, limits, before := Runs(current), budget.limits, budget.Used();
      var r;
      r, turns := RunCaseAgent(budget, w);
      ran := Some(r);
      if g.noted.Some? && current.key.caseId in tiers {
        summaries := summaries[current.key.caseId := g.noted.value];
      }
    }

    /** What follows the loop: the trace is logged, then the case compacted, then the shadow asked. */
    method Conclude(c: Snapshot, r: RunResult, g: Setting) returns (end: End)
      modifies this`summaries, replay
      ensures replay.entries == old(replay.entries) + Written(Runs(c), Some(r))
      ensures end == EndOf(Runs(c), Some(r), replay.entries, tiers, g)
      ensures Summarised(old(summaries), summaries, Runs(c), end, replay.entries, tiers, g)
    {
      if r.outcome == UNCAUGHT {
        return LoopRaised;
      }
      var _ := replay.PersistToolTrace(r, c);
      var lines := Lines(Filter(replay.entries, ForCase(c.key.caseId)), g.render);
      var compaction := RunCompaction(lines, None, g.ageSeconds);
      if compaction.Some? {
        if c.key.caseId !in tiers {
          return CompactionRaised;
        }
        summaries := summaries[c.key.caseId := compaction.value.summary];
      }
      if g.shadowRaises {
        return ShadowRaised;
      }
      end := Finished(if c.key.caseId in tiers then c.(tier := tiers[c.key.caseId]) else c);
    }
  }

  // ----- the step as moves --------------------------------------------------

  function PlayFrom(st: State, moves: seq<Move>): State
    decreases |moves|
  {
    if moves == [] then st else PlayFrom(Next(st, moves[0]), moves[1..])
  }

  lemma {:induction false} PlayFromConcat(st: State, a: seq<Move>, b: seq<Move>)
    ensures PlayFrom(st, a + b) == PlayFrom(PlayFrom(st, a), b)
    decreases |a|
  {
    if a == [] {
      assert a + b == b;
    } else {
      PlayFromConcat(Next(st, a[0]), a[1..], b);
      assert (a + b)[1..] == a[1..] + b;
    }
  }

  /** Continuing a run is playing the longer list of moves. */
  lemma {:induction false} PlayContinues(moves: seq<Move>, more: seq<Move>)
    ensures Play(moves + more) == PlayFrom(Play(moves), more)
    decreases |more|
  {
    if more == [] {
      assert moves + more == moves;
    } else {
      PlayContinues(moves + [more[0]], more[1..]);
      assert moves + more == moves + [more[0]] + more[1..];
      assert (moves + [more[0]])[..|moves|] == moves;
    }
  }

  function Writes(t: nat, n: nat): seq<Move> {
    seq(n, _ => WriteEntry(t))
  }

  /** The moves of one step of thread `t`: `ran` is what the loop gave, if it was reached. */
  function StepMoves(t: nat, c: Snapshot, clean: bool, start: Start, ran: Option<RunResult>): seq<Move> {
    match start
    case Refused => [Enter(t, c, clean)]
    case UnknownCase => [Enter(t, c, clean), Graduate(t), Leave(t)]
    case NoBudget(_) => [Enter(t, c, clean), Graduate(t), LoopRaises(t), Leave(t)]
    case Runs(_) =>
      if ran == None || ran.value.outcome == UNCAUGHT then [Enter(t, c, clean), Graduate(t), LoopRaises(t), Leave(t)]
      else [Enter(t, c, clean), Graduate(t), LoopReturns(t, ran.value)] + Writes(t, |ran.value.trace|)
           + [WritingDone(t), Leave(t)]
  }

  lemma OneWrite(st: State, t: nat)
    requires PhaseOf(st, t).Writing? && PhaseOf(st, t).next < |PhaseOf(st, t).entries|
    ensures var Writing(c, entries, next) := PhaseOf(st, t);
            Next(st, WriteEntry(t)) ==
            st.(log := st.log + [entries[next]], phases := st.phases[t := Writing(c, entries, next + 1)])
  {
  }

  lemma {:induction false} WritesAppend(st: State, t: nat, n: nat)
    requires PhaseOf(st, t).Writing? && PhaseOf(st, t).next + n == |PhaseOf(st, t).entries|
    ensures var Writing(c, entries, next) := PhaseOf(st, t);
            PlayFrom(st, Writes(t, n)) ==
            st.(log := st.log + entries[next..], phases := st.phases[t := Writing(c, entries, |entries|)])
    decreases n
  {
    var Writing(c, entries, next) := PhaseOf(st, t);
    var done := Writing(c, entries, |entries|);
    if n == 0 {
      assert entries[next..] == [] && st.phases[t := done] == st.phases;
    } else {
      var st' := Next(st, WriteEntry(t));
      OneWrite(st, t);
      WritesAppend(st', t, n - 1);
      assert Writes(t, n)[1..] == Writes(t, n - 1);
      assert entries[next..] == [entries[next]] + entries[next + 1..];
      assert st'.phases[t := done] == st.phases[t := done];
    }
  }

  function FromLoop(t: nat, r: RunResult): seq<Move> {
    [LoopReturns(t, r)] + Writes(t, |r.trace|) + [WritingDone(t), Leave(t)]
  }

  lemma RaisingStep(st: State, t: nat, c: Snapshot)
    requires PhaseOf(st, t) == Looping(c)
    ensures PlayFrom(st, [LoopRaises(t), Leave(t)]) ==
              st.(locks := Release(st.locks, c.key), phases := st.phases[t := Idle])
  {
    var st1 := Next(st, LoopRaises(t));
    assert [LoopRaises(t), Leave(t)][1..] == [Leave(t)];
    assert PlayFrom(st1, [Leave(t)]) == Next(st1, Leave(t));
    assert st1.phases[t := Idle] == st.phases[t := Idle];
  }

  lemma WritingStep(st: State, t: nat, c: Snapshot, entries: seq<Entry>)
    requires PhaseOf(st, t) == Writing(c, entries, |entries|)
    ensures PlayFrom(st, [WritingDone(t), Leave(t)]) ==
            st.(locks := Release(st.locks, c.key), phases := st.phases[t := Idle],
                done := st.done + [DoneStep(c.key, entries)])
  {
    var st1 := Next(st, WritingDone(t));
    assert [WritingDone(t), Leave(t)][1..] == [Leave(t)];
    assert PlayFrom(st1, [Leave(t)]) == Next(st1, Leave(t));
    assert st1.phases[t := Idle] == st.phases[t := Idle];
  }

  lemma RunningStep(st: State, t: nat, c: Snapshot, r: RunResult)
    requires PhaseOf(st, t) == Looping(c)
    ensures PlayFrom(st, FromLoop(t, r)) ==
            st.(locks := Release(st.locks, c.key), phases := st.phases[t := Idle],
                log := st.log + Lift(r, c), done := st.done + [DoneStep(c.key, Lift(r, c))])
  {
    var st1 := Next(st, LoopReturns(t, r));
    var n := |r.trace|;
    assert FromLoop(t, r)[1..] == Writes(t, n) + [WritingDone(t), Leave(t)];
    PlayFromConcat(st1, Writes(t, n), [WritingDone(t), Leave(t)]);
    WritesAppend(st1, t, n);
    assert Lift(r, c)[0..] == Lift(r, c);
    var st2 := PlayFrom(st1, Writes(t, n));
    WritingStep(st2, t, c, Lift(r, c));
    assert st2.phases[t := Idle] == st.phases[t := Idle];
  }

  /** Entering a free case and graduating. */
  lemma EnterAndGraduate(st: State, t: nat, c: Snapshot, clean: bool)
    requires PhaseOf(st, t) == Idle && LockOf(st.locks, c.key) == Free
    ensures PlayFrom(st, [Enter(t, c, clean), Graduate(t)]) ==
            if Updatable(st.tiers, c, clean)
            then st.(locks := st.locks[c.key := Held(t, 1)], phases := st.phases[t := Looping(Current(c, clean))],
                     tiers := TiersAfter(st.tiers, c, clean, Runs(c)))
            else st.(locks := st.locks[c.key := Held(t, 1)], phases := st.phases[t := Closing(c)])
  {
    var st1 := Next(st, Enter(t, c, clean));
    assert [Enter(t, c, clean), Graduate(t)][1..] == [Graduate(t)];
    assert PlayFrom(st1, [Graduate(t)]) == Next(st1, Graduate(t));
    assert st1.phases[t := Looping(Current(c, clean))] == st.phases[t := Looping(Current(c, clean))];
    assert st1.phases[t := Closing(c)] == st.phases[t := Closing(c)];
  }

  /** What is left of a step after graduation. */
  function Remaining(t: nat, start: Start, ran: Option<RunResult>): seq<Move> {
    if start.UnknownCase? then [Leave(t)]
    else if start.Runs? && ran.Some? && ran.value.outcome != UNCAUGHT then FromLoop(t, ran.value)
    else [LoopRaises(t), Leave(t)]
  }

  lemma StepSplits(t: nat, c: Snapshot, clean: bool, start: Start, ran: Option<RunResult>)
    requires !start.Refused?
    ensures StepMoves(t, c, clean, start, ran) == [Enter(t, c, clean), Graduate(t)] + Remaining(t, start, ran)
  {
  }

  lemma RemainingStep(st: State, t: nat, c: Snapshot, start: Start, ran: Option<RunResult>)
    requires PhaseOf(st, t) == if start.UnknownCase? then Closing(c) else Looping(c)
    requires start.Runs? ==> start.c == c
    ensures var end := PlayFrom(st, Remaining(t, start, ran));
            && end.locks == Release(st.locks, c.key) && end.phases == st.phases[t := Idle]
            && end.tiers == st.tiers && end.log == st.log + Written(start, ran)
  {
    if start.UnknownCase? {
      assert PlayFrom(st, [Leave(t)]) == Next(st, Leave(t));
    } else if start.Runs? && ran.Some? && ran.value.outcome != UNCAUGHT {
      RunningStep(st, t, c, ran.value);
    } else {
      RaisingStep(st, t, c);
    }
  }

  /** The whole state after an uninterrupted step that got in. */
  lemma AdmittedStep(st: State, t: nat, c: Snapshot, clean: bool, start: Start, ran: Option<RunResult>)
    requires PhaseOf(st, t) == Idle && LockOf(st.locks, c.key) == Free
    requires start.UnknownCase? <==> !Updatable(st.tiers, c, clean)
    requires !start.Refused? && (start.Runs? ==> start.c == Current(c, clean))
    ensures var end := PlayFrom(st, StepMoves(t, c, clean, start, ran));
            && end.locks == st.locks[c.key := Free] && end.phases == st.phases[t := Idle]
            && end.tiers == TiersAfter(st.tiers, c, clean, start) && end.log == st.log + Written(start, ran)
  {
    var mid := PlayFrom(st, [Enter(t, c, clean), Graduate(t)]);
    EnterAndGraduate(st, t, c, clean);
    var now := if start.UnknownCase? then c else Current(c, clean);
    assert mid.locks == st.locks[c.key := Held(t, 1)] && mid.log == st.log && now.key == c.key;
    assert mid.tiers == TiersAfter(st.tiers, c, clean, start);
    assert mid.phases == st.phases[t := PhaseOf(mid, t)];
    AfterMid(st, mid, t, c, now, start, ran);
    StepSplits(t, c, clean, start, ran);
    PlayFromConcat(st, [Enter(t, c, clean), Graduate(t)], Remaining(t, start, ran));
  }

  lemma AfterMid(st: State, mid: State, t: nat, c: Snapshot, now: Snapshot, start: Start, ran: Option<RunResult>)
    requires mid.locks == st.locks[c.key := Held(t, 1)] && mid.log == st.log && now.key == c.key
    requires mid.phases == st.phases[t := PhaseOf(mid, t)]
    requires PhaseOf(mid, t) == if start.UnknownCase? then Closing(now) else Looping(now)
    requires start.Runs? ==> start.c == now
    ensures var end := PlayFrom(mid, Remaining(t, start, ran));
            && end.locks == st.locks[c.key := Free] && end.phases == st.phases[t := Idle]
            && end.tiers == mid.tiers && end.log == st.log + Written(start, ran)
  {
    RemainingStep(mid, t, now, start, ran);
    assert mid.phases[t := Idle] == st.phases[t := Idle];
    assert Release(mid.locks, c.key) == st.locks[c.key := Free];
  }

  /** From an idle thread, a step played without interruption has the effect that
      RunAgentStep promises on locks, tiers and replay log, and ends idle. */
  lemma StepIsItsMoves(moves: seq<Move>, t: nat, c: Snapshot, clean: bool, handed: bool, ran: Option<RunResult>)
    requires PhaseOf(Play(moves), t) == Idle
    ensures var st := Play(moves);
            var start := StartOf(st.locks, st.tiers, t, c, clean, handed);
            var end := Play(moves + StepMoves(t, c, clean, start, ran));
            && SameLocks(end.locks, st.locks)
            && end.tiers == TiersAfter(st.tiers, c, clean, start)
            && end.log == st.log + Written(start, ran)
            && (forall u :: PhaseOf(end, u) == PhaseOf(st, u))
            && (start.Refused? ==> end == st)
  {
    PlayKeepsLocksMatch(moves);
    var st := Play(moves);
    var start := StartOf(st.locks, st.tiers, t, c, clean, handed);
    PlayContinues(moves, StepMoves(t, c, clean, start, ran));
    if start.Refused? {
      assert PlayFrom(st, [Enter(t, c, clean)]) == Next(st, Enter(t, c, clean));
    } else {
      assert LockOf(st.locks, c.key) == Free;
      AdmittedStep(st, t, c, clean, start, ran);
    }
  }
}
