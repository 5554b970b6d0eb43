/**
 The bounded case-agent loop (agents/case_agent.py) with its budget
 (agents/budget.py) and tool boundary (agents/case_tools.py).

 The provider and the tools are arbitrary: a `World` fixes, for each turn, whether
 its prompt frame can be built, what the provider does and, for each call of that
 turn, what the handler does. Every behaviour, however it depends on the past, is
 some World.
 */
module AgentLoop {
  import opened Wrappers
  import opened Text

  datatype ToolCall = ToolCall(name: string, arguments: string)

  datatype ToolResult = ToolResult(toolName: string, status: string, caseStatusAfter: Option<string>,
                                   reasonCode: Option<string>, error: Option<string>, latencyMs: int, costUsd: real)

  datatype HandlerOutcome = Returned(result: ToolResult) | Raised(message: string)

  datatype Reply =
    | ProviderRaised(message: string)
    | Answer(calls: seq<ToolCall>, inputTokens: int, outputTokens: int, costUsd: real)

  datatype World = World(registered: set<string>,
                         frameError: nat -> Option<string>,
                         reply: nat -> Reply,
                         handler: (nat, nat) -> HandlerOutcome,
                         elapsedMs: (nat, nat) -> int,
                         wallClockMs: nat -> int)

  // ----- the tool boundary --------------------------------------------------

  /** invoke_tool: an unknown name or an exception becomes an observation. */
  function InvokeTool(w: World, turn: nat, i: nat, call: ToolCall): ToolResult {
    var elapsed := w.elapsedMs(turn, i);
    if call.name !in w.registered then
      ToolResult(call.name, "not_found", None, None, Some("Tool not registered: " + call.name), elapsed, 0.0)
    else match w.handler(turn, i)
      case Raised(message) => ToolResult(call.name, "error", None, None, Some(message), elapsed, 0.0)
      case Returned(r) => if r.latencyMs == 0 then r.(latencyMs := elapsed) else r
  }

  datatype Step = Step(call: ToolCall, result: ToolResult)

  const HALT_TOOLS := {"escalate", "request_clarification_email", "declare_done"}

  predicate HaltsOk(s: Step) {
    s.call.name in HALT_TOOLS && s.result.status == "ok"
  }

  /** The steps of one turn from call `i` on, cut right after the first ok halting call. */
  function ExecuteFrom(w: World, turn: nat, calls: seq<ToolCall>, i: nat): seq<Step>
    requires i <= |calls|
    decreases |calls| - i
  {
    if i == |calls| then []
    else
      var s := Step(calls[i], InvokeTool(w, turn, i, calls[i]));
      if HaltsOk(s) then [s] else [s] + ExecuteFrom(w, turn, calls, i + 1)
  }

  function Executed(w: World, turn: nat): seq<Step> {
    if w.reply(turn).ProviderRaised? then [] else ExecuteFrom(w, turn, w.reply(turn).calls, 0)
  }

  predicate HaltedIn(w: World, turn: nat) {
    Executed(w, turn) != [] && HaltsOk(Executed(w, turn)[|Executed(w, turn)| - 1])
  }

  function TraceUpTo(w: World, n: nat): seq<Step> {
    if n == 0 then [] else TraceUpTo(w, n - 1) + Executed(w, n - 1)
  }

  // ----- the budget ---------------------------------------------------------

  datatype Limits = Limits(inputTokens: int, outputTokens: int, iterations: int, wallClockMs: int, costUsd: real)

  datatype Counters = Counters(inputTokens: int, outputTokens: int, iterations: int, costUsd: real)

  datatype Dimension = INPUT_TOKENS | OUTPUT_TOKENS | ITERATIONS | COST_USD | WALL_CLOCK

  /** CaseBudget.for_tier; None is the ValueError for every other tier. */
  function ForTier(tier: int): Option<Limits> {
    if tier == 1 then Some(Limits(4_000, 1_000, 1, 500, 0.001))
    else if tier == 2 then Some(Limits(16_000, 4_000, 6, 8_000, 0.05))
    else if tier == 3 then Some(Limits(8_000, 2_000, 8, 12_000, 0.08))
    else None
  }

  /** is_exhausted: the first limit reached, in checking order. */
  function Exhausted(l: Limits, c: Counters, wallClockMs: int): Option<Dimension> {
    if c.inputTokens >= l.inputTokens then Some(INPUT_TOKENS)
    else if c.outputTokens >= l.outputTokens then Some(OUTPUT_TOKENS)
    else if c.iterations >= l.iterations then Some(ITERATIONS)
    else if c.costUsd >= l.costUsd then Some(COST_USD)
    else if wallClockMs >= l.wallClockMs then Some(WALL_CLOCK)
    else None
  }

  function ToolCost(steps: seq<Step>): real {
    if steps == [] then 0.0 else ToolCost(steps[..|steps| - 1]) + steps[|steps| - 1].result.costUsd
  }

  /** What turn `t` adds to the counters: the response's spend, its tools', and one iteration. */
  function TurnSpend(w: World, t: nat): Counters {
    match w.reply(t)
    case ProviderRaised(_) => Counters(0, 0, 0, 0.0)
    case Answer(_, input, output, cost) => Counters(input, output, 1, cost + ToolCost(Executed(w, t)))
  }

  function Plus(a: Counters, b: Counters): Counters {
    Counters(a.inputTokens + b.inputTokens, a.outputTokens + b.outputTokens, a.iterations + b.iterations,
             a.costUsd + b.costUsd)
  }

  function Spent(w: World, start: Counters, n: nat): Counters {
    if n == 0 then start else Plus(Spent(w, start, n - 1), TurnSpend(w, n - 1))
  }

  class CaseBudget {
    const limits: Limits
    var inputTokensUsed: int
    var outputTokensUsed: int
    var iterationsUsed: int
    var costUsdUsed: real

    constructor (l: Limits)
      ensures limits == l && Used() == Counters(0, 0, 0, 0.0)
    {
      limits := l;
      inputTokensUsed, outputTokensUsed, iterationsUsed, costUsdUsed := 0, 0, 0, 0.0;
    }

    function Used(): Counters
      reads this
    {
      Counters(inputTokensUsed, outputTokensUsed, iterationsUsed, costUsdUsed)
    }

    method Deduct(inputTokens: int, outputTokens: int, costUsd: real, iterations: int)
      modifies this
      ensures Used() == Plus(old(Used()), Counters(inputTokens, outputTokens, iterations, costUsd))
    {
      inputTokensUsed := inputTokensUsed + inputTokens;
      outputTokensUsed := outputTokensUsed + outputTokens;
      iterationsUsed := iterationsUsed + iterations;
      costUsdUsed := costUsdUsed + costUsd;
    }
  }

  // ----- the run ------------------------------------------------------------

  /** UNCAUGHT stands for no result at all: building the frame raised, and the exception
      leaves run_case_agent. */
  datatype Outcome = RESOLVED | ESCALATED | AWAITING_BUYER | AWAITING_ERP | BUDGET_EXHAUSTED | ERROR | UNCAUGHT

  datatype Reason =
    | Nothing | Code(code: string) | LimitReached(d: Dimension) | NoToolCalls
    | ProviderError(message: string) | FrameError(message: string)

  datatype RunResult = RunResult(outcome: Outcome, reason: Reason, iterations: int, trace: seq<Step>)

  /** _outcome_for_halt_tool. */
  function HaltOutcome(s: Step): Outcome {
    if s.call.name == "escalate" then ESCALATED
    else if s.call.name == "request_clarification_email" then AWAITING_BUYER
    else
      var target := UpperAll(if s.result.caseStatusAfter.Some? then s.result.caseStatusAfter.value else "");
      if target == "OPEN_AWAITING_ERP" || target == "AWAITING_ERP" then AWAITING_ERP else RESOLVED
  }

  function HaltReason(s: Step): Reason {
    if s.call.name == "escalate" then Code(if s.result.reasonCode.Some? then s.result.reasonCode.value else "")
      else Nothing
  }

  /** How turn `t`, once its tools have run, ends the run, if it does. */
  function TurnEnding(w: World, t: nat): Option<(Outcome, Reason)> {
    if HaltedIn(w, t) then
      var last := Executed(w, t)[|Executed(w, t)| - 1];
      Some((HaltOutcome(last), HaltReason(last)))
    else if w.reply(t).Answer? && w.reply(t).calls == [] then Some((ERROR, NoToolCalls))
    else None
  }

  /** How the top of the loop ends the run before turn `t` is answered, if it does. */
  function GateEnding(w: World, l: Limits, used: Counters, t: nat): Option<(Outcome, Reason)> {
    match Exhausted(l, used, w.wallClockMs(t))
    case Some(d) => Some((BUDGET_EXHAUSTED, LimitReached(d)))
    case None =>
      if w.frameError(t).Some? then Some((UNCAUGHT, FrameError(w.frameError(t).value)))
      else if w.reply(t).ProviderRaised? then Some((ERROR, ProviderError(w.reply(t).message)))
      else None
  }

  /** How a run that has completed `n` turns ends there, if it does. */
  function Ending(w: World, l: Limits, start: Counters, n: nat): Option<(Outcome, Reason)> {
    if n > 0 && TurnEnding(w, n - 1).Some? then TurnEnding(w, n - 1)
    else GateEnding(w, l, Spent(w, start, n), n)
  }

  ghost predicate Going(w: World, l: Limits, start: Counters, n: nat) {
    forall k :: 0 <= k < n ==> Ending(w, l, start, k) == None
  }

  /** `r` is the result of the run: it goes on for exactly `n` provider calls that
      answer, none of the earlier turns ending it, and the last one does. */
  ghost predicate IsRun(w: World, l: Limits, start: Counters, n: nat, r: RunResult) {
    && Going(w, l, start, n)
    && Ending(w, l, start, n) == Some((r.outcome, r.reason))
    && r.trace == TraceUpTo(w, n)
    && r.iterations == Spent(w, start, n).iterations
  }

  lemma ToolCostGrows(steps: seq<Step>, s: Step)
    ensures ToolCost(steps + [s]) == ToolCost(steps) + s.result.costUsd
  {
    assert (steps + [s])[..|steps|] == steps;
  }

  /** One turn's tool calls, in order, until one halts. */
  method ExecuteCalls(budget: CaseBudget, w: World, turn: nat, calls: seq<ToolCall>)
    returns (steps: seq<Step>, halted: bool)
    modifies budget
    ensures steps == ExecuteFrom(w, turn, calls, 0)
    ensures halted <==> steps != [] && HaltsOk(steps[|steps| - 1])
    ensures budget.Used() == Plus(old(budget.Used()), Counters(0, 0, 0, ToolCost(steps)))
  {
    steps, halted := [], false;
    var i := 0;
    while i < |calls|
      invariant 0 <= i <= |calls|
      invariant ExecuteFrom(w, turn, calls, 0) == steps + ExecuteFrom(w, turn, calls, i)
      invariant steps != [] ==> !HaltsOk(steps[|steps| - 1])
      invariant budget.Used() == old(budget.Used()).(costUsd := old(budget.costUsdUsed) + ToolCost(steps))
    {
      var s := Step(calls[i], InvokeTool(w, turn, i, calls[i]));
      ToolCostGrows(steps, s);
      NextCall(w, turn, calls, i, steps);
      steps := steps + [s];
      if s.result.costUsd != 0.0 {
        budget.Deduct(0, 0, s.result.costUsd, 0);
      }
      if HaltsOk(s) {
        halted := true;
        return;
      }
      i := i + 1;
    }
  }

  lemma NextCall(w: World, turn: nat, calls: seq<ToolCall>, i: nat, steps: seq<Step>)
    requires i < |calls|
    ensures var s := Step(calls[i], InvokeTool(w, turn, i, calls[i]));
            steps + ExecuteFrom(w, turn, calls, i) ==
            (steps + [s]) + if HaltsOk(s) then [] else ExecuteFrom(w, turn, calls, i + 1)
  {
  }

  /** run_case_agent: terminates for every world and returns the world's run. */
  method RunCaseAgent(budget: CaseBudget, w: World) returns (r: RunResult, ghost turns: nat)
    modifies budget
    ensures IsRun(w, budget.limits, old(budget.Used()), turns, r)
    ensures budget.Used() == Spent(w, old(budget.Used()), turns)
  {
    var trace := [];
    var turn := 0;
    ghost var start := budget.Used();
    while true
      invariant 0 <= turn
      invariant budget.Used() == Spent(w, start, turn) && trace == TraceUpTo(w, turn)
      invariant Going(w, budget.limits, start, turn)
      invariant turn > 0 ==> TurnEnding(w, turn - 1) == None
      decreases budget.limits.iterations - budget.iterationsUsed
    {
      var exhaustion := Exhausted(budget.limits, budget.Used(), w.wallClockMs(turn));
      if exhaustion.Some? {
        return RunResult(BUDGET_EXHAUSTED, LimitReached(exhaustion.value), budget.iterationsUsed, trace), turn;
      }
      if w.frameError(turn).Some? {
        return RunResult(UNCAUGHT, FrameError(w.frameError(turn).value), budget.iterationsUsed, trace), turn;
      }
      var response := w.reply(turn);
      if response.ProviderRaised? {
        return RunResult(ERROR, ProviderError(response.message), budget.iterationsUsed, trace), turn;
      }
      GoesOn(w, budget.limits, start, turn);
      var terminal;
      trace, terminal := RunTurn(budget, w, turn, response, trace);
      turn := turn + 1;
      if terminal.Some? {
        return RunResult(terminal.value.0, terminal.value.1, budget.iterationsUsed, trace), turn;
      }
    }
  }

  lemma GoesOn(w: World, l: Limits, start: Counters, n: nat)
    requires Going(w, l, start, n) && (n > 0 ==> TurnEnding(w, n - 1) == None)
    requires GateEnding(w, l, Spent(w, start, n), n) == None
    ensures Going(w, l, start, n + 1)
  {
  }

  /** One answered turn: charge the response, run its calls, see whether it ends the run. */
  method RunTurn(budget: CaseBudget, w: World, turn: nat, response: Reply, before: seq<Step>)
    returns (trace: seq<Step>, terminal: Option<(Outcome, Reason)>)
    requires response.Answer? && w.reply(turn) == response
    modifies budget
    ensures trace == before + Executed(w, turn) && terminal == TurnEnding(w, turn)
    ensures budget.Used() == Plus(old(budget.Used()), TurnSpend(w, turn))
    ensures budget.iterationsUsed == old(budget.iterationsUsed) + 1
  {
    budget.Deduct(response.inputTokens, response.outputTokens, response.costUsd, 1);
    if response.calls == [] {
      return before, Some((ERROR, NoToolCalls));
    }
    var steps, halted := ExecuteCalls(budget, w, turn, response.calls);
    trace, terminal := before + steps, None;
    if halted {
      terminal := Some((HaltOutcome(steps[|steps| - 1]), HaltReason(steps[|steps| - 1])));
    }
  }

  // ----- what a run is ------------------------------------------------------

  /** The run is determined by the world, the limits and the starting counters. */
  lemma RunUnique(w: World, l: Limits, start: Counters, n: nat, r: RunResult, n': nat, r': RunResult)
    requires IsRun(w, l, start, n, r) && IsRun(w, l, start, n', r')
    ensures n == n' && r == r'
  {
    assert n < n' ==> Ending(w, l, start, n) == None;
    assert n' < n ==> Ending(w, l, start, n') == None;
  }

  /** A turn runs a prefix of its calls, each through invoke_tool; only the last step
      may halt, and anything short of all calls means that it did. */
  lemma {:induction false} TurnIsCutPrefix(w: World, turn: nat, calls: seq<ToolCall>, i: nat)
    requires i <= |calls|
    ensures var steps := ExecuteFrom(w, turn, calls, i);
            && |steps| <= |calls| - i
            && (forall j :: 0 <= j < |steps| ==>
                  steps[j] == Step(calls[i + j], InvokeTool(w, turn, i + j, calls[i + j])))
            && (forall j :: 0 <= j < |steps| - 1 ==> !HaltsOk(steps[j]))
            && (|steps| < |calls| - i ==> steps != [] && HaltsOk(steps[|steps| - 1]))
            && (calls[i..] != [] ==> steps != [])
    decreases |calls| - i
  {
    if i < |calls| {
      TurnIsCutPrefix(w, turn, calls, i + 1);
    }
  }

  function CallsOf(w: World, turn: nat): seq<ToolCall> {
    if w.reply(turn).Answer? then w.reply(turn).calls else []
  }

  /** The first n calls of a turn, each through invoke_tool. */
  function FirstCalls(w: World, turn: nat, n: nat): seq<Step>
    requires n <= |CallsOf(w, turn)|
  {
    var calls := CallsOf(w, turn);
    seq(n, i requires 0 <= i < n => Step(calls[i], InvokeTool(w, turn, i, calls[i])))
  }

  /** All calls of the first n replies, reply by reply. */
  function AllCalls(w: World, n: nat): seq<Step> {
    if n == 0 then [] else AllCalls(w, n - 1) + FirstCalls(w, n - 1, |CallsOf(w, n - 1)|)
  }

  /** The turn executed all its calls. */
  ghost predicate RanAll(w: World, turn: nat) {
    Executed(w, turn) == FirstCalls(w, turn, |CallsOf(w, turn)|)
  }

  lemma {:induction false} TraceOfFullTurns(w: World, n: nat)
    requires forall k :: 0 <= k < n ==> RanAll(w, k)
    ensures TraceUpTo(w, n) == AllCalls(w, n)
  {
    if n > 0 {
      TraceOfFullTurns(w, n - 1);
      assert RanAll(w, n - 1);
    }
  }

  lemma ExecutedIsFirstCalls(w: World, turn: nat)
    ensures var ran := Executed(w, turn); var calls := CallsOf(w, turn);
            && |ran| <= |calls| && ran == FirstCalls(w, turn, |ran|)
            && (forall i :: 0 <= i < |ran| - 1 ==> !HaltsOk(ran[i]))
            && (|ran| < |calls| ==> ran != [] && HaltsOk(ran[|ran| - 1]))
  {
    if w.reply(turn).Answer? {
      TurnIsCutPrefix(w, turn, w.reply(turn).calls, 0);
    }
  }

  /** A turn that does not end the run executes all its calls. */
  lemma WentOnRanAll(w: World, l: Limits, start: Counters, n: nat)
    requires Ending(w, l, start, n) == None && TurnEnding(w, n) == None
    ensures RanAll(w, n)
  {
    ExecutedIsFirstCalls(w, n);
  }

  lemma EarlierTurnsRanAll(w: World, l: Limits, start: Counters, n: nat, k: nat)
    requires Going(w, l, start, n) && k + 1 < n
    ensures RanAll(w, k)
  {
    assert Ending(w, l, start, k) == None && Ending(w, l, start, k + 1) == None;
    WentOnRanAll(w, l, start, k);
  }

  /** The whole trace: every call of every reply in order, except that the last reply is
      cut right after its first ok halting call, if it has one. */
  lemma TraceIsReplies(w: World, l: Limits, start: Counters, n: nat, r: RunResult) returns (last: seq<Step>)
    requires IsRun(w, l, start, n, r) && n > 0
    ensures r.trace == AllCalls(w, n - 1) + last
    ensures |last| <= |CallsOf(w, n - 1)| && last == FirstCalls(w, n - 1, |last|)
    ensures forall i :: 0 <= i < |last| - 1 ==> !HaltsOk(last[i])
    ensures |last| < |CallsOf(w, n - 1)| ==> last != [] && HaltsOk(last[|last| - 1])
  {
    forall k | 0 <= k < n - 1 ensures RanAll(w, k) {
      EarlierTurnsRanAll(w, l, start, n, k);
    }
    TraceOfFullTurns(w, n - 1);
    ExecutedIsFirstCalls(w, n - 1);
    last := Executed(w, n - 1);
  }

  lemma {:induction false} NoHaltBefore(w: World, l: Limits, start: Counters, n: nat)
    requires Going(w, l, start, n)
    ensures forall i :: 0 <= i < |TraceUpTo(w, n)| && HaltsOk(TraceUpTo(w, n)[i]) ==>
              n > 0 && HaltedIn(w, n - 1) && i == |TraceUpTo(w, n)| - 1
  {
    if n > 0 {
      NoHaltBefore(w, l, start, n - 1);
      assert Ending(w, l, start, n - 1) == None;
      if w.reply(n - 1).Answer? {
        TurnIsCutPrefix(w, n - 1, w.reply(n - 1).calls, 0);
      }
    }
  }

  predicate IsTerminalOutcome(o: Outcome) {
    o == RESOLVED || o == ESCALATED || o == AWAITING_BUYER || o == AWAITING_ERP
  }

  /** The outcome is one of the four terminal ones exactly when the last trace entry
      is an ok halting call, and no other entry ever is. */
  lemma OutcomeIffHalted(w: World, l: Limits, start: Counters, n: nat, r: RunResult)
    requires IsRun(w, l, start, n, r)
    ensures IsTerminalOutcome(r.outcome) <==> r.trace != [] && HaltsOk(r.trace[|r.trace| - 1])
    ensures IsTerminalOutcome(r.outcome) ==>
              r.outcome == HaltOutcome(r.trace[|r.trace| - 1]) && r.reason == HaltReason(r.trace[|r.trace| - 1])
    ensures forall i :: 0 <= i < |r.trace| - 1 ==> !HaltsOk(r.trace[i])
  {
    NoHaltBefore(w, l, start, n);
    if n > 0 && HaltedIn(w, n - 1) {
      assert r.trace[|r.trace| - 1] == Executed(w, n - 1)[|Executed(w, n - 1)| - 1];
    }
  }

  /** Every answered call before the end was made within the budget. */
  lemma AnsweredBefore(w: World, l: Limits, start: Counters, n: nat, r: RunResult, k: nat)
    requires IsRun(w, l, start, n, r) && k < n
    ensures w.reply(k).Answer? && Exhausted(l, Spent(w, start, k), w.wallClockMs(k)) == None
  {
    assert Ending(w, l, start, k) == None;
  }

  lemma {:induction false} IterationsCount(w: World, l: Limits, start: Counters, n: nat, r: RunResult, k: nat)
    requires IsRun(w, l, start, n, r) && k <= n
    ensures Spent(w, start, k).iterations == start.iterations + k
  {
    if k > 0 {
      IterationsCount(w, l, start, n, r, k - 1);
      AnsweredBefore(w, l, start, n, r, k - 1);
    }
  }

  /** At most max_iterations minus the iterations already used provider calls answer,
      and the report counts exactly them. */
  lemma CallsAreBounded(w: World, l: Limits, start: Counters, n: nat, r: RunResult)
    requires IsRun(w, l, start, n, r)
    ensures n == 0 || start.iterations + n <= l.iterations
    ensures r.reason.ProviderError? ==> start.iterations + n + 1 <= l.iterations
    ensures r.iterations == start.iterations + n
  {
    IterationsCount(w, l, start, n, r, n);
    if n > 0 {
      IterationsCount(w, l, start, n, r, n - 1);
      AnsweredBefore(w, l, start, n, r, n - 1);
    }
  }

  /** Every limited counter ends below its limit plus what the last turn spent. */
  lemma OverrunIsOneTurn(w: World, l: Limits, start: Counters, n: nat, r: RunResult)
    requires IsRun(w, l, start, n, r) && n > 0
    ensures var end := Spent(w, start, n); var last := TurnSpend(w, n - 1);
            && end.inputTokens < l.inputTokens + last.inputTokens
            && end.outputTokens < l.outputTokens + last.outputTokens
            && end.costUsd < l.costUsd + last.costUsd
            && end.iterations <= l.iterations
  {
    AnsweredBefore(w, l, start, n, r, n - 1);
  }

  /** The outcome says which way the run ended. */
  lemma BudgetOutcomeIff(w: World, l: Limits, start: Counters, n: nat, r: RunResult)
    requires IsRun(w, l, start, n, r)
    ensures r.outcome == BUDGET_EXHAUSTED <==>
            && !(r.trace != [] && HaltsOk(r.trace[|r.trace| - 1]))
            && !(n > 0 && w.reply(n - 1).Answer? && w.reply(n - 1).calls == [])
            && Exhausted(l, Spent(w, start, n), w.wallClockMs(n)).Some?
  {
    OutcomeIffHalted(w, l, start, n, r);
    if n > 0 {
      AnsweredBefore(w, l, start, n, r, n - 1);
    }
  }

  /** Which outcome a halted run reports, by the name of its last tool; only `escalate`
      gives a reason, and only a run that ends on one of the three tools halts. */
  lemma OutcomeNamesTool(w: World, l: Limits, start: Counters, n: nat, r: RunResult)
    requires IsRun(w, l, start, n, r)
    ensures r.outcome in {RESOLVED, ESCALATED, AWAITING_BUYER, AWAITING_ERP} <==>
              && r.trace != [] && r.trace[|r.trace| - 1].result.status == "ok"
              && r.trace[|r.trace| - 1].call.name in {"escalate", "request_clarification_email", "declare_done"}
    ensures r.outcome in {RESOLVED, ESCALATED, AWAITING_BUYER, AWAITING_ERP} ==>
              var last := r.trace[|r.trace| - 1]; var after := last.result.caseStatusAfter;
              && (r.outcome == ESCALATED <==> last.call.name == "escalate")
              && (r.outcome == AWAITING_BUYER <==> last.call.name == "request_clarification_email")
              && (r.outcome == AWAITING_ERP <==>
                    last.call.name == "declare_done" && after.Some?
                    && UpperAll(after.value) in {"OPEN_AWAITING_ERP", "AWAITING_ERP"})
              && (last.call.name == "escalate" ==>
                    r.reason == Code(if last.result.reasonCode == None then "" else last.result.reasonCode.value))
              && (last.call.name != "escalate" ==> r.reason == Nothing)
  {
    OutcomeIffHalted(w, l, start, n, r);
  }

  /** How a run that does not halt ends: on an empty answer, on the first limit reached, on a
      frame that cannot be built, or on a provider that raises, in this order. */
  lemma UnhaltedEnding(w: World, l: Limits, start: Counters, n: nat, r: RunResult)
    requires IsRun(w, l, start, n, r)
    requires r.trace == [] || r.trace[|r.trace| - 1].result.status != "ok"
             || r.trace[|r.trace| - 1].call.name !in {"escalate", "request_clarification_email", "declare_done"}
    ensures var c := Spent(w, start, n); var end := (r.outcome, r.reason);
            if n > 0 && w.reply(n - 1).Answer? && w.reply(n - 1).calls == [] then end == (ERROR, NoToolCalls)
            else if c.inputTokens >= l.inputTokens then end == (BUDGET_EXHAUSTED, LimitReached(INPUT_TOKENS))
            else if c.outputTokens >= l.outputTokens then end == (BUDGET_EXHAUSTED, LimitReached(OUTPUT_TOKENS))
            else if c.iterations >= l.iterations then end == (BUDGET_EXHAUSTED, LimitReached(ITERATIONS))
            else if c.costUsd >= l.costUsd then end == (BUDGET_EXHAUSTED, LimitReached(COST_USD))
            else if w.wallClockMs(n) >= l.wallClockMs then end == (BUDGET_EXHAUSTED, LimitReached(WALL_CLOCK))
            else if w.frameError(n).Some? then end == (UNCAUGHT, FrameError(w.frameError(n).value))
            else w.reply(n).ProviderRaised? && end == (ERROR, ProviderError(w.reply(n).message))
  {
    OutcomeIffHalted(w, l, start, n, r);
    if n > 0 {
      AnsweredBefore(w, l, start, n, r, n - 1);
    }
  }

  /** A provider call is made only while every counter and the clock are below their limits,
      and its frame was built. */
  lemma AnsweredWithinLimits(w: World, l: Limits, start: Counters, n: nat, r: RunResult, k: nat)
    requires IsRun(w, l, start, n, r) && k < n
    ensures var c := Spent(w, start, k);
            && w.reply(k).Answer? && w.frameError(k) == None
            && c.inputTokens < l.inputTokens && c.outputTokens < l.outputTokens && c.iterations < l.iterations
            && c.costUsd < l.costUsd && w.wallClockMs(k) < l.wallClockMs
  {
    assert Ending(w, l, start, k) == None;
  }

  /** Each trace entry of a turn is what the tool boundary observed: an unregistered name and
      an exception become results that never halt, a returned result keeps all its fields,
      except that a missing latency is measured. */
  lemma TraceObserves(w: World, turn: nat, i: nat)
    requires i < |Executed(w, turn)|
    ensures w.reply(turn).Answer? && i < |w.reply(turn).calls|
    ensures var s := Executed(w, turn)[i]; var name := w.reply(turn).calls[i].name;
            && s.call == w.reply(turn).calls[i]
            && (name !in w.registered ==>
                  s.result == ToolResult(name, "not_found", None, None, Some("Tool not registered: " + name),
                                         w.elapsedMs(turn, i), 0.0))
            && (name in w.registered ==>
                  match w.handler(turn, i)
                  case Raised(message) =>
                    s.result == ToolResult(name, "error", None, None, Some(message), w.elapsedMs(turn, i), 0.0)
                  case Returned(result) =>
                    s.result == result.(latencyMs := s.result.latencyMs)
                    && s.result.latencyMs == if result.latencyMs != 0 then result.latencyMs else w.elapsedMs(turn, i))
  {
    TurnIsCutPrefix(w, turn, w.reply(turn).calls, 0);
  }

  // ----- the bill -----------------------------------------------------------

  /** An answered turn adds exactly its reply's tokens and one iteration. */
  lemma TokensOfTurn(w: World, l: Limits, start: Counters, n: nat, r: RunResult, k: nat)
    requires IsRun(w, l, start, n, r) && k < n
    ensures w.reply(k).Answer? && Spent(w, start, 0) == start
    ensures var before, after := Spent(w, start, k), Spent(w, start, k + 1);
            && after.inputTokens == before.inputTokens + w.reply(k).inputTokens
            && after.outputTokens == before.outputTokens + w.reply(k).outputTokens
            && after.iterations == before.iterations + 1
  {
    AnsweredBefore(w, l, start, n, r, k);
  }

  /** What the first n replies themselves were charged. */
  function ReplyCost(w: World, n: nat): real {
    if n == 0 then 0.0
    else ReplyCost(w, n - 1) + if w.reply(n - 1).Answer? then w.reply(n - 1).costUsd else 0.0
  }

  lemma {:induction false} ToolCostConcat(a: seq<Step>, b: seq<Step>)
    ensures ToolCost(a + b) == ToolCost(a) + ToolCost(b)
  {
    if b == [] {
      assert a + b == a;
    } else {
      assert (a + b)[..|a + b| - 1] == a + b[..|b| - 1];
      ToolCostConcat(a, b[..|b| - 1]);
    }
  }

  lemma {:induction false} CostUpTo(w: World, start: Counters, n: nat)
    requires forall k :: 0 <= k < n ==> w.reply(k).Answer?
    ensures Spent(w, start, n).costUsd == start.costUsd + ReplyCost(w, n) + ToolCost(TraceUpTo(w, n))
  {
    if n > 0 {
      CostUpTo(w, start, n - 1);
      ToolCostConcat(TraceUpTo(w, n - 1), Executed(w, n - 1));
    }
  }

  /** The run is charged its replies and every tool in its trace, once each. */
  lemma BillAddsUp(w: World, l: Limits, start: Counters, n: nat, r: RunResult)
    requires IsRun(w, l, start, n, r)
    ensures Spent(w, start, n).costUsd == start.costUsd + ReplyCost(w, n) + ToolCost(r.trace)
  {
    forall k | 0 <= k < n ensures w.reply(k).Answer? {
      AnsweredBefore(w, l, start, n, r, k);
    }
    CostUpTo(w, start, n);
  }

  /** The budget table: what each tier allows, and that there is no other tier. */
  lemma OnlyThreeTiers(tier: int)
    ensures ForTier(tier).Some? <==> 1 <= tier <= 3
    ensures ForTier(1) == Some(Limits(4_000, 1_000, 1, 500, 0.001))
    ensures ForTier(2) == Some(Limits(16_000, 4_000, 6, 8_000, 0.05))
    ensures ForTier(3) == Some(Limits(8_000, 2_000, 8, 12_000, 0.08))
  {
  }
}
