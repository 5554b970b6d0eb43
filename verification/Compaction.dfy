/** Deterministic compaction of case events (agents/compaction.py): whole event lines
    are kept while they fit, and a sentinel names what was dropped. */
module Compaction {
  import opened Wrappers
  import opened Text

  const TRIGGER_TOKENS := 8_000
  const TRIGGER_EVENTS := 25
  const TRIGGER_AGE_DAYS := 7
  const TARGET_TOKENS := 2_000
  const SECONDS_PER_DAY := 86_400

  // ----- compact_events -----------------------------------------------------

  /** Characters the lines take, each with its newline. */
  function Cost(lines: seq<string>): nat {
    if lines == [] then 0 else Cost(lines[..|lines| - 1]) + |lines[|lines| - 1]| + 1
  }

  /** "\n".join(lines). */
  function Joined(lines: seq<string>): string {
    if lines == [] then ""
    else if |lines| == 1 then lines[0]
    else Joined(lines[..|lines| - 1]) + "\n" + lines[|lines| - 1]
  }

  const SENTINEL_TAIL := " events; verbatim retained in episodic memory]"

  function Sentinel(kept: nat, total: nat): string {
    "[compaction-truncated@" + Decimal(kept) + "/" + Decimal(total) + SENTINEL_TAIL
  }

  /** `k` lines are kept: they fit, and one more would not. */
  ghost predicate IsKept(lines: seq<string>, cap: nat, k: nat) {
    k <= |lines| && Cost(lines[..k]) <= cap && (k < |lines| ==> cap < Cost(lines[..k + 1]))
  }

  function Output(lines: seq<string>, k: nat): seq<string>
    requires k <= |lines|
  {
    lines[..k] + if k < |lines| then [Sentinel(k, |lines|)] else []
  }

  method CompactEvents(lines: seq<string>, targetTokens: nat) returns (text: string)
    ensures exists k :: IsKept(lines, targetTokens * 4, k) && text == Joined(Output(lines, k))
  {
    var charCap := targetTokens * 4;
    var out: seq<string> := [];
    var used := 0;
    var i := 0;
    while i < |lines|
      invariant 0 <= i <= |lines|
      invariant out == lines[..i] && used == Cost(lines[..i]) <= charCap
    {
      assert lines[..i + 1][..i] == lines[..i];
      if used + |lines[i]| + 1 > charCap {
        out := out + [Sentinel(|out|, |lines|)];
        assert IsKept(lines, charCap, i) && out == Output(lines, i);
        return Joined(out);
      }
      out := out + [lines[i]];
      used := used + |lines[i]| + 1;
      i := i + 1;
    }
    assert IsKept(lines, charCap, i) && Output(lines, i) == out;
    return Joined(out);
  }

  lemma {:induction false} CostGrows(lines: seq<string>, j: nat, k: nat)
    requires j <= k <= |lines|
    ensures Cost(lines[..j]) + (k - j) <= Cost(lines[..k])
  {
    if j < k {
      CostGrows(lines, j, k - 1);
      assert lines[..k][..k - 1] == lines[..k - 1];
    }
  }

  /** The kept lines are the longest prefix that fits; in particular there is one answer. */
  lemma KeptIsLongest(lines: seq<string>, cap: nat, k: nat, m: nat)
    requires IsKept(lines, cap, k) && m <= |lines|
    ensures m <= k <==> Cost(lines[..m]) <= cap
  {
    if m <= k {
      CostGrows(lines, m, k);
    } else {
      CostGrows(lines, k + 1, m);
    }
  }

  lemma {:induction false} JoinedLength(lines: seq<string>)
    ensures |Joined(lines)| == if lines == [] then 0 else Cost(lines) - 1
  {
    if |lines| > 1 {
      JoinedLength(lines[..|lines| - 1]);
    } else if |lines| == 1 {
      assert lines[..0] == [];
    }
  }

  /** The text never exceeds the cap plus the sentinel, and stays under the cap when
      nothing was dropped. */
  lemma TextIsBounded(lines: seq<string>, cap: nat, k: nat)
    requires IsKept(lines, cap, k)
    ensures |Joined(Output(lines, k))| <= cap + if k < |lines| then |Sentinel(k, |lines|)| else 0
  {
    var out := Output(lines, k);
    JoinedLength(out);
    if k < |lines| {
      assert out[..|out| - 1] == lines[..k];
    } else {
      assert out == lines[..k];
    }
  }

  /** Once truncated, later events never change which lines are kept. */
  lemma TruncationIsStable(lines: seq<string>, more: seq<string>, cap: nat, k: nat)
    requires IsKept(lines, cap, k) && k < |lines|
    ensures IsKept(lines + more, cap, k) && Output(lines + more, k)[..k] == lines[..k]
    ensures Output(lines + more, k) == lines[..k] + [Sentinel(k, |lines| + |more|)]
  {
    assert (lines + more)[..k] == lines[..k] && (lines + more)[..k + 1] == lines[..k + 1];
  }

  /** The text puts the lines one below the other, and a dropped line leaves a last line that
      says how many were kept of how many. */
  lemma TextIsLines(lines: seq<string>, k: nat, last: string)
    requires k <= |lines|
    ensures Joined([]) == "" && Joined([last]) == last
    ensures lines != [] ==> Joined(lines + [last]) == Joined(lines) + "\n" + last
    ensures Output(lines, k) == if k == |lines| then lines else lines[..k] + [
              "[compaction-truncated@" + Decimal(k) + "/" + Decimal(|lines|)
              + " events; verbatim retained in episodic memory]"]
  {
    assert (lines + [last])[..|lines|] == lines;
  }

  // ----- what a summary text determines -------------------------------------

  predicate OneLine(s: string) {
    s != "" && forall i :: 0 <= i < |s| ==> s[i] != '\n'
  }

  lemma LastLineSplits(x: string, y: string, a: string, b: string)
    requires OneLine(a) && OneLine(b) && x + "\n" + a == y + "\n" + b
    ensures x == y && a == b
  {
    var s := x + "\n" + a;
    assert s == y + "\n" + b;
    assert s[|x|] == '\n' && s[|y|] == '\n';
    assert forall i :: |x| < i < |s| ==> s[i] == a[i - |x| - 1];
    assert forall i :: |y| < i < |s| ==> s[i] == b[i - |y| - 1];
    assert |x| == |y|;
    assert x == s[..|x|] && y == s[..|y|];
    assert a == s[|x| + 1..] && b == s[|y| + 1..];
  }

  lemma NoNewline(lines: seq<string>, s: string)
    requires |lines| > 1 && OneLine(s)
    ensures Joined(lines) != s
  {
    var front := Joined(lines[..|lines| - 1]);
    assert Joined(lines)[|front|] == '\n';
  }

  /** Joining is injective on lists of non-empty single lines. */
  lemma {:induction false} JoinedInjective(a: seq<string>, b: seq<string>)
    requires (forall s :: s in a ==> OneLine(s)) && (forall s :: s in b ==> OneLine(s))
    requires Joined(a) == Joined(b)
    ensures a == b
    decreases |a|
  {
    JoinedNotEmpty(a);
    JoinedNotEmpty(b);
    if a == [] {
    } else if |a| == 1 {
      assert a[0] in a;
      if |b| > 1 {
        NoNewline(b, a[0]);
      }
    } else if |b| == 1 {
      assert b[0] in b;
      NoNewline(a, b[0]);
    } else {
      var x, y := a[..|a| - 1], b[..|b| - 1];
      assert a[|a| - 1] in a && b[|b| - 1] in b;
      LastLineSplits(Joined(x), Joined(y), a[|a| - 1], b[|b| - 1]);
      JoinedInjective(x, y);
      assert a == x + [a[|a| - 1]] && b == y + [b[|b| - 1]];
    }
  }

  lemma JoinedNotEmpty(lines: seq<string>)
    requires forall s :: s in lines ==> OneLine(s)
    ensures lines == [] <==> Joined(lines) == ""
  {
    if lines != [] {
      assert lines[|lines| - 1] in lines;
    }
  }

  // ----- run_compaction and replay ------------------------------------------

  datatype Trigger = NoTrigger | TokenBudget | EventCount | Age

  /** CompactionTrigger.evaluate: the first trigger that fires names the reason. */
  function Evaluate(events: nat, tokenEstimate: Option<int>, ageSeconds: int): Trigger {
    var tokens := if tokenEstimate.Some? then tokenEstimate.value else events * 200;
    if tokens >= TRIGGER_TOKENS then TokenBudget
    else if events >= TRIGGER_EVENTS then EventCount
    else if ageSeconds >= TRIGGER_AGE_DAYS * SECONDS_PER_DAY then Age
    else NoTrigger
  }

  /** The three thresholds: 8,000 tokens, which without an estimate are 40 events at 200 each;
      25 events; seven days. A run without an estimate names the count from 25 to 39 events. */
  lemma TriggerThresholds(events: nat, tokenEstimate: Option<int>, ageSeconds: int)
    ensures var trigger := Evaluate(events, tokenEstimate, ageSeconds);
            var heavy := if tokenEstimate == None then events >= 40 else tokenEstimate.value >= 8_000;
            && (trigger == TokenBudget <==> heavy)
            && (trigger == EventCount <==> !heavy && events >= 25)
            && (trigger == Age <==> !heavy && events < 25 && ageSeconds >= 604_800)
  {
  }

  datatype CompactionResult = CompactionResult(eventsSummarised: nat, summary: string, reason: Trigger)

  method RunCompaction(lines: seq<string>, tokenEstimate: Option<int>, ageSeconds: int)
    returns (r: Option<CompactionResult>)
    ensures r == None <==> Evaluate(|lines|, tokenEstimate, ageSeconds) == NoTrigger
    ensures r.Some? ==>
              && r.value.reason == Evaluate(|lines|, tokenEstimate, ageSeconds) && r.value.eventsSummarised == |lines|
              && exists k :: IsKept(lines, 8_000, k) && r.value.summary == Joined(Output(lines, k))
  {
    var trigger := Evaluate(|lines|, tokenEstimate, ageSeconds);
    if trigger == NoTrigger {
      return None;
    }
    var summary := CompactEvents(lines, TARGET_TOKENS);
    return Some(CompactionResult(|lines|, summary, trigger));
  }

  /** replay_compaction. */
  method ReplayCompaction(lines: seq<string>, expected: CompactionResult) returns (same: bool)
    ensures same <==> exists k :: IsKept(lines, 8_000, k) && expected.summary == Joined(Output(lines, k))
  {
    var summary := CompactEvents(lines, TARGET_TOKENS);
    ghost var k :| IsKept(lines, TARGET_TOKENS * 4, k) && summary == Joined(Output(lines, k));
    same := summary == expected.summary;
    if exists m :: IsKept(lines, TARGET_TOKENS * 4, m) && expected.summary == Joined(Output(lines, m)) {
      ghost var m :| IsKept(lines, TARGET_TOKENS * 4, m) && expected.summary == Joined(Output(lines, m));
      KeptIsLongest(lines, TARGET_TOKENS * 4, k, m);
      KeptIsLongest(lines, TARGET_TOKENS * 4, m, k);
    }
  }

  /** Replaying a run on its own events says True. */
  method ReplayOwnEvents(lines: seq<string>, tokenEstimate: Option<int>, ageSeconds: int) returns (same: bool)
    ensures same
  {
    var r := RunCompaction(lines, tokenEstimate, ageSeconds);
    if r == None {
      return true;
    }
    same := ReplayCompaction(lines, r.value);
  }

  lemma {:induction false} DecimalIsOneLine(n: nat)
    ensures OneLine(Decimal(n))
  {
    if n >= 10 {
      DecimalIsOneLine(n / 10);
    }
  }

  lemma OutputIsLines(lines: seq<string>, k: nat)
    requires k <= |lines| && forall s :: s in lines ==> OneLine(s)
    ensures forall s :: s in Output(lines, k) ==> OneLine(s)
  {
    SentinelIsOneLine(k, |lines|);
  }

  lemma OneLineConcat(a: string, b: string)
    requires OneLine(a) && OneLine(b)
    ensures OneLine(a + b)
  {
  }

  lemma SentinelIsOneLine(kept: nat, total: nat)
    ensures OneLine(Sentinel(kept, total))
  {
    var head, tail := "[compaction-truncated@", " events; verbatim" + " retained in" + " episodic memory]";
    OneLineConcat(" events; verbatim", " retained in");
    OneLineConcat(" events; verbatim" + " retained in", " episodic memory]");
    DecimalIsOneLine(kept);
    DecimalIsOneLine(total);
    OneLineConcat(head, Decimal(kept));
    OneLineConcat(head + Decimal(kept), "/");
    OneLineConcat(head + Decimal(kept) + "/", Decimal(total));
    OneLineConcat(head + Decimal(kept) + "/" + Decimal(total), tail);
  }

  /** And replaying it on other events says True only if they leave the same lines. */
  lemma ReplayDetectsChange(lines: seq<string>, k: nat, lines': seq<string>, k': nat)
    requires (forall s :: s in lines ==> OneLine(s)) && (forall s :: s in lines' ==> OneLine(s))
    requires k <= |lines| && k' <= |lines'| && Joined(Output(lines, k)) == Joined(Output(lines', k'))
    ensures Output(lines, k) == Output(lines', k')
  {
    OutputIsLines(lines, k);
    OutputIsLines(lines', k');
    JoinedInjective(Output(lines, k), Output(lines', k'));
  }
}
