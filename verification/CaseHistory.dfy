/** The classification audit trail and the close guard of `CaseStore`. */
module CaseHistory {
  import opened Wrappers
  import opened Model
  import opened Cases

  // ----- the history only grows ---------------------------------------------

  /** No operation, delete and clear included, removes or rewrites a history row. */
  lemma StepGrowsHistory(s: Store, op: Op, id: string)
    ensures History(s, id) <= History(Step(s, op), id)
  {
    match op {
      case LookupOp(t, r, newId, now) =>
      case UpdateOp(i, p, who, now) =>
      case _ =>
    }
  }

  lemma {:induction false} RunGrowsHistory(s: Store, ops: seq<Op>, k: nat, id: string)
    requires k <= |ops|
    ensures History(Run(s, ops[..k]), id) <= History(Run(s, ops), id)
  {
    if k == |ops| {
      assert ops[..k] == ops;
    } else {
      var front := ops[..|ops| - 1];
      assert front[..k] == ops[..k];
      RunGrowsHistory(s, front, k, id);
      StepGrowsHistory(Run(s, front), ops[|ops| - 1], id);
    }
  }

  /** An accepted update appends one attributed case-level row exactly when it changes
      the supergroup, and touches no other case and no other history. */
  lemma UpdateRecordsIffReclassified(s: Store, id: string, p: CasePatch, who: Attribution, now: int, other: string)
    requires Update(s, id, p, who, now).1.Ok? && other != id
    ensures var s' := Update(s, id, p, who, now).0; var c, c' := s.cases[id], s'.cases[id];
            var h, h' := History(s, id), History(s', id);
            && (c'.supergroup == c.supergroup ==> h' == h)
            && (c'.supergroup != c.supergroup ==>
                  && |h'| == |h| + 1 && h < h' && h'[|h|].caseId == id && h'[|h|].childCaseId == None
                  && (c'.supergroup.Some? ==> h'[|h|].supergroup == c'.supergroup.value)
                  && who.actor == Some(h'[|h|].classifiedBy) && who.actor != Some("")
                  && who.kind == Some(h'[|h|].classifierType) && ValidClassifier(h'[|h|].classifierType))
            && History(s', other) == History(s, other)
            && (other in s.cases <==> other in s'.cases) && (other in s.cases ==> s'.cases[other] == s.cases[other])
  {
  }

  /** Opening a case with a supergroup starts its history with that one row; attaching
      to a case, or opening one without, records nothing. */
  lemma LookupRecordsOnOpening(s: Store, t: string, r: Intake, newId: string, now: int)
    requires FreshId(s, newId) && LookupOrCreate(s, t, r, newId, now).1.Ok?
    ensures var (s', res) := LookupOrCreate(s, t, r, newId, now);
            if res.value.1 && r.supergroup.Some?
            then |History(s', newId)| == 1
                 && LastCaseLevel(History(s', newId)) == r.supergroup == s'.cases[newId].supergroup
                 && forall id :: id != newId ==> History(s', id) == History(s, id)
            else s'.history == s.history
  {
  }

  // ----- the history explains the classification ----------------------------

  /** The supergroup of the last case-level row. */
  function LastCaseLevel(h: seq<ClassificationEvent>): Option<string> {
    if h == [] then None
    else if h[|h| - 1].childCaseId == None then Some(h[|h| - 1].supergroup)
    else LastCaseLevel(h[..|h| - 1])
  }

  /** Each live case's supergroup is the one its last case-level row names; it is
      unset exactly when there is no such row. */
  ghost predicate Explained(s: Store) {
    forall id :: id in s.cases ==> s.cases[id].supergroup == LastCaseLevel(History(s, id))
  }

  /** What a call must respect for the trail to keep explaining the table: a valid
      classifier type, no reclassification to nothing, and no out-of-band row that
      contradicts the case. */
  predicate Respects(s: Store, op: Op) {
    match op
    case LookupOp(t, r, _, _) =>
      Find(s, t, r.keys) == None && ValidIntake(r) && r.supergroup.Some? ==> ValidClassifier(r.classifierType)
    case UpdateOp(id, p, who, now) =>
      Writes(s, id, p, who) && Regroups(s.cases[id], p) ==>
        Or(p.supergroup, s.cases[id].supergroup).Some? && ValidClassifier(who.kind.value)
    case RecordOp(e) =>
      e.caseId in s.cases && ValidClassifier(e.classifierType) && e.childCaseId == None ==>
        s.cases[e.caseId].supergroup == Some(e.supergroup)
    case _ => true
  }

  lemma AppendedRow(h: seq<ClassificationEvent>, e: ClassificationEvent)
    ensures LastCaseLevel(h + [e]) == if e.childCaseId == None then Some(e.supergroup) else LastCaseLevel(h)
  {
    assert (h + [e])[..|h|] == h;
  }

  /** Appending a row to one case's history, with the case rewritten alongside. */
  lemma RecordKeepsExplainedIff(s: Store, s': Store, e: ClassificationEvent)
    requires Explained(s) && e.caseId in s'.cases
    requires forall id :: id in s'.cases && id != e.caseId ==>
               id in s.cases && s'.cases[id].supergroup == s.cases[id].supergroup
    requires e.childCaseId != None ==>
               e.caseId in s.cases && s'.cases[e.caseId].supergroup == s.cases[e.caseId].supergroup
    requires s'.history == Record(s, e).history
    ensures Explained(s') <==> (e.childCaseId == None ==> s'.cases[e.caseId].supergroup == Some(e.supergroup))
  {
    AppendedRow(History(s, e.caseId), e);
    assert History(s', e.caseId) == History(s, e.caseId) + [e];
    forall id | id in s'.cases && id != e.caseId ensures History(s', id) == History(s, id) {
    }
  }

  lemma LookupKeepsExplainedIff(s: Store, t: string, r: Intake, newId: string, now: int)
    requires Explained(s) && FreshId(s, newId)
    ensures Explained(LookupOrCreate(s, t, r, newId, now).0) <==> Respects(s, LookupOp(t, r, newId, now))
  {
    var s' := LookupOrCreate(s, t, r, newId, now).0;
    if Find(s, t, r.keys) == None && ValidIntake(r) {
      assert s'.cases == s.cases[newId := NewCase(t, r, newId, now)];
      if r.supergroup.Some? && ValidClassifier(r.classifierType) {
        var e := ClassificationEvent(newId, None, r.supergroup.value, r.intentCode, r.classifiedBy, r.classifierType);
        assert s'.history == s.history[newId := [] + [e]];
        RecordKeepsExplainedIff(s, s', e);
      } else {
        assert s'.history == s.history;
        assert forall id :: id in s.cases ==> s'.cases[id] == s.cases[id];
        assert LastCaseLevel(History(s', newId)) == None;
        assert newId in s'.cases;
      }
    } else {
      assert s'.cases == s.cases && s'.history == s.history;
    }
  }

  lemma UpdateKeepsExplainedIff(s: Store, id: string, p: CasePatch, who: Attribution, now: int)
    requires Explained(s)
    ensures Explained(Update(s, id, p, who, now).0) <==> Respects(s, UpdateOp(id, p, who, now))
  {
    if id in s.cases {
      var (s', res) := Update(s, id, p, who, now);
      var c, next := s.cases[id], Patched(s.cases[id], p, now);
      if res == Ok(()) && next.supergroup != c.supergroup {
        var sg := if next.supergroup.Some? then next.supergroup.value else "";
        RecordKeepsExplainedIff(s, s',
                                ClassificationEvent(id, None, sg, who.intentCode, who.actor.value, who.kind.value));
      } else if s' != s {
        assert s'.cases == s.cases[id := next] && s'.history == s.history;
        assert History(s', id) == History(s, id);
      }
    }
  }

  lemma RowsKeepExplainedIff(s: Store, op: Op)
    requires Explained(s) && (op.RecordOp? || op.ChildOp?)
    ensures Explained(Step(s, op)) <==> Respects(s, op)
  {
    var s' := Step(s, op);
    if s' != s {
      match op {
        case RecordOp(e) => RecordKeepsExplainedIff(s, s', e);
        case ChildOp(id, child, sg, code, actor, kind) =>
          RecordKeepsExplainedIff(s, s', ClassificationEvent(id, Some(child), sg.value, code, actor, kind));
      }
    }
  }

  /** Every operation keeps the trail explanatory exactly when the call respects it. */
  lemma StepKeepsExplainedIff(s: Store, op: Op)
    requires Explained(s) && Admissible(s, op)
    ensures Explained(Step(s, op)) <==> Respects(s, op)
  {
    var s' := Step(s, op);
    match op {
      case LookupOp(t, r, newId, now) => LookupKeepsExplainedIff(s, t, r, newId, now);
      case UpdateOp(id, p, who, now) => UpdateKeepsExplainedIff(s, id, p, who, now);
      case RecordOp(_) => RowsKeepExplainedIff(s, op);
      case ChildOp(_, _, _, _, _, _) => RowsKeepExplainedIff(s, op);
      case RegisterOp(_, _, _, _) =>
      case OverrideOp(id, o, now) => SameSupergroups(s, s');
      case LiftOp(id, now) => SameSupergroups(s, s');
      case DeleteOp(id) => SameSupergroups(s, s');
      case ClearOp =>
    }
  }

  lemma SameSupergroups(s: Store, s': Store)
    requires Explained(s) && s'.history == s.history
    requires forall id :: id in s'.cases ==> id in s.cases && s'.cases[id].supergroup == s.cases[id].supergroup
    ensures Explained(s')
  {
    assert forall id :: History(s', id) == History(s, id);
  }

  lemma {:induction false} ReachableExplained(ops: seq<Op>)
    requires AdmissibleRun(EMPTY, ops)
    requires forall i :: 0 <= i < |ops| ==> Respects(Run(EMPTY, ops[..i]), ops[i])
    ensures Explained(Run(EMPTY, ops))
  {
    if ops != [] {
      var front := ops[..|ops| - 1];
      forall i | 0 <= i < |front|
        ensures Admissible(Run(EMPTY, front[..i]), front[i]) && Respects(Run(EMPTY, front[..i]), front[i])
      {
        assert front[..i] == ops[..i];
      }
      ReachableExplained(front);
      StepKeepsExplainedIff(Run(EMPTY, front), ops[|ops| - 1]);
    }
  }

  // ----- the close guard ----------------------------------------------------

  /** No case is RESOLVED while it still needs triage. */
  ghost predicate TriageNotClosed(s: Store) {
    forall id :: id in s.cases ==> !(s.cases[id].status == RESOLVED && s.cases[id].supergroup == Some(NEEDS_TRIAGE))
  }

  lemma StepKeepsTriageNotClosed(s: Store, op: Op)
    requires TriageNotClosed(s)
    ensures TriageNotClosed(Step(s, op))
  {
    var s' := Step(s, op);
    match op {
      case LookupOp(t, r, newId, now) =>
        CommitEffect(s, t, r, Find(s, t, r.keys), newId, now);
      case UpdateOp(id, p, who, now) =>
        if s' != s {
          assert s'.cases == s.cases[id := Patched(s.cases[id], p, now)];
        }
      case RegisterOp(_, _, _, _) =>
      case RecordOp(_) =>
      case ChildOp(_, _, _, _, _, _) =>
      case OverrideOp(_, _, _) =>
      case LiftOp(_, _) =>
      case DeleteOp(_) =>
      case ClearOp =>
    }
  }

  /** The guard holds in every reachable state, with no condition on the calls. */
  lemma {:induction false} ReachableTriageNotClosed(ops: seq<Op>)
    ensures TriageNotClosed(Run(EMPTY, ops))
  {
    if ops != [] {
      ReachableTriageNotClosed(ops[..|ops| - 1]);
      StepKeepsTriageNotClosed(Run(EMPTY, ops[..|ops| - 1]), ops[|ops| - 1]);
    }
  }
}
