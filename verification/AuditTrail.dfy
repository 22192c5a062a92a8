/** What the audit store makes of a whole request: which results of its trail are stored as the
    handlers pass them. */
module AuditTrail {
  import opened Common
  import opened Capabilities
  import opened Lifecycle
  import opened Protocol
  import TaskInvariant
  import opened Wire
  import opened Conversation
  import opened Runs
  import opened Guarantees
  import LostDecision
  import Sequences
  import opened AppFlows
  import opened AuditEvent

  /** The store keeps this entry's result as it is. */
  predicate Kept(e: Entry) {
    SanitizeResult(ResultText(e.result)) == ResultText(e.result)
  }

  predicate AllKept(trail: seq<Entry>) {
    forall k :: 0 <= k < |trail| ==> Kept(trail[k])
  }

  lemma KeptExactly(e: Entry)
    ensures Kept(e) <==> e.result != RawTimedOut
  {
    hide SanitizeResult, ResultText;
    ResultStored(e.result);
  }

  lemma KeptConcat(a: seq<Entry>, b: seq<Entry>)
    ensures AllKept(a + b) <==> AllKept(a) && AllKept(b)
  {
    hide Kept;
    if AllKept(a + b) {
      assert forall k :: 0 <= k < |a| ==> a[k] == (a + b)[k];
      assert forall k :: 0 <= k < |b| ==> b[k] == (a + b)[|a| + k];
    }
  }

  lemma KeptHead(p: Plan)
    requires p.Valid() && p.style != Asking
    ensures AllKept(AuditOps(Head(p)))
  {
    hide Kept, AuditOps, Head;
    HeadTrail(p);
    forall e | e in HeadEntries(p) ensures Kept(e) { KeptExactly(e); }
  }

  lemma KeptSettle(style: Style, o: Outcome)
    requires style != Asking
    ensures AllKept(AuditOps(Settle(style, o))) <==> !(style == Demo && o.decision == TimedOut)
  {
    hide Kept, AuditOps, Settle;
    SettleTrail(style, o);
    var t := AuditOps(Settle(style, o));
    forall e | e in t ensures Kept(e) <==> e.result != RawTimedOut { KeptExactly(e); }
    assert t[0] in t;
  }

  lemma KeptRun(style: Style, gated: bool, ok: bool)
    requires style != Asking && (style == Demo ==> ok)
    ensures AllKept(AuditOps(BeforeRun(style)) + AuditOps(Finish(style, gated, ok)))
  {
    hide Kept, AuditOps, Finish;
    var run := AuditOps(BeforeRun(style)) + AuditOps(Finish(style, gated, ok));
    if style == Demo {
      DemoScript();
      SameDemoFinish(gated);
    } else {
      FinishTrail(gated, ok);
      NoEntriesBefore();
    }
    forall e | e in run ensures Kept(e) { KeptExactly(e); }
  }

  lemma SameDemoFinish(gated: bool)
    ensures Finish(Demo, gated, true) == Finish(Demo, true, true)
  {
  }

  lemma NoEntriesBefore()
    ensures AuditOps(BeforeRun(Acting)) == []
  {
  }

  /** Every result of a complete trail is stored as passed, unless a demo plan timed out. */
  lemma TrailKept(p: Plan, o: Outcome, ok: bool)
    requires p.Valid() && p.style != Asking && (p.gate == Refused ==> p.style == Acting) && (p.style == Demo ==> ok)
    ensures AllKept(AuditOps(FullScript(p, o, ok))) <==> !(p.style == Demo && p.gate == Gated && o.decision == TimedOut)
  {
    hide AllKept, AuditOps, Head, Settle, BeforeRun, Finish, FullScript;
    var h, w := AuditOps(Head(p)), AuditOps(Settle(p.style, o));
    var r := AuditOps(BeforeRun(p.style)) + AuditOps(Finish(p.style, p.gate == Gated, ok));
    PartsOfTrail(p, o, ok);
    KeptHead(p);
    KeptSettle(p.style, o);
    KeptRun(p.style, p.gate == Gated, ok);
    NothingKept();
    KeptConcat(h + (if p.gate == Gated then w else []), if WillRun(p, AnswerOf(p, o)) then r else []);
    KeptConcat(h, if p.gate == Gated then w else []);
  }

  lemma NothingKept()
    ensures AllKept([])
  {
  }

  lemma PartsOfTrail(p: Plan, o: Outcome, ok: bool)
    requires p.Valid()
    ensures AuditOps(FullScript(p, o, ok)) ==
      AuditOps(Head(p))
      + (if p.gate == Gated then AuditOps(Settle(p.style, o)) else [])
      + (if WillRun(p, AnswerOf(p, o))
         then AuditOps(BeforeRun(p.style)) + AuditOps(Finish(p.style, p.gate == Gated, ok)) else [])
  {
    hide Head, Settle, BeforeRun, Finish, FullScript;
    FullParts(p, o, ok, OpEntries(), AuditOps(Head(p)), AuditOps(Settle(p.style, o)),
      AuditOps(BeforeRun(p.style)) + AuditOps(Finish(p.style, p.gate == Gated, ok)));
  }

  /** A finished request's results all reach the audit store, unless it was a demo plan whose
      approval timed out: that one passes `timed_out`, which the store does not know, and its
      approval_resolved entry is stored without a result. */
  lemma StoredResults(policy: Policy, s: State, i: nat)
    requires Reachable(RouteFor(policy), s) && i < |s.tasks| && Finished(s.tasks[i])
    requires !s.tasks[i].flow.ApprovalDemo?
    ensures AllKept(TrailFor(s.log, i)) <==>
      !(s.tasks[i].flow.DemoPlan? && s.tasks[i].answer == Some(Outcome(TimedOut, Timeout)))
  {
    hide AllKept, AuditOps, FullScript, GuardCapability, Reachable, Script, Finished;
    ReachableInv(RouteFor(policy), s);
    var t := s.tasks[i];
    RefusalsAreActing(policy, t.flow);
    assert t.plan == PlanOf(t.flow, policy);
    FinishedAnswers(t, |s.conns|);
    SpokenSoFar(s, i);
    TrailKept(t.plan, FinalOutcome(t), FinalResult(t));
  }

  /** Under every policy, every kind of demo plan that needs approval has a finished run whose
      trail the store does not keep as passed: the one in which nobody decides. */
  lemma TimedOutDemo(policy: Policy, kind: string) returns (s: State)
    ensures Reachable(RouteFor(policy), s) && s.tasks != [] && s.tasks[0].flow == DemoPlan(kind, true)
    ensures Finished(s.tasks[0]) && !AllKept(TrailFor(s.log, 0))
  {
    hide GuardCapability, AllKept, Reachable, CanRun, After, Inv, Finished, Script;
    var route := RouteFor(policy);
    GuardDemoAllows(kind);
    var late := LostDecision.TimesOut(route, DemoPlan(kind, true));
    Sequences.SumOne(Unstamped(), late.tasks[0]);
    assert late.tasks == [late.tasks[0]];
    var steps := RunsToCompletion(route, late);
    ReachableInv(route, late);
    LostDecision.RunAnswer(route, late, steps, 0);
    LostDecision.RunReachable(route, late, steps);
    s := After(route, late, steps);
    StoredResults(policy, s, 0);
  }

  lemma FinishedAnswers(t: Task, conns: nat)
    requires TaskInvariant.TaskShape(t, conns) && Finished(t)
    ensures t.plan.gate == Gated <==> t.answer.Some?
    ensures t.answer.Some? && t.answer.value.decision == TimedOut ==> t.answer.value.source == Timeout
  {
    TaskInvariant.FinishedShape(t, conns);
  }
}
