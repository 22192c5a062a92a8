/** The audit trail is never behind the wire where it matters: whatever a client sees of an action
    that has run, the backend call and both of its audit entries are already in the log. */
module AuditFirst {
  import Capabilities
  import Sequences
  import opened Lifecycle
  import LifecycleShape
  import opened Protocol
  import TaskInvariant
  import opened TraceInvariant
  import opened Wire
  import opened Conversation
  import Runs
  import opened AppFlows

  /** Frames that only an action that has run shows. */
  predicate RunOnly(f: Frame) {
    f == Step || f == Verification || f == Completed
  }

  predicate Silent(marks: seq<Mark>) {
    forall k :: 0 <= k < |marks| ==> !(marks[k].FrameMark? && RunOnly(marks[k].frame))
  }

  lemma HeadSilent(p: Plan)
    requires p.style == Acting
    ensures Silent(HeadMarks(p))
  {
  }

  lemma SettleSilent(o: Outcome)
    ensures Silent(MarksOf(Settle(Acting, o)))
  {
    hide MarksOf, Settle;
    SettleMarks(Acting, o);
  }

  lemma SilentConcat(a: seq<Mark>, b: seq<Mark>)
    requires Silent(a) && Silent(b)
    ensures Silent(a + b)
  {
  }

  /** What comes before the backend call. */
  function BeforeCall(p: Plan, o: Outcome): seq<Mark> {
    HeadMarks(p) + (if p.gate == Gated then MarksOf(Settle(Acting, o)) else [])
  }

  lemma FullMarks(p: Plan, o: Outcome, ok: bool)
    requires p.Valid() && p.style == Acting
    ensures MarksOf(FullScript(p, o, ok)) ==
      BeforeCall(p, o) + (if WillRun(p, AnswerOf(p, o)) then RunMarks(ok) else [])
  {
    hide Head, Settle, Finish, HeadMarks, RunMarks;
    FullFlat(p, o, ok, OpMarks());
    HeadMarksAre(p);
    WaitFlat(p, o, OpMarks());
    if WillRun(p, AnswerOf(p, o)) { FinishMarks(p.gate == Gated, ok); }
    assert Sequences.Flat(OpMarks(), LifecycleShape.BeforePart(p, AnswerOf(p, o))) == [];
    assert BeforeCall(p, o) + [] == BeforeCall(p, o);
  }

  /** The trace of the past, and the mark that follows it. */
  lemma TraceAt(log: seq<Event>, i: nat, k: nat)
    requires k < |log| && EventMark(i, log[k]) != []
    ensures TraceOf(log[..k], i) + EventMark(i, log[k]) <= TraceOf(log, i)
  {
    LogSnoc(log[..k], log[k], i);
    assert log[..k + 1] == log[..k] + [log[k]];
    Sequences.FlatPrefix(EventMarks(i), log, k + 1);
  }

  lemma TraceBegins(s: State, i: nat)
    requires TaskInvariant.InvShape(s) && InvTrace(s) && i < |s.tasks|
    ensures TraceOf(s.log, i) <= MarksOf(FinalScript(s.tasks[i]))
  {
    hide FullScript, Script;
    var t := s.tasks[i];
    ScriptExtends(t, |s.conns|);
    assert FinalScript(t)[..t.pc] == Program(t)[..t.pc];
    Sequences.FlatPrefix(OpMarks(), FinalScript(t), t.pc);
  }

  /** In a complete trace, a frame of the run comes behind the call and both entries. */
  lemma RunOnlyPlace(before: seq<Mark>, ok: bool, run: bool, past: seq<Mark>, f: Frame)
    requires Silent(before) && RunOnly(f)
    requires past + [FrameMark(f)] <= before + (if run then RunMarks(ok) else [])
    ensures run && before + RunMarks(ok)[..3] <= past
    ensures f == Completed ==> ok
  {
    var all := before + (if run then RunMarks(ok) else []);
    var n := |past|;
    assert all[n] == FrameMark(f) by { assert (past + [FrameMark(f)])[n] == FrameMark(f); }
    assert n >= |before|;
    assert run && RunMarks(ok)[n - |before|] == FrameMark(f);
    assert n - |before| >= 3;
    assert past == all[..n];
  }

  /** In every run: when a step, verification or completion frame of an interaction is shown, the
      backend has been called, and that it started and how it ended has been audited. */
  lemma AuditedBeforeShown(policy: Capabilities.Policy, s: State, k: nat)
    requires Runs.Reachable(RouteFor(policy), s) && k < |s.log| && s.log[k].Shown? && RunOnly(s.log[k].frame)
    requires s.log[k].owner < |s.tasks| && s.tasks[s.log[k].owner].flow.Interaction?
    ensures var past := TraceOf(s.log[..k], s.log[k].owner);
      && EffectMark in past
      && EntryMark(Entry(ActionStarted, NoResult, FromCore)) in past
      && (EntryMark(LastEntry(true)) in past || EntryMark(LastEntry(false)) in past)
      && (s.log[k].frame == Completed ==> EntryMark(LastEntry(true)) in past)
  {
    hide Capabilities.GuardCapability, FullScript, MarksOf, BeforeCall, RunMarks, Runs.Reachable, Script, TraceOf;
    Runs.ReachableInv(RouteFor(policy), s);
    var i, f := s.log[k].owner, s.log[k].frame;
    var t := s.tasks[i];
    assert t.plan == PlanOf(t.flow, policy);
    var o, ok := FinalOutcome(t), FinalResult(t);
    var past := TraceOf(s.log[..k], i);
    TraceAt(s.log, i, k);
    TraceBegins(s, i);
    FullMarks(t.plan, o, ok);
    BeforeSilent(t.plan, o);
    var run := WillRun(t.plan, AnswerOf(t.plan, o));
    RunOnlyPlace(BeforeCall(t.plan, o), ok, run, past, f);
    FirstThree(BeforeCall(t.plan, o), ok, past);
  }

  lemma BeforeSilent(p: Plan, o: Outcome)
    requires p.style == Acting
    ensures Silent(BeforeCall(p, o))
  {
    hide MarksOf, HeadMarks;
    HeadSilent(p);
    SettleSilent(o);
    SilentConcat(HeadMarks(p), if p.gate == Gated then MarksOf(Settle(Acting, o)) else []);
  }

  lemma FirstThree(before: seq<Mark>, ok: bool, past: seq<Mark>)
    requires before + RunMarks(ok)[..3] <= past
    ensures EffectMark in past && EntryMark(Entry(ActionStarted, NoResult, FromCore)) in past && EntryMark(LastEntry(ok)) in past
  {
    var m := before + RunMarks(ok)[..3];
    var n := |before|;
    assert m[n] == EffectMark && m[n + 1] == EntryMark(Entry(ActionStarted, NoResult, FromCore));
    assert m[n + 2] == EntryMark(LastEntry(ok));
    assert past[n] == m[n] && past[n + 1] == m[n + 1] && past[n + 2] == m[n + 2];
  }
}
