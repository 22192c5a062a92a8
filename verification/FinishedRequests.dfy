/** What the log of a finished request tells: which decision, which refusal and which answer of the
    backend stands behind each audit entry and each frame.  Every entry and every frame is spelled
    out, and tied to what else the log shows of the same request. */
module FinishedRequests {
  import opened Common
  import opened Capabilities
  import Sequences
  import opened Lifecycle
  import LifecycleShape
  import opened Protocol
  import TaskInvariant
  import opened TraceInvariant
  import opened ReplyInvariant
  import opened Wire
  import opened Conversation
  import opened Runs
  import opened Guarantees
  import opened AppFlows
  import AuditTrail

  // ----- the trail of a complete script, entry by entry -------------------------------------

  /** Entries of the wait's answer, spelled out. */
  function AnswerEntries(style: Style, o: Outcome): seq<Entry> {
    var from := FromOutcome(o.source);
    match o.decision
    case Approved => [Entry(ApprovalResolved, ResultApproved, from)]
    case Denied => [Entry(ApprovalResolved, ResultDenied, from), Entry(ActionCancelled, ResultDenied, from)]
    case Cancelled => [Entry(ApprovalResolved, ResultCancelled, from), Entry(ActionCancelled, ResultCancelled, from)]
    case TimedOut =>
      [Entry(ApprovalResolved, if style == Demo then RawTimedOut else ResultExpired, from),
       Entry(ActionCancelled, ResultExpired, from)]
  }

  /** Entries of the opening, spelled out. */
  function OpeningEntries(p: Plan): seq<Entry> {
    var first := [Entry(IpcCommandReceived, NoResult, FromUi), Entry(ActionPlanned, NoResult, FromCore)];
    if p.gate == Gated then first + [Entry(ApprovalRequested, NoResult, FromCore)]
    else if p.gate == Direct then first
    else if p.guardDenied then first + [Entry(ActionFailed, ResultGuardDenied, FromCore)]
    else first + [Entry(ActionFailed, ResultFailed, FromCore)]
  }

  /** Entries of the run, spelled out. */
  function ActionEntries(ok: bool): seq<Entry> {
    [Entry(ActionStarted, NoResult, FromCore),
     if ok then Entry(ActionCompleted, ResultCompleted, FromCore) else Entry(ActionFailed, ResultFailed, FromCore)]
  }

  function Trail(p: Plan, o: Outcome, ok: bool): seq<Entry> {
    OpeningEntries(p)
    + (if p.gate == Gated then AnswerEntries(p.style, o) else [])
    + (if p.gate == Direct || (p.gate == Gated && o.decision == Approved) then ActionEntries(ok) else [])
  }

  predicate Audited(p: Plan, ok: bool) {
    p.Valid() && p.style != Asking && (p.gate == Refused ==> p.style == Acting) && (p.style == Demo ==> ok)
  }

  lemma OpeningIs(p: Plan)
    requires Audited(p, true)
    ensures AuditOps(Head(p)) == OpeningEntries(p)
  {
    hide AuditOps, Head;
    HeadTrail(p);
  }

  lemma AnswerIs(style: Style, o: Outcome)
    requires style != Asking
    ensures AuditOps(Settle(style, o)) == AnswerEntries(style, o)
  {
    hide AuditOps, Settle;
    SettleTrail(style, o);
  }

  lemma ActionIs(style: Style, gated: bool, ok: bool)
    requires style != Asking && (style == Demo ==> ok)
    ensures AuditOps(BeforeRun(style)) + AuditOps(Finish(style, gated, ok)) == ActionEntries(ok)
  {
    hide AuditOps, Finish;
    if style == Demo {
      DemoScript();
      AuditTrail.SameDemoFinish(gated);
    } else {
      FinishTrail(gated, ok);
      AuditTrail.NoEntriesBefore();
    }
  }

  lemma TrailIs(p: Plan, o: Outcome, ok: bool)
    requires Audited(p, ok)
    ensures AuditOps(FullScript(p, o, ok)) == Trail(p, o, ok)
  {
    hide AuditOps, Head, Settle, BeforeRun, Finish, FullScript, OpeningEntries, AnswerEntries, ActionEntries;
    AuditTrail.PartsOfTrail(p, o, ok);
    OpeningIs(p);
    AnswerIs(p.style, o);
    ActionIs(p.style, p.gate == Gated, ok);
  }

  // ----- what the state of a finished request says ------------------------------------------

  lemma CalledInLog(log: seq<Event>, i: nat)
    ensures EffectMark in TraceOf(log, i) <==> Acted(i) in log
  {
    Sequences.FlatHas(EventMarks(i), log, EffectMark);
  }

  lemma RanInScript(t: Task, conns: nat)
    requires TaskInvariant.TaskShape(t, conns) && t.pc <= |Program(t)|
    ensures EffectMark in MarksUpTo(t) <==> t.ran.Some?
  {
    hide Script;
    var ops := Program(t)[..t.pc];
    Sequences.FlatHas(OpMarks(), ops, EffectMark);
    TaskInvariant.FinishedShape(t, conns);
    if t.ran.Some? {
      LifecycleShape.OpShape(t.plan, t.answer, t.ran, LifecycleShape.RunAt(t.plan, t.answer));
      assert EffectMark in OpMarks()(ops[LifecycleShape.RunAt(t.plan, t.answer)]);
    } else {
      forall k | 0 <= k < |ops| ensures EffectMark !in OpMarks()(ops[k]) {
        LifecycleShape.OpShape(t.plan, t.answer, t.ran, k);
      }
    }
  }

  /** The backend has been called exactly if it has answered. */
  lemma ActedExactly(route: Route, s: State, i: nat)
    requires Reachable(route, s) && i < |s.tasks|
    ensures Acted(i) in s.log <==> s.tasks[i].ran.Some?
  {
    hide Reachable, MarksUpTo, TraceOf, Script;
    ReachableInv(route, s);
    CalledInLog(s.log, i);
    RanInScript(s.tasks[i], |s.conns|);
  }

  lemma FinishedFields(t: Task, conns: nat)
    requires TaskInvariant.TaskShape(t, conns) && Finished(t)
    ensures t.plan.gate == Gated <==> t.approval.Some?
    ensures t.plan.gate == Gated <==> t.answer.Some?
    ensures t.ran.Some? <==> WillRun(t.plan, t.answer)
    ensures t.plan.style == Demo && t.ran.Some? ==> t.ran.value
    ensures t.answer.Some? ==> (t.answer.value.source == Timeout <==> t.answer.value.decision == TimedOut)
  {
    hide Script;
    TaskInvariant.FinishedShape(t, conns);
  }

  /** All that the laws below rest on. */
  lemma EndOf(policy: Policy, s: State, i: nat)
    requires Reachable(RouteFor(policy), s) && i < |s.tasks| && Finished(s.tasks[i])
    ensures var t := s.tasks[i];
      && t.plan == PlanOf(t.flow, policy)
      && (t.plan.gate == Gated <==> t.approval.Some?) && (t.plan.gate == Gated <==> t.answer.Some?)
      && (t.ran.Some? <==> WillRun(t.plan, t.answer)) && (t.ran.Some? <==> Acted(i) in s.log)
      && (t.answer.Some? ==>
            var o := t.answer.value;
            (o == Outcome(TimedOut, Timeout)
             || (o.source == User && o.decision != TimedOut && Accepted(s.log, IdOf(t.approval.value)) == [o.decision])))
      && FramesFor(s.log, i) == FullFrames(t.plan, FinalOutcome(t), FinalResult(t))
      && (t.plan.style != Asking ==>
            Audited(t.plan, FinalResult(t)) && TrailFor(s.log, i) == Trail(t.plan, FinalOutcome(t), FinalResult(t)))
  {
    hide Reachable, Script, FullScript, Trail, FullFrames, Finished, GuardCapability, PlanOf, Accepted;
    ReachableInv(RouteFor(policy), s);
    var t := s.tasks[i];
    assert t.plan == PlanOf(t.flow, policy);
    RefusalsAreActing(policy, t.flow);
    FinishedFields(t, |s.conns|);
    ActedExactly(RouteFor(policy), s, i);
    if t.answer.Some? { OutcomeIsAccepted(RouteFor(policy), s, i); }
    SpokenSoFar(s, i);
    FullWire(t.plan, FinalOutcome(t), FinalResult(t));
    if t.plan.style != Asking { TrailIs(t.plan, FinalOutcome(t), FinalResult(t)); }
  }

  // ----- decisions in the trail -------------------------------------------------------------

  /** The entry of kind `kind` that stands for an answered wait, with its result and source. */
  predicate Tells(trail: seq<Entry>, kind: AuditKind, result: AuditResult, source: Source) {
    Entry(kind, result, FromOutcome(source)) in trail
  }

  /** No entry of this kind but one, if any. */
  predicate AtMostOne(trail: seq<Entry>, kind: AuditKind) {
    forall j, k :: 0 <= j < |trail| && 0 <= k < |trail| && trail[j].kind == kind && trail[k].kind == kind ==> j == k
  }

  /** The result an answered wait leaves in the trail, for either kind of entry. */
  predicate ResultFits(style: Style, kind: AuditKind, d: Decision, result: AuditResult) {
    match d
    case Approved => kind == ApprovalResolved && result == ResultApproved
    case Denied => result == ResultDenied
    case Cancelled => result == ResultCancelled
    case TimedOut => result == if kind == ApprovalResolved && style == Demo then RawTimedOut else ResultExpired
  }

  predicate AboutAnswer(kind: AuditKind) { kind == ApprovalResolved || kind == ActionCancelled }

  lemma OpeningSilent(p: Plan, e: Entry)
    requires AboutAnswer(e.kind)
    ensures e !in OpeningEntries(p)
  {
  }

  lemma ActionSilent(ok: bool, e: Entry)
    requires AboutAnswer(e.kind)
    ensures e !in ActionEntries(ok)
  {
  }

  lemma AnswerTells(style: Style, o: Outcome, kind: AuditKind, result: AuditResult, source: AuditSource)
    requires AboutAnswer(kind)
    ensures Entry(kind, result, source) in AnswerEntries(style, o) <==>
      source == FromOutcome(o.source) && ResultFits(style, kind, o.decision, result)
  {
  }

  /** What the trail says about the answer, it says because the wait was answered so. */
  lemma TrailTells(p: Plan, o: Outcome, ok: bool, kind: AuditKind, result: AuditResult, source: AuditSource)
    requires AboutAnswer(kind)
    ensures Entry(kind, result, source) in Trail(p, o, ok) <==>
      p.gate == Gated && source == FromOutcome(o.source) && ResultFits(p.style, kind, o.decision, result)
  {
    hide OpeningEntries, AnswerEntries, ActionEntries, ResultFits;
    var e := Entry(kind, result, source);
    OpeningSilent(p, e);
    ActionSilent(ok, e);
    AnswerTells(p.style, o, kind, result, source);
  }

  lemma OpeningSize(p: Plan)
    ensures |OpeningEntries(p)| <= 3 && (p.gate == Gated ==> |OpeningEntries(p)| == 3)
    ensures forall k :: 0 <= k < |OpeningEntries(p)| ==> !AboutAnswer(OpeningEntries(p)[k].kind)
  {
  }

  lemma AnswerSize(style: Style, o: Outcome)
    ensures var es := AnswerEntries(style, o);
      && |es| == (if o.decision == Approved then 1 else 2) && es[0].kind == ApprovalResolved
      && (|es| == 2 ==> es[1].kind == ActionCancelled)
  {
  }

  /** Where entries about the answer stand. */
  lemma AnswerPlace(p: Plan, o: Outcome, ok: bool, k: nat)
    requires k < |Trail(p, o, ok)|
    ensures Trail(p, o, ok)[k].kind == ApprovalResolved <==> p.gate == Gated && k == 3
    ensures Trail(p, o, ok)[k].kind == ActionCancelled <==> p.gate == Gated && o.decision != Approved && k == 4
  {
    hide OpeningEntries, AnswerEntries;
    OpeningSize(p);
    AnswerSize(p.style, o);
    var n := |OpeningEntries(p)|;
    if k < n { assert Trail(p, o, ok)[k] == OpeningEntries(p)[k]; }
  }

  /** The resolution in the trail of a finished gated action tells what became of the approval: it
      was approved exactly if the backend was called; denied or cancelled exactly if that was the
      accepted decision and did not come too late; expired exactly if the deadline decided. */
  lemma ResolutionAudited(policy: Policy, s: State, i: nat)
    requires Reachable(RouteFor(policy), s) && i < |s.tasks| && Finished(s.tasks[i])
    requires s.tasks[i].approval.Some? && !s.tasks[i].flow.ApprovalDemo?
    ensures s.tasks[i].answer.Some?
    ensures var trail := TrailFor(s.log, i);
      var accepted := Accepted(s.log, IdOf(s.tasks[i].approval.value));
      var late := s.tasks[i].answer.value.source == Timeout;
      && (Tells(trail, ApprovalResolved, ResultApproved, User) <==> Acted(i) in s.log)
      && (Tells(trail, ApprovalResolved, ResultApproved, User) <==> accepted == [Approved] && !late)
      && (Tells(trail, ApprovalResolved, ResultDenied, User) <==> accepted == [Denied] && !late)
      && (Tells(trail, ApprovalResolved, ResultCancelled, User) <==> accepted == [Cancelled] && !late)
      && (Tells(trail, ApprovalResolved, if s.tasks[i].flow.DemoPlan? then RawTimedOut else ResultExpired, Timeout) <==> late)
      && (exists k :: 0 <= k < |trail| && trail[k].kind == ApprovalResolved)
      && AtMostOne(trail, ApprovalResolved)
  {
    hide Reachable, Finished, Accepted, GuardCapability, FullFrames, TrailFor, Trail, PlanOf, FullScript, Script;
    EndOf(policy, s, i);
    var t := s.tasks[i];
    var o, ok := FinalOutcome(t), FinalResult(t);
    StyleOf(policy, t.flow);
    var trail := Trail(t.plan, o, ok);
    forall result, source
      ensures Tells(trail, ApprovalResolved, result, source) <==>
        source == o.source && ResultFits(t.plan.style, ApprovalResolved, o.decision, result)
    {
      TrailTells(t.plan, o, ok, ApprovalResolved, result, FromOutcome(source));
    }
    forall k | 0 <= k < |trail| ensures trail[k].kind == ApprovalResolved <==> k == 3 { AnswerPlace(t.plan, o, ok, k); }
    LongEnough(t.plan, o, ok);
  }

  lemma LongEnough(p: Plan, o: Outcome, ok: bool)
    requires p.gate == Gated
    ensures |Trail(p, o, ok)| > 3 && (o.decision != Approved ==> |Trail(p, o, ok)| > 4)
  {
    OpeningSize(p);
    AnswerSize(p.style, o);
  }

  /** So does the cancellation; where nothing was gated, or the approval was given in time, there is
      none. */
  lemma CancellationAudited(policy: Policy, s: State, i: nat)
    requires Reachable(RouteFor(policy), s) && i < |s.tasks| && Finished(s.tasks[i])
    requires s.tasks[i].approval.Some? && !s.tasks[i].flow.ApprovalDemo?
    ensures s.tasks[i].answer.Some?
    ensures var trail := TrailFor(s.log, i);
      var accepted := Accepted(s.log, IdOf(s.tasks[i].approval.value));
      var late := s.tasks[i].answer.value.source == Timeout;
      && (Tells(trail, ActionCancelled, ResultDenied, User) <==> accepted == [Denied] && !late)
      && (Tells(trail, ActionCancelled, ResultCancelled, User) <==> accepted == [Cancelled] && !late)
      && (Tells(trail, ActionCancelled, ResultExpired, Timeout) <==> late)
      && ((exists k :: 0 <= k < |trail| && trail[k].kind == ActionCancelled) <==> Acted(i) !in s.log)
      && AtMostOne(trail, ActionCancelled)
  {
    hide Reachable, Finished, Accepted, GuardCapability, FullFrames, TrailFor, Trail, PlanOf, FullScript, Script;
    EndOf(policy, s, i);
    var t := s.tasks[i];
    var o, ok := FinalOutcome(t), FinalResult(t);
    StyleOf(policy, t.flow);
    var trail := Trail(t.plan, o, ok);
    forall result, source
      ensures Tells(trail, ActionCancelled, result, source) <==>
        source == o.source && ResultFits(t.plan.style, ActionCancelled, o.decision, result)
    {
      TrailTells(t.plan, o, ok, ActionCancelled, result, FromOutcome(source));
    }
    forall k | 0 <= k < |trail| ensures trail[k].kind == ActionCancelled <==> o.decision != Approved && k == 4 {
      AnswerPlace(t.plan, o, ok, k);
    }
    LongEnough(t.plan, o, ok);
  }

  /** Without a gate the trail tells of no answer. */
  lemma NoAnswerAudited(policy: Policy, s: State, i: nat, k: nat)
    requires Reachable(RouteFor(policy), s) && i < |s.tasks| && Finished(s.tasks[i])
    requires s.tasks[i].approval.None? && !s.tasks[i].flow.ApprovalDemo? && k < |TrailFor(s.log, i)|
    ensures !AboutAnswer(TrailFor(s.log, i)[k].kind)
  {
    hide Reachable, Finished, Accepted, GuardCapability, FullFrames, TrailFor, Trail, PlanOf, FullScript, Script;
    EndOf(policy, s, i);
    var t := s.tasks[i];
    StyleOf(policy, t.flow);
    AnswerPlace(t.plan, FinalOutcome(t), FinalResult(t), k);
  }

  // ----- refusals and runs in the trail -----------------------------------------------------

  lemma OpeningTells(p: Plan)
    ensures var es := OpeningEntries(p);
      && |es| >= 2 && es[0] == Entry(IpcCommandReceived, NoResult, FromUi) && es[1] == Entry(ActionPlanned, NoResult, FromCore)
      && (Entry(ApprovalRequested, NoResult, FromCore) in es <==> p.gate == Gated)
      && (Entry(ActionFailed, ResultGuardDenied, FromCore) in es <==> p.gate == Refused && p.guardDenied)
      && (Entry(ActionFailed, ResultFailed, FromCore) in es <==> p.gate == Refused && !p.guardDenied)
      && Entry(ActionStarted, NoResult, FromCore) !in es && Entry(ActionCompleted, ResultCompleted, FromCore) !in es
  {
  }

  lemma ActionTells(ok: bool)
    ensures var es := ActionEntries(ok);
      && Entry(ActionStarted, NoResult, FromCore) in es
      && (Entry(ActionCompleted, ResultCompleted, FromCore) in es <==> ok)
      && (Entry(ActionFailed, ResultFailed, FromCore) in es <==> !ok)
      && Entry(ActionFailed, ResultGuardDenied, FromCore) !in es && Entry(ApprovalRequested, NoResult, FromCore) !in es
  {
  }

  lemma AnswerKinds(style: Style, o: Outcome, e: Entry)
    requires e in AnswerEntries(style, o)
    ensures AboutAnswer(e.kind)
  {
  }

  /** The rest of a finished action's trail: it begins with the command and the plan; an approval was
      requested exactly where one was drawn; the action started exactly if the backend was called,
      completed exactly if that answered well, and failed if it did not, or if policy or guard
      refused. */
  lemma RunAudited(policy: Policy, s: State, i: nat)
    requires Reachable(RouteFor(policy), s) && i < |s.tasks| && Finished(s.tasks[i])
    requires !s.tasks[i].flow.ApprovalDemo?
    ensures var t, trail := s.tasks[i], TrailFor(s.log, i);
      var known := !t.flow.Interaction? || t.flow.kind == OpenApplication || t.flow.kind == FocusWindow;
      && |trail| >= 2
      && trail[0] == Entry(IpcCommandReceived, NoResult, FromUi) && trail[1] == Entry(ActionPlanned, NoResult, FromCore)
      && (Entry(ApprovalRequested, NoResult, FromCore) in trail <==> t.approval.Some?)
      && (Entry(ActionStarted, NoResult, FromCore) in trail <==> Acted(i) in s.log)
      && (Entry(ActionCompleted, ResultCompleted, FromCore) in trail <==> t.ran == Some(true))
      && (Entry(ActionFailed, ResultFailed, FromCore) in trail <==>
            t.ran == Some(false) || (t.flow.Interaction? && known && !Permitted(policy, t.flow.kind)))
      && (Entry(ActionFailed, ResultGuardDenied, FromCore) in trail <==> !known)
  {
    hide Reachable, Finished, Accepted, GuardCapability, FullFrames, TrailFor, PlanOf, FullScript, Script;
    hide OpeningEntries, AnswerEntries, ActionEntries;
    EndOf(policy, s, i);
    var t := s.tasks[i];
    var o, ok := FinalOutcome(t), FinalResult(t);
    RoutingExactly(policy, t.flow);
    OpeningTells(t.plan);
    ActionTells(ok);
    forall e | e in AnswerEntries(t.plan.style, o) ensures AboutAnswer(e.kind) { AnswerKinds(t.plan.style, o, e); }
    assert t.plan.gate != Refused || !t.ran.Some?;
  }

  // ----- frames -----------------------------------------------------------------------------

  lemma HeadShows(p: Plan)
    requires p.Valid()
    ensures var fs := HeadFrames(p);
      && (Requested in fs <==> p.gate == Gated)
      && (Failed in fs <==> p.gate == Refused && p.style != Asking)
      && Step !in fs && Verification !in fs && Completed !in fs && CancelledFrame !in fs
      && (forall f :: f in fs ==> !f.Resolved?)
  {
  }

  lemma SettleShows(style: Style, o: Outcome)
    ensures var fs := SettleFrames(style, o);
      && (forall f :: f in fs ==> f == Resolved(o) || f == CancelledFrame)
      && Resolved(o) in fs && (CancelledFrame in fs <==> style != Asking && o.decision != Approved)
  {
  }

  lemma RunShows(style: Style, ok: bool)
    requires style == Demo ==> ok
    ensures var fs := RunFrames(style, ok);
      && Step in fs && (Completed in fs <==> ok) && (Failed in fs <==> !ok) && (Verification in fs <==> ok && style != Demo)
      && Requested !in fs && CancelledFrame !in fs && forall f :: f in fs ==> !f.Resolved?
  {
  }

  /** What a client sees of a finished request is what happened to it: it was asked exactly if an
      approval was drawn, sees the outcome of the wait and no other, a step exactly if the backend
      was called, and completed, failed or cancelled for the reason there was. */
  lemma FramesTell(policy: Policy, s: State, i: nat)
    requires Reachable(RouteFor(policy), s) && i < |s.tasks| && Finished(s.tasks[i])
    ensures var t, fs := s.tasks[i], FramesFor(s.log, i);
      && (Requested in fs <==> t.approval.Some?)
      && (forall o :: Resolved(o) in fs <==> t.answer == Some(o))
      && (Step in fs <==> Acted(i) in s.log)
      && (Completed in fs <==> t.ran == Some(true))
      && (Verification in fs <==> t.ran == Some(true) && t.flow.Interaction?)
      && (Failed in fs <==> t.ran == Some(false) || (t.flow.Interaction? && !Permitted(policy, t.flow.kind)))
      && (CancelledFrame in fs <==> t.answer.Some? && Acted(i) !in s.log && !t.flow.ApprovalDemo?)
  {
    hide Reachable, Finished, Accepted, GuardCapability, FramesFor, PlanOf, FullScript, Script;
    hide HeadFrames, SettleFrames, RunFrames;
    EndOf(policy, s, i);
    var t := s.tasks[i];
    var o, ok := FinalOutcome(t), FinalResult(t);
    RoutingExactly(policy, t.flow);
    HeadShows(t.plan);
    SettleShows(t.plan.style, o);
    RunShows(t.plan.style, ok);
  }

  lemma StyleOf(policy: Policy, flow: Flow)
    ensures PlanOf(flow, policy).style == match flow
      case Interaction(_, _) => Acting
      case DemoPlan(_, _) => Demo
      case ApprovalDemo => Asking
  {
    hide GuardCapability;
  }
}
