/** What holds in every reachable state of the interleaved system, whatever clients, timers and
    scheduler do. */
module Guarantees {
  import opened Common
  import Sequences
  import opened Capabilities
  import Text
  import opened Lifecycle
  import opened Protocol
  import opened TaskInvariant
  import BusyInvariant
  import opened ChannelInvariant
  import TraceInvariant
  import opened ReplyInvariant
  import opened CorrelationInvariant
  import GateInvariant
  import opened DeliveryInvariant
  import ResponseInvariant
  import opened Conversation
  import opened Wire
  import opened Runs
  import opened Progress

  // ----- tokens -----------------------------------------------------------------------------

  /** Some resolver has taken the sender of channel `n` out of the registry and not sent yet. */
  ghost predicate InFlight(s: State, n: nat) {
    exists c :: Holds(s, c, n)
  }

  /** A sender is alive exactly while it is registered under its own id or held by a resolver,
      never both, and no two resolvers hold the same one. */
  lemma TokenConservation(route: Route, s: State, n: nat)
    requires Reachable(route, s) && n < |s.chans|
    ensures s.chans[n].tx.Alive? <==> Registered(s, n) || InFlight(s, n)
    ensures !(Registered(s, n) && InFlight(s, n))
    ensures forall c, d :: Holds(s, c, n) && Holds(s, d, n) ==> c == d
    ensures forall id :: id in s.registry && s.registry[id] == n ==> id == IdOf(n)
  {
    hide Reachable;
    ReachableInv(route, s);
    forall c, d | Holds(s, c, n) && Holds(s, d, n) ensures c == d {
      assert SameHold(s, c, d);
    }
  }

  /** A receiver that still waits has its sender, or the value it sent; the arms for a dropped
      sender never run, and no wait is ever answered by the system itself. */
  lemma SenderNeverDropped(route: Route, s: State, i: nat)
    requires Reachable(route, s)
    ensures !Enabled(s, PollSenderLost(i))
    ensures i < |s.tasks| && s.tasks[i].answer.Some? ==> s.tasks[i].answer.value.source != System
  {
    hide Reachable;
    ReachableInv(route, s);
    SenderNeverLost(s, i);
    if i < |s.tasks| && s.tasks[i].answer.Some? {
      assert Owns(s, i, s.tasks[i].approval.value);
    }
  }

  /** Approval ids in use belong to one request each. */
  lemma ApprovalsDistinct(route: Route, s: State, i: nat, j: nat)
    requires Reachable(route, s) && i < |s.tasks| && j < |s.tasks|
    requires s.tasks[i].approval.Some? && s.tasks[j].approval.Some?
    requires IdOf(s.tasks[i].approval.value) == IdOf(s.tasks[j].approval.value)
    ensures i == j
  {
    hide Reachable;
    ReachableInv(route, s);
    var m, n := s.tasks[i].approval.value, s.tasks[j].approval.value;
    IdOfInjective(m, n);
    assert Owns(s, i, m) && Owns(s, j, n);
  }

  // ----- the gate ---------------------------------------------------------------------------

  /** The user has to confirm this request before it may act. */
  predicate NeedsConfirmation(policy: Policy, flow: Flow) {
    match flow
    case Interaction(_, confirm) => confirm && policy.requireConfirmation
    case DemoPlan(_, approval) => approval
    case ApprovalDemo => true
  }

  /** Routing decides for the gate exactly where confirmation is needed and nothing refuses. */
  lemma GateDecision(policy: Policy, flow: Flow)
    ensures PlanOf(flow, policy).gate != Refused ==>
      (PlanOf(flow, policy).gate == Gated <==> NeedsConfirmation(policy, flow))
  {
    hide GuardCapability;
  }

  /** The interaction layer is on, and this is one of the two kinds with a backend whose own flag is
      on. */
  predicate Permitted(policy: Policy, kind: InteractionKind) {
    policy.enabled
    && ((kind == OpenApplication && policy.allowOpenApplication) || (kind == FocusWindow && policy.allowFocusWindow))
  }

  /** What is refused, by whom, and what has to wait, read off the flags of the policy and of the
      request: demo plans and approval demos are never refused. */
  lemma RoutingExactly(policy: Policy, flow: Flow)
    ensures var p := PlanOf(flow, policy); match flow
      case Interaction(kind, confirm) =>
        && p.style == Acting
        && (p.gate != Refused <==>
              policy.enabled
              && ((kind == OpenApplication && policy.allowOpenApplication)
                  || (kind == FocusWindow && policy.allowFocusWindow)))
        && (p.gate == Refused <==> !Permitted(policy, kind))
        && (p.guardDenied <==> kind != OpenApplication && kind != FocusWindow)
        && (p.gate == Gated <==> Permitted(policy, kind) && confirm && policy.requireConfirmation)
      case DemoPlan(_, approval) => p == Plan(Demo, if approval then Gated else Direct, false)
      case ApprovalDemo => p == Plan(Asking, Gated, false)
  {
    hide GuardCapability;
    match flow
    case Interaction(kind, _) => GuardInteractionExact(kind);
    case DemoPlan(kind, _) => GuardDemoAllows(kind);
    case ApprovalDemo => ExecutableIdAllowed(2);
  }

  /** Approval demos and demo plans are never refused by the guard. */
  lemma RefusalsAreActing(policy: Policy, flow: Flow)
    ensures PlanOf(flow, policy).gate == Refused ==> flow.Interaction? && PlanOf(flow, policy).style == Acting
  {
    hide GuardCapability, PlanOf;
    RoutingExactly(policy, flow);
  }

  /** Whenever a backend or mock step has run for request `i`, this was its only run; a request
      that needs confirmation was running on exactly one accepted decision for its own approval
      id, Approved, already given at that point; and no interaction kind but the two supported
      ones ever gets there. */
  lemma GateSafety(policy: Policy, s: State, k: nat)
    requires Reachable(RouteFor(policy), s) && k < |s.log| && s.log[k].Acted?
    ensures s.log[k].owner < |s.tasks|
    ensures var t := s.tasks[s.log[k].owner];
      && !t.flow.ApprovalDemo?
      && (NeedsConfirmation(policy, t.flow) ==>
            t.approval.Some? && Accepted(s.log[..k], IdOf(t.approval.value)) == [Approved])
      && (t.flow.Interaction? ==>
            && policy.enabled
            && ((t.flow.kind == OpenApplication && policy.allowOpenApplication)
                || (t.flow.kind == FocusWindow && policy.allowFocusWindow)))
    ensures forall j :: 0 <= j < |s.log| && s.log[j] == s.log[k] ==> j == k
  {
    hide GuardCapability, Reachable;
    ReachableInv(RouteFor(policy), s);
    assert GateInvariant.GateAt(s, k);
    var t := s.tasks[s.log[k].owner];
    assert t.plan == PlanOf(t.flow, policy);
    GateDecision(policy, t.flow);
    RoutingExactly(policy, t.flow);
    forall j | 0 <= j < |s.log| && s.log[j] == s.log[k] ensures j == k {
      assert GateInvariant.SameAct(s.log, j, k);
    }
  }

  // ----- decisions --------------------------------------------------------------------------

  /** At most one `resolve` per approval id ever returns Ok. */
  lemma SingleAcceptance(route: Route, s: State, id: string)
    requires Reachable(route, s)
    ensures |Accepted(s.log, id)| <= 1
  {
    hide Reachable;
    ReachableInv(route, s);
    if Allocated(s, id) {
      var n :| 0 <= n < |s.chans| && IdOf(n) == id;
    } else {
      forall k | 0 <= k < |s.log| ensures AcceptedMark(id, s.log[k]) == [] {
        assert AnsweredAllocated(s, s.log[k]);
      }
      Sequences.FlatEmpty(AcceptedMarks(id), s.log);
    }
  }

  /** What a resolver that holds a sender is about to answer: Ok as long as the wait has not been
      answered, and otherwise Closed, which happens only where the deadline has decided. */
  lemma ReplyExactly(route: Route, s: State, c: nat)
    requires Reachable(route, s) && Enabled(s, ResolveSend(c))
    ensures var m := s.conns[c].mode;
      var i := s.chans[m.chan].owner;
      && m.id == IdOf(m.chan) && i < |s.tasks| && s.tasks[i].approval == Some(m.chan)
      && (s.tasks[i].answer.Some? ==> s.tasks[i].answer.value.source == Timeout)
      && Apply(route, s, ResolveSend(c)).log ==
           s.log + [Answered(c, m.id, m.decision, if s.tasks[i].answer.None? then Delivered else WaiterGone)]
  {
    hide Reachable, InvTokens;
    ReachableInv(route, s);
    HeldSender(s, c);
  }

  /** The wait behind a sender in a resolver's hands. */
  lemma HeldSender(s: State, c: nat)
    requires InvTokens(s) && c < |s.conns| && s.conns[c].mode.Holding?
    ensures var m := s.conns[c].mode;
      && m.chan < |s.chans| && m.id == IdOf(m.chan) && Owns(s, s.chans[m.chan].owner, m.chan)
      && var t := s.tasks[s.chans[m.chan].owner];
        && (t.answer.Some? ==> t.answer.value.source == Timeout)
        && (s.chans[m.chan].rx == Open <==> t.answer.None?)
  {
    var n := s.conns[c].mode.chan;
    assert Owns(s, s.chans[n].owner, n);
    assert ChanShape(s.tasks[s.chans[n].owner], s.chans[n]);
  }

  /** A request's outcome is the one accepted decision, from the user, or the timeout's own. */
  lemma OutcomeIsAccepted(route: Route, s: State, i: nat)
    requires Reachable(route, s) && i < |s.tasks| && s.tasks[i].answer.Some?
    ensures s.tasks[i].approval.Some?
    ensures var o := s.tasks[i].answer.value;
      || o == Outcome(TimedOut, Timeout)
      || (o.source == User && Accepted(s.log, IdOf(s.tasks[i].approval.value)) == [o.decision])
  {
    hide Reachable;
    ReachableInv(route, s);
    var n := s.tasks[i].approval.value;
    assert Owns(s, i, n);
    assert Accepted(s.log, IdOf(n)) == SentValue(s.chans[n]);
  }

  /** Every refused `resolve` is audited once as IpcCommandRejected, in order, and answered with
      one error frame; only the refusal being handled right now can still be without its entry,
      and only a client that hung up can miss an error frame. */
  lemma RefusalsAnswered(route: Route, s: State, c: nat)
    requires Reachable(route, s) && c < |s.conns|
    ensures Refusals(s.log, c) == Rejections(s.log, c) + PendingRejection(s.conns[c].mode)
    ensures ErrorsShown(s.conns[c]) <= Rejections(s.log, c)
    ensures s.conns[c].mode.Idle? ==> ErrorsShown(s.conns[c]) == Refusals(s.log, c)
  {
    hide Reachable;
    ReachableInv(route, s);
    assert RefusalsOk(s.log, s.conns[c], c);
    assert ErrorsShown(s.conns[c]) + [] == ErrorsShown(s.conns[c]);
  }

  // ----- frames and audit entries -----------------------------------------------------------

  /** The frames shown for a request always begin a sentence of the wire grammar, and are a whole
      sentence once the request has finished.  With an answered gate the sentence resolves the
      approval with that answer. */
  lemma WireGrammar(policy: Policy, s: State, i: nat) returns (sentence: seq<Frame>)
    requires Reachable(RouteFor(policy), s) && i < |s.tasks|
    ensures Sentence(s.tasks[i].plan.style, sentence) && FramesFor(s.log, i) <= sentence
    ensures Finished(s.tasks[i]) ==> FramesFor(s.log, i) == sentence
  {
    hide Reachable;
    ReachableInv(RouteFor(policy), s);
    var t := s.tasks[i];
    RefusalsAreActing(policy, t.flow);
    sentence := WireOf(FinalScript(t));
    SpokenSoFar(s, i);
    ScriptSpeaks(t.plan, FinalOutcome(t), FinalResult(t));
  }

  /** Frames and entries so far, against the script the request will have run at its end. */
  lemma SpokenSoFar(s: State, i: nat)
    requires InvShape(s) && TraceInvariant.InvTrace(s) && i < |s.tasks|
    ensures FramesFor(s.log, i) <= WireOf(FinalScript(s.tasks[i]))
    ensures TrailFor(s.log, i) <= AuditOps(FinalScript(s.tasks[i]))
    ensures Finished(s.tasks[i]) ==> FramesFor(s.log, i) == WireOf(FinalScript(s.tasks[i]))
    ensures Finished(s.tasks[i]) ==> TrailFor(s.log, i) == AuditOps(FinalScript(s.tasks[i]))
  {
    hide FullScript, Script;
    var t := s.tasks[i];
    LogFollowsScript(s, i);
    ScriptExtends(t, |s.conns|);
    PrefixObservations(Program(t)[..t.pc], FinalScript(t));
  }

  /** At most one frame of a request is terminal, and nothing follows it. */
  lemma OneTerminalFrame(policy: Policy, s: State, i: nat, k: nat)
    requires Reachable(RouteFor(policy), s) && i < |s.tasks|
    requires k < |FramesFor(s.log, i)| && Terminal(FramesFor(s.log, i)[k])
    ensures k == |FramesFor(s.log, i)| - 1
  {
    hide Reachable;
    var sentence := WireGrammar(policy, s, i);
    TerminalIsLast(s.tasks[i].plan.style, sentence, k);
  }

  /** No approval is shown resolved twice. */
  lemma ResolvedAtMostOnce(policy: Policy, s: State, i: nat, j: nat, k: nat)
    requires Reachable(RouteFor(policy), s) && i < |s.tasks|
    requires ResolvedAt(FramesFor(s.log, i), j) && ResolvedAt(FramesFor(s.log, i), k)
    ensures j == k
  {
    hide Reachable;
    var sentence := WireGrammar(policy, s, i);
    ResolvedPlace(s.tasks[i].plan.style, sentence, j);
    ResolvedPlace(s.tasks[i].plan.style, sentence, k);
  }

  /** Every approval of a finished request is shown resolved, with the outcome of its wait. */
  lemma ResolvedWhenFinished(route: Route, s: State, i: nat) returns (k: nat)
    requires Reachable(route, s) && i < |s.tasks| && Finished(s.tasks[i]) && s.tasks[i].approval.Some?
    ensures s.tasks[i].answer.Some?
    ensures k < |FramesFor(s.log, i)| && FramesFor(s.log, i)[k] == Resolved(s.tasks[i].answer.value)
  {
    hide Reachable, Script, FullScript, FullFrames, WireOf, Finished;
    ReachableInv(route, s);
    var t := s.tasks[i];
    SpokenSoFar(s, i);
    AnsweredAtEnd(t, |s.conns|);
    k := ResolvedFrame(t.plan, t.answer.value, FinalResult(t));
  }

  /** Who finishes behind the gate has got an answer. */
  lemma AnsweredAtEnd(t: Task, conns: nat)
    requires TaskShape(t, conns) && Finished(t) && t.approval.Some?
    ensures t.plan.gate == Gated && t.answer.Some?
    ensures t.plan.style == Demo ==> FinalResult(t)
  {
    hide Script;
    FinishedShape(t, conns);
  }

  /** The resolution is the first frame behind the head of a gated script. */
  lemma ResolvedFrame(p: Plan, o: Outcome, ok: bool) returns (k: nat)
    requires p.Valid() && p.gate == Gated && (p.style == Demo ==> ok)
    ensures k < |WireOf(FullScript(p, o, ok))| && WireOf(FullScript(p, o, ok))[k] == Resolved(o)
  {
    hide FullScript, WireOf, HeadFrames, RunFrames;
    FullWire(p, o, ok);
    k := |HeadFrames(p)|;
  }

  /** Once a request has finished, its audit trail is IpcCommandReceived followed by the mirror of
      its frames. */
  lemma AuditMirror(policy: Policy, s: State, i: nat)
    requires Reachable(RouteFor(policy), s) && i < |s.tasks| && Finished(s.tasks[i])
    requires !s.tasks[i].flow.ApprovalDemo?
    ensures TrailFor(s.log, i) == AuditOf(s.tasks[i].plan, FinalOutcome(s.tasks[i]), FramesFor(s.log, i))
  {
    hide Reachable, FullScript, Script, Finished, AuditOf;
    ReachableInv(RouteFor(policy), s);
    var t := s.tasks[i];
    RefusalsAreActing(policy, t.flow);
    assert t.plan == PlanOf(t.flow, policy);
    SpokenSoFar(s, i);
    AuditMirrorsWire(t.plan, FinalOutcome(t), FinalResult(t));
  }

  /** Everything shown or noted for one request carries one correlation id, which nothing of any
      other request carries. */
  lemma OneCorrelation(policy: Policy, s: State, j: nat, k: nat)
    requires Reachable(RouteFor(policy), s) && j < |s.log| && k < |s.log|
    requires (s.log[j].Shown? || s.log[j].Noted?) && (s.log[k].Shown? || s.log[k].Noted?)
    ensures s.log[j].correlation == s.log[k].correlation <==> s.log[j].owner == s.log[k].owner
  {
    hide GuardCapability, Reachable;
    ReachableInv(RouteFor(policy), s);
    assert Carries(s.tasks, s.log[j]) && Carries(s.tasks, s.log[k]);
    var t, u := s.tasks[s.log[j].owner], s.tasks[s.log[k].owner];
    assert t.plan == PlanOf(t.flow, policy) && u.plan == PlanOf(u.flow, policy);
    RefusalsAreActing(policy, t.flow);
    RefusalsAreActing(policy, u.flow);
    if s.log[j].correlation == s.log[k].correlation {
      CorrelationsDiffer(s, s.log[j].owner, s.log[k].owner);
    }
  }

  /** The capability id of each kind of request, spelled out. */
  predicate CapabilityFits(flow: Flow, id: Option<string>) {
    match flow
    case Interaction(OpenApplication, _) => id == Some("interaction.open_application")
    case Interaction(FocusWindow, _) => id == Some("interaction.focus_window")
    case Interaction(TypeText, _) => id == Some("interaction.type_text")
    case Interaction(SendShortcut, _) => id == Some("interaction.send_shortcut")
    case Interaction(_, _) => id == None
    case DemoPlan(raw, _) =>
      id == Some(if Text.Normalize(raw) == "demo_echo" then "assistant.demo.echo"
                 else if Text.Normalize(raw) == "demo_wait" then "assistant.demo.wait"
                 else "assistant.plan_demo_action")
    case ApprovalDemo => id == Some("assistant.plan_demo_action")
  }

  lemma CapabilityOfFits(flow: Flow)
    ensures CapabilityFits(flow, CapabilityOf(flow))
  {
    hide CapabilityForInteraction, CapabilityForPlan, SanitizeKind, Text.Normalize;
    CapabilitiesSpelled(if flow.DemoPlan? then flow.demoKind else "");
  }

  /** Every entry of a request carries the capability id of its kind, from the first to the last. */
  lemma OneCapability(route: Route, s: State, k: nat)
    requires Reachable(route, s) && k < |s.log| && s.log[k].Noted?
    ensures s.log[k].owner < |s.tasks| && CapabilityFits(s.tasks[s.log[k].owner].flow, s.log[k].capability)
  {
    hide Reachable, CapabilityOf, CapabilityFits;
    ReachableInv(route, s);
    assert Carries(s.tasks, s.log[k]);
    CapabilityOfFits(s.tasks[s.log[k].owner].flow);
  }

  // ----- the requesting client --------------------------------------------------------------

  /** What the requesting client has received of request `i`, in order of arrival, is first frames
      of the response and then broadcast frames.  No broadcast frame of the request arrives before
      the whole response has; the response begins with `planned` and, behind a gate, contains
      `approval_requested`. */
  lemma ClientOrder(policy: Policy, s: State, i: nat)
    requires Reachable(RouteFor(policy), s) && i < |s.tasks|
    ensures s.tasks[i].conn < |s.conns|
    ensures var t := s.tasks[i]; var sink := s.conns[t.conn].sink;
      && Seen(sink, i) == Straights(sink, i) + Forwards(sink, i)
      && Straights(sink, i) <= Promised(t)
      && (Forwards(sink, i) != [] ==> BusyInvariant.HandedOff(t) && Straights(sink, i) == Promised(t))
      && (BusyInvariant.HandedOff(t) && (t.plan.gate == Direct ==> t.plan.style == Demo) ==>
            ResponseInvariant.FramesIn(Promised(t)) == HeadFrames(t.plan))
  {
    hide Reachable;
    ReachableInv(RouteFor(policy), s);
    var t := s.tasks[i];
    assert TaskOrdered(s, i);
    assert ResponseInvariant.OutOk(t);
    if BusyInvariant.HandedOff(t) && (t.plan.gate == Direct ==> t.plan.style == Demo) {
      HandedResponse(t, |s.conns|);
    }
  }

  /** Every connection receives broadcast frames in the order they were emitted, each at most once,
      whatever it missed by lagging. */
  lemma BroadcastSubsequence(route: Route, s: State, c: nat)
    requires Reachable(route, s) && c < |s.conns|
    ensures var sink := s.conns[c].sink;
      && (forall a :: 0 <= a < |sink| && sink[a].Forwarded? ==>
            sink[a].position < |s.casts| && sink[a].event == s.casts[sink[a].position])
      && (forall a, b :: 0 <= a < b < |sink| && sink[a].Forwarded? && sink[b].Forwarded? ==>
            sink[a].position < sink[b].position)
  {
    hide Reachable;
    ReachableInv(route, s);
    assert InOrder(s.conns[c], s.casts);
  }

  // ----- termination ------------------------------------------------------------------------

  lemma {:induction false} BoundedFrom(route: Route, s: State, steps: seq<Step>)
    requires Inv(route, s) && AllExpired(s) && CanRun(route, s, steps)
    requires forall k :: 0 <= k < |steps| ==> Internal(steps[k])
    ensures |steps| <= Measure(s)
    decreases |steps|
  {
    hide Apply, Enabled, Measure, AllExpired;
    if steps != [] {
      var s' := Apply(route, s, steps[0]);
      EveryStepFalls(route, s, steps[0]);
      StepInv(route, s, steps[0]);
      BoundedFrom(route, s', steps[1..]);
    }
  }

  /** With all deadlines passed and no new client message, no run is longer than the measure. */
  lemma RunsAreBounded(route: Route, s: State, steps: seq<Step>)
    requires Reachable(route, s) && AllExpired(s) && CanRun(route, s, steps)
    requires forall k :: 0 <= k < |steps| ==> Internal(steps[k])
    ensures |steps| <= Measure(s)
  {
    hide Measure, AllExpired, Reachable;
    ReachableInv(route, s);
    BoundedFrom(route, s, steps);
  }

  lemma DrainsFrom(route: Route, s: State) returns (steps: seq<Step>)
    requires Inv(route, s) && AllExpired(s) && EnoughNumbers(s)
    ensures CanRun(route, s, steps) && (forall k :: 0 <= k < |steps| ==> Internal(steps[k]))
    ensures Done(After(route, s, steps))
    decreases Measure(s)
  {
    hide Apply, Enabled, Measure, AllExpired, Done;
    if Quiescent(s) {
      NumbersLeft(s);
      QuiescentDone(s);
      steps := [];
    } else {
      var step :| Internal(step) && Enabled(s, step);
      var s' := Apply(route, s, step);
      EveryStepFalls(route, s, step);
      StepInv(route, s, step);
      NumbersSuffice(route, s, step);
      var rest := DrainsFrom(route, s');
      steps := [step] + rest;
      assert steps[1..] == rest;
    }
  }

  /** Every reachable state whose deadlines have passed runs to completion without any client:
      all requests finish, the registry ends up empty, all connections have written everything.
      Since runs are bounded, every schedule that keeps going gets there. */
  lemma RunsToCompletion(route: Route, s: State) returns (steps: seq<Step>)
    requires Reachable(route, s) && AllExpired(s) && EnoughNumbers(s)
    ensures CanRun(route, s, steps) && (forall k :: 0 <= k < |steps| ==> Internal(steps[k]))
    ensures Done(After(route, s, steps))
  {
    hide AllExpired, Done, Reachable;
    ReachableInv(route, s);
    steps := DrainsFrom(route, s);
  }

  /** A run that cannot go on has nothing left to do. */
  lemma StuckIsDone(route: Route, s: State)
    requires Reachable(route, s) && CounterLeft(s) && Quiescent(s)
    ensures Done(s)
  {
    hide Done, Quiescent, Reachable;
    ReachableInv(route, s);
    QuiescentDone(s);
  }

  /** Correlation numbers that unstamped requests may still draw. */
  function Unstamped(): Task -> nat { (t: Task) => if t.stamp.None? then 1 else 0 }

  /** The 64-bit counter suffices for all requests there are. */
  predicate EnoughNumbers(s: State) {
    s.correlations + Sequences.Sum(Unstamped(), s.tasks) + 1 < COUNTER_LIMIT
  }

  lemma NumbersLeft(s: State)
    requires EnoughNumbers(s)
    ensures CounterLeft(s)
  {
  }

  lemma NumbersSuffice(route: Route, s: State, step: Step)
    requires InvShape(s) && EnoughNumbers(s) && Internal(step) && Enabled(s, step)
    ensures EnoughNumbers(Apply(route, s, step))
  {
    var s' := Apply(route, s, step);
    if ConnStep(step) {
      ConnStepTasks(route, s, step);
    } else {
      Sequences.SumUpdate(Unstamped(), s.tasks, step.task, s'.tasks[step.task]);
      if step.Run? { RunFits(s, step.task, step.millis); }
    }
  }
}
