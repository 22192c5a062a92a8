/** Seventh layer: a backend call is logged at most once per request, and only when the request's
    plan lets it run.  Behind a confirmation gate this means after `resolve` of the request's own
    approval id with Approved returned Ok, and with no other decision accepted under that id. */
module GateInvariant {
  import opened Common
  import opened Lifecycle
  import opened Protocol
  import opened TaskInvariant
  import opened ChannelInvariant
  import opened ReplyInvariant

  /** What was true of request `i` when the backend was called with `past` behind it. */
  predicate MayAct(t: Task, past: seq<Event>) {
    && t.ran.Some?
    && WillRun(t.plan, t.answer)
    && (t.plan.gate == Gated ==>
          t.approval.Some? && Accepted(past, IdOf(t.approval.value)) == [Approved])
  }

  predicate GateAt(s: State, k: nat)
    requires k < |s.log|
  {
    s.log[k].Acted? ==>
      var i := s.log[k].owner;
      i < |s.tasks| && MayAct(s.tasks[i], s.log[..k])
  }

  predicate SameAct(log: seq<Event>, j: nat, k: nat) {
    j < |log| && k < |log| && log[j].Acted? && log[j] == log[k]
  }

  predicate InvGate(s: State) {
    && (forall k :: 0 <= k < |s.log| ==> GateAt(s, k))
    && (forall j, k :: 0 <= j < |s.log| && 0 <= k < |s.log| && SameAct(s.log, j, k) ==> j == k)
  }

  /** What a task's backend call depends on never changes once it has happened. */
  predicate Settled(t: Task, t': Task) {
    t.ran.Some? ==> t'.ran.Some? && t'.plan == t.plan && t'.answer == t.answer && t'.approval == t.approval
  }

  /** A step that logs no backend call. */
  lemma QuietGate(s: State, s': State)
    requires InvGate(s) && |s.tasks| <= |s'.tasks|
    requires forall i :: 0 <= i < |s.tasks| ==> Settled(s.tasks[i], s'.tasks[i])
    requires s'.log == s.log || (|s'.log| == |s.log| + 1 && s'.log[..|s.log|] == s.log && !s'.log[|s.log|].Acted?)
    ensures InvGate(s')
  {
    forall k | 0 <= k < |s'.log| ensures GateAt(s', k) {
      if k < |s.log| {
        assert s'.log[k] == s.log[k] && s'.log[..k] == s.log[..k];
        assert GateAt(s, k);
        if s.log[k].Acted? { assert Settled(s.tasks[s.log[k].owner], s'.tasks[s.log[k].owner]); }
      }
    }
    forall j, k | 0 <= j < |s'.log| && 0 <= k < |s'.log| && SameAct(s'.log, j, k) ensures j == k {
      assert j < |s.log| && k < |s.log|;
      assert s'.log[j] == s.log[j] && s'.log[k] == s.log[k];
      assert SameAct(s.log, j, k);
    }
  }

  lemma PerformGate(s: State, i: nat, op: Op, millis: nat)
    requires InvShape(s) && InvGate(s) && i < |s.tasks| && Fits(s.tasks[i], op)
    ensures InvGate(Perform(s, i, op, millis))
  {
    var t := s.tasks[i];
    assert Settled(t, TaskAfter(s, t, i, op, millis));
    QuietGate(s, Perform(s, i, op, millis));
  }

  lemma AnswerGate(s: State, i: nat, o: Outcome, rx: Rx)
    requires InvGate(s) && Listens(s, i) && Waits(s.tasks[i])
    ensures InvGate(Answer(s, i, o, rx))
  {
    QuietGate(s, Answer(s, i, o, rx));
  }

  /** At the backend call of a gated request its own approval has been accepted. */
  lemma ApprovedBeforeCall(s: State, i: nat, ok: bool)
    requires InvShape(s) && InvTokens(s) && InvAccepted(s) && i < |s.tasks| && Ready(s.tasks[i])
    ensures MayAct(s.tasks[i].(ran := Some(ok)), s.log)
  {
    var t := s.tasks[i];
    if t.plan.gate == Gated {
      assert Owns(s, i, t.approval.value);
      assert ChanShape(t, s.chans[t.approval.value]);
    }
  }

  /** The log grows by a backend call of task `i`, its first. */
  lemma CallGate(s: State, i: nat, ok: bool)
    requires InvGate(s) && i < |s.tasks| && s.tasks[i].ran.None?
    requires MayAct(s.tasks[i].(ran := Some(ok)), s.log)
    ensures InvGate(Call(s, i, ok))
  {
    var s' := Call(s, i, ok);
    assert s'.log[..|s.log|] == s.log;
    forall k | 0 <= k < |s'.log| ensures GateAt(s', k) {
      if k < |s.log| {
        assert s'.log[k] == s.log[k] && s'.log[..k] == s.log[..k];
        assert GateAt(s, k);
      }
    }
    forall j, k | 0 <= j < |s'.log| && 0 <= k < |s'.log| && SameAct(s'.log, j, k) ensures j == k {
      if j < |s.log| { assert GateAt(s, j); }
      if k < |s.log| { assert GateAt(s, k); }
      if j < |s.log| && k < |s.log| { assert SameAct(s.log, j, k); }
    }
  }

  lemma AdmitGate(s: State, c: nat, flow: Flow, plan: Plan)
    requires InvGate(s) && c < |s.conns|
    ensures InvGate(Admit(s, c, flow, plan))
  {
    QuietGate(s, Admit(s, c, flow, plan));
  }

  lemma ConnStepGate(route: Route, s: State, step: Step)
    requires InvGate(s) && Enabled(s, step) && ConnStep(step)
    ensures InvGate(Apply(route, s, step))
  {
    ConnStepTasks(route, s, step);
    QuietGate(s, Apply(route, s, step));
  }

  lemma TimerGate(route: Route, s: State, step: Step)
    requires InvGate(s) && Enabled(s, step)
    requires TimerStep(step)
    ensures InvGate(Apply(route, s, step))
  {
    QuietGate(s, Apply(route, s, step));
  }

  lemma RunGate(s: State, i: nat, millis: nat)
    requires InvShape(s) && InvGate(s) && Enabled(s, Run(i, millis))
    ensures InvGate(Advance(s, i, millis))
  {
    RunFits(s, i, millis);
    PerformGate(s, i, NextOp(s.tasks[i]), millis);
  }

  lemma ActGate(s: State, i: nat, ok: bool)
    requires InvShape(s) && InvTokens(s) && InvAccepted(s) && InvGate(s) && Enabled(s, Act(i, ok))
    ensures InvGate(Call(s, i, ok))
  {
    ActFits(s, i, ok);
    ApprovedBeforeCall(s, i, ok);
    CallGate(s, i, ok);
  }

  lemma EndGate(route: Route, s: State, step: Step)
    requires InvShape(s) && InvSent(s) && InvGate(s) && Enabled(s, step) && EndStep(step)
    ensures InvGate(Apply(route, s, step))
  {
    var i, o, rx := EndsWait(route, s, step);
    AnswerGate(s, i, o, rx);
  }

  lemma GatePreserved(route: Route, s: State, step: Step)
    requires InvShape(s) && InvSent(s) && InvTokens(s) && InvAccepted(s) && InvGate(s) && Enabled(s, step)
    ensures InvGate(Apply(route, s, step))
  {
    if ConnStep(step) {
      ConnStepGate(route, s, step);
    } else if TimerStep(step) {
      TimerGate(route, s, step);
    } else if EndStep(step) {
      EndGate(route, s, step);
    } else {
      match step
      case Begin(c, flow) => AdmitGate(s, c, flow, route(flow));
      case Run(i, millis) => RunGate(s, i, millis);
      case Act(i, ok) => ActGate(s, i, ok);
    }
  }
}
