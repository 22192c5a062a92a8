/** Second layer: a connection serves one request at a time.  While a request has not been
    handed off, its connection dispatches it and does nothing else. */
module BusyInvariant {
  import opened Common
  import opened Lifecycle
  import LifecycleShape
  import opened Protocol
  import opened TaskInvariant

  predicate HandedOff(t: Task) {
    t.pc > LifecycleShape.HandoffAt(t.plan, t.answer, t.ran)
  }

  predicate InvBusy(s: State) {
    && (forall i :: 0 <= i < |s.tasks| ==>
          var t := s.tasks[i];
          t.conn < |s.conns| && (!HandedOff(t) ==> s.conns[t.conn].mode == Dispatching(i)))
    && (forall c :: 0 <= c < |s.conns| && s.conns[c].mode.Dispatching? ==>
          var i := s.conns[c].mode.task;
          i < |s.tasks| && s.tasks[i].conn == c && !HandedOff(s.tasks[i]))
  }

  /** Only the hand-off itself changes whether a task has been handed off. */
  lemma PerformHandoff(s: State, t: Task, i: nat, op: Op, millis: nat)
    requires Fits(t, op)
    ensures HandedOff(TaskAfter(s, t, i, op, millis)) == (op.Handoff? || HandedOff(t))
    ensures op.Handoff? || op.Push? ==> !HandedOff(t)
    ensures op.Cast? ==> HandedOff(t)
  {
  }

  lemma PerformBusy(s: State, i: nat, op: Op, millis: nat)
    requires InvBusy(s) && i < |s.tasks| && Fits(s.tasks[i], op)
    ensures InvBusy(Perform(s, i, op, millis))
  {
    PerformHandoff(s, s.tasks[i], i, op, millis);
    var s' := Perform(s, i, op, millis);
    assert forall j :: 0 <= j < |s.tasks| && j != i ==> s'.tasks[j] == s.tasks[j];
  }

  lemma AnswerHandoff(t: Task, o: Outcome)
    requires TaskShape(t, t.conn + 1) && Waits(t)
    ensures HandedOff(t) && HandedOff(t.(pc := t.pc + 1, answer := Some(o), polled := false))
  {
  }

  lemma AnswerBusy(s: State, i: nat, o: Outcome, rx: Rx)
    requires InvShape(s) && InvBusy(s) && Listens(s, i) && Waits(s.tasks[i])
    ensures InvBusy(Answer(s, i, o, rx))
  {
    AnswerHandoff(s.tasks[i], o);
    TimerOnlyBusy(s, Answer(s, i, o, rx), i);
  }

  lemma CallHandoff(t: Task, ok: bool)
    requires TaskShape(t, t.conn + 1) && Ready(t)
    ensures HandedOff(t.(pc := t.pc + 1, ran := Some(ok))) == HandedOff(t)
  {
  }

  lemma CallBusy(s: State, i: nat, ok: bool)
    requires InvShape(s) && InvBusy(s) && i < |s.tasks| && Ready(s.tasks[i])
    ensures InvBusy(Call(s, i, ok))
  {
    CallHandoff(s.tasks[i], ok);
    TimerOnlyBusy(s, Call(s, i, ok), i);
  }

  /** Steps of an undispatching connection. */
  lemma ConnOnlyBusy(s: State, s': State, c: nat)
    requires InvBusy(s) && c < |s.conns| == |s'.conns| && s'.tasks == s.tasks
    requires forall d :: 0 <= d < |s.conns| && d != c ==> s'.conns[d] == s.conns[d]
    requires !s.conns[c].mode.Dispatching? && !s'.conns[c].mode.Dispatching?
    ensures InvBusy(s')
  {
  }

  /** Steps that touch a task's timer bookkeeping only. */
  lemma TimerOnlyBusy(s: State, s': State, i: nat)
    requires InvBusy(s) && i < |s.tasks| == |s'.tasks| && s'.conns == s.conns
    requires forall j :: 0 <= j < |s.tasks| && j != i ==> s'.tasks[j] == s.tasks[j]
    requires s'.tasks[i].conn == s.tasks[i].conn && HandedOff(s'.tasks[i]) == HandedOff(s.tasks[i])
    ensures InvBusy(s')
  {
  }

  lemma AdmitBusy(s: State, c: nat, flow: Flow, plan: Plan)
    requires InvBusy(s) && c < |s.conns| && s.conns[c].mode.Idle? && plan.Valid()
    ensures InvBusy(Admit(s, c, flow, plan))
  {
    LifecycleShape.PartSizes(plan, None, None);
    var s' := Admit(s, c, flow, plan);
    assert !HandedOff(s'.tasks[|s.tasks|]);
    assert forall i :: 0 <= i < |s.tasks| ==> s'.tasks[i] == s.tasks[i];
  }

  lemma ConnStepBusy(route: Route, s: State, step: Step)
    requires InvBusy(s) && Enabled(s, step) && ConnStep(step)
    ensures InvBusy(Apply(route, s, step))
  {
    if !step.Connect? { ConnOnlyBusy(s, Apply(route, s, step), step.conn); }
  }

  lemma TimerBusy(route: Route, s: State, step: Step)
    requires InvBusy(s) && Enabled(s, step)
    requires TimerStep(step)
    ensures InvBusy(Apply(route, s, step))
  {
    TimerOnlyBusy(s, Apply(route, s, step), step.task);
  }

  lemma RunBusy(s: State, i: nat, millis: nat)
    requires InvShape(s) && InvBusy(s) && Enabled(s, Run(i, millis))
    ensures InvBusy(Advance(s, i, millis))
  {
    RunFits(s, i, millis);
    PerformBusy(s, i, NextOp(s.tasks[i]), millis);
  }

  lemma ActBusy(s: State, i: nat, ok: bool)
    requires InvShape(s) && InvBusy(s) && Enabled(s, Act(i, ok))
    ensures InvBusy(Call(s, i, ok))
  {
    ActFits(s, i, ok);
    CallBusy(s, i, ok);
  }

  lemma EndBusy(route: Route, s: State, step: Step)
    requires InvShape(s) && InvSent(s) && InvBusy(s) && Enabled(s, step) && EndStep(step)
    ensures InvBusy(Apply(route, s, step))
  {
    var i, o, rx := EndsWait(route, s, step);
    AnswerBusy(s, i, o, rx);
  }

  lemma BusyPreserved(route: Route, s: State, step: Step)
    requires InvShape(s) && InvSent(s) && InvBusy(s) && Enabled(s, step)
    ensures InvBusy(Apply(route, s, step))
  {
    if ConnStep(step) {
      ConnStepBusy(route, s, step);
    } else if TimerStep(step) {
      TimerBusy(route, s, step);
    } else if EndStep(step) {
      EndBusy(route, s, step);
    } else {
      match step
      case Begin(c, flow) => AdmitBusy(s, c, flow, route(flow));
      case Run(i, millis) => RunBusy(s, i, millis);
      case Act(i, ok) => ActBusy(s, i, ok);
    }
  }
}
