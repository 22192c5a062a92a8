/** First layer: every task's fields agree with its position in its script. */
module TaskInvariant {
  import opened Common
  import opened Lifecycle
  import opened LifecycleShape
  import opened Protocol

  /** An answer of the wait is a client decision or the timeout's own. */
  predicate Fitting(o: Outcome) {
    o.source == Timeout <==> o.decision == TimedOut
  }

  predicate TaskShape(t: Task, conns: nat) {
    && t.plan.Valid()
    && t.conn < conns
    && t.pc <= ScriptSize(t.plan, t.answer, t.ran)
    && |t.out| <= t.pc
    && (t.answer.Some? ==> t.plan.gate == Gated && t.pc > WaitAt(t.plan.style) && Fitting(t.answer.value))
    && (t.plan.gate == Gated && t.answer.None? ==> t.pc <= WaitAt(t.plan.style))
    && (t.ran.Some? ==> WillRun(t.plan, t.answer) && t.pc > RunAt(t.plan, t.answer) && (t.plan.style == Demo ==> t.ran.value))
    && (t.ran.None? && WillRun(t.plan, t.answer) ==> t.pc <= RunAt(t.plan, t.answer))
    && (t.polled ==> t.plan.gate == Gated && t.answer.None? && t.pc == WaitAt(t.plan.style))
    && (t.stamp.Some? <==> t.pc > CorrelationAt(t.plan.style) && !(t.plan.style == Asking && t.plan.gate == Refused))
    && (t.approval.Some? <==> t.plan.gate == Gated && t.pc > DrawAt(t.plan.style))
  }

  predicate InvShape(s: State) {
    forall i :: 0 <= i < |s.tasks| ==> TaskShape(s.tasks[i], |s.conns|)
  }

  predicate InvPlan(route: Route, s: State) {
    forall i :: 0 <= i < |s.tasks| ==> s.tasks[i].plan == route(s.tasks[i].flow)
  }

  lemma FinishedShape(t: Task, conns: nat)
    requires TaskShape(t, conns)
    ensures |Program(t)| == ScriptSize(t.plan, t.answer, t.ran)
    ensures Finished(t) <==> t.pc == ScriptSize(t.plan, t.answer, t.ran)
  {
    PartSizes(t.plan, t.answer, t.ran);
  }

  // Where a task stands, without mentioning its program.  These three predicates are all that the
  // invariant proofs use of a script.

  /** `op` is what a task at this position may execute by itself. */
  predicate Fits(t: Task, op: Op) {
    && t.pc < ScriptSize(t.plan, t.answer, t.ran)
    && !IsRunOp(op) && !op.Await? && !op.Awaited?
    && (t.ran.None? && WillRun(t.plan, t.answer) ==> t.pc != RunAt(t.plan, t.answer))
    && (t.plan.gate == Gated && t.answer.None? ==> t.pc != WaitAt(t.plan.style))
    && (op.DrawApproval? <==> t.plan.gate == Gated && t.pc == DrawAt(t.plan.style))
    && (op.Register? <==> t.plan.gate == Gated && t.pc == RegisterAt(t.plan.style))
    && (op.DrawCorrelation? <==>
          t.pc == CorrelationAt(t.plan.style) && !(t.plan.style == Asking && t.plan.gate == Refused))
    && (op.Take? <==>
          t.plan.gate == Gated && t.answer.Some? && t.answer.value.source == Timeout && t.pc == WaitAt(t.plan.style) + 1)
    && (op.Handoff? <==> t.pc == HandoffAt(t.plan, t.answer, t.ran))
    && (op.Push? ==> t.pc < HandoffAt(t.plan, t.answer, t.ran))
    && (op.Cast? ==> t.pc > HandoffAt(t.plan, t.answer, t.ran))
  }

  /** This task stands at the timed wait. */
  predicate Waits(t: Task) {
    t.plan.gate == Gated && t.answer.None? && t.ran.None? && t.pc == WaitAt(t.plan.style)
  }

  /** This task stands at the backend call. */
  predicate Ready(t: Task) {
    WillRun(t.plan, t.answer) && t.ran.None? && t.pc == RunAt(t.plan, t.answer)
  }

  lemma RunFits(s: State, i: nat, millis: nat)
    requires InvShape(s) && Enabled(s, Run(i, millis))
    ensures Fits(s.tasks[i], NextOp(s.tasks[i]))
  {
    var t := s.tasks[i];
    FinishedShape(t, |s.conns|);
    OpShape(t.plan, t.answer, t.ran, t.pc);
  }

  lemma WaitFits(s: State, i: nat)
    requires InvShape(s) && AtWait(s, i)
    ensures Waits(s.tasks[i])
  {
    var t := s.tasks[i];
    FinishedShape(t, |s.conns|);
    OpShape(t.plan, t.answer, t.ran, t.pc);
  }

  lemma ActFits(s: State, i: nat, ok: bool)
    requires InvShape(s) && Enabled(s, Act(i, ok))
    ensures Ready(s.tasks[i]) && (s.tasks[i].plan.style == Demo ==> ok)
  {
    var t := s.tasks[i];
    FinishedShape(t, |s.conns|);
    OpShape(t.plan, t.answer, t.ran, t.pc);
  }

  lemma PerformShape(s: State, t: Task, i: nat, op: Op, millis: nat, conns: nat)
    requires TaskShape(t, conns) && Fits(t, op)
    ensures TaskShape(TaskAfter(s, t, i, op, millis), conns)
  {
  }

  lemma AnswerShape(t: Task, o: Outcome, conns: nat)
    requires TaskShape(t, conns) && Waits(t) && Fitting(o)
    ensures TaskShape(t.(pc := t.pc + 1, answer := Some(o), polled := false), conns)
  {
  }

  lemma CallShape(t: Task, ok: bool, conns: nat)
    requires TaskShape(t, conns) && Ready(t) && (t.plan.style == Demo ==> ok)
    ensures TaskShape(t.(pc := t.pc + 1, ran := Some(ok)), conns)
  {
  }

  /** Client decisions reach a channel only through `resolve`, which never carries TimedOut. */
  predicate InvSent(s: State) {
    && (forall n :: 0 <= n < |s.chans| && s.chans[n].tx.Sent? ==> s.chans[n].tx.decision != TimedOut)
    && (forall c :: 0 <= c < |s.conns| && s.conns[c].mode.Holding? ==> s.conns[c].mode.decision != TimedOut)
  }

  lemma ChansAfterSent(s: State, t: Task, i: nat, op: Op, n: nat)
    requires n < |ChansAfter(s, t, i, op)| && ChansAfter(s, t, i, op)[n].tx.Sent?
    ensures n < |s.chans| && ChansAfter(s, t, i, op)[n].tx == s.chans[n].tx
  {
  }

  lemma PerformSent(s: State, i: nat, op: Op, millis: nat)
    requires InvSent(s) && i < |s.tasks|
    ensures InvSent(Perform(s, i, op, millis))
  {
    var t, s' := s.tasks[i], Perform(s, i, op, millis);
    forall n | 0 <= n < |s'.chans| && s'.chans[n].tx.Sent? ensures s'.chans[n].tx.decision != TimedOut {
      ChansAfterSent(s, t, i, op, n);
    }
    assert forall c :: 0 <= c < |s.conns| && s'.conns[c].mode.Holding? ==> s'.conns[c] == s.conns[c];
  }

  lemma SentPreserved(route: Route, s: State, step: Step)
    requires InvSent(s) && Enabled(s, step)
    ensures InvSent(Apply(route, s, step))
  {
    hide Perform, NextOp, Finished;
    match step
    case Run(i, millis) => PerformSent(s, i, NextOp(s.tasks[i]), millis);
    case _ =>
  }

  lemma OneTaskShape(s: State, s': State, i: nat)
    requires InvShape(s) && i < |s.tasks| && |s'.conns| == |s.conns|
    requires |s'.tasks| == |s.tasks| && forall j :: 0 <= j < |s.tasks| && j != i ==> s'.tasks[j] == s.tasks[j]
    requires TaskShape(s'.tasks[i], |s.conns|)
    ensures InvShape(s')
  {
  }

  lemma AdmitShape(s: State, c: nat, flow: Flow, plan: Plan)
    requires InvShape(s) && c < |s.conns| && plan.Valid()
    ensures InvShape(Admit(s, c, flow, plan))
  {
    var s' := Admit(s, c, flow, plan);
    assert forall i :: 0 <= i < |s.tasks| ==> s'.tasks[i] == s.tasks[i];
  }

  /** Steps of connections alone. */
  predicate ConnStep(step: Step) {
    || step.Connect? || step.ResolveTake? || step.ResolveSend? || step.NoteRejection?
    || step.Flush? || step.Forward? || step.Hangup?
  }

  /** Steps that only touch a task's timer bookkeeping. */
  predicate TimerStep(step: Step) {
    step.PollEmpty? || step.TimerPending? || step.Expire?
  }

  /** Steps that end a timed wait. */
  predicate EndStep(step: Step) {
    step.PollReady? || step.PollSenderLost? || step.TimerFired?
  }

  lemma ConnStepTasks(route: Route, s: State, step: Step)
    requires Enabled(s, step) && ConnStep(step)
    ensures Apply(route, s, step).tasks == s.tasks && Apply(route, s, step).casts == s.casts
    ensures |Apply(route, s, step).conns| == |s.conns| + (if step.Connect? then 1 else 0)
    ensures |Apply(route, s, step).chans| == |s.chans|
  {
  }

  lemma PerformedShape(s: State, i: nat, op: Op, millis: nat)
    requires InvShape(s) && i < |s.tasks| && Fits(s.tasks[i], op)
    ensures InvShape(Perform(s, i, op, millis))
  {
    PerformShape(s, s.tasks[i], i, op, millis, |s.conns|);
    OneTaskShape(s, Perform(s, i, op, millis), i);
  }

  lemma AnsweredShape(s: State, i: nat, o: Outcome, rx: Rx)
    requires InvShape(s) && Listens(s, i) && Waits(s.tasks[i]) && Fitting(o)
    ensures InvShape(Answer(s, i, o, rx))
  {
    AnswerShape(s.tasks[i], o, |s.conns|);
    OneTaskShape(s, Answer(s, i, o, rx), i);
  }

  lemma CalledShape(s: State, i: nat, ok: bool)
    requires InvShape(s) && i < |s.tasks| && Ready(s.tasks[i]) && (s.tasks[i].plan.style == Demo ==> ok)
    ensures InvShape(Call(s, i, ok))
  {
    CallShape(s.tasks[i], ok, |s.conns|);
    OneTaskShape(s, Call(s, i, ok), i);
  }

  lemma PolledShape(s: State, i: nat, polled: bool, expired: bool)
    requires InvShape(s) && i < |s.tasks| && (polled ==> Waits(s.tasks[i]))
    ensures InvShape(s.(tasks := s.tasks[i := s.tasks[i].(polled := polled, expired := expired)]))
  {
    OneTaskShape(s, s.(tasks := s.tasks[i := s.tasks[i].(polled := polled, expired := expired)]), i);
  }

  /** The steps by which the timed wait ends, with the outcome each of them brings. */
  predicate Ends(s: State, step: Step, i: nat, o: Outcome, rx: Rx) {
    match step
    case PollReady(j) => Listens(s, i) && j == i && rx == Received
      && s.chans[s.tasks[i].approval.value].tx.Sent? && o == Outcome(s.chans[s.tasks[i].approval.value].tx.decision, User)
    case PollSenderLost(j) => Listens(s, i) && j == i && rx == Received && o == Outcome(Cancelled, System)
      && var tx := s.chans[s.tasks[i].approval.value].tx; !tx.Alive? && !tx.Sent?
    case TimerFired(j) => Listens(s, i) && j == i && rx == Gone && o == Outcome(TimedOut, Timeout)
    case _ => false
  }

  /** The outcome and receiver a step that ends the wait leaves behind. */
  lemma EndsWait(route: Route, s: State, step: Step) returns (i: nat, o: Outcome, rx: Rx)
    requires InvShape(s) && InvSent(s) && Enabled(s, step)
    requires EndStep(step)
    ensures Ends(s, step, i, o, rx) && Waits(s.tasks[i]) && Fitting(o)
    ensures Apply(route, s, step) == Answer(s, i, o, rx)
  {
    i := step.task;
    WaitFits(s, i);
    match step
    case PollReady(_) => o, rx := Outcome(s.chans[s.tasks[i].approval.value].tx.decision, User), Received;
    case PollSenderLost(_) => o, rx := Outcome(Cancelled, System), Received;
    case TimerFired(_) => o, rx := Outcome(TimedOut, Timeout), Gone;
  }

  lemma ConnStepShape(route: Route, s: State, step: Step)
    requires InvShape(s) && Enabled(s, step) && ConnStep(step)
    ensures InvShape(Apply(route, s, step))
  {
    hide Apply, Enabled;
    ConnStepTasks(route, s, step);
  }

  lemma TimerShape(route: Route, s: State, step: Step)
    requires InvShape(s) && Enabled(s, step) && TimerStep(step)
    ensures InvShape(Apply(route, s, step))
  {
    hide TaskShape, Script;
    match step
    case PollEmpty(i) =>
      WaitFits(s, i);
      PolledShape(s, i, true, s.tasks[i].expired);
    case TimerPending(i) => PolledShape(s, i, false, s.tasks[i].expired);
    case Expire(i) =>
      if s.tasks[i].polled { StillWaits(s, i); }
      PolledShape(s, i, s.tasks[i].polled, true);
  }

  lemma StillWaits(s: State, i: nat)
    requires InvShape(s) && i < |s.tasks| && s.tasks[i].polled
    ensures Waits(s.tasks[i])
  {
    assert TaskShape(s.tasks[i], |s.conns|);
  }

  lemma EndShape(route: Route, s: State, step: Step)
    requires InvShape(s) && InvSent(s) && Enabled(s, step) && EndStep(step)
    ensures InvShape(Apply(route, s, step))
  {
    hide InvShape, InvSent, Script;
    var i, o, rx := EndsWait(route, s, step);
    AnsweredShape(s, i, o, rx);
  }

  lemma ShapePreserved(route: Route, s: State, step: Step)
    requires InvShape(s) && InvSent(s) && Enabled(s, step)
    ensures InvShape(Apply(route, s, step))
  {
    hide InvShape, InvSent, Fits, Script;
    match step {
      case Begin(c, flow) => AdmitShape(s, c, flow, route(flow));
      case Run(i, millis) =>
        RunFits(s, i, millis);
        PerformedShape(s, i, NextOp(s.tasks[i]), millis);
      case Act(i, ok) =>
        ActFits(s, i, ok);
        CalledShape(s, i, ok);
      case _ =>
        if ConnStep(step) {
          ConnStepShape(route, s, step);
        } else if TimerStep(step) {
          TimerShape(route, s, step);
        } else {
          EndShape(route, s, step);
        }
    }
  }

  lemma PlanPreserved(route: Route, s: State, step: Step)
    requires InvPlan(route, s) && Enabled(s, step)
    ensures InvPlan(route, Apply(route, s, step))
  {
  }
}
