/** Ninth layer: the frames collected for the response are those the script has pushed. */
module ResponseInvariant {
  import opened Common
  import opened Sequences
  import opened Lifecycle
  import opened LifecycleShape
  import opened Protocol
  import opened TaskInvariant
  import opened Wire

  function ShownFrame(e: Event): seq<Frame> {
    if e.Shown? then [e.frame] else []
  }

  function ShownFrames(): Event -> seq<Frame> { e => ShownFrame(e) }

  function FramesIn(es: seq<Event>): seq<Frame> { Flat(ShownFrames(), es) }

  predicate OutOk(t: Task) {
    t.pc <= |Program(t)| && FramesIn(t.out) == ResponseOf(Program(t)[..t.pc])
  }

  predicate InvResponse(s: State) {
    forall i :: 0 <= i < |s.tasks| ==> OutOk(s.tasks[i])
  }

  lemma ResponseSnoc(ops: seq<Op>, pc: nat)
    requires pc < |ops|
    ensures ResponseOf(ops[..pc + 1]) == ResponseOf(ops[..pc]) + OpPush(ops[pc])
  {
    FlatSnoc(OpPushes(), ops[..pc], ops[pc]);
    assert ops[..pc + 1] == ops[..pc] + [ops[pc]];
  }

  lemma OneTaskResponse(s: State, s': State, i: nat)
    requires InvResponse(s) && i < |s.tasks| == |s'.tasks|
    requires forall j :: 0 <= j < |s.tasks| && j != i ==> s'.tasks[j] == s.tasks[j]
    requires OutOk(s'.tasks[i])
    ensures InvResponse(s')
  {
  }

  /** One operation on: what it pushes is what joins the response. */
  lemma MoveResponse(t: Task, t': Task, es: seq<Event>)
    requires OutOk(t) && t.pc < |Program(t)| && t'.pc == t.pc + 1
    requires t'.plan == t.plan && t'.answer == t.answer && t'.ran == t.ran
    requires t'.out == t.out + es && FramesIn(es) == OpPush(Program(t)[t.pc])
    ensures OutOk(t')
  {
    ResponseSnoc(Program(t), t.pc);
    FlatConcat(ShownFrames(), t.out, es);
  }

  lemma PushedEvents(t: Task, i: nat, op: Op)
    ensures FramesIn(if op.Push? then EventsOf(t, i, op) else []) == OpPush(op)
  {
    if op.Push? { Flat1(ShownFrames(), Shown(i, op.frame, CorrelationOf(t))); }
  }

  lemma PerformResponse(s: State, i: nat, op: Op, millis: nat)
    requires InvResponse(s) && i < |s.tasks| && !Finished(s.tasks[i]) && op == NextOp(s.tasks[i])
    ensures InvResponse(Perform(s, i, op, millis))
  {
    var t, s' := s.tasks[i], Perform(s, i, op, millis);
    PushedEvents(t, i, op);
    MoveResponse(t, s'.tasks[i], if op.Push? then EventsOf(t, i, op) else []);
    OneTaskResponse(s, s', i);
  }

  /** Answering the wait or the backend call pushes nothing. */
  lemma AnsweredResponse(t: Task, t': Task)
    requires OutOk(t) && t'.pc == t.pc + 1 && t'.pc <= |Program(t')| && t'.out == t.out
    requires Program(t')[..t.pc] == Program(t)[..t.pc]
    requires !Program(t')[t.pc].Push?
    ensures OutOk(t')
  {
    ResponseSnoc(Program(t'), t.pc);
  }

  lemma AnswerResponse(s: State, i: nat, o: Outcome, rx: Rx)
    requires InvShape(s) && InvResponse(s) && Listens(s, i) && Waits(s.tasks[i])
    ensures InvResponse(Answer(s, i, o, rx))
  {
    var t, s' := s.tasks[i], Answer(s, i, o, rx);
    WaitAnswered(t.plan, o);
    OpShape(t.plan, Some(o), None, t.pc);
    AnsweredResponse(t, s'.tasks[i]);
    OneTaskResponse(s, s', i);
  }

  lemma CallResponse(s: State, i: nat, ok: bool)
    requires InvShape(s) && InvResponse(s) && i < |s.tasks| && Ready(s.tasks[i])
    ensures InvResponse(Call(s, i, ok))
  {
    var t, s' := s.tasks[i], Call(s, i, ok);
    RunAnswered(t.plan, t.answer, ok);
    OpShape(t.plan, t.answer, Some(ok), t.pc);
    AnsweredResponse(t, s'.tasks[i]);
    OneTaskResponse(s, s', i);
  }

  lemma AdmitResponse(s: State, c: nat, flow: Flow, plan: Plan)
    requires InvResponse(s) && c < |s.conns|
    ensures InvResponse(Admit(s, c, flow, plan))
  {
    var s', n := Admit(s, c, flow, plan), |s.tasks|;
    assert Program(s'.tasks[n])[..0] == [];
    assert forall i :: 0 <= i < n ==> s'.tasks[i] == s.tasks[i];
  }

  lemma TimerResponse(route: Route, s: State, step: Step)
    requires InvResponse(s) && Enabled(s, step)
    requires TimerStep(step)
    ensures InvResponse(Apply(route, s, step))
  {
    assert OutOk(s.tasks[step.task]);
    OneTaskResponse(s, Apply(route, s, step), step.task);
  }

  lemma ActResponse(s: State, i: nat, ok: bool)
    requires InvShape(s) && InvResponse(s) && Enabled(s, Act(i, ok))
    ensures InvResponse(Call(s, i, ok))
  {
    ActFits(s, i, ok);
    CallResponse(s, i, ok);
  }

  lemma EndResponse(route: Route, s: State, step: Step)
    requires InvShape(s) && InvSent(s) && InvResponse(s) && Enabled(s, step) && EndStep(step)
    ensures InvResponse(Apply(route, s, step))
  {
    var i, o, rx := EndsWait(route, s, step);
    AnswerResponse(s, i, o, rx);
  }

  lemma ResponsePreserved(route: Route, s: State, step: Step)
    requires InvShape(s) && InvSent(s) && InvResponse(s) && Enabled(s, step)
    ensures InvResponse(Apply(route, s, step))
  {
    if ConnStep(step) {
      ConnStepTasks(route, s, step);
    } else if TimerStep(step) {
      TimerResponse(route, s, step);
    } else if EndStep(step) {
      EndResponse(route, s, step);
    } else {
      match step
      case Begin(c, flow) => AdmitResponse(s, c, flow, route(flow));
      case Run(i, millis) => PerformResponse(s, i, NextOp(s.tasks[i]), millis);
      case Act(i, ok) => ActResponse(s, i, ok);
    }
  }
}
