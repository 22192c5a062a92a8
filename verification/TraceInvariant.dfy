/** Fourth layer: what has been shown and audited for a request is exactly what its script has
    executed so far, under one correlation id that no other request carries. */
module TraceInvariant {
  import opened Common
  import opened Sequences
  import opened Lifecycle
  import opened LifecycleShape
  import opened Protocol
  import opened TaskInvariant

  /** The observable part of an operation or an event. */
  datatype Mark = FrameMark(frame: Frame) | EntryMark(entry: Entry) | EffectMark

  function OpMark(op: Op): seq<Mark> {
    match op
    case Push(f) => [FrameMark(f)]
    case Cast(f) => [FrameMark(f)]
    case Record(e) => [EntryMark(e)]
    case Ran(_) => [EffectMark]
    case _ => []
  }

  function OpMarks(): Op -> seq<Mark> { op => OpMark(op) }

  function EventMark(i: nat, e: Event): seq<Mark> {
    match e
    case Shown(owner, f, _) => if owner == i then [FrameMark(f)] else []
    case Noted(owner, entry, _, _) => if owner == i then [EntryMark(entry)] else []
    case Acted(owner) => if owner == i then [EffectMark] else []
    case _ => []
  }

  function EventMarks(i: nat): Event -> seq<Mark> { e => EventMark(i, e) }

  /** Request `i`'s own part of a log. */
  function TraceOf(log: seq<Event>, i: nat): seq<Mark> {
    Flat(EventMarks(i), log)
  }

  /** What a script's first `pc` operations leave behind. */
  function MarksUpTo(t: Task): seq<Mark>
    requires t.pc <= |Program(t)|
  {
    Flat(OpMarks(), Program(t)[..t.pc])
  }

  function OwnerOf(e: Event): Option<nat> {
    match e
    case Shown(i, _, _) => Some(i)
    case Noted(i, _, _, _) => Some(i)
    case Acted(i) => Some(i)
    case _ => None
  }

  ghost predicate InvTrace(s: State) {
    && (forall i :: 0 <= i < |s.tasks| ==>
          s.tasks[i].pc <= |Program(s.tasks[i])| && TraceOf(s.log, i) == MarksUpTo(s.tasks[i]))
    && (forall k :: 0 <= k < |s.log| && OwnerOf(s.log[k]).Some? ==> OwnerOf(s.log[k]).value < |s.tasks|)
  }

  lemma NoEvents(log: seq<Event>, i: nat)
    requires forall k :: 0 <= k < |log| ==> OwnerOf(log[k]) != Some(i)
    ensures TraceOf(log, i) == []
  {
    FlatEmpty(EventMarks(i), log);
  }

  lemma LogSnoc(log: seq<Event>, e: Event, i: nat)
    ensures TraceOf(log + [e], i) == TraceOf(log, i) + EventMark(i, e)
  {
    FlatSnoc(EventMarks(i), log, e);
  }

  lemma PrefixSnoc(ops: seq<Op>, pc: nat)
    requires pc < |ops|
    ensures Flat(OpMarks(), ops[..pc + 1]) == Flat(OpMarks(), ops[..pc]) + OpMark(ops[pc])
  {
    FlatSnoc(OpMarks(), ops[..pc], ops[pc]);
    assert ops[..pc + 1] == ops[..pc] + [ops[pc]];
  }

  lemma MarksSnoc(t: Task)
    requires t.pc < |Program(t)|
    ensures Flat(OpMarks(), Program(t)[..t.pc + 1]) == MarksUpTo(t) + OpMark(Program(t)[t.pc])
  {
    PrefixSnoc(Program(t), t.pc);
  }

  /** Task `i` makes one move and appends `es` to the log, at most one event, its own. */
  lemma OneTaskTrace(s: State, s': State, i: nat, es: seq<Event>)
    requires InvTrace(s) && i < |s.tasks| == |s'.tasks|
    requires forall j :: 0 <= j < |s.tasks| && j != i ==> s'.tasks[j] == s.tasks[j]
    requires s'.log == s.log + es && |es| <= 1 && (es != [] ==> OwnerOf(es[0]) == Some(i))
    requires s'.tasks[i].pc <= |Program(s'.tasks[i])|
    requires MarksUpTo(s'.tasks[i]) == MarksUpTo(s.tasks[i]) + (if es == [] then [] else EventMark(i, es[0]))
    ensures InvTrace(s')
  {
    hide TraceOf, MarksUpTo, EventMark;
    forall j | 0 <= j < |s'.tasks|
      ensures s'.tasks[j].pc <= |Program(s'.tasks[j])| && TraceOf(s'.log, j) == MarksUpTo(s'.tasks[j])
    {
      LogGrows(s.log, es, j);
      assert TraceOf(s.log, j) == MarksUpTo(s.tasks[j]);
      if j != i && es != [] { NotMine(es[0], i, j); }
    }
  }

  lemma NotMine(e: Event, i: nat, j: nat)
    requires OwnerOf(e) == Some(i) && j != i
    ensures EventMark(j, e) == []
  {
  }

  lemma LogGrows(log: seq<Event>, es: seq<Event>, j: nat)
    requires |es| <= 1
    ensures TraceOf(log + es, j) == TraceOf(log, j) + (if es == [] then [] else EventMark(j, es[0]))
  {
    if es == [] {
      assert log + es == log;
    } else {
      assert es == [es[0]];
      LogSnoc(log, es[0], j);
    }
  }

  /** Events that belong to no request do not show in any trace. */
  lemma ForeignEventTrace(s: State, s': State, es: seq<Event>)
    requires InvTrace(s) && s'.tasks == s.tasks
    requires s'.log == s.log + es && |es| <= 1 && (es != [] ==> OwnerOf(es[0]) == None)
    ensures InvTrace(s')
  {
    forall j | 0 <= j < |s'.tasks| ensures TraceOf(s'.log, j) == MarksUpTo(s'.tasks[j]) {
      LogGrows(s.log, es, j);
    }
  }

  lemma OneAhead(t: Task, t': Task)
    requires t.pc < |Program(t)| && t'.pc == t.pc + 1
    requires t'.plan == t.plan && t'.answer == t.answer && t'.ran == t.ran
    ensures t'.pc <= |Program(t')| && MarksUpTo(t') == MarksUpTo(t) + OpMark(Program(t)[t.pc])
  {
    MarksSnoc(t);
  }

  /** What an operation logs is its own mark. */
  lemma EventsMatch(t: Task, i: nat, op: Op)
    requires !IsRunOp(op)
    ensures var es := EventsOf(t, i, op);
      && |es| <= 1
      && (es == [] ==> OpMark(op) == [])
      && (es != [] ==> OwnerOf(es[0]) == Some(i) && EventMark(i, es[0]) == OpMark(op))
  {
  }

  lemma PerformTrace(s: State, i: nat, op: Op, millis: nat)
    requires InvTrace(s) && i < |s.tasks| && !IsRunOp(op)
    requires !Finished(s.tasks[i]) && op == NextOp(s.tasks[i])
    ensures InvTrace(Perform(s, i, op, millis))
  {
    var t, s' := s.tasks[i], Perform(s, i, op, millis);
    OneAhead(t, s'.tasks[i]);
    EventsMatch(t, i, op);
    OneTaskTrace(s, s', i, EventsOf(t, i, op));
  }

  /** Replacing a missing answer keeps everything before it. */
  lemma AnsweredMarks(t: Task, t': Task)
    requires t.pc <= |Program(t)| && t'.pc == t.pc + 1 && t'.pc <= |Program(t')|
    requires Program(t')[..t.pc] == Program(t)[..t.pc]
    ensures MarksUpTo(t') == MarksUpTo(t) + OpMark(Program(t')[t.pc])
  {
    PrefixSnoc(Program(t'), t.pc);
  }

  lemma CallTrace(s: State, i: nat, ok: bool)
    requires InvShape(s) && InvTrace(s) && i < |s.tasks| && Ready(s.tasks[i])
    ensures InvTrace(Call(s, i, ok))
  {
    var t, s' := s.tasks[i], Call(s, i, ok);
    RunAnswered(t.plan, t.answer, ok);
    OpShape(t.plan, t.answer, Some(ok), t.pc);
    AnsweredMarks(t, s'.tasks[i]);
    OneTaskTrace(s, s', i, [Acted(i)]);
  }

  lemma AnswerTrace(s: State, i: nat, o: Outcome, rx: Rx)
    requires InvShape(s) && InvTrace(s) && Listens(s, i) && Waits(s.tasks[i])
    ensures InvTrace(Answer(s, i, o, rx))
  {
    var t, s' := s.tasks[i], Answer(s, i, o, rx);
    WaitAnswered(t.plan, o);
    OpShape(t.plan, Some(o), None, t.pc);
    AnsweredMarks(t, s'.tasks[i]);
    OneTaskTrace(s, s', i, []);
  }

  lemma NewTaskTrace(s: State, s': State, t: Task)
    requires InvTrace(s) && s'.log == s.log && s'.tasks == s.tasks + [t] && t.pc == 0
    ensures InvTrace(s')
  {
    hide Script, MarksUpTo, TraceOf;
    NoEvents(s.log, |s.tasks|);
    FreshMarks(t);
    forall i | 0 <= i < |s'.tasks|
      ensures s'.tasks[i].pc <= |Program(s'.tasks[i])| && TraceOf(s'.log, i) == MarksUpTo(s'.tasks[i])
    {
      if i < |s.tasks| { assert s'.tasks[i] == s.tasks[i]; } else { assert s'.tasks[i] == t; }
    }
  }

  lemma FreshMarks(t: Task)
    requires t.pc == 0
    ensures MarksUpTo(t) == []
  {
    assert Program(t)[..0] == [];
  }

  lemma AdmitTrace(s: State, c: nat, flow: Flow, plan: Plan)
    requires InvTrace(s) && c < |s.conns|
    ensures InvTrace(Admit(s, c, flow, plan))
  {
    var s' := Admit(s, c, flow, plan);
    NewTaskTrace(s, s', s'.tasks[|s.tasks|]);
  }

  lemma ConnStepTrace(route: Route, s: State, step: Step)
    requires InvTrace(s) && Enabled(s, step) && ConnStep(step)
    ensures InvTrace(Apply(route, s, step))
  {
    ConnStepTasks(route, s, step);
    var s' := Apply(route, s, step);
    ForeignEventTrace(s, s', s'.log[|s.log|..]);
  }

  lemma TimerTrace(route: Route, s: State, step: Step)
    requires InvTrace(s) && Enabled(s, step)
    requires TimerStep(step)
    ensures InvTrace(Apply(route, s, step))
  {
    OneTaskTrace(s, Apply(route, s, step), step.task, []);
  }

  lemma ActTrace(s: State, i: nat, ok: bool)
    requires InvShape(s) && InvTrace(s) && Enabled(s, Act(i, ok))
    ensures InvTrace(Call(s, i, ok))
  {
    ActFits(s, i, ok);
    CallTrace(s, i, ok);
  }

  lemma EndTrace(route: Route, s: State, step: Step)
    requires InvShape(s) && InvSent(s) && InvTrace(s) && Enabled(s, step) && EndStep(step)
    ensures InvTrace(Apply(route, s, step))
  {
    var i, o, rx := EndsWait(route, s, step);
    AnswerTrace(s, i, o, rx);
  }

  lemma TracePreserved(route: Route, s: State, step: Step)
    requires InvShape(s) && InvSent(s) && InvTrace(s) && Enabled(s, step)
    ensures InvTrace(Apply(route, s, step))
  {
    if ConnStep(step) {
      ConnStepTrace(route, s, step);
    } else if TimerStep(step) {
      TimerTrace(route, s, step);
    } else if EndStep(step) {
      EndTrace(route, s, step);
    } else {
      match step
      case Begin(c, flow) => AdmitTrace(s, c, flow, route(flow));
      case Run(i, millis) => PerformTrace(s, i, NextOp(s.tasks[i]), millis);
      case Act(i, ok) => ActTrace(s, i, ok);
    }
  }
}
