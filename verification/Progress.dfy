/** Termination.  Once no client sends anything new and all deadlines have passed, a measure
    strictly falls with every step, and where no step is left nothing is left to do: every request
    has finished, no sender is registered, every connection has written all it owes. */
module Progress {
  import opened Sequences
  import opened Lifecycle
  import LifecycleShape
  import opened Protocol
  import opened TaskInvariant
  import opened BusyInvariant
  import opened ChannelInvariant
  import DeliveryInvariant

  /** No script is longer than this. */
  const LONGEST: nat := 40

  function TaskWork(t: Task): nat {
    (if t.pc < LONGEST then 2 * (LONGEST - t.pc) else 0) + (if t.polled then 0 else 1)
  }

  function ModeWork(m: Mode): nat {
    match m
    case Idle => 0
    case Closed => 0
    case Dispatching(_) => LONGEST + 10
    case Holding(_, _, _) => 5
    case Rejecting(_) => 4
    case Flushing(rest) => |rest| + 1
  }

  function TaskWorks(): Task -> nat { t => TaskWork(t) }

  function ConnWorks(): Conn -> nat { (k: Conn) => ModeWork(k.mode) }

  function Behind(emitted: nat): Conn -> nat {
    (k: Conn) => if k.cursor < emitted then emitted - k.cursor else 0
  }

  /** What tasks and connections still have to do, broadcast reception aside. */
  function Work(s: State): nat {
    Sum(TaskWorks(), s.tasks) + Sum(ConnWorks(), s.conns)
  }

  /** Broadcast frames not received yet, over all connections. */
  function Backlog(s: State): nat {
    Sum(Behind(|s.casts|), s.conns)
  }

  function Measure(s: State): nat {
    Work(s) * (|s.conns| + 1) + Backlog(s)
  }

  /** Steps that no client asks for. */
  predicate Internal(step: Step) {
    !step.Connect? && !step.Begin? && !step.ResolveTake? && !step.Hangup? && !step.Expire?
  }

  predicate AllExpired(s: State) {
    forall i :: 0 <= i < |s.tasks| ==> s.tasks[i].expired
  }

  /** Work falls and at most one frame is broadcast, or the backlog alone falls. */
  predicate Falls(s: State, s': State) {
    && |s'.conns| == |s.conns|
    && ((Work(s') < Work(s) && Backlog(s') <= Backlog(s) + |s.conns|)
        || (Work(s') == Work(s) && Backlog(s') < Backlog(s)))
  }

  /** One unit of work outweighs one more frame in every connection's backlog. */
  lemma Outweighs(work: nat, work': nat, backlog: nat, backlog': nat, n: nat)
    requires (work' < work && backlog' <= backlog + n) || (work' == work && backlog' < backlog)
    ensures work' * (n + 1) + backlog' < work * (n + 1) + backlog
  {
    if work' < work {
      assert work * (n + 1) == (work - work' - 1) * (n + 1) + (work' + 1) * (n + 1);
    }
  }

  lemma FallsMeasure(s: State, s': State)
    requires Falls(s, s')
    ensures Measure(s') < Measure(s)
  {
    hide Work, Backlog;
    Outweighs(Work(s), Work(s'), Backlog(s), Backlog(s'), |s.conns|);
  }

  /** A task moves on; neither connections nor broadcasts change. */
  lemma TaskFalls(s: State, s': State, i: nat, t: Task)
    requires i < |s.tasks| && s'.tasks == s.tasks[i := t] && TaskWork(t) < TaskWork(s.tasks[i])
    requires s'.conns == s.conns && |s.casts| <= |s'.casts| <= |s.casts| + 1
    ensures Falls(s, s')
  {
    SumUpdate(TaskWorks(), s.tasks, i, t);
    SumRaised(Behind(|s.casts|), Behind(|s'.casts|), s.conns);
  }

  /** A connection moves on without receiving a broadcast. */
  lemma ConnFalls(s: State, s': State, c: nat, k: Conn)
    requires c < |s.conns| && s'.conns == s.conns[c := k] && k.cursor == s.conns[c].cursor
    requires ModeWork(k.mode) < ModeWork(s.conns[c].mode)
    requires s'.tasks == s.tasks && s'.casts == s.casts
    ensures Falls(s, s')
  {
    SumUpdate(ConnWorks(), s.conns, c, k);
    SumUpdate(Behind(|s.casts|), s.conns, c, k);
  }

  lemma ForwardFalls(route: Route, s: State, c: nat, lost: nat)
    requires Enabled(s, Forward(c, lost))
    ensures Falls(s, Apply(route, s, Forward(c, lost)))
  {
    var k := Apply(route, s, Forward(c, lost)).conns[c];
    SumUpdate(ConnWorks(), s.conns, c, k);
    SumUpdate(Behind(|s.casts|), s.conns, c, k);
  }

  /** The hand-off gives the connection less to write than it had to dispatch. */
  lemma HandoffFalls(s: State, s': State, i: nat, t: Task)
    requires i < |s.tasks| && s'.tasks == s.tasks[i := t] && TaskWork(t) < TaskWork(s.tasks[i])
    requires s.tasks[i].conn < |s.conns| && s.conns[s.tasks[i].conn].mode == Dispatching(i)
    requires s'.conns == SetMode(s, s.tasks[i].conn, Flushing(s.tasks[i].out)) && |s.tasks[i].out| <= LONGEST
    requires s'.casts == s.casts
    ensures Falls(s, s')
  {
    var c := s.tasks[i].conn;
    SumUpdate(TaskWorks(), s.tasks, i, t);
    SumUpdate(ConnWorks(), s.conns, c, s'.conns[c]);
    SumUpdate(Behind(|s.casts|), s.conns, c, s'.conns[c]);
  }

  lemma PerformFalls(s: State, i: nat, op: Op, millis: nat)
    requires InvShape(s) && InvBusy(s) && i < |s.tasks| && Fits(s.tasks[i], op)
    ensures Falls(s, Perform(s, i, op, millis))
  {
    var t, s' := s.tasks[i], Perform(s, i, op, millis);
    PerformHandoff(s, t, i, op, millis);
    assert LifecycleShape.ScriptSize(t.plan, t.answer, t.ran) <= LONGEST;
    if op.Handoff? {
      HandoffFalls(s, s', i, s'.tasks[i]);
    } else {
      TaskFalls(s, s', i, s'.tasks[i]);
    }
  }

  lemma RunFalls(s: State, i: nat, millis: nat)
    requires InvShape(s) && InvBusy(s) && Enabled(s, Run(i, millis))
    ensures Falls(s, Advance(s, i, millis))
  {
    RunFits(s, i, millis);
    PerformFalls(s, i, NextOp(s.tasks[i]), millis);
  }

  lemma CallFalls(s: State, i: nat, ok: bool)
    requires InvShape(s) && Enabled(s, Act(i, ok))
    ensures Falls(s, Call(s, i, ok))
  {
    ActFits(s, i, ok);
    TaskFalls(s, Call(s, i, ok), i, Call(s, i, ok).tasks[i]);
  }

  lemma EndFalls(route: Route, s: State, step: Step)
    requires InvShape(s) && InvSent(s) && Enabled(s, step) && EndStep(step)
    ensures Falls(s, Apply(route, s, step))
  {
    var i, o, rx := EndsWait(route, s, step);
    TaskFalls(s, Answer(s, i, o, rx), i, Answer(s, i, o, rx).tasks[i]);
  }

  lemma PollFalls(route: Route, s: State, i: nat)
    requires Enabled(s, PollEmpty(i))
    ensures Falls(s, Apply(route, s, PollEmpty(i)))
  {
    TaskFalls(s, Apply(route, s, PollEmpty(i)), i, s.tasks[i].(polled := true));
  }

  lemma ConnStepFalls(route: Route, s: State, step: Step)
    requires Enabled(s, step) && (step.ResolveSend? || step.NoteRejection? || step.Flush?)
    ensures Falls(s, Apply(route, s, step))
  {
    ConnFalls(s, Apply(route, s, step), step.conn, Apply(route, s, step).conns[step.conn]);
  }

  /** With all deadlines passed, every step makes the measure smaller. */
  lemma EveryStepFalls(route: Route, s: State, step: Step)
    requires InvShape(s) && InvSent(s) && InvBusy(s) && AllExpired(s)
    requires Enabled(s, step) && Internal(step)
    ensures Measure(Apply(route, s, step)) < Measure(s)
    ensures AllExpired(Apply(route, s, step))
  {
    FallsMeasure(s, Apply(route, s, step)) by {
      if EndStep(step) {
        EndFalls(route, s, step);
      } else {
        match step
        case Run(i, millis) => RunFalls(s, i, millis);
        case Act(i, ok) => CallFalls(s, i, ok);
        case PollEmpty(i) => PollFalls(route, s, i);
        case Forward(c, lost) => ForwardFalls(route, s, c, lost);
        case TimerPending(_) =>
        case _ => ConnStepFalls(route, s, step);
      }
    }
    StaysExpired(route, s, step);
  }

  lemma StaysExpired(route: Route, s: State, step: Step)
    requires AllExpired(s) && Enabled(s, step) && Internal(step)
    ensures AllExpired(Apply(route, s, step))
  {
  }

  // ----- where no step is left --------------------------------------------------------------

  /** Nothing can happen any more unless a client acts. */
  ghost predicate Quiescent(s: State) {
    forall step :: Internal(step) ==> !Enabled(s, step)
  }

  /** The correlation counter has not run out. */
  predicate CounterLeft(s: State) {
    s.correlations + 1 < COUNTER_LIMIT
  }

  /** A task that stands at the wait has its receiver and can poll it or read its timer. */
  lemma WaitingMoves(s: State, i: nat) returns (step: Step)
    requires InvShape(s) && InvTokens(s) && i < |s.tasks| && Waits(s.tasks[i])
    requires !Finished(s.tasks[i]) && NextOp(s.tasks[i]).Await?
    ensures Internal(step) && Enabled(s, step)
  {
    var t := s.tasks[i];
    assert Owns(s, i, t.approval.value);
    assert Listens(s, i);
    step := if t.polled then (if t.expired then TimerFired(i) else TimerPending(i))
            else if s.chans[t.approval.value].tx.Alive? then PollEmpty(i)
            else PollReady(i);
  }

  /** An unfinished request always has a step it can take. */
  lemma UnfinishedMoves(s: State, i: nat) returns (step: Step)
    requires InvShape(s) && InvTokens(s) && CounterLeft(s) && i < |s.tasks| && !Finished(s.tasks[i])
    ensures Internal(step) && Enabled(s, step)
  {
    var t := s.tasks[i];
    FinishedShape(t, |s.conns|);
    LifecycleShape.OpShape(t.plan, t.answer, t.ran, t.pc);
    if NextOp(t).Await? {
      step := WaitingMoves(s, i);
    } else if NextOp(t).RunEffect? {
      step := Act(i, true);
    } else {
      step := Run(i, 0);
    }
  }

  /** What is left when nothing can move: no unfinished request, no registered sender, no
      connection that still owes its client anything. */
  predicate Done(s: State) {
    && (forall i :: 0 <= i < |s.tasks| ==> Finished(s.tasks[i]))
    && s.registry == map[]
    && (forall c :: 0 <= c < |s.conns| ==> Settled(s, s.conns[c]))
  }

  lemma FinishedHanded(t: Task, conns: nat)
    requires TaskShape(t, conns) && Finished(t)
    ensures HandedOff(t)
  {
    FinishedShape(t, conns);
  }

  predicate Settled(s: State, k: Conn) {
    k.mode.Closed? || (k.mode.Idle? && k.cursor == |s.casts|)
  }

  /** A connection that is not settled, and not dispatching, has a step it can take. */
  lemma BusyMoves(s: State, c: nat) returns (step: Step)
    requires InvTokens(s) && DeliveryInvariant.InvDelivery(s) && c < |s.conns|
    requires !Settled(s, s.conns[c]) && !s.conns[c].mode.Dispatching?
    ensures Internal(step) && Enabled(s, step)
  {
    assert DeliveryInvariant.InOrder(s.conns[c], s.casts);
    var m := s.conns[c].mode;
    step := if m.Holding? then ResolveSend(c)
            else if m.Rejecting? then NoteRejection(c)
            else if m.Flushing? then Flush(c)
            else Forward(c, 0);
  }

  /** A connection that dispatches has a request that is not finished. */
  lemma DispatchingUnfinished(s: State, c: nat)
    requires InvShape(s) && InvBusy(s) && c < |s.conns| && s.conns[c].mode.Dispatching?
    ensures s.conns[c].mode.task < |s.tasks| && !Finished(s.tasks[s.conns[c].mode.task])
  {
    hide Finished;
    var t := s.tasks[s.conns[c].mode.task];
    if Finished(t) { FinishedHanded(t, |s.conns|); }
  }

  /** A registered sender belongs to a request that has not finished. */
  lemma RegisteredUnfinished(s: State, id: string)
    requires InvShape(s) && InvTokens(s) && id in s.registry
    ensures s.registry[id] < |s.chans| && s.chans[s.registry[id]].owner < |s.tasks|
    ensures !Finished(s.tasks[s.chans[s.registry[id]].owner])
  {
    var n := s.registry[id];
    var i := s.chans[n].owner;
    assert Owns(s, i, n);
    FinishedShape(s.tasks[i], |s.conns|);
  }

  lemma QuietTasks(s: State)
    requires InvShape(s) && InvTokens(s) && CounterLeft(s) && Quiescent(s)
    ensures forall i :: 0 <= i < |s.tasks| ==> Finished(s.tasks[i])
  {
    hide Finished;
    forall i | 0 <= i < |s.tasks| ensures Finished(s.tasks[i]) {
      if !Finished(s.tasks[i]) { var step := UnfinishedMoves(s, i); }
    }
  }

  /** Where no step is left, nothing is left to do. */
  lemma QuiescentDone(s: State)
    requires InvShape(s) && InvBusy(s) && InvTokens(s) && DeliveryInvariant.InvDelivery(s) && CounterLeft(s) && Quiescent(s)
    ensures Done(s)
  {
    hide Finished;
    QuietTasks(s);
    if s.registry != map[] {
      var id :| id in s.registry;
      RegisteredUnfinished(s, id);
    }
    forall c | 0 <= c < |s.conns| ensures Settled(s, s.conns[c]) {
      if s.conns[c].mode.Dispatching? {
        DispatchingUnfinished(s, c);
      } else if !Settled(s, s.conns[c]) {
        var step := BusyMoves(s, c);
      }
    }
  }
}
