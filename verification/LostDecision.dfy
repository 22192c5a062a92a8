/** What becomes of a decision that `resolve` has accepted.  The timed wait looks at its receiver
    first and at its timer second, so a decision that arrives between the two looks can lose
    against the timeout, although its sender was told Ok.  Stated here: when exactly. */
module LostDecision {
  import opened Common
  import opened Lifecycle
  import opened LifecycleShape
  import opened Protocol
  import opened TaskInvariant
  import opened ChannelInvariant
  import opened ReplyInvariant
  import opened Runs
  import Capabilities

  const LOST: Outcome := Outcome(TimedOut, Timeout)

  /** The waiter of request `i` owns channel `n`, and `resolve` has sent `d` through it. */
  predicate Spent(s: State, i: nat, n: nat, d: Decision) {
    && i < |s.tasks| && n < |s.chans|
    && s.tasks[i].approval == Some(n) && s.chans[n].tx == Sent(d)
  }

  /** The answers a wait can still come to once `d` has been sent: before its first look only the
      decision, past the deadline and between the looks only the timeout, else both. */
  function Possible(t: Task, d: Decision): set<Outcome> {
    if t.answer.Some? then {t.answer.value}
    else if !t.polled then {Outcome(d, User)}
    else if t.expired then {LOST}
    else {Outcome(d, User), LOST}
  }

  predicate EndedWith(s: State, i: nat, o: Outcome) {
    i < |s.tasks| && s.tasks[i].answer == Some(o)
  }

  /** Some run from here answers the wait of request `i` with `o`. */
  ghost predicate CanEnd(route: Route, s: State, i: nat, o: Outcome) {
    exists steps :: CanRun(route, s, steps) && EndedWith(After(route, s, steps), i, o)
  }

  // ----- no run leaves what is possible -----------------------------------------------------

  lemma Layers(route: Route, s: State)
    requires Inv(route, s)
    ensures InvShape(s) && InvSent(s) && InvTokens(s) && InvAccepted(s)
  {
  }

  /** An answer is final. */
  lemma StepAnswer(route: Route, s: State, step: Step, i: nat)
    requires InvShape(s) && InvSent(s) && Enabled(s, step) && i < |s.tasks|
    ensures var s' := Apply(route, s, step);
      && i < |s'.tasks| && s'.tasks[i].flow == s.tasks[i].flow
      && (s.tasks[i].answer.Some? ==> s'.tasks[i].answer == s.tasks[i].answer)
  {
    hide InvShape, InvSent, Script, ChansAfter, RegistryAfter, ConnsAfter;
    if EndStep(step) { var j, o, rx := EndsWait(route, s, step); }
  }

  lemma PerformSpent(s: State, j: nat, op: Op, millis: nat, i: nat, n: nat, d: Decision)
    requires InvTokens(s) && Spent(s, i, n, d)
    requires j < |s.tasks| && TaskShape(s.tasks[j], |s.conns|) && Fits(s.tasks[j], op)
    ensures Spent(Perform(s, j, op, millis), i, n, d)
  {
    hide InvTokens, ScriptSize, HandoffAt, RunAt, WillRun;
    var s' := Perform(s, j, op, millis);
    if op.Register? || op.Take? { RegistryOpsSendNothing(s, j, op, millis); }
    assert SentValue(s'.chans[n]) == SentValue(s.chans[n]) == [d];
  }

  lemma RunSpent(s: State, j: nat, millis: nat, i: nat, n: nat, d: Decision)
    requires InvShape(s) && InvTokens(s) && Enabled(s, Run(j, millis)) && Spent(s, i, n, d)
    ensures Spent(Advance(s, j, millis), i, n, d)
  {
    hide InvTokens, Script, Perform, Fits, TaskShape, Spent;
    RunFits(s, j, millis);
    PerformSpent(s, j, NextOp(s.tasks[j]), millis, i, n, d);
  }

  /** A resolver that is about to send holds a live sender. */
  lemma SendSpent(route: Route, s: State, c: nat, i: nat, n: nat, d: Decision)
    requires InvTokens(s) && Enabled(s, ResolveSend(c)) && Spent(s, i, n, d)
    ensures Spent(Apply(route, s, ResolveSend(c)), i, n, d)
  {
    assert Holds(s, c, s.conns[c].mode.chan);
  }

  /** The receiving side never changes what has been sent. */
  lemma OtherSpent(route: Route, s: State, step: Step, i: nat, n: nat, d: Decision)
    requires Enabled(s, step) && Spent(s, i, n, d) && !step.Run? && !step.ResolveSend?
    ensures Spent(Apply(route, s, step), i, n, d)
  {
    hide Finished, NextOp;
  }

  /** No step takes back what has been sent. */
  lemma StepSpent(route: Route, s: State, step: Step, i: nat, n: nat, d: Decision)
    requires InvShape(s) && InvTokens(s) && Enabled(s, step) && Spent(s, i, n, d)
    ensures Spent(Apply(route, s, step), i, n, d)
  {
    hide InvTokens, Enabled, Spent;
    match step
    case Run(j, millis) => RunSpent(s, j, millis, i, n, d);
    case ResolveSend(c) => SendSpent(route, s, c, i, n, d);
    case _ => OtherSpent(route, s, step, i, n, d);
  }

  lemma {:induction false} RunAnswer(route: Route, s: State, steps: seq<Step>, i: nat)
    requires Inv(route, s) && CanRun(route, s, steps) && i < |s.tasks|
    ensures var s' := After(route, s, steps);
      && i < |s'.tasks| && s'.tasks[i].flow == s.tasks[i].flow
      && (s.tasks[i].answer.Some? ==> s'.tasks[i].answer == s.tasks[i].answer)
    decreases |steps|
  {
    hide Apply, Enabled, Inv;
    if steps != [] {
      Layers(route, s);
      StepAnswer(route, s, steps[0], i);
      StepInv(route, s, steps[0]);
      RunAnswer(route, Apply(route, s, steps[0]), steps[1..], i);
    }
  }

  /** No step makes an answer possible that was not. */
  lemma StepFate(route: Route, s: State, step: Step, i: nat, n: nat, d: Decision)
    requires InvShape(s) && InvSent(s) && InvTokens(s) && Enabled(s, step) && Spent(s, i, n, d)
    ensures Spent(Apply(route, s, step), i, n, d)
    ensures Possible(Apply(route, s, step).tasks[i], d) <= Possible(s.tasks[i], d)
  {
    StepSpent(route, s, step, i, n, d);
    if EndStep(step) { EndFate(route, s, step, i, n, d); } else { OtherFate(route, s, step, i, n, d); }
  }

  lemma EndFate(route: Route, s: State, step: Step, i: nat, n: nat, d: Decision)
    requires InvShape(s) && InvSent(s) && Enabled(s, step) && Spent(s, i, n, d) && EndStep(step)
    requires Spent(Apply(route, s, step), i, n, d)
    ensures Possible(Apply(route, s, step).tasks[i], d) <= Possible(s.tasks[i], d)
  {
    hide InvShape, InvSent, Script;
    var j, o, rx := EndsWait(route, s, step);
  }

  lemma OtherFate(route: Route, s: State, step: Step, i: nat, n: nat, d: Decision)
    requires Enabled(s, step) && Spent(s, i, n, d) && !EndStep(step)
    requires Spent(Apply(route, s, step), i, n, d)
    ensures Possible(Apply(route, s, step).tasks[i], d) <= Possible(s.tasks[i], d)
  {
    hide Script, ChansAfter, RegistryAfter, ConnsAfter, Finished;
  }

  lemma {:induction false} RunFate(route: Route, s: State, steps: seq<Step>, i: nat, n: nat, d: Decision)
    requires Inv(route, s) && CanRun(route, s, steps) && Spent(s, i, n, d)
    ensures Spent(After(route, s, steps), i, n, d)
    ensures Possible(After(route, s, steps).tasks[i], d) <= Possible(s.tasks[i], d)
    decreases |steps|
  {
    hide Apply, Enabled, Possible;
    if steps != [] {
      StepFate(route, s, steps[0], i, n, d);
      StepInv(route, s, steps[0]);
      RunFate(route, Apply(route, s, steps[0]), steps[1..], i, n, d);
    }
  }

  // ----- every possible answer is reached ---------------------------------------------------

  /** Request `i` has its timed wait still ahead, or stands at it. */
  predicate BeforeWait(s: State, i: nat) {
    && i < |s.tasks| && s.tasks[i].plan.gate == Gated && s.tasks[i].answer.None?
    && (s.tasks[i].pc <= CorrelationAt(s.tasks[i].plan.style) ==> s.correlations + 1 < COUNTER_LIMIT)
  }

  predicate SameClock(t: Task, t': Task) {
    t'.flow == t.flow && t'.plan == t.plan && t'.polled == t.polled && t'.expired == t.expired && t'.answer == t.answer
  }

  /** What request `i` leaves alone on its way to the wait: it sends nothing, and of connections it
      touches only its own, to hand over its response. */
  predicate Walked(s: State, s': State, i: nat) {
    && i < |s.tasks| == |s'.tasks| && SameClock(s.tasks[i], s'.tasks[i])
    && s'.tasks[i].conn == s.tasks[i].conn && |s'.conns| == |s.conns|
    && (forall c :: 0 <= c < |s.conns| ==> ConnWalked(s.conns[c], s'.conns[c], c == s.tasks[i].conn))
    && (forall n :: 0 <= n < |s'.chans| && s'.chans[n].tx.Sent? ==> n < |s.chans| && s.chans[n].tx.Sent?)
    && s'.correlations <= s.correlations + (if s.tasks[i].pc <= CorrelationAt(s.tasks[i].plan.style) then 1 else 0)
  }

  predicate ConnWalked(k: Conn, k': Conn, own: bool) {
    k' == k || (own && k'.mode.Flushing?)
  }

  /** One operation of request `i` on its way. */
  lemma WalkStep(s: State, i: nat)
    requires InvShape(s) && BeforeWait(s, i) && s.tasks[i].pc < WaitAt(s.tasks[i].plan.style)
    ensures Enabled(s, Run(i, 0))
    ensures var s' := Advance(s, i, 0);
      Walked(s, s', i) && BeforeWait(s', i) && s'.tasks[i].pc == s.tasks[i].pc + 1
  {
    hide CorrelationOf, IdOf, ChansAfter, RegistryAfter, DropRegistered;
    var t := s.tasks[i];
    FinishedShape(t, |s.conns|);
    PartSizes(t.plan, None, t.ran);
    OpShape(t.plan, t.answer, t.ran, t.pc);
    var op, s' := NextOp(t), Advance(s, i, 0);
    forall n | 0 <= n < |s'.chans| && s'.chans[n].tx.Sent? ensures n < |s.chans| && s.chans[n].tx.Sent? {
      ChansAfterSent(s, t, i, op, n);
    }
  }

  lemma {:induction false} WalkToWait(route: Route, s: State, i: nat) returns (steps: seq<Step>)
    requires Inv(route, s) && BeforeWait(s, i)
    ensures CanRun(route, s, steps) && Walked(s, After(route, s, steps), i)
    ensures After(route, s, steps).tasks[i].pc == WaitAt(s.tasks[i].plan.style)
    decreases WaitAt(s.tasks[i].plan.style) - s.tasks[i].pc
  {
    hide Enabled;
    var t := s.tasks[i];
    if t.pc >= WaitAt(t.plan.style) {
      assert TaskShape(t, |s.conns|);
      steps := [];
      StandsStill(s, i);
    } else {
      WalkStep(s, i);
      var s' := Apply(route, s, Run(i, 0));
      StepInv(route, s, Run(i, 0));
      var rest := WalkToWait(route, s', i);
      steps := [Run(i, 0)] + rest;
      assert steps[1..] == rest;
      WalkedOn(s, s', After(route, s', rest), i);
    }
  }

  lemma StandsStill(s: State, i: nat)
    requires i < |s.tasks|
    ensures Walked(s, s, i)
  {
  }

  lemma WalkedOn(s: State, s': State, s'': State, i: nat)
    requires Walked(s, s', i) && Walked(s', s'', i)
    requires s'.tasks[i].pc > s.tasks[i].pc
    requires s.tasks[i].pc < CorrelationAt(s.tasks[i].plan.style) ==> s'.correlations == s.correlations
    ensures Walked(s, s'', i)
  {
    forall c | 0 <= c < |s.conns| ensures ConnWalked(s.conns[c], s''.conns[c], c == s.tasks[i].conn) {
      assert ConnWalked(s.conns[c], s'.conns[c], c == s.tasks[i].conn);
      assert ConnWalked(s'.conns[c], s''.conns[c], c == s.tasks[i].conn);
    }
  }

  /** Who stands at the wait has a receiver to look at. */
  lemma StandsAtWait(s: State, i: nat)
    requires InvShape(s) && InvTokens(s) && i < |s.tasks| && s.tasks[i].plan.gate == Gated
    requires s.tasks[i].answer.None? && s.tasks[i].pc == WaitAt(s.tasks[i].plan.style)
    ensures AtWait(s, i) && Owns(s, i, s.tasks[i].approval.value)
    ensures var tx := s.chans[s.tasks[i].approval.value].tx; tx.Alive? || tx.Sent?
  {
    var t := s.tasks[i];
    FinishedShape(t, |s.conns|);
    OpShape(t.plan, t.answer, t.ran, t.pc);
    assert Owns(s, i, t.approval.value);
  }

  lemma {:induction false} RunConcat(route: Route, s: State, steps: seq<Step>, more: seq<Step>)
    requires CanRun(route, s, steps) && CanRun(route, After(route, s, steps), more)
    ensures CanRun(route, s, steps + more)
    ensures After(route, s, steps + more) == After(route, After(route, s, steps), more)
    decreases |steps|
  {
    hide Apply, Enabled;
    if steps == [] {
      assert [] + more == more;
    } else {
      RunConcat(route, Apply(route, s, steps[0]), steps[1..], more);
      assert (steps + more)[1..] == steps[1..] + more;
    }
  }

  lemma RunOne(route: Route, s: State, step: Step)
    requires Enabled(s, step)
    ensures CanRun(route, s, [step]) && After(route, s, [step]) == Apply(route, s, step)
  {
    hide Apply, Enabled;
    assert [step][1..] == [];
    assert CanRun(route, Apply(route, s, step), []);
  }

  lemma RunTwo(route: Route, s: State, a: Step, b: Step)
    requires Enabled(s, a) && Enabled(Apply(route, s, a), b)
    ensures CanRun(route, s, [a, b]) && After(route, s, [a, b]) == Apply(route, Apply(route, s, a), b)
  {
    hide Apply, Enabled;
    RunOne(route, s, a);
    RunOne(route, Apply(route, s, a), b);
    RunConcat(route, s, [a], [b]);
    assert [a] + [b] == [a, b];
  }

  /** From the wait, at most two steps bring about any possible answer. */
  lemma EndFromWait(route: Route, s: State, i: nat, n: nat, d: Decision, o: Outcome) returns (steps: seq<Step>)
    requires AtWait(s, i) && Spent(s, i, n, d) && s.tasks[i].answer.None? && o in Possible(s.tasks[i], d)
    ensures CanRun(route, s, steps) && EndedWith(After(route, s, steps), i, o)
  {
    hide CanRun, After, Script;
    if o == LOST {
      if s.tasks[i].expired {
        RunOne(route, s, TimerFired(i));
        steps := [TimerFired(i)];
      } else {
        RunTwo(route, s, Expire(i), TimerFired(i));
        steps := [Expire(i), TimerFired(i)];
      }
    } else if s.tasks[i].polled {
      RunTwo(route, s, TimerPending(i), PollReady(i));
      steps := [TimerPending(i), PollReady(i)];
    } else {
      RunOne(route, s, PollReady(i));
      steps := [PollReady(i)];
    }
  }

  lemma ReachPossible(route: Route, s: State, i: nat, n: nat, d: Decision, o: Outcome)
    requires Inv(route, s) && Spent(s, i, n, d) && o in Possible(s.tasks[i], d)
    ensures CanEnd(route, s, i, o)
  {
    hide CanRun, After, Enabled, Apply, Inv;
    Layers(route, s);
    if s.tasks[i].answer.Some? {
      Nothing(route, s);
      assert EndedWith(After(route, s, []), i, o);
    } else {
      hide InvShape, InvTokens, InvAccepted;
      SpentIsPast(s, i, n, d);
      var walk := WalkToWait(route, s, i);
      var s' := After(route, s, walk);
      RunInv(route, s, walk);
      RunFate(route, s, walk, i, n, d);
      Layers(route, s');
      StandsAtWait(s', i);
      var end := EndFromWait(route, s', i, n, d, o);
      RunConcat(route, s, walk, end);
    }
  }

  lemma Nothing(route: Route, s: State)
    ensures CanRun(route, s, []) && After(route, s, []) == s
  {
  }

  /** Who owns a spent channel has registered and passed its draws. */
  lemma SpentIsPast(s: State, i: nat, n: nat, d: Decision)
    requires InvShape(s) && InvTokens(s) && Spent(s, i, n, d) && s.tasks[i].answer.None?
    ensures BeforeWait(s, i)
  {
    assert Owns(s, i, n);
  }

  // ----- the main results -------------------------------------------------------------------

  /** Exactly the possible answers are reached by some run. */
  lemma FateExactly(route: Route, s: State, i: nat, n: nat, d: Decision, o: Outcome)
    requires Reachable(route, s) && Spent(s, i, n, d)
    ensures CanEnd(route, s, i, o) <==> o in Possible(s.tasks[i], d)
  {
    hide CanRun, After, Possible, Inv;
    ReachableInv(route, s);
    if CanEnd(route, s, i, o) {
      var steps :| CanRun(route, s, steps) && EndedWith(After(route, s, steps), i, o);
      RunFate(route, s, steps, i, n, d);
      OnlyAnswer(After(route, s, steps).tasks[i], d);
    } else if o in Possible(s.tasks[i], d) {
      ReachPossible(route, s, i, n, d, o);
    }
  }

  lemma OnlyAnswer(t: Task, d: Decision)
    ensures t.answer.Some? ==> t.answer.value in Possible(t, d)
  {
  }

  /** The wait is open, or the accepted decision has become its answer. */
  predicate Keeps(s: State, i: nat, d: Decision) {
    i < |s.tasks| && (s.tasks[i].answer.None? || s.tasks[i].answer == Some(Outcome(d, User)))
  }

  ghost predicate AlwaysKeeps(route: Route, s: State, i: nat, d: Decision) {
    forall steps :: CanRun(route, s, steps) ==> Keeps(After(route, s, steps), i, d)
  }

  /** An accepted decision is certain to become the outcome exactly if the waiter does not stand
      between its two looks.  If it does, and the deadline has passed, the decision is certain to
      be lost; before the deadline it can go either way. */
  lemma KeptExactly(route: Route, s: State, i: nat, n: nat, d: Decision)
    requires Reachable(route, s) && Spent(s, i, n, d) && s.tasks[i].answer.None?
    ensures AlwaysKeeps(route, s, i, d) <==> !s.tasks[i].polled
    ensures CanEnd(route, s, i, Outcome(d, User)) <==> !(s.tasks[i].polled && s.tasks[i].expired)
  {
    hide CanRun, After, Inv;
    FateExactly(route, s, i, n, d, Outcome(d, User));
    if s.tasks[i].polled {
      FateExactly(route, s, i, n, d, LOST);
      var steps :| CanRun(route, s, steps) && EndedWith(After(route, s, steps), i, LOST);
      assert !Keeps(After(route, s, steps), i, d);
    } else {
      ReachableInv(route, s);
      forall steps | CanRun(route, s, steps) ensures Keeps(After(route, s, steps), i, d) {
        RunFate(route, s, steps, i, n, d);
      }
    }
  }

  // ----- the case does occur ----------------------------------------------------------------

  /** Two clients are connected and the first has sent a request. */
  lemma Asked(route: Route, flow: Flow) returns (s: State)
    ensures Reachable(route, s) && s.correlations == 0 && s.chans == []
    ensures s.tasks == [Task(flow, route(flow), 0, 0, None, None, None, None, false, false, [])]
    ensures s.conns == [Conn(Dispatching(0), 0, []), Conn(Idle, 0, [])]
  {
    hide Reachable;
    InitReachable(route);
    s := Init();
    StepReachable(route, s, Connect);
    s := Apply(route, s, Connect);
    StepReachable(route, s, Connect);
    s := Apply(route, s, Connect);
    StepReachable(route, s, Begin(0, flow));
    s := Apply(route, s, Begin(0, flow));
  }

  lemma {:induction false} RunReachable(route: Route, s: State, steps: seq<Step>)
    requires Reachable(route, s) && CanRun(route, s, steps)
    ensures Reachable(route, After(route, s, steps))
    decreases |steps|
  {
    hide Apply, Enabled, Reachable;
    if steps != [] {
      StepReachable(route, s, steps[0]);
      RunReachable(route, Apply(route, s, steps[0]), steps[1..]);
    }
  }

  /** A gated request waits for a decision that nobody has sent; its sender is registered. */
  predicate WaitsAlone(s: State, flow: Flow, n: nat) {
    && |s.tasks| == 1 && AtWait(s, 0) && s.tasks[0].flow == flow && s.tasks[0].approval == Some(n)
    && !s.tasks[0].polled && !s.tasks[0].expired && s.tasks[0].answer.None?
    && s.chans[n].tx.Alive? && Registered(s, n)
    && |s.conns| == 2 && s.conns[1].mode.Idle? && s.correlations <= 1
  }

  lemma Waiting(route: Route, flow: Flow) returns (s: State, n: nat)
    requires route(flow).gate == Gated
    ensures Reachable(route, s) && WaitsAlone(s, flow, n)
  {
    hide CanRun, After, Inv, Script;
    var begun := Asked(route, flow);
    ReachableInv(route, begun);
    WalkIsOpen(begun);
    var walk := WalkToWait(route, begun, 0);
    s := After(route, begun, walk);
    RunReachable(route, begun, walk);
    RunInv(route, begun, walk);
    Layers(route, s);
    StandsAtWait(s, 0);
    n := s.tasks[0].approval.value;
    NobodyHolds(s, n);
  }

  lemma WalkIsOpen(s: State)
    requires |s.tasks| == 1 && s.tasks[0].plan.gate == Gated && s.tasks[0].answer.None? && s.correlations == 0
    ensures BeforeWait(s, 0)
  {
  }

  lemma NobodyHolds(s: State, n: nat)
    requires InvTokens(s) && n < |s.chans| && s.chans[n].tx.Alive?
    requires forall c :: 0 <= c < |s.conns| ==> !s.conns[c].mode.Holding?
    ensures Registered(s, n)
  {
    hide InvOwner, InvChan, InvTaken;
  }

  /** Nobody decides, and the deadline passes. */
  lemma TimesOut(route: Route, flow: Flow) returns (s: State)
    requires route(flow).gate == Gated
    ensures Reachable(route, s) && |s.tasks| == 1 && s.tasks[0].flow == flow && s.correlations <= 1
    ensures s.tasks[0].answer == Some(LOST) && s.tasks[0].expired
  {
    hide Script, Reachable;
    var n;
    s, n := Waiting(route, flow);
    StepReachable(route, s, PollEmpty(0));
    s := Apply(route, s, PollEmpty(0));
    StepReachable(route, s, Expire(0));
    s := Apply(route, s, Expire(0));
    StepReachable(route, s, TimerFired(0));
    s := Apply(route, s, TimerFired(0));
  }

  /** Between the waiter's two looks the second client's decision is accepted. */
  lemma AcceptedBetween(route: Route, flow: Flow, d: Decision) returns (s: State, n: nat)
    requires route(flow).gate == Gated && d != TimedOut
    ensures Reachable(route, s) && s.tasks != [] && s.tasks[0].flow == flow
    ensures Spent(s, 0, n, d) && s.tasks[0].answer.None? && s.tasks[0].polled && !s.tasks[0].expired
  {
    hide Script, Reachable;
    s, n := Waiting(route, flow);
    StepReachable(route, s, PollEmpty(0));
    s := Apply(route, s, PollEmpty(0));
    StepReachable(route, s, ResolveTake(1, IdOf(n), d));
    s := Apply(route, s, ResolveTake(1, IdOf(n), d));
    StepReachable(route, s, ResolveSend(1));
    s := Apply(route, s, ResolveSend(1));
  }

  lemma AcceptedThenLost(route: Route, flow: Flow, d: Decision) returns (s: State)
    requires route(flow).gate == Gated && d != TimedOut
    ensures Reachable(route, s) && s.tasks != [] && s.tasks[0].flow == flow && s.tasks[0].approval.Some?
    ensures Accepted(s.log, IdOf(s.tasks[0].approval.value)) == [d] && s.tasks[0].answer == Some(LOST)
  {
    hide CanRun, After, Inv, Reachable;
    var between, n := AcceptedBetween(route, flow, d);
    FateExactly(route, between, 0, n, d, LOST);
    var steps :| CanRun(route, between, steps) && EndedWith(After(route, between, steps), 0, LOST);
    s := After(route, between, steps);
    ReachableInv(route, between);
    RunFate(route, between, steps, 0, n, d);
    RunAnswer(route, between, steps, 0);
    RunReachable(route, between, steps);
    ReachableInv(route, s);
    Layers(route, s);
    assert Accepted(s.log, IdOf(n)) == SentValue(s.chans[n]);
  }

  /** Under every policy, for every gated request and every decision there is a run in which
      `resolve` accepts the decision and the wait ends as timed out all the same. */
  lemma DecisionCanBeLost(policy: Capabilities.Policy, flow: Flow, d: Decision) returns (s: State)
    requires d != TimedOut
    ensures Reachable(RouteFor(policy), s)
    ensures PlanOf(flow, policy).gate == Gated ==>
      && s.tasks != [] && s.tasks[0].flow == flow && s.tasks[0].approval.Some?
      && Accepted(s.log, IdOf(s.tasks[0].approval.value)) == [d] && s.tasks[0].answer == Some(LOST)
  {
    hide CanRun, After, Inv, Reachable, PlanOf;
    var route := RouteFor(policy);
    if route(flow).gate == Gated {
      s := AcceptedThenLost(route, flow, d);
    } else {
      InitReachable(route);
      s := Init();
    }
  }
}
