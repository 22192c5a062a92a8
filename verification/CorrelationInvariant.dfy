/** Sixth layer: correlation ids.  A request draws its id once, before it shows or notes
    anything, and no two requests ever carry the same one. */
module CorrelationInvariant {
  import Ids
  import opened Lifecycle
  import opened Protocol
  import opened TaskInvariant

  /** The correlation id of this request is settled for good. */
  predicate Stamped(t: Task) {
    t.stamp.Some? || (t.plan.style == Asking && t.plan.gate == Refused)
  }

  predicate Carries(tasks: seq<Task>, e: Event) {
    match e
    case Shown(i, _, c) => i < |tasks| && Stamped(tasks[i]) && c == CorrelationOf(tasks[i])
    case Noted(i, _, c, id) =>
      i < |tasks| && Stamped(tasks[i]) && c == CorrelationOf(tasks[i]) && id == CapabilityOf(tasks[i].flow)
    case _ => true
  }

  predicate SameNumber(s: State, i: nat, j: nat) {
    && i < |s.tasks| && j < |s.tasks|
    && s.tasks[i].stamp.Some? && s.tasks[j].stamp.Some?
    && s.tasks[i].stamp.value.number == s.tasks[j].stamp.value.number
  }

  predicate InvCorrelation(s: State) {
    && s.correlations < COUNTER_LIMIT
    && (forall i :: 0 <= i < |s.tasks| && s.tasks[i].stamp.Some? ==> s.tasks[i].stamp.value.number <= s.correlations)
    && (forall i, j :: 0 <= i < |s.tasks| && 0 <= j < |s.tasks| && SameNumber(s, i, j) ==> i == j)
    && (forall k :: 0 <= k < |s.log| ==> Carries(s.tasks, s.log[k]))
  }

  predicate SameBadge(t: Task, t': Task) {
    t'.stamp == t.stamp && t'.plan == t.plan && t'.flow == t.flow
  }

  /** A step that draws no correlation id and logs at most one event that carries one. */
  lemma PlainCorrelation(s: State, s': State)
    requires InvCorrelation(s) && s'.correlations == s.correlations
    requires |s.tasks| <= |s'.tasks|
    requires forall i :: 0 <= i < |s.tasks| ==> SameBadge(s.tasks[i], s'.tasks[i])
    requires forall i :: |s.tasks| <= i < |s'.tasks| ==> s'.tasks[i].stamp.None?
    requires s'.log == s.log || (|s'.log| == |s.log| + 1 && s'.log[..|s.log|] == s.log && Carries(s.tasks, s'.log[|s.log|]))
    ensures InvCorrelation(s')
  {
    forall i, j | 0 <= i < |s'.tasks| && 0 <= j < |s'.tasks| && SameNumber(s', i, j) ensures i == j {
      assert SameNumber(s, i, j);
    }
    forall k | 0 <= k < |s'.log| ensures Carries(s'.tasks, s'.log[k]) {
      if k < |s.log| { assert s'.log[k] == s.log[k]; }
      assert Carries(s.tasks, s'.log[k]);
    }
  }

  /** Only a stamped request shows or notes anything. */
  lemma SpeaksStamped(t: Task, op: Op, conns: nat)
    requires TaskShape(t, conns) && Fits(t, op)
    ensures op.Push? || op.Cast? || op.Record? ==> Stamped(t)
    ensures op.DrawCorrelation? ==> !Stamped(t)
  {
  }

  lemma DrawCorrelated(s: State, i: nat, op: Op, millis: nat)
    requires InvShape(s) && InvCorrelation(s) && i < |s.tasks| && Fits(s.tasks[i], op)
    requires op.DrawCorrelation? && s.correlations + 1 < COUNTER_LIMIT
    ensures InvCorrelation(Perform(s, i, op, millis))
  {
    var t, s' := s.tasks[i], Perform(s, i, op, millis);
    SpeaksStamped(t, op, |s.conns|);
    forall j, k | 0 <= j < |s'.tasks| && 0 <= k < |s'.tasks| && SameNumber(s', j, k) ensures j == k {
      if j != i && k != i { assert SameNumber(s, j, k); }
    }
    forall k | 0 <= k < |s'.log| ensures Carries(s'.tasks, s'.log[k]) {
      assert Carries(s.tasks, s.log[k]);
    }
  }

  lemma PerformCorrelation(s: State, i: nat, op: Op, millis: nat)
    requires InvShape(s) && InvCorrelation(s) && i < |s.tasks| && Fits(s.tasks[i], op)
    requires op.DrawCorrelation? ==> s.correlations + 1 < COUNTER_LIMIT
    ensures InvCorrelation(Perform(s, i, op, millis))
  {
    if op.DrawCorrelation? {
      DrawCorrelated(s, i, op, millis);
    } else {
      SpeaksStamped(s.tasks[i], op, |s.conns|);
      PlainCorrelation(s, Perform(s, i, op, millis));
    }
  }

  lemma OtherCorrelation(route: Route, s: State, step: Step)
    requires InvCorrelation(s) && Enabled(s, step) && !step.Run? && !step.Begin? && !ConnStep(step)
    ensures InvCorrelation(Apply(route, s, step))
  {
    PlainCorrelation(s, Apply(route, s, step));
  }

  lemma ConnStepCorrelation(route: Route, s: State, step: Step)
    requires InvCorrelation(s) && Enabled(s, step) && ConnStep(step)
    ensures InvCorrelation(Apply(route, s, step))
  {
    ConnStepTasks(route, s, step);
    PlainCorrelation(s, Apply(route, s, step));
  }

  lemma AdmitCorrelation(s: State, c: nat, flow: Flow, plan: Plan)
    requires InvCorrelation(s) && c < |s.conns|
    ensures InvCorrelation(Admit(s, c, flow, plan))
  {
    PlainCorrelation(s, Admit(s, c, flow, plan));
  }

  lemma RunCorrelation(s: State, i: nat, millis: nat)
    requires InvShape(s) && InvCorrelation(s) && Enabled(s, Run(i, millis))
    ensures InvCorrelation(Advance(s, i, millis))
  {
    RunFits(s, i, millis);
    PerformCorrelation(s, i, NextOp(s.tasks[i]), millis);
  }

  lemma CorrelationPreserved(route: Route, s: State, step: Step)
    requires InvShape(s) && InvCorrelation(s) && Enabled(s, step)
    ensures InvCorrelation(Apply(route, s, step))
  {
    hide InvShape, InvCorrelation;
    if ConnStep(step) {
      ConnStepCorrelation(route, s, step);
    } else {
      match step
      case Run(i, millis) => RunCorrelation(s, i, millis);
      case Begin(c, flow) => AdmitCorrelation(s, c, flow, route(flow));
      case _ => OtherCorrelation(route, s, step);
    }
  }

  /** The id a request draws tells the clock and the next number of the counter. */
  lemma CorrelationDrawn(route: Route, s: State, i: nat, millis: nat)
    requires Enabled(s, Run(i, millis)) && NextOp(s.tasks[i]) == DrawCorrelation && millis < 0x1_0000_0000_0000
    ensures var s' := Apply(route, s, Run(i, millis));
      && |s'.tasks| == |s.tasks| && s'.correlations == s.correlations + 1
      && var c := CorrelationOf(s'.tasks[i]);
        && |c| == 33 && c[..5] == "corr_"
        && Ids.Decode(c[5..17], 16) == millis && Ids.Decode(c[17..], 16) == s.correlations + 1
  {
    hide Ids.CorrelationId, Script;
    Ids.CorrelationForm(millis, s.correlations + 1);
  }

  /** Two requests with a correlation id carry different ones. */
  lemma CorrelationsDiffer(s: State, i: nat, j: nat)
    requires InvCorrelation(s) && i < |s.tasks| && j < |s.tasks|
    requires s.tasks[i].stamp.Some? && s.tasks[j].stamp.Some?
    requires CorrelationOf(s.tasks[i]) == CorrelationOf(s.tasks[j])
    ensures i == j
  {
    var a, b := s.tasks[i].stamp.value, s.tasks[j].stamp.value;
    Ids.CorrelationIdInjective(a.millis, a.number, b.millis, b.number);
    assert SameNumber(s, i, j);
  }
}
