/** All layers together, kept by every step of every run. */
module Runs {
  import opened Lifecycle
  import opened Protocol
  import opened TaskInvariant
  import BusyInvariant
  import ChannelInvariant
  import TraceInvariant
  import opened ReplyInvariant
  import CorrelationInvariant
  import GateInvariant
  import DeliveryInvariant
  import ResponseInvariant

  ghost predicate Inv(route: Route, s: State) {
    && InvPlan(route, s)
    && InvShape(s)
    && InvSent(s)
    && BusyInvariant.InvBusy(s)
    && ChannelInvariant.InvTokens(s)
    && TraceInvariant.InvTrace(s)
    && InvAccepted(s)
    && InvRefusals(s)
    && CorrelationInvariant.InvCorrelation(s)
    && GateInvariant.InvGate(s)
    && DeliveryInvariant.InvDelivery(s)
    && ResponseInvariant.InvResponse(s)
  }

  /** Some schedule of enabled steps leads from the initial state to `s`. */
  ghost predicate Reachable(route: Route, s: State) {
    exists steps :: CanRun(route, Init(), steps) && After(route, Init(), steps) == s
  }

  lemma InitInv(route: Route)
    ensures Inv(route, Init())
  {
  }

  lemma StepInv(route: Route, s: State, step: Step)
    requires Inv(route, s) && Enabled(s, step)
    ensures Inv(route, Apply(route, s, step))
  {
    hide Apply, Enabled, InvPlan, InvShape, InvSent, InvAccepted, InvRefusals;
    hide BusyInvariant.InvBusy, ChannelInvariant.InvTokens, TraceInvariant.InvTrace, CorrelationInvariant.InvCorrelation;
    hide GateInvariant.InvGate, DeliveryInvariant.InvDelivery, ResponseInvariant.InvResponse;
    PlanPreserved(route, s, step);
    ShapePreserved(route, s, step);
    SentPreserved(route, s, step);
    BusyInvariant.BusyPreserved(route, s, step);
    ChannelInvariant.TokensPreserved(route, s, step);
    TraceInvariant.TracePreserved(route, s, step);
    AcceptedPreserved(route, s, step);
    RefusalsPreserved(route, s, step);
    CorrelationInvariant.CorrelationPreserved(route, s, step);
    GateInvariant.GatePreserved(route, s, step);
    DeliveryInvariant.DeliveryPreserved(route, s, step);
    ResponseInvariant.ResponsePreserved(route, s, step);
  }

  lemma {:induction false} RunInv(route: Route, s: State, steps: seq<Step>)
    requires Inv(route, s) && CanRun(route, s, steps)
    ensures Inv(route, After(route, s, steps))
    decreases |steps|
  {
    hide Apply, Enabled, Inv;
    if steps != [] {
      StepInv(route, s, steps[0]);
      RunInv(route, Apply(route, s, steps[0]), steps[1..]);
    }
  }

  /** Every reachable state satisfies all layers. */
  lemma ReachableInv(route: Route, s: State)
    requires Reachable(route, s)
    ensures Inv(route, s)
  {
    hide Apply, Enabled, Inv;
    var steps :| CanRun(route, Init(), steps) && After(route, Init(), steps) == s;
    InitInv(route);
    RunInv(route, Init(), steps);
  }

  lemma {:induction false} RunSnoc(route: Route, s: State, steps: seq<Step>, step: Step)
    requires CanRun(route, s, steps) && Enabled(After(route, s, steps), step)
    ensures CanRun(route, s, steps + [step])
    ensures After(route, s, steps + [step]) == Apply(route, After(route, s, steps), step)
    decreases |steps|
  {
    hide Apply, Enabled;
    if steps == [] {
      assert [] + [step] == [step];
    } else {
      RunSnoc(route, Apply(route, s, steps[0]), steps[1..], step);
      assert (steps + [step])[1..] == steps[1..] + [step];
    }
  }

  lemma StepReachable(route: Route, s: State, step: Step)
    requires Reachable(route, s) && Enabled(s, step)
    ensures Reachable(route, Apply(route, s, step))
  {
    hide Apply, Enabled;
    var steps :| CanRun(route, Init(), steps) && After(route, Init(), steps) == s;
    RunSnoc(route, Init(), steps, step);
  }

  lemma InitReachable(route: Route)
    ensures Reachable(route, Init())
  {
    assert CanRun(route, Init(), []);
  }
}
