/** The request handlers and their tasks as they are written: methods that push frames into the
    response, broadcast, write audit entries and change the registry, one after the other.

    Run without interference, each of them does exactly what its script says; what interference
    can do to them is the subject of the protocol modules.  The answer of the timed wait and of the
    backend come in as parameters. */
module AppFlows {
  import opened Common
  import opened Capabilities
  import Ids
  import opened Sequences
  import opened Lifecycle
  import LifecycleShape
  import opened Protocol
  import opened TraceInvariant
  import opened Wire
  import opened Registry

  datatype DemoStatus =
    | StatusPlanned
    | StatusWaitingApproval
    | StatusApproved
    | StatusRunning
    | StatusCompleted
    | StatusFailed
    | StatusDenied
    | StatusExpired
  {
    predicate IsTerminal() {
      StatusCompleted? || StatusFailed? || StatusDenied? || StatusExpired?
    }
  }

  const ENDED: set<DemoStatus> := {StatusCompleted, StatusFailed, StatusDenied, StatusExpired}

  class DemoPlan {
    const kind: string
    const requiresApproval: bool
    var status: DemoStatus

    constructor (rawKind: string, requiresApproval: bool)
      ensures kind == SanitizeKind(rawKind) && this.requiresApproval == requiresApproval
      ensures status == StatusPlanned
    {
      this.kind := SanitizeKind(rawKind);
      this.requiresApproval := requiresApproval;
      status := StatusPlanned;
    }

    /** A terminal status never changes again; setting the current one changes nothing. */
    method SetStatus(next: DemoStatus) returns (changed: bool)
      modifies this
      ensures changed <==> old(status) != next && old(status) !in ENDED
      ensures status == if changed then next else old(status)
    {
      if status == next { return false; }
      if status.IsTerminal() { return false; }
      status := next;
      return true;
    }
  }

  /** The audit entry of one executor frame. */
  function LifecycleEntry(f: Frame): seq<Entry> {
    match f
    case Started => [Entry(ActionStarted, NoResult, FromCore)]
    case Completed => [Entry(ActionCompleted, ResultCompleted, FromCore)]
    case Failed => [Entry(ActionFailed, ResultFailed, FromCore)]
    case CancelledFrame => [Entry(ActionCancelled, ResultCancelled, FromCore)]
    case _ => []
  }

  function LifecycleEntries(): Frame -> seq<Entry> { f => LifecycleEntry(f) }

  function Marked(frames: seq<Frame>): (marks: seq<Mark>)
    ensures |marks| == |frames| && forall k :: 0 <= k < |frames| ==> marks[k] == FrameMark(frames[k])
  {
    seq(|frames|, k requires 0 <= k < |frames| => FrameMark(frames[k]))
  }

  lemma MarkedFew(f: Frame, g: Frame)
    ensures Marked([f]) == [FrameMark(f)] && Marked([f, g]) == [FrameMark(f), FrameMark(g)]
  {
  }

  lemma EnteredRun(ok: bool)
    ensures Entered([Entry(ActionStarted, NoResult, FromCore), LastEntry(ok)])
         == [EntryMark(Entry(ActionStarted, NoResult, FromCore)), EntryMark(LastEntry(ok))]
  {
  }

  function Entered(entries: seq<Entry>): (marks: seq<Mark>)
    ensures |marks| == |entries| && forall k :: 0 <= k < |entries| ==> marks[k] == EntryMark(entries[k])
  {
    seq(|entries|, k requires 0 <= k < |entries| => EntryMark(entries[k]))
  }

  lemma NothingEntered()
    ensures Entered([]) == [] && Flat(LifecycleEntries(), []) == []
  {
  }

  /** One more message: its entry, if it has one. */
  lemma EntriesSnoc(messages: seq<Frame>, k: nat)
    requires k < |messages|
    ensures Flat(LifecycleEntries(), messages[..k + 1]) == Flat(LifecycleEntries(), messages[..k]) + LifecycleEntry(messages[k])
    ensures Entered(Flat(LifecycleEntries(), messages[..k + 1]))
         == Entered(Flat(LifecycleEntries(), messages[..k])) + Entered(LifecycleEntry(messages[k]))
  {
    hide Entered;
    FlatSnoc(LifecycleEntries(), messages[..k], messages[k]);
    assert messages[..k + 1] == messages[..k] + [messages[k]];
    EnteredSnoc(Flat(LifecycleEntries(), messages[..k]), LifecycleEntry(messages[k]));
  }

  lemma EnteredOne(f: Frame)
    ensures var es := LifecycleEntry(f); |es| <= 1 && Entered(es) == if es == [] then [] else [EntryMark(es[0])]
  {
  }

  lemma EnteredSnoc(entries: seq<Entry>, more: seq<Entry>)
    ensures Entered(entries + more) == Entered(entries) + Entered(more)
  {
  }

  /** The marks a piece of a script leaves. */
  function MarksOf(ops: seq<Op>): seq<Mark> { Flat(OpMarks(), ops) }

  class App {
    const policy: Policy
    const registry: PendingApprovalRegistry
    var approvals: nat       // next_approval_id's counter
    var broadcasts: seq<Frame>
    var audit: seq<Entry>

    /** Frames, audit entries and backend calls in the order they happen, whichever way they go. */
    ghost var trace: seq<Mark>

    constructor (policy: Policy)
      ensures this.policy == policy && fresh(registry) && registry.Valid() && registry.inner == map[]
      ensures approvals == 0 && broadcasts == [] && audit == [] && trace == []
    {
      this.policy := policy;
      registry := new PendingApprovalRegistry();
      approvals, broadcasts, audit, trace := 0, [], [], [];
    }

    method NextApprovalId() returns (id: string)
      modifies this`approvals
      ensures approvals == old(approvals) + 1 && id == IdOf(old(approvals))
      ensures |id| >= 4 && id[..4] == "apr_" && Ids.Decode(id[4..], 10) == approvals
      ensures approvals < 1_000_000 ==> |id| == 10
    {
      hide Ids.CounterId;
      Ids.CounterForm("apr_", approvals + 1);
      approvals := approvals + 1;
      id := IdOf(approvals - 1);
    }

    method Broadcast(f: Frame)
      modifies this`broadcasts, this`trace
      ensures broadcasts == old(broadcasts) + [f] && trace == old(trace) + [FrameMark(f)]
    {
      broadcasts := broadcasts + [f];
      trace := trace + [FrameMark(f)];
    }

    method Note(kind: AuditKind, result: AuditResult, source: AuditSource)
      modifies this`audit, this`trace
      ensures audit == old(audit) + [Entry(kind, result, source)]
      ensures trace == old(trace) + [EntryMark(Entry(kind, result, source))]
    {
      audit := audit + [Entry(kind, result, source)];
      trace := trace + [EntryMark(Entry(kind, result, source))];
    }

    /** `out.extend`: frames join the response. */
    method Extend(out: seq<Frame>, frames: seq<Frame>) returns (extended: seq<Frame>)
      modifies this`trace
      ensures extended == out + frames && trace == old(trace) + Marked(frames)
    {
      extended := out + frames;
      trace := trace + Marked(frames);
    }

    /** `InteractionExecutor::run_approved`, where the backend answers `ok`.  Its frames are not
        shown before the caller passes them on. */
    method RunApproved(ok: bool) returns (out: seq<Frame>)
      modifies this`trace
      ensures out == RunFrames(Acting, ok) && trace == old(trace) + [EffectMark]
    {
      out := [Started];
      out := out + [Step];
      out := out + [Step];
      trace := trace + [EffectMark];
      if ok {
        out := out + [Verification];
        out := out + [Completed];
      } else {
        out := out + [Failed];
      }
    }

    /** The audit entry of one frame, if it is a lifecycle frame. */
    method NoteLifecycle(f: Frame)
      modifies this`audit, this`trace
      ensures audit == old(audit) + LifecycleEntry(f) && trace == old(trace) + Entered(LifecycleEntry(f))
    {
      hide Entered;
      EnteredOne(f);
      match f {
        case Started => Note(ActionStarted, NoResult, FromCore);
        case Completed => Note(ActionCompleted, ResultCompleted, FromCore);
        case Failed => Note(ActionFailed, ResultFailed, FromCore);
        case CancelledFrame => Note(ActionCancelled, ResultCancelled, FromCore);
        case _ =>
      }
    }

    /** One audit entry per lifecycle frame of the executor, in order. */
    method RecordInteractionLifecycleAudit(messages: seq<Frame>)
      modifies this`audit, this`trace
      ensures audit == old(audit) + Flat(LifecycleEntries(), messages)
      ensures trace == old(trace) + Entered(Flat(LifecycleEntries(), messages))
    {
      hide Entered, LifecycleEntry;
      var k := 0;
      NothingEntered();
      assert messages[..0] == [];
      while k < |messages|
        invariant 0 <= k <= |messages|
        invariant audit == old(audit) + Flat(LifecycleEntries(), messages[..k])
        invariant trace == old(trace) + Entered(Flat(LifecycleEntries(), messages[..k]))
      {
        EntriesSnoc(messages, k);
        NoteLifecycle(messages[k]);
        k := k + 1;
      }
      assert messages[..k] == messages;
    }

    /** Run, then audit, before anything of it is shown. */
    method RunAndAudit(ok: bool) returns (events: seq<Frame>)
      modifies this`audit, this`trace
      ensures events == RunFrames(Acting, ok)
      ensures audit == old(audit) + [Entry(ActionStarted, NoResult, FromCore), LastEntry(ok)]
      ensures trace == old(trace)
        + [EffectMark, EntryMark(Entry(ActionStarted, NoResult, FromCore)), EntryMark(LastEntry(ok))]
    {
      events := RunApproved(ok);
      RecordInteractionLifecycleAudit(events);
      RunLifecycle(ok);
      EnteredRun(ok);
    }

    method BroadcastAll(messages: seq<Frame>)
      modifies this`broadcasts, this`trace
      ensures broadcasts == old(broadcasts) + messages && trace == old(trace) + Marked(messages)
    {
      var k := 0;
      while k < |messages|
        invariant 0 <= k <= |messages|
        invariant broadcasts == old(broadcasts) + messages[..k]
        invariant trace == old(trace) + Marked(messages[..k])
      {
        Broadcast(messages[k]);
        k := k + 1;
      }
    }

    /** How every action opens: the command is audited, the plan shown, the plan audited. */
    method Announce() returns (out: seq<Frame>)
      modifies this`audit, this`trace
      ensures out == [Planned] && trace == old(trace) + FirstMarks()
      ensures audit == old(audit)
        + [Entry(IpcCommandReceived, NoResult, FromUi), Entry(ActionPlanned, NoResult, FromCore)]
    {
      Note(IpcCommandReceived, NoResult, FromUi);
      out := Extend([], [Planned]);
      Note(ActionPlanned, NoResult, FromCore);
      MarkedFew(Planned, Planned);
    }

    method EmitCapabilityGuardDenied() returns (messages: seq<Frame>)
      modifies this`audit, this`trace
      ensures messages == [Started, Failed]
      ensures audit == old(audit) + [Entry(ActionFailed, ResultGuardDenied, FromCore)]
      ensures trace == old(trace) + [EntryMark(Entry(ActionFailed, ResultGuardDenied, FromCore))]
    {
      messages := [Started, Failed];
      Note(ActionFailed, ResultGuardDenied, FromCore);
    }

    method RefuseByPolicy(out: seq<Frame>) returns (extended: seq<Frame>)
      modifies this`audit, this`trace
      ensures extended == out + [Started, Failed]
      ensures audit == old(audit) + [Entry(ActionFailed, ResultFailed, FromCore)]
      ensures trace == old(trace)
        + [FrameMark(Started), FrameMark(Failed), EntryMark(Entry(ActionFailed, ResultFailed, FromCore))]
    {
      extended := Extend(out, [Started, Failed]);
      Note(ActionFailed, ResultFailed, FromCore);
      MarkedFew(Started, Failed);
    }

    /** Without a gate the action runs at once, and its frames join the response. */
    method RunInline(out: seq<Frame>, ok: bool) returns (extended: seq<Frame>)
      modifies this`audit, this`trace
      ensures extended == out + RunFrames(Acting, ok)
      ensures audit == old(audit) + [Entry(ActionStarted, NoResult, FromCore), LastEntry(ok)]
      ensures trace == old(trace) + RunMarks(ok)
    {
      hide RunMarks, RunFrames, Marked, LastEntry;
      ghost var before := trace;
      var events := RunAndAudit(ok);
      extended := Extend(out, events);
      RunInOrder(before, ok);
    }

    /** `dispatch_interaction`: what it answers and audits is its script's response and entries, and
        it registers an approval exactly when the request is gated. */
    method DispatchInteraction(kind: InteractionKind, requiresConfirmation: bool, ok: bool)
      returns (out: seq<Frame>, waiter: Option<(string, Oneshot)>)
      requires registry.Valid()
      modifies this, registry, registry.inner.Values
      ensures var p := PlanOf(Interaction(kind, requiresConfirmation), policy);
        var ops := if p.gate == Direct then FullScript(p, Outcome(Denied, User), ok) else Head(p);
        && out == ResponseOf(ops) && audit == old(audit) + AuditOps(ops) && trace == old(trace) + MarksOf(ops)
        && (waiter.Some? <==> p.gate == Gated)
      ensures var permitted := policy.enabled
          && ((kind == OpenApplication && policy.allowOpenApplication) || (kind == FocusWindow && policy.allowFocusWindow));
        && (waiter.Some? <==> permitted && requiresConfirmation && policy.requireConfirmation)
        && out == [Planned]
             + (if !permitted then [Started, Failed]
                else if waiter.Some? then [Requested]
                else if ok then [Started, Step, Step, Verification, Completed]
                else [Started, Step, Step, Failed])
        && audit == old(audit) + [Entry(IpcCommandReceived, NoResult, FromUi), Entry(ActionPlanned, NoResult, FromCore)]
             + (if kind != OpenApplication && kind != FocusWindow then [Entry(ActionFailed, ResultGuardDenied, FromCore)]
                else if !permitted then [Entry(ActionFailed, ResultFailed, FromCore)]
                else if waiter.Some? then [Entry(ApprovalRequested, NoResult, FromCore)]
                else [Entry(ActionStarted, NoResult, FromCore),
                      if ok then Entry(ActionCompleted, ResultCompleted, FromCore)
                      else Entry(ActionFailed, ResultFailed, FromCore)])
      ensures registry.Valid() && broadcasts == old(broadcasts)
      ensures waiter.None? ==> registry.inner == old(registry.inner) && approvals == old(approvals)
      ensures waiter.Some? ==> waiter.value.0 == IdOf(old(approvals)) && approvals == old(approvals) + 1
      ensures waiter.Some? ==> registry.inner == old(registry.inner)[waiter.value.0 := waiter.value.1]
      ensures waiter.Some? ==> fresh(waiter.value.1) && waiter.value.1.Pending() && !waiter.value.1.receiverDropped
    {
      hide GuardCapability, GuardInteraction, PolicyAllows, IdOf, Head, FullScript, Marked, MarksOf, RunFrames, RunMarks;
      hide WireOf, AuditOps, ResponseOf, HeadFrames, HeadEntries;
      ghost var p := PlanOf(Interaction(kind, requiresConfirmation), policy);
      DispatchMarks(p, ok);
      DispatchSpelled(policy, kind, requiresConfirmation, ok);
      RunFramesAre(ok);
      GuardInteractionExact(kind);
      if GuardInteraction(kind).Allow? { PolicyExactly(policy, kind); }
      waiter := None;
      out := Announce();
      if GuardInteraction(kind).Deny? {
        var denied := EmitCapabilityGuardDenied();
        out := Extend(out, denied);
        MarkedFew(Started, Failed);
        return;
      }
      if !PolicyAllows(policy, kind) {
        out := RefuseByPolicy(out);
        return;
      }
      if !(requiresConfirmation && policy.requireConfirmation) {
        out := RunInline(out, ok);
        return;
      }
      var asked;
      out, asked := AskApproval(out);
      waiter := Some(asked);
    }

    /** How every gated action goes on: an id is drawn, its sender registered, the request shown and
        audited. */
    method AskApproval(out: seq<Frame>) returns (extended: seq<Frame>, asked: (string, Oneshot))
      requires registry.Valid()
      modifies this`approvals, this`audit, this`trace, registry, registry.inner.Values
      ensures extended == out + [Requested] && audit == old(audit) + [Entry(ApprovalRequested, NoResult, FromCore)]
      ensures trace == old(trace) + [FrameMark(Requested), EntryMark(Entry(ApprovalRequested, NoResult, FromCore))]
      ensures registry.Valid() && asked.0 == IdOf(old(approvals)) && approvals == old(approvals) + 1
      ensures registry.inner == old(registry.inner)[asked.0 := asked.1]
      ensures fresh(asked.1) && asked.1.Pending() && !asked.1.receiverDropped
    {
      hide IdOf, Marked;
      var id := NextApprovalId();
      var rx := registry.Register(id);
      extended := Extend(out, [Requested]);
      Note(ApprovalRequested, NoResult, FromCore);
      MarkedFew(Requested, Requested);
      asked := (id, rx);
    }

    /** The timed wait is over: its receiver is gone, and the timeout arm takes the id back. */
    method EndWait(id: string, rx: Oneshot, o: Outcome)
      requires registry.Valid()
      modifies registry, rx
      ensures registry.inner == if o.source == Timeout then old(registry.inner) - {id} else old(registry.inner)
      ensures rx.receiverDropped && rx.value == old(rx.value)
    {
      rx.receiverDropped := true;
      if o.source == Timeout {
        var _ := registry.Take(id);
      }
    }

    /** The resolution is shown and audited. */
    method ShowResolution(style: Style, o: Outcome)
      modifies this`broadcasts, this`audit, this`trace
      ensures broadcasts == old(broadcasts) + [Resolved(o)]
      ensures audit == old(audit) + [Entry(ApprovalResolved, ResolvedResult(style, o.decision), FromOutcome(o.source))]
      ensures trace == old(trace)
        + [FrameMark(Resolved(o)), EntryMark(Entry(ApprovalResolved, ResolvedResult(style, o.decision), FromOutcome(o.source)))]
    {
      hide ResolvedResult;
      Broadcast(Resolved(o));
      Note(ApprovalResolved, ResolvedResult(style, o.decision), FromOutcome(o.source));
    }

    /** `await_and_continue` from the answer of its timed wait on.  Where the wait timed out, the
        receiver is gone and the id leaves the registry. */
    method AwaitAndContinue(id: string, rx: Oneshot, o: Outcome, ok: bool)
      requires registry.Valid()
      requires o.source == Timeout <==> o.decision == TimedOut
      modifies this, registry, rx
      ensures var ops := Settle(Acting, o) + (if o.decision == Approved then [Ran(ok)] + Finish(Acting, true, ok) else []);
        && broadcasts == old(broadcasts) + WireOf(ops)
        && audit == old(audit) + AuditOps(ops)
        && trace == old(trace) + MarksOf(ops)
      ensures broadcasts == old(broadcasts) + [Resolved(o)]
        + (if o.decision != Approved then [CancelledFrame]
           else if ok then [Started, Step, Step, Verification, Completed]
           else [Started, Step, Step, Failed])
      ensures var from := FromOutcome(o.source);
        audit == old(audit)
          + match o.decision
            case Approved =>
              [Entry(ApprovalResolved, ResultApproved, from), Entry(ActionStarted, NoResult, FromCore),
               if ok then Entry(ActionCompleted, ResultCompleted, FromCore) else Entry(ActionFailed, ResultFailed, FromCore)]
            case Denied => [Entry(ApprovalResolved, ResultDenied, from), Entry(ActionCancelled, ResultDenied, from)]
            case Cancelled => [Entry(ApprovalResolved, ResultCancelled, from), Entry(ActionCancelled, ResultCancelled, from)]
            case TimedOut => [Entry(ApprovalResolved, ResultExpired, from), Entry(ActionCancelled, ResultExpired, from)]
      ensures registry.inner == if o.source == Timeout then old(registry.inner) - {id} else old(registry.inner)
      ensures rx.receiverDropped && rx.value == old(rx.value)
    {
      hide Settle, Finish, Marked, MarksOf, RunFrames, RunMarks, WireOf, AuditOps, ResolvedResult, CancelResult, LastEntry;
      EndWait(id, rx, o);
      ContinueSpelled(o, ok);
      ContinueScript(o, ok);
      ContinueMarks(o, ok);
      ShowResolution(Acting, o);
      if o.decision == Approved {
        ghost var before := trace;
        var msgs := RunAndAudit(ok);
        BroadcastAll(msgs);
        RunInOrder(before, ok);
      } else {
        Broadcast(CancelledFrame);
        Note(ActionCancelled, CancelResult(o.decision), FromOutcome(o.source));
      }
    }

    /** `request_approval_demo`; under any policy the guard lets it through. */
    method RequestApprovalDemo() returns (out: seq<Frame>, waiter: Option<(string, Oneshot)>)
      requires registry.Valid()
      modifies this, registry, registry.inner.Values
      ensures registry.Valid() && broadcasts == old(broadcasts) && audit == old(audit)
      ensures trace == old(trace) + MarksOf(Head(PlanOf(ApprovalDemo, policy)))
      ensures out == ResponseOf(Head(PlanOf(ApprovalDemo, policy))) == [Requested]
      ensures waiter.Some? && waiter.value.0 == IdOf(old(approvals)) && approvals == old(approvals) + 1
      ensures registry.inner == old(registry.inner)[waiter.value.0 := waiter.value.1] && fresh(waiter.value.1)
    {
      hide GuardCapability;
      ExecutableIdAllowed(2);
      HeadResponse(PlanOf(ApprovalDemo, policy));
      AskMarks();
      if GuardCapability(Some(ASSISTANT_PLAN_DEMO_ACTION)).Deny? {
        return [ErrorFrame], None;
      }
      var id := NextApprovalId();
      var rx := registry.Register(id);
      out := Extend([], [Requested]);
      MarkedFew(Requested, Requested);
      waiter := Some((id, rx));
    }

    /** `await_and_resolve_demo` from the answer of its timed wait on. */
    method AwaitAndResolveDemo(id: string, rx: Oneshot, o: Outcome)
      requires registry.Valid()
      requires o.source == Timeout <==> o.decision == TimedOut
      modifies this`broadcasts, this`trace, registry, rx
      ensures broadcasts == old(broadcasts) + WireOf(Settle(Asking, o)) == old(broadcasts) + [Resolved(o)]
      ensures trace == old(trace) + MarksOf(Settle(Asking, o))
      ensures registry.inner == if o.source == Timeout then old(registry.inner) - {id} else old(registry.inner)
      ensures rx.receiverDropped && rx.value == old(rx.value)
    {
      EndWait(id, rx, o);
      SettleWire(Asking, o);
      SettleMarks(Asking, o);
      Broadcast(Resolved(o));
    }

    /** `plan_demo_action` up to the hand-off.  The refusal branch is there in the source and here;
        no kind string ever takes it. */
    method PlanDemoAction(kind: string, requiresApproval: bool)
      returns (out: seq<Frame>, plan: DemoPlan, waiter: Option<(string, Oneshot)>)
      requires registry.Valid()
      modifies this, registry, registry.inner.Values
      ensures var p := PlanOf(Flow.DemoPlan(SanitizeKind(kind), requiresApproval), policy);
        && out == ResponseOf(Head(p)) && audit == old(audit) + AuditOps(Head(p)) && trace == old(trace) + MarksOf(Head(p))
        && (waiter.Some? <==> p.gate == Gated)
      ensures waiter.Some? <==> requiresApproval
      ensures out == if requiresApproval then [Planned, Requested] else [Planned]
      ensures audit == old(audit) + [Entry(IpcCommandReceived, NoResult, FromUi), Entry(ActionPlanned, NoResult, FromCore)]
        + (if requiresApproval then [Entry(ApprovalRequested, NoResult, FromCore)] else [])
      ensures fresh(plan) && plan.status == StatusPlanned && plan.kind == SanitizeKind(kind)
      ensures registry.Valid() && broadcasts == old(broadcasts)
      ensures waiter.None? ==> registry.inner == old(registry.inner)
      ensures waiter.Some? ==> waiter.value.0 == IdOf(old(approvals)) && fresh(waiter.value.1)
      ensures waiter.Some? ==> registry.inner == old(registry.inner)[waiter.value.0 := waiter.value.1]
    {
      hide GuardCapability, GuardDemo, SanitizeKind, IdOf, Head, Marked, MarksOf, WireOf, AuditOps, ResponseOf;
      plan := new DemoPlan(kind, requiresApproval);
      ghost var p := PlanOf(Flow.DemoPlan(plan.kind, requiresApproval), policy);
      DispatchScript(p, true);
      HeadMarksAre(p);
      waiter := None;
      if GuardDemo(plan.kind).Deny? {
        Note(ActionFailed, ResultGuardDenied, FromCore);
        out := Extend([], [Failed]);
        MarkedFew(Failed, Failed);
        GuardDemoAllows(plan.kind);
        return;
      }
      out := Announce();
      if requiresApproval {
        var asked;
        out, asked := AskApproval(out);
        waiter := Some(asked);
      }
    }

    /** The demo planner's only effect: at most a short pause. */
    method MockStep()
      modifies this`trace
      ensures trace == old(trace) + [EffectMark]
    {
      trace := trace + [EffectMark];
    }

    /** `execute_demo_plan`: a plan that has already ended is not run a second time. */
    method ExecuteDemoPlan(plan: DemoPlan)
      modifies this, plan
      ensures old(plan.status.IsTerminal()) ==>
        broadcasts == old(broadcasts) && audit == old(audit) && trace == old(trace) && plan.status == old(plan.status)
      ensures !old(plan.status.IsTerminal()) ==>
        && plan.status == StatusCompleted
        && broadcasts == old(broadcasts) + WireOf(BeforeRun(Demo)) + WireOf(Finish(Demo, true, true))
        && audit == old(audit) + AuditOps(BeforeRun(Demo)) + AuditOps(Finish(Demo, true, true))
        && trace == old(trace) + MarksOf(BeforeRun(Demo) + [Ran(true)] + Finish(Demo, true, true))
      ensures old(plan.status) !in ENDED ==>
        && plan.status == StatusCompleted && broadcasts == old(broadcasts) + [Started, Step, Completed]
        && audit == old(audit) + [Entry(ActionStarted, NoResult, FromCore), Entry(ActionCompleted, ResultCompleted, FromCore)]
      ensures approvals == old(approvals)
    {
      if plan.status.IsTerminal() { return; }
      DemoScript();
      DemoMarks();
      var _ := plan.SetStatus(StatusRunning);
      Broadcast(Started);
      Note(ActionStarted, NoResult, FromCore);
      Broadcast(Step);
      MockStep();
      var _ := plan.SetStatus(StatusCompleted);
      Broadcast(Completed);
      Note(ActionCompleted, ResultCompleted, FromCore);
    }

    /** `await_and_execute_demo_plan` from the answer of its timed wait on. */
    method AwaitAndExecuteDemoPlan(plan: DemoPlan, id: string, rx: Oneshot, o: Outcome)
      requires registry.Valid() && plan.status == StatusPlanned
      requires o.source == Timeout <==> o.decision == TimedOut
      modifies this, registry, rx, plan
      ensures var ops := Settle(Demo, o)
          + (if o.decision == Approved then BeforeRun(Demo) + [Ran(true)] + Finish(Demo, true, true) else []);
        && broadcasts == old(broadcasts) + WireOf(ops)
        && audit == old(audit) + AuditOps(ops)
        && trace == old(trace) + MarksOf(ops)
      ensures broadcasts == old(broadcasts) + [Resolved(o)]
        + (if o.decision == Approved then [Started, Step, Completed] else [CancelledFrame])
      ensures var from := FromOutcome(o.source);
        audit == old(audit)
          + match o.decision
            case Approved =>
              [Entry(ApprovalResolved, ResultApproved, from), Entry(ActionStarted, NoResult, FromCore),
               Entry(ActionCompleted, ResultCompleted, FromCore)]
            case Denied => [Entry(ApprovalResolved, ResultDenied, from), Entry(ActionCancelled, ResultDenied, from)]
            case Cancelled => [Entry(ApprovalResolved, ResultCancelled, from), Entry(ActionCancelled, ResultCancelled, from)]
            // The decision's own name, which is not in the store's vocabulary.
            case TimedOut => [Entry(ApprovalResolved, RawTimedOut, from), Entry(ActionCancelled, ResultExpired, from)]
      ensures registry.inner == if o.source == Timeout then old(registry.inner) - {id} else old(registry.inner)
      ensures plan.status == match o.decision
        case Approved => StatusCompleted
        case TimedOut => StatusExpired
        case _ => StatusDenied
    {
      hide Settle, Finish, BeforeRun, AuditOps, WireOf, MarksOf, ResolvedResult, CancelResult;
      var _ := plan.SetStatus(StatusWaitingApproval);
      EndWait(id, rx, o);
      DemoContinueScript(o);
      DemoSpelled(o);
      DemoContinueMarks(o);
      ShowResolution(Demo, o);
      if o.decision == Approved {
        var _ := plan.SetStatus(StatusApproved);
        ExecuteDemoPlan(plan);
      } else {
        CancelDemoPlan(plan, o);
      }
    }

    /** The arms of a demo plan that is not approved. */
    method CancelDemoPlan(plan: DemoPlan, o: Outcome)
      requires !plan.status.IsTerminal() && o.decision != Approved
      modifies this`broadcasts, this`audit, this`trace, plan
      ensures broadcasts == old(broadcasts) + [CancelledFrame]
      ensures audit == old(audit) + [Entry(ActionCancelled, CancelResult(o.decision), FromOutcome(o.source))]
      ensures trace == old(trace)
        + [FrameMark(CancelledFrame), EntryMark(Entry(ActionCancelled, CancelResult(o.decision), FromOutcome(o.source)))]
      ensures plan.status == if o.decision == TimedOut then StatusExpired else StatusDenied
    {
      hide CancelResult;
      var _ := plan.SetStatus(if o.decision == TimedOut then StatusExpired else StatusDenied);
      Broadcast(CancelledFrame);
      Note(ActionCancelled, CancelResult(o.decision), FromOutcome(o.source));
    }
  }

  /** The flags of the policy, for the kinds the guard lets through. */
  lemma PolicyExactly(policy: Policy, kind: InteractionKind)
    requires kind == OpenApplication || kind == FocusWindow
    ensures PolicyAllows(policy, kind) <==>
      policy.enabled
      && ((kind == OpenApplication && policy.allowOpenApplication) || (kind == FocusWindow && policy.allowFocusWindow))
  {
  }

  lemma RunFramesAre(ok: bool)
    ensures RunFrames(Acting, ok) ==
      if ok then [Started, Step, Step, Verification, Completed] else [Started, Step, Step, Failed]
  {
  }

  /** Response and entries of an interaction's handler, spelled out. */
  lemma DispatchSpelled(policy: Policy, kind: InteractionKind, confirm: bool, ok: bool)
    ensures var p := PlanOf(Interaction(kind, confirm), policy);
      var ops := if p.gate == Direct then FullScript(p, Outcome(Denied, User), ok) else Head(p);
      var permitted := policy.enabled
        && ((kind == OpenApplication && policy.allowOpenApplication) || (kind == FocusWindow && policy.allowFocusWindow));
      && (p.gate == Gated <==> permitted && confirm && policy.requireConfirmation)
      && ResponseOf(ops) == [Planned]
           + (if !permitted then [Started, Failed]
              else if p.gate == Gated then [Requested]
              else if ok then [Started, Step, Step, Verification, Completed]
              else [Started, Step, Step, Failed])
      && AuditOps(ops) == [Entry(IpcCommandReceived, NoResult, FromUi), Entry(ActionPlanned, NoResult, FromCore)]
           + (if kind != OpenApplication && kind != FocusWindow then [Entry(ActionFailed, ResultGuardDenied, FromCore)]
              else if !permitted then [Entry(ActionFailed, ResultFailed, FromCore)]
              else if p.gate == Gated then [Entry(ApprovalRequested, NoResult, FromCore)]
              else [Entry(ActionStarted, NoResult, FromCore),
                    if ok then Entry(ActionCompleted, ResultCompleted, FromCore)
                    else Entry(ActionFailed, ResultFailed, FromCore)])
  {
    hide GuardCapability, Head, FullScript, ResponseOf, AuditOps, PolicyAllows, GuardInteraction;
    var p := PlanOf(Interaction(kind, confirm), policy);
    GuardInteractionExact(kind);
    if kind == OpenApplication || kind == FocusWindow { PolicyExactly(policy, kind); }
    DispatchScript(p, ok);
  }

  // ----- the scripts, read out --------------------------------------------------------------

  lemma RunLifecycle(ok: bool)
    ensures Flat(LifecycleEntries(), RunFrames(Acting, ok)) == [Entry(ActionStarted, NoResult, FromCore), LastEntry(ok)]
  {
    Flat5(LifecycleEntries(), Started, Step, Step, Verification, Completed);
    Flat4(LifecycleEntries(), Started, Step, Step, Failed);
  }

  /** The entries of the part of a script before any answer. */
  function HeadEntries(p: Plan): seq<Entry> {
    if p.style == Demo && p.gate == Refused then [Entry(ActionFailed, ResultGuardDenied, FromCore)]
    else
      [Entry(IpcCommandReceived, NoResult, FromUi), Entry(ActionPlanned, NoResult, FromCore)]
      + (match p.gate
         case Refused => [Entry(ActionFailed, if p.guardDenied then ResultGuardDenied else ResultFailed, FromCore)]
         case Direct => []
         case Gated => [Entry(ApprovalRequested, NoResult, FromCore)])
  }

  lemma HeadTrail(p: Plan)
    requires p.Valid() && p.style != Asking
    ensures AuditOps(Head(p)) == HeadEntries(p)
  {
    HeadFlat(p, OpEntries());
  }

  lemma FinishResponse(ok: bool)
    ensures ResponseOf(Finish(Acting, false, ok)) == RunFrames(Acting, ok)
  {
    FinishFlat(Acting, false, ok, OpPushes());
  }

  /** Response and entries of a handler. */
  lemma DispatchScript(p: Plan, ok: bool)
    requires p.Valid() && p.style != Asking
    ensures ResponseOf(Head(p)) == HeadFrames(p) && AuditOps(Head(p)) == HeadEntries(p)
    ensures p.gate == Direct && p.style == Acting ==>
      && ResponseOf(FullScript(p, Outcome(Denied, User), ok)) == HeadFrames(p) + RunFrames(Acting, ok)
      && AuditOps(FullScript(p, Outcome(Denied, User), ok))
         == HeadEntries(p) + [Entry(ActionStarted, NoResult, FromCore), LastEntry(ok)]
  {
    HeadResponse(p);
    HeadTrail(p);
    if p.gate == Direct && p.style == Acting { DirectScript(p, ok); }
  }

  lemma DirectScript(p: Plan, ok: bool)
    requires p.Valid() && p.style == Acting && p.gate == Direct
    requires ResponseOf(Head(p)) == HeadFrames(p) && AuditOps(Head(p)) == HeadEntries(p)
    ensures ResponseOf(FullScript(p, Outcome(Denied, User), ok)) == HeadFrames(p) + RunFrames(Acting, ok)
    ensures AuditOps(FullScript(p, Outcome(Denied, User), ok))
         == HeadEntries(p) + [Entry(ActionStarted, NoResult, FromCore), LastEntry(ok)]
  {
    hide Head, Settle, Finish, HeadFrames, HeadEntries, FullScript;
    var o := Outcome(Denied, User);
    var run := [Entry(ActionStarted, NoResult, FromCore), LastEntry(ok)];
    FinishResponse(ok);
    FinishTrail(false, ok);
    assert ResponseOf(BeforeRun(Acting)) + RunFrames(Acting, ok) == RunFrames(Acting, ok);
    assert AuditOps(BeforeRun(Acting)) + run == run;
    FullParts(p, o, ok, OpPushes(), HeadFrames(p), ResponseOf(Settle(Acting, o)), RunFrames(Acting, ok));
    FullParts(p, o, ok, OpEntries(), HeadEntries(p), AuditOps(Settle(Acting, o)), run);
    assert HeadFrames(p) + [] == HeadFrames(p) && HeadEntries(p) + [] == HeadEntries(p);
  }

  lemma SettleTrail(style: Style, o: Outcome)
    requires style != Asking
    ensures AuditOps(Settle(style, o)) ==
      [Entry(ApprovalResolved, ResolvedResult(style, o.decision), FromOutcome(o.source))]
      + (if o.decision == Approved then [] else [Entry(ActionCancelled, CancelResult(o.decision), FromOutcome(o.source))])
  {
    SettleFlat(style, o, OpEntries());
  }

  /** Broadcasts and entries of an interaction's task. */
  lemma ContinueScript(o: Outcome, ok: bool)
    ensures var ops := Settle(Acting, o) + (if o.decision == Approved then [Ran(ok)] + Finish(Acting, true, ok) else []);
      && WireOf(ops) == SettleFrames(Acting, o) + (if o.decision == Approved then RunFrames(Acting, ok) else [])
      && AuditOps(ops) ==
         [Entry(ApprovalResolved, ResolvedResult(Acting, o.decision), FromOutcome(o.source))]
         + (if o.decision == Approved then [Entry(ActionStarted, NoResult, FromCore), LastEntry(ok)]
            else [Entry(ActionCancelled, CancelResult(o.decision), FromOutcome(o.source))])
  {
    hide Settle, Finish;
    var more := if o.decision == Approved then [Ran(ok)] + Finish(Acting, true, ok) else [];
    FlatConcat(OpFrames(), Settle(Acting, o), more);
    FlatConcat(OpEntries(), Settle(Acting, o), more);
    SkipRan(ok, Finish(Acting, true, ok));
    SettleWire(Acting, o);
    SettleTrail(Acting, o);
    ActionRunWire(Acting, true, ok);
    FinishTrail(true, ok);
  }

  /** The same, spelled out. */
  lemma ContinueSpelled(o: Outcome, ok: bool)
    ensures var ops := Settle(Acting, o) + (if o.decision == Approved then [Ran(ok)] + Finish(Acting, true, ok) else []);
      var from := FromOutcome(o.source);
      && WireOf(ops) == [Resolved(o)]
           + (if o.decision != Approved then [CancelledFrame]
              else if ok then [Started, Step, Step, Verification, Completed]
              else [Started, Step, Step, Failed])
      && AuditOps(ops) ==
           match o.decision
           case Approved =>
             [Entry(ApprovalResolved, ResultApproved, from), Entry(ActionStarted, NoResult, FromCore),
              if ok then Entry(ActionCompleted, ResultCompleted, FromCore) else Entry(ActionFailed, ResultFailed, FromCore)]
           case Denied => [Entry(ApprovalResolved, ResultDenied, from), Entry(ActionCancelled, ResultDenied, from)]
           case Cancelled => [Entry(ApprovalResolved, ResultCancelled, from), Entry(ActionCancelled, ResultCancelled, from)]
           case TimedOut => [Entry(ApprovalResolved, ResultExpired, from), Entry(ActionCancelled, ResultExpired, from)]
  {
    hide Settle, Finish, WireOf, AuditOps;
    ContinueScript(o, ok);
  }

  /** The backend call shows in the trace only. */
  lemma SkipRan(ok: bool, ops: seq<Op>)
    ensures WireOf([Ran(ok)] + ops) == WireOf(ops) && AuditOps([Ran(ok)] + ops) == AuditOps(ops)
    ensures MarksOf([Ran(ok)] + ops) == [EffectMark] + MarksOf(ops)
  {
    FlatConcat(OpFrames(), [Ran(ok)], ops);
    FlatConcat(OpEntries(), [Ran(ok)], ops);
    FlatConcat(OpMarks(), [Ran(ok)], ops);
    Flat1(OpFrames(), Ran(ok));
    Flat1(OpEntries(), Ran(ok));
    Flat1(OpMarks(), Ran(ok));
  }

  lemma DemoScript()
    ensures WireOf(BeforeRun(Demo)) == [Started, Step] && WireOf(Finish(Demo, true, true)) == [Completed]
    ensures AuditOps(BeforeRun(Demo)) == [Entry(ActionStarted, NoResult, FromCore)]
    ensures AuditOps(Finish(Demo, true, true)) == [Entry(ActionCompleted, ResultCompleted, FromCore)]
  {
    BeforeFlat(Demo, OpFrames());
    BeforeFlat(Demo, OpEntries());
    FinishFlat(Demo, true, true, OpFrames());
    FinishFlat(Demo, true, true, OpEntries());
  }

  /** Broadcasts and entries of a demo plan's task. */
  lemma DemoContinueScript(o: Outcome)
    ensures var ops := Settle(Demo, o)
        + (if o.decision == Approved then BeforeRun(Demo) + [Ran(true)] + Finish(Demo, true, true) else []);
      && WireOf(ops) == SettleFrames(Demo, o)
         + (if o.decision == Approved then WireOf(BeforeRun(Demo)) + WireOf(Finish(Demo, true, true)) else [])
      && AuditOps(ops) ==
         [Entry(ApprovalResolved, ResolvedResult(Demo, o.decision), FromOutcome(o.source))]
         + (if o.decision == Approved then AuditOps(BeforeRun(Demo)) + AuditOps(Finish(Demo, true, true))
            else [Entry(ActionCancelled, CancelResult(o.decision), FromOutcome(o.source))])
  {
    hide Settle, Finish, BeforeRun;
    var b, e := BeforeRun(Demo), Finish(Demo, true, true);
    var more := if o.decision == Approved then b + [Ran(true)] + e else [];
    FlatConcat(OpFrames(), Settle(Demo, o), more);
    FlatConcat(OpEntries(), Settle(Demo, o), more);
    assert b + [Ran(true)] + e == b + ([Ran(true)] + e);
    FlatConcat(OpFrames(), b, [Ran(true)] + e);
    FlatConcat(OpEntries(), b, [Ran(true)] + e);
    SkipRan(true, e);
    SettleWire(Demo, o);
    SettleTrail(Demo, o);
  }

  /** The same, spelled out. */
  lemma DemoSpelled(o: Outcome)
    ensures var ops := Settle(Demo, o)
        + (if o.decision == Approved then BeforeRun(Demo) + [Ran(true)] + Finish(Demo, true, true) else []);
      var from := FromOutcome(o.source);
      && WireOf(ops) == [Resolved(o)] + (if o.decision == Approved then [Started, Step, Completed] else [CancelledFrame])
      && AuditOps(ops) ==
           match o.decision
           case Approved =>
             [Entry(ApprovalResolved, ResultApproved, from), Entry(ActionStarted, NoResult, FromCore),
              Entry(ActionCompleted, ResultCompleted, FromCore)]
           case Denied => [Entry(ApprovalResolved, ResultDenied, from), Entry(ActionCancelled, ResultDenied, from)]
           case Cancelled => [Entry(ApprovalResolved, ResultCancelled, from), Entry(ActionCancelled, ResultCancelled, from)]
           case TimedOut => [Entry(ApprovalResolved, RawTimedOut, from), Entry(ActionCancelled, ResultExpired, from)]
  {
    hide Settle, Finish, BeforeRun, WireOf, AuditOps;
    DemoContinueScript(o);
    DemoScript();
  }

  // ----- the scripts, in order --------------------------------------------------------------

  /** What every action leaves in the trace first. */
  function FirstMarks(): seq<Mark> {
    [EntryMark(Entry(IpcCommandReceived, NoResult, FromUi)), FrameMark(Planned),
     EntryMark(Entry(ActionPlanned, NoResult, FromCore))]
  }

  /** What the part of a script before any answer leaves in the trace. */
  function HeadMarks(p: Plan): seq<Mark> {
    if p.style == Asking then (if p.gate == Refused then [FrameMark(ErrorFrame)] else [FrameMark(Requested)])
    else if p.style == Demo && p.gate == Refused then
      [EntryMark(Entry(ActionFailed, ResultGuardDenied, FromCore)), FrameMark(Failed)]
    else
      FirstMarks()
      + (match p.gate
         case Refused =>
           if p.guardDenied
           then [EntryMark(Entry(ActionFailed, ResultGuardDenied, FromCore)), FrameMark(Started), FrameMark(Failed)]
           else [FrameMark(Started), FrameMark(Failed), EntryMark(Entry(ActionFailed, ResultFailed, FromCore))]
         case Direct => []
         case Gated => [FrameMark(Requested), EntryMark(Entry(ApprovalRequested, NoResult, FromCore))])
  }

  lemma HeadMarksAre(p: Plan)
    requires p.Valid()
    ensures MarksOf(Head(p)) == HeadMarks(p)
  {
    HeadFlat(p, OpMarks());
  }

  lemma AskMarks()
    ensures MarksOf(Head(Plan(Asking, Gated, false))) == [FrameMark(Requested)]
  {
    HeadMarksAre(Plan(Asking, Gated, false));
  }

  /** What an executor run leaves in the trace: the call, then both entries, then all frames. */
  function RunMarks(ok: bool): seq<Mark> {
    [EffectMark, EntryMark(Entry(ActionStarted, NoResult, FromCore)), EntryMark(LastEntry(ok))]
    + Marked(RunFrames(Acting, ok))
  }

  lemma RunInOrder(before: seq<Mark>, ok: bool)
    ensures before + [EffectMark, EntryMark(Entry(ActionStarted, NoResult, FromCore)), EntryMark(LastEntry(ok))]
            + Marked(RunFrames(Acting, ok))
         == before + RunMarks(ok)
  {
    hide Marked, RunFrames;
  }

  lemma FinishMarks(gated: bool, ok: bool)
    ensures MarksOf([Ran(ok)] + Finish(Acting, gated, ok)) == RunMarks(ok)
  {
    hide MarksOf, Finish, Marked, WireOf, AuditOps;
    SkipRan(ok, Finish(Acting, gated, ok));
    ReportMarks(gated, ok);
    var notes := [EntryMark(Entry(ActionStarted, NoResult, FromCore)), EntryMark(LastEntry(ok))];
    assert [EffectMark] + (notes + Marked(RunFrames(Acting, ok))) == RunMarks(ok);
  }

  lemma MarkedRun(ok: bool)
    ensures Marked(RunFrames(Acting, ok)) ==
      [FrameMark(Started), FrameMark(Step), FrameMark(Step)]
      + (if ok then [FrameMark(Verification), FrameMark(Completed)] else [FrameMark(Failed)])
  {
  }

  lemma ReportMarks(gated: bool, ok: bool)
    ensures MarksOf(Finish(Acting, gated, ok)) ==
      [EntryMark(Entry(ActionStarted, NoResult, FromCore)), EntryMark(LastEntry(ok))] + Marked(RunFrames(Acting, ok))
  {
    hide Marked, RunFrames, Finish, LastEntry;
    FinishFlat(Acting, gated, ok, OpMarks());
    RunMarkPieces(ok);
    MarkedRun(ok);
  }

  /** The marks of a run's report, piece by piece, by either way. */
  lemma RunMarkPieces(ok: bool)
    ensures var f := OpMarks();
      && f(Record(Entry(ActionStarted, NoResult, FromCore))) + f(Record(LastEntry(ok)))
         == [EntryMark(Entry(ActionStarted, NoResult, FromCore)), EntryMark(LastEntry(ok))]
      && f(Cast(Started)) + f(Cast(Step)) + f(Cast(Step)) == [FrameMark(Started), FrameMark(Step), FrameMark(Step)]
      && f(Push(Started)) + f(Push(Step)) + f(Push(Step)) == [FrameMark(Started), FrameMark(Step), FrameMark(Step)]
      && f(Cast(Verification)) + f(Cast(Completed)) == [FrameMark(Verification), FrameMark(Completed)]
      && f(Push(Verification)) + f(Push(Completed)) + f(Handoff) == [FrameMark(Verification), FrameMark(Completed)]
      && f(Push(Failed)) + f(Handoff) == [FrameMark(Failed)] == f(Cast(Failed))
  {
    hide LastEntry;
  }

  lemma DispatchMarks(p: Plan, ok: bool)
    requires p.Valid() && p.style == Acting
    ensures MarksOf(Head(p)) == HeadMarks(p)
    ensures p.gate == Direct ==> MarksOf(FullScript(p, Outcome(Denied, User), ok)) == HeadMarks(p) + RunMarks(ok)
  {
    HeadMarksAre(p);
    if p.gate == Direct { DirectMarks(p, ok); }
  }

  lemma DirectMarks(p: Plan, ok: bool)
    requires p.Valid() && p.style == Acting && p.gate == Direct
    ensures MarksOf(FullScript(p, Outcome(Denied, User), ok)) == MarksOf(Head(p)) + RunMarks(ok)
  {
    hide Head, Finish, MarksOf;
    var o := Outcome(Denied, User);
    DirectShape(p, ok);
    FinishMarks(false, ok);
    MarksConcat(Head(p), [Ran(ok)] + Finish(Acting, false, ok));
  }

  lemma DirectShape(p: Plan, ok: bool)
    requires p.style == Acting && p.gate == Direct
    ensures FullScript(p, Outcome(Denied, User), ok) == Head(p) + ([Ran(ok)] + Finish(Acting, false, ok))
  {
    hide Head, Finish;
    assert LifecycleShape.BeforePart(p, None) == [] && WaitPart(p, None) == [];
  }

  lemma MarksConcat(a: seq<Op>, b: seq<Op>)
    ensures MarksOf(a + b) == MarksOf(a) + MarksOf(b)
  {
    FlatConcat(OpMarks(), a, b);
  }

  lemma SettleMarks(style: Style, o: Outcome)
    ensures MarksOf(Settle(style, o)) ==
      [FrameMark(Resolved(o))]
      + (if style == Asking then []
         else [EntryMark(Entry(ApprovalResolved, ResolvedResult(style, o.decision), FromOutcome(o.source)))]
              + (if o.decision == Approved then []
                 else [FrameMark(CancelledFrame),
                       EntryMark(Entry(ActionCancelled, CancelResult(o.decision), FromOutcome(o.source)))]))
  {
    SettleFlat(style, o, OpMarks());
  }

  lemma ContinueMarks(o: Outcome, ok: bool)
    ensures var ops := Settle(Acting, o) + (if o.decision == Approved then [Ran(ok)] + Finish(Acting, true, ok) else []);
      MarksOf(ops) == MarksOf(Settle(Acting, o)) + (if o.decision == Approved then RunMarks(ok) else [])
    ensures MarksOf(Settle(Acting, o)) ==
      [FrameMark(Resolved(o)), EntryMark(Entry(ApprovalResolved, ResolvedResult(Acting, o.decision), FromOutcome(o.source)))]
      + (if o.decision == Approved then []
         else [FrameMark(CancelledFrame), EntryMark(Entry(ActionCancelled, CancelResult(o.decision), FromOutcome(o.source)))])
  {
    hide Settle, Finish, RunMarks;
    MarksConcat(Settle(Acting, o), if o.decision == Approved then [Ran(ok)] + Finish(Acting, true, ok) else []);
    FinishMarks(true, ok);
    SettleMarks(Acting, o);
  }

  lemma DemoBeforeMarks()
    ensures MarksOf(BeforeRun(Demo)) ==
      [FrameMark(Started), EntryMark(Entry(ActionStarted, NoResult, FromCore)), FrameMark(Step)]
  {
    BeforeFlat(Demo, OpMarks());
  }

  lemma DemoFinishMarks()
    ensures MarksOf(Finish(Demo, true, true)) ==
      [FrameMark(Completed), EntryMark(Entry(ActionCompleted, ResultCompleted, FromCore))]
  {
    FinishFlat(Demo, true, true, OpMarks());
  }

  lemma DemoMarks()
    ensures MarksOf(BeforeRun(Demo) + [Ran(true)] + Finish(Demo, true, true)) ==
      [FrameMark(Started), EntryMark(Entry(ActionStarted, NoResult, FromCore)), FrameMark(Step), EffectMark,
       FrameMark(Completed), EntryMark(Entry(ActionCompleted, ResultCompleted, FromCore))]
  {
    hide Finish, BeforeRun, MarksOf, WireOf, AuditOps;
    var b, e := BeforeRun(Demo), Finish(Demo, true, true);
    assert b + [Ran(true)] + e == b + ([Ran(true)] + e);
    MarksConcat(b, [Ran(true)] + e);
    SkipRan(true, e);
    DemoBeforeMarks();
    DemoFinishMarks();
  }

  lemma DemoContinueMarks(o: Outcome)
    ensures var run := BeforeRun(Demo) + [Ran(true)] + Finish(Demo, true, true);
      MarksOf(Settle(Demo, o) + (if o.decision == Approved then run else []))
      == MarksOf(Settle(Demo, o)) + (if o.decision == Approved then MarksOf(run) else [])
    ensures MarksOf(Settle(Demo, o)) ==
      [FrameMark(Resolved(o)), EntryMark(Entry(ApprovalResolved, ResolvedResult(Demo, o.decision), FromOutcome(o.source)))]
      + (if o.decision == Approved then []
         else [FrameMark(CancelledFrame), EntryMark(Entry(ActionCancelled, CancelResult(o.decision), FromOutcome(o.source)))])
  {
    hide Settle, Finish, BeforeRun;
    MarksConcat(Settle(Demo, o), if o.decision == Approved then BeforeRun(Demo) + [Ran(true)] + Finish(Demo, true, true) else []);
    SettleMarks(Demo, o);
  }
}
