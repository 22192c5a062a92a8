/** The straight-line programs that one request runs: what `dispatch_interaction`,
    `plan_demo_action` and `request_approval_demo` do on the requesting connection, and what the
    task they spawn does afterwards.

    Every operation below is one atomic access to shared state.  A program branches in two
    places only, at the timed wait and at the backend call; `Script` is the program for given
    answers at these two places, cut off where an answer is still missing. */
module Lifecycle {
  import opened Common
  import opened Capabilities

  datatype Decision = Approved | Denied | Cancelled | TimedOut

  datatype Source = User | Timeout | System

  datatype Outcome = Outcome(decision: Decision, source: Source)

  datatype Flow =
    | Interaction(kind: InteractionKind, requiresConfirmation: bool)
    | DemoPlan(demoKind: string, requiresApproval: bool)
    | ApprovalDemo

  datatype Frame =
    | Planned
    | Requested
    | Resolved(outcome: Outcome)
    | Started
    | Step
    | Verification
    | Completed
    | Failed
    | CancelledFrame
    | ErrorFrame

  datatype AuditKind =
    | IpcCommandReceived
    | IpcCommandRejected
    | ActionPlanned
    | ApprovalRequested
    | ApprovalResolved
    | ActionStarted
    | ActionCompleted
    | ActionCancelled
    | ActionFailed

  /** The `result` strings callers hand to the audit store.  `RawTimedOut` is
      `ApprovalDecision::TimedOut.as_str()`, which only the demo planner passes on. */
  datatype AuditResult =
    | NoResult
    | ResultApproved
    | ResultDenied
    | ResultExpired
    | ResultCompleted
    | ResultFailed
    | ResultCancelled
    | ResultRejected
    | ResultGuardDenied
    | RawTimedOut

  datatype AuditSource = FromUi | FromCore | FromOutcome(source: Source)

  datatype Entry = Entry(kind: AuditKind, result: AuditResult, source: AuditSource)

  datatype Op =
    | DrawCorrelation          // generate_correlation_id
    | DrawApproval             // next_approval_id
    | Register                 // pending_approvals.register
    | Push(frame: Frame)       // out.push: answered on the requesting connection
    | Cast(frame: Frame)       // broadcast
    | Record(entry: Entry)     // audit.record
    | Handoff                  // return `out`, after tokio::spawn where there is one
    | Await                    // the timed wait, not answered yet
    | Awaited(outcome: Outcome)
    | Take                     // the timeout arm's own take
    | RunEffect                // the backend call, or the demo planner's mock step
    | Ran(ok: bool)

  datatype Gate = Refused | Direct | Gated

  datatype Style = Acting | Demo | Asking

  /** Which way a request goes once guard, policy and confirmation gate have been consulted. */
  datatype Plan = Plan(style: Style, gate: Gate, guardDenied: bool) {
    predicate Valid() {
      && (guardDenied ==> gate == Refused)
      && (style == Asking ==> gate != Direct)
    }
  }

  /** The capability id that goes into every audit entry of a request. */
  function CapabilityOf(flow: Flow): Option<string> {
    match flow
    case Interaction(kind, _) => CapabilityForInteraction(kind)
    case DemoPlan(kind, _) => Some(CapabilityForPlan(SanitizeKind(kind)))
    case ApprovalDemo => Some(ASSISTANT_PLAN_DEMO_ACTION)
  }

  /** Guard first, then policy, then the confirmation gate. */
  function PlanOf(flow: Flow, policy: Policy): (p: Plan)
    ensures p.Valid()
  {
    match flow
    case Interaction(kind, confirm) =>
      if GuardInteraction(kind).Deny? then Plan(Acting, Refused, true)
      else if !PolicyAllows(policy, kind) then Plan(Acting, Refused, false)
      else if confirm && policy.requireConfirmation then Plan(Acting, Gated, false)
      else Plan(Acting, Direct, false)
    case DemoPlan(kind, approval) =>
      if GuardDemo(kind).Deny? then Plan(Demo, Refused, true)
      else Plan(Demo, if approval then Gated else Direct, false)
    case ApprovalDemo =>
      if GuardCapability(Some(ASSISTANT_PLAN_DEMO_ACTION)).Deny? then Plan(Asking, Refused, true)
      else Plan(Asking, Gated, false)
  }

  /** Everything before the first missing answer. */
  function Head(p: Plan): seq<Op> {
    if p.style == Asking then
      if p.gate == Refused then [Push(ErrorFrame), Handoff]
      // The request frame is built before the waiter is spawned and returned after it.
      else [DrawApproval, DrawCorrelation, Register, Push(Requested), Handoff]
    else if p.style == Demo && p.gate == Refused then
      [DrawCorrelation, Record(Entry(ActionFailed, ResultGuardDenied, FromCore)), Push(Failed), Handoff]
    else
      [DrawCorrelation, Record(Entry(IpcCommandReceived, NoResult, FromUi)),
       Push(Planned), Record(Entry(ActionPlanned, NoResult, FromCore))]
      + (match p.gate
         case Refused =>
           if p.guardDenied
           then [Record(Entry(ActionFailed, ResultGuardDenied, FromCore)), Push(Started), Push(Failed), Handoff]
           else [Push(Started), Push(Failed), Record(Entry(ActionFailed, ResultFailed, FromCore)), Handoff]
         case Direct => if p.style == Demo then [Handoff] else []
         case Gated => [DrawApproval, Register, Push(Requested),
                        Record(Entry(ApprovalRequested, NoResult, FromCore)), Handoff])
  }

  /** `result` of the ApprovalResolved entry: the interaction path maps the decision onto the
      audit vocabulary, the demo planner passes the decision's own name. */
  function ResolvedResult(style: Style, d: Decision): AuditResult {
    match d
    case Approved => ResultApproved
    case Denied => ResultDenied
    case Cancelled => ResultCancelled
    case TimedOut => if style == Demo then RawTimedOut else ResultExpired
  }

  function CancelResult(d: Decision): AuditResult {
    match d
    case Denied => ResultDenied
    case Cancelled => ResultCancelled
    case _ => ResultExpired
  }

  /** From the answer of the timed wait up to the point where an approved action starts. */
  function Settle(style: Style, o: Outcome): seq<Op> {
    (if o.source == Timeout then [Take] else [])
    + [Cast(Resolved(o))]
    + (if style == Asking then []
       else [Record(Entry(ApprovalResolved, ResolvedResult(style, o.decision), FromOutcome(o.source)))]
            + (if o.decision == Approved then []
               else [Cast(CancelledFrame),
                     Record(Entry(ActionCancelled, CancelResult(o.decision), FromOutcome(o.source)))]))
  }

  /** What the demo planner announces before its mock step. */
  function BeforeRun(style: Style): seq<Op> {
    if style == Demo
    then [Cast(Started), Record(Entry(ActionStarted, NoResult, FromCore)), Cast(Step)]
    else []
  }

  function LastEntry(ok: bool): Entry {
    if ok then Entry(ActionCompleted, ResultCompleted, FromCore)
    else Entry(ActionFailed, ResultFailed, FromCore)
  }

  /** After the backend answered.  The interaction path audits first and shows the frames
      afterwards, in the response when nothing was gated and by broadcast otherwise. */
  function Finish(style: Style, gated: bool, ok: bool): seq<Op> {
    if style == Demo then
      [Cast(Completed), Record(Entry(ActionCompleted, ResultCompleted, FromCore))]
    else
      [Record(Entry(ActionStarted, NoResult, FromCore)), Record(LastEntry(ok))]
      + (if gated then
           [Cast(Started), Cast(Step), Cast(Step)]
           + (if ok then [Cast(Verification), Cast(Completed)] else [Cast(Failed)])
         else
           [Push(Started), Push(Step), Push(Step)]
           + (if ok then [Push(Verification), Push(Completed), Handoff] else [Push(Failed), Handoff]))
  }

  predicate WillRun(p: Plan, answer: Option<Outcome>) {
    match p.gate
    case Refused => false
    case Direct => true
    case Gated => answer.Some? && answer.value.decision == Approved && p.style != Asking
  }

  function WaitPart(p: Plan, answer: Option<Outcome>): seq<Op> {
    if p.gate != Gated then []
    else if answer.None? then [Await]
    else [Awaited(answer.value)] + Settle(p.style, answer.value)
  }

  function RunPart(p: Plan, answer: Option<Outcome>, ran: Option<bool>): seq<Op> {
    if !WillRun(p, answer) then []
    else if ran.None? then [RunEffect]
    else [Ran(ran.value)] + Finish(p.style, p.gate == Gated, ran.value)
  }

  /** Everything up to the backend call. */
  function UpToRun(p: Plan, answer: Option<Outcome>): seq<Op> {
    Head(p) + WaitPart(p, answer) + (if WillRun(p, answer) then BeforeRun(p.style) else [])
  }

  function Script(p: Plan, answer: Option<Outcome>, ran: Option<bool>): seq<Op> {
    UpToRun(p, answer) + RunPart(p, answer, ran)
  }
}
