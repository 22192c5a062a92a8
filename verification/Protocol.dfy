/** The approval-gated core as interleaved atomic steps.

    Connections, spawned waiter tasks, resolver calls and timers share the pending-approval
    registry, the correlation counter, the broadcast channel and the audit log.  A run is a
    sequence of `Step`s, one atomic access each; nothing restricts how they interleave.
    `resolve` is two steps (take the sender, then send), and so is one poll of the timed wait
    (look at the receiver, then at the timer), which is why a delivered decision can still lose
    against the timeout. */
module Protocol {
  import opened Common
  import Capabilities
  import Ids
  import opened Lifecycle
  import LifecycleShape

  /** Capacity of the broadcast channel. */
  const EVENTS_CHANNEL_CAPACITY: nat := 256

  const COUNTER_LIMIT: nat := 0x1_0000_0000_0000_0000

  /** The sending half of a oneshot channel. */
  datatype Tx = NotYet | Alive | Sent(decision: Decision) | Bounced | Dropped

  /** The receiving half. */
  datatype Rx = Unborn | Open | Received | Gone

  /** A oneshot channel; `owner` is the request whose waiter holds the receiver.  The record is
      set aside when the approval id is drawn and comes to life with `register`. */
  datatype Chan = Chan(tx: Tx, rx: Rx, owner: nat)

  /** Answer of `PendingApprovalRegistry::resolve`. */
  datatype Reply = Delivered | UnknownId | WaiterGone

  /** The log is the model's clock: every observable effect in the order it happens. */
  datatype Event =
    | Shown(owner: nat, frame: Frame, correlation: string)
    | Noted(owner: nat, entry: Entry, correlation: string, capability: Option<string>)
    | Acted(owner: nat)
    | Answered(conn: nat, id: string, decision: Decision, reply: Reply)
    | RejectionNoted(conn: nat, id: string)
    | ErrorShown(conn: nat, id: string)

  /** A frame written to a client: straight from a handler, or forwarded from the broadcast
      channel, with its position there. */
  datatype Delivery = Straight(event: Event) | Forwarded(event: Event, position: nat)

  datatype Mode =
    | Idle
    | Dispatching(task: nat)
    | Holding(chan: nat, id: string, decision: Decision)  // between `take` and `send`
    | Rejecting(id: string)
    | Flushing(rest: seq<Event>)
    | Closed

  datatype Conn = Conn(mode: Mode, cursor: nat, sink: seq<Delivery>)

  datatype Stamp = Stamp(millis: nat, number: nat)

  /** One accepted request: the handler up to the hand-off, the spawned task behind it. */
  datatype Task = Task(
    flow: Flow,
    plan: Plan,
    conn: nat,
    pc: nat,
    answer: Option<Outcome>,
    ran: Option<bool>,
    stamp: Option<Stamp>,
    approval: Option<nat>,
    polled: bool,     // the receiver was found empty, the timer is looked at next
    expired: bool,    // the deadline has passed
    out: seq<Event>)  // frames collected for the response

  datatype State = State(
    tasks: seq<Task>,
    chans: seq<Chan>,
    registry: map<string, nat>,
    conns: seq<Conn>,
    correlations: nat,
    casts: seq<Event>,
    log: seq<Event>)

  type ProperPlan = p: Plan | p.Valid() witness Plan(Acting, Gate.Refused, false)

  /** How requests are routed; the daemon's own routing is `RouteFor` its policy. */
  type Route = Flow -> ProperPlan

  function RouteFor(policy: Capabilities.Policy): Route {
    (flow: Flow) => PlanOf(flow, policy)
  }

  function Init(): State {
    State([], [], map[], [], 0, [], [])
  }

  function Program(t: Task): seq<Op> {
    Script(t.plan, t.answer, t.ran)
  }

  predicate Finished(t: Task) {
    t.pc >= |Program(t)|
  }

  function NextOp(t: Task): Op
    requires !Finished(t)
  {
    Program(t)[t.pc]
  }

  function CorrelationOf(t: Task): string {
    if t.stamp.None? then "" else Ids.CorrelationId(t.stamp.value.millis, t.stamp.value.number)
  }

  /** Approval number `n` counts from zero here, the daemon's counter from one. */
  function IdOf(n: nat): string {
    Ids.ApprovalId(n + 1)
  }

  // ----- one operation of a task ---------------------------------------------------------

  function EventsOf(t: Task, i: nat, op: Op): seq<Event> {
    match op
    case Push(f) => [Shown(i, f, CorrelationOf(t))]
    case Cast(f) => [Shown(i, f, CorrelationOf(t))]
    case Record(e) => [Noted(i, e, CorrelationOf(t), CapabilityOf(t.flow))]
    case _ => []
  }

  function TaskAfter(s: State, t: Task, i: nat, op: Op, millis: nat): Task {
    match op
    case DrawCorrelation => t.(pc := t.pc + 1, stamp := Some(Stamp(millis, s.correlations + 1)))
    case DrawApproval => t.(pc := t.pc + 1, approval := Some(|s.chans|))
    case Push(_) => t.(pc := t.pc + 1, out := t.out + EventsOf(t, i, op))
    case _ => t.(pc := t.pc + 1)
  }

  /** Dropping the sender registered under `id`, if there is one. */
  function DropRegistered(chans: seq<Chan>, registry: map<string, nat>, id: string): seq<Chan> {
    if id in registry && registry[id] < |chans|
    then chans[registry[id] := chans[registry[id]].(tx := Dropped)]
    else chans
  }

  function ChansAfter(s: State, t: Task, i: nat, op: Op): (r: seq<Chan>)
    ensures |r| >= |s.chans|
  {
    match op
    case DrawApproval => s.chans + [Chan(NotYet, Unborn, i)]
    case Register =>
      if t.approval.None? || t.approval.value >= |s.chans| then s.chans
      else
        // HashMap::insert drops whatever sender the key held before.
        var dropped := DropRegistered(s.chans, s.registry, IdOf(t.approval.value));
        dropped[t.approval.value := dropped[t.approval.value].(tx := Alive, rx := Open)]
    case Take =>
      if t.approval.None? then s.chans
      else DropRegistered(s.chans, s.registry, IdOf(t.approval.value))
    case _ => s.chans
  }

  function RegistryAfter(s: State, t: Task, op: Op): map<string, nat> {
    if t.approval.None? then s.registry
    else match op
      case Register => s.registry[IdOf(t.approval.value) := t.approval.value]
      case Take => s.registry - {IdOf(t.approval.value)}
      case _ => s.registry
  }

  function ConnsAfter(s: State, t: Task, op: Op): (r: seq<Conn>)
    ensures |r| == |s.conns|
  {
    if op.Handoff? && t.conn < |s.conns|
    then s.conns[t.conn := s.conns[t.conn].(mode := Flushing(t.out))]
    else s.conns
  }

  /** Task `i` performs `op`. */
  function Perform(s: State, i: nat, op: Op, millis: nat): State
    requires i < |s.tasks|
  {
    var t := s.tasks[i];
    State(
      s.tasks[i := TaskAfter(s, t, i, op, millis)],
      ChansAfter(s, t, i, op),
      RegistryAfter(s, t, op),
      ConnsAfter(s, t, op),
      s.correlations + (if op.DrawCorrelation? then 1 else 0),
      s.casts + (if op.Cast? then EventsOf(t, i, op) else []),
      s.log + EventsOf(t, i, op))
  }

  function Advance(s: State, i: nat, millis: nat): State
    requires i < |s.tasks| && !Finished(s.tasks[i])
  {
    Perform(s, i, NextOp(s.tasks[i]), millis)
  }

  // ----- steps ----------------------------------------------------------------------------

  datatype Step =
    | Connect
    | Begin(conn: nat, flow: Flow)
    | Run(task: nat, millis: nat)
    | Act(task: nat, ok: bool)
    | PollEmpty(task: nat)
    | PollReady(task: nat)
    | PollSenderLost(task: nat)
    | TimerPending(task: nat)
    | TimerFired(task: nat)
    | Expire(task: nat)
    | ResolveTake(conn: nat, id: string, decision: Decision)
    | ResolveSend(conn: nat)
    | NoteRejection(conn: nat)
    | Flush(conn: nat)
    | Forward(conn: nat, lost: nat)
    | Hangup(conn: nat)

  /** Task `i` owns a receiver that has not been read or dropped. */
  predicate Listens(s: State, i: nat) {
    && i < |s.tasks|
    && var t := s.tasks[i];
      && t.approval.Some? && t.approval.value < |s.chans|
      && s.chans[t.approval.value].rx == Open
  }

  /** Task `i` stands at the timed wait with its receiver. */
  predicate AtWait(s: State, i: nat) {
    Listens(s, i) && !Finished(s.tasks[i]) && NextOp(s.tasks[i]).Await?
  }

  predicate Enabled(s: State, step: Step) {
    match step
    case Connect => true
    case Begin(c, _) => c < |s.conns| && s.conns[c].mode.Idle?
    case Run(i, _) =>
      && i < |s.tasks| && !Finished(s.tasks[i])
      && var op := NextOp(s.tasks[i]);
        && !LifecycleShape.IsRunOp(op) && !op.Await?
        && (op.DrawCorrelation? ==> s.correlations + 1 < COUNTER_LIMIT)
    case Act(i, ok) =>
      && i < |s.tasks| && !Finished(s.tasks[i]) && NextOp(s.tasks[i]).RunEffect?
      && (s.tasks[i].plan.style == Demo ==> ok)
    case PollEmpty(i) =>
      AtWait(s, i) && !s.tasks[i].polled && s.chans[s.tasks[i].approval.value].tx.Alive?
    case PollReady(i) =>
      AtWait(s, i) && !s.tasks[i].polled && s.chans[s.tasks[i].approval.value].tx.Sent?
    case PollSenderLost(i) =>
      && AtWait(s, i) && !s.tasks[i].polled
      && var tx := s.chans[s.tasks[i].approval.value].tx; !tx.Alive? && !tx.Sent?
    case TimerPending(i) => AtWait(s, i) && s.tasks[i].polled && !s.tasks[i].expired
    case TimerFired(i) => AtWait(s, i) && s.tasks[i].polled && s.tasks[i].expired
    case Expire(i) => i < |s.tasks| && !s.tasks[i].expired
    case ResolveTake(c, _, d) => c < |s.conns| && s.conns[c].mode.Idle? && d != TimedOut
    case ResolveSend(c) =>
      c < |s.conns| && s.conns[c].mode.Holding? && s.conns[c].mode.chan < |s.chans|
    case NoteRejection(c) => c < |s.conns| && s.conns[c].mode.Rejecting?
    case Flush(c) => c < |s.conns| && s.conns[c].mode.Flushing?
    case Forward(c, lost) =>
      c < |s.conns| && s.conns[c].mode.Idle? && s.conns[c].cursor < |s.casts| && s.conns[c].cursor + lost <= |s.casts|
    case Hangup(c) => c < |s.conns| && (s.conns[c].mode.Idle? || s.conns[c].mode.Flushing?)
  }

  function SetMode(s: State, c: nat, m: Mode): (r: seq<Conn>)
    requires c < |s.conns|
    ensures |r| == |s.conns|
  {
    s.conns[c := s.conns[c].(mode := m)]
  }

  /** The timed wait returns `o`; the receiver ends up as `rx`. */
  function Answer(s: State, i: nat, o: Outcome, rx: Rx): State
    requires Listens(s, i)
  {
    var t := s.tasks[i];
    var n := t.approval.value;
    s.(tasks := s.tasks[i := t.(pc := t.pc + 1, answer := Some(o), polled := false)],
       chans := s.chans[n := s.chans[n].(rx := rx)])
  }

  /** The backend of task `i` is called and answers `ok`. */
  function Call(s: State, i: nat, ok: bool): State
    requires i < |s.tasks|
  {
    var t := s.tasks[i];
    s.(tasks := s.tasks[i := t.(pc := t.pc + 1, ran := Some(ok))], log := s.log + [Acted(i)])
  }

  /** A client request arrives on connection `c`. */
  function Admit(s: State, c: nat, flow: Flow, plan: Plan): State
    requires c < |s.conns|
  {
    s.(tasks := s.tasks + [Task(flow, plan, c, 0, None, None, None, None, false, false, [])],
       conns := SetMode(s, c, Dispatching(|s.tasks|)))
  }

  function Apply(route: Route, s: State, step: Step): State
    requires Enabled(s, step)
  {
    match step
    case Connect => s.(conns := s.conns + [Conn(Idle, |s.casts|, [])])
    case Begin(c, flow) => Admit(s, c, flow, route(flow))
    case Run(i, millis) => Advance(s, i, millis)
    case Act(i, ok) => Call(s, i, ok)
    case PollEmpty(i) => s.(tasks := s.tasks[i := s.tasks[i].(polled := true)])
    case PollReady(i) =>
      Answer(s, i, Outcome(s.chans[s.tasks[i].approval.value].tx.decision, User), Received)
    case PollSenderLost(i) => Answer(s, i, Outcome(Cancelled, System), Received)
    case TimerPending(i) => s.(tasks := s.tasks[i := s.tasks[i].(polled := false)])
    case TimerFired(i) => Answer(s, i, Outcome(TimedOut, Timeout), Gone)
    case Expire(i) => s.(tasks := s.tasks[i := s.tasks[i].(expired := true)])
    case ResolveTake(c, id, d) =>
      if id in s.registry then
        s.(conns := SetMode(s, c, Holding(s.registry[id], id, d)), registry := s.registry - {id})
      else
        s.(conns := SetMode(s, c, Rejecting(id)), log := s.log + [Answered(c, id, d, UnknownId)])
    case ResolveSend(c) =>
      var m := s.conns[c].mode;
      var ch := s.chans[m.chan];
      if ch.rx == Open then
        s.(conns := SetMode(s, c, Flushing([])),
           chans := s.chans[m.chan := ch.(tx := Sent(m.decision))],
           log := s.log + [Answered(c, m.id, m.decision, Delivered)])
      else
        s.(conns := SetMode(s, c, Rejecting(m.id)),
           chans := s.chans[m.chan := ch.(tx := Bounced)],
           log := s.log + [Answered(c, m.id, m.decision, WaiterGone)])
    case NoteRejection(c) =>
      var id := s.conns[c].mode.id;
      s.(conns := SetMode(s, c, Flushing([ErrorShown(c, id)])), log := s.log + [RejectionNoted(c, id)])
    case Flush(c) =>
      var k := s.conns[c];
      if k.mode.rest == [] then s.(conns := SetMode(s, c, Idle))
      else s.(conns := s.conns[c := Conn(Flushing(k.mode.rest[1..]), k.cursor, k.sink + [Straight(k.mode.rest[0])])])
    case Forward(c, lost) =>
      var k := s.conns[c];
      var missed := Missed(|s.casts| - k.cursor, lost);
      if missed > 0 then
        // RecvError::Lagged: skip to the oldest message the channel still holds.
        s.(conns := s.conns[c := k.(cursor := k.cursor + missed)])
      else
        s.(conns := s.conns[c := Conn(Idle, k.cursor + 1, k.sink + [Forwarded(s.casts[k.cursor], k.cursor)])])
    case Hangup(c) => s.(conns := SetMode(s, c, Closed))
  }

  /** Frames a connection finds overwritten when it is `behind` frames behind.  Messages of other
      kinds share the channel, so that any number may be; beyond the capacity some certainly are. */
  function Missed(behind: nat, lost: nat): (n: nat)
    requires lost <= behind
    ensures lost <= n <= behind && behind - n <= EVENTS_CHANNEL_CAPACITY
  {
    if behind - lost > EVENTS_CHANNEL_CAPACITY then behind - EVENTS_CHANNEL_CAPACITY else lost
  }

  /** Every step of the schedule is possible when its turn comes. */
  predicate CanRun(route: Route, s: State, steps: seq<Step>)
    decreases |steps|
  {
    steps == []
    || (Enabled(s, steps[0]) && CanRun(route, Apply(route, s, steps[0]), steps[1..]))
  }

  function After(route: Route, s: State, steps: seq<Step>): State
    requires CanRun(route, s, steps)
    decreases |steps|
  {
    if steps == [] then s else After(route, Apply(route, s, steps[0]), steps[1..])
  }
}
