/** Fifth layer: which decisions `resolve` has accepted, and what becomes of refused ones. */
module ReplyInvariant {
  import opened Sequences
  import opened Lifecycle
  import opened Protocol
  import opened TaskInvariant
  import opened BusyInvariant
  import opened ChannelInvariant

  function AcceptedMark(id: string, e: Event): seq<Decision> {
    if e.Answered? && e.id == id && e.reply == Delivered then [e.decision] else []
  }

  function AcceptedMarks(id: string): Event -> seq<Decision> { e => AcceptedMark(id, e) }

  /** The decisions for which `resolve(id, _)` returned Ok, in order. */
  function Accepted(log: seq<Event>, id: string): seq<Decision> {
    Flat(AcceptedMarks(id), log)
  }

  function SentValue(ch: Chan): seq<Decision> {
    if ch.tx.Sent? then [ch.tx.decision] else []
  }

  ghost predicate Allocated(s: State, id: string) {
    exists n :: 0 <= n < |s.chans| && IdOf(n) == id
  }

  /** What a channel has carried is what `resolve` accepted for its id. */
  ghost predicate InvAccepted(s: State) {
    && (forall n :: 0 <= n < |s.chans| ==> Accepted(s.log, IdOf(n)) == SentValue(s.chans[n]))
    && (forall k :: 0 <= k < |s.log| ==> AnsweredAllocated(s, s.log[k]))
  }

  ghost predicate AnsweredAllocated(s: State, e: Event) {
    e.Answered? && e.reply == Delivered ==> Allocated(s, e.id)
  }

  lemma AcceptedSnoc(log: seq<Event>, e: Event, id: string)
    ensures Accepted(log + [e], id) == Accepted(log, id) + AcceptedMark(id, e)
  {
    FlatSnoc(AcceptedMarks(id), log, e);
  }

  lemma AllocatedGrows(s: State, s': State, id: string)
    requires |s.chans| <= |s'.chans| && Allocated(s, id)
    ensures Allocated(s', id)
  {
    var n :| 0 <= n < |s.chans| && IdOf(n) == id;
    assert 0 <= n < |s'.chans| && IdOf(n) == id;
  }

  /** Nothing has been accepted under an id that has not been drawn yet. */
  lemma UnallocatedAccepted(s: State, n: nat)
    requires InvAccepted(s) && n >= |s.chans|
    ensures Accepted(s.log, IdOf(n)) == []
  {
    forall k | 0 <= k < |s.log| ensures AcceptedMark(IdOf(n), s.log[k]) == [] {
      if AcceptedMark(IdOf(n), s.log[k]) != [] {
        assert AnsweredAllocated(s, s.log[k]);
        var m :| 0 <= m < |s.chans| && IdOf(m) == IdOf(n);
        IdOfInjective(m, n);
      }
    }
    FlatEmpty(AcceptedMarks(IdOf(n)), s.log);
  }

  /** Steps that deliver nothing: no accepted reply is logged, no sender changes to Sent. */
  lemma QuietAccepted(s: State, s': State)
    requires InvAccepted(s) && |s.chans| <= |s'.chans|
    requires s'.log == s.log || (|s'.log| == |s.log| + 1 && s'.log[..|s.log|] == s.log
               && !(s'.log[|s.log|].Answered? && s'.log[|s.log|].reply == Delivered))
    requires forall n :: 0 <= n < |s.chans| ==> SentValue(s'.chans[n]) == SentValue(s.chans[n])
    requires forall n :: |s.chans| <= n < |s'.chans| ==> SentValue(s'.chans[n]) == []
    ensures InvAccepted(s')
  {
    if s'.log != s.log { assert s'.log == s.log + [s'.log[|s.log|]]; }
    forall n | 0 <= n < |s'.chans| ensures Accepted(s'.log, IdOf(n)) == SentValue(s'.chans[n]) {
      if n >= |s.chans| { UnallocatedAccepted(s, n); }
      if s'.log != s.log { AcceptedSnoc(s.log, s'.log[|s.log|], IdOf(n)); }
    }
    forall k | 0 <= k < |s'.log| ensures AnsweredAllocated(s', s'.log[k]) {
      if k < |s.log| {
        assert s'.log[k] == s.log[k];
        assert AnsweredAllocated(s, s.log[k]);
        if s.log[k].Answered? && s.log[k].reply == Delivered { AllocatedGrows(s, s', s.log[k].id); }
      }
    }
  }

  lemma PerformAccepted(s: State, i: nat, op: Op, millis: nat)
    requires InvTokens(s) && InvAccepted(s) && i < |s.tasks| && Fits(s.tasks[i], op)
    requires TaskShape(s.tasks[i], |s.conns|)
    ensures InvAccepted(Perform(s, i, op, millis))
  {
    var s' := Perform(s, i, op, millis);
    if op.Register? || op.Take? { RegistryOpsSendNothing(s, i, op, millis); }
    QuietAccepted(s, s');
  }

  /** Registering and taking back an id never turn a sender into a spent one, or back. */
  lemma RegistryOpsSendNothing(s: State, i: nat, op: Op, millis: nat)
    requires InvTokens(s) && i < |s.tasks| && Fits(s.tasks[i], op) && TaskShape(s.tasks[i], |s.conns|)
    requires op.Register? || op.Take?
    ensures |Perform(s, i, op, millis).chans| == |s.chans|
    ensures forall n :: 0 <= n < |s.chans| ==> SentValue(Perform(s, i, op, millis).chans[n]) == SentValue(s.chans[n])
  {
    var n := s.tasks[i].approval.value;
    assert Owns(s, i, n);
    if op.Register? {
      FreshKey(s, n);
    } else if IdOf(n) in s.registry {
      IdOfInjective(s.registry[IdOf(n)], n);
    }
  }

  /** A delivered decision becomes the value of its channel. */
  lemma DeliverAccepted(s: State, s': State, n: nat, e: Event)
    requires InvAccepted(s) && n < |s.chans| && SentValue(s.chans[n]) == []
    requires e.Answered? && e.id == IdOf(n) && e.reply == Delivered
    requires s'.log == s.log + [e] && s'.chans == s.chans[n := s.chans[n].(tx := Sent(e.decision))]
    ensures InvAccepted(s')
  {
    forall m | 0 <= m < |s'.chans| ensures Accepted(s'.log, IdOf(m)) == SentValue(s'.chans[m]) {
      AcceptedSnoc(s.log, e, IdOf(m));
      if m != n && IdOf(m) == IdOf(n) { IdOfInjective(m, n); }
    }
    forall k | 0 <= k < |s'.log| ensures AnsweredAllocated(s', s'.log[k]) {
      if k < |s.log| {
        assert AnsweredAllocated(s, s.log[k]);
        if s.log[k].Answered? && s.log[k].reply == Delivered { AllocatedGrows(s, s', s.log[k].id); }
      }
    }
  }

  lemma SendAccepted(route: Route, s: State, c: nat)
    requires InvTokens(s) && InvAccepted(s) && Enabled(s, ResolveSend(c))
    ensures InvAccepted(Apply(route, s, ResolveSend(c)))
  {
    var s' := Apply(route, s, ResolveSend(c));
    var m := s.conns[c].mode;
    assert Holds(s, c, m.chan);
    if s.chans[m.chan].rx == Open {
      DeliverAccepted(s, s', m.chan, Answered(c, m.id, m.decision, Delivered));
    } else {
      QuietAccepted(s, s');
    }
  }

  /** Steps that neither send nor run a program. */
  lemma OtherAccepted(route: Route, s: State, step: Step)
    requires InvAccepted(s) && Enabled(s, step) && !step.Run? && !step.ResolveSend? && !step.Begin?
    ensures InvAccepted(Apply(route, s, step))
  {
    QuietAccepted(s, Apply(route, s, step));
  }

  lemma RunAccepted(s: State, i: nat, millis: nat)
    requires InvShape(s) && InvTokens(s) && InvAccepted(s) && Enabled(s, Run(i, millis))
    ensures InvAccepted(Advance(s, i, millis))
  {
    hide InvTokens, InvAccepted;
    RunFits(s, i, millis);
    PerformAccepted(s, i, NextOp(s.tasks[i]), millis);
  }

  lemma AcceptedPreserved(route: Route, s: State, step: Step)
    requires InvShape(s) && InvTokens(s) && InvAccepted(s) && Enabled(s, step)
    ensures InvAccepted(Apply(route, s, step))
  {
    hide InvShape, InvTokens, InvAccepted;
    match step
    case Run(i, millis) => RunAccepted(s, i, millis);
    case ResolveSend(c) => SendAccepted(route, s, c);
    case Begin(c, flow) => QuietAccepted(s, Admit(s, c, flow, route(flow)));
    case _ => OtherAccepted(route, s, step);
  }

  // ----- refusals ---------------------------------------------------------------------------

  function RefusedMark(c: nat, e: Event): seq<string> {
    if e.Answered? && e.conn == c && e.reply != Delivered then [e.id] else []
  }

  function RefusedMarks(c: nat): Event -> seq<string> { e => RefusedMark(c, e) }

  function NotedMark(c: nat, e: Event): seq<string> {
    if e.RejectionNoted? && e.conn == c then [e.id] else []
  }

  function NotedMarks(c: nat): Event -> seq<string> { e => NotedMark(c, e) }

  /** The approval ids whose `resolve` failed on connection `c`. */
  function Refusals(log: seq<Event>, c: nat): seq<string> {
    Flat(RefusedMarks(c), log)
  }

  /** The ids for which connection `c` wrote an IpcCommandRejected audit entry. */
  function Rejections(log: seq<Event>, c: nat): seq<string> {
    Flat(NotedMarks(c), log)
  }

  function PendingRejection(m: Mode): seq<string> {
    if m.Rejecting? then [m.id] else []
  }

  function ErrorMark(e: Event): seq<string> {
    if e.ErrorShown? then [e.id] else []
  }

  function ErrorMarks(): Event -> seq<string> { e => ErrorMark(e) }

  function DeliveredErrors(): Delivery -> seq<string> { (d: Delivery) => ErrorMark(d.event) }

  /** Error frames connection `c` has shown, and those it is still about to write. */
  function ErrorsShown(k: Conn): seq<string> {
    Flat(DeliveredErrors(), k.sink)
  }

  function ErrorsWaiting(m: Mode): seq<string> {
    if m.Flushing? then Flat(ErrorMarks(), m.rest) else []
  }

  predicate RefusalsOk(log: seq<Event>, k: Conn, c: nat) {
    && Refusals(log, c) == Rejections(log, c) + PendingRejection(k.mode)
    && ErrorsShown(k) + ErrorsWaiting(k.mode) <= Rejections(log, c)
    && (!k.mode.Closed? ==> ErrorsShown(k) + ErrorsWaiting(k.mode) == Rejections(log, c))
  }

  predicate ConnOf(e: Event, bound: nat) {
    e.Answered? || e.RejectionNoted? ==> e.conn < bound
  }

  predicate OnlyShown(es: seq<Event>) {
    forall k :: 0 <= k < |es| ==> es[k].Shown?
  }

  /** Every refusal is audited once and answered with one error frame, in order. */
  predicate InvRefusals(s: State) {
    && (forall k :: 0 <= k < |s.log| ==> ConnOf(s.log[k], |s.conns|))
    && (forall c :: 0 <= c < |s.conns| ==> RefusalsOk(s.log, s.conns[c], c))
    && OnlyShown(s.casts)
    && (forall i :: 0 <= i < |s.tasks| ==> OnlyShown(s.tasks[i].out))
  }

  lemma RefusalSnoc(log: seq<Event>, e: Event, c: nat)
    ensures Refusals(log + [e], c) == Refusals(log, c) + RefusedMark(c, e)
    ensures Rejections(log + [e], c) == Rejections(log, c) + NotedMark(c, e)
  {
    FlatSnoc(RefusedMarks(c), log, e);
    FlatSnoc(NotedMarks(c), log, e);
  }

  lemma NoRefusals(log: seq<Event>, c: nat)
    requires forall k :: 0 <= k < |log| ==> ConnOf(log[k], c)
    ensures Refusals(log, c) == [] && Rejections(log, c) == []
  {
    FlatEmpty(RefusedMarks(c), log);
    FlatEmpty(NotedMarks(c), log);
  }

  lemma NoErrorsIn(es: seq<Event>)
    requires OnlyShown(es)
    ensures Flat(ErrorMarks(), es) == []
  {
    FlatEmpty(ErrorMarks(), es);
  }

  /** What connection `c` logs is nothing to connection `d`. */
  lemma NotMyRefusal(log: seq<Event>, es: seq<Event>, k: Conn, c: nat, d: nat)
    requires RefusalsOk(log, k, d) && c != d && |es| <= 1
    requires es != [] ==> (es[0].Answered? || es[0].RejectionNoted?) && es[0].conn == c
    ensures RefusalsOk(log + es, k, d)
  {
    if es != [] {
      assert es == [es[0]];
      RefusalSnoc(log, es[0], d);
    } else {
      assert log + es == log;
    }
  }

  /** Connection `c` changes and logs `es`, at most one event of its own. */
  lemma OneConnRefusals(s: State, s': State, c: nat, es: seq<Event>)
    requires InvRefusals(s) && c < |s.conns| == |s'.conns|
    requires forall d :: 0 <= d < |s.conns| && d != c ==> s'.conns[d] == s.conns[d]
    requires s'.log == s.log + es && |es| <= 1
    requires es != [] ==> (es[0].Answered? || es[0].RejectionNoted?) && es[0].conn == c
    requires RefusalsOk(s.log + es, s'.conns[c], c)
    requires s'.casts == s.casts && s'.tasks == s.tasks
    ensures InvRefusals(s')
  {
    hide RefusalsOk;
    forall d | 0 <= d < |s.conns| ensures RefusalsOk(s'.log, s'.conns[d], d) {
      if d != c { NotMyRefusal(s.log, es, s.conns[d], c, d); }
    }
    forall k | 0 <= k < |s'.log| ensures ConnOf(s'.log[k], |s'.conns|) {
      if k < |s.log| { assert ConnOf(s.log[k], |s.conns|); }
    }
  }

  /** A step of a task: its events are no refusals, and at most it hands its frames over. */
  lemma TaskRefusals(s: State, s': State)
    requires InvRefusals(s) && |s'.conns| == |s.conns|
    requires s'.log == s.log || (|s'.log| == |s.log| + 1 && s'.log[..|s.log|] == s.log
               && !s'.log[|s.log|].Answered? && !s'.log[|s.log|].RejectionNoted?)
    requires forall d :: 0 <= d < |s.conns| ==>
      || s'.conns[d] == s.conns[d]
      || ((s.conns[d].mode.Dispatching? || s.conns[d].mode.Idle?) && s'.conns[d].sink == s.conns[d].sink
          && (s'.conns[d].mode.Dispatching? || (s'.conns[d].mode.Flushing? && OnlyShown(s'.conns[d].mode.rest))))
    requires OnlyShown(s'.casts) && forall i :: 0 <= i < |s'.tasks| ==> OnlyShown(s'.tasks[i].out)
    ensures InvRefusals(s')
  {
    if s'.log != s.log { assert s'.log == s.log + [s'.log[|s.log|]]; }
    forall d | 0 <= d < |s.conns| ensures RefusalsOk(s'.log, s'.conns[d], d) {
      if s'.log != s.log { RefusalSnoc(s.log, s'.log[|s.log|], d); }
      if s'.conns[d].mode.Flushing? && s'.conns[d] != s.conns[d] { NoErrorsIn(s'.conns[d].mode.rest); }
    }
  }

  lemma PerformRefusals(s: State, i: nat, op: Op, millis: nat)
    requires InvBusy(s) && InvRefusals(s) && i < |s.tasks| && Fits(s.tasks[i], op)
    ensures InvRefusals(Perform(s, i, op, millis))
  {
    var t, s' := s.tasks[i], Perform(s, i, op, millis);
    PerformHandoff(s, t, i, op, millis);
    forall j | 0 <= j < |s'.tasks| ensures OnlyShown(s'.tasks[j].out) {
      assert OnlyShown(s.tasks[j].out);
    }
    TaskRefusals(s, s');
  }

  /** The connection's view of each of its own steps. */
  lemma TakeRefusalsOk(log: seq<Event>, k: Conn, c: nat, m: Mode, es: seq<Event>)
    requires RefusalsOk(log, k, c) && k.mode.Idle?
    requires (m.Holding? && es == [])
          || (m.Rejecting? && |es| == 1 && es[0].Answered? && es[0].conn == c && es[0].reply != Delivered && es[0].id == m.id)
    ensures RefusalsOk(log + es, k.(mode := m), c)
  {
    if es == [] {
      assert log + es == log;
    } else {
      assert es == [es[0]];
      RefusalSnoc(log, es[0], c);
    }
  }

  lemma ResolveTakeRefusals(route: Route, s: State, c: nat, id: string, d: Decision)
    requires InvRefusals(s) && Enabled(s, ResolveTake(c, id, d))
    ensures InvRefusals(Apply(route, s, ResolveTake(c, id, d)))
  {
    var s' := Apply(route, s, ResolveTake(c, id, d));
    var es := if id in s.registry then [] else [Answered(c, id, d, UnknownId)];
    TakeRefusalsOk(s.log, s.conns[c], c, s'.conns[c].mode, es);
    OneConnRefusals(s, s', c, es);
  }

  lemma SendRefusalsOk(log: seq<Event>, k: Conn, c: nat, m: Mode, e: Event)
    requires RefusalsOk(log, k, c) && k.mode.Holding? && e.Answered? && e.conn == c
    requires m == if e.reply == Delivered then Flushing([]) else Rejecting(e.id)
    ensures RefusalsOk(log + [e], k.(mode := m), c)
  {
    RefusalSnoc(log, e, c);
  }

  lemma ResolveSendRefusals(route: Route, s: State, c: nat)
    requires InvRefusals(s) && Enabled(s, ResolveSend(c))
    ensures InvRefusals(Apply(route, s, ResolveSend(c)))
  {
    var s', m := Apply(route, s, ResolveSend(c)), s.conns[c].mode;
    var e := Answered(c, m.id, m.decision, if s.chans[m.chan].rx == Open then Delivered else WaiterGone);
    SendRefusalsOk(s.log, s.conns[c], c, s'.conns[c].mode, e);
    OneConnRefusals(s, s', c, [e]);
  }

  lemma NoteRefusalsOk(log: seq<Event>, k: Conn, c: nat)
    requires RefusalsOk(log, k, c) && k.mode.Rejecting?
    ensures RefusalsOk(log + [RejectionNoted(c, k.mode.id)], k.(mode := Flushing([ErrorShown(c, k.mode.id)])), c)
  {
    RefusalSnoc(log, RejectionNoted(c, k.mode.id), c);
    Flat1(ErrorMarks(), ErrorShown(c, k.mode.id));
  }

  lemma NoteRefusals(route: Route, s: State, c: nat)
    requires InvRefusals(s) && Enabled(s, NoteRejection(c))
    ensures InvRefusals(Apply(route, s, NoteRejection(c)))
  {
    NoteRefusalsOk(s.log, s.conns[c], c);
    OneConnRefusals(s, Apply(route, s, NoteRejection(c)), c, [RejectionNoted(c, s.conns[c].mode.id)]);
  }

  lemma FlushRefusalsOk(log: seq<Event>, k: Conn, c: nat)
    requires RefusalsOk(log, k, c) && k.mode.Flushing? && k.mode.rest != []
    ensures RefusalsOk(log, Conn(Flushing(k.mode.rest[1..]), k.cursor, k.sink + [Straight(k.mode.rest[0])]), c)
  {
    var e := k.mode.rest[0];
    FlatSnoc(DeliveredErrors(), k.sink, Straight(e));
    FlatConcat(ErrorMarks(), [e], k.mode.rest[1..]);
    Flat1(ErrorMarks(), e);
    assert [e] + k.mode.rest[1..] == k.mode.rest;
  }

  lemma FlushRefusals(route: Route, s: State, c: nat)
    requires InvRefusals(s) && Enabled(s, Flush(c))
    ensures InvRefusals(Apply(route, s, Flush(c)))
  {
    assert RefusalsOk(s.log, s.conns[c], c);
    if s.conns[c].mode.rest != [] { FlushRefusalsOk(s.log, s.conns[c], c); }
    assert s.log + [] == s.log;
    OneConnRefusals(s, Apply(route, s, Flush(c)), c, []);
  }

  lemma ForwardRefusals(route: Route, s: State, c: nat, lost: nat)
    requires InvRefusals(s) && Enabled(s, Forward(c, lost))
    ensures InvRefusals(Apply(route, s, Forward(c, lost)))
  {
    var k := s.conns[c];
    assert RefusalsOk(s.log, k, c);
    FlatSnoc(DeliveredErrors(), k.sink, Forwarded(s.casts[k.cursor], k.cursor));
    assert s.log + [] == s.log;
    OneConnRefusals(s, Apply(route, s, Forward(c, lost)), c, []);
  }

  lemma HangupRefusals(route: Route, s: State, c: nat)
    requires InvRefusals(s) && Enabled(s, Hangup(c))
    ensures InvRefusals(Apply(route, s, Hangup(c)))
  {
    assert RefusalsOk(s.log, s.conns[c], c);
    assert s.log + [] == s.log;
    OneConnRefusals(s, Apply(route, s, Hangup(c)), c, []);
  }

  lemma ConnectRefusals(route: Route, s: State)
    requires InvRefusals(s)
    ensures InvRefusals(Apply(route, s, Connect))
  {
    NoRefusals(s.log, |s.conns|);
    var s' := Apply(route, s, Connect);
    forall c | 0 <= c < |s'.conns| ensures RefusalsOk(s'.log, s'.conns[c], c) {
      if c < |s.conns| { assert RefusalsOk(s.log, s.conns[c], c); }
    }
    forall k | 0 <= k < |s'.log| ensures ConnOf(s'.log[k], |s'.conns|) {
      assert ConnOf(s.log[k], |s.conns|);
    }
  }

  /** Steps of a task other than its own operations. */
  lemma OtherTaskRefusals(route: Route, s: State, step: Step)
    requires InvRefusals(s) && Enabled(s, step) && !step.Run? && !step.Begin? && !ConnStep(step)
    ensures InvRefusals(Apply(route, s, step))
  {
    TaskRefusals(s, Apply(route, s, step));
  }

  lemma RunRefusals(s: State, i: nat, millis: nat)
    requires InvShape(s) && InvBusy(s) && InvRefusals(s) && Enabled(s, Run(i, millis))
    ensures InvRefusals(Advance(s, i, millis))
  {
    RunFits(s, i, millis);
    PerformRefusals(s, i, NextOp(s.tasks[i]), millis);
  }

  lemma ConnStepRefusals(route: Route, s: State, step: Step)
    requires InvRefusals(s) && Enabled(s, step) && ConnStep(step)
    ensures InvRefusals(Apply(route, s, step))
  {
    match step
    case Connect => ConnectRefusals(route, s);
    case ResolveTake(c, id, d) => ResolveTakeRefusals(route, s, c, id, d);
    case ResolveSend(c) => ResolveSendRefusals(route, s, c);
    case NoteRejection(c) => NoteRefusals(route, s, c);
    case Flush(c) => FlushRefusals(route, s, c);
    case Forward(c, lost) => ForwardRefusals(route, s, c, lost);
    case Hangup(c) => HangupRefusals(route, s, c);
  }

  lemma AdmitRefusals(s: State, c: nat, flow: Flow, plan: Plan)
    requires InvRefusals(s) && c < |s.conns| && s.conns[c].mode.Idle?
    ensures InvRefusals(Admit(s, c, flow, plan))
  {
    TaskRefusals(s, Admit(s, c, flow, plan));
  }

  lemma RefusalsPreserved(route: Route, s: State, step: Step)
    requires InvShape(s) && InvBusy(s) && InvRefusals(s) && Enabled(s, step)
    ensures InvRefusals(Apply(route, s, step))
  {
    hide InvShape, InvBusy, InvRefusals;
    if ConnStep(step) {
      ConnStepRefusals(route, s, step);
    } else {
      match step
      case Run(i, millis) => RunRefusals(s, i, millis);
      case Begin(c, flow) => AdmitRefusals(s, c, flow, route(flow));
      case _ => OtherTaskRefusals(route, s, step);
    }
  }
}
