/** Eighth layer: what reaches the requesting client.  The frames of the response come first and
    in order, broadcast frames of the same request only after all of them, and everything that is
    forwarded from the broadcast channel arrives in the order it was emitted, even when a slow
    connection lags and loses some. */
module DeliveryInvariant {
  import opened Common
  import opened Sequences
  import opened Lifecycle
  import opened LifecycleShape
  import opened Protocol
  import opened TaskInvariant
  import opened BusyInvariant

  function OwnMark(i: nat, e: Event): seq<Event> {
    if e.Shown? && e.owner == i then [e] else []
  }

  function OwnMarks(i: nat): Event -> seq<Event> { e => OwnMark(i, e) }

  /** The frames of request `i` among `es`. */
  function Own(es: seq<Event>, i: nat): seq<Event> {
    Flat(OwnMarks(i), es)
  }

  function SeenMarks(i: nat): Delivery -> seq<Event> { (d: Delivery) => OwnMark(i, d.event) }

  function StraightMarks(i: nat): Delivery -> seq<Event> {
    (d: Delivery) => if d.Straight? then OwnMark(i, d.event) else []
  }

  function ForwardMarks(i: nat): Delivery -> seq<Event> {
    (d: Delivery) => if d.Forwarded? then OwnMark(i, d.event) else []
  }

  /** Everything a client has received of request `i`, in order of arrival. */
  function Seen(sink: seq<Delivery>, i: nat): seq<Event> { Flat(SeenMarks(i), sink) }

  function Straights(sink: seq<Delivery>, i: nat): seq<Event> { Flat(StraightMarks(i), sink) }

  function Forwards(sink: seq<Delivery>, i: nat): seq<Event> { Flat(ForwardMarks(i), sink) }

  function Waiting(m: Mode): seq<Event> {
    if m.Flushing? then m.rest else []
  }

  /** The response of a request, empty as long as the handler has not returned it. */
  function Promised(t: Task): seq<Event> {
    if HandedOff(t) then t.out else []
  }

  /** Connection `k` serves request `i` in order. */
  predicate Ordered(k: Conn, i: nat, handed: bool, promised: seq<Event>) {
    && Seen(k.sink, i) == Straights(k.sink, i) + Forwards(k.sink, i)
    && Straights(k.sink, i) + Own(Waiting(k.mode), i) <= promised
    && (!k.mode.Closed? ==> Straights(k.sink, i) + Own(Waiting(k.mode), i) == promised)
    && (Forwards(k.sink, i) != [] ==> handed && Straights(k.sink, i) == promised)
  }

  /** Forwarded frames sit in the sink in the order of the broadcast channel. */
  predicate InOrder(k: Conn, casts: seq<Event>) {
    && k.cursor <= |casts|
    && (forall a :: 0 <= a < |k.sink| && k.sink[a].Forwarded? ==>
          k.sink[a].position < k.cursor && k.sink[a].event == casts[k.sink[a].position])
    && (forall a, b :: 0 <= a < b < |k.sink| && k.sink[a].Forwarded? && k.sink[b].Forwarded? ==>
          k.sink[a].position < k.sink[b].position)
  }

  predicate OwnOut(t: Task, i: nat) {
    forall k :: 0 <= k < |t.out| ==> t.out[k].Shown? && t.out[k].owner == i
  }

  predicate OwnersBelow(es: seq<Event>, n: nat) {
    forall k :: 0 <= k < |es| && es[k].Shown? ==> es[k].owner < n
  }

  predicate SinkBelow(sink: seq<Delivery>, n: nat) {
    forall k :: 0 <= k < |sink| && sink[k].event.Shown? ==> sink[k].event.owner < n
  }

  predicate CastOk(tasks: seq<Task>, e: Event) {
    e.Shown? && e.owner < |tasks| && HandedOff(tasks[e.owner])
  }

  predicate ConnBelow(k: Conn, n: nat) {
    SinkBelow(k.sink, n) && OwnersBelow(Waiting(k.mode), n)
  }

  predicate TaskOrdered(s: State, i: nat)
    requires i < |s.tasks|
  {
    var t := s.tasks[i];
    && t.conn < |s.conns|
    && OwnOut(t, i)
    && Ordered(s.conns[t.conn], i, HandedOff(t), Promised(t))
  }

  predicate InvDelivery(s: State) {
    && (forall i :: 0 <= i < |s.tasks| ==> TaskOrdered(s, i))
    && (forall c :: 0 <= c < |s.conns| ==> InOrder(s.conns[c], s.casts) && ConnBelow(s.conns[c], |s.tasks|))
    && (forall k :: 0 <= k < |s.casts| ==> CastOk(s.tasks, s.casts[k]))
  }

  // ----- small facts --------------------------------------------------------------------

  lemma SinkSnoc(sink: seq<Delivery>, d: Delivery, i: nat)
    ensures Seen(sink + [d], i) == Seen(sink, i) + OwnMark(i, d.event)
    ensures Straights(sink + [d], i) == Straights(sink, i) + (if d.Straight? then OwnMark(i, d.event) else [])
    ensures Forwards(sink + [d], i) == Forwards(sink, i) + (if d.Forwarded? then OwnMark(i, d.event) else [])
  {
    FlatSnoc(SeenMarks(i), sink, d);
    FlatSnoc(StraightMarks(i), sink, d);
    FlatSnoc(ForwardMarks(i), sink, d);
  }

  lemma OwnCons(es: seq<Event>, i: nat)
    requires es != []
    ensures Own(es, i) == OwnMark(i, es[0]) + Own(es[1..], i)
  {
    FlatConcat(OwnMarks(i), [es[0]], es[1..]);
    Flat1(OwnMarks(i), es[0]);
    assert [es[0]] + es[1..] == es;
  }

  lemma {:induction false} OwnAll(es: seq<Event>, i: nat)
    requires forall k :: 0 <= k < |es| ==> es[k].Shown? && es[k].owner == i
    ensures Own(es, i) == es
  {
    if es != [] {
      OwnAll(es[..|es| - 1], i);
      assert es[..|es| - 1] + [es[|es| - 1]] == es;
    }
  }

  lemma OwnNone(es: seq<Event>, i: nat)
    requires forall k :: 0 <= k < |es| && es[k].Shown? ==> es[k].owner != i
    ensures Own(es, i) == []
  {
    FlatEmpty(OwnMarks(i), es);
  }

  lemma SinkNone(sink: seq<Delivery>, i: nat)
    requires SinkBelow(sink, i)
    ensures Seen(sink, i) == [] && Straights(sink, i) == [] && Forwards(sink, i) == []
  {
    FlatEmpty(SeenMarks(i), sink);
    FlatEmpty(StraightMarks(i), sink);
    FlatEmpty(ForwardMarks(i), sink);
  }

  // ----- steps of tasks ---------------------------------------------------------------------

  /** A task moves without showing anything and without handing off. */
  lemma QuietTask(s: State, s': State, i: nat)
    requires InvDelivery(s) && i < |s.tasks| == |s'.tasks|
    requires s'.conns == s.conns && s'.casts == s.casts
    requires forall j :: 0 <= j < |s.tasks| && j != i ==> s'.tasks[j] == s.tasks[j]
    requires s'.tasks[i].conn == s.tasks[i].conn && HandedOff(s'.tasks[i]) == HandedOff(s.tasks[i])
    requires OwnOut(s'.tasks[i], i)
    requires HandedOff(s.tasks[i]) ==> s'.tasks[i].out == s.tasks[i].out
    ensures InvDelivery(s')
  {
    forall j | 0 <= j < |s'.tasks| ensures TaskOrdered(s', j) {
      assert TaskOrdered(s, j);
    }
    forall k | 0 <= k < |s'.casts| ensures CastOk(s'.tasks, s'.casts[k]) {
      assert CastOk(s.tasks, s.casts[k]);
    }
  }

  lemma CastDelivery(s: State, s': State, i: nat, e: Event)
    requires InvDelivery(s) && i < |s.tasks| == |s'.tasks|
    requires s'.conns == s.conns && s'.casts == s.casts + [e]
    requires forall j :: 0 <= j < |s.tasks| && j != i ==> s'.tasks[j] == s.tasks[j]
    requires s'.tasks[i].conn == s.tasks[i].conn && s'.tasks[i].out == s.tasks[i].out
    requires HandedOff(s.tasks[i]) && HandedOff(s'.tasks[i]) && e.Shown? && e.owner == i
    ensures InvDelivery(s')
  {
    forall j | 0 <= j < |s'.tasks| ensures TaskOrdered(s', j) {
      assert TaskOrdered(s, j);
    }
    forall c | 0 <= c < |s'.conns| ensures InOrder(s'.conns[c], s'.casts) && ConnBelow(s'.conns[c], |s'.tasks|) {
      assert InOrder(s.conns[c], s.casts);
    }
    forall k | 0 <= k < |s'.casts| ensures CastOk(s'.tasks, s'.casts[k]) {
      if k < |s.casts| { assert CastOk(s.tasks, s.casts[k]); }
    }
  }

  /** The response goes to the connection; nobody else's frames are waiting there. */
  lemma HandoffOrdered(k: Conn, out: seq<Event>, i: nat, j: nat, handed: bool, promised: seq<Event>)
    requires Waiting(k.mode) == [] && !k.mode.Closed? && Ordered(k, j, handed, promised)
    requires forall n :: 0 <= n < |out| ==> out[n].Shown? && out[n].owner == i
    requires j == i ==> !handed && promised == []
    ensures Ordered(k.(mode := Flushing(out)), j, j == i || handed, if j == i then out else promised)
  {
    assert Own([], j) == [];
    assert Straights(k.sink, j) + [] == Straights(k.sink, j);
    if j == i {
      OwnAll(out, i);
      assert [] + out == out;
    } else {
      OwnNone(out, j);
    }
  }

  lemma HandoffDelivery(s: State, s': State, i: nat)
    requires InvDelivery(s) && i < |s.tasks| == |s'.tasks| && s'.casts == s.casts
    requires s.tasks[i].conn < |s.conns| && s.conns[s.tasks[i].conn].mode == Dispatching(i)
    requires !HandedOff(s.tasks[i]) && HandedOff(s'.tasks[i])
    requires s'.tasks[i].conn == s.tasks[i].conn && s'.tasks[i].out == s.tasks[i].out
    requires forall j :: 0 <= j < |s.tasks| && j != i ==> s'.tasks[j] == s.tasks[j]
    requires s'.conns == SetMode(s, s.tasks[i].conn, Flushing(s.tasks[i].out))
    ensures InvDelivery(s')
  {
    var t := s.tasks[i];
    var k := s.conns[t.conn];
    assert TaskOrdered(s, i);
    forall j | 0 <= j < |s'.tasks| ensures TaskOrdered(s', j) {
      assert TaskOrdered(s, j);
      if s.tasks[j].conn == t.conn {
        HandoffOrdered(k, t.out, i, j, HandedOff(s.tasks[j]), Promised(s.tasks[j]));
      }
    }
    forall c | 0 <= c < |s'.conns| ensures InOrder(s'.conns[c], s'.casts) && ConnBelow(s'.conns[c], |s'.tasks|) {
      assert InOrder(s.conns[c], s.casts) && ConnBelow(s.conns[c], |s.tasks|);
    }
    forall n | 0 <= n < |s'.casts| ensures CastOk(s'.tasks, s'.casts[n]) {
      assert CastOk(s.tasks, s.casts[n]);
    }
  }

  lemma PerformHandoffDelivery(s: State, i: nat, millis: nat)
    requires InvShape(s) && InvBusy(s) && InvDelivery(s) && i < |s.tasks| && Fits(s.tasks[i], Handoff)
    ensures InvDelivery(Perform(s, i, Handoff, millis))
  {
    var t, s' := s.tasks[i], Perform(s, i, Handoff, millis);
    PerformHandoff(s, t, i, Handoff, millis);
    HandoffDelivery(s, s', i);
  }

  lemma PerformCastDelivery(s: State, i: nat, f: Frame, millis: nat)
    requires InvDelivery(s) && i < |s.tasks| && Fits(s.tasks[i], Cast(f))
    ensures InvDelivery(Perform(s, i, Cast(f), millis))
  {
    var t, s' := s.tasks[i], Perform(s, i, Cast(f), millis);
    PerformHandoff(s, t, i, Cast(f), millis);
    CastDelivery(s, s', i, Shown(i, f, CorrelationOf(t)));
  }

  lemma PerformQuietDelivery(s: State, i: nat, op: Op, millis: nat)
    requires InvDelivery(s) && i < |s.tasks| && Fits(s.tasks[i], op) && !op.Handoff? && !op.Cast?
    ensures InvDelivery(Perform(s, i, op, millis))
  {
    hide Ordered, InOrder, ConnBelow, CastOk, ChansAfter, RegistryAfter, ScriptSize, RunAt, WillRun, HandoffAt;
    PerformHandoff(s, s.tasks[i], i, op, millis);
    assert TaskOrdered(s, i);
    QuietTask(s, Perform(s, i, op, millis), i);
  }

  lemma PerformDelivery(s: State, i: nat, op: Op, millis: nat)
    requires InvShape(s) && InvBusy(s) && InvDelivery(s) && i < |s.tasks| && Fits(s.tasks[i], op)
    ensures InvDelivery(Perform(s, i, op, millis))
  {
    match op
    case Handoff => PerformHandoffDelivery(s, i, millis);
    case Cast(f) => PerformCastDelivery(s, i, f, millis);
    case _ => PerformQuietDelivery(s, i, op, millis);
  }

  lemma AnswerDelivery(s: State, i: nat, o: Outcome, rx: Rx)
    requires InvShape(s) && InvDelivery(s) && Listens(s, i) && Waits(s.tasks[i])
    ensures InvDelivery(Answer(s, i, o, rx))
  {
    AnswerHandoff(s.tasks[i], o);
    assert TaskOrdered(s, i);
    QuietTask(s, Answer(s, i, o, rx), i);
  }

  lemma CallDelivery(s: State, i: nat, ok: bool)
    requires InvShape(s) && InvDelivery(s) && i < |s.tasks| && Ready(s.tasks[i])
    ensures InvDelivery(Call(s, i, ok))
  {
    CallHandoff(s.tasks[i], ok);
    assert TaskOrdered(s, i);
    QuietTask(s, Call(s, i, ok), i);
  }

  lemma TimerDelivery(route: Route, s: State, step: Step)
    requires InvDelivery(s) && Enabled(s, step)
    requires TimerStep(step)
    ensures InvDelivery(Apply(route, s, step))
  {
    hide Ordered, InOrder, ConnBelow, CastOk, HandoffAt, NextOp, Finished, Program;
    assert TaskOrdered(s, step.task);
    QuietTask(s, Apply(route, s, step), step.task);
  }

  // ----- steps of connections ---------------------------------------------------------------

  /** One connection changes; its requests stay in order there. */
  lemma OneConnDelivery(s: State, s': State, c: nat)
    requires InvDelivery(s) && c < |s.conns| == |s'.conns|
    requires s'.tasks == s.tasks && s'.casts == s.casts
    requires forall d :: 0 <= d < |s.conns| && d != c ==> s'.conns[d] == s.conns[d]
    requires InOrder(s'.conns[c], s.casts) && ConnBelow(s'.conns[c], |s.tasks|)
    requires forall i :: 0 <= i < |s.tasks| && s.tasks[i].conn == c ==>
      Ordered(s'.conns[c], i, HandedOff(s.tasks[i]), Promised(s.tasks[i]))
    ensures InvDelivery(s')
  {
    forall i | 0 <= i < |s'.tasks| ensures TaskOrdered(s', i) {
      assert TaskOrdered(s, i);
    }
  }

  /** A change of mode that leaves nothing of any request waiting before or after. */
  lemma ModeDelivery(s: State, s': State, c: nat, m: Mode)
    requires InvDelivery(s) && c < |s.conns| && s'.conns == SetMode(s, c, m)
    requires s'.tasks == s.tasks && s'.casts == s.casts
    requires forall k :: 0 <= k < |Waiting(m)| ==> !Waiting(m)[k].Shown?
    requires m.Closed? || Waiting(s.conns[c].mode) == []
    requires s.conns[c].mode.Closed? ==> m.Closed?
    ensures InvDelivery(s')
  {
    var k := s.conns[c];
    assert InOrder(k, s.casts) && ConnBelow(k, |s.tasks|);
    forall i | 0 <= i < |s.tasks| && s.tasks[i].conn == c
      ensures Ordered(s'.conns[c], i, HandedOff(s.tasks[i]), Promised(s.tasks[i]))
    {
      assert TaskOrdered(s, i);
      OwnNone(Waiting(m), i);
      assert Straights(k.sink, i) + [] == Straights(k.sink, i);
    }
    OneConnDelivery(s, s', c);
  }

  lemma FlushOrdered(k: Conn, i: nat, handed: bool, promised: seq<Event>)
    requires k.mode.Flushing? && k.mode.rest != [] && Ordered(k, i, handed, promised)
    ensures Ordered(Conn(Flushing(k.mode.rest[1..]), k.cursor, k.sink + [Straight(k.mode.rest[0])]), i, handed, promised)
  {
    var e, rest := k.mode.rest[0], k.mode.rest[1..];
    SinkSnoc(k.sink, Straight(e), i);
    OwnCons(k.mode.rest, i);
    var own := OwnMark(i, e);
    assert (Straights(k.sink, i) + own) + Own(rest, i) == Straights(k.sink, i) + (own + Own(rest, i));
    if own != [] {
      assert Forwards(k.sink, i) == [] by {
        assert |Straights(k.sink, i) + Own(k.mode.rest, i)| == |promised|;
      }
      assert Seen(k.sink, i) == Straights(k.sink, i);
    }
  }

  lemma FlushDelivery(route: Route, s: State, c: nat)
    requires InvDelivery(s) && Enabled(s, Flush(c))
    ensures InvDelivery(Apply(route, s, Flush(c)))
  {
    var k, s' := s.conns[c], Apply(route, s, Flush(c));
    assert InOrder(k, s.casts) && ConnBelow(k, |s.tasks|);
    if k.mode.rest == [] {
      ModeDelivery(s, s', c, Idle);
    } else {
      forall i | 0 <= i < |s.tasks| && s.tasks[i].conn == c
        ensures Ordered(s'.conns[c], i, HandedOff(s.tasks[i]), Promised(s.tasks[i]))
      {
        assert TaskOrdered(s, i);
        FlushOrdered(k, i, HandedOff(s.tasks[i]), Promised(s.tasks[i]));
      }
      OneConnDelivery(s, s', c);
    }
  }

  lemma ForwardOrdered(k: Conn, e: Event, i: nat, handed: bool, promised: seq<Event>)
    requires k.mode.Idle? && Ordered(k, i, handed, promised)
    requires e.Shown? && e.owner == i ==> handed
    ensures Ordered(Conn(Idle, k.cursor + 1, k.sink + [Forwarded(e, k.cursor)]), i, handed, promised)
  {
    SinkSnoc(k.sink, Forwarded(e, k.cursor), i);
    var own := OwnMark(i, e);
    assert Straights(k.sink, i) + [] == Straights(k.sink, i);
    assert (Straights(k.sink, i) + Forwards(k.sink, i)) + own == Straights(k.sink, i) + (Forwards(k.sink, i) + own);
  }

  /** A lagging connection skips to the oldest frame the channel still holds. */
  lemma SkipDelivery(s: State, s': State, c: nat, cursor: nat)
    requires InvDelivery(s) && c < |s.conns| && s.conns[c].cursor <= cursor <= |s.casts|
    requires s'.tasks == s.tasks && s'.casts == s.casts && s'.conns == s.conns[c := s.conns[c].(cursor := cursor)]
    ensures InvDelivery(s')
  {
    var k := s.conns[c];
    assert InOrder(k, s.casts) && ConnBelow(k, |s.tasks|);
    forall i | 0 <= i < |s.tasks| && s.tasks[i].conn == c
      ensures Ordered(s'.conns[c], i, HandedOff(s.tasks[i]), Promised(s.tasks[i]))
    {
      assert TaskOrdered(s, i);
    }
    OneConnDelivery(s, s', c);
  }

  lemma ReceiveDelivery(s: State, s': State, c: nat)
    requires InvDelivery(s) && c < |s.conns| && s.conns[c].mode.Idle? && s.conns[c].cursor < |s.casts|
    requires s'.tasks == s.tasks && s'.casts == s.casts
    requires s'.conns == s.conns[c := Conn(Idle, s.conns[c].cursor + 1,
                                           s.conns[c].sink + [Forwarded(s.casts[s.conns[c].cursor], s.conns[c].cursor)])]
    ensures InvDelivery(s')
  {
    var k := s.conns[c];
    assert InOrder(k, s.casts) && ConnBelow(k, |s.tasks|);
    var e := s.casts[k.cursor];
    assert CastOk(s.tasks, e);
    forall i | 0 <= i < |s.tasks| && s.tasks[i].conn == c
      ensures Ordered(s'.conns[c], i, HandedOff(s.tasks[i]), Promised(s.tasks[i]))
    {
      assert TaskOrdered(s, i);
      ForwardOrdered(k, e, i, HandedOff(s.tasks[i]), Promised(s.tasks[i]));
    }
    OneConnDelivery(s, s', c);
  }

  lemma ForwardDelivery(route: Route, s: State, c: nat, lost: nat)
    requires InvDelivery(s) && Enabled(s, Forward(c, lost))
    ensures InvDelivery(Apply(route, s, Forward(c, lost)))
  {
    var s' := Apply(route, s, Forward(c, lost));
    var missed := Missed(|s.casts| - s.conns[c].cursor, lost);
    if missed > 0 {
      SkipDelivery(s, s', c, s.conns[c].cursor + missed);
    } else {
      ReceiveDelivery(s, s', c);
    }
  }

  lemma ConnectDelivery(route: Route, s: State)
    requires InvDelivery(s)
    ensures InvDelivery(Apply(route, s, Connect))
  {
    var s' := Apply(route, s, Connect);
    forall i | 0 <= i < |s'.tasks| ensures TaskOrdered(s', i) {
      assert TaskOrdered(s, i);
    }
  }

  lemma AdmitHandoff(t: Task)
    requires t.plan.Valid() && t.pc == 0 && t.answer.None? && t.ran.None?
    ensures !HandedOff(t)
  {
    PartSizes(t.plan, None, None);
  }

  /** A connection starts to dispatch: nothing of the new request is there yet. */
  lemma AdmitConn(k: Conn, n: nat, casts: seq<Event>)
    requires InOrder(k, casts) && ConnBelow(k, n) && k.mode.Idle?
    ensures var k' := k.(mode := Dispatching(n));
      InOrder(k', casts) && ConnBelow(k', n + 1) && Ordered(k', n, false, [])
  {
    SinkNone(k.sink, n);
    OwnNone([], n);
  }

  lemma AdmitOrdered(k: Conn, n: nat, i: nat, handed: bool, promised: seq<Event>)
    requires k.mode.Idle? && Ordered(k, i, handed, promised)
    ensures Ordered(k.(mode := Dispatching(n)), i, handed, promised)
  {
  }

  lemma BelowMore(k: Conn, n: nat)
    requires ConnBelow(k, n)
    ensures ConnBelow(k, n + 1)
  {
  }

  lemma AdmitDelivery(s: State, c: nat, flow: Flow, plan: Plan)
    requires InvDelivery(s) && c < |s.conns| && s.conns[c].mode.Idle? && plan.Valid()
    ensures InvDelivery(Admit(s, c, flow, plan))
  {
    hide Ordered, InOrder, ConnBelow, HandedOff;
    var s', n := Admit(s, c, flow, plan), |s.tasks|;
    var k, k' := s.conns[c], s'.conns[c];
    AdmitHandoff(s'.tasks[n]);
    AdmitConn(k, n, s.casts);
    forall i | 0 <= i < |s'.tasks| ensures TaskOrdered(s', i) {
      if i < n {
        assert TaskOrdered(s, i);
        if s.tasks[i].conn == c { AdmitOrdered(k, n, i, HandedOff(s.tasks[i]), Promised(s.tasks[i])); }
      }
    }
    forall d | 0 <= d < |s'.conns| ensures InOrder(s'.conns[d], s'.casts) && ConnBelow(s'.conns[d], |s'.tasks|) {
      assert InOrder(s.conns[d], s.casts) && ConnBelow(s.conns[d], |s.tasks|);
      BelowMore(s.conns[d], n);
    }
    forall k | 0 <= k < |s'.casts| ensures CastOk(s'.tasks, s'.casts[k]) {
      assert CastOk(s.tasks, s.casts[k]);
    }
  }

  lemma ConnDelivery(route: Route, s: State, step: Step)
    requires InvDelivery(s) && Enabled(s, step)
    requires step.ResolveTake? || step.ResolveSend? || step.NoteRejection? || step.Hangup?
    ensures InvDelivery(Apply(route, s, step))
  {
    var s' := Apply(route, s, step);
    ModeDelivery(s, s', step.conn, s'.conns[step.conn].mode);
  }

  lemma ConnStepDelivery(route: Route, s: State, step: Step)
    requires InvDelivery(s) && Enabled(s, step) && ConnStep(step)
    ensures InvDelivery(Apply(route, s, step))
  {
    match step
    case Connect => ConnectDelivery(route, s);
    case Flush(c) => FlushDelivery(route, s, c);
    case Forward(c, lost) => ForwardDelivery(route, s, c, lost);
    case _ => ConnDelivery(route, s, step);
  }

  lemma RunDelivery(s: State, i: nat, millis: nat)
    requires InvShape(s) && InvBusy(s) && InvDelivery(s) && Enabled(s, Run(i, millis))
    ensures InvDelivery(Advance(s, i, millis))
  {
    RunFits(s, i, millis);
    PerformDelivery(s, i, NextOp(s.tasks[i]), millis);
  }

  lemma ActDelivery(s: State, i: nat, ok: bool)
    requires InvShape(s) && InvDelivery(s) && Enabled(s, Act(i, ok))
    ensures InvDelivery(Call(s, i, ok))
  {
    ActFits(s, i, ok);
    CallDelivery(s, i, ok);
  }

  lemma EndDelivery(route: Route, s: State, step: Step)
    requires InvShape(s) && InvSent(s) && InvDelivery(s) && Enabled(s, step) && EndStep(step)
    ensures InvDelivery(Apply(route, s, step))
  {
    var i, o, rx := EndsWait(route, s, step);
    AnswerDelivery(s, i, o, rx);
  }

  lemma DeliveryPreserved(route: Route, s: State, step: Step)
    requires InvShape(s) && InvSent(s) && InvBusy(s) && InvDelivery(s) && Enabled(s, step)
    ensures InvDelivery(Apply(route, s, step))
  {
    if ConnStep(step) {
      ConnStepDelivery(route, s, step);
    } else if TimerStep(step) {
      TimerDelivery(route, s, step);
    } else if EndStep(step) {
      EndDelivery(route, s, step);
    } else {
      match step
      case Begin(c, flow) => AdmitDelivery(s, c, flow, route(flow));
      case Run(i, millis) => RunDelivery(s, i, millis);
      case Act(i, ok) => ActDelivery(s, i, ok);
    }
  }
}
