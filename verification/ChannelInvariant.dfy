/** Third layer: where the sending half of every approval channel is.  A live sender is in the
    registry under its own id or in the hands of exactly one resolver, never both. */
module ChannelInvariant {
  import opened Common
  import Ids
  import opened Lifecycle
  import LifecycleShape
  import opened Protocol
  import opened TaskInvariant
  import opened BusyInvariant

  /** What the owner's progress says about both halves of its channel. */
  predicate ChanShape(t: Task, ch: Chan) {
    && (t.pc <= LifecycleShape.RegisterAt(t.plan.style) ==> ch.tx == NotYet && ch.rx == Unborn)
    && (t.pc > LifecycleShape.RegisterAt(t.plan.style) ==>
          && ch.tx != NotYet
          && (t.answer.None? ==> ch.rx == Open && (ch.tx.Alive? || ch.tx.Sent?))
          && (t.answer.Some? ==>
                && t.answer.value.source != System
                && (t.answer.value.source == User ==> ch.rx == Received && ch.tx == Sent(t.answer.value.decision))
                && (t.answer.value.source == Timeout ==> ch.rx == Gone)))
  }

  predicate Owns(s: State, i: nat, n: nat) {
    i < |s.tasks| && n < |s.chans| && s.tasks[i].approval == Some(n) && s.chans[n].owner == i
  }

  /** Approval ids and waiting requests correspond one to one. */
  ghost predicate InvOwner(s: State) {
    && (forall i :: 0 <= i < |s.tasks| && s.tasks[i].approval.Some? ==> Owns(s, i, s.tasks[i].approval.value))
    && (forall n :: 0 <= n < |s.chans| ==> Owns(s, s.chans[n].owner, n))
  }

  ghost predicate InvChan(s: State)
    requires InvOwner(s)
  {
    forall n :: 0 <= n < |s.chans| ==> ChanShape(s.tasks[s.chans[n].owner], s.chans[n])
  }

  predicate Holds(s: State, c: nat, n: nat) {
    c < |s.conns| && s.conns[c].mode.Holding? && s.conns[c].mode.chan == n
  }

  predicate SameHold(s: State, c: nat, d: nat) {
    && c < |s.conns| && d < |s.conns|
    && s.conns[c].mode.Holding? && s.conns[d].mode.Holding?
    && s.conns[c].mode.chan == s.conns[d].mode.chan
  }

  predicate Registered(s: State, n: nat) {
    IdOf(n) in s.registry && s.registry[IdOf(n)] == n
  }

  ghost predicate InvRegistry(s: State) {
    && (forall id :: id in s.registry ==>
          var n := s.registry[id]; n < |s.chans| && id == IdOf(n) && s.chans[n].tx.Alive?)
    && (forall c :: 0 <= c < |s.conns| && s.conns[c].mode.Holding? ==>
          var m := s.conns[c].mode; m.chan < |s.chans| && m.id == IdOf(m.chan) && s.chans[m.chan].tx.Alive? && m.id !in s.registry)
    && (forall c, d :: 0 <= c < |s.conns| && 0 <= d < |s.conns| && SameHold(s, c, d) ==> c == d)
    && (forall n :: 0 <= n < |s.chans| && s.chans[n].tx.Alive? ==> Registered(s, n) || exists c :: Holds(s, c, n))
  }

  /** Once the timeout arm has run its own take, the id is out of the registry for good. */
  ghost predicate InvTaken(s: State) {
    forall i :: 0 <= i < |s.tasks| && TakenBack(s.tasks[i]) ==> IdOf(s.tasks[i].approval.value) !in s.registry
  }

  predicate TakenBack(t: Task) {
    && t.approval.Some? && t.answer.Some? && t.answer.value.source == Timeout
    && t.pc > LifecycleShape.WaitAt(t.plan.style) + 1
  }

  ghost predicate InvTokens(s: State) {
    InvOwner(s) && InvChan(s) && InvRegistry(s) && InvTaken(s)
  }

  lemma IdOfInjective(m: nat, n: nat)
    requires IdOf(m) == IdOf(n)
    ensures m == n
  {
    Ids.CounterIdInjective("apr_", m + 1, n + 1);
  }

  /** The registry layer looks at senders, keys and holders only. */
  lemma RegistryFrame(s: State, s': State)
    requires InvRegistry(s) && s'.registry == s.registry && |s.chans| <= |s'.chans| && |s.conns| <= |s'.conns|
    requires forall n :: 0 <= n < |s.chans| ==> s'.chans[n].tx == s.chans[n].tx
    requires forall n :: |s.chans| <= n < |s'.chans| ==> s'.chans[n].tx == NotYet
    requires forall c :: 0 <= c < |s.conns| ==> (s.conns[c].mode.Holding? || s'.conns[c].mode.Holding? ==> s'.conns[c].mode == s.conns[c].mode)
    requires forall c :: |s.conns| <= c < |s'.conns| ==> !s'.conns[c].mode.Holding?
    ensures InvRegistry(s')
  {
    forall n | 0 <= n < |s'.chans| && s'.chans[n].tx.Alive?
      ensures Registered(s', n) || exists c :: Holds(s', c, n)
    {
      if !Registered(s, n) {
        var c :| Holds(s, c, n);
        assert Holds(s', c, n);
      }
    }
    forall c, d | 0 <= c < |s'.conns| && 0 <= d < |s'.conns| && SameHold(s', c, d) ensures c == d {
      assert SameHold(s, c, d);
    }
  }

  /** A step that keeps registry, senders and receivers and moves one task within a phase. */
  lemma OneTaskTokens(s: State, s': State, i: nat)
    requires InvTokens(s) && InvRegistry(s')
    requires i < |s.tasks| == |s'.tasks| && s'.chans == s.chans && s'.registry == s.registry
    requires forall j :: 0 <= j < |s.tasks| && j != i ==> s'.tasks[j] == s.tasks[j]
    requires s'.tasks[i].approval == s.tasks[i].approval
    requires s.tasks[i].approval.Some? ==> ChanShape(s'.tasks[i], s.chans[s.tasks[i].approval.value])
    requires TakenBack(s'.tasks[i]) ==> TakenBack(s.tasks[i])
    ensures InvTokens(s')
  {
    forall n | 0 <= n < |s'.chans|
      ensures Owns(s', s'.chans[n].owner, n) && ChanShape(s'.tasks[s'.chans[n].owner], s'.chans[n])
    {
      assert Owns(s, s.chans[n].owner, n);
    }
    forall j | 0 <= j < |s'.tasks| && s'.tasks[j].approval.Some?
      ensures Owns(s', j, s'.tasks[j].approval.value)
    {
      assert Owns(s, j, s.tasks[j].approval.value);
    }
  }

  // ----- operations of tasks ----------------------------------------------------------------

  /** The shape of a channel survives every operation other than its own registration. */
  lemma PerformChanShape(s: State, t: Task, i: nat, op: Op, millis: nat, ch: Chan)
    requires Fits(t, op) && t.plan.gate == Gated && ChanShape(t, ch) && !op.Register?
    ensures ChanShape(TaskAfter(s, t, i, op, millis), ch)
  {
  }

  lemma PlainTokens(s: State, i: nat, op: Op, millis: nat)
    requires InvShape(s) && InvBusy(s) && InvTokens(s) && i < |s.tasks| && Fits(s.tasks[i], op)
    requires !op.DrawApproval? && !op.Register? && !op.Take?
    ensures InvTokens(Perform(s, i, op, millis))
  {
    var t, s' := s.tasks[i], Perform(s, i, op, millis);
    if t.approval.Some? {
      assert Owns(s, i, t.approval.value);
      PerformChanShape(s, t, i, op, millis, s.chans[t.approval.value]);
    }
    if op.Handoff? { assert s.conns[t.conn].mode == Dispatching(i); }
    RegistryFrame(s, s');
    OneTaskTokens(s, s', i);
  }

  lemma DrawTokens(s: State, i: nat, op: Op, millis: nat)
    requires InvShape(s) && InvTokens(s) && i < |s.tasks| && Fits(s.tasks[i], op) && op.DrawApproval?
    ensures InvTokens(Perform(s, i, op, millis))
  {
    hide InvRegistry, IdOf;
    var t, s' := s.tasks[i], Perform(s, i, op, millis);
    RegistryFrame(s, s');
    assert t.approval.None?;
    forall n | 0 <= n < |s'.chans|
      ensures Owns(s', s'.chans[n].owner, n) && ChanShape(s'.tasks[s'.chans[n].owner], s'.chans[n])
    {
      if n < |s.chans| { assert Owns(s, s.chans[n].owner, n); }
    }
    forall j | 0 <= j < |s'.tasks| && s'.tasks[j].approval.Some?
      ensures Owns(s', j, s'.tasks[j].approval.value)
    {
      if j != i { assert Owns(s, j, s.tasks[j].approval.value); }
    }
  }

  /** A fresh id is never in the registry, so `insert` overwrites nothing. */
  lemma FreshKey(s: State, n: nat)
    requires InvRegistry(s) && n < |s.chans| && !s.chans[n].tx.Alive?
    ensures IdOf(n) !in s.registry
    ensures forall c :: 0 <= c < |s.conns| && s.conns[c].mode.Holding? ==> s.conns[c].mode.id != IdOf(n)
  {
    if IdOf(n) in s.registry { IdOfInjective(s.registry[IdOf(n)], n); }
    forall c | 0 <= c < |s.conns| && s.conns[c].mode.Holding? ensures s.conns[c].mode.id != IdOf(n) {
      if s.conns[c].mode.id == IdOf(n) { IdOfInjective(s.conns[c].mode.chan, n); }
    }
  }

  lemma RegisterRegistry(s: State, s': State, n: nat)
    requires InvRegistry(s) && n < |s.chans| == |s'.chans| && s.chans[n].tx == NotYet
    requires s'.registry == s.registry[IdOf(n) := n] && s'.conns == s.conns
    requires s'.chans[n].tx == Alive
    requires forall m :: 0 <= m < |s.chans| && m != n ==> s'.chans[m] == s.chans[m]
    ensures InvRegistry(s')
  {
    FreshKey(s, n);
    forall m | 0 <= m < |s'.chans| && s'.chans[m].tx.Alive?
      ensures Registered(s', m) || exists c :: Holds(s', c, m)
    {
      if m != n {
        if Registered(s, m) {
          if IdOf(m) == IdOf(n) { IdOfInjective(m, n); }
          assert Registered(s', m);
        } else {
          var c :| Holds(s, c, m);
          assert Holds(s', c, m);
        }
      }
    }
    forall c, d | 0 <= c < |s'.conns| && 0 <= d < |s'.conns| && SameHold(s', c, d) ensures c == d {
      assert SameHold(s, c, d);
    }
  }

  /** Owners are compared channel by channel; only channel `n` and task `i` changed. */
  lemma OwnersFrame(s: State, s': State, i: nat, n: nat)
    requires InvOwner(s) && InvChan(s) && Owns(s, i, n)
    requires |s'.tasks| == |s.tasks| && |s'.chans| == |s.chans|
    requires forall j :: 0 <= j < |s.tasks| && j != i ==> s'.tasks[j] == s.tasks[j]
    requires forall m :: 0 <= m < |s.chans| && m != n ==> s'.chans[m] == s.chans[m]
    requires s'.tasks[i].approval == s.tasks[i].approval && s'.chans[n].owner == i
    requires ChanShape(s'.tasks[i], s'.chans[n])
    ensures InvOwner(s') && InvChan(s')
  {
    forall m | 0 <= m < |s'.chans|
      ensures Owns(s', s'.chans[m].owner, m) && ChanShape(s'.tasks[s'.chans[m].owner], s'.chans[m])
    {
      assert Owns(s, s.chans[m].owner, m);
    }
    forall j | 0 <= j < |s'.tasks| && s'.tasks[j].approval.Some?
      ensures Owns(s', j, s'.tasks[j].approval.value)
    {
      assert Owns(s, j, s.tasks[j].approval.value);
    }
  }

  lemma RegisterTaken(s: State, s': State, i: nat, n: nat)
    requires InvOwner(s) && InvTaken(s) && Owns(s, i, n) && |s'.tasks| == |s.tasks|
    requires forall j :: 0 <= j < |s.tasks| && j != i ==> s'.tasks[j] == s.tasks[j]
    requires s'.registry == s.registry[IdOf(n) := n] && !TakenBack(s'.tasks[i])
    ensures InvTaken(s')
  {
    forall j | 0 <= j < |s'.tasks| && TakenBack(s'.tasks[j])
      ensures IdOf(s'.tasks[j].approval.value) !in s'.registry
    {
      var m := s.tasks[j].approval.value;
      assert Owns(s, j, m);
      if IdOf(m) == IdOf(n) { IdOfInjective(m, n); }
    }
  }

  lemma RegisterTokens(s: State, i: nat, op: Op, millis: nat)
    requires InvShape(s) && InvTokens(s) && i < |s.tasks| && Fits(s.tasks[i], op) && op.Register?
    ensures InvTokens(Perform(s, i, op, millis))
  {
    var t, s' := s.tasks[i], Perform(s, i, op, millis);
    var n := t.approval.value;
    assert Owns(s, i, n);
    FreshKey(s, n);
    assert s'.chans == s.chans[n := s.chans[n].(tx := Alive, rx := Open)];
    RegisterRegistry(s, s', n);
    OwnersFrame(s, s', i, n);
    RegisterTaken(s, s', i, n);
  }

  /** Fewer ids in the registry, and no task further. */
  lemma FewerKeysTaken(s: State, s': State)
    requires InvTaken(s) && s'.tasks == s.tasks && s'.registry.Keys <= s.registry.Keys
    ensures InvTaken(s')
  {
    forall j | 0 <= j < |s'.tasks| && TakenBack(s'.tasks[j])
      ensures IdOf(s'.tasks[j].approval.value) !in s'.registry
    {
      assert IdOf(s.tasks[j].approval.value) !in s.registry;
      assert IdOf(s.tasks[j].approval.value) !in s.registry.Keys;
    }
  }

  /** Removing `id` from the registry and dropping the sender it held. */
  lemma TakeRegistry(s: State, s': State, n: nat)
    requires InvRegistry(s) && n < |s.chans|
    requires s'.registry == s.registry - {IdOf(n)} && s'.conns == s.conns
    requires s'.chans == DropRegistered(s.chans, s.registry, IdOf(n))
    ensures InvRegistry(s')
    ensures |s'.chans| == |s.chans| && forall m :: 0 <= m < |s.chans| && m != n ==> s'.chans[m] == s.chans[m]
    ensures s'.chans[n] == if Registered(s, n) then s.chans[n].(tx := Dropped) else s.chans[n]
  {
    if IdOf(n) in s.registry { IdOfInjective(s.registry[IdOf(n)], n); }
    forall m | 0 <= m < |s'.chans| && s'.chans[m].tx.Alive?
      ensures Registered(s', m) || exists c :: Holds(s', c, m)
    {
      if Registered(s, m) {
        if IdOf(m) == IdOf(n) { IdOfInjective(m, n); }
        assert Registered(s', m);
      } else {
        var c :| Holds(s, c, m);
        assert Holds(s', c, m);
      }
    }
    forall c, d | 0 <= c < |s'.conns| && 0 <= d < |s'.conns| && SameHold(s', c, d) ensures c == d {
      assert SameHold(s, c, d);
    }
  }

  lemma TakenShape(s: State, t: Task, i: nat, op: Op, millis: nat, n: nat)
    requires Fits(t, op) && op.Take? && n < |s.chans| && ChanShape(t, s.chans[n])
    ensures ChanShape(TaskAfter(s, t, i, op, millis), s.chans[n])
    ensures ChanShape(TaskAfter(s, t, i, op, millis), s.chans[n].(tx := Dropped))
  {
  }

  lemma TakeTaken(s: State, s': State, i: nat, n: nat)
    requires InvTaken(s) && i < |s.tasks| == |s'.tasks| && s'.tasks[i].approval == Some(n)
    requires forall j :: 0 <= j < |s.tasks| && j != i ==> s'.tasks[j] == s.tasks[j]
    requires s'.registry == s.registry - {IdOf(n)}
    ensures InvTaken(s')
  {
  }

  lemma TakeTokens(s: State, i: nat, op: Op, millis: nat)
    requires InvShape(s) && InvTokens(s) && i < |s.tasks| && Fits(s.tasks[i], op) && op.Take?
    ensures InvTokens(Perform(s, i, op, millis))
  {
    var t, s' := s.tasks[i], Perform(s, i, op, millis);
    var n := t.approval.value;
    assert Owns(s, i, n);
    TakenShape(s, t, i, op, millis, n);
    hide Fits, InvShape, InvOwner, InvChan, InvRegistry, InvTaken, ChanShape;
    TakeRegistry(s, s', n);
    OwnersFrame(s, s', i, n);
    TakeTaken(s, s', i, n);
  }

  lemma PerformTokens(s: State, i: nat, op: Op, millis: nat)
    requires InvShape(s) && InvBusy(s) && InvTokens(s) && i < |s.tasks| && Fits(s.tasks[i], op)
    ensures InvTokens(Perform(s, i, op, millis))
  {
    if op.DrawApproval? { DrawTokens(s, i, op, millis); }
    else if op.Register? { RegisterTokens(s, i, op, millis); }
    else if op.Take? { TakeTokens(s, i, op, millis); }
    else { PlainTokens(s, i, op, millis); }
  }

  // ----- the timed wait ---------------------------------------------------------------------

  /** A waiting receiver still has its sender: alive, or gone after delivering a value. */
  lemma WaitingHasSender(s: State, i: nat)
    requires InvShape(s) && InvTokens(s) && Listens(s, i) && Waits(s.tasks[i])
    ensures var tx := s.chans[s.tasks[i].approval.value].tx; tx.Alive? || tx.Sent?
    ensures Owns(s, i, s.tasks[i].approval.value)
  {
    assert Owns(s, i, s.tasks[i].approval.value);
  }

  lemma AnswerTokens(s: State, i: nat, o: Outcome, rx: Rx)
    requires InvShape(s) && InvTokens(s) && Listens(s, i) && Waits(s.tasks[i])
    requires o.source != System
    requires o.source == User ==> rx == Received && s.chans[s.tasks[i].approval.value].tx == Sent(o.decision)
    requires o.source == Timeout ==> rx == Gone
    ensures InvTokens(Answer(s, i, o, rx))
  {
    var n, s' := s.tasks[i].approval.value, Answer(s, i, o, rx);
    WaitingHasSender(s, i);
    RegistryFrame(s, s');
    OwnersFrame(s, s', i, n);
  }

  // ----- resolvers --------------------------------------------------------------------------

  /** A sender moves from the registry into the hands of resolver `c`. */
  lemma ResolveTakeRegistry(s: State, s': State, c: nat, id: string, d: Decision)
    requires InvRegistry(s) && id in s.registry && c < |s.conns| && s.conns[c].mode.Idle?
    requires s'.registry == s.registry - {id} && s'.chans == s.chans
    requires s'.conns == SetMode(s, c, Holding(s.registry[id], id, d))
    ensures InvRegistry(s')
  {
    var n := s.registry[id];
    assert Holds(s', c, n);
    forall m | 0 <= m < |s'.chans| && s'.chans[m].tx.Alive?
      ensures Registered(s', m) || exists e :: Holds(s', e, m)
    {
      if m != n {
        if Registered(s, m) {
          if IdOf(m) == id { IdOfInjective(m, n); }
          assert Registered(s', m);
        } else {
          var e :| Holds(s, e, m);
          assert Holds(s', e, m);
        }
      }
    }
    forall e, f | 0 <= e < |s'.conns| && 0 <= f < |s'.conns| && SameHold(s', e, f) ensures e == f {
      if e != c && f != c { assert SameHold(s, e, f); }
    }
  }

  lemma ResolveTakeTokens(route: Route, s: State, c: nat, id: string, d: Decision)
    requires InvTokens(s) && Enabled(s, ResolveTake(c, id, d))
    ensures InvTokens(Apply(route, s, ResolveTake(c, id, d)))
  {
    var s' := Apply(route, s, ResolveTake(c, id, d));
    if id in s.registry {
      ResolveTakeRegistry(s, s', c, id, d);
    } else {
      RegistryFrame(s, s');
    }
    SameTasksOwner(s, s');
  }

  lemma SameTasksOwner(s: State, s': State)
    requires InvOwner(s) && InvChan(s) && s'.tasks == s.tasks && s'.chans == s.chans
    ensures InvOwner(s') && InvChan(s')
  {
    forall n | 0 <= n < |s'.chans| ensures Owns(s', s'.chans[n].owner, n) { assert Owns(s, s.chans[n].owner, n); }
    forall j | 0 <= j < |s'.tasks| && s'.tasks[j].approval.Some?
      ensures Owns(s', j, s'.tasks[j].approval.value)
    {
      assert Owns(s, j, s.tasks[j].approval.value);
    }
  }

  lemma SentShape(t: Task, ch: Chan, d: Decision)
    requires ChanShape(t, ch) && ch.tx.Alive?
    ensures ch.rx == Open ==> ChanShape(t, ch.(tx := Sent(d)))
    ensures ch.rx != Open ==> ChanShape(t, ch.(tx := Bounced))
  {
  }

  lemma ResolveSendTokens(route: Route, s: State, c: nat)
    requires InvTokens(s) && Enabled(s, ResolveSend(c))
    ensures InvTokens(Apply(route, s, ResolveSend(c)))
  {
    var s' := Apply(route, s, ResolveSend(c));
    var n := s.conns[c].mode.chan;
    assert Owns(s, s.chans[n].owner, n);
    assert Holds(s, c, n);
    SentShape(s.tasks[s.chans[n].owner], s.chans[n], s.conns[c].mode.decision);
    hide InvOwner, InvChan, InvRegistry, InvTaken, ChanShape;
    OwnersFrame(s, s', s.chans[n].owner, n);
    ResolveSendRegistry(s, s', c, n);
    FewerKeysTaken(s, s');
  }

  lemma ResolveSendRegistry(s: State, s': State, c: nat, n: nat)
    requires InvRegistry(s) && Holds(s, c, n) && n < |s.chans| == |s'.chans|
    requires s'.registry == s.registry && |s'.conns| == |s.conns|
    requires forall d :: 0 <= d < |s.conns| && d != c ==> s'.conns[d] == s.conns[d]
    requires !s'.conns[c].mode.Holding? && !s'.chans[n].tx.Alive?
    requires forall m :: 0 <= m < |s.chans| && m != n ==> s'.chans[m] == s.chans[m]
    ensures InvRegistry(s')
  {
    forall d | 0 <= d < |s'.conns| && s'.conns[d].mode.Holding?
      ensures s'.conns[d].mode.chan != n
    {
      assert SameHold(s, c, d) ==> c == d;
    }
    forall id | id in s'.registry ensures s'.registry[id] != n {
    }
    forall m | 0 <= m < |s'.chans| && s'.chans[m].tx.Alive?
      ensures Registered(s', m) || exists e :: Holds(s', e, m)
    {
      if !Registered(s, m) {
        var e :| Holds(s, e, m);
        assert Holds(s', e, m);
      }
    }
    forall e, f | 0 <= e < |s'.conns| && 0 <= f < |s'.conns| && SameHold(s', e, f) ensures e == f {
      assert SameHold(s, e, f);
    }
  }

  // ----- all steps --------------------------------------------------------------------------

  lemma AdmitTokens(s: State, c: nat, flow: Flow, plan: Plan)
    requires InvTokens(s) && c < |s.conns| && s.conns[c].mode.Idle?
    ensures InvTokens(Admit(s, c, flow, plan))
  {
    var s' := Admit(s, c, flow, plan);
    RegistryFrame(s, s');
    forall m | 0 <= m < |s'.chans|
      ensures Owns(s', s'.chans[m].owner, m) && ChanShape(s'.tasks[s'.chans[m].owner], s'.chans[m])
    {
      assert Owns(s, s.chans[m].owner, m);
    }
    forall j | 0 <= j < |s'.tasks| && s'.tasks[j].approval.Some?
      ensures Owns(s', j, s'.tasks[j].approval.value)
    {
      assert Owns(s, j, s.tasks[j].approval.value);
    }
  }

  /** Steps of a connection that carry no sender. */
  lemma OtherConnTokens(route: Route, s: State, step: Step)
    requires InvTokens(s) && Enabled(s, step)
    requires step.Connect? || step.NoteRejection? || step.Flush? || step.Forward? || step.Hangup?
    ensures InvTokens(Apply(route, s, step))
  {
    hide InvOwner, InvChan, InvRegistry, InvTaken;
    var s' := Apply(route, s, step);
    RegistryFrame(s, s');
    SameTasksOwner(s, s');
    FewerKeysTaken(s, s');
  }

  /** Steps of a task that touch neither its channel nor its place before the wait. */
  lemma TimerTokens(route: Route, s: State, step: Step)
    requires InvTokens(s) && Enabled(s, step)
    requires TimerStep(step)
    ensures InvTokens(Apply(route, s, step))
  {
    var s', i := Apply(route, s, step), step.task;
    if s.tasks[i].approval.Some? { assert Owns(s, i, s.tasks[i].approval.value); }
    RegistryFrame(s, s');
    OneTaskTokens(s, s', i);
  }

  lemma CallTokens(s: State, i: nat, ok: bool)
    requires InvShape(s) && InvTokens(s) && i < |s.tasks| && Ready(s.tasks[i])
    ensures InvTokens(Call(s, i, ok))
  {
    var s' := Call(s, i, ok);
    if s.tasks[i].approval.Some? { assert Owns(s, i, s.tasks[i].approval.value); }
    RegistryFrame(s, s');
    OneTaskTokens(s, s', i);
  }

  /** The sender-dropped arms of the timed waits are unreachable. */
  lemma SenderNeverLost(s: State, i: nat)
    requires InvShape(s) && InvTokens(s)
    ensures !Enabled(s, PollSenderLost(i))
  {
    if Enabled(s, PollSenderLost(i)) {
      WaitFits(s, i);
      WaitingHasSender(s, i);
    }
  }

  lemma EndsTokens(route: Route, s: State, step: Step)
    requires InvShape(s) && InvSent(s) && InvTokens(s) && Enabled(s, step)
    requires EndStep(step)
    ensures InvTokens(Apply(route, s, step))
  {
    if step.PollSenderLost? {
      SenderNeverLost(s, step.task);
    } else {
      var i, o, rx := EndsWait(route, s, step);
      AnswerTokens(s, i, o, rx);
    }
  }

  lemma RunTokens(s: State, i: nat, millis: nat)
    requires InvShape(s) && InvBusy(s) && InvTokens(s) && Enabled(s, Run(i, millis))
    ensures InvTokens(Advance(s, i, millis))
  {
    RunFits(s, i, millis);
    PerformTokens(s, i, NextOp(s.tasks[i]), millis);
  }

  lemma ActTokens(s: State, i: nat, ok: bool)
    requires InvShape(s) && InvTokens(s) && Enabled(s, Act(i, ok))
    ensures InvTokens(Call(s, i, ok))
  {
    ActFits(s, i, ok);
    CallTokens(s, i, ok);
  }

  lemma ConnStepTokens(route: Route, s: State, step: Step)
    requires InvTokens(s) && Enabled(s, step) && ConnStep(step)
    ensures InvTokens(Apply(route, s, step))
  {
    hide InvTokens;
    match step
    case ResolveTake(c, id, d) => ResolveTakeTokens(route, s, c, id, d);
    case ResolveSend(c) => ResolveSendTokens(route, s, c);
    case _ => OtherConnTokens(route, s, step);
  }

  lemma TokensPreserved(route: Route, s: State, step: Step)
    requires InvShape(s) && InvSent(s) && InvBusy(s) && InvTokens(s) && Enabled(s, step)
    ensures InvTokens(Apply(route, s, step))
  {
    if ConnStep(step) {
      ConnStepTokens(route, s, step);
    } else if TimerStep(step) {
      TimerTokens(route, s, step);
    } else if EndStep(step) {
      EndsTokens(route, s, step);
    } else {
      match step
      case Begin(c, flow) => AdmitTokens(s, c, flow, route(flow));
      case Run(i, millis) => RunTokens(s, i, millis);
      case Act(i, ok) => ActTokens(s, i, ok);
    }
  }
}
