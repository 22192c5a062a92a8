/** The pending-approval registry as it is built: a map from approval ids to the sending halves of
    oneshot channels, changed in place. */
module Registry {
  import opened Common
  import opened Lifecycle
  import opened Protocol
  import Runs

  /** A oneshot channel.  Sender and receiver are two ends of the same object. */
  class Oneshot {
    var value: Option<Decision>
    var senderDropped: bool
    var receiverDropped: bool

    constructor ()
      ensures value == None && !senderDropped && !receiverDropped
    {
      value, senderDropped, receiverDropped := None, false, false;
    }

    /** The sending half has neither sent nor been dropped. */
    predicate Pending()
      reads this
    {
      value.None? && !senderDropped
    }

    /** `Sender::send`, which consumes the sender. */
    method Send(d: Decision) returns (ok: bool)
      requires Pending()
      modifies this
      ensures ok == !old(receiverDropped) && receiverDropped == old(receiverDropped)
      ensures value == (if ok then Some(d) else None) && senderDropped == !ok
    {
      ok := !receiverDropped;
      if ok { value := Some(d); } else { senderDropped := true; }
    }
  }

  class PendingApprovalRegistry {
    var inner: map<string, Oneshot>

    constructor ()
      ensures inner == map[] && Valid()
    {
      inner := map[];
    }

    /** Every registered sender is pending and registered once. */
    ghost predicate Valid()
      reads this, inner.Values
    {
      && (forall id :: id in inner ==> inner[id].Pending())
      && (forall id, id' :: id in inner && id' in inner && inner[id] == inner[id'] ==> id == id')
    }

    /** A sender that was registered under the same id before is dropped. */
    method Register(id: string) returns (rx: Oneshot)
      requires Valid()
      modifies this, inner.Values
      ensures Valid() && fresh(rx) && rx.Pending() && !rx.receiverDropped
      ensures inner == old(inner)[id := rx]
      ensures forall k :: k in old(inner) ==> old(inner)[k].senderDropped == (k == id)
      ensures forall k :: k in old(inner) ==> old(inner)[k].value == None
    {
      rx := new Oneshot();
      if id in inner {
        var before := inner[id];
        before.senderDropped := true;
      }
      inner := inner[id := rx];
    }

    method Take(id: string) returns (sender: Option<Oneshot>)
      requires Valid()
      modifies this
      ensures Valid() && inner == old(inner) - {id}
      ensures sender == if id in old(inner) then Some(old(inner)[id]) else None
    {
      sender := if id in inner then Some(inner[id]) else None;
      inner := inner - {id};
    }

    /** Take the sender, then send. */
    method Resolve(id: string, d: Decision) returns (reply: Reply)
      requires Valid()
      modifies this, inner.Values
      ensures Valid() && inner == old(inner) - {id}
      ensures reply == if id !in old(inner) then UnknownId
                       else if old(inner[id].receiverDropped) then WaiterGone
                       else Delivered
      ensures id in old(inner) ==> old(inner)[id].value == if reply == Delivered then Some(d) else None
      ensures forall k :: k in old(inner) && k != id ==> old(inner)[k].Pending()
    {
      var sender := Take(id);
      match sender
      case None => reply := UnknownId;
      case Some(tx) =>
        var ok := tx.Send(d);
        reply := if ok then Delivered else WaiterGone;
    }
  }

  /** A second decision for the same id never succeeds. */
  method ResolveTwice(registry: PendingApprovalRegistry, id: string, d: Decision, e: Decision)
    returns (first: Reply, second: Reply)
    requires registry.Valid()
    modifies registry, registry.inner.Values
    ensures second == UnknownId
    ensures first == Delivered <==> id in old(registry.inner) && !old(registry.inner[id].receiverDropped)
  {
    first := registry.Resolve(id, d);
    second := registry.Resolve(id, e);
  }

  /** Nothing in between, a decision for an id that is not registered is refused and audited, and
      changes nothing else. */
  lemma UnknownIsRefused(route: Route, s: State, c: nat, id: string, d: Decision)
    requires Enabled(s, ResolveTake(c, id, d)) && id !in s.registry
    ensures var steps := [ResolveTake(c, id, d), NoteRejection(c)];
      && CanRun(route, s, steps)
      && After(route, s, steps) == s.(
           conns := s.conns[c := s.conns[c].(mode := Flushing([ErrorShown(c, id)]))],
           log := s.log + [Answered(c, id, d, UnknownId), RejectionNoted(c, id)])
  {
    var take, note := ResolveTake(c, id, d), NoteRejection(c);
    assert CanRun(route, s, []);
    Runs.RunSnoc(route, s, [], take);
    Runs.RunSnoc(route, s, [take], note);
    assert [] + [take] == [take] && [take] + [note] == [take, note];
  }

  /** Nothing in between, the two protocol steps of a resolver do what `Resolve` does in one go. */
  lemma ResolveIsTwoSteps(route: Route, s: State, c: nat, id: string, d: Decision)
    requires Enabled(s, ResolveTake(c, id, d)) && id in s.registry && s.registry[id] < |s.chans|
    ensures var steps := [ResolveTake(c, id, d), ResolveSend(c)];
      && CanRun(route, s, steps)
      && var s' := After(route, s, steps);
        && s'.registry == s.registry - {id}
        && |s'.log| == |s.log| + 1
        && var reply := if s.chans[s.registry[id]].rx == Open then Delivered else WaiterGone;
          && s'.log[|s.log|] == Answered(c, id, d, reply)
          && s'.chans == s.chans[s.registry[id] := s.chans[s.registry[id]].(tx := if reply == Delivered then Sent(d) else Bounced)]
  {
    var take, send := ResolveTake(c, id, d), ResolveSend(c);
    var taken := Apply(route, s, take);
    assert taken.conns[c].mode == Holding(s.registry[id], id, d);
    assert CanRun(route, s, []);
    Runs.RunSnoc(route, s, [], take);
    Runs.RunSnoc(route, s, [take], send);
    assert [] + [take] == [take] && [take] + [send] == [take, send];
  }
}
