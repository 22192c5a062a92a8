/** What a connection gets of the broadcast channel, over whole runs: nothing from before it
    connected, and every single frame since then as long as it does not lag. */
module BroadcastDelivery {
  import opened Sequences
  import opened Protocol

  function PositionMarks(): Delivery -> seq<nat> {
    (d: Delivery) => if d.Forwarded? then [d.position] else []
  }

  /** Positions in the channel of the frames forwarded to a client, in order of arrival. */
  function Positions(sink: seq<Delivery>): seq<nat> {
    Flat(PositionMarks(), sink)
  }

  /** All numbers from `a` up to `b`, exclusive. */
  function Interval(a: nat, b: nat): (r: seq<nat>)
    requires a <= b
    ensures |r| == b - a && forall k :: 0 <= k < |r| ==> r[k] == a + k
  {
    seq(b - a, k requires 0 <= k => a + k)
  }

  /** One look at the channel: the next frame is forwarded exactly if the channel still holds it,
      and otherwise the connection goes on with the oldest frame that is left. */
  lemma ForwardExactly(route: Route, s: State, c: nat, lost: nat)
    requires Enabled(s, Forward(c, lost))
    ensures |Apply(route, s, Forward(c, lost)).conns| == |s.conns|
    ensures var k, k' := s.conns[c], Apply(route, s, Forward(c, lost)).conns[c];
      if lost == 0 && |s.casts| <= k.cursor + 256 then
        k' == Conn(Idle, k.cursor + 1, k.sink + [Forwarded(s.casts[k.cursor], k.cursor)])
      else
        k' == k.(cursor := if |s.casts| <= k.cursor + lost + 256 then k.cursor + lost else |s.casts| - 256)
  {
  }

  /** All other steps leave alone what has been forwarded. */
  lemma OtherwiseQuiet(route: Route, s: State, step: Step, c: nat)
    requires Enabled(s, step) && c < |s.conns| && !(step.Forward? && step.conn == c)
    ensures var s' := Apply(route, s, step);
      c < |s'.conns| && s'.conns[c].cursor == s.conns[c].cursor && Positions(s'.conns[c].sink) == Positions(s.conns[c].sink)
  {
    hide Flat;
    if step.Flush? && step.conn == c && s.conns[c].mode.rest != [] {
      FlatSnoc(PositionMarks(), s.conns[c].sink, Straight(s.conns[c].mode.rest[0]));
      assert Positions(s.conns[c].sink) + [] == Positions(s.conns[c].sink);
    }
  }

  /** Nothing connection `c` reads from the channel in this run is overwritten before it is read. */
  predicate LagFree(route: Route, s: State, steps: seq<Step>, c: nat)
    requires CanRun(route, s, steps)
    decreases |steps|
  {
    steps == []
    || (&& (steps[0].Forward? && steps[0].conn == c ==> steps[0].lost == 0 && |s.casts| <= s.conns[c].cursor + 256)
        && LagFree(route, Apply(route, s, steps[0]), steps[1..], c))
  }

  /** The frames forwarded lie between `start` and the cursor. */
  predicate Since(k: Conn, start: nat) {
    start <= k.cursor && forall j :: 0 <= j < |Positions(k.sink)| ==> start <= Positions(k.sink)[j] < k.cursor
  }

  predicate AllSince(k: Conn, start: nat) {
    start <= k.cursor && Positions(k.sink) == Interval(start, k.cursor)
  }

  lemma ForwardSince(route: Route, s: State, c: nat, lost: nat, start: nat)
    requires Enabled(s, Forward(c, lost)) && Since(s.conns[c], start)
    ensures var s' := Apply(route, s, Forward(c, lost));
      && c < |s'.conns| && Since(s'.conns[c], start)
      && (lost == 0 && |s.casts| <= s.conns[c].cursor + 256 && AllSince(s.conns[c], start) ==> AllSince(s'.conns[c], start))
  {
    hide Apply, Flat;
    ForwardExactly(route, s, c, lost);
    var k := s.conns[c];
    if lost == 0 && |s.casts| <= k.cursor + 256 {
      var d := Forwarded(s.casts[k.cursor], k.cursor);
      FlatSnoc(PositionMarks(), k.sink, d);
      assert Positions(k.sink + [d]) == Positions(k.sink) + [k.cursor];
    }
  }

  lemma {:induction false} RunSince(route: Route, s: State, steps: seq<Step>, c: nat, start: nat)
    requires CanRun(route, s, steps) && c < |s.conns| && Since(s.conns[c], start)
    ensures var s' := After(route, s, steps);
      && c < |s'.conns| && Since(s'.conns[c], start)
      && (AllSince(s.conns[c], start) && LagFree(route, s, steps, c) ==> AllSince(s'.conns[c], start))
    decreases |steps|
  {
    hide Apply, Positions;
    if steps != [] {
      var step := steps[0];
      if step.Forward? && step.conn == c {
        ForwardSince(route, s, c, step.lost, start);
      } else {
        OtherwiseQuiet(route, s, step, c);
      }
      RunSince(route, Apply(route, s, step), steps[1..], c, start);
    }
  }

  /** A client that connects now gets no broadcast frame from before, and, as long as it does not
      lag, every one from now on up to where it reads, none left out and none twice. */
  lemma NothingMissed(route: Route, s: State, steps: seq<Step>)
    requires CanRun(route, Apply(route, s, Connect), steps)
    ensures var c := |s.conns|;
      var s' := After(route, Apply(route, s, Connect), steps);
      && c < |s'.conns|
      && var k := s'.conns[c];
        && |s.casts| <= k.cursor
        && (forall j :: 0 <= j < |Positions(k.sink)| ==> |s.casts| <= Positions(k.sink)[j] < k.cursor)
        && (LagFree(route, Apply(route, s, Connect), steps, c) ==>
              Positions(k.sink) == Interval(|s.casts|, k.cursor))
  {
    RunSince(route, Apply(route, s, Connect), steps, |s.conns|, |s.casts|);
  }
}
