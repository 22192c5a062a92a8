/** From scripts to logs: what a run has shown and noted for one request. */
module Conversation {
  import opened Common
  import opened Sequences
  import opened Lifecycle
  import opened LifecycleShape
  import opened Protocol
  import TaskInvariant
  import BusyInvariant
  import opened TraceInvariant
  import opened Wire

  function FrameIn(i: nat, e: Event): seq<Frame> {
    if e.Shown? && e.owner == i then [e.frame] else []
  }

  function FramesBy(i: nat): Event -> seq<Frame> { e => FrameIn(i, e) }

  function EntryIn(i: nat, e: Event): seq<Entry> {
    if e.Noted? && e.owner == i then [e.entry] else []
  }

  function EntriesBy(i: nat): Event -> seq<Entry> { e => EntryIn(i, e) }

  /** The frames shown for request `i`, to whichever connection, in the order of emission. */
  function FramesFor(log: seq<Event>, i: nat): seq<Frame> { Flat(FramesBy(i), log) }

  /** The audit entries written for request `i`. */
  function TrailFor(log: seq<Event>, i: nat): seq<Entry> { Flat(EntriesBy(i), log) }

  function MarkFrame(m: Mark): seq<Frame> { if m.FrameMark? then [m.frame] else [] }

  function MarkEntry(m: Mark): seq<Entry> { if m.EntryMark? then [m.entry] else [] }

  function MarkFrames(): Mark -> seq<Frame> { m => MarkFrame(m) }

  function MarkEntries(): Mark -> seq<Entry> { m => MarkEntry(m) }

  /** Flattening twice is flattening the composition. */
  lemma {:induction false} FlatFlat<A(!new), B, C>(f: A -> seq<B>, g: B -> seq<C>, h: A -> seq<C>, xs: seq<A>)
    requires forall x :: Flat(g, f(x)) == h(x)
    ensures Flat(g, Flat(f, xs)) == Flat(h, xs)
  {
    if xs != [] {
      var init, last := xs[..|xs| - 1], xs[|xs| - 1];
      FlatFlat(f, g, h, init);
      FlatConcat(g, Flat(f, init), f(last));
    }
  }

  lemma OpProjections()
    ensures forall op :: Flat(MarkFrames(), OpMarks()(op)) == OpFrames()(op)
    ensures forall op :: Flat(MarkEntries(), OpMarks()(op)) == OpEntries()(op)
  {
    forall op: Op
      ensures Flat(MarkFrames(), OpMarks()(op)) == OpFrames()(op)
      ensures Flat(MarkEntries(), OpMarks()(op)) == OpEntries()(op)
    {
      if OpMark(op) != [] {
        Flat1(MarkFrames(), OpMark(op)[0]);
        Flat1(MarkEntries(), OpMark(op)[0]);
      }
    }
  }

  lemma EventProjections(i: nat)
    ensures forall e :: Flat(MarkFrames(), EventMarks(i)(e)) == FramesBy(i)(e)
    ensures forall e :: Flat(MarkEntries(), EventMarks(i)(e)) == EntriesBy(i)(e)
  {
    forall e: Event
      ensures Flat(MarkFrames(), EventMarks(i)(e)) == FramesBy(i)(e)
      ensures Flat(MarkEntries(), EventMarks(i)(e)) == EntriesBy(i)(e)
    {
      if EventMark(i, e) != [] {
        Flat1(MarkFrames(), EventMark(i, e)[0]);
        Flat1(MarkEntries(), EventMark(i, e)[0]);
      }
    }
  }

  /** Frames and entries of a request are those of the executed part of its script. */
  lemma LogFollowsScript(s: State, i: nat)
    requires InvTrace(s) && i < |s.tasks|
    ensures s.tasks[i].pc <= |Program(s.tasks[i])|
    ensures FramesFor(s.log, i) == WireOf(Program(s.tasks[i])[..s.tasks[i].pc])
    ensures TrailFor(s.log, i) == AuditOps(Program(s.tasks[i])[..s.tasks[i].pc])
  {
    var ops := Program(s.tasks[i])[..s.tasks[i].pc];
    EventProjections(i);
    FlatFlat(EventMarks(i), MarkFrames(), FramesBy(i), s.log);
    FlatFlat(EventMarks(i), MarkEntries(), EntriesBy(i), s.log);
    OpProjections();
    FlatFlat(OpMarks(), MarkFrames(), OpFrames(), ops);
    FlatFlat(OpMarks(), MarkEntries(), OpEntries(), ops);
  }

  /** The answers a request will have got at its end: its own where it has them already. */
  function FinalOutcome(t: Task): Outcome {
    if t.answer.Some? then t.answer.value else Outcome(Denied, User)
  }

  function FinalResult(t: Task): bool {
    t.ran.None? || t.ran.value
  }

  function FinalScript(t: Task): seq<Op> {
    FullScript(t.plan, FinalOutcome(t), FinalResult(t))
  }

  /** Whatever a request has executed is the beginning of a complete script. */
  lemma ScriptExtends(t: Task, conns: nat)
    requires TaskInvariant.TaskShape(t, conns)
    ensures t.pc <= |Program(t)| && Program(t)[..t.pc] <= FinalScript(t)
    ensures Finished(t) ==> Program(t)[..t.pc] == FinalScript(t)
  {
    hide Head, Settle, Finish;
    TaskInvariant.FinishedShape(t, conns);
    var o, ok := FinalOutcome(t), FinalResult(t);
    if t.plan.gate == Gated && t.answer.None? {
      WaitAnswered(t.plan, o);
      PartSizes(t.plan, None, None);
    } else {
      assert t.answer == AnswerOf(t.plan, o);
      if WillRun(t.plan, t.answer) && t.ran.None? {
        RunAnswered(t.plan, t.answer, ok);
        PartSizes(t.plan, t.answer, None);
      } else {
        assert t.ran == RanOf(t.plan, o, ok);
      }
    }
  }

  /** Of a script and the complete script it begins, frames and entries are prefixes too. */
  lemma PrefixObservations(ops: seq<Op>, all: seq<Op>)
    requires ops <= all
    ensures WireOf(ops) <= WireOf(all) && AuditOps(ops) <= AuditOps(all)
  {
    assert all[..|ops|] == ops;
    FlatPrefix(OpFrames(), all, |ops|);
    FlatPrefix(OpEntries(), all, |ops|);
  }

  lemma {:induction false} NoMorePushes(ops: seq<Op>, n: nat)
    requires n <= |ops| && forall k :: n <= k < |ops| ==> !ops[k].Push?
    ensures ResponseOf(ops) == ResponseOf(ops[..n])
    decreases |ops|
  {
    if n < |ops| {
      NoMorePushes(ops[..|ops| - 1], n);
      assert ops[..|ops| - 1][..n] == ops[..n];
    } else {
      assert ops[..n] == ops;
    }
  }

  /** After the hand-off the response is complete; unless the action ran inline it is what the
      head of the script shows. */
  lemma HandedResponse(t: Task, conns: nat)
    requires TaskInvariant.TaskShape(t, conns) && BusyInvariant.HandedOff(t) && t.pc <= |Program(t)|
    requires t.plan.gate == Direct ==> t.plan.style == Demo
    ensures ResponseOf(Program(t)[..t.pc]) == HeadFrames(t.plan)
  {
    var ops, h := Program(t)[..t.pc], HeadSize(t.plan);
    PartSizes(t.plan, t.answer, t.ran);
    assert ops[..h] == Head(t.plan);
    forall k | h <= k < |ops| ensures !ops[k].Push? {
      OpShape(t.plan, t.answer, t.ran, k);
    }
    NoMorePushes(ops, h);
    HeadResponse(t.plan);
  }
}
