/** The wire grammar and the audit trail of one request, read off its script.

    `Sentence` states which frame lists a client may see for a finished request, independently of
    how the programs produce them; `AuditOf` states which audit entries belong to a frame list. */
module Wire {
  import opened Common
  import opened Sequences
  import opened Lifecycle
  import opened LifecycleShape

  function OpFrame(op: Op): seq<Frame> {
    match op
    case Push(f) => [f]
    case Cast(f) => [f]
    case _ => []
  }

  function OpFrames(): Op -> seq<Frame> { op => OpFrame(op) }

  function OpEntry(op: Op): seq<Entry> {
    if op.Record? then [op.entry] else []
  }

  function OpEntries(): Op -> seq<Entry> { op => OpEntry(op) }

  function OpPush(op: Op): seq<Frame> {
    if op.Push? then [op.frame] else []
  }

  function OpPushes(): Op -> seq<Frame> { op => OpPush(op) }

  function WireOf(ops: seq<Op>): seq<Frame> { Flat(OpFrames(), ops) }

  function AuditOps(ops: seq<Op>): seq<Entry> { Flat(OpEntries(), ops) }

  function ResponseOf(ops: seq<Op>): seq<Frame> { Flat(OpPushes(), ops) }

  // ----- the grammar ------------------------------------------------------------------------

  predicate RunSentence(fs: seq<Frame>) {
    || fs == [Started, Step, Step, Verification, Completed]
    || fs == [Started, Step, Step, Failed]
  }

  predicate DemoRunSentence(fs: seq<Frame>) {
    fs == [Started, Step, Completed]
  }

  predicate RunsAs(style: Style, fs: seq<Frame>) {
    if style == Demo then DemoRunSentence(fs) else RunSentence(fs)
  }

  /** `requested resolved (RUN | cancelled)`, where only an approval leads to RUN. */
  predicate ApprovalSentence(style: Style, fs: seq<Frame>) {
    && |fs| >= 3 && fs[0] == Requested && fs[1].Resolved?
    && (if fs[1].outcome.decision == Approved then RunsAs(style, fs[2..]) else fs[2..] == [CancelledFrame])
  }

  /** `planned (started failed | RUN | requested resolved (RUN | cancelled))`; the demo planner
      has no refusal branch, and an approval demo is just `requested resolved`. */
  predicate Sentence(style: Style, fs: seq<Frame>) {
    if style == Asking then
      |fs| == 2 && fs[0] == Requested && fs[1].Resolved?
    else
      && |fs| >= 1 && fs[0] == Planned
      && ((style == Acting && fs[1..] == [Started, Failed]) || RunsAs(style, fs[1..]) || ApprovalSentence(style, fs[1..]))
  }

  predicate Terminal(f: Frame) {
    f.Completed? || f.Failed? || f.CancelledFrame?
  }

  /** A terminal frame ends the sentence. */
  lemma TerminalIsLast(style: Style, fs: seq<Frame>, k: nat)
    requires Sentence(style, fs) && k < |fs| && Terminal(fs[k])
    ensures k == |fs| - 1
  {
    if style != Asking {
      var rest := fs[1..];
      assert k > 0 && rest[k - 1] == fs[k];
      if ApprovalSentence(style, rest) {
        assert k > 2 && rest[2..][k - 3] == fs[k];
      }
    }
  }

  predicate ResolvedAt(fs: seq<Frame>, k: nat) {
    k < |fs| && fs[k].Resolved?
  }

  /** At most one approval is resolved, right after it was requested. */
  lemma ResolvedPlace(style: Style, fs: seq<Frame>, k: nat)
    requires Sentence(style, fs) && ResolvedAt(fs, k)
    ensures k == (if style == Asking then 1 else 2) && fs[k - 1] == Requested
  {
    if style != Asking {
      var rest := fs[1..];
      assert k > 0 && rest[k - 1] == fs[k];
    }
  }

  // ----- the frames of a complete script ----------------------------------------------------

  function HeadFrames(p: Plan): seq<Frame> {
    if p.style == Asking then (if p.gate == Refused then [ErrorFrame] else [Requested])
    else if p.style == Demo && p.gate == Refused then [Failed]
    else match p.gate
      case Refused => [Planned, Started, Failed]
      case Direct => [Planned]
      case Gated => [Planned, Requested]
  }

  function SettleFrames(style: Style, o: Outcome): seq<Frame> {
    if style == Asking || o.decision == Approved then [Resolved(o)] else [Resolved(o), CancelledFrame]
  }

  function RunFrames(style: Style, ok: bool): seq<Frame> {
    if style == Demo then [Started, Step, Completed]
    else if ok then [Started, Step, Step, Verification, Completed]
    else [Started, Step, Step, Failed]
  }

  lemma HeadWire(p: Plan)
    requires p.Valid()
    ensures WireOf(Head(p)) == HeadFrames(p)
  {
    HeadFlat(p, OpFrames());
  }

  lemma HeadResponse(p: Plan)
    requires p.Valid()
    ensures ResponseOf(Head(p)) == HeadFrames(p)
  {
    HeadFlat(p, OpPushes());
  }

  /** The head is made of pieces of at most five operations. */
  lemma HeadFlat<B>(p: Plan, f: Op -> seq<B>)
    requires p.Valid()
    ensures Flat(f, Head(p)) ==
      if p.style == Asking then
        if p.gate == Refused then f(Push(ErrorFrame)) + f(Handoff)
        else f(DrawApproval) + f(DrawCorrelation) + f(Register) + f(Push(Requested)) + f(Handoff)
      else if p.style == Demo && p.gate == Refused then
        f(DrawCorrelation) + f(Record(Entry(ActionFailed, ResultGuardDenied, FromCore))) + f(Push(Failed)) + f(Handoff)
      else
        (f(DrawCorrelation) + f(Record(Entry(IpcCommandReceived, NoResult, FromUi)))
         + f(Push(Planned)) + f(Record(Entry(ActionPlanned, NoResult, FromCore))))
        + (match p.gate
           case Refused =>
             if p.guardDenied
             then f(Record(Entry(ActionFailed, ResultGuardDenied, FromCore))) + f(Push(Started)) + f(Push(Failed)) + f(Handoff)
             else f(Push(Started)) + f(Push(Failed)) + f(Record(Entry(ActionFailed, ResultFailed, FromCore))) + f(Handoff)
           case Direct => if p.style == Demo then f(Handoff) else []
           case Gated => f(DrawApproval) + f(Register) + f(Push(Requested))
                         + f(Record(Entry(ApprovalRequested, NoResult, FromCore))) + f(Handoff))
  {
    if p.style == Asking {
      Flat2(f, Push(ErrorFrame), Handoff);
      Flat5(f, DrawApproval, DrawCorrelation, Register, Push(Requested), Handoff);
    } else if p.style == Demo && p.gate == Refused {
      Flat4(f, DrawCorrelation, Record(Entry(ActionFailed, ResultGuardDenied, FromCore)), Push(Failed), Handoff);
    } else {
      var first := [DrawCorrelation, Record(Entry(IpcCommandReceived, NoResult, FromUi)),
                    Push(Planned), Record(Entry(ActionPlanned, NoResult, FromCore))];
      Flat4(f, first[0], first[1], first[2], first[3]);
      FlatConcat(f, first, Head(p)[4..]);
      assert first + Head(p)[4..] == Head(p);
      match p.gate {
        case Refused =>
          Flat4(f, Record(Entry(ActionFailed, ResultGuardDenied, FromCore)), Push(Started), Push(Failed), Handoff);
          Flat4(f, Push(Started), Push(Failed), Record(Entry(ActionFailed, ResultFailed, FromCore)), Handoff);
        case Direct =>
          Flat1(f, Handoff);
        case Gated =>
          Flat5(f, DrawApproval, Register, Push(Requested), Record(Entry(ApprovalRequested, NoResult, FromCore)), Handoff);
      }
    }
  }

  lemma SettleFlat<B>(style: Style, o: Outcome, f: Op -> seq<B>)
    ensures Flat(f, Settle(style, o)) ==
      (if o.source == Timeout then f(Take) else [])
      + f(Cast(Resolved(o)))
      + (if style == Asking then []
         else f(Record(Entry(ApprovalResolved, ResolvedResult(style, o.decision), FromOutcome(o.source))))
              + (if o.decision == Approved then []
                 else f(Cast(CancelledFrame)) + f(Record(Entry(ActionCancelled, CancelResult(o.decision), FromOutcome(o.source))))))
  {
    var resolved := Record(Entry(ApprovalResolved, ResolvedResult(style, o.decision), FromOutcome(o.source)));
    var cancelled := [Cast(CancelledFrame), Record(Entry(ActionCancelled, CancelResult(o.decision), FromOutcome(o.source)))];
    var taken := if o.source == Timeout then [Take] else [];
    Flat1(f, Take);
    Flat1(f, Cast(Resolved(o)));
    Flat1(f, resolved);
    Flat2(f, cancelled[0], cancelled[1]);
    FlatConcat(f, [resolved], cancelled);
    assert [resolved] + [] == [resolved];
    var rest := Settle(style, o)[|taken| + 1..];
    assert rest == if style == Asking then [] else [resolved] + (if o.decision == Approved then [] else cancelled);
    FlatConcat(f, taken, [Cast(Resolved(o))]);
    FlatConcat(f, taken + [Cast(Resolved(o))], rest);
    assert Settle(style, o) == taken + [Cast(Resolved(o))] + rest;
  }

  lemma BeforeFlat<B>(style: Style, f: Op -> seq<B>)
    ensures Flat(f, BeforeRun(style)) ==
      if style == Demo then f(Cast(Started)) + f(Record(Entry(ActionStarted, NoResult, FromCore))) + f(Cast(Step)) else []
  {
    Flat3(f, Cast(Started), Record(Entry(ActionStarted, NoResult, FromCore)), Cast(Step));
  }

  lemma FinishFlat<B>(style: Style, gated: bool, ok: bool, f: Op -> seq<B>)
    ensures Flat(f, Finish(style, gated, ok)) ==
      if style == Demo then f(Cast(Completed)) + f(Record(Entry(ActionCompleted, ResultCompleted, FromCore)))
      else
        (f(Record(Entry(ActionStarted, NoResult, FromCore))) + f(Record(LastEntry(ok))))
        + (if gated then
             (f(Cast(Started)) + f(Cast(Step)) + f(Cast(Step)))
             + (if ok then f(Cast(Verification)) + f(Cast(Completed)) else f(Cast(Failed)))
           else
             (f(Push(Started)) + f(Push(Step)) + f(Push(Step)))
             + (if ok then f(Push(Verification)) + f(Push(Completed)) + f(Handoff) else f(Push(Failed)) + f(Handoff)))
  {
    if style == Demo {
      Flat2(f, Cast(Completed), Record(Entry(ActionCompleted, ResultCompleted, FromCore)));
    } else {
      var notes := [Record(Entry(ActionStarted, NoResult, FromCore)), Record(LastEntry(ok))];
      var steps := if gated then [Cast(Started), Cast(Step), Cast(Step)] else [Push(Started), Push(Step), Push(Step)];
      var last :=
        if gated then (if ok then [Cast(Verification), Cast(Completed)] else [Cast(Failed)])
        else if ok then [Push(Verification), Push(Completed), Handoff] else [Push(Failed), Handoff];
      Flat2(f, notes[0], notes[1]);
      Flat3(f, steps[0], steps[1], steps[2]);
      LastFlat(gated, ok, f);
      FlatConcat(f, notes, steps + last);
      FlatConcat(f, steps, last);
      assert Finish(style, gated, ok) == notes + (steps + last);
    }
  }

  lemma LastFlat<B>(gated: bool, ok: bool, f: Op -> seq<B>)
    ensures Flat(f, [Cast(Verification), Cast(Completed)]) == f(Cast(Verification)) + f(Cast(Completed))
    ensures Flat(f, [Cast(Failed)]) == f(Cast(Failed))
    ensures Flat(f, [Push(Verification), Push(Completed), Handoff]) == f(Push(Verification)) + f(Push(Completed)) + f(Handoff)
    ensures Flat(f, [Push(Failed), Handoff]) == f(Push(Failed)) + f(Handoff)
  {
    Flat2(f, Cast(Verification), Cast(Completed));
    Flat1(f, Cast(Failed));
    Flat3(f, Push(Verification), Push(Completed), Handoff);
    Flat2(f, Push(Failed), Handoff);
  }

  // ----- complete scripts -------------------------------------------------------------------

  /** The script of a plan whose wait was answered `o` and whose backend answered `ok`; both are
      ignored where the plan does not ask. */
  function AnswerOf(p: Plan, o: Outcome): Option<Outcome> {
    if p.gate == Gated then Some(o) else None
  }

  function RanOf(p: Plan, o: Outcome, ok: bool): Option<bool> {
    if WillRun(p, AnswerOf(p, o)) then Some(ok) else None
  }

  function FullScript(p: Plan, o: Outcome, ok: bool): seq<Op> {
    Script(p, AnswerOf(p, o), RanOf(p, o, ok))
  }

  lemma FourFlat<A, B>(f: A -> seq<B>, a: seq<A>, b: seq<A>, c: seq<A>, d: seq<A>)
    ensures Flat(f, a + b + c + d) == Flat(f, a) + Flat(f, b) + Flat(f, c) + Flat(f, d)
  {
    FlatConcat(f, a + b + c, d);
    FlatConcat(f, a + b, c);
    FlatConcat(f, a, b);
  }

  /** The wait itself contributes nothing, only what follows its answer. */
  lemma WaitFlat<B>(p: Plan, o: Outcome, f: Op -> seq<B>)
    requires f(Awaited(o)) == []
    ensures Flat(f, WaitPart(p, AnswerOf(p, o))) == if p.gate == Gated then Flat(f, Settle(p.style, o)) else []
  {
    Flat1(f, Awaited(o));
    FlatConcat(f, [Awaited(o)], Settle(p.style, o));
  }

  /** Nor does the backend call. */
  lemma RunFlat<B>(p: Plan, o: Outcome, ok: bool, f: Op -> seq<B>)
    requires f(Ran(ok)) == []
    ensures Flat(f, BeforePart(p, AnswerOf(p, o))) + Flat(f, RunPart(p, AnswerOf(p, o), RanOf(p, o, ok))) ==
      if WillRun(p, AnswerOf(p, o))
      then Flat(f, BeforeRun(p.style)) + Flat(f, Finish(p.style, p.gate == Gated, ok))
      else []
  {
    Flat1(f, Ran(ok));
    FlatConcat(f, [Ran(ok)], Finish(p.style, p.gate == Gated, ok));
  }

  lemma Regroup<T>(a: seq<T>, b: seq<T>, c: seq<T>, d: seq<T>)
    ensures a + b + c + d == a + b + (c + d)
  {
  }

  /** A complete script, piece by piece. */
  lemma FullFlat<B>(p: Plan, o: Outcome, ok: bool, f: Op -> seq<B>)
    ensures Flat(f, FullScript(p, o, ok)) ==
      Flat(f, Head(p)) + Flat(f, WaitPart(p, AnswerOf(p, o))) + Flat(f, BeforePart(p, AnswerOf(p, o)))
      + Flat(f, RunPart(p, AnswerOf(p, o), RanOf(p, o, ok)))
  {
    FourFlat(f, Head(p), WaitPart(p, AnswerOf(p, o)), BeforePart(p, AnswerOf(p, o)),
      RunPart(p, AnswerOf(p, o), RanOf(p, o, ok)));
  }

  /** The same for observations that neither wait nor backend call contribute to. */
  lemma FullParts<B>(p: Plan, o: Outcome, ok: bool, f: Op -> seq<B>, h: seq<B>, w: seq<B>, r: seq<B>)
    requires f(Awaited(o)) == [] && f(Ran(ok)) == []
    requires Flat(f, Head(p)) == h && Flat(f, Settle(p.style, o)) == w
    requires Flat(f, BeforeRun(p.style)) + Flat(f, Finish(p.style, p.gate == Gated, ok)) == r
    ensures Flat(f, FullScript(p, o, ok)) ==
      h + (if p.gate == Gated then w else []) + (if WillRun(p, AnswerOf(p, o)) then r else [])
  {
    FullFlat(p, o, ok, f);
    WaitFlat(p, o, f);
    RunFlat(p, o, ok, f);
    Regroup(Flat(f, Head(p)), Flat(f, WaitPart(p, AnswerOf(p, o))), Flat(f, BeforePart(p, AnswerOf(p, o))),
      Flat(f, RunPart(p, AnswerOf(p, o), RanOf(p, o, ok))));
  }

  /** The frames a plan's complete script shows. */
  function FullFrames(p: Plan, o: Outcome, ok: bool): seq<Frame> {
    HeadFrames(p)
    + (if p.gate == Gated then SettleFrames(p.style, o) else [])
    + (if WillRun(p, AnswerOf(p, o)) then RunFrames(p.style, ok) else [])
  }

  lemma SettleWire(style: Style, o: Outcome)
    ensures WireOf(Settle(style, o)) == SettleFrames(style, o)
  {
    SettleFlat(style, o, OpFrames());
  }

  lemma DemoRunWire(ok: bool)
    ensures WireOf(BeforeRun(Demo)) + WireOf(Finish(Demo, true, ok)) == [Started, Step, Completed]
  {
    BeforeFlat(Demo, OpFrames());
    FinishFlat(Demo, true, ok, OpFrames());
  }

  lemma ActionRunWire(style: Style, gated: bool, ok: bool)
    requires style != Demo
    ensures WireOf(BeforeRun(style)) == [] && WireOf(Finish(style, gated, ok)) == RunFrames(style, ok)
  {
    hide Finish;
    var f, steps := OpFrames(), [Started, Step, Step];
    FinishFlat(style, gated, ok, f);
    RunPieces();
    assert f(Record(Entry(ActionStarted, NoResult, FromCore))) + f(Record(LastEntry(ok))) == [];
    if ok {
      assert steps + [Verification, Completed] == RunFrames(style, ok);
    } else {
      assert steps + [Failed] == RunFrames(style, ok);
    }
  }

  /** The frames of a run, piece by piece, by either way. */
  lemma RunPieces()
    ensures var f := OpFrames();
      && f(Cast(Started)) + f(Cast(Step)) + f(Cast(Step)) == [Started, Step, Step]
      && f(Push(Started)) + f(Push(Step)) + f(Push(Step)) == [Started, Step, Step]
      && f(Cast(Verification)) + f(Cast(Completed)) == [Verification, Completed]
      && f(Push(Verification)) + f(Push(Completed)) + f(Handoff) == [Verification, Completed]
      && f(Push(Failed)) + f(Handoff) == [Failed] == f(Cast(Failed))
  {
  }

  lemma RunWire(style: Style, gated: bool, ok: bool)
    requires style == Demo ==> ok
    ensures WireOf(BeforeRun(style)) + WireOf(Finish(style, gated, ok)) == RunFrames(style, ok)
  {
    if style == Demo {
      assert Finish(style, gated, ok) == Finish(Demo, true, ok);
      DemoRunWire(ok);
    } else {
      ActionRunWire(style, gated, ok);
      assert [] + RunFrames(style, ok) == RunFrames(style, ok);
    }
  }

  lemma FullWire(p: Plan, o: Outcome, ok: bool)
    requires p.Valid() && (p.style == Demo ==> ok)
    ensures WireOf(FullScript(p, o, ok)) == FullFrames(p, o, ok)
  {
    HeadWire(p);
    SettleWire(p.style, o);
    RunWire(p.style, p.gate == Gated, ok);
    FullParts(p, o, ok, OpFrames(), HeadFrames(p), SettleFrames(p.style, o), RunFrames(p.style, ok));
  }

  lemma FramesSpeak(p: Plan, o: Outcome, ok: bool)
    requires p.Valid() && (p.style == Demo ==> ok)
    requires p.gate == Refused ==> p.style == Acting
    ensures Sentence(p.style, FullFrames(p, o, ok))
  {
    var fs := FullFrames(p, o, ok);
    if p.style != Asking {
      var rest := fs[1..];
      match p.gate
      case Refused => assert rest == [Started, Failed];
      case Direct => assert rest == RunFrames(p.style, ok);
      case Gated =>
        assert rest[2..] == if o.decision == Approved then RunFrames(p.style, ok) else [CancelledFrame];
    }
  }

  /** Every complete script speaks the grammar. */
  lemma ScriptSpeaks(p: Plan, o: Outcome, ok: bool)
    requires p.Valid() && (p.style == Demo ==> ok)
    requires p.gate == Refused ==> p.style == Acting
    ensures Sentence(p.style, WireOf(FullScript(p, o, ok)))
  {
    FullWire(p, o, ok);
    FramesSpeak(p, o, ok);
  }

  /** The part of a sentence after `planned` that a run without a gate shows. */
  lemma RunSpoken(style: Style, rest: seq<Frame>) returns (ok: bool)
    requires style != Asking && RunsAs(style, rest)
    ensures RunFrames(style, ok) == rest && (style == Demo ==> ok)
  {
    ok := style == Demo || |rest| == 5;
  }

  /** The plan and the answers behind a sentence. */
  lemma SentenceFrames(style: Style, fs: seq<Frame>) returns (p: Plan, o: Outcome, ok: bool)
    requires Sentence(style, fs)
    ensures p.Valid() && p.style == style && (p.gate == Refused ==> p.style == Acting) && (style == Demo ==> ok)
    ensures FullFrames(p, o, ok) == fs
  {
    p, o, ok := Plan(style, Gated, false), Outcome(Denied, User), true;
    if style == Asking {
      o := fs[1].outcome;
    } else if style == Acting && fs[1..] == [Started, Failed] {
      p := Plan(style, Gate.Refused, false);
    } else if RunsAs(style, fs[1..]) {
      p := Plan(style, Direct, false);
      ok := RunSpoken(style, fs[1..]);
    } else {
      var rest := fs[1..];
      assert fs == [Planned] + rest && rest == [Requested, rest[1]] + rest[2..];
      o := rest[1].outcome;
      if o.decision == Approved { ok := RunSpoken(style, rest[2..]); }
    }
  }

  /** Nothing in the grammar is superfluous: every sentence is spoken by some complete script. */
  lemma SentenceSpoken(style: Style, fs: seq<Frame>) returns (p: Plan, o: Outcome, ok: bool)
    requires Sentence(style, fs)
    ensures p.Valid() && p.style == style && (p.gate == Refused ==> p.style == Acting) && (style == Demo ==> ok)
    ensures WireOf(FullScript(p, o, ok)) == fs
  {
    p, o, ok := SentenceFrames(style, fs);
    FullWire(p, o, ok);
  }

  // ----- the audit trail --------------------------------------------------------------------

  /** `result` of the ActionFailed entry of a request that was refused. */
  function RefusalResult(p: Plan): Option<AuditResult> {
    if p.gate != Refused then None
    else if p.guardDenied then Some(ResultGuardDenied)
    else Some(ResultFailed)
  }

  /** The audit entry that belongs to a frame: steps and verifications leave none, and neither
      does the `started` frame of a refusal. */
  function EntryFor(style: Style, refusal: Option<AuditResult>, o: Outcome, fr: Frame): seq<Entry> {
    match fr
    case Planned => [Entry(ActionPlanned, NoResult, FromCore)]
    case Requested => [Entry(ApprovalRequested, NoResult, FromCore)]
    case Resolved(r) => [Entry(ApprovalResolved, ResolvedResult(style, r.decision), FromOutcome(r.source))]
    case Started => if refusal.Some? then [] else [Entry(ActionStarted, NoResult, FromCore)]
    case Step => []
    case Verification => []
    case Completed => [Entry(ActionCompleted, ResultCompleted, FromCore)]
    case Failed => [Entry(ActionFailed, if refusal.Some? then refusal.value else ResultFailed, FromCore)]
    case CancelledFrame => [Entry(ActionCancelled, CancelResult(o.decision), FromOutcome(o.source))]
    case ErrorFrame => []
  }

  function EntriesFor(style: Style, refusal: Option<AuditResult>, o: Outcome): Frame -> seq<Entry> {
    fr => EntryFor(style, refusal, o, fr)
  }

  /** The audit trail of a finished request, computed from its frames alone. */
  function AuditOf(p: Plan, o: Outcome, fs: seq<Frame>): seq<Entry> {
    [Entry(IpcCommandReceived, NoResult, FromUi)] + Flat(EntriesFor(p.style, RefusalResult(p), o), fs)
  }

  lemma HeadAudit(p: Plan, o: Outcome)
    requires p.Valid() && p.style != Asking && (p.gate == Refused ==> p.style == Acting)
    ensures AuditOps(Head(p)) == AuditOf(p, o, HeadFrames(p))
  {
    HeadFlat(p, OpEntries());
    var g := EntriesFor(p.style, RefusalResult(p), o);
    Flat1(g, Planned);
    Flat2(g, Planned, Requested);
    Flat3(g, Planned, Started, Failed);
  }

  /** The entries of the piece of a script that shows `fs`. */
  function EntriesOf(p: Plan, o: Outcome, fs: seq<Frame>): seq<Entry> {
    Flat(EntriesFor(p.style, RefusalResult(p), o), fs)
  }

  lemma SettleAudit(p: Plan, o: Outcome)
    requires p.style != Asking
    ensures AuditOps(Settle(p.style, o)) == EntriesOf(p, o, SettleFrames(p.style, o))
  {
    SettleFlat(p.style, o, OpEntries());
    var g := EntriesFor(p.style, RefusalResult(p), o);
    Flat1(g, Resolved(o));
    Flat2(g, Resolved(o), CancelledFrame);
  }

  lemma DemoRunAudit(p: Plan, o: Outcome)
    requires p.style == Demo && p.gate != Refused
    ensures AuditOps(BeforeRun(Demo)) + AuditOps(Finish(Demo, p.gate == Gated, true)) == EntriesOf(p, o, RunFrames(Demo, true))
  {
    BeforeFlat(Demo, OpEntries());
    FinishFlat(Demo, p.gate == Gated, true, OpEntries());
    Flat3(EntriesFor(Demo, None, o), Started, Step, Completed);
  }

  lemma NoEntriesInFrames()
    ensures var f := OpEntries();
      && f(Cast(Started)) + f(Cast(Step)) + f(Cast(Step)) == []
      && f(Push(Started)) + f(Push(Step)) + f(Push(Step)) == []
      && f(Cast(Verification)) + f(Cast(Completed)) == [] == f(Cast(Failed))
      && f(Push(Verification)) + f(Push(Completed)) + f(Handoff) == []
      && f(Push(Failed)) + f(Handoff) == []
  {
  }

  /** The entries of an executor run: that it started, and how it ended. */
  lemma FinishTrail(gated: bool, ok: bool)
    ensures AuditOps(Finish(Acting, gated, ok)) == [Entry(ActionStarted, NoResult, FromCore), LastEntry(ok)]
  {
    hide Finish, LastEntry;
    var f := OpEntries();
    var notes := [Entry(ActionStarted, NoResult, FromCore), LastEntry(ok)];
    FinishFlat(Acting, gated, ok, f);
    NoEntriesInFrames();
    assert f(Record(notes[0])) + f(Record(notes[1])) == notes;
    assert notes + [] == notes;
  }

  lemma RunEntries(p: Plan, o: Outcome, ok: bool)
    requires p.style == Acting && p.gate != Refused
    ensures EntriesOf(p, o, RunFrames(Acting, ok)) == [Entry(ActionStarted, NoResult, FromCore), LastEntry(ok)]
  {
    if ok {
      Flat5(EntriesFor(Acting, None, o), Started, Step, Step, Verification, Completed);
    } else {
      Flat4(EntriesFor(Acting, None, o), Started, Step, Step, Failed);
    }
  }

  lemma ActionRunAudit(p: Plan, o: Outcome, ok: bool)
    requires p.style == Acting && p.gate != Refused
    ensures AuditOps(Finish(Acting, p.gate == Gated, ok)) == EntriesOf(p, o, RunFrames(Acting, ok))
  {
    hide Finish, LastEntry, RunFrames, EntriesOf, AuditOps;
    FinishTrail(p.gate == Gated, ok);
    RunEntries(p, o, ok);
  }

  lemma RunAudit(p: Plan, o: Outcome, ok: bool)
    requires p.style != Asking && p.gate != Refused && (p.style == Demo ==> ok)
    ensures AuditOps(BeforeRun(p.style)) + AuditOps(Finish(p.style, p.gate == Gated, ok))
         == EntriesOf(p, o, RunFrames(p.style, ok))
  {
    hide Finish, RunFrames;
    if p.style == Demo {
      DemoRunAudit(p, o);
    } else {
      ActionRunAudit(p, o, ok);
    }
  }

  /** The frames of a complete script, and the entries that belong to them, piece by piece. */
  lemma MirrorPieces(p: Plan, o: Outcome, ok: bool)
    ensures AuditOf(p, o, FullFrames(p, o, ok)) ==
      AuditOf(p, o, HeadFrames(p))
      + (if p.gate == Gated then EntriesOf(p, o, SettleFrames(p.style, o)) else [])
      + (if WillRun(p, AnswerOf(p, o)) then EntriesOf(p, o, RunFrames(p.style, ok)) else [])
  {
    var g := EntriesFor(p.style, RefusalResult(p), o);
    var h := HeadFrames(p);
    var w := if p.gate == Gated then SettleFrames(p.style, o) else [];
    var r := if WillRun(p, AnswerOf(p, o)) then RunFrames(p.style, ok) else [];
    FlatConcat(g, h + w, r);
    FlatConcat(g, h, w);
  }

  /** A complete script's audit entries are IpcCommandReceived and the mirror of its frames. */
  lemma AuditMirrorsWire(p: Plan, o: Outcome, ok: bool)
    requires p.Valid() && p.style != Asking && (p.gate == Refused ==> p.style == Acting) && (p.style == Demo ==> ok)
    ensures AuditOps(FullScript(p, o, ok)) == AuditOf(p, o, WireOf(FullScript(p, o, ok)))
  {
    hide FullScript, FullFrames, Head, Settle, Finish, HeadFrames, SettleFrames, RunFrames;
    FullWire(p, o, ok);
    MirrorPieces(p, o, ok);
    HeadAudit(p, o);
    SettleAudit(p, o);
    if p.gate == Refused {
      RefusedParts(p, o, ok, OpEntries());
    } else {
      RunAudit(p, o, ok);
      FullParts(p, o, ok, OpEntries(), AuditOf(p, o, HeadFrames(p)), EntriesOf(p, o, SettleFrames(p.style, o)),
        EntriesOf(p, o, RunFrames(p.style, ok)));
    }
  }

  lemma RefusedParts<B>(p: Plan, o: Outcome, ok: bool, f: Op -> seq<B>)
    requires p.gate == Refused
    ensures Flat(f, FullScript(p, o, ok)) == Flat(f, Head(p))
  {
    assert FullScript(p, o, ok) == Head(p);
  }
}
