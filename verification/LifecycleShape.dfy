/** Where the control operations sit in a script.  Everything the protocol proofs need to know
    about the concrete programs is stated here once. */
module LifecycleShape {
  import opened Common
  import opened Lifecycle

  function DrawAt(style: Style): nat { if style == Asking then 0 else 4 }

  function CorrelationAt(style: Style): nat { if style == Asking then 1 else 0 }

  function RegisterAt(style: Style): nat { if style == Asking then 2 else 5 }

  function WaitAt(style: Style): nat { if style == Asking then 5 else 9 }

  function HeadSize(p: Plan): nat {
    if p.style == Asking then (if p.gate == Refused then 2 else 5)
    else if p.style == Demo && p.gate == Refused then 4
    else match p.gate
      case Refused => 8
      case Direct => if p.style == Demo then 5 else 4
      case Gated => 9
  }

  function SettleSize(style: Style, o: Outcome): nat {
    (if o.source == Timeout then 1 else 0)
    + (if style == Asking then 1 else if o.decision == Approved then 2 else 4)
  }

  function FinishSize(style: Style, gated: bool, ok: bool): nat {
    if style == Demo then 2 else (if ok then 7 else 6) + (if gated then 0 else 1)
  }

  function RunAt(p: Plan, answer: Option<Outcome>): nat {
    HeadSize(p)
    + (if p.gate != Gated then 0 else if answer.None? then 1 else 1 + SettleSize(p.style, answer.value))
    + (if WillRun(p, answer) && p.style == Demo then 3 else 0)
  }

  function ScriptSize(p: Plan, answer: Option<Outcome>, ran: Option<bool>): nat {
    RunAt(p, answer)
    + (if !WillRun(p, answer) then 0
       else if ran.None? then 1
       else 1 + FinishSize(p.style, p.gate == Gated, ran.value))
  }

  /** Index of the hand-off; one past the end while a direct run has not been answered. */
  function HandoffAt(p: Plan, answer: Option<Outcome>, ran: Option<bool>): nat {
    if p.gate == Direct && p.style != Demo then
      (if ran.None? then 5 else 5 + FinishSize(p.style, false, ran.value) - 1)
    else HeadSize(p) - 1
  }

  predicate IsRunOp(op: Op) { op.RunEffect? || op.Ran? }

  predicate IsWaitOp(op: Op) { op.Await? || op.Awaited? || op.Take? }

  lemma HeadShape(p: Plan, k: nat)
    requires p.Valid() && k < |Head(p)|
    ensures |Head(p)| == HeadSize(p)
    ensures var op := Head(p)[k];
      && !IsRunOp(op) && !IsWaitOp(op) && !op.Cast?
      && (op.DrawApproval? <==> p.gate == Gated && k == DrawAt(p.style))
      && (op.Register? <==> p.gate == Gated && k == RegisterAt(p.style))
      && (op.DrawCorrelation? <==> k == CorrelationAt(p.style) && !(p.style == Asking && p.gate == Refused))
      && (op.Handoff? <==> k == HeadSize(p) - 1 && !(p.style != Demo && p.gate == Direct))
  {
  }

  lemma SettleShape(style: Style, o: Outcome, k: nat)
    requires k < |Settle(style, o)|
    ensures |Settle(style, o)| == SettleSize(style, o)
    ensures var op := Settle(style, o)[k];
      && (op.Take? || op.Cast? || op.Record?)
      && (op.Take? <==> k == 0 && o.source == Timeout)
  {
  }

  lemma FinishShape(style: Style, gated: bool, ok: bool, k: nat)
    requires k < |Finish(style, gated, ok)|
    ensures |Finish(style, gated, ok)| == FinishSize(style, gated, ok)
    ensures var op := Finish(style, gated, ok)[k]; var inline := style != Demo && !gated;
      && (op.Record? || op.Cast? || op.Push? || op.Handoff?)
      && (op.Cast? ==> !inline) && (op.Push? ==> inline)
      && (op.Handoff? <==> inline && k == |Finish(style, gated, ok)| - 1)
  {
  }

  lemma PartSizes(p: Plan, answer: Option<Outcome>, ran: Option<bool>)
    requires p.Valid()
    ensures |Head(p)| == HeadSize(p) >= 2
    ensures |UpToRun(p, answer)| == RunAt(p, answer)
    ensures |Script(p, answer, ran)| == ScriptSize(p, answer, ran)
  {
    HeadShape(p, 0);
    if p.gate == Gated && answer.Some? { SettleShape(p.style, answer.value, 0); }
    if ran.Some? { FinishShape(p.style, p.gate == Gated, ran.value, 0); }
  }

  function BeforePart(p: Plan, answer: Option<Outcome>): seq<Op> {
    if WillRun(p, answer) then BeforeRun(p.style) else []
  }

  /** Reading a concatenation of four pieces. */
  lemma FourPieces<T>(a: seq<T>, b: seq<T>, c: seq<T>, d: seq<T>, k: nat)
    requires k < |a| + |b| + |c| + |d|
    ensures (a + b + c + d)[k] ==
      if k < |a| then a[k]
      else if k < |a| + |b| then b[k - |a|]
      else if k < |a| + |b| + |c| then c[k - |a| - |b|]
      else d[k - |a| - |b| - |c|]
  {
  }

  /** Positions of all control operations in a script. */
  lemma OpShape(p: Plan, answer: Option<Outcome>, ran: Option<bool>, k: nat)
    requires p.Valid() && k < |Script(p, answer, ran)|
    ensures var op := Script(p, answer, ran)[k];
      && (op.DrawApproval? <==> p.gate == Gated && k == DrawAt(p.style))
      && (op.Register? <==> p.gate == Gated && k == RegisterAt(p.style))
      && (op.DrawCorrelation? <==> k == CorrelationAt(p.style) && !(p.style == Asking && p.gate == Refused))
      && (op.Await? <==> p.gate == Gated && answer.None? && k == WaitAt(p.style))
      && (op.Awaited? <==> p.gate == Gated && answer.Some? && k == WaitAt(p.style))
      && (op.Awaited? ==> op.outcome == answer.value)
      && (op.Take? <==> p.gate == Gated && answer.Some? && answer.value.source == Timeout && k == WaitAt(p.style) + 1)
      && (op.RunEffect? <==> WillRun(p, answer) && ran.None? && k == RunAt(p, answer))
      && (op.Ran? <==> WillRun(p, answer) && ran.Some? && k == RunAt(p, answer))
      && (op.Ran? ==> op.ok == ran.value)
      && (op.Handoff? <==> k == HandoffAt(p, answer, ran))
      && (op.Push? ==> k < HandoffAt(p, answer, ran))
      && (op.Cast? ==> k > HandoffAt(p, answer, ran))
  {
    hide Head, Settle, Finish;
    var h, w, b, r := Head(p), WaitPart(p, answer), BeforePart(p, answer), RunPart(p, answer, ran);
    PartSizes(p, answer, ran);
    FourPieces(h, w, b, r, k);
    if k < |h| {
      HeadShape(p, k);
    } else if k < |h| + |w| {
      if k > |h| { SettleShape(p.style, answer.value, k - |h| - 1); }
    } else if k < |h| + |w| + |b| {
    } else if k > |h| + |w| + |b| {
      FinishShape(p.style, p.gate == Gated, ran.value, k - |h| - |w| - |b| - 1);
    }
  }

  /** Answering the wait leaves the program before it untouched. */
  lemma WaitAnswered(p: Plan, o: Outcome)
    requires p.Valid() && p.gate == Gated
    ensures var w := WaitAt(p.style);
      && |Script(p, None, None)| == w + 1
      && |Script(p, Some(o), None)| > w
      && Script(p, None, None)[..w] == Script(p, Some(o), None)[..w] == Head(p)
  {
    PartSizes(p, None, None);
    PartSizes(p, Some(o), None);
  }

  /** Answering the backend call leaves the program before it untouched. */
  lemma RunAnswered(p: Plan, answer: Option<Outcome>, ok: bool)
    requires p.Valid() && WillRun(p, answer)
    ensures var u := RunAt(p, answer);
      && |Script(p, answer, None)| == u + 1
      && |Script(p, answer, Some(ok))| > u
      && Script(p, answer, None)[..u] == Script(p, answer, Some(ok))[..u] == UpToRun(p, answer)
  {
    PartSizes(p, answer, None);
    PartSizes(p, answer, Some(ok));
  }
}
