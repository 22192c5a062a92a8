/** Saving a settings or secrets file as file-system steps: make the directory, create the temporary
    file, write it piece by piece, rename it over the target.  Any step can fail, the process can
    stop after any step, and saves of different files interleave freely. */
module AtomicSave {
  import opened Common

  /** Override files and the secrets file, one writer each. */
  const STEMS: seq<string> := [
    "llamafile_local", "stt", "tts", "local_http", "text_chain", "stt_chain", "tts_chain", "secrets"]

  function Target(axis: nat): string
    requires axis < |STEMS|
  {
    STEMS[axis] + ".json"
  }

  /** Position of the last dot, or the length. */
  function LastDot(name: string): (k: nat)
    ensures k <= |name|
    ensures k < |name| ==> name[k] == '.'
  {
    if name == [] then 0
    else if name[|name| - 1] == '.' then |name| - 1
    else
      var k := LastDot(name[..|name| - 1]);
      if k == |name| - 1 then |name| else k
  }

  /** `Path::with_extension` on a file name. */
  function WithExtension(name: string, extension: string): string {
    name[..LastDot(name)] + "." + extension
  }

  function Temp(axis: nat): string
    requires axis < |STEMS|
  {
    WithExtension(Target(axis), "json.tmp")
  }

  lemma {:induction false} LastDotBefore(stem: string, rest: string)
    requires forall i :: 0 <= i < |rest| ==> rest[i] != '.'
    ensures LastDot(stem + "." + rest) == |stem|
  {
    var name := stem + "." + rest;
    if rest != [] {
      var init := rest[..|rest| - 1];
      assert name[..|name| - 1] == stem + "." + init;
      LastDotBefore(stem, init);
    }
  }

  /** The temporary name is the target's with `.tmp` behind it. */
  lemma TempIsTarget(axis: nat)
    requires axis < |STEMS|
    ensures Temp(axis) == Target(axis) + ".tmp"
  {
    hide STEMS;
    var stem := STEMS[axis];
    assert Target(axis) == stem + "." + "json";
    LastDotBefore(stem, "json");
    assert Target(axis)[..|stem|] == stem;
    assert "." + "json.tmp" == ".json" + ".tmp";
  }

  lemma StemsDistinct(a: nat, b: nat)
    requires a < |STEMS| && b < |STEMS| && STEMS[a] == STEMS[b]
    ensures a == b
  {
    assert |STEMS[0]| == 15 && |STEMS[3]| == 10 && |STEMS[4]| == 10 && |STEMS[7]| == 7;
    assert |STEMS[1]| == 3 && |STEMS[2]| == 3 && |STEMS[5]| == 9 && |STEMS[6]| == 9;
    assert STEMS[1][0] == 's' && STEMS[2][0] == 't' && STEMS[5][0] == 's' && STEMS[6][0] == 't';
    assert STEMS[3][0] == 'l' && STEMS[4][0] == 't';
  }

  /** No save touches a file of another save: all targets and temporary names differ. */
  lemma NamesDistinct(a: nat, b: nat)
    requires a < |STEMS| && b < |STEMS|
    ensures Target(a) == Target(b) ==> a == b
    ensures Temp(a) == Temp(b) ==> a == b
    ensures Target(a) != Temp(b)
  {
    hide STEMS, Temp;
    TempIsTarget(a);
    TempIsTarget(b);
    var s, t := Target(a), Target(b);
    if s == t { assert s[..|s| - 5] == STEMS[a] && t[..|t| - 5] == STEMS[b]; StemsDistinct(a, b); }
    if s + ".tmp" == t + ".tmp" {
      assert (s + ".tmp")[..|s|] == s && (t + ".tmp")[..|t|] == t;
    }
    assert s[|s| - 1] == 'n' && (t + ".tmp")[|t + ".tmp"| - 1] == 'p';
  }

  // ----- the file system and its writers ----------------------------------------------------

  datatype Stage =
    | Idle
    | MakingDir
    | Creating
    | Writing(written: nat)
    | Renaming
    | Succeeded
    | FailedSave

  /** One save in progress: the body to be stored, and what the target held when it began. */
  datatype Writer = Writer(stage: Stage, body: string, before: Option<string>)

  datatype World = World(dirExists: bool, files: map<string, string>, writers: seq<Writer>)

  datatype Step =
    | Begin(axis: nat, body: string)
    | MakeDir(axis: nat)
    | Create(axis: nat)
    | Write(axis: nat, count: nat)
    | Rename(axis: nat)
    | Fail(axis: nat)
    | Remove(axis: nat)

  predicate Busy(w: Writer) {
    !w.stage.Idle? && !w.stage.Succeeded? && !w.stage.FailedSave?
  }

  function Read(s: World, name: string): Option<string> {
    if name in s.files then Some(s.files[name]) else None
  }

  /** What a reader finds in the target of an axis. */
  function Stored(s: World, axis: nat): Option<string>
    requires axis < |STEMS|
  {
    Read(s, Target(axis))
  }

  predicate Enabled(s: World, step: Step) {
    && |s.writers| == |STEMS| && step.axis < |STEMS|
    && var w := s.writers[step.axis];
      match step
      case Begin(_, _) => !Busy(w)
      case MakeDir(_) => w.stage.MakingDir?
      case Create(_) => w.stage.Creating?
      case Write(_, count) => w.stage.Writing? && w.stage.written + count <= |w.body|
      case Rename(a) => w.stage.Renaming? && Temp(a) in s.files
      case Fail(_) => Busy(w)
      case Remove(_) => !Busy(w)
  }

  function SetStage(s: World, axis: nat, stage: Stage): seq<Writer>
    requires axis < |s.writers|
  {
    s.writers[axis := s.writers[axis].(stage := stage)]
  }

  function Apply(s: World, step: Step): World
    requires Enabled(s, step)
  {
    var a := step.axis;
    var w := s.writers[a];
    match step
    case Begin(_, body) => s.(writers := s.writers[a := Writer(MakingDir, body, Stored(s, a))])
    case MakeDir(_) => s.(dirExists := true, writers := SetStage(s, a, Creating))
    // `File::create` truncates whatever an earlier, failed save has left behind.
    case Create(_) => s.(files := s.files[Temp(a) := []], writers := SetStage(s, a, Writing(0)))
    case Write(_, count) =>
      var n := w.stage.written + count;
      s.(files := s.files[Temp(a) := w.body[..n]],
         writers := SetStage(s, a, if n == |w.body| then Renaming else Writing(n)))
    case Rename(_) =>
      s.(files := (s.files - {Temp(a)})[Target(a) := s.files[Temp(a)]], writers := SetStage(s, a, Succeeded))
    case Fail(_) => s.(writers := SetStage(s, a, FailedSave))
    case Remove(_) => s.(files := s.files - {Target(a)}, writers := SetStage(s, a, Idle))
  }

  /** A writer that has reached the rename has its whole body in the temporary file, and until it
      renames, the target still holds what it held when the save began. */
  predicate WriterOk(s: World, a: nat)
    requires a < |STEMS| == |s.writers|
  {
    var w := s.writers[a];
    match w.stage
    case Idle => true
    case MakingDir => Stored(s, a) == w.before
    case Creating => Stored(s, a) == w.before
    case Writing(n) => Stored(s, a) == w.before && n <= |w.body| && Read(s, Temp(a)) == Some(w.body[..n])
    case Renaming => Stored(s, a) == w.before && Read(s, Temp(a)) == Some(w.body)
    case Succeeded => Stored(s, a) == Some(w.body) && Read(s, Temp(a)) == None
    case FailedSave => Stored(s, a) == w.before
  }

  predicate Inv(s: World) {
    |s.writers| == |STEMS| && forall a :: 0 <= a < |STEMS| ==> WriterOk(s, a)
  }

  /** Only the files of the step's own axis change, and its target only when it is renamed over or
      removed. */
  lemma OwnFilesOnly(s: World, step: Step, b: nat)
    requires Enabled(s, step) && b < |STEMS|
    ensures b != step.axis ==> Stored(Apply(s, step), b) == Stored(s, b) && Read(Apply(s, step), Temp(b)) == Read(s, Temp(b))
    ensures b == step.axis && !step.Rename? && !step.Remove? ==> Stored(Apply(s, step), b) == Stored(s, b)
  {
    hide STEMS, Target, Temp;
    NamesDistinct(step.axis, b);
    NamesDistinct(b, step.axis);
  }

  lemma StepKeeps(s: World, step: Step)
    requires Inv(s) && Enabled(s, step)
    ensures Inv(Apply(s, step))
  {
    hide STEMS, Target, Temp;
    var s', a := Apply(s, step), step.axis;
    forall b | 0 <= b < |STEMS| ensures WriterOk(s', b) {
      OwnFilesOnly(s, step, b);
      NamesDistinct(a, b);
      assert WriterOk(s, b);
      if step.Write? && b == a {
        var w := s.writers[a];
        if w.stage.written + step.count == |w.body| { assert w.body[..|w.body|] == w.body; }
      }
    }
  }

  /** A step that changes what a reader finds replaces the whole old content by the whole new one,
      and only in its own target. */
  lemma AllOrNothing(s: World, step: Step, b: nat)
    requires Inv(s) && Enabled(s, step) && b < |STEMS|
    ensures Stored(Apply(s, step), b) != Stored(s, b) ==>
      && b == step.axis
      && (step.Rename? || step.Remove?)
      && Stored(Apply(s, step), b) == (if step.Rename? then Some(s.writers[b].body) else None)
  {
    hide STEMS, Target, Temp;
    OwnFilesOnly(s, step, b);
    assert WriterOk(s, step.axis);
    NamesDistinct(step.axis, step.axis);
  }

  predicate CanRun(s: World, steps: seq<Step>)
    decreases |steps|
  {
    steps == [] || (Enabled(s, steps[0]) && CanRun(Apply(s, steps[0]), steps[1..]))
  }

  function After(s: World, steps: seq<Step>): World
    requires CanRun(s, steps)
    decreases |steps|
  {
    if steps == [] then s else After(Apply(s, steps[0]), steps[1..])
  }

  lemma {:induction false} RunKeeps(s: World, steps: seq<Step>)
    requires Inv(s) && CanRun(s, steps)
    ensures Inv(After(s, steps))
    decreases |steps|
  {
    hide Inv, Apply, Enabled;
    if steps != [] {
      StepKeeps(s, steps[0]);
      RunKeeps(Apply(s, steps[0]), steps[1..]);
    }
  }

  /** Wherever any interleaving of saves is stopped, the target of each save that has been begun
      holds the whole new body if the save got past its rename, with nothing left of the temporary
      file, and otherwise exactly what it held when the save began. */
  lemma StoppedAnywhere(s: World, steps: seq<Step>, a: nat)
    requires Inv(s) && CanRun(s, steps) && a < |STEMS|
    ensures a < |After(s, steps).writers|
    ensures var w := After(s, steps).writers[a];
      && (!w.stage.Idle? ==> Stored(After(s, steps), a) == if w.stage.Succeeded? then Some(w.body) else w.before)
      && (w.stage.Succeeded? ==> Read(After(s, steps), Temp(a)) == None)
  {
    hide Apply, Enabled, STEMS, Target, Temp;
    RunKeeps(s, steps);
    assert WriterOk(After(s, steps), a);
  }

  /** A removal takes away the target and nothing else; a failure leaves all files as they are, the
      temporary one included. */
  lemma RemovedOrFailed(s: World, a: nat)
    requires |s.writers| == |STEMS| && a < |STEMS|
    ensures !Busy(s.writers[a]) ==> Apply(s, Remove(a)).files == s.files - {Target(a)} && Stored(Apply(s, Remove(a)), a) == None
    ensures Busy(s.writers[a]) ==> Apply(s, Fail(a)).files == s.files
  {
    hide STEMS, Target;
  }

  /** A save nothing goes wrong with, whatever earlier ones have left behind: the target holds the
      body, the temporary file is gone, and all other files are as they were. */
  lemma CompleteSave(s: World, a: nat, body: string)
    requires |s.writers| == |STEMS| && a < |STEMS| && !Busy(s.writers[a])
    ensures var steps := [Begin(a, body), MakeDir(a), Create(a), Write(a, |body|), Rename(a)];
      && CanRun(s, steps)
      && var s' := After(s, steps);
        && s'.dirExists && s'.files == (s.files - {Temp(a)})[Target(a) := body]
        && Stored(s', a) == Some(body) && Read(s', Temp(a)) == None
  {
    hide STEMS, Target, Temp, CanRun, After;
    NamesDistinct(a, a);
    var begun := Apply(s, Begin(a, body));
    var ready := Apply(begun, MakeDir(a));
    FileWritten(ready, a);
    var rest := [Create(a)] + ([Write(a, |body|)] + ([Rename(a)] + []));
    StepThen(begun, MakeDir(a), rest);
    StepThen(s, Begin(a, body), [MakeDir(a)] + rest);
    assert [Begin(a, body), MakeDir(a), Create(a), Write(a, |body|), Rename(a)] == [Begin(a, body)] + ([MakeDir(a)] + rest);
  }

  lemma StepThen(s: World, step: Step, rest: seq<Step>)
    requires Enabled(s, step) && CanRun(Apply(s, step), rest)
    ensures CanRun(s, [step] + rest) && After(s, [step] + rest) == After(Apply(s, step), rest)
  {
    hide Apply, Enabled;
    assert ([step] + rest)[1..] == rest;
  }

  /** From the creation of the temporary file on. */
  lemma FileWritten(s: World, a: nat)
    requires |s.writers| == |STEMS| && a < |STEMS| && s.writers[a].stage.Creating?
    ensures var body := s.writers[a].body;
      var steps := [Create(a)] + ([Write(a, |body|)] + ([Rename(a)] + []));
      CanRun(s, steps) && After(s, steps).files == (s.files - {Temp(a)})[Target(a) := body] && After(s, steps).dirExists == s.dirExists
  {
    hide STEMS, Target, Temp, CanRun, After;
    var body := s.writers[a].body;
    assert body[..|body|] == body;
    var created := Apply(s, Create(a));
    var written := Apply(created, Write(a, |body|));
    var done := Apply(written, Rename(a));
    NoSteps(done);
    StepThen(written, Rename(a), []);
    StepThen(created, Write(a, |body|), [Rename(a)] + []);
    StepThen(s, Create(a), [Write(a, |body|)] + ([Rename(a)] + []));
    assert written.files - {Temp(a)} == s.files - {Temp(a)};
  }

  lemma NoSteps(s: World)
    ensures CanRun(s, []) && After(s, []) == s
  {
  }

  /** Between two of its own steps, nothing the other saves do shows in a target. */
  lemma {:induction false} OthersInvisible(s: World, steps: seq<Step>, b: nat)
    requires CanRun(s, steps) && b < |STEMS| && forall k :: 0 <= k < |steps| ==> steps[k].axis != b
    ensures Stored(After(s, steps), b) == Stored(s, b)
    decreases |steps|
  {
    hide Apply, Enabled, STEMS;
    if steps != [] {
      assert steps[0].axis != b;
      EnabledAxis(s, steps[0]);
      OwnFilesOnly(s, steps[0], b);
      OthersInvisible(Apply(s, steps[0]), steps[1..], b);
    }
  }

  lemma EnabledAxis(s: World, step: Step)
    requires Enabled(s, step)
    ensures step.axis < |STEMS|
  {
  }
}
