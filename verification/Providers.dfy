/** The provider resolvers: built from a chain and the configuration, asked in order, with a status
    record anyone can read. */
module Providers {
  import opened Common
  import Text
  import opened Chains

  datatype AudioConfig = AudioConfig(
    sttEnabled: bool,
    sttCmd: Option<string>,
    whisperCmd: Option<string>,
    sttTimeout: nat,
    ttsEnabled: bool,
    ttsCmd: Option<string>,
    piperCmd: Option<string>,
    ttsTimeout: nat,
    autoSpeak: bool,
    sttChain: seq<string>,
    ttsChain: seq<string>)

  const COMMAND: nat := 0

  /** A command-based provider; `kind` is its position in the vocabulary of its axis. */
  datatype AudioProvider = AudioProvider(kind: nat, enabled: bool, command: Option<string>, timeout: nat) {
    predicate IsReady() { enabled && command.Some? }
  }

  function SttProvider(kind: nat, audio: AudioConfig): AudioProvider {
    AudioProvider(kind, audio.sttEnabled, if kind == COMMAND then audio.sttCmd else audio.whisperCmd, audio.sttTimeout)
  }

  function TtsProvider(kind: nat, audio: AudioConfig): AudioProvider {
    AudioProvider(kind, audio.ttsEnabled, if kind == COMMAND then audio.ttsCmd else audio.piperCmd, audio.ttsTimeout)
  }

  /** `SttProviderResolver::from_chain`. */
  function SttProviders(chain: seq<string>, audio: AudioConfig): (ps: seq<AudioProvider>)
    ensures ps != [] && forall i :: 0 <= i < |ps| ==> ps[i].kind < |STT_KINDS|
  {
    var ks := ResolvedKinds(chain, STT_KINDS);
    seq(|ks|, i requires 0 <= i < |ks| => SttProvider(ks[i], audio))
  }

  /** `TtsProviderResolver::from_chain`. */
  function TtsProviders(chain: seq<string>, audio: AudioConfig): (ps: seq<AudioProvider>)
    ensures ps != [] && forall i :: 0 <= i < |ps| ==> ps[i].kind < |TTS_KINDS|
  {
    var ks := ResolvedKinds(chain, TTS_KINDS);
    seq(|ks|, i requires 0 <= i < |ks| => TtsProvider(ks[i], audio))
  }

  /** Speech-to-text providers depend on the speech-to-text fields and nothing else. */
  lemma SttFrame(chain: seq<string>, a: AudioConfig, b: AudioConfig)
    requires a.sttEnabled == b.sttEnabled && a.sttCmd == b.sttCmd
    requires a.whisperCmd == b.whisperCmd && a.sttTimeout == b.sttTimeout
    ensures SttProviders(chain, a) == SttProviders(chain, b)
  {
    hide ResolvedKinds;
  }

  lemma TtsFrame(chain: seq<string>, a: AudioConfig, b: AudioConfig)
    requires a.ttsEnabled == b.ttsEnabled && a.ttsCmd == b.ttsCmd
    requires a.piperCmd == b.piperCmd && a.ttsTimeout == b.ttsTimeout
    ensures TtsProviders(chain, a) == TtsProviders(chain, b)
  {
    hide ResolvedKinds;
  }

  /** Every provider of a speech-to-text resolver, read off the configuration. */
  lemma SttSpelled(chain: seq<string>, audio: AudioConfig, i: nat)
    requires i < |SttProviders(chain, audio)|
    ensures var p := SttProviders(chain, audio)[i];
      && p.kind == ResolvedKinds(chain, STT_KINDS)[i] && p.kind < |STT_KINDS|
      && (STT_KINDS[p.kind] == "command" || STT_KINDS[p.kind] == "whisper_cpp")
      && p.enabled == audio.sttEnabled && p.timeout == audio.sttTimeout
      && p.command == (if STT_KINDS[p.kind] == "command" then audio.sttCmd else audio.whisperCmd)
      && (p.IsReady() <==> audio.sttEnabled && p.command.Some?)
  {
    hide ResolvedKinds;
    assert STT_KINDS[0] == "command" && STT_KINDS[1] == "whisper_cpp" && |"command"| != |"whisper_cpp"|;
  }

  /** The same for text-to-speech. */
  lemma TtsSpelled(chain: seq<string>, audio: AudioConfig, i: nat)
    requires i < |TtsProviders(chain, audio)|
    ensures var p := TtsProviders(chain, audio)[i];
      && p.kind == ResolvedKinds(chain, TTS_KINDS)[i] && p.kind < |TTS_KINDS|
      && (TTS_KINDS[p.kind] == "command" || TTS_KINDS[p.kind] == "piper")
      && p.enabled == audio.ttsEnabled && p.timeout == audio.ttsTimeout
      && p.command == (if TTS_KINDS[p.kind] == "command" then audio.ttsCmd else audio.piperCmd)
      && (p.IsReady() <==> audio.ttsEnabled && p.command.Some?)
  {
    hide ResolvedKinds;
    assert TTS_KINDS[0] == "command" && TTS_KINDS[1] == "piper" && |"command"| != |"piper"|;
  }

  // ----- the status record ------------------------------------------------------------------

  datatype Availability = Available | Unavailable | FallbackActive

  datatype Status = Status(
    configured: string,
    active: string,
    availability: Availability,
    lastError: Option<string>,
    cloud: bool)

  function NameOf(p: AudioProvider): string
    requires p.kind < |STT_KINDS|
  {
    STT_KINDS[p.kind]
  }

  predicate Proper(ps: seq<AudioProvider>) {
    ps != [] && forall i :: 0 <= i < |ps| ==> ps[i].kind < |STT_KINDS|
  }

  function InitialStatus(ps: seq<AudioProvider>): Status
    requires Proper(ps)
  {
    Status(NameOf(ps[0]), "", if ps[0].IsReady() then Available else Unavailable, None, false)
  }

  /** What a provider says when it is asked: recognised text, or an error class. */
  type Answer = Result<string, string>

  /** Position of the first success, or the number of answers. */
  function FirstSuccess(answers: seq<Answer>): (k: nat)
    ensures k <= |answers|
    ensures forall j :: 0 <= j < k ==> answers[j].Err?
    ensures k < |answers| ==> answers[k].Ok?
  {
    if answers == [] then 0 else if answers[0].Ok? then 0 else 1 + FirstSuccess(answers[1..])
  }

  /** The status a run leaves behind. */
  function StatusAfter(ps: seq<AudioProvider>, answers: seq<Answer>): Status
    requires Proper(ps) && |answers| == |ps|
  {
    var k := FirstSuccess(answers);
    if k < |ps| then
      Status(NameOf(ps[0]), NameOf(ps[k]), if k == 0 then Available else FallbackActive, None, false)
    else
      Status(NameOf(ps[0]), "", Unavailable, Some(answers[|ps| - 1].error), false)
  }

  /** The promise of the status record: fallback is reported exactly when some other provider than
      the configured one answered. */
  predicate Honest(s: Status) {
    s.availability == FallbackActive <==> s.active != "" && s.active != s.configured
  }

  class SttResolver {
    const providers: seq<AudioProvider>
    var status: Status

    /** `from_chain`: one pass over the chain, unknown kinds dropped, the default kind if nothing
        is left. */
    constructor FromChain(chain: seq<string>, audio: AudioConfig)
      ensures providers == SttProviders(chain, audio) && Proper(providers)
      ensures status == InitialStatus(providers)
      ensures var first := NameOf(providers[0]);
        var command := if first == "command" then audio.sttCmd else audio.whisperCmd;
        && status.configured == first && status.active == "" && status.lastError == None && !status.cloud
        && status.availability == if audio.sttEnabled && command.Some? then Available else Unavailable
    {
      var built := BuildStt(chain, audio);
      SttSpelled(chain, audio, 0);
      providers := built;
      status := InitialStatus(built);
    }

    /** Ask the providers in order.  `answers[k]` is what provider `k` says if it is asked, and
        `asked` tells how many were. */
    method Run(answers: seq<Answer>) returns (r: Result<string, string>, asked: nat)
      requires Proper(providers) && |answers| == |providers|
      modifies this`status
      ensures status == StatusAfter(providers, answers)
      ensures 1 <= asked <= |answers| && answers[asked - 1] == r
      ensures status.configured == NameOf(providers[0]) && !status.cloud
      ensures r.Ok? && asked == 1 ==>
        status.active == NameOf(providers[0]) && status.availability == Available && status.lastError == None
      ensures r.Ok? && asked > 1 ==>
        status.active == NameOf(providers[asked - 1]) && status.availability == FallbackActive && status.lastError == None
      ensures r.Err? ==>
        status.active == "" && status.availability == Unavailable && status.lastError == Some(answers[|answers| - 1].error)
      ensures r.Ok? <==> exists j :: 0 <= j < |answers| && answers[j].Ok?
      ensures forall j :: 0 <= j < asked - 1 ==> answers[j].Err?
      ensures r.Err? ==> asked == |answers|
    {
      hide NameOf;
      asked := 0;
      var lastError := "unknown";
      while asked < |providers|
        invariant 0 <= asked <= |providers|
        invariant forall j :: 0 <= j < asked ==> answers[j].Err?
        invariant asked > 0 ==> lastError == answers[asked - 1].error
        invariant status == old(status)
      {
        var answer := answers[asked];
        asked := asked + 1;
        match answer
        case Ok(text) =>
          FirstAt(answers, asked - 1);
          status := Status(NameOf(providers[0]), NameOf(providers[asked - 1]),
                           if asked == 1 then Available else FallbackActive, None, false);
          return Ok(text), asked;
        case Err(errorClass) =>
          lastError := errorClass;
      }
      FirstAt(answers, asked);
      status := Status(NameOf(providers[0]), "", Unavailable, Some(lastError), false);
      r := Err(lastError);
    }
  }

  lemma {:induction false} FirstAt(answers: seq<Answer>, k: nat)
    requires k <= |answers| && (forall j :: 0 <= j < k ==> answers[j].Err?) && (k < |answers| ==> answers[k].Ok?)
    ensures FirstSuccess(answers) == k
  {
    if k > 0 { FirstAt(answers[1..], k - 1); }
  }

  method BuildStt(chain: seq<string>, audio: AudioConfig) returns (providers: seq<AudioProvider>)
    ensures providers == SttProviders(chain, audio)
  {
    hide KindOf;
    providers := [];
    ghost var kinds: seq<nat> := [];
    var k := 0;
    assert chain[..0] == [];
    while k < |chain|
      invariant 0 <= k <= |chain|
      invariant kinds == KindsOf(chain[..k], STT_KINDS) && |providers| == |kinds|
      invariant forall i :: 0 <= i < |kinds| ==> providers[i] == SttProvider(kinds[i], audio)
    {
      var more := KindOf(chain[k], STT_KINDS);
      assert chain[..k + 1][..k] == chain[..k];
      OneKind(chain[k], STT_KINDS);
      if more != [] { providers := providers + [SttProvider(more[0], audio)]; }
      kinds := kinds + more;
      k := k + 1;
    }
    assert chain[..k] == chain;
    if providers == [] { providers := [SttProvider(COMMAND, audio)]; }
  }

  lemma OneKind(item: string, known: seq<string>)
    ensures |KindOf(item, known)| <= 1
  {
  }

  // ----- when the status record is honest ---------------------------------------------------

  lemma NamesDiffer(i: nat, j: nat)
    requires i < |STT_KINDS| && j < |STT_KINDS|
    ensures STT_KINDS[i] != "" && (STT_KINDS[i] == STT_KINDS[j] <==> i == j)
  {
    assert STT_KINDS[0][0] == 'c' && STT_KINDS[1][0] == 'w';
  }

  /** No fallback provider has the kind of the primary one. */
  predicate PrimaryOnce(ps: seq<AudioProvider>) {
    forall k :: 0 < k < |ps| ==> ps[k].kind != ps[0].kind
  }

  lemma HonestRun(ps: seq<AudioProvider>, answers: seq<Answer>)
    requires Proper(ps) && |answers| == |ps| && PrimaryOnce(ps)
    ensures Honest(StatusAfter(ps, answers))
  {
    hide STT_KINDS;
    var k := FirstSuccess(answers);
    if k < |ps| { NamesDiffer(ps[k].kind, ps[0].kind); }
  }

  /** Only provider `k` succeeds. */
  function OnlySuccess(n: nat, k: nat): (answers: seq<Answer>)
    ensures |answers| == n
  {
    seq(n, j => if j == k then Ok("text") else Err("exit_nonzero"))
  }

  lemma DishonestRun(ps: seq<AudioProvider>, k: nat)
    requires Proper(ps) && 0 < k < |ps| && ps[k].kind == ps[0].kind
    ensures !Honest(StatusAfter(ps, OnlySuccess(|ps|, k)))
  {
    hide STT_KINDS;
    FirstAt(OnlySuccess(|ps|, k), k);
    NamesDiffer(ps[k].kind, ps[0].kind);
  }

  lemma InitiallyHonest(ps: seq<AudioProvider>)
    requires Proper(ps)
    ensures Honest(InitialStatus(ps))
  {
  }

  /** What the providers answer in each of several runs. */
  predicate RunsOf(ps: seq<AudioProvider>, runs: seq<seq<Answer>>) {
    forall k :: 0 <= k < |runs| ==> |runs[k]| == |ps|
  }

  /** The status record a new resolver shows after these runs. */
  function StatusOver(ps: seq<AudioProvider>, runs: seq<seq<Answer>>): Status
    requires Proper(ps) && RunsOf(ps, runs)
  {
    if runs == [] then InitialStatus(ps) else StatusAfter(ps, runs[|runs| - 1])
  }

  ghost predicate AlwaysHonest(ps: seq<AudioProvider>)
    requires Proper(ps)
  {
    forall runs | RunsOf(ps, runs) :: Honest(StatusOver(ps, runs))
  }

  /** The status record keeps its promise in every snapshot, the first one and after any runs,
      exactly when the primary kind occurs once.  A startup chain that names it twice breaks it:
      nothing rejects such a chain there. */
  lemma HonestExactly(ps: seq<AudioProvider>)
    requires Proper(ps)
    ensures AlwaysHonest(ps) <==> PrimaryOnce(ps)
  {
    hide Honest, StatusAfter, InitialStatus;
    if PrimaryOnce(ps) {
      forall runs | RunsOf(ps, runs) ensures Honest(StatusOver(ps, runs)) {
        if runs == [] { InitiallyHonest(ps); } else { HonestRun(ps, runs[|runs| - 1]); }
      }
    } else {
      var k :| 0 < k < |ps| && ps[k].kind == ps[0].kind;
      DishonestRun(ps, k);
      assert !Honest(StatusOver(ps, [OnlySuccess(|ps|, k)]));
    }
  }

  /** A chain the settings accept always gives an honest record. */
  lemma AcceptedChainHonest(raw: seq<string>, audio: AudioConfig)
    requires Validate(raw, STT_KINDS).Ok?
    ensures Proper(SttProviders(Validate(raw, STT_KINDS).value, audio))
    ensures AlwaysHonest(SttProviders(Validate(raw, STT_KINDS).value, audio))
  {
    hide AlwaysHonest, ResolvedKinds;
    var v := Validate(raw, STT_KINDS).value;
    KindsNonEmpty();
    AcceptedKinds(raw, STT_KINDS);
    var ps := SttProviders(v, audio);
    assert PrimaryOnce(ps);
    HonestExactly(ps);
  }

  lemma KindsNonEmpty()
    ensures [] !in STT_KINDS && [] !in TTS_KINDS && [] !in TEXT_KINDS
    ensures |STT_KINDS| == 2 && |TTS_KINDS| == 2 && |TEXT_KINDS| == 4
  {
  }

  /** What the startup parser makes of `command,command`. */
  lemma RepeatedPrimary(audio: AudioConfig)
    ensures var ps := SttProviders([STT_KINDS[0], STT_KINDS[0]], audio);
      && Proper(ps) && !AlwaysHonest(ps)
  {
    hide AlwaysHonest, KindOf, KindsOf;
    var command := STT_KINDS[0];
    CommandNormal();
    KindsOfTwo(command, command, STT_KINDS);
    var ps := SttProviders([command, command], audio);
    assert ResolvedKinds([command, command], STT_KINDS) == [0, 0];
    assert ps[1].kind == ps[0].kind;
    HonestExactly(ps);
  }

  lemma KindsOfTwo(a: string, b: string, known: seq<string>)
    ensures KindsOf([a, b], known) == KindOf(a, known) + KindOf(b, known)
  {
    hide KindOf;
    assert [a, b][..1] == [a] && [a][..0] == [];
    assert KindsOf([a], known) == [] + KindOf(a, known);
  }

  lemma CommandNormal()
    ensures KindOf(STT_KINDS[0], STT_KINDS) == [0]
  {
    var c := STT_KINDS[0];
    assert c[0] == 'c' && c[|c| - 1] == 'd';
    Text.NormalizeFixes(c);
  }
}
