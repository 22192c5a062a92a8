/** Two audio settings calls at the same time.  Each of them copies the live configuration, swaps in
    a resolver built from its merged copy and stores that copy, under one lock after the other; the
    other call can come in between.  Stated here: what every interleaving leaves behind, and when
    the installed resolvers still match the live configuration. */
module SettingsRace {
  import opened Common
  import opened Chains
  import opened Providers
  import opened Settings

  /** The two calls: one for speech-to-text, one for text-to-speech. */
  datatype Calls = Calls(sttEnabled: bool, sttCommand: Option<string>,
                         ttsEnabled: bool, ttsCommand: Option<string>, auto: Option<bool>)
  {
    function Stt(audio: AudioConfig): AudioConfig { WithStt(audio, sttEnabled, sttCommand) }

    function Tts(audio: AudioConfig): AudioConfig { WithTts(audio, ttsEnabled, ttsCommand, auto) }
  }

  /** How far a call has come; `after` tells whether its copy was taken after the other's store. */
  datatype Phase =
    | Ready
    | Copied(merged: AudioConfig, after: bool)
    | Swapped(merged: AudioConfig, after: bool)
    | Stored(after: bool)

  datatype Side = SttSide | TtsSide

  datatype Race = Race(
    audio: AudioConfig,
    stt: seq<AudioProvider>,
    tts: seq<AudioProvider>,
    sttCall: Phase,
    ttsCall: Phase,
    last: Side)   // who stored last

  function Begin(audio: AudioConfig): Race {
    Race(audio, SttOf(audio), TtsOf(audio), Ready, Ready, SttSide)
  }

  predicate CanMove(s: Race, side: Side) {
    if side.SttSide? then !s.sttCall.Stored? else !s.ttsCall.Stored?
  }

  /** The next access of one of the calls. */
  function Move(calls: Calls, s: Race, side: Side): Race
    requires CanMove(s, side)
  {
    if side.SttSide? then
      match s.sttCall
      case Ready => s.(sttCall := Copied(calls.Stt(s.audio), s.ttsCall.Stored?))
      case Copied(a, after) => s.(stt := SttOf(a), sttCall := Swapped(a, after))
      case Swapped(a, after) => s.(audio := a, sttCall := Stored(after), last := SttSide)
    else
      match s.ttsCall
      case Ready => s.(ttsCall := Copied(calls.Tts(s.audio), s.sttCall.Stored?))
      case Copied(a, after) => s.(tts := TtsOf(a), ttsCall := Swapped(a, after))
      case Swapped(a, after) => s.(audio := a, ttsCall := Stored(after), last := TtsSide)
  }

  /** The schedule leads from `s` to `s'`. */
  ghost predicate Leads(calls: Calls, s: Race, schedule: seq<Side>, s': Race)
    decreases |schedule|
  {
    if schedule == [] then s' == s
    else CanMove(s, schedule[0]) && Leads(calls, Move(calls, s, schedule[0]), schedule[1..], s')
  }

  predicate Finished(s: Race) { s.sttCall.Stored? && s.ttsCall.Stored? }

  /** One call took its copy only after the other had stored. */
  predicate Serial(s: Race)
    requires Finished(s)
  {
    s.sttCall.after || s.ttsCall.after
  }

  /** The resolvers are the ones the live configuration describes. */
  predicate Matches(s: Race) {
    s.stt == SttOf(s.audio) && s.tts == TtsOf(s.audio)
  }

  // ----- the invariant ----------------------------------------------------------------------

  function Before(after: bool, other: AudioConfig, start: AudioConfig): AudioConfig {
    if after then other else start
  }

  predicate SttPhase(calls: Calls, start: AudioConfig, s: Race) {
    match s.sttCall
    case Ready => s.stt == SttOf(start)
    case Copied(a, after) => s.stt == SttOf(start) && a == calls.Stt(Before(after, calls.Tts(start), start))
    case Swapped(a, after) => s.stt == SttOf(a) && a == calls.Stt(Before(after, calls.Tts(start), start))
    case Stored(_) => s.stt == SttOf(calls.Stt(start))
  }

  predicate TtsPhase(calls: Calls, start: AudioConfig, s: Race) {
    match s.ttsCall
    case Ready => s.tts == TtsOf(start)
    case Copied(a, after) => s.tts == TtsOf(start) && a == calls.Tts(Before(after, calls.Stt(start), start))
    case Swapped(a, after) => s.tts == TtsOf(a) && a == calls.Tts(Before(after, calls.Stt(start), start))
    case Stored(_) => s.tts == TtsOf(calls.Tts(start))
  }

  function LiveAudio(calls: Calls, start: AudioConfig, s: Race): AudioConfig {
    if !s.sttCall.Stored? && !s.ttsCall.Stored? then start
    else if !s.ttsCall.Stored? then calls.Stt(start)
    else if !s.sttCall.Stored? then calls.Tts(start)
    else if s.sttCall.after || s.ttsCall.after then calls.Stt(calls.Tts(start))
    else if s.last.SttSide? then calls.Stt(start)
    else calls.Tts(start)
  }

  predicate Orderly(s: Race) {
    && (!s.sttCall.Ready? && s.sttCall.after ==> s.ttsCall.Stored? && !s.ttsCall.after)
    && (!s.ttsCall.Ready? && s.ttsCall.after ==> s.sttCall.Stored? && !s.sttCall.after)
  }

  predicate RaceInv(calls: Calls, start: AudioConfig, s: Race) {
    SttPhase(calls, start, s) && TtsPhase(calls, start, s) && Orderly(s) && s.audio == LiveAudio(calls, start, s)
  }

  /** The calls change different fields, and each resolver sees those of its own call only. */
  lemma Independent(calls: Calls, audio: AudioConfig)
    ensures calls.Stt(calls.Tts(audio)) == calls.Tts(calls.Stt(audio))
    ensures SttOf(calls.Tts(audio)) == SttOf(audio)
    ensures TtsOf(calls.Stt(audio)) == TtsOf(audio)
  {
    hide Merged, SttProviders, TtsProviders;
    SttFrame(audio.sttChain, audio, calls.Tts(audio));
    TtsFrame(audio.ttsChain, audio, calls.Stt(audio));
  }

  lemma MoveKeeps(calls: Calls, start: AudioConfig, s: Race, side: Side)
    requires RaceInv(calls, start, s) && CanMove(s, side)
    ensures RaceInv(calls, start, Move(calls, s, side))
  {
    hide SttOf, TtsOf, Calls.Stt, Calls.Tts;
    Independent(calls, start);
    Independent(calls, calls.Stt(start));
    Independent(calls, calls.Tts(start));
  }

  lemma {:induction false} ScheduleKeeps(calls: Calls, start: AudioConfig, s: Race, schedule: seq<Side>, s': Race)
    requires RaceInv(calls, start, s) && Leads(calls, s, schedule, s')
    ensures RaceInv(calls, start, s')
    decreases |schedule|
  {
    hide RaceInv, Move, CanMove;
    if schedule != [] {
      MoveKeeps(calls, start, s, schedule[0]);
      ScheduleKeeps(calls, start, Move(calls, s, schedule[0]), schedule[1..], s');
    }
  }

  lemma BeginKeeps(calls: Calls, start: AudioConfig)
    ensures RaceInv(calls, start, Begin(start))
  {
    hide SttOf, TtsOf;
  }

  // ----- the results ------------------------------------------------------------------------

  /** The call whose store was overwritten had nothing to say to its resolver. */
  predicate LostNothing(calls: Calls, start: AudioConfig, s: Race) {
    if s.last.TtsSide? then SttOf(calls.Stt(start)) == SttOf(start) else TtsOf(calls.Tts(start)) == TtsOf(start)
  }

  /** Over all interleavings of the two calls: the resolvers match the live configuration exactly if
      the calls did not overlap or the one that stored first changed nothing for its resolver.  One
      after the other, both changes are there; overlapping, only those of the last to store. */
  lemma OverlapExactly(calls: Calls, start: AudioConfig, schedule: seq<Side>, s: Race)
    requires Leads(calls, Begin(start), schedule, s) && Finished(s)
    ensures Matches(s) <==> Serial(s) || LostNothing(calls, start, s)
    ensures s.audio == if Serial(s) then calls.Stt(calls.Tts(start))
                       else if s.last.SttSide? then calls.Stt(start) else calls.Tts(start)
  {
    hide SttOf, TtsOf, Calls.Stt, Calls.Tts, Leads;
    BeginKeeps(calls, start);
    ScheduleKeeps(calls, start, Begin(start), schedule, s);
    Independent(calls, start);
    Independent(calls, calls.Stt(start));
    Independent(calls, calls.Tts(start));
  }

  /** A speech-to-text call says nothing to its resolver exactly if it keeps the switch and, where
      the command provider is in the chain, the command. */
  lemma SttSilentExactly(audio: AudioConfig, enabled: bool, command: Option<string>)
    ensures SttOf(WithStt(audio, enabled, command)) == SttOf(audio) <==>
      enabled == audio.sttEnabled
      && (COMMAND in ResolvedKinds(audio.sttChain, STT_KINDS) ==> Merged(audio.sttCmd, command) == audio.sttCmd)
  {
    hide Merged, ResolvedKinds;
    var ks := ResolvedKinds(audio.sttChain, STT_KINDS);
    var a, b := SttOf(WithStt(audio, enabled, command)), SttOf(audio);
    if a == b {
      assert a[0].enabled == b[0].enabled;
      if COMMAND in ks {
        var k :| 0 <= k < |ks| && ks[k] == COMMAND;
        assert a[k].command == b[k].command;
      }
    }
  }

  /** A text-to-speech call says nothing to its resolver under the same condition; whether speech
      starts by itself is no matter of the resolver. */
  lemma TtsSilentExactly(audio: AudioConfig, enabled: bool, command: Option<string>, auto: Option<bool>)
    ensures TtsOf(WithTts(audio, enabled, command, auto)) == TtsOf(audio) <==>
      enabled == audio.ttsEnabled
      && (COMMAND in ResolvedKinds(audio.ttsChain, TTS_KINDS) ==> Merged(audio.ttsCmd, command) == audio.ttsCmd)
  {
    hide Merged, ResolvedKinds;
    var ks := ResolvedKinds(audio.ttsChain, TTS_KINDS);
    var a, b := TtsOf(WithTts(audio, enabled, command, auto)), TtsOf(audio);
    if a == b {
      assert a[0].enabled == b[0].enabled;
      if COMMAND in ks {
        var k :| 0 <= k < |ks| && ks[k] == COMMAND;
        assert a[k].command == b[k].command;
      }
    }
  }

  /** A schedule that leaves a stale speech-to-text resolver behind wherever that call has something
      to say. */
  lemma OverlapHappens(calls: Calls, start: AudioConfig) returns (schedule: seq<Side>, s: Race)
    ensures Leads(calls, Begin(start), schedule, s) && Finished(s) && !Serial(s)
    ensures Matches(s) <==> SttOf(calls.Stt(start)) == SttOf(start)
  {
    hide SttOf, TtsOf, Calls.Stt, Calls.Tts;
    var s0 := Begin(start);
    var s1 := Move(calls, s0, SttSide);
    var s2 := Move(calls, s1, TtsSide);
    var s3 := Move(calls, s2, SttSide);
    var s4 := Move(calls, s3, SttSide);
    var s5 := Move(calls, s4, TtsSide);
    s := Move(calls, s5, TtsSide);
    assert Leads(calls, s, [], s);
    LeadsCons(calls, s5, TtsSide, [], s);
    LeadsCons(calls, s4, TtsSide, [TtsSide], s);
    LeadsCons(calls, s3, SttSide, [TtsSide, TtsSide], s);
    LeadsCons(calls, s2, SttSide, [SttSide, TtsSide, TtsSide], s);
    LeadsCons(calls, s1, TtsSide, [SttSide, SttSide, TtsSide, TtsSide], s);
    LeadsCons(calls, s0, SttSide, [TtsSide, SttSide, SttSide, TtsSide, TtsSide], s);
    schedule := [SttSide] + [TtsSide, SttSide, SttSide, TtsSide, TtsSide];
    OverlapExactly(calls, start, schedule, s);
  }

  lemma LeadsCons(calls: Calls, s: Race, side: Side, rest: seq<Side>, s': Race)
    requires CanMove(s, side) && Leads(calls, Move(calls, s, side), rest, s')
    ensures Leads(calls, s, [side] + rest, s')
  {
    assert ([side] + rest)[1..] == rest;
  }
}
