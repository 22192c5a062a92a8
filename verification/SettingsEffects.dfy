/** What each settings call does with the values it is given, and when it is refused, read off the
    request alone; and what a start makes of the values in the override files. */
module SettingsEffects {
  import opened Common
  import opened Text
  import opened Chains
  import Providers
  import opened Settings

  /** An optional string before and after it is set: not given keeps it, blank clears it, anything
      else replaces it without the white space around. */
  predicate StringSet(before: Option<string>, given: Option<string>, after: Option<string>) {
    after == if given.None? then before else if Trim(given.value) == "" then None else Some(Trim(given.value))
  }

  predicate KnownMode(raw: string) {
    Normalize(raw) == "on_demand" || Normalize(raw) == "standby"
  }

  lemma ModesSpelled(raw: string)
    ensures CanonicalMode(raw) == if KnownMode(raw) then Some(Normalize(raw)) else None
  {
    hide Normalize;
    assert MODES[0] == "on_demand" && MODES[1] == "standby";
  }

  /** Unknown modes and a zero timeout are refused, and a refused call changes nothing. */
  lemma LlamafileEffect(c: Config, s: Live, enabled: bool, mode: Option<string>, idle: Option<nat>, path: Option<string>, io: Io)
    ensures var req := SetLlamafile(enabled, mode, idle, path); var s' := Handle(c, s, req, io);
      && (Accepted(req, io) <==> (mode.Some? ==> KnownMode(mode.value)) && idle != Some(0))
      && (!Accepted(req, io) ==> s' == s)
      && (Accepted(req, io) ==>
            && s'.llamafile.enabled == enabled
            && s'.llamafile.mode == (if mode.Some? then Normalize(mode.value) else s.llamafile.mode)
            && s'.llamafile.idleTimeout == (if idle.Some? then idle.value else s.llamafile.idleTimeout)
            && StringSet(s.llamafile.path, path, s'.llamafile.path)
            && s'.llamafile.port == s.llamafile.port && s'.llamafile.startupTimeout == s.llamafile.startupTimeout
            && s'.llamafile.requestTimeout == s.llamafile.requestTimeout
            && s'.disk.llamafile == (if !io.saved then s.disk.llamafile
                 else LlamafileFile(Some(enabled), Some(s'.llamafile.mode), Some(s'.llamafile.idleTimeout), s'.llamafile.path)))
  {
    hide Normalize, Trim, TextProviders, CanonicalMode;
    if mode.Some? { ModesSpelled(mode.value); }
  }

  lemma LocalHttpEffect(c: Config, s: Live, enabled: bool, endpoint: Option<string>, timeout: Option<nat>, io: Io)
    ensures var req := SetLocalHttp(enabled, endpoint, timeout); var s' := Handle(c, s, req, io);
      && (Accepted(req, io) <==> timeout != Some(0))
      && (!Accepted(req, io) ==> s' == s)
      && (Accepted(req, io) ==>
            && s'.localHttp.enabled == enabled
            && StringSet(s.localHttp.endpoint, endpoint, s'.localHttp.endpoint)
            && s'.localHttp.requestTimeout == (if timeout.Some? then timeout.value else s.localHttp.requestTimeout)
            && s'.localHttp.promptField == s.localHttp.promptField && s'.localHttp.responseField == s.localHttp.responseField
            && s'.disk.localHttp == (if !io.saved then s.disk.localHttp
                 else LocalHttpFile(Some(enabled), s'.localHttp.endpoint, Some(s'.localHttp.requestTimeout))))
  {
    hide Trim, TextProviders;
  }

  /** The operational cloud settings are kept in memory only. */
  lemma CloudHttpEffect(c: Config, s: Live, enabled: bool, endpoint: Option<string>, model: Option<string>, timeout: Option<nat>, io: Io)
    ensures var req := SetCloudHttp(enabled, endpoint, model, timeout); var s' := Handle(c, s, req, io);
      && (Accepted(req, io) <==> timeout != Some(0))
      && (!Accepted(req, io) ==> s' == s)
      && s'.disk == s.disk
      && (Accepted(req, io) ==>
            && s'.cloudHttp.enabled == enabled
            && StringSet(s.cloudHttp.endpoint, endpoint, s'.cloudHttp.endpoint)
            && StringSet(s.cloudHttp.model, model, s'.cloudHttp.model)
            && s'.cloudHttp.requestTimeout == (if timeout.Some? then timeout.value else s.cloudHttp.requestTimeout)
            && s'.cloudHttp.promptField == s.cloudHttp.promptField && s'.cloudHttp.responseField == s.cloudHttp.responseField
            && s'.cloudHttp.authHeader == s.cloudHttp.authHeader)
  {
    hide Trim, TextProviders;
  }

  /** The key is stored trimmed, or removed if there is nothing in it: in memory, on disk, after a
      restart and in every cloud provider.  Only a save that fails is refused. */
  lemma ApiKeyEffect(c: Config, s: Live, raw: Option<string>, io: Io)
    requires Coherent(c, s)
    ensures var req := SetApiKey(raw); var s' := Handle(c, s, req, io);
      var key := if raw.Some? && Trim(raw.value) != "" then Some(Trim(raw.value)) else None;
      && (Accepted(req, io) <==> io.saved)
      && (!io.saved ==> s' == s)
      && (io.saved ==>
            && s'.apiKey == key && s'.disk.apiKey == key && Start(c, s'.disk).apiKey == key
            && forall i :: 0 <= i < |s'.text| && s'.text[i].CloudHttp? ==> s'.text[i].apiKey == key)
  {
    hide Trim, TextProviders, Coherent, Start;
    var s' := Handle(c, s, SetApiKey(raw), io);
    HandleCoherent(c, s, SetApiKey(raw), io);
    KeyInProviders(c, s');
    KeyRead(c, s'.disk);
  }

  lemma KeyRead(c: Config, d: Disk)
    ensures Start(c, d).apiKey == d.apiKey
  {
  }

  lemma KeyInProviders(c: Config, s: Live)
    requires Coherent(c, s)
    ensures forall i :: 0 <= i < |s.text| && s.text[i].CloudHttp? ==> s.text[i].apiKey == s.apiKey
  {
    hide ResolvedKinds, SttOf, TtsOf;
  }

  lemma SttEffect(c: Config, s: Live, enabled: bool, command: Option<string>, io: Io)
    ensures var req := SetStt(enabled, command); var s' := Handle(c, s, req, io);
      && Accepted(req, io)
      && s'.audio.sttEnabled == enabled && StringSet(s.audio.sttCmd, command, s'.audio.sttCmd)
      && s'.audio == s.audio.(sttEnabled := s'.audio.sttEnabled, sttCmd := s'.audio.sttCmd)
      && s'.disk.stt == if io.saved then SttFile(Some(enabled), s'.audio.sttCmd) else s.disk.stt
  {
    hide Trim, SttOf, TtsOf;
  }

  lemma TtsEffect(c: Config, s: Live, enabled: bool, command: Option<string>, auto: Option<bool>, io: Io)
    ensures var req := SetTts(enabled, command, auto); var s' := Handle(c, s, req, io);
      && Accepted(req, io)
      && s'.audio.ttsEnabled == enabled && StringSet(s.audio.ttsCmd, command, s'.audio.ttsCmd)
      && s'.audio.autoSpeak == (if auto.Some? then auto.value else s.audio.autoSpeak)
      && s'.audio == s.audio.(ttsEnabled := s'.audio.ttsEnabled, ttsCmd := s'.audio.ttsCmd, autoSpeak := s'.audio.autoSpeak)
      && s'.disk.tts == if io.saved then TtsFile(Some(enabled), s'.audio.ttsCmd, Some(s'.audio.autoSpeak)) else s.disk.tts
  {
    hide Trim, SttOf, TtsOf;
  }

  /** A list of names is a chain of this vocabulary: not empty, known up to trimming and case, and
      without repetition. */
  predicate ProperChain(raw: seq<string>, known: seq<string>) {
    raw != [] && AllKnown(NormalizeAll(raw), known) && Distinct(NormalizeAll(raw))
  }

  /** A chain is accepted exactly if it is a proper one, and stored in its normal form. */
  lemma TextChainEffect(c: Config, s: Live, chain: seq<string>, io: Io)
    ensures var req := SetTextChain(chain); var s' := Handle(c, s, req, io);
      && (Accepted(req, io) <==> ProperChain(chain, ["abrain", "llamafile_local", "local_http", "cloud_http"]))
      && (if Accepted(req, io)
          then s'.textChain == NormalizeAll(chain)
               && s'.disk.textChain == (if io.saved then Some(NormalizeAll(chain)) else s.disk.textChain)
          else s' == s)
  {
    hide TextProviders, SttOf, TtsOf, Validate, NormalizeAll, AllKnown, Chains.Distinct;
    Providers.KindsNonEmpty();
    ValidateExact(chain, TEXT_KINDS);
  }

  lemma SttChainEffect(c: Config, s: Live, chain: seq<string>, io: Io)
    ensures var req := SetSttChain(chain); var s' := Handle(c, s, req, io);
      && (Accepted(req, io) <==> ProperChain(chain, ["command", "whisper_cpp"]))
      && (if Accepted(req, io)
          then s'.audio == s.audio.(sttChain := NormalizeAll(chain))
               && s'.disk.sttChain == (if io.saved then Some(NormalizeAll(chain)) else s.disk.sttChain)
          else s' == s)
  {
    hide TextProviders, SttOf, TtsOf, Validate, NormalizeAll, AllKnown, Chains.Distinct;
    Providers.KindsNonEmpty();
    ValidateExact(chain, STT_KINDS);
  }

  lemma TtsChainEffect(c: Config, s: Live, chain: seq<string>, io: Io)
    ensures var req := SetTtsChain(chain); var s' := Handle(c, s, req, io);
      && (Accepted(req, io) <==> ProperChain(chain, ["command", "piper"]))
      && (if Accepted(req, io)
          then s'.audio == s.audio.(ttsChain := NormalizeAll(chain))
               && s'.disk.ttsChain == (if io.saved then Some(NormalizeAll(chain)) else s.disk.ttsChain)
          else s' == s)
  {
    hide TextProviders, SttOf, TtsOf, Validate, NormalizeAll, AllKnown, Chains.Distinct;
    Providers.KindsNonEmpty();
    ValidateExact(chain, TTS_KINDS);
  }

  /** What a file holds after it was removed and written again, either of which can fail. */
  function Rewritten(before: Option<seq<string>>, chain: seq<string>, io: Io): Option<seq<string>> {
    if io.saved then Some(chain) else if io.cleared then None else before
  }

  /** A reset is never refused and leaves the default chain. */
  lemma ResetEffect(c: Config, s: Live, io: Io)
    ensures Accepted(ResetTextChain, io) && Handle(c, s, ResetTextChain, io).textChain == ["abrain"]
    ensures Handle(c, s, ResetTextChain, io).disk.textChain == Rewritten(s.disk.textChain, ["abrain"], io)
    ensures Accepted(ResetSttChain, io) && Handle(c, s, ResetSttChain, io).audio == s.audio.(sttChain := ["command"])
    ensures Handle(c, s, ResetSttChain, io).disk.sttChain == Rewritten(s.disk.sttChain, ["command"], io)
    ensures Accepted(ResetTtsChain, io) && Handle(c, s, ResetTtsChain, io).audio == s.audio.(ttsChain := ["command"])
    ensures Handle(c, s, ResetTtsChain, io).disk.ttsChain == Rewritten(s.disk.ttsChain, ["command"], io)
  {
    hide TextProviders, SttOf, TtsOf;
  }

  // ----- providers, read off the settings ---------------------------------------------------

  /** Every text provider of a resolver has the settings of its own kind. */
  lemma TextSpelled(c: Config, s: Live, i: nat)
    requires Coherent(c, s) && i < |s.text|
    ensures |s.text| == |ResolvedKinds(s.textChain, TEXT_KINDS)|
    ensures var kind := TEXT_KINDS[ResolvedKinds(s.textChain, TEXT_KINDS)[i]];
      && (kind == "abrain" ==> s.text[i] == Abrain(c.abrainCmd))
      && (kind == "llamafile_local" ==> s.text[i] == LlamafileLocal(s.llamafile))
      && (kind == "local_http" ==> s.text[i] == TextProvider.LocalHttp(s.localHttp))
      && (kind == "cloud_http" ==> s.text[i] == TextProvider.CloudHttp(s.cloudHttp, s.apiKey))
  {
    hide ResolvedKinds, SttOf, TtsOf;
    assert |TEXT_KINDS[0]| == 6 && |TEXT_KINDS[1]| == 15 && |TEXT_KINDS[2]| == 10 && |TEXT_KINDS[3]| == 10;
    assert TEXT_KINDS[2][0] == 'l' && TEXT_KINDS[3][0] == 'c';
  }

  // ----- a start, read off the files --------------------------------------------------------

  function Given<T>(file: Option<T>, startup: T): T {
    if file.Some? then file.value else startup
  }

  /** The override files win over the startup configuration wherever they say something valid. */
  lemma StartReads(c: Config, d: Disk)
    ensures var l := Start(c, d).llamafile;
      && l.enabled == Given(d.llamafile.enabled, c.llamafile.enabled)
      && l.mode == (if d.llamafile.mode.Some? && KnownMode(d.llamafile.mode.value)
                    then Normalize(d.llamafile.mode.value) else c.llamafile.mode)
      && l.idleTimeout == (if d.llamafile.idleTimeout.Some? && d.llamafile.idleTimeout.value > 0
                           then d.llamafile.idleTimeout.value else c.llamafile.idleTimeout)
      && StringSet(c.llamafile.path, d.llamafile.path, l.path)
    ensures var h := Start(c, d).localHttp;
      && h.enabled == Given(d.localHttp.enabled, c.localHttp.enabled)
      && StringSet(c.localHttp.endpoint, d.localHttp.endpoint, h.endpoint)
      && h.requestTimeout == (if d.localHttp.requestTimeout.Some? && d.localHttp.requestTimeout.value > 0
                              then d.localHttp.requestTimeout.value else c.localHttp.requestTimeout)
    ensures var a := Start(c, d).audio;
      && a.sttEnabled == Given(d.stt.enabled, c.audio.sttEnabled) && StringSet(c.audio.sttCmd, d.stt.command, a.sttCmd)
      && a.ttsEnabled == Given(d.tts.enabled, c.audio.ttsEnabled) && StringSet(c.audio.ttsCmd, d.tts.command, a.ttsCmd)
      && a.autoSpeak == Given(d.tts.autoSpeak, c.audio.autoSpeak)
      && a.sttChain == (if d.sttChain.Some? && d.sttChain.value != [] then d.sttChain.value else c.audio.sttChain)
      && a.ttsChain == (if d.ttsChain.Some? && d.ttsChain.value != [] then d.ttsChain.value else c.audio.ttsChain)
      && a.whisperCmd == c.audio.whisperCmd && a.piperCmd == c.audio.piperCmd
      && a.sttTimeout == c.audio.sttTimeout && a.ttsTimeout == c.audio.ttsTimeout
    ensures var s := Start(c, d);
      && s.textChain == (if d.textChain.Some? && d.textChain.value != [] then d.textChain.value else c.textChain)
      && s.cloudHttp == c.cloudHttp && s.apiKey == d.apiKey && s.disk == d
  {
    hide Normalize, Trim, TextProviders, SttOf, TtsOf, CanonicalMode;
    if d.llamafile.mode.Some? { ModesSpelled(d.llamafile.mode.value); }
  }
}
