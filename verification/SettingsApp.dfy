/** The settings calls as they are written: each validates, merges into a copy of the live settings,
    saves, builds a new resolver, swaps it in and stores the merged settings.  Every method does to
    the object what `Handle` does to the value. */
module SettingsApp {
  import opened Common
  import opened Text
  import opened Chains
  import opened Providers
  import opened Settings

  /** What every setter of an optional string does with the one it is given. */
  method MergeString(current: Option<string>, raw: Option<string>) returns (merged: Option<string>)
    ensures merged == Merged(current, raw)
  {
    hide Trim;
    merged := current;
    if raw.Some? {
      var trimmed := Trim(raw.value);
      merged := if trimmed == [] then None else Some(trimmed);
    }
  }

  class App {
    const config: Config
    var liveTextChain: seq<string>
    var liveLlamafile: LlamafileConfig
    var liveLocalHttp: LocalHttpConfig
    var liveCloudHttp: CloudHttpConfig
    var liveAudio: AudioConfig
    var cloudHttpApiKey: Option<string>
    var textProvider: seq<TextProvider>
    var stt: seq<AudioProvider>
    var tts: seq<AudioProvider>
    var disk: Disk

    function View(): Live
      reads this
    {
      Live(liveTextChain, liveLlamafile, liveLocalHttp, liveCloudHttp, liveAudio, cloudHttpApiKey,
        textProvider, stt, tts, disk)
    }

    /** `App::new`. */
    constructor (config: Config, files: Disk)
      ensures this.config == config && View() == Start(config, files)
    {
      var chain := ChainOr(files.textChain, config.textChain);
      var audio := ApplyStt(config.audio, files.stt);
      audio := audio.(sttChain := ChainOr(files.sttChain, config.audio.sttChain));
      audio := ApplyTts(audio, files.tts);
      audio := audio.(ttsChain := ChainOr(files.ttsChain, config.audio.ttsChain));
      var llamafile := ApplyLlamafile(config.llamafile, files.llamafile);
      var localHttp := ApplyLocalHttp(config.localHttp, files.localHttp);
      this.config := config;
      liveTextChain, liveLlamafile, liveLocalHttp := chain, llamafile, localHttp;
      liveCloudHttp, liveAudio, cloudHttpApiKey := config.cloudHttp, audio, files.apiKey;
      textProvider := TextProviders(chain, config.abrainCmd, llamafile, localHttp, config.cloudHttp, files.apiKey);
      stt, tts := SttProviders(audio.sttChain, audio), TtsProviders(audio.ttsChain, audio);
      disk := files;
    }

    method UpdateLlamafile(enabled: bool, mode: Option<string>, idle: Option<nat>, path: Option<string>, io: Io)
      returns (ok: bool)
      modifies this
      ensures var req := SetLlamafile(enabled, mode, idle, path);
        ok == Accepted(req, io) && View() == Handle(config, old(View()), req, io)
    {
      hide CanonicalMode, TextProviders, Merged;
      if mode.Some? && CanonicalMode(mode.value).None? { return false; }
      if idle == Some(0) { return false; }
      var merged := liveLlamafile;
      merged := merged.(enabled := enabled);
      if mode.Some? { merged := merged.(mode := CanonicalMode(mode.value).value); }
      if idle.Some? { merged := merged.(idleTimeout := idle.value); }
      var newPath := MergeString(merged.path, path);
      merged := merged.(path := newPath);
      if io.saved { disk := disk.(llamafile := SaveLlamafile(merged)); }
      textProvider := TextProviders(liveTextChain, config.abrainCmd, merged, liveLocalHttp, liveCloudHttp, cloudHttpApiKey);
      liveLlamafile := merged;
      ok := true;
    }

    method UpdateLocalHttp(enabled: bool, endpoint: Option<string>, timeout: Option<nat>, io: Io) returns (ok: bool)
      modifies this
      ensures var req := SetLocalHttp(enabled, endpoint, timeout);
        ok == Accepted(req, io) && View() == Handle(config, old(View()), req, io)
    {
      hide TextProviders, Merged;
      if timeout == Some(0) { return false; }
      var merged := liveLocalHttp;
      merged := merged.(enabled := enabled);
      var newEndpoint := MergeString(merged.endpoint, endpoint);
      merged := merged.(endpoint := newEndpoint);
      if timeout.Some? { merged := merged.(requestTimeout := timeout.value); }
      if io.saved { disk := disk.(localHttp := SaveLocalHttp(merged)); }
      textProvider := TextProviders(liveTextChain, config.abrainCmd, liveLlamafile, merged, liveCloudHttp, cloudHttpApiKey);
      liveLocalHttp := merged;
      ok := true;
    }

    method UpdateCloudHttp(enabled: bool, endpoint: Option<string>, model: Option<string>, timeout: Option<nat>, io: Io)
      returns (ok: bool)
      modifies this
      ensures var req := SetCloudHttp(enabled, endpoint, model, timeout);
        ok == Accepted(req, io) && View() == Handle(config, old(View()), req, io)
    {
      hide TextProviders, Merged;
      if timeout == Some(0) { return false; }
      var merged := liveCloudHttp;
      merged := merged.(enabled := enabled);
      var newEndpoint := MergeString(merged.endpoint, endpoint);
      merged := merged.(endpoint := newEndpoint);
      var newModel := MergeString(merged.model, model);
      merged := merged.(model := newModel);
      if timeout.Some? { merged := merged.(requestTimeout := timeout.value); }
      textProvider := TextProviders(liveTextChain, config.abrainCmd, liveLlamafile, liveLocalHttp, merged, cloudHttpApiKey);
      liveCloudHttp := merged;
      ok := true;
    }

    /** The key is stored first; if that fails nothing changes. */
    method SetCloudHttpApiKey(raw: Option<string>, io: Io) returns (ok: bool)
      modifies this
      ensures var req := SetApiKey(raw);
        ok == Accepted(req, io) && View() == Handle(config, old(View()), req, io)
    {
      hide TextProviders, Trim;
      var normalized := if raw.Some? && Trim(raw.value) != [] then Some(Trim(raw.value)) else None;
      if !io.saved { return false; }
      disk := disk.(apiKey := normalized);
      cloudHttpApiKey := normalized;
      textProvider := TextProviders(liveTextChain, config.abrainCmd, liveLlamafile, liveLocalHttp, liveCloudHttp, cloudHttpApiKey);
      ok := true;
    }

    method UpdateStt(enabled: bool, command: Option<string>, io: Io) returns (ok: bool)
      modifies this
      ensures var req := SetStt(enabled, command);
        ok == Accepted(req, io) && View() == Handle(config, old(View()), req, io)
    {
      hide SttProviders, Merged, Handle;
      SttHandled(config, View(), enabled, command, io);
      var merged := liveAudio;
      merged := merged.(sttEnabled := enabled);
      var sttCmd := MergeString(merged.sttCmd, command);
      merged := merged.(sttCmd := sttCmd);
      if io.saved { disk := disk.(stt := SaveStt(merged)); }
      stt := SttProviders(merged.sttChain, merged);
      liveAudio := merged;
      ok := true;
    }

    method UpdateTts(enabled: bool, command: Option<string>, autoSpeak: Option<bool>, io: Io) returns (ok: bool)
      modifies this
      ensures var req := SetTts(enabled, command, autoSpeak);
        ok == Accepted(req, io) && View() == Handle(config, old(View()), req, io)
    {
      hide TtsProviders, Merged, Handle;
      TtsHandled(config, View(), enabled, command, autoSpeak, io);
      var merged := liveAudio;
      merged := merged.(ttsEnabled := enabled);
      var ttsCmd := MergeString(merged.ttsCmd, command);
      merged := merged.(ttsCmd := ttsCmd);
      if autoSpeak.Some? { merged := merged.(autoSpeak := autoSpeak.value); }
      assert merged == WithTts(old(liveAudio), enabled, command, autoSpeak);
      if io.saved { disk := disk.(tts := SaveTts(merged)); }
      tts := TtsProviders(merged.ttsChain, merged);
      liveAudio := merged;
      ok := true;
    }

    method UpdateTextChain(chain: seq<string>, io: Io) returns (ok: bool)
      modifies this
      ensures var req := SetTextChain(chain);
        ok == Accepted(req, io) && View() == Handle(config, old(View()), req, io)
    {
      hide TextProviders, Validate, Handle, Accepted, TEXT_KINDS;
      TextChainHandled(config, View(), chain, io);
      var validated := ValidateChain(chain, TEXT_KINDS);
      if validated.Err? { return false; }
      var normalized := validated.value;
      if io.saved { disk := disk.(textChain := Some(normalized)); }
      textProvider := TextProviders(normalized, config.abrainCmd, liveLlamafile, liveLocalHttp, liveCloudHttp, cloudHttpApiKey);
      liveTextChain := normalized;
      ok := true;
    }

    /** Removes the file and then goes through the ordinary update, which writes it again. */
    method ResetTextProviderChain(io: Io) returns (ok: bool)
      modifies this
      ensures ok && View() == Handle(config, old(View()), ResetTextChain, io)
    {
      hide Handle, Accepted, TEXT_DEFAULT;
      TextResetHandled(config, View(), io);
      if io.cleared { disk := disk.(textChain := None); }
      ok := UpdateTextChain(TEXT_DEFAULT, io);
    }

    method UpdateSttChain(chain: seq<string>, io: Io) returns (ok: bool)
      modifies this
      ensures var req := SetSttChain(chain);
        ok == Accepted(req, io) && View() == Handle(config, old(View()), req, io)
    {
      hide SttProviders, Validate, Handle, Accepted, STT_KINDS;
      SttChainHandled(config, View(), chain, io);
      var validated := ValidateChain(chain, STT_KINDS);
      if validated.Err? { return false; }
      var normalized := validated.value;
      if io.saved { disk := disk.(sttChain := Some(normalized)); }
      var merged := liveAudio.(sttChain := normalized);
      stt := SttProviders(normalized, merged);
      liveAudio := merged;
      ok := true;
    }

    method ResetSttProviderChain(io: Io) returns (ok: bool)
      modifies this
      ensures ok && View() == Handle(config, old(View()), ResetSttChain, io)
    {
      hide Handle, Accepted, STT_DEFAULT;
      SttResetHandled(config, View(), io);
      if io.cleared { disk := disk.(sttChain := None); }
      ok := UpdateSttChain(STT_DEFAULT, io);
    }

    method UpdateTtsChain(chain: seq<string>, io: Io) returns (ok: bool)
      modifies this
      ensures var req := SetTtsChain(chain);
        ok == Accepted(req, io) && View() == Handle(config, old(View()), req, io)
    {
      hide TtsProviders, Validate, Handle, Accepted, TTS_KINDS;
      TtsChainHandled(config, View(), chain, io);
      var validated := ValidateChain(chain, TTS_KINDS);
      if validated.Err? { return false; }
      var normalized := validated.value;
      if io.saved { disk := disk.(ttsChain := Some(normalized)); }
      var merged := liveAudio.(ttsChain := normalized);
      tts := TtsProviders(normalized, merged);
      liveAudio := merged;
      ok := true;
    }

    method ResetTtsProviderChain(io: Io) returns (ok: bool)
      modifies this
      ensures ok && View() == Handle(config, old(View()), ResetTtsChain, io)
    {
      hide Handle, Accepted, TTS_DEFAULT;
      TtsResetHandled(config, View(), io);
      if io.cleared { disk := disk.(ttsChain := None); }
      ok := UpdateTtsChain(TTS_DEFAULT, io);
    }
  }

  predicate DefaultOk(chain: seq<string>, known: seq<string>) {
    Validate(chain, known).Ok? && NormalizeAll(chain) == chain
  }

  /** The reset paths never fail validation, and the default is its own normal form. */
  lemma DefaultsAccepted()
    ensures DefaultOk(TEXT_DEFAULT, TEXT_KINDS)
    ensures DefaultOk(STT_DEFAULT, STT_KINDS)
    ensures DefaultOk(TTS_DEFAULT, TTS_KINDS)
  {
    hide DefaultOk;
    SingleAccepted("abrain", TEXT_KINDS, 0);
    SingleAccepted("command", STT_KINDS, 0);
    SingleAccepted("command", TTS_KINDS, 0);
  }

  lemma SingleAccepted(name: string, known: seq<string>, k: nat)
    requires k < |known| && known[k] == name && (name == "abrain" || name == "command")
    ensures DefaultOk([name], known)
  {
    assert name[0] == 'a' || name[0] == 'c';
    assert name[|name| - 1] == 'n' || name[|name| - 1] == 'd';
    NormalizeFixes(name);
    assert NormalizeAll([name]) == [name];
    assert [name][..0] == [];
    NothingToJudge(known);
  }

  lemma SttHandled(c: Config, s: Live, enabled: bool, command: Option<string>, io: Io)
    ensures var audio := WithStt(s.audio, enabled, command);
      Handle(c, s, SetStt(enabled, command), io)
      == s.(audio := audio, stt := SttOf(audio), disk := if io.saved then s.disk.(stt := SaveStt(audio)) else s.disk)
  {
    hide SttProviders, Merged;
  }

  lemma TtsHandled(c: Config, s: Live, enabled: bool, command: Option<string>, autoSpeak: Option<bool>, io: Io)
    ensures var audio := WithTts(s.audio, enabled, command, autoSpeak);
      Handle(c, s, SetTts(enabled, command, autoSpeak), io)
      == s.(audio := audio, tts := TtsOf(audio), disk := if io.saved then s.disk.(tts := SaveTts(audio)) else s.disk)
  {
    hide TtsProviders, Merged;
  }

  // ----- the chain requests, as values ------------------------------------------------------

  lemma TextChainHandled(c: Config, s: Live, chain: seq<string>, io: Io)
    ensures var v := Validate(chain, TEXT_KINDS);
      && Accepted(SetTextChain(chain), io) == v.Ok?
      && Handle(c, s, SetTextChain(chain), io) == if v.Ok? then NewTextChain(c, s, v.value, io) else s
  {
    hide TextProviders, Judge, NormalizeAll, TEXT_KINDS;
  }

  lemma SttChainHandled(c: Config, s: Live, chain: seq<string>, io: Io)
    ensures var v := Validate(chain, STT_KINDS);
      && Accepted(SetSttChain(chain), io) == v.Ok?
      && Handle(c, s, SetSttChain(chain), io) == if v.Ok? then NewSttChain(s, v.value, io) else s
  {
    hide SttProviders, Judge, NormalizeAll, STT_KINDS;
  }

  lemma TtsChainHandled(c: Config, s: Live, chain: seq<string>, io: Io)
    ensures var v := Validate(chain, TTS_KINDS);
      && Accepted(SetTtsChain(chain), io) == v.Ok?
      && Handle(c, s, SetTtsChain(chain), io) == if v.Ok? then NewTtsChain(s, v.value, io) else s
  {
    hide TtsProviders, Judge, NormalizeAll, TTS_KINDS;
  }

  lemma DefaultValid(chain: seq<string>, known: seq<string>)
    requires DefaultOk(chain, known)
    ensures Validate(chain, known) == Ok(chain)
  {
    hide NormalizeAll, Judge;
  }

  lemma TextResetEffect(c: Config, s: Live, io: Io)
    ensures var cleared := if io.cleared then s.(disk := s.disk.(textChain := None)) else s;
      Handle(c, s, ResetTextChain, io) == NewTextChain(c, cleared, TEXT_DEFAULT, io)
  {
    hide TextProviders, TEXT_DEFAULT;
  }

  /** Resetting is setting the default after the file has been removed. */
  lemma TextResetHandled(c: Config, s: Live, io: Io)
    ensures var cleared := if io.cleared then s.(disk := s.disk.(textChain := None)) else s;
      && Accepted(SetTextChain(TEXT_DEFAULT), io)
      && Handle(c, s, ResetTextChain, io) == Handle(c, cleared, SetTextChain(TEXT_DEFAULT), io)
  {
    hide Handle, Accepted, Validate, DefaultOk, NewTextChain, TEXT_DEFAULT, TEXT_KINDS;
    var cleared := if io.cleared then s.(disk := s.disk.(textChain := None)) else s;
    DefaultsAccepted();
    DefaultValid(TEXT_DEFAULT, TEXT_KINDS);
    TextChainHandled(c, cleared, TEXT_DEFAULT, io);
    TextResetEffect(c, s, io);
  }

  lemma SttResetEffect(c: Config, s: Live, io: Io)
    ensures var cleared := if io.cleared then s.(disk := s.disk.(sttChain := None)) else s;
      Handle(c, s, ResetSttChain, io) == NewSttChain(cleared, STT_DEFAULT, io)
  {
    hide SttProviders, STT_DEFAULT;
  }

  lemma SttResetHandled(c: Config, s: Live, io: Io)
    ensures var cleared := if io.cleared then s.(disk := s.disk.(sttChain := None)) else s;
      && Accepted(SetSttChain(STT_DEFAULT), io)
      && Handle(c, s, ResetSttChain, io) == Handle(c, cleared, SetSttChain(STT_DEFAULT), io)
  {
    hide Handle, Accepted, Validate, DefaultOk, NewSttChain, STT_DEFAULT, STT_KINDS;
    var cleared := if io.cleared then s.(disk := s.disk.(sttChain := None)) else s;
    DefaultsAccepted();
    DefaultValid(STT_DEFAULT, STT_KINDS);
    SttChainHandled(c, cleared, STT_DEFAULT, io);
    SttResetEffect(c, s, io);
  }

  lemma TtsResetEffect(c: Config, s: Live, io: Io)
    ensures var cleared := if io.cleared then s.(disk := s.disk.(ttsChain := None)) else s;
      Handle(c, s, ResetTtsChain, io) == NewTtsChain(cleared, TTS_DEFAULT, io)
  {
    hide TtsProviders, TTS_DEFAULT;
  }

  lemma TtsResetHandled(c: Config, s: Live, io: Io)
    ensures var cleared := if io.cleared then s.(disk := s.disk.(ttsChain := None)) else s;
      && Accepted(SetTtsChain(TTS_DEFAULT), io)
      && Handle(c, s, ResetTtsChain, io) == Handle(c, cleared, SetTtsChain(TTS_DEFAULT), io)
  {
    hide Handle, Accepted, Validate, DefaultOk, NewTtsChain, TTS_DEFAULT, TTS_KINDS;
    var cleared := if io.cleared then s.(disk := s.disk.(ttsChain := None)) else s;
    DefaultsAccepted();
    DefaultValid(TTS_DEFAULT, TTS_KINDS);
    TtsChainHandled(c, cleared, TTS_DEFAULT, io);
    TtsResetEffect(c, s, io);
  }
}
