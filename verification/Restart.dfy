/** Restarting the daemon: the override files reproduce the live settings, up to two exceptions
    that are stated exactly. */
module Restart {
  import opened Common
  import opened Text
  import opened Chains
  import Providers
  import opened Settings

  predicate NonBlankOption(o: Option<string>) {
    o.Some? ==> NonBlank(o.value)
  }

  /** What the configuration loader guarantees: optional strings are trimmed or absent, the mode is
      one of the two. */
  predicate Loaded(c: Config) {
    && NonBlankOption(c.llamafile.path) && NonBlankOption(c.localHttp.endpoint)
    && NonBlankOption(c.audio.sttCmd) && NonBlankOption(c.audio.ttsCmd)
    && c.llamafile.mode in MODES
  }

  /** A string the daemon has cleared is not in its file, so the startup value comes back.  A blank
      string that someone wrote into the file stays there and clears again. */
  function Back(live: Option<string>, file: Option<string>, startup: Option<string>): Option<string> {
    if live.None? && file.None? then startup else live
  }

  function RestoredAudio(c: Config, s: Live): Providers.AudioConfig {
    s.audio.(sttCmd := Back(s.audio.sttCmd, s.disk.stt.command, c.audio.sttCmd),
             ttsCmd := Back(s.audio.ttsCmd, s.disk.tts.command, c.audio.ttsCmd))
  }

  function RestoredLlamafile(c: Config, s: Live): LlamafileConfig {
    s.llamafile.(path := Back(s.llamafile.path, s.disk.llamafile.path, c.llamafile.path))
  }

  function RestoredLocalHttp(c: Config, s: Live): LocalHttpConfig {
    s.localHttp.(endpoint := Back(s.localHttp.endpoint, s.disk.localHttp.endpoint, c.localHttp.endpoint))
  }

  /** The live settings a restart with the same startup configuration brings. */
  predicate Restores(c: Config, s: Live, r: Live) {
    && r.textChain == s.textChain
    && r.llamafile == RestoredLlamafile(c, s)
    && r.localHttp == RestoredLocalHttp(c, s)
    && r.audio == RestoredAudio(c, s)
    && r.cloudHttp == c.cloudHttp
    && r.apiKey == s.apiKey
  }

  /** What lets files and live settings agree, axis by axis. */
  predicate Agrees(c: Config, s: Live) {
    && LlamafileAgrees(c, s)
    && LocalHttpAgrees(c, s)
    && AudioAgrees(c, s)
    && ChainOr(s.disk.textChain, c.textChain) == s.textChain
    && s.apiKey == s.disk.apiKey
  }

  predicate LlamafileAgrees(c: Config, s: Live) {
    && ApplyLlamafile(c.llamafile, s.disk.llamafile) == RestoredLlamafile(c, s)
    && NonBlankOption(s.llamafile.path) && s.llamafile.mode in MODES
    && (s.llamafile.idleTimeout == 0 ==> c.llamafile.idleTimeout == 0)
  }

  predicate LocalHttpAgrees(c: Config, s: Live) {
    && ApplyLocalHttp(c.localHttp, s.disk.localHttp) == RestoredLocalHttp(c, s)
    && NonBlankOption(s.localHttp.endpoint)
    && (s.localHttp.requestTimeout == 0 ==> c.localHttp.requestTimeout == 0)
  }

  predicate AudioAgrees(c: Config, s: Live) {
    && ApplyTts(ApplyStt(c.audio, s.disk.stt), s.disk.tts)
         .(sttChain := ChainOr(s.disk.sttChain, c.audio.sttChain), ttsChain := ChainOr(s.disk.ttsChain, c.audio.ttsChain))
       == RestoredAudio(c, s)
    && NonBlankOption(s.audio.sttCmd) && NonBlankOption(s.audio.ttsCmd)
  }

  lemma MergedNonBlank(current: Option<string>, raw: Option<string>)
    requires NonBlankOption(current)
    ensures NonBlankOption(Merged(current, raw))
  {
  }

  /** Saving a string and merging it back into the startup value. */
  lemma MergedBack(startup: Option<string>, live: Option<string>)
    requires NonBlankOption(live)
    ensures Merged(startup, live) == Back(live, live, startup)
  {
  }

  /** Whatever string a file holds, it merges to the same value again. */
  lemma FromFile(startup: Option<string>, file: Option<string>)
    requires NonBlankOption(startup)
    ensures Back(Merged(startup, file), file, startup) == Merged(startup, file)
    ensures NonBlankOption(Merged(startup, file))
  {
  }

  lemma ModeFixed(mode: string)
    requires mode in MODES
    ensures CanonicalMode(mode) == Some(mode)
  {
    var k :| 0 <= k < |MODES| && MODES[k] == mode;
    if k == 0 { LowerMode("on_demand"); } else { LowerMode("standby"); }
  }

  lemma LowerMode(mode: string)
    requires mode == "on_demand" || mode == "standby"
    ensures Normalize(mode) == mode
  {
    assert mode[0] == 'o' || mode[0] == 's';
    assert mode[|mode| - 1] == 'd' || mode[|mode| - 1] == 'y';
    NormalizeFixes(mode);
  }

  lemma ModeStays(current: string, given: Option<string>)
    requires current in MODES
    ensures ModeOr(current, given) in MODES
  {
  }

  lemma StartAgrees(c: Config, d: Disk)
    requires Loaded(c)
    ensures Agrees(c, Start(c, d))
  {
    hide CanonicalMode, Merged, TextProviders, SttOf, TtsOf, MODES;
    FromFile(c.llamafile.path, d.llamafile.path);
    FromFile(c.localHttp.endpoint, d.localHttp.endpoint);
    FromFile(c.audio.sttCmd, d.stt.command);
    FromFile(c.audio.ttsCmd, d.tts.command);
    ModeStays(c.llamafile.mode, d.llamafile.mode);
  }

  lemma LlamafileSaved(c: Config, s: Live, cfg: LlamafileConfig)
    requires Loaded(c) && NonBlankOption(cfg.path) && cfg.mode in MODES
    requires cfg.port == c.llamafile.port && cfg.startupTimeout == c.llamafile.startupTimeout
    requires cfg.requestTimeout == c.llamafile.requestTimeout
    requires cfg.idleTimeout == 0 ==> c.llamafile.idleTimeout == 0
    requires s.llamafile == cfg && s.disk.llamafile == SaveLlamafile(cfg)
    ensures LlamafileAgrees(c, s)
  {
    hide CanonicalMode, Merged, MODES;
    MergedBack(c.llamafile.path, cfg.path);
    ModeFixed(cfg.mode);
  }

  lemma LocalHttpSaved(c: Config, s: Live, cfg: LocalHttpConfig)
    requires Loaded(c) && NonBlankOption(cfg.endpoint)
    requires cfg.promptField == c.localHttp.promptField && cfg.responseField == c.localHttp.responseField
    requires cfg.requestTimeout == 0 ==> c.localHttp.requestTimeout == 0
    requires s.localHttp == cfg && s.disk.localHttp == SaveLocalHttp(cfg)
    ensures LocalHttpAgrees(c, s)
  {
    hide Merged;
    MergedBack(c.localHttp.endpoint, cfg.endpoint);
  }

  /** Every accepted request whose save succeeds keeps files and live settings in agreement. */
  lemma HandleAgrees(c: Config, s: Live, req: Request)
    requires Loaded(c) && Agrees(c, s)
    ensures Agrees(c, Handle(c, s, req, Io(true, true)))
  {
    var io := Io(true, true);
    if Accepted(req, io) {
      match req
      case SetLlamafile(_, _, _, _) => LlamafileRequest(c, s, req, io);
      case SetLocalHttp(_, _, _) => LocalHttpRequest(c, s, req, io);
      case SetCloudHttp(_, _, _, _) => CloudRequest(c, s, req, io);
      case SetApiKey(_) => CloudRequest(c, s, req, io);
      case SetStt(_, _) => AudioRequest(c, s, req, io);
      case SetTts(_, _, _) => AudioRequest(c, s, req, io);
      case _ => ChainRequest(c, s, req, io);
    }
  }

  lemma LlamafileRequest(c: Config, s: Live, req: Request, io: Io)
    requires Loaded(c) && Agrees(c, s) && req.SetLlamafile? && Accepted(req, io) && io.saved
    ensures Agrees(c, Effect(c, s, req, io))
  {
    hide CanonicalMode, Merged, TextProviders, MODES, AudioAgrees, LocalHttpAgrees;
    var s' := Effect(c, s, req, io);
    MergedNonBlank(s.llamafile.path, req.path);
    ModeStays(s.llamafile.mode, req.mode);
    LlamafileSaved(c, s', s'.llamafile);
    OtherAgree(c, s, s');
  }

  lemma LocalHttpRequest(c: Config, s: Live, req: Request, io: Io)
    requires Loaded(c) && Agrees(c, s) && req.SetLocalHttp? && Accepted(req, io) && io.saved
    ensures Agrees(c, Effect(c, s, req, io))
  {
    hide Merged, TextProviders, AudioAgrees, LlamafileAgrees;
    var s' := Effect(c, s, req, io);
    MergedNonBlank(s.localHttp.endpoint, req.endpoint);
    LocalHttpSaved(c, s', s'.localHttp);
    OtherAgree(c, s, s');
  }

  lemma CloudRequest(c: Config, s: Live, req: Request, io: Io)
    requires Loaded(c) && Agrees(c, s) && (req.SetCloudHttp? || req.SetApiKey?) && Accepted(req, io)
    ensures Agrees(c, Effect(c, s, req, io))
  {
    hide Merged, TextProviders, AudioAgrees, LlamafileAgrees, LocalHttpAgrees;
    OtherAgree(c, s, Effect(c, s, req, io));
  }

  lemma AudioRequest(c: Config, s: Live, req: Request, io: Io)
    requires Loaded(c) && Agrees(c, s) && (req.SetStt? || req.SetTts?) && Accepted(req, io) && io.saved
    ensures Agrees(c, Effect(c, s, req, io))
  {
    hide Merged, TextProviders, SttOf, TtsOf, LlamafileAgrees, LocalHttpAgrees;
    var s' := Effect(c, s, req, io);
    MergedNonBlank(s.audio.sttCmd, req.command);
    MergedNonBlank(s.audio.ttsCmd, req.command);
    MergedBack(c.audio.sttCmd, s'.audio.sttCmd);
    MergedBack(c.audio.ttsCmd, s'.audio.ttsCmd);
    OtherAgree(c, s, s');
  }

  lemma ChainRequest(c: Config, s: Live, req: Request, io: Io)
    requires Loaded(c) && Agrees(c, s) && Accepted(req, io) && io.saved
    requires !req.SetLlamafile? && !req.SetLocalHttp? && !req.SetCloudHttp? && !req.SetApiKey? && !req.SetStt? && !req.SetTts?
    ensures Agrees(c, Effect(c, s, req, io))
  {
    hide Merged, TextProviders, SttOf, TtsOf, LlamafileAgrees, LocalHttpAgrees, Judge, Normalize;
    var s' := Effect(c, s, req, io);
    OtherAgree(c, s, s');
  }

  predicate SameAudio(s: Live, s': Live) {
    && s'.audio == s.audio && s'.disk.stt == s.disk.stt && s'.disk.tts == s.disk.tts
    && s'.disk.sttChain == s.disk.sttChain && s'.disk.ttsChain == s.disk.ttsChain
  }

  /** An axis whose live settings and file stay as they are goes on agreeing. */
  lemma OtherAgree(c: Config, s: Live, s': Live)
    ensures LlamafileAgrees(c, s) && s'.llamafile == s.llamafile && s'.disk.llamafile == s.disk.llamafile ==> LlamafileAgrees(c, s')
    ensures LocalHttpAgrees(c, s) && s'.localHttp == s.localHttp && s'.disk.localHttp == s.disk.localHttp ==> LocalHttpAgrees(c, s')
    ensures AudioAgrees(c, s) && SameAudio(s, s') ==> AudioAgrees(c, s')
  {
    hide Merged, CanonicalMode, MODES;
  }

  // ----- the main results -------------------------------------------------------------------

  /** A session in which every save succeeds. */
  function Saved(requests: seq<Request>): (r: seq<(Request, Io)>)
    ensures |r| == |requests| && forall i :: 0 <= i < |r| ==> r[i] == (requests[i], Io(true, true))
  {
    seq(|requests|, i requires 0 <= i < |requests| => (requests[i], Io(true, true)))
  }

  lemma {:induction false} SessionAgrees(c: Config, d: Disk, requests: seq<Request>)
    requires Loaded(c)
    ensures Agrees(c, HandleAll(c, Start(c, d), Saved(requests)))
  {
    hide Agrees, Start, Handle, Loaded;
    if requests == [] {
      StartAgrees(c, d);
    } else {
      var init, last := requests[..|requests| - 1], requests[|requests| - 1];
      SessionAgrees(c, d, init);
      assert Saved(requests)[..|requests| - 1] == Saved(init);
      HandleAgrees(c, HandleAll(c, Start(c, d), Saved(init)), last);
    }
  }

  /** From any files, hand-written ones included, and after any session whose saves succeed, a
      restart with the same startup configuration brings back the live settings, except that a
      string cleared by the daemon falls back to its startup value and the operational cloud
      settings to theirs. */
  lemma RestartRestores(c: Config, d: Disk, requests: seq<Request>)
    requires Loaded(c)
    ensures var s := HandleAll(c, Start(c, d), Saved(requests)); Restores(c, s, Start(c, s.disk))
  {
    hide ApplyLlamafile, ApplyLocalHttp, ApplyStt, ApplyTts, TextProviders, SttOf, TtsOf, Back, ChainOr, HandleAll;
    SessionAgrees(c, d, requests);
  }

  /** The startup configuration sets this string, the live settings lack it, and nothing in the
      file says so. */
  predicate Forgotten(live: Option<string>, file: Option<string>, startup: Option<string>) {
    live.None? && file.None? && startup.Some?
  }

  /** No optional string has been cleared that the startup configuration sets, and the cloud
      settings are as at startup. */
  predicate NothingCleared(c: Config, s: Live) {
    && !Forgotten(s.llamafile.path, s.disk.llamafile.path, c.llamafile.path)
    && !Forgotten(s.localHttp.endpoint, s.disk.localHttp.endpoint, c.localHttp.endpoint)
    && !Forgotten(s.audio.sttCmd, s.disk.stt.command, c.audio.sttCmd)
    && !Forgotten(s.audio.ttsCmd, s.disk.tts.command, c.audio.ttsCmd)
    && s.cloudHttp == c.cloudHttp
  }

  /** A restart after such a session changes nothing at all, resolvers included, exactly when
      nothing has been cleared that startup sets and the cloud settings are untouched. */
  lemma RestartIdentity(c: Config, d: Disk, requests: seq<Request>)
    requires Loaded(c)
    ensures var s := HandleAll(c, Start(c, d), Saved(requests));
      Start(c, s.disk) == s <==> NothingCleared(c, s)
  {
    hide Coherent, Start, HandleAll, Loaded;
    var s := HandleAll(c, Start(c, d), Saved(requests));
    RestartRestores(c, d, requests);
    SessionCoherent(c, d, Saved(requests));
    StartCoherent(c, s.disk);
    StartKeepsDisk(c, s.disk);
    SameResolvers(c, s, Start(c, s.disk));
  }

  /** The session of one request that clears a path the startup configuration sets: the path is
      gone, and back after a restart. */
  lemma ClearedPathReturns(c: Config, d: Disk, enabled: bool)
    requires Loaded(c) && c.llamafile.path.Some?
    ensures var s := HandleAll(c, Start(c, d), Saved([SetLlamafile(enabled, None, None, Some(""))]));
      && s.llamafile.path == None && Start(c, s.disk).llamafile.path == c.llamafile.path
      && !NothingCleared(c, s) && Start(c, s.disk) != s
  {
    hide CanonicalMode, TextProviders, SttOf, TtsOf, MODES, Start, Loaded;
    var clear := SetLlamafile(enabled, None, None, Some(""));
    var session := Saved([clear]);
    assert session[..0] == [];
    assert HandleAll(c, Start(c, d), []) == Start(c, d);
    var s := Handle(c, Start(c, d), clear, Io(true, true));
    assert s.disk.llamafile.path == None;
    RestartRestores(c, d, [clear]);
  }

  lemma StartKeepsDisk(c: Config, d: Disk)
    ensures Start(c, d).disk == d
  {
  }

  predicate SameSettings(s: Live, r: Live) {
    && r.textChain == s.textChain && r.llamafile == s.llamafile && r.localHttp == s.localHttp
    && r.cloudHttp == s.cloudHttp && r.audio == s.audio && r.apiKey == s.apiKey
  }

  /** Equal settings have equal resolvers. */
  lemma SameResolvers(c: Config, s: Live, r: Live)
    requires Coherent(c, s) && Coherent(c, r) && r.disk == s.disk
    ensures SameSettings(s, r) ==> r == s
  {
    hide TextProviders, SttOf, TtsOf;
  }

  /** Resetting the text chain stores the default: it survives a restart under any startup
      configuration, whatever chain that one names.  If the file was only removed and could not be
      written again, the startup chain is back instead. */
  lemma ResetSurvives(c: Config, s: Live, io: Io, later: Config)
    ensures var s' := Handle(c, s, ResetTextChain, io);
      && s'.textChain == TEXT_DEFAULT
      && (io.saved ==> Start(later, s'.disk).textChain == TEXT_DEFAULT)
      && (!io.saved && io.cleared ==> Start(later, s'.disk).textChain == later.textChain)
  {
    hide TextProviders, SttOf, TtsOf, Merged, CanonicalMode, TEXT_KINDS;
  }

  /** The same for both audio axes. */
  lemma SttResetSurvives(c: Config, s: Live, io: Io, later: Config)
    ensures var s' := Handle(c, s, ResetSttChain, io);
      && s'.audio.sttChain == STT_DEFAULT
      && (io.saved ==> Start(later, s'.disk).audio.sttChain == STT_DEFAULT)
      && (!io.saved && io.cleared ==> Start(later, s'.disk).audio.sttChain == later.audio.sttChain)
  {
    hide TextProviders, SttOf, TtsOf, Merged, CanonicalMode, STT_KINDS, ApplyLlamafile, ApplyLocalHttp;
  }

  lemma TtsResetSurvives(c: Config, s: Live, io: Io, later: Config)
    ensures var s' := Handle(c, s, ResetTtsChain, io);
      && s'.audio.ttsChain == TTS_DEFAULT
      && (io.saved ==> Start(later, s'.disk).audio.ttsChain == TTS_DEFAULT)
      && (!io.saved && io.cleared ==> Start(later, s'.disk).audio.ttsChain == later.audio.ttsChain)
  {
    hide TextProviders, SttOf, TtsOf, Merged, CanonicalMode, TTS_KINDS, ApplyLlamafile, ApplyLocalHttp;
  }
}
