/** Live settings, the resolvers cached from them, and the override files: what every settings call
    does to all three, as functions on values.  Each call counts as one atomic step. */
module Settings {
  import opened Common
  import opened Text
  import opened Chains
  import opened Providers

  const MODES: seq<string> := ["on_demand", "standby"]

  datatype LlamafileConfig = LlamafileConfig(
    enabled: bool,
    path: Option<string>,
    mode: string,
    idleTimeout: nat,
    port: nat,
    startupTimeout: nat,
    requestTimeout: nat)

  datatype LocalHttpConfig = LocalHttpConfig(
    enabled: bool,
    endpoint: Option<string>,
    requestTimeout: nat,
    promptField: string,
    responseField: string)

  datatype CloudHttpConfig = CloudHttpConfig(
    enabled: bool,
    endpoint: Option<string>,
    model: Option<string>,
    requestTimeout: nat,
    promptField: string,
    responseField: string,
    authHeader: string)

  /** The startup configuration, environment included. */
  datatype Config = Config(
    abrainCmd: string,
    textChain: seq<string>,
    llamafile: LlamafileConfig,
    localHttp: LocalHttpConfig,
    cloudHttp: CloudHttpConfig,
    audio: AudioConfig)

  // Override files hold what a user can edit.  A missing or unreadable file reads as all `None`.

  datatype LlamafileFile = LlamafileFile(
    enabled: Option<bool>, mode: Option<string>, idleTimeout: Option<nat>, path: Option<string>)

  datatype LocalHttpFile = LocalHttpFile(
    enabled: Option<bool>, endpoint: Option<string>, requestTimeout: Option<nat>)

  datatype SttFile = SttFile(enabled: Option<bool>, command: Option<string>)

  datatype TtsFile = TtsFile(enabled: Option<bool>, command: Option<string>, autoSpeak: Option<bool>)

  datatype Disk = Disk(
    llamafile: LlamafileFile,
    localHttp: LocalHttpFile,
    stt: SttFile,
    tts: TtsFile,
    textChain: Option<seq<string>>,
    sttChain: Option<seq<string>>,
    ttsChain: Option<seq<string>>,
    apiKey: Option<string>)

  datatype TextProvider =
    | Abrain(command: string)
    | LlamafileLocal(view: LlamafileConfig)
    | LocalHttp(http: LocalHttpConfig)
    | CloudHttp(cloud: CloudHttpConfig, apiKey: Option<string>)

  /** Live configuration, installed resolvers and files. */
  datatype Live = Live(
    textChain: seq<string>,
    llamafile: LlamafileConfig,
    localHttp: LocalHttpConfig,
    cloudHttp: CloudHttpConfig,
    audio: AudioConfig,
    apiKey: Option<string>,
    text: seq<TextProvider>,
    stt: seq<AudioProvider>,
    tts: seq<AudioProvider>,
    disk: Disk)

  // ----- building resolvers -----------------------------------------------------------------

  function TextProviderOf(kind: nat, abrainCmd: string, llamafile: LlamafileConfig, localHttp: LocalHttpConfig,
                          cloudHttp: CloudHttpConfig, apiKey: Option<string>): TextProvider {
    if kind == 0 then Abrain(abrainCmd)
    else if kind == 1 then LlamafileLocal(llamafile)
    else if kind == 2 then LocalHttp(localHttp)
    else CloudHttp(cloudHttp, apiKey)
  }

  /** `TextProviderResolver::from_chain`. */
  function TextProviders(chain: seq<string>, abrainCmd: string, llamafile: LlamafileConfig, localHttp: LocalHttpConfig,
                         cloudHttp: CloudHttpConfig, apiKey: Option<string>): seq<TextProvider> {
    var ks := ResolvedKinds(chain, TEXT_KINDS);
    seq(|ks|, i requires 0 <= i < |ks| => TextProviderOf(ks[i], abrainCmd, llamafile, localHttp, cloudHttp, apiKey))
  }

  function TextOfLive(c: Config, s: Live): seq<TextProvider> {
    TextProviders(s.textChain, c.abrainCmd, s.llamafile, s.localHttp, s.cloudHttp, s.apiKey)
  }

  function SttOf(audio: AudioConfig): seq<AudioProvider> { SttProviders(audio.sttChain, audio) }

  function TtsOf(audio: AudioConfig): seq<AudioProvider> { TtsProviders(audio.ttsChain, audio) }

  // ----- merging and saving -----------------------------------------------------------------

  /** An optional string as files and requests give it: absent keeps, blank clears. */
  function Merged(current: Option<string>, raw: Option<string>): Option<string> {
    if raw.None? then current
    else if Trim(raw.value) == [] then None
    else Some(Trim(raw.value))
  }

  function OrElse<T>(o: Option<T>, d: T): T {
    if o.Some? then o.value else d
  }

  /** Zero is no timeout. */
  function Positive(current: nat, given: Option<nat>): nat {
    if given.Some? && given.value > 0 then given.value else current
  }

  function CanonicalMode(raw: string): Option<string> {
    if Normalize(raw) in MODES then Some(Normalize(raw)) else None
  }

  function ModeOr(current: string, given: Option<string>): string {
    if given.Some? && CanonicalMode(given.value).Some? then CanonicalMode(given.value).value else current
  }

  function ApplyLlamafile(base: LlamafileConfig, f: LlamafileFile): LlamafileConfig {
    base.(enabled := OrElse(f.enabled, base.enabled), mode := ModeOr(base.mode, f.mode),
          idleTimeout := Positive(base.idleTimeout, f.idleTimeout), path := Merged(base.path, f.path))
  }

  function ApplyLocalHttp(base: LocalHttpConfig, f: LocalHttpFile): LocalHttpConfig {
    base.(enabled := OrElse(f.enabled, base.enabled), endpoint := Merged(base.endpoint, f.endpoint),
          requestTimeout := Positive(base.requestTimeout, f.requestTimeout))
  }

  function ApplyStt(base: AudioConfig, f: SttFile): AudioConfig {
    base.(sttEnabled := OrElse(f.enabled, base.sttEnabled), sttCmd := Merged(base.sttCmd, f.command))
  }

  function ApplyTts(base: AudioConfig, f: TtsFile): AudioConfig {
    base.(ttsEnabled := OrElse(f.enabled, base.ttsEnabled), ttsCmd := Merged(base.ttsCmd, f.command),
          autoSpeak := OrElse(f.autoSpeak, base.autoSpeak))
  }

  /** A stored chain counts unless it is empty. */
  function ChainOr(stored: Option<seq<string>>, startup: seq<string>): seq<string> {
    if stored.Some? && stored.value != [] then stored.value else startup
  }

  function SaveLlamafile(cfg: LlamafileConfig): LlamafileFile {
    LlamafileFile(Some(cfg.enabled), Some(cfg.mode), Some(cfg.idleTimeout), cfg.path)
  }

  function SaveLocalHttp(cfg: LocalHttpConfig): LocalHttpFile {
    LocalHttpFile(Some(cfg.enabled), cfg.endpoint, Some(cfg.requestTimeout))
  }

  function SaveStt(audio: AudioConfig): SttFile { SttFile(Some(audio.sttEnabled), audio.sttCmd) }

  function SaveTts(audio: AudioConfig): TtsFile {
    TtsFile(Some(audio.ttsEnabled), audio.ttsCmd, Some(audio.autoSpeak))
  }

  /** `App::new`: overrides over startup values, then the resolvers from the result. */
  function Start(c: Config, d: Disk): Live {
    var audio := ApplyTts(ApplyStt(c.audio, d.stt), d.tts)
      .(sttChain := ChainOr(d.sttChain, c.audio.sttChain), ttsChain := ChainOr(d.ttsChain, c.audio.ttsChain));
    var chain := ChainOr(d.textChain, c.textChain);
    var llamafile, localHttp := ApplyLlamafile(c.llamafile, d.llamafile), ApplyLocalHttp(c.localHttp, d.localHttp);
    Live(chain, llamafile, localHttp, c.cloudHttp, audio, d.apiKey,
      TextProviders(chain, c.abrainCmd, llamafile, localHttp, c.cloudHttp, d.apiKey), SttOf(audio), TtsOf(audio), d)
  }

  // ----- requests ---------------------------------------------------------------------------

  datatype Request =
    | SetLlamafile(enabled: bool, mode: Option<string>, idleTimeout: Option<nat>, path: Option<string>)
    | SetLocalHttp(enabled: bool, endpoint: Option<string>, requestTimeout: Option<nat>)
    | SetCloudHttp(enabled: bool, endpoint: Option<string>, model: Option<string>, requestTimeout: Option<nat>)
    | SetApiKey(key: Option<string>)
    | SetStt(enabled: bool, command: Option<string>)
    | SetTts(enabled: bool, command: Option<string>, autoSpeak: Option<bool>)
    | SetTextChain(chain: seq<string>)
    | SetSttChain(chain: seq<string>)
    | SetTtsChain(chain: seq<string>)
    | ResetTextChain
    | ResetSttChain
    | ResetTtsChain

  /** How the file system answers a call: whether the save succeeds, and the removal before it. */
  datatype Io = Io(saved: bool, cleared: bool)

  const TEXT_DEFAULT: seq<string> := [TEXT_KINDS[0]]
  const STT_DEFAULT: seq<string> := [STT_KINDS[0]]
  const TTS_DEFAULT: seq<string> := [TTS_KINDS[0]]

  /** The answer to the client: only malformed values and an API key that cannot be stored are
      refused; a failed save of anything else is just logged. */
  predicate Accepted(req: Request, io: Io) {
    match req
    case SetLlamafile(_, mode, idle, _) => (mode.Some? ==> CanonicalMode(mode.value).Some?) && idle != Some(0)
    case SetLocalHttp(_, _, timeout) => timeout != Some(0)
    case SetCloudHttp(_, _, _, timeout) => timeout != Some(0)
    case SetApiKey(_) => io.saved
    case SetTextChain(chain) => Validate(chain, TEXT_KINDS).Ok?
    case SetSttChain(chain) => Validate(chain, STT_KINDS).Ok?
    case SetTtsChain(chain) => Validate(chain, TTS_KINDS).Ok?
    case _ => true
  }

  function WithStt(audio: AudioConfig, enabled: bool, command: Option<string>): AudioConfig {
    audio.(sttEnabled := enabled, sttCmd := Merged(audio.sttCmd, command))
  }

  function WithTts(audio: AudioConfig, enabled: bool, command: Option<string>, auto: Option<bool>): AudioConfig {
    audio.(ttsEnabled := enabled, ttsCmd := Merged(audio.ttsCmd, command), autoSpeak := OrElse(auto, audio.autoSpeak))
  }

  function NewTextChain(c: Config, s: Live, chain: seq<string>, io: Io): Live {
    s.(textChain := chain,
       text := TextProviders(chain, c.abrainCmd, s.llamafile, s.localHttp, s.cloudHttp, s.apiKey),
       disk := if io.saved then s.disk.(textChain := Some(chain)) else s.disk)
  }

  function NewSttChain(s: Live, chain: seq<string>, io: Io): Live {
    var audio := s.audio.(sttChain := chain);
    s.(audio := audio, stt := SttOf(audio), disk := if io.saved then s.disk.(sttChain := Some(chain)) else s.disk)
  }

  function NewTtsChain(s: Live, chain: seq<string>, io: Io): Live {
    var audio := s.audio.(ttsChain := chain);
    s.(audio := audio, tts := TtsOf(audio), disk := if io.saved then s.disk.(ttsChain := Some(chain)) else s.disk)
  }

  /** What an accepted request leaves behind. */
  function Effect(c: Config, s: Live, req: Request, io: Io): Live
    requires Accepted(req, io)
  {
    match req
    case SetLlamafile(enabled, mode, idle, path) =>
      var cfg := s.llamafile.(enabled := enabled, mode := ModeOr(s.llamafile.mode, mode),
        idleTimeout := Positive(s.llamafile.idleTimeout, idle), path := Merged(s.llamafile.path, path));
      s.(llamafile := cfg,
         text := TextProviders(s.textChain, c.abrainCmd, cfg, s.localHttp, s.cloudHttp, s.apiKey),
         disk := if io.saved then s.disk.(llamafile := SaveLlamafile(cfg)) else s.disk)
    case SetLocalHttp(enabled, endpoint, timeout) =>
      var cfg := s.localHttp.(enabled := enabled, endpoint := Merged(s.localHttp.endpoint, endpoint),
        requestTimeout := Positive(s.localHttp.requestTimeout, timeout));
      s.(localHttp := cfg,
         text := TextProviders(s.textChain, c.abrainCmd, s.llamafile, cfg, s.cloudHttp, s.apiKey),
         disk := if io.saved then s.disk.(localHttp := SaveLocalHttp(cfg)) else s.disk)
    case SetCloudHttp(enabled, endpoint, model, timeout) =>
      // The operational cloud settings are not persisted.
      var cfg := s.cloudHttp.(enabled := enabled, endpoint := Merged(s.cloudHttp.endpoint, endpoint),
        model := Merged(s.cloudHttp.model, model), requestTimeout := Positive(s.cloudHttp.requestTimeout, timeout));
      s.(cloudHttp := cfg, text := TextProviders(s.textChain, c.abrainCmd, s.llamafile, s.localHttp, cfg, s.apiKey))
    case SetApiKey(raw) =>
      var key := Merged(None, raw);
      s.(apiKey := key,
         text := TextProviders(s.textChain, c.abrainCmd, s.llamafile, s.localHttp, s.cloudHttp, key),
         disk := s.disk.(apiKey := key))
    case SetStt(enabled, command) =>
      var audio := WithStt(s.audio, enabled, command);
      s.(audio := audio, stt := SttOf(audio), disk := if io.saved then s.disk.(stt := SaveStt(audio)) else s.disk)
    case SetTts(enabled, command, auto) =>
      var audio := WithTts(s.audio, enabled, command, auto);
      s.(audio := audio, tts := TtsOf(audio), disk := if io.saved then s.disk.(tts := SaveTts(audio)) else s.disk)
    case SetTextChain(chain) => NewTextChain(c, s, NormalizeAll(chain), io)
    case SetSttChain(chain) => NewSttChain(s, NormalizeAll(chain), io)
    case SetTtsChain(chain) => NewTtsChain(s, NormalizeAll(chain), io)
    case ResetTextChain =>
      NewTextChain(c, if io.cleared then s.(disk := s.disk.(textChain := None)) else s, TEXT_DEFAULT, io)
    case ResetSttChain =>
      NewSttChain(if io.cleared then s.(disk := s.disk.(sttChain := None)) else s, STT_DEFAULT, io)
    case ResetTtsChain =>
      NewTtsChain(if io.cleared then s.(disk := s.disk.(ttsChain := None)) else s, TTS_DEFAULT, io)
  }

  function Handle(c: Config, s: Live, req: Request, io: Io): Live {
    if Accepted(req, io) then Effect(c, s, req, io) else s
  }

  /** A whole session of requests, each with the file system's answer. */
  function HandleAll(c: Config, s: Live, requests: seq<(Request, Io)>): Live {
    if requests == [] then s
    else
      var last := requests[|requests| - 1];
      Handle(c, HandleAll(c, s, requests[..|requests| - 1]), last.0, last.1)
  }

  // ----- coherence --------------------------------------------------------------------------

  /** The installed resolvers are the ones that would be built from the live settings now, and the
      key in memory is the one on disk. */
  predicate Coherent(c: Config, s: Live) {
    && s.text == TextOfLive(c, s)
    && s.stt == SttOf(s.audio)
    && s.tts == TtsOf(s.audio)
    && s.apiKey == s.disk.apiKey
  }

  lemma StartCoherent(c: Config, d: Disk)
    ensures Coherent(c, Start(c, d))
  {
    hide TextProviders, SttProviders, TtsProviders;
  }

  /** Every request keeps the resolvers coherent, whether it is accepted or refused and whether its
      save succeeds or fails. */
  lemma HandleCoherent(c: Config, s: Live, req: Request, io: Io)
    requires Coherent(c, s)
    ensures Coherent(c, Handle(c, s, req, io))
  {
    hide TextProviders, SttProviders, TtsProviders, CanonicalMode, Merged, Validate, NormalizeAll;
    var s' := Handle(c, s, req, io);
    if SttSame(s, s') { SttFrame(s.audio.sttChain, s.audio, s'.audio); }
    if TtsSame(s, s') { TtsFrame(s.audio.ttsChain, s.audio, s'.audio); }
  }

  predicate SttSame(s: Live, s': Live) {
    && s'.audio.sttEnabled == s.audio.sttEnabled && s'.audio.sttCmd == s.audio.sttCmd
    && s'.audio.whisperCmd == s.audio.whisperCmd && s'.audio.sttTimeout == s.audio.sttTimeout
  }

  predicate TtsSame(s: Live, s': Live) {
    && s'.audio.ttsEnabled == s.audio.ttsEnabled && s'.audio.ttsCmd == s.audio.ttsCmd
    && s'.audio.piperCmd == s.audio.piperCmd && s'.audio.ttsTimeout == s.audio.ttsTimeout
  }

  /** So does every session, from any files a daemon may find at its start. */
  lemma {:induction false} SessionCoherent(c: Config, d: Disk, requests: seq<(Request, Io)>)
    ensures Coherent(c, HandleAll(c, Start(c, d), requests))
  {
    hide Coherent, Start, Handle;
    if requests == [] {
      StartCoherent(c, d);
    } else {
      var init, last := requests[..|requests| - 1], requests[|requests| - 1];
      SessionCoherent(c, d, init);
      HandleCoherent(c, HandleAll(c, Start(c, d), init), last.0, last.1);
    }
  }

  /** A request about text providers leaves both audio axes alone, and the other way round; and
      within an axis only what the request names changes. */
  lemma OnlyItsAxis(c: Config, s: Live, req: Request, io: Io)
    ensures var s' := Handle(c, s, req, io); match req
      case SetLlamafile(_, _, _, _) =>
        s' == s.(llamafile := s'.llamafile, text := s'.text, disk := s.disk.(llamafile := s'.disk.llamafile))
      case SetLocalHttp(_, _, _) =>
        s' == s.(localHttp := s'.localHttp, text := s'.text, disk := s.disk.(localHttp := s'.disk.localHttp))
      case SetCloudHttp(_, _, _, _) => s' == s.(cloudHttp := s'.cloudHttp, text := s'.text)
      case SetApiKey(_) => s' == s.(apiKey := s'.apiKey, text := s'.text, disk := s.disk.(apiKey := s'.disk.apiKey))
      case SetStt(_, _) =>
        s' == s.(audio := s.audio.(sttEnabled := s'.audio.sttEnabled, sttCmd := s'.audio.sttCmd),
                 stt := s'.stt, disk := s.disk.(stt := s'.disk.stt))
      case SetTts(_, _, _) =>
        s' == s.(audio := s.audio.(ttsEnabled := s'.audio.ttsEnabled, ttsCmd := s'.audio.ttsCmd, autoSpeak := s'.audio.autoSpeak),
                 tts := s'.tts, disk := s.disk.(tts := s'.disk.tts))
      case SetTextChain(_) => s' == s.(textChain := s'.textChain, text := s'.text, disk := s.disk.(textChain := s'.disk.textChain))
      case ResetTextChain => s' == s.(textChain := s'.textChain, text := s'.text, disk := s.disk.(textChain := s'.disk.textChain))
      case SetSttChain(_) =>
        s' == s.(audio := s.audio.(sttChain := s'.audio.sttChain), stt := s'.stt, disk := s.disk.(sttChain := s'.disk.sttChain))
      case ResetSttChain =>
        s' == s.(audio := s.audio.(sttChain := s'.audio.sttChain), stt := s'.stt, disk := s.disk.(sttChain := s'.disk.sttChain))
      case SetTtsChain(_) =>
        s' == s.(audio := s.audio.(ttsChain := s'.audio.ttsChain), tts := s'.tts, disk := s.disk.(ttsChain := s'.disk.ttsChain))
      case ResetTtsChain =>
        s' == s.(audio := s.audio.(ttsChain := s'.audio.ttsChain), tts := s'.tts, disk := s.disk.(ttsChain := s'.disk.ttsChain))
  {
    hide TextProviders, SttOf, TtsOf, CanonicalMode, Merged, Validate, NormalizeAll;
  }
}
