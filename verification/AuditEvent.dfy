/** What the audit store keeps of the strings it is handed: every field is trimmed, cut or checked
    against a vocabulary, and what does not fit is dropped rather than stored. */
module AuditEvent {
  import opened Common
  import opened Text
  import opened Ids
  import opened Capabilities
  import opened Lifecycle

  const MAX_SUMMARY_CHARS: nat := 80
  const ELLIPSIS: string := "\U{2026}"

  const RISK_MEDIUM := "medium"
  const KNOWN_RISKS: seq<string> := ["low", RISK_MEDIUM, "high"]
  const KNOWN_SOURCES: seq<string> := ["user", "timeout", "system", "ui", "core"]
  const KNOWN_RESULTS: seq<string> := [
    "approved", "denied", "expired", "completed", "failed", "cancelled", "rejected", "capability_guard_denied"]

  const MIN_CORRELATION_LEN: nat := 24
  const MAX_CORRELATION_LEN: nat := 80
  const MAX_CAPABILITY_LEN: nat := 64
  const MIN_CAPABILITY_SEGMENTS: nat := 2
  const MAX_CAPABILITY_SEGMENTS: nat := 4

  datatype AuditFields = AuditFields(
    actionId: Option<string>,
    approvalId: Option<string>,
    risk: Option<string>,
    result: Option<string>,
    source: Option<string>,
    summary: Option<string>,
    correlationId: Option<string>,
    capabilityId: Option<string>)

  function NonEmpty(raw: Option<string>): Option<string> {
    if raw.None? || Trim(raw.value) == [] then None else Some(Trim(raw.value))
  }

  /** Cut to `limit` characters, the last of which says that something is missing. */
  function Cut(s: string, limit: nat): (r: string)
    requires limit >= 1
    ensures |r| <= limit
    ensures |s| <= limit ==> r == s
    ensures |s| > limit ==> |r| == limit && r[..limit - 1] == s[..limit - 1] && r[limit - 1] == ELLIPSIS[0]
  {
    if |s| <= limit then s else s[..limit - 1] + ELLIPSIS
  }

  function SanitizeSummary(raw: Option<string>): Option<string> {
    if raw.None? || Trim(raw.value) == [] then None else Some(Cut(Trim(raw.value), MAX_SUMMARY_CHARS))
  }

  /** Trim, lower-case, and keep only what the vocabulary knows. */
  function Whitelisted(raw: Option<string>, known: seq<string>): Option<string> {
    if raw.Some? && Normalize(raw.value) in known then Some(Normalize(raw.value)) else None
  }

  function SanitizeSource(raw: Option<string>): Option<string> { Whitelisted(raw, KNOWN_SOURCES) }

  function SanitizeResult(raw: Option<string>): Option<string> { Whitelisted(raw, KNOWN_RESULTS) }

  /** An unknown risk counts as medium. */
  function SanitizeRisk(raw: Option<string>): Option<string> {
    if raw.None? then None
    else if Normalize(raw.value) in KNOWN_RISKS then Some(Normalize(raw.value))
    else Some(RISK_MEDIUM)
  }

  predicate InBody(c: char) {
    'a' <= c <= 'z' || '0' <= c <= '9' || c == '_'
  }

  predicate AllBody(s: string) {
    forall i :: 0 <= i < |s| ==> InBody(s[i])
  }

  /** The correlation id format: 24 to 80 characters, the prefix, and then small letters, digits and
      underscores. */
  predicate IsCorrelationId(s: string) {
    && 24 <= |s| <= 80
    && s[..5] == "corr_"
    && (forall i :: 5 <= i < |s| ==> 'a' <= s[i] <= 'z' || '0' <= s[i] <= '9' || s[i] == '_')
  }

  function SanitizeCorrelation(raw: Option<string>): Option<string> {
    if raw.None? then None
    else
      var t := Trim(raw.value);
      if t == [] then None
      else if Utf8Len(t) > MAX_CORRELATION_LEN then None
      else if Utf8Len(t) < MIN_CORRELATION_LEN then None
      else if !(CORRELATION_PREFIX <= t) then None
      else if t[|CORRELATION_PREFIX|..] == [] then None
      else if exists i :: |CORRELATION_PREFIX| <= i < |t| && !InBody(t[i]) then None
      else Some(t)
  }

  /** `split('.')`, which yields one segment more than there are dots. */
  function Segments(s: string): (r: seq<string>)
    ensures |r| >= 1
  {
    if s == [] then [[]]
    else
      var rest := Segments(s[1..]);
      if s[0] == '.' then [[]] + rest else [[s[0]] + rest[0]] + rest[1..]
  }

  predicate SegmentOk(seg: string) {
    seg != [] && forall i :: 0 <= i < |seg| ==> InBody(seg[i])
  }

  function SanitizeCapability(raw: Option<string>): Option<string> {
    if raw.None? then None
    else
      var t := Trim(raw.value);
      var segments := Segments(t);
      if t == [] || Utf8Len(t) > MAX_CAPABILITY_LEN then None
      else if |segments| < MIN_CAPABILITY_SEGMENTS || |segments| > MAX_CAPABILITY_SEGMENTS then None
      else if exists k :: 0 <= k < |segments| && !SegmentOk(segments[k]) then None
      else if t !in KNOWN_CAPABILITY_IDS then None
      else Some(t)
  }

  function Sanitized(f: AuditFields): AuditFields {
    AuditFields(
      NonEmpty(f.actionId),
      NonEmpty(f.approvalId),
      SanitizeRisk(f.risk),
      SanitizeResult(f.result),
      SanitizeSource(f.source),
      SanitizeSummary(f.summary),
      SanitizeCorrelation(f.correlationId),
      SanitizeCapability(f.capabilityId))
  }

  // ----- fixed points -----------------------------------------------------------------------

  /** Cutting a trimmed text leaves a trimmed text. */
  lemma CutTrimmed(s: string, limit: nat)
    requires limit >= 2 && Trimmed(s) && s != []
    ensures Trimmed(Cut(s, limit)) && Cut(s, limit) != []
  {
    if |s| > limit { assert Cut(s, limit)[0] == s[0]; }
  }

  lemma SummaryFixed(raw: Option<string>)
    ensures SanitizeSummary(SanitizeSummary(raw)) == SanitizeSummary(raw)
    ensures SanitizeSummary(raw).Some? ==>
      0 < |SanitizeSummary(raw).value| <= MAX_SUMMARY_CHARS && Trimmed(SanitizeSummary(raw).value)
  {
    if SanitizeSummary(raw).Some? { CutTrimmed(Trim(raw.value), MAX_SUMMARY_CHARS); }
  }

  lemma WhitelistFixed(raw: Option<string>, known: seq<string>)
    ensures Whitelisted(Whitelisted(raw, known), known) == Whitelisted(raw, known)
  {
    if raw.Some? { NormalizeIdempotent(raw.value); }
  }

  lemma MediumFixed()
    ensures Normalize(RISK_MEDIUM) == RISK_MEDIUM && RISK_MEDIUM in KNOWN_RISKS
  {
    assert RISK_MEDIUM[0] == 'm' && RISK_MEDIUM[|RISK_MEDIUM| - 1] == 'm';
    NormalizeFixes(RISK_MEDIUM);
    assert KNOWN_RISKS[1] == RISK_MEDIUM;
  }

  lemma RiskFixed(raw: Option<string>)
    ensures SanitizeRisk(SanitizeRisk(raw)) == SanitizeRisk(raw)
  {
    hide Normalize;
    MediumFixed();
    if raw.Some? { NormalizeIdempotent(raw.value); }
  }

  lemma IdsFixed(raw: Option<string>)
    ensures NonEmpty(NonEmpty(raw)) == NonEmpty(raw)
    ensures SanitizeCorrelation(SanitizeCorrelation(raw)) == SanitizeCorrelation(raw)
  {
    hide IsCorrelationId, Trim, Trimmed;
  }

  lemma CapabilityFixed(raw: Option<string>)
    ensures SanitizeCapability(SanitizeCapability(raw)) == SanitizeCapability(raw)
  {
    hide Segments, SegmentOk, KNOWN_CAPABILITY_IDS, Trim, Trimmed;
  }

  /** Every stored field is left alone when it is sanitised again. */
  lemma SanitizedFixed(f: AuditFields)
    ensures Sanitized(Sanitized(f)) == Sanitized(f)
  {
    hide Whitelisted, SanitizeSummary, SanitizeRisk, SanitizeCorrelation, SanitizeCapability, NonEmpty;
    SummaryFixed(f.summary);
    WhitelistFixed(f.result, KNOWN_RESULTS);
    WhitelistFixed(f.source, KNOWN_SOURCES);
    RiskFixed(f.risk);
    IdsFixed(f.actionId);
    IdsFixed(f.approvalId);
    IdsFixed(f.correlationId);
    CapabilityFixed(f.capabilityId);
  }

  // ----- what passes unchanged --------------------------------------------------------------

  /** A correlation id survives exactly when, trimmed, it has the prescribed form. */
  lemma CorrelationExact(raw: string)
    ensures SanitizeCorrelation(Some(raw)) == if IsCorrelationId(Trim(raw)) then Some(Trim(raw)) else None
  {
    hide Trim, Utf8Len;
    var t := Trim(raw);
    if CORRELATION_PREFIX <= t && forall i :: 5 <= i < |t| ==> InBody(t[i]) {
      PrefixedAscii(t);
      AsciiLen(t);
    }
  }

  /** A text of that prefix and charset has as many bytes as characters. */
  lemma PrefixedAscii(t: string)
    requires CORRELATION_PREFIX <= t && forall i :: 5 <= i < |t| ==> InBody(t[i])
    ensures forall i :: 0 <= i < |t| ==> t[i] as int < 0x80
  {
    forall i | 0 <= i < |t| ensures t[i] as int < 0x80 {
      if i < 5 { assert t[i] == CORRELATION_PREFIX[i]; }
    }
  }

  lemma HexIsBody(s: string)
    requires IsHex(s)
    ensures AllBody(s)
  {
  }

  lemma BodyConcat(a: string, b: string)
    requires AllBody(a) && AllBody(b)
    ensures AllBody(a + b)
  {
  }

  lemma BodyChar(c: char)
    requires InBody(c)
    ensures !IsWhitespace(c) && c as int < 0x80
  {
  }

  lemma BodyIsTrimmed(s: string)
    requires AllBody(s) && s != []
    ensures Trim(s) == s && Utf8Len(s) == |s|
  {
    hide InBody, IsWhitespace, Trim, Utf8Len;
    forall i | 0 <= i < |s| ensures s[i] as int < 0x80 && !IsWhitespace(s[i]) {
      BodyChar(s[i]);
    }
    AsciiLen(s);
    assert Trimmed(s);
  }

  lemma PrefixIsBody()
    ensures AllBody(CORRELATION_PREFIX) && |CORRELATION_PREFIX| == 5
  {
    assert CORRELATION_PREFIX == ['c', 'o', 'r', 'r', '_'];
  }

  /** The three pieces of a correlation id. */
  lemma CorrelationPieces(ts: nat, n: nat)
    ensures AllBody(CorrelationId(ts, n)) && CORRELATION_PREFIX <= CorrelationId(ts, n)
    ensures |CorrelationId(ts, n)| == 5 + |Padded(ts, 16, 12)| + |Padded(n, 16, 16)|
  {
    hide Padded;
    var a, b := Padded(ts, 16, 12), Padded(n, 16, 16);
    PaddedDecodes(ts, 16, 12);
    PaddedDecodes(n, 16, 16);
    HexIsBody(a);
    HexIsBody(b);
    PrefixIsBody();
    BodyConcat(CORRELATION_PREFIX, a);
    BodyConcat(CORRELATION_PREFIX + a, b);
  }

  /** Every generated correlation id is stored as it is, whatever clock and counter say. */
  lemma GeneratedCorrelationPasses(ts: nat, n: nat)
    requires ts < 0x1_0000_0000_0000_0000 && n < 0x1_0000_0000_0000_0000
    ensures SanitizeCorrelation(Some(CorrelationId(ts, n))) == Some(CorrelationId(ts, n))
  {
    hide Padded, CorrelationId, Utf8Len, Trim;
    var c := CorrelationId(ts, n);
    CorrelationPieces(ts, n);
    HexWidth64(ts);
    HexWidth64(n);
    BodyIsTrimmed(c);
    CorrelationExact(c);
  }

  lemma TrimmedKept(s: string)
    requires s != [] && Trimmed(s)
    ensures NonEmpty(Some(s)) == Some(s)
  {
  }

  /** Action and approval ids are stored as they are. */
  lemma GeneratedIdPasses(prefix: string, n: nat)
    requires prefix != [] && !IsWhitespace(prefix[0])
    ensures NonEmpty(Some(CounterId(prefix, n))) == Some(CounterId(prefix, n))
  {
    PaddedDecodes(n, 10, 6);
    var id, d := CounterId(prefix, n), Padded(n, 10, 6);
    assert id[0] == prefix[0] && id[|id| - 1] == d[|d| - 1];
    TrimmedKept(id);
  }

  lemma {:induction false} OneSegment(s: string)
    requires AllBody(s)
    ensures Segments(s) == [s]
  {
    if s != [] {
      assert InBody(s[0]);
      OneSegment(s[1..]);
      assert [s[0]] + s[1..] == s;
    }
  }

  lemma {:induction false} SegmentsSplit(a: string, rest: string)
    requires AllBody(a)
    ensures Segments(a + "." + rest) == [a] + Segments(rest)
  {
    if a == [] {
      assert ([] + "." + rest)[1..] == rest;
    } else {
      assert InBody(a[0]);
      SegmentsSplit(a[1..], rest);
      assert (a + "." + rest)[1..] == a[1..] + "." + rest;
      assert [a[0]] + a[1..] == a;
    }
  }

  /** An id of the vocabulary whose segments are in order is stored as it is. */
  lemma WholeStored(t: string, segments: seq<string>)
    requires t in KNOWN_CAPABILITY_IDS && t != [] && Trim(t) == t && Utf8Len(t) <= MAX_CAPABILITY_LEN
    requires Segments(t) == segments && MIN_CAPABILITY_SEGMENTS <= |segments| <= MAX_CAPABILITY_SEGMENTS
    requires forall k :: 0 <= k < |segments| ==> SegmentOk(segments[k])
    ensures SanitizeCapability(Some(t)) == Some(t)
  {
    hide KNOWN_CAPABILITY_IDS, Trim, Utf8Len, Segments;
  }

  lemma TwoSegmentsStored(a: string, b: string)
    requires AllBody(a) && AllBody(b) && a != [] && b != [] && |a| + |b| < MAX_CAPABILITY_LEN
    requires a + "." + b in KNOWN_CAPABILITY_IDS
    ensures SanitizeCapability(Some(a + "." + b)) == Some(a + "." + b)
  {
    hide KNOWN_CAPABILITY_IDS, Trim, Utf8Len, Segments, SanitizeCapability;
    SegmentsSplit(a, b);
    OneSegment(b);
    DottedTrimmed(a, b);
    WholeStored(a + "." + b, [a, b]);
  }

  lemma ThreeSegmentsStored(a: string, b: string, c: string)
    requires AllBody(a) && AllBody(b) && AllBody(c) && a != [] && b != [] && c != []
    requires |a| + |b| + |c| + 2 <= MAX_CAPABILITY_LEN
    requires a + "." + (b + "." + c) in KNOWN_CAPABILITY_IDS
    ensures SanitizeCapability(Some(a + "." + (b + "." + c))) == Some(a + "." + (b + "." + c))
  {
    hide KNOWN_CAPABILITY_IDS, Trim, Utf8Len, Segments, SanitizeCapability;
    SegmentsSplit(a, b + "." + c);
    SegmentsSplit(b, c);
    OneSegment(c);
    DottedTrimmed(a, b + "." + c);
    WholeStored(a + "." + (b + "." + c), [a, b, c]);
  }

  lemma DottedTrimmed(a: string, rest: string)
    requires AllBody(a) && a != [] && rest != []
    requires forall i :: 0 <= i < |rest| ==> InBody(rest[i]) || rest[i] == '.'
    ensures var s := a + "." + rest; Trim(s) == s && Utf8Len(s) == |s| == |a| + 1 + |rest|
  {
    hide InBody, IsWhitespace, Trim, Utf8Len;
    var s := a + "." + rest;
    forall i | 0 <= i < |s| ensures s[i] as int < 0x80 && !IsWhitespace(s[i]) {
      if InBody(s[i]) { BodyChar(s[i]); } else { DotChar(); }
    }
    AsciiLen(s);
    assert Trimmed(s);
  }

  lemma DotChar()
    ensures !IsWhitespace('.') && '.' as int < 0x80
  {
  }

  lemma OpenIdStored()
    ensures SanitizeCapability(Some(INTERACTION_OPEN_APPLICATION)) == Some(INTERACTION_OPEN_APPLICATION)
  {
    hide SanitizeCapability;
    var a := "interaction";
    assert a + "." + "open_application" == INTERACTION_OPEN_APPLICATION == KNOWN_CAPABILITY_IDS[0];
    TwoSegmentsStored(a, "open_application");
  }

  lemma FocusIdStored()
    ensures SanitizeCapability(Some(INTERACTION_FOCUS_WINDOW)) == Some(INTERACTION_FOCUS_WINDOW)
  {
    hide SanitizeCapability;
    var a := "interaction";
    assert a + "." + "focus_window" == INTERACTION_FOCUS_WINDOW == KNOWN_CAPABILITY_IDS[1];
    TwoSegmentsStored(a, "focus_window");
  }

  lemma TypeIdStored()
    ensures SanitizeCapability(Some(INTERACTION_TYPE_TEXT)) == Some(INTERACTION_TYPE_TEXT)
  {
    hide SanitizeCapability;
    var a := "interaction";
    assert a + "." + "type_text" == INTERACTION_TYPE_TEXT == KNOWN_CAPABILITY_IDS[2];
    TwoSegmentsStored(a, "type_text");
  }

  lemma ShortcutIdStored()
    ensures SanitizeCapability(Some(INTERACTION_SEND_SHORTCUT)) == Some(INTERACTION_SEND_SHORTCUT)
  {
    hide SanitizeCapability;
    var a := "interaction";
    assert a + "." + "send_shortcut" == INTERACTION_SEND_SHORTCUT == KNOWN_CAPABILITY_IDS[3];
    TwoSegmentsStored(a, "send_shortcut");
  }

  /** The capability id of an interaction is stored as it is. */
  lemma InteractionIdsStored(kind: InteractionKind)
    ensures SanitizeCapability(CapabilityForInteraction(kind)) == CapabilityForInteraction(kind)
  {
    hide SanitizeCapability, INTERACTION_OPEN_APPLICATION, INTERACTION_FOCUS_WINDOW;
    hide INTERACTION_TYPE_TEXT, INTERACTION_SEND_SHORTCUT;
    OpenIdStored();
    FocusIdStored();
    TypeIdStored();
    ShortcutIdStored();
    NoCapabilityStored();
  }

  lemma NoCapabilityStored()
    ensures SanitizeCapability(None) == None
  {
  }

  lemma EchoStored()
    ensures SanitizeCapability(Some(ASSISTANT_DEMO_ECHO)) == Some(ASSISTANT_DEMO_ECHO)
  {
    hide SanitizeCapability;
    assert "assistant" + "." + ("demo" + "." + "echo") == ASSISTANT_DEMO_ECHO == KNOWN_CAPABILITY_IDS[5];
    ThreeSegmentsStored("assistant", "demo", "echo");
  }

  lemma WaitStored()
    ensures SanitizeCapability(Some(ASSISTANT_DEMO_WAIT)) == Some(ASSISTANT_DEMO_WAIT)
  {
    hide SanitizeCapability;
    assert "assistant" + "." + ("demo" + "." + "wait") == ASSISTANT_DEMO_WAIT == KNOWN_CAPABILITY_IDS[6];
    ThreeSegmentsStored("assistant", "demo", "wait");
  }

  lemma PlanStored()
    ensures SanitizeCapability(Some(ASSISTANT_PLAN_DEMO_ACTION)) == Some(ASSISTANT_PLAN_DEMO_ACTION)
  {
    hide SanitizeCapability;
    assert "assistant" + "." + "plan_demo_action" == ASSISTANT_PLAN_DEMO_ACTION == KNOWN_CAPABILITY_IDS[4];
    TwoSegmentsStored("assistant", "plan_demo_action");
  }

  /** So is the capability id of a demo plan. */
  lemma PlanIdsStored(kind: string)
    ensures SanitizeCapability(Some(CapabilityForPlan(kind))) == Some(CapabilityForPlan(kind))
  {
    hide SanitizeCapability, ASSISTANT_DEMO_ECHO, ASSISTANT_DEMO_WAIT, ASSISTANT_PLAN_DEMO_ACTION;
    EchoStored();
    WaitStored();
    PlanStored();
  }

  lemma AdminStatusStored()
    ensures SanitizeCapability(Some(ADMIN_STATUS_READ)) == Some(ADMIN_STATUS_READ)
  {
    hide SanitizeCapability;
    assert "admin" + "." + ("status" + "." + "read") == ADMIN_STATUS_READ == KNOWN_CAPABILITY_IDS[7];
    ThreeSegmentsStored("admin", "status", "read");
  }

  lemma AdminDescribeStored()
    ensures SanitizeCapability(Some(ADMIN_CAPABILITY_DESCRIBE)) == Some(ADMIN_CAPABILITY_DESCRIBE)
  {
    hide SanitizeCapability;
    assert "admin" + "." + ("capability" + "." + "describe") == ADMIN_CAPABILITY_DESCRIBE == KNOWN_CAPABILITY_IDS[8];
    ThreeSegmentsStored("admin", "capability", "describe");
  }

  lemma AdminDryRunStored()
    ensures SanitizeCapability(Some(ADMIN_ACTION_DRY_RUN)) == Some(ADMIN_ACTION_DRY_RUN)
  {
    hide SanitizeCapability;
    assert "admin" + "." + ("action" + "." + "dry_run") == ADMIN_ACTION_DRY_RUN == KNOWN_CAPABILITY_IDS[9];
    ThreeSegmentsStored("admin", "action", "dry_run");
  }

  lemma AdminExecuteStored()
    ensures SanitizeCapability(Some(ADMIN_ACTION_EXECUTE)) == Some(ADMIN_ACTION_EXECUTE)
  {
    hide SanitizeCapability;
    assert "admin" + "." + ("action" + "." + "execute") == ADMIN_ACTION_EXECUTE == KNOWN_CAPABILITY_IDS[10];
    ThreeSegmentsStored("admin", "action", "execute");
  }

  lemma DataQueryStored()
    ensures SanitizeCapability(Some(DATA_CONTEXT_QUERY)) == Some(DATA_CONTEXT_QUERY)
  {
    hide SanitizeCapability;
    assert "data" + "." + ("context" + "." + "query") == DATA_CONTEXT_QUERY == KNOWN_CAPABILITY_IDS[11];
    ThreeSegmentsStored("data", "context", "query");
  }

  lemma DataSummaryStored()
    ensures SanitizeCapability(Some(DATA_CONTEXT_SUMMARY)) == Some(DATA_CONTEXT_SUMMARY)
  {
    hide SanitizeCapability;
    assert "data" + "." + ("context" + "." + "summary") == DATA_CONTEXT_SUMMARY == KNOWN_CAPABILITY_IDS[12];
    ThreeSegmentsStored("data", "context", "summary");
  }

  lemma DataAccessStored()
    ensures SanitizeCapability(Some(DATA_DECIDE_ACCESS)) == Some(DATA_DECIDE_ACCESS)
  {
    hide SanitizeCapability;
    assert "data" + "." + "decide_access" == DATA_DECIDE_ACCESS == KNOWN_CAPABILITY_IDS[13];
    TwoSegmentsStored("data", "decide_access");
  }

  lemma TextGenerateStored()
    ensures SanitizeCapability(Some(PROVIDER_TEXT_GENERATE)) == Some(PROVIDER_TEXT_GENERATE)
  {
    hide SanitizeCapability;
    assert "provider" + "." + ("text" + "." + "generate") == PROVIDER_TEXT_GENERATE == KNOWN_CAPABILITY_IDS[14];
    ThreeSegmentsStored("provider", "text", "generate");
  }

  lemma SttTranscribeStored()
    ensures SanitizeCapability(Some(PROVIDER_STT_TRANSCRIBE)) == Some(PROVIDER_STT_TRANSCRIBE)
  {
    hide SanitizeCapability;
    assert "provider" + "." + ("stt" + "." + "transcribe") == PROVIDER_STT_TRANSCRIBE == KNOWN_CAPABILITY_IDS[15];
    ThreeSegmentsStored("provider", "stt", "transcribe");
  }

  lemma TtsSpeakStored()
    ensures SanitizeCapability(Some(PROVIDER_TTS_SPEAK)) == Some(PROVIDER_TTS_SPEAK)
  {
    hide SanitizeCapability;
    assert "provider" + "." + ("tts" + "." + "speak") == PROVIDER_TTS_SPEAK == KNOWN_CAPABILITY_IDS[16];
    ThreeSegmentsStored("provider", "tts", "speak");
  }

  lemma AuditReadStored()
    ensures SanitizeCapability(Some(AUDIT_READ_RECENT)) == Some(AUDIT_READ_RECENT)
  {
    hide SanitizeCapability;
    assert "audit" + "." + "read_recent" == AUDIT_READ_RECENT == KNOWN_CAPABILITY_IDS[17];
    TwoSegmentsStored("audit", "read_recent");
  }

  /** Every id of the vocabulary is in the form the store asks for. */
  lemma VocabularyStored(k: nat)
    requires k < |KNOWN_CAPABILITY_IDS|
    ensures SanitizeCapability(Some(KNOWN_CAPABILITY_IDS[k])) == Some(KNOWN_CAPABILITY_IDS[k])
  {
    hide SanitizeCapability, INTERACTION_OPEN_APPLICATION, INTERACTION_FOCUS_WINDOW, INTERACTION_TYPE_TEXT, INTERACTION_SEND_SHORTCUT, ASSISTANT_PLAN_DEMO_ACTION, ASSISTANT_DEMO_ECHO;
    hide ASSISTANT_DEMO_WAIT, ADMIN_STATUS_READ, ADMIN_CAPABILITY_DESCRIBE, ADMIN_ACTION_DRY_RUN, ADMIN_ACTION_EXECUTE, DATA_CONTEXT_QUERY;
    hide DATA_CONTEXT_SUMMARY, DATA_DECIDE_ACCESS, PROVIDER_TEXT_GENERATE, PROVIDER_STT_TRANSCRIBE, PROVIDER_TTS_SPEAK, AUDIT_READ_RECENT;
    if
    case k == 0 => OpenIdStored();
    case k == 1 => FocusIdStored();
    case k == 2 => TypeIdStored();
    case k == 3 => ShortcutIdStored();
    case k == 4 => PlanStored();
    case k == 5 => EchoStored();
    case k == 6 => WaitStored();
    case k == 7 => AdminStatusStored();
    case k == 8 => AdminDescribeStored();
    case k == 9 => AdminDryRunStored();
    case k == 10 => AdminExecuteStored();
    case k == 11 => DataQueryStored();
    case k == 12 => DataSummaryStored();
    case k == 13 => DataAccessStored();
    case k == 14 => TextGenerateStored();
    case k == 15 => SttTranscribeStored();
    case k == 16 => TtsSpeakStored();
    case k == 17 => AuditReadStored();
  }

  /** A capability id is kept exactly if, trimmed, it is in the vocabulary. */
  lemma CapabilityExact(raw: string)
    ensures SanitizeCapability(Some(raw)) == if Trim(raw) in KNOWN_CAPABILITY_IDS then Some(Trim(raw)) else None
  {
    hide Trim, Utf8Len, Segments, KNOWN_CAPABILITY_IDS;
    var t := Trim(raw);
    if t in KNOWN_CAPABILITY_IDS {
      var k :| 0 <= k < |KNOWN_CAPABILITY_IDS| && KNOWN_CAPABILITY_IDS[k] == t;
      VocabularyStored(k);
      assert Trim(t) == t;
    }
  }

  // ----- what is stored of each field -------------------------------------------------------

  /** An id is stored trimmed, a blank one not at all. */
  predicate IdKept(given: Option<string>, stored: Option<string>) {
    stored == if given.Some? && Trim(given.value) != "" then Some(Trim(given.value)) else None
  }

  predicate RiskKept(given: Option<string>, stored: Option<string>) {
    if given.None? then stored == None
    else if Normalize(given.value) in ["low", "medium", "high"] then stored == Some(Normalize(given.value))
    else stored == Some("medium")
  }

  predicate ResultKept(given: Option<string>, stored: Option<string>) {
    if given.Some?
       && Normalize(given.value) in
            ["approved", "denied", "expired", "completed", "failed", "cancelled", "rejected", "capability_guard_denied"]
    then stored == Some(Normalize(given.value))
    else stored == None
  }

  predicate SourceKept(given: Option<string>, stored: Option<string>) {
    if given.Some? && Normalize(given.value) in ["user", "timeout", "system", "ui", "core"]
    then stored == Some(Normalize(given.value))
    else stored == None
  }

  predicate SummaryKept(given: Option<string>, stored: Option<string>) {
    if given.None? || Trim(given.value) == "" then stored == None
    else if |Trim(given.value)| <= 80 then stored == Some(Trim(given.value))
    else stored == Some(Trim(given.value)[..79] + "\U{2026}")
  }

  predicate CorrelationKept(given: Option<string>, stored: Option<string>) {
    stored == if given.Some? && IsCorrelationId(Trim(given.value)) then Some(Trim(given.value)) else None
  }

  predicate CapabilityKept(given: Option<string>, stored: Option<string>) {
    stored == if given.Some? && Trim(given.value) in KNOWN_CAPABILITY_IDS then Some(Trim(given.value)) else None
  }

  /** What a stored record has to do with the one that was handed in: each field comes from its own
      input and from nothing else. */
  predicate Keeps(given: AuditFields, stored: AuditFields) {
    && IdKept(given.actionId, stored.actionId)
    && IdKept(given.approvalId, stored.approvalId)
    && RiskKept(given.risk, stored.risk)
    && ResultKept(given.result, stored.result)
    && SourceKept(given.source, stored.source)
    && SummaryKept(given.summary, stored.summary)
    && CorrelationKept(given.correlationId, stored.correlationId)
    && CapabilityKept(given.capabilityId, stored.capabilityId)
  }

  lemma CorrelationsKept(raw: Option<string>)
    ensures CorrelationKept(raw, SanitizeCorrelation(raw))
  {
    hide SanitizeCorrelation, IsCorrelationId, Trim;
    NoCorrelationStored();
    if raw.Some? { CorrelationExact(raw.value); }
  }

  lemma NoCorrelationStored()
    ensures SanitizeCorrelation(None) == None
  {
  }

  lemma CapabilitiesKept(raw: Option<string>)
    ensures CapabilityKept(raw, SanitizeCapability(raw))
  {
    hide SanitizeCapability, Trim, KNOWN_CAPABILITY_IDS;
    NoCapabilityStored();
    if raw.Some? { CapabilityExact(raw.value); }
  }

  lemma WordsKept(risk: Option<string>, result: Option<string>, source: Option<string>, summary: Option<string>)
    ensures RiskKept(risk, SanitizeRisk(risk)) && ResultKept(result, SanitizeResult(result))
    ensures SourceKept(source, SanitizeSource(source)) && SummaryKept(summary, SanitizeSummary(summary))
  {
    hide Trim, Normalize;
  }

  /** Sanitising keeps of every field what it should. */
  lemma SanitizedKeeps(f: AuditFields)
    ensures Keeps(f, Sanitized(f))
  {
    hide Trim, Normalize, SanitizeRisk, SanitizeResult, SanitizeSource, SanitizeSummary, SanitizeCorrelation, SanitizeCapability;
    hide RiskKept, ResultKept, SourceKept, SummaryKept, CorrelationKept, CapabilityKept;
    WordsKept(f.risk, f.result, f.source, f.summary);
    CorrelationsKept(f.correlationId);
    CapabilitiesKept(f.capabilityId);
  }

  /** Nothing else is kept: the stored record is determined field by field. */
  lemma KeepsDetermines(given: AuditFields, stored: AuditFields)
    ensures Keeps(given, stored) <==> stored == Sanitized(given)
  {
    hide Trim, Normalize, KNOWN_CAPABILITY_IDS, IsCorrelationId, Sanitized;
    SanitizedKeeps(given);
  }

  // ----- results of the two lifecycles ------------------------------------------------------

  /** The `result` string a caller passes on. */
  function ResultText(r: AuditResult): Option<string> {
    match r
    case NoResult => None
    case ResultApproved => Some("approved")
    case ResultDenied => Some("denied")
    case ResultExpired => Some("expired")
    case ResultCompleted => Some("completed")
    case ResultFailed => Some("failed")
    case ResultCancelled => Some("cancelled")
    case ResultRejected => Some("rejected")
    case ResultGuardDenied => Some("capability_guard_denied")
    case RawTimedOut => Some("timed_out")
  }

  predicate LowerCase(s: string) {
    && s != [] && Trimmed(s)
    && (forall i :: 0 <= i < |s| ==> !('A' <= s[i] <= 'Z'))
  }

  lemma KnownKept(k: nat)
    requires k < |KNOWN_RESULTS| && LowerCase(KNOWN_RESULTS[k])
    ensures SanitizeResult(Some(KNOWN_RESULTS[k])) == Some(KNOWN_RESULTS[k])
  {
    NormalizeFixes(KNOWN_RESULTS[k]);
  }

  /** Position of a result in the vocabulary. */
  function ResultIndex(r: AuditResult): (k: nat)
    requires r != NoResult && r != RawTimedOut
    ensures k < |KNOWN_RESULTS| && ResultText(r) == Some(KNOWN_RESULTS[k])
  {
    match r
    case ResultApproved => 0
    case ResultDenied => 1
    case ResultExpired => 2
    case ResultCompleted => 3
    case ResultFailed => 4
    case ResultCancelled => 5
    case ResultRejected => 6
    case ResultGuardDenied => 7
  }

  lemma ProgressLowerCase(k: nat)
    requires k < 4
    ensures LowerCase(KNOWN_RESULTS[k])
  {
    if
    case k == 0 => assert LowerCase("approved");
    case k == 1 => assert LowerCase("denied");
    case k == 2 => assert LowerCase("expired");
    case k == 3 => assert LowerCase("completed");
  }

  lemma ResultsLowerCase(k: nat)
    requires k < |KNOWN_RESULTS|
    ensures LowerCase(KNOWN_RESULTS[k])
  {
    if
    case k < 4 => ProgressLowerCase(k);
    case k == 4 => assert LowerCase("failed");
    case k == 5 => assert LowerCase("cancelled");
    case k == 6 => assert LowerCase("rejected");
    case k == 7 => assert LowerCase("capability_guard_denied");
  }

  lemma TimedOutUnknown()
    ensures SanitizeResult(ResultText(RawTimedOut)) == None
  {
    var t := "timed_out";
    assert t[0] == 't' && t[|t| - 1] == 't' && LowerCase(t);
    NormalizeFixes(t);
    forall k | 0 <= k < |KNOWN_RESULTS| ensures KNOWN_RESULTS[k] != t {
      assert |t| == 9 && t[0] == 't';
    }
  }

  /** A caller's result is stored as it is, with one exception: the demo planner passes
      `timed_out`, which is not in the vocabulary, and is stored without a result. */
  lemma ResultStored(r: AuditResult)
    ensures SanitizeResult(ResultText(r)) == ResultText(r) <==> r != RawTimedOut
    ensures r == RawTimedOut ==> SanitizeResult(ResultText(r)) == None
  {
    hide SanitizeResult;
    if r == RawTimedOut {
      TimedOutUnknown();
    } else if r == NoResult {
      NoneStored();
    } else {
      var k := ResultIndex(r);
      ResultsLowerCase(k);
      KnownKept(k);
    }
  }

  lemma NoneStored()
    ensures SanitizeResult(None) == None
  {
  }
}
