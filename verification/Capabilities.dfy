/** The capability vocabulary, the deny-only guard in front of the approval gate, and the
    interaction policy behind it. */
module Capabilities {
  import opened Common
  import opened Text

  datatype InteractionKind =
    | OpenApplication
    | FocusWindow
    | TypeText
    | SendShortcut
    | Noop
    | Unknown

  const INTERACTION_OPEN_APPLICATION := "interaction.open_application"
  const INTERACTION_FOCUS_WINDOW := "interaction.focus_window"
  const INTERACTION_TYPE_TEXT := "interaction.type_text"
  const INTERACTION_SEND_SHORTCUT := "interaction.send_shortcut"
  const ASSISTANT_PLAN_DEMO_ACTION := "assistant.plan_demo_action"
  const ASSISTANT_DEMO_ECHO := "assistant.demo.echo"
  const ASSISTANT_DEMO_WAIT := "assistant.demo.wait"
  const ADMIN_STATUS_READ := "admin.status.read"
  const ADMIN_CAPABILITY_DESCRIBE := "admin.capability.describe"
  const ADMIN_ACTION_DRY_RUN := "admin.action.dry_run"
  const ADMIN_ACTION_EXECUTE := "admin.action.execute"
  const DATA_CONTEXT_QUERY := "data.context.query"
  const DATA_CONTEXT_SUMMARY := "data.context.summary"
  const DATA_DECIDE_ACCESS := "data.decide_access"
  const PROVIDER_TEXT_GENERATE := "provider.text.generate"
  const PROVIDER_STT_TRANSCRIBE := "provider.stt.transcribe"
  const PROVIDER_TTS_SPEAK := "provider.tts.speak"
  const AUDIT_READ_RECENT := "audit.read_recent"

  const KNOWN_CAPABILITY_IDS: seq<string> := [
    INTERACTION_OPEN_APPLICATION, INTERACTION_FOCUS_WINDOW,
    INTERACTION_TYPE_TEXT, INTERACTION_SEND_SHORTCUT,
    ASSISTANT_PLAN_DEMO_ACTION, ASSISTANT_DEMO_ECHO, ASSISTANT_DEMO_WAIT,
    ADMIN_STATUS_READ, ADMIN_CAPABILITY_DESCRIBE, ADMIN_ACTION_DRY_RUN, ADMIN_ACTION_EXECUTE,
    DATA_CONTEXT_QUERY, DATA_CONTEXT_SUMMARY, DATA_DECIDE_ACCESS,
    PROVIDER_TEXT_GENERATE, PROVIDER_STT_TRANSCRIBE, PROVIDER_TTS_SPEAK,
    AUDIT_READ_RECENT]

  const EXECUTABLE_TODAY: seq<string> := [
    INTERACTION_OPEN_APPLICATION, INTERACTION_FOCUS_WINDOW,
    ASSISTANT_PLAN_DEMO_ACTION, ASSISTANT_DEMO_ECHO, ASSISTANT_DEMO_WAIT,
    PROVIDER_TEXT_GENERATE, PROVIDER_STT_TRANSCRIBE, PROVIDER_TTS_SPEAK,
    AUDIT_READ_RECENT]

  const DEMO_KIND_ECHO := "demo_echo"
  const DEMO_KIND_WAIT := "demo_wait"
  const DEMO_KIND_NOOP := "noop"
  const KNOWN_DEMO_KINDS: seq<string> := [DEMO_KIND_ECHO, DEMO_KIND_WAIT, DEMO_KIND_NOOP]

  function CapabilityForInteraction(kind: InteractionKind): Option<string> {
    match kind
    case OpenApplication => Some(INTERACTION_OPEN_APPLICATION)
    case FocusWindow => Some(INTERACTION_FOCUS_WINDOW)
    case TypeText => Some(INTERACTION_TYPE_TEXT)
    case SendShortcut => Some(INTERACTION_SEND_SHORTCUT)
    case Noop => None
    case Unknown => None
  }

  function CapabilityForDemoKind(kind: string): Option<string> {
    var k := Trim(kind);
    if k == DEMO_KIND_ECHO then Some(ASSISTANT_DEMO_ECHO)
    else if k == DEMO_KIND_WAIT then Some(ASSISTANT_DEMO_WAIT)
    else if k == DEMO_KIND_NOOP then Some(ASSISTANT_PLAN_DEMO_ACTION)
    else None
  }

  function CapabilityForPlan(kind: string): string {
    match CapabilityForDemoKind(kind)
    case Some(id) => id
    case None => ASSISTANT_PLAN_DEMO_ACTION
  }

  /** `sanitize_kind`: an unknown demo kind becomes `noop`. */
  function SanitizeKind(raw: string): (k: string)
    ensures k in KNOWN_DEMO_KINDS
  {
    var n := Normalize(raw);
    if n in KNOWN_DEMO_KINDS then n else DEMO_KIND_NOOP
  }

  datatype DenyReason =
    | UnknownCapabilityId
    | NotExecutableToday
    | FutureNotImplemented
    | TypeTextNotSupported
    | SendShortcutNotSupported

  datatype GuardDecision = Allow | Deny(reason: DenyReason)

  /** `guard_capability`: the checks in the order of the source. */
  function GuardCapability(id: Option<string>): GuardDecision {
    if id.None? || Trim(id.value) == "" then Deny(UnknownCapabilityId)
    else if id.value !in KNOWN_CAPABILITY_IDS then Deny(UnknownCapabilityId)
    else if id.value == INTERACTION_TYPE_TEXT then Deny(TypeTextNotSupported)
    else if id.value == INTERACTION_SEND_SHORTCUT then Deny(SendShortcutNotSupported)
    else if "admin." <= id.value || "data." <= id.value then Deny(FutureNotImplemented)
    else if id.value !in EXECUTABLE_TODAY then Deny(NotExecutableToday)
    else Allow
  }

  function GuardInteraction(kind: InteractionKind): GuardDecision {
    GuardCapability(CapabilityForInteraction(kind))
  }

  function GuardDemo(kind: string): GuardDecision {
    GuardCapability(Some(CapabilityForPlan(kind)))
  }

  /** An executable id in the vocabulary passes every earlier check of the guard. */
  lemma ExecutablePasses(i: nat, k: nat)
    requires i < |EXECUTABLE_TODAY| && k < |KNOWN_CAPABILITY_IDS|
    requires EXECUTABLE_TODAY[i] == KNOWN_CAPABILITY_IDS[k]
    requires var id := EXECUTABLE_TODAY[i];
      && |id| > 2 && Trimmed(id)
      && id[0] != 'd' && !(id[0] == 'a' && id[1] == 'd')
      && |id| != |INTERACTION_TYPE_TEXT| && |id| != |INTERACTION_SEND_SHORTCUT|
    ensures GuardCapability(Some(EXECUTABLE_TODAY[i])) == Allow
  {
    var id := EXECUTABLE_TODAY[i];
    assert Trim(id) == id;
    assert id in KNOWN_CAPABILITY_IDS && id in EXECUTABLE_TODAY;
    assert "admin."[1] == 'd' && "data."[0] == 'd';
  }

  /** Position of each executable id in the vocabulary. */
  function VocabularyIndex(i: nat): (k: nat)
    requires i < 9
    ensures k < 18
  {
    if i < 2 then i else if i < 5 then i + 2 else i + 9
  }

  lemma InteractionIdsAllowed(i: nat)
    requires i < 2
    ensures GuardCapability(Some(EXECUTABLE_TODAY[i])) == Allow
  {
    hide GuardCapability;
    if
    case i == 0 => ExecutablePasses(0, VocabularyIndex(0));
    case i == 1 => ExecutablePasses(1, VocabularyIndex(1));
  }

  lemma AssistantIdsAllowed(i: nat)
    requires 2 <= i < 5
    ensures GuardCapability(Some(EXECUTABLE_TODAY[i])) == Allow
  {
    hide GuardCapability;
    if
    case i == 2 => ExecutablePasses(2, VocabularyIndex(2));
    case i == 3 => ExecutablePasses(3, VocabularyIndex(3));
    case i == 4 => ExecutablePasses(4, VocabularyIndex(4));
  }

  lemma ServiceIdsAllowed(i: nat)
    requires 5 <= i < |EXECUTABLE_TODAY|
    ensures GuardCapability(Some(EXECUTABLE_TODAY[i])) == Allow
  {
    hide GuardCapability;
    if
    case i == 5 => ExecutablePasses(5, VocabularyIndex(5));
    case i == 6 => ExecutablePasses(6, VocabularyIndex(6));
    case i == 7 => ExecutablePasses(7, VocabularyIndex(7));
    case i == 8 => ExecutablePasses(8, VocabularyIndex(8));
  }

  lemma ExecutableIdAllowed(i: nat)
    requires i < |EXECUTABLE_TODAY|
    ensures GuardCapability(Some(EXECUTABLE_TODAY[i])) == Allow
  {
    hide GuardCapability;
    if i < 2 {
      InteractionIdsAllowed(i);
    } else if i < 5 {
      AssistantIdsAllowed(i);
    } else {
      ServiceIdsAllowed(i);
    }
  }

  lemma ExecutableAllowed(id: string)
    requires id in EXECUTABLE_TODAY
    ensures GuardCapability(Some(id)) == Allow
  {
    hide GuardCapability;
    var i :| 0 <= i < |EXECUTABLE_TODAY| && EXECUTABLE_TODAY[i] == id;
    ExecutableIdAllowed(i);
  }

  lemma UnlistedDenied(id: string)
    requires id !in EXECUTABLE_TODAY
    ensures GuardCapability(Some(id)).Deny?
  {
    hide EXECUTABLE_TODAY, KNOWN_CAPABILITY_IDS, INTERACTION_TYPE_TEXT, INTERACTION_SEND_SHORTCUT, Trim;
  }

  /** The guard lets an id through exactly when it is on the executable-today list; the two
      unsupported interaction kinds and every admin/data id are off that list. */
  lemma GuardAllowsExactlyExecutable(id: string)
    ensures GuardCapability(Some(id)).Allow? <==> id in EXECUTABLE_TODAY
  {
    hide GuardCapability;
    if id in EXECUTABLE_TODAY { ExecutableAllowed(id); } else { UnlistedDenied(id); }
  }

  lemma BackendKindsPass(kind: InteractionKind)
    requires kind == OpenApplication || kind == FocusWindow
    ensures GuardInteraction(kind).Allow?
  {
    hide GuardCapability;
    var i := if kind == OpenApplication then 0 else 1;
    ExecutableIdAllowed(i);
    assert CapabilityForInteraction(kind) == Some(EXECUTABLE_TODAY[i]);
  }

  lemma NamedDenials(id: string)
    requires id == INTERACTION_TYPE_TEXT || id == INTERACTION_SEND_SHORTCUT
    ensures GuardCapability(Some(id)).Deny?
  {
  }

  lemma OtherKindsDenied(kind: InteractionKind)
    requires kind != OpenApplication && kind != FocusWindow
    ensures GuardInteraction(kind).Deny?
  {
    var id := CapabilityForInteraction(kind);
    if id.Some? { NamedDenials(id.value); }
  }

  /** Of all interaction kinds the guard lets through exactly the two that have a backend. */
  lemma GuardInteractionExact(kind: InteractionKind)
    ensures GuardInteraction(kind).Allow? <==> kind == OpenApplication || kind == FocusWindow
  {
    if kind == OpenApplication || kind == FocusWindow { BackendKindsPass(kind); } else { OtherKindsDenied(kind); }
  }

  lemma PlanCapabilityListed(kind: string) returns (i: nat)
    ensures i < |EXECUTABLE_TODAY| && EXECUTABLE_TODAY[i] == CapabilityForPlan(kind)
  {
    hide Trim, ASSISTANT_PLAN_DEMO_ACTION, ASSISTANT_DEMO_ECHO, ASSISTANT_DEMO_WAIT;
    hide DEMO_KIND_ECHO, DEMO_KIND_WAIT, DEMO_KIND_NOOP;
    var k := Trim(kind);
    i := if k == DEMO_KIND_ECHO then 3 else if k == DEMO_KIND_WAIT then 4 else 2;
  }

  /** The demo planner is never refused by the guard, whatever kind string a client sends. */
  lemma GuardDemoAllows(kind: string)
    ensures GuardDemo(kind).Allow?
  {
    var i := PlanCapabilityListed(kind);
    ExecutableIdAllowed(i);
  }

  /** A demo kind counts up to white space and case; anything else is the plain demo action. */
  lemma SanitizeKindExactly(raw: string)
    ensures SanitizeKind(raw) ==
      if Normalize(raw) == "demo_echo" then "demo_echo" else if Normalize(raw) == "demo_wait" then "demo_wait" else "noop"
  {
    hide Normalize;
    assert DEMO_KIND_ECHO == KNOWN_DEMO_KINDS[0] && DEMO_KIND_WAIT == KNOWN_DEMO_KINDS[1];
  }

  /** The capability ids of all requests, spelled out. */
  lemma CapabilitiesSpelled(raw: string)
    ensures CapabilityForInteraction(OpenApplication) == Some("interaction.open_application")
    ensures CapabilityForInteraction(FocusWindow) == Some("interaction.focus_window")
    ensures CapabilityForInteraction(TypeText) == Some("interaction.type_text")
    ensures CapabilityForInteraction(SendShortcut) == Some("interaction.send_shortcut")
    ensures CapabilityForInteraction(Noop) == None && CapabilityForInteraction(Unknown) == None
    ensures CapabilityForPlan(SanitizeKind(raw)) ==
      if Normalize(raw) == "demo_echo" then "assistant.demo.echo"
      else if Normalize(raw) == "demo_wait" then "assistant.demo.wait"
      else "assistant.plan_demo_action"
  {
    hide Normalize, Trim, SanitizeKind;
    SanitizeKindExactly(raw);
    DemoKindsTrimmed();
  }

  lemma DemoKindsTrimmed()
    ensures Trim("demo_echo") == "demo_echo" && Trim("demo_wait") == "demo_wait" && Trim("noop") == "noop"
    ensures "demo_echo" != "demo_wait" && "noop" != "demo_echo" && "noop" != "demo_wait"
  {
    hide Trim;
    assert Trimmed("demo_echo") && Trimmed("demo_wait") && Trimmed("noop");
    assert "demo_echo"[5] != "demo_wait"[5];
  }

  /** Why the guard refuses each kind that has no backend. */
  lemma RefusalReasons()
    ensures GuardInteraction(TypeText) == Deny(TypeTextNotSupported)
    ensures GuardInteraction(SendShortcut) == Deny(SendShortcutNotSupported)
    ensures GuardInteraction(Noop) == Deny(UnknownCapabilityId) && GuardInteraction(Unknown) == Deny(UnknownCapabilityId)
  {
    TypeTextRefused();
    ShortcutRefused();
  }

  /** The seven ids that are kept for later. */
  predicate ForLater(id: string) {
    || id == "admin.status.read" || id == "admin.capability.describe"
    || id == "admin.action.dry_run" || id == "admin.action.execute"
    || id == "data.context.query" || id == "data.context.summary" || id == "data.decide_access"
  }

  /** Why the guard refuses an id, for all ids.  The reason NotExecutableToday is never given: of the
      vocabulary, everything that is not executable has a reason of its own. */
  lemma ReasonsExactly(id: string)
    ensures GuardCapability(None) == Deny(UnknownCapabilityId)
    ensures GuardCapability(Some(id)) == Deny(UnknownCapabilityId) <==> id !in KNOWN_CAPABILITY_IDS
    ensures GuardCapability(Some(id)) == Deny(TypeTextNotSupported) <==> id == "interaction.type_text"
    ensures GuardCapability(Some(id)) == Deny(SendShortcutNotSupported) <==> id == "interaction.send_shortcut"
    ensures GuardCapability(Some(id)) == Deny(FutureNotImplemented) <==> ForLater(id)
    ensures GuardCapability(Some(id)) != Deny(NotExecutableToday)
  {
    hide GuardCapability, KNOWN_CAPABILITY_IDS, EXECUTABLE_TODAY, ForLater;
    OutsideUnknown(id);
    TypeTextRefused();
    ShortcutRefused();
    if ForLater(id) {
      LaterRefused(id);
    } else if id in KNOWN_CAPABILITY_IDS {
      KnownIs(id);
      if id in EXECUTABLE_TODAY { ExecutableAllowed(id); }
    }
    NamesApart();
  }

  lemma OutsideUnknown(id: string)
    ensures GuardCapability(None) == Deny(UnknownCapabilityId)
    ensures id !in KNOWN_CAPABILITY_IDS ==> GuardCapability(Some(id)) == Deny(UnknownCapabilityId)
  {
    hide KNOWN_CAPABILITY_IDS, EXECUTABLE_TODAY, Trim, INTERACTION_TYPE_TEXT, INTERACTION_SEND_SHORTCUT;
  }

  lemma NamesApart()
    ensures "interaction.type_text" != "interaction.send_shortcut"
    ensures !ForLater("interaction.type_text") && !ForLater("interaction.send_shortcut")
  {
    assert |"interaction.type_text"| == 21 && |"interaction.send_shortcut"| == 25;
    assert "interaction.type_text"[0] == 'i' && "interaction.send_shortcut"[0] == 'i';
  }

  lemma LaterKnown(id: string) returns (k: nat)
    requires ForLater(id)
    ensures 7 <= k < 14 && k < |KNOWN_CAPABILITY_IDS| && KNOWN_CAPABILITY_IDS[k] == id
  {
    k := if id == ADMIN_STATUS_READ then 7 else if id == ADMIN_CAPABILITY_DESCRIBE then 8
         else if id == ADMIN_ACTION_DRY_RUN then 9 else if id == ADMIN_ACTION_EXECUTE then 10
         else if id == DATA_CONTEXT_QUERY then 11 else if id == DATA_CONTEXT_SUMMARY then 12 else 13;
  }

  lemma LaterShape(id: string)
    requires ForLater(id)
    ensures "admin." <= id || "data." <= id
    ensures id != [] && id[0] != 'i' && Trimmed(id)
  {
    assert id[0] == 'a' || id[0] == 'd';
    if id[0] == 'a' {
      assert id[..6] == "admin.";
      assert id[|id| - 1] == 'd' || id[|id| - 1] == 'e' || id[|id| - 1] == 'n';
    } else {
      assert id[..5] == "data.";
      assert id[|id| - 1] == 'y' || id[|id| - 1] == 's';
    }
  }

  lemma LaterRefused(id: string)
    requires ForLater(id)
    ensures GuardCapability(Some(id)) == Deny(FutureNotImplemented)
  {
    hide Trim, ForLater, EXECUTABLE_TODAY, KNOWN_CAPABILITY_IDS;
    var k := LaterKnown(id);
    LaterShape(id);
    assert Trim(id) == id;
    assert INTERACTION_TYPE_TEXT[0] == 'i' && INTERACTION_SEND_SHORTCUT[0] == 'i';
  }

  /** Every id of the vocabulary is executable, kept for later, or one of the two unsupported kinds. */
  lemma KnownIs(id: string)
    requires id in KNOWN_CAPABILITY_IDS
    ensures id in EXECUTABLE_TODAY || ForLater(id) || id == "interaction.type_text" || id == "interaction.send_shortcut"
  {
    var k :| 0 <= k < |KNOWN_CAPABILITY_IDS| && KNOWN_CAPABILITY_IDS[k] == id;
    var e := if k < 2 then k else if k < 4 then 0 else if k < 7 then k - 2 else if k < 14 then 0 else k - 9;
    assert k < 2 || 4 <= k < 7 || k >= 14 ==> EXECUTABLE_TODAY[e] == id;
  }

  lemma TypeTextRefused()
    ensures GuardCapability(Some(INTERACTION_TYPE_TEXT)) == Deny(TypeTextNotSupported)
  {
    hide Trim;
    var id := INTERACTION_TYPE_TEXT;
    assert id[0] == 'i' && id[|id| - 1] == 't' && Trim(id) == id;
    assert KNOWN_CAPABILITY_IDS[2] == id;
  }

  lemma ShortcutRefused()
    ensures GuardCapability(Some(INTERACTION_SEND_SHORTCUT)) == Deny(SendShortcutNotSupported)
  {
    hide Trim;
    var id := INTERACTION_SEND_SHORTCUT;
    assert id[0] == 'i' && id[|id| - 1] == 't' && Trim(id) == id;
    assert KNOWN_CAPABILITY_IDS[3] == id;
    assert |id| != |INTERACTION_TYPE_TEXT|;
  }

  datatype Policy = Policy(
    enabled: bool,
    allowOpenApplication: bool,
    allowFocusWindow: bool,
    allowTypeText: bool,
    allowShortcuts: bool,
    requireConfirmation: bool)

  /** `InteractionPolicy::allows`. */
  predicate PolicyAllows(p: Policy, kind: InteractionKind) {
    && p.enabled
    && !(kind == OpenApplication && !p.allowOpenApplication)
    && !(kind == FocusWindow && !p.allowFocusWindow)
    && !(kind == TypeText && !p.allowTypeText)
    && !(kind == SendShortcut && !p.allowShortcuts)
  }
}
