# Verification of the Smolit Assistant core

A Dafny model of the approval-gated action core of the Rust daemon, and of the mechanisms it
depends on: identifiers and capability guard, audit store, command tokenizer and templates,
provider chains with their resolvers, live settings with their override files, and atomic saves.
`dafny verify dfyconfig.toml` checks everything.

## What is modelled

**Approval and execution protocol** (`Lifecycle`, `Protocol`, the `*Invariant` modules, `Wire`,
`Conversation`, `Progress`, `Runs`, `Guarantees`, `FinishedRequests`, `LostDecision`, `BroadcastDelivery`). Connections, handlers, spawned
waiters, resolvers, timers and clients are one state machine. A run is a sequence of `Step`s, one
access to shared state each, in any order: drawing an id, registering a sender, pushing a frame
into a response, broadcasting, writing an audit entry, polling the receiver, looking at the timer,
the timeout arm's own `take`, the two halves of `resolve` (take the sender, then send), writing a
response to a client, forwarding one broadcast frame or losing any number of them to lag, hanging up. What one request executes
is a script (`Lifecycle.Script`) with two open answers, the timed wait's and the backend's; the
methods of `AppFlows.App` and `Registry.PendingApprovalRegistry` are the handlers as they are
written, proved to do what the scripts say, and what that is, entry by entry and frame by frame. One log records frames, audit entries, backend calls and
replies in the order they happen. The number of requests, connections and decisions is unbounded,
and clients, clock, policy and backend are arbitrary. A deadline may pass at any time.

The state machine is parameterised by how requests are routed (`Route`). `RouteFor(policy)` is the
daemon's own routing: capability guard first, then policy, then the confirmation gate. `FinishedRequests`
ties every entry and frame a finished request has left behind to the decision, refusal or answer of the
backend it stands for.

**Audit** (`AuditEvent`, `AuditStore`, `AuditTrail`, `AuditFirst`). The sanitisers as functions, the ring as a class
in front of a log that exists only in the specification, overlapping `record` calls as a small state
machine, the link from a whole request to what the store keeps of it, and the order of auditing and showing.

**Tokenizer and templates** (`SplitCommand`, `CommandTemplate`). The character loop against a scanner
that also runs on templates with placeholders; a grammar that covers every command line, with all four
ways of quoting and lines that break off within quotes; chained `str::replace`.

**Providers and settings** (`Chains`, `Providers`, `Settings`, `SettingsEffects`, `SettingsApp`, `SettingsRace`, `Restart`). Chain
validation, resolver construction, the speech-to-text fallback loop with its status record, every
settings call as a method on an object and as a function on values, the override files, and the
restart of the daemon. `SettingsEffects` says for each call what becomes of the values in it, live, on disk
and in the providers, and when it is refused. Each settings call is one atomic step there; `SettingsRace` takes two audio
calls apart into their accesses and says what every interleaving of them leaves behind.

**Saves** (`AtomicSave`). File-system steps that can fail or stop anywhere, with one writer per file.

Counters are unbounded in the model; results that need it assume they stay below 2^64
(`COUNTER_LIMIT`). JSON encoding and decoding are taken as the identity on records.

## Findings

Places where the code does something its documentation or a natural reading does not say. The model
follows the code.

- A demo plan whose approval times out audits the result `timed_out` (core/src/app.rs:1320), which is
  not in the store's vocabulary (core/src/audit/event.rs:116-125), so the entry is stored without a
  result, while docs/security/AUDIT_TRAIL.md:29 lists `expired`. `AuditTrail.StoredResults` proves
  that this is the only case, `AuditTrail.TimedOutDemo` that it occurs under every policy.
- An approval can be accepted (`resolve` answers Ok to the client) and the request be cancelled as
  timed out all the same (`LostDecision.DecisionCanBeLost`). It becomes the outcome for certain exactly
  if the waiter does not stand between its look at the receiver and its look at the timer; if it does
  and the deadline has passed, it is lost for certain (`LostDecision.KeptExactly`).
- The speech-to-text status can report `fallback_active` although the configured kind answered, if the
  startup chain names that kind twice. `Providers.HonestExactly` states when it cannot.
- Resetting a chain removes its override file and then writes it again with the default, so the reset
  outlives a restart even under an environment that names another chain, other than the comment at
  core/src/app.rs:2827-2831 suggests (`Restart.ResetSurvives`).
- A string setting cleared at run time comes back at the next start if the startup configuration sets
  it: a cleared value is not in the file (`Restart.ClearedPathReturns`). A blank string written into the
  file by hand does stay cleared. `Restart.RestartIdentity` states exactly when a restart changes
  nothing.
- A quoted empty argument in a command line disappears (`SplitCommand.EmptyQuotesVanish`); every word
  survives exactly if none of them is empty (`SplitCommand.SplitKeepsAll`).
- A window title that contains a placeholder is filled in again (`CommandTemplate.BraceInTitle`), and
  an application name with a space falls into two arguments (`CommandTemplate.SpaceInName`).
  `CommandTemplate.StagesExactly`, `FocusExactly` and `OpenExactly` state for which values neither
  happens, whatever the template.
- The guard's reason `capability_not_executable_today` is never given: every id of the vocabulary that is not
  executable has a reason of its own (`Capabilities.ReasonsExactly`).
- Two audio settings calls at the same time can leave a resolver behind that does not match the live
  configuration. `SettingsRace.OverlapExactly` states when.

## Model

| member | source | states |
|---|---|---|
| Guarantees.TokenConservation | core/src/approvals/state.rs:53-78 | In every reachable state a sender is alive exactly while it is registered under its own id or held by a resolver between taking and sending, never both, and by one resolver at most. |
| Guarantees.SenderNeverDropped | core/src/app.rs:1720-1734 | The arm for a dropped sender can never be taken, in any of the three waits, and no wait is answered by the system itself. |
| Guarantees.ApprovalsDistinct | core/src/app.rs:711-714 | Two requests never share an approval id. |
| Guarantees.GateSafety | core/src/app.rs:1607-1654 | Every backend or mock run in the log is its request's only one; where confirmation is needed, exactly one decision, Approved, had been accepted for that request's own id by then; an interaction that runs is open_application or focus_window, with the interaction layer on and its own flag on. |
| Guarantees.GateDecision | core/src/app.rs:1646-1647 | What is not refused waits for approval exactly where confirmation is required. |
| Guarantees.RoutingExactly | core/src/interaction/executor.rs:40-61 | An interaction is let through exactly if the layer is on and it is open_application or focus_window with its own flag on; it waits exactly if, besides, it asks for confirmation and policy requires it; demo plans and approval demos are never refused. |
| Guarantees.SingleAcceptance | core/src/approvals/state.rs:69-78 | At most one resolve per approval id ever answers Ok, in any run. |
| Guarantees.ReplyExactly | core/src/approvals/state.rs:69-78 | A resolver that has taken a sender delivers its decision exactly if the wait has not been answered, and answers Closed exactly if the deadline has. |
| Guarantees.OutcomeIsAccepted | core/src/app.rs:1720-1734 | The outcome of a wait is the one accepted decision with source user, or timed_out with source timeout. |
| Guarantees.RefusalsAnswered | core/src/ipc/server.rs:442-465 | Every refused resolve is audited once as rejected, in order, and answered with one error frame. |
| Guarantees.WireGrammar | core/src/app.rs:1541-1827 | The frames of every request begin a sentence of the grammar, and are a whole sentence once it has finished. |
| Guarantees.OneTerminalFrame | core/src/interaction/executor.rs:113-170 | A terminal frame is the last frame of its request. |
| Guarantees.ResolvedAtMostOnce | core/src/app.rs:1745-1753 | No approval is shown resolved twice. |
| Guarantees.ResolvedWhenFinished | core/src/app.rs:1079-1086 | A finished request that asked for approval has shown it resolved, with the outcome of its wait. |
| Guarantees.AuditMirror | core/src/app.rs:1847-1912 | The audit trail of a finished request is IpcCommandReceived and then the mirror of its frames; a refusal's started frame leaves no entry. |
| FinishedRequests.ActedExactly | core/src/app.rs:1777-1788 | The backend has been called exactly if its answer is there. |
| FinishedRequests.ResolutionAudited | core/src/app.rs:1755-1771 | A finished gated request audits one resolution: approved exactly if the backend was called and if Approved was accepted in time, denied and cancelled exactly if these were accepted in time, expired (timed_out for a demo plan) exactly if the deadline decided. |
| FinishedRequests.CancellationAudited | core/src/app.rs:1804-1824 | It audits a cancellation exactly if the backend was not called: denied, cancelled or expired under the same conditions. |
| FinishedRequests.NoAnswerAudited | core/src/app.rs:1646-1701 | Without a gate no entry speaks of an answer. |
| FinishedRequests.RunAudited | core/src/app.rs:1777-1802 | Completed is audited exactly if the backend answered well, failed exactly if it did not or policy refused, the guard's denial exactly if the guard refused. |
| FinishedRequests.FramesTell | core/src/interaction/executor.rs:113-170 | Completed, failed and cancelled are shown under the same conditions as they are audited. |
| Guarantees.OneCorrelation | core/src/app.rs:1550-1557 | Two frames or entries carry the same correlation id exactly if they belong to the same request. |
| CorrelationInvariant.CorrelationDrawn | core/src/audit/correlation.rs:39-46 | A request draws the clock and the next number of the counter, readable from its id. |
| Guarantees.OneCapability | core/src/app.rs:1563-1596 | Every audit entry of a request carries the capability id of its kind, each id spelled out. |
| Guarantees.ClientOrder | core/src/ipc/server.rs:62-124 | The requesting client gets the whole response, planned and approval_requested included, before any broadcast frame of the same request, under every interleaving and with lag. |
| Guarantees.BroadcastSubsequence | core/src/ipc/server.rs:102-121 | A connection receives broadcast frames in the order of emission, each at most once. |
| BroadcastDelivery.ForwardExactly | core/src/ipc/server.rs:102-121 | The next broadcast frame is forwarded exactly if the channel still holds it, which it does while the connection is at most 256 frames behind; otherwise it goes on with the oldest frame left. |
| BroadcastDelivery.NothingMissed | core/src/ipc/server.rs:63-121 | A client gets no broadcast frame from before it connected and, as long as it does not lag, every one since then, none left out and none twice. |
| Guarantees.RunsAreBounded | core/src/app.rs:1703-1753 | Without client messages and with all deadlines passed, no run is longer than a measure of its first state. |
| Guarantees.RunsToCompletion | core/src/app.rs:1272-1306 | From every reachable state with passed deadlines the system drains by itself: all requests finished, registry empty, every connection has written all it owes. |
| Guarantees.StuckIsDone | core/src/app.rs:1053-1087 | A reachable state in which nothing can happen without a client has no unfinished request, no registered sender and no owed frame. |
| LostDecision.FateExactly | core/src/app.rs:1720-1734 | Once a decision has been accepted, the answers some run can still reach are exactly those the waiter's position and deadline leave open. |
| LostDecision.KeptExactly | core/src/app.rs:1060-1067 | An accepted decision becomes the outcome in every run exactly if the waiter is not between its two looks, and in no run exactly if it is and the deadline has passed. |
| LostDecision.DecisionCanBeLost | core/src/app.rs:1272-1288 | Under every policy, for every gated request and every decision, some run accepts the decision and ends the wait as timed out. |
| Runs.StepInv | core/src/app.rs:1541-1827 | All twelve layers of the invariant survive every step. |
| Wire.ScriptSpeaks | core/src/interaction/executor.rs:113-170 | Every complete script speaks the wire grammar. |
| Wire.SentenceSpoken | core/src/app.rs:1541-1701 | Every sentence of the grammar is spoken by some complete script, so the grammar is exact. |
| Wire.AuditMirrorsWire | core/src/app.rs:1764-1824 | The audit entries of a complete script are determined by its frames, step and verification left out. |
| Conversation.LogFollowsScript | core/src/app.rs:1541-1827 | What a run shows and audits for one request is what its script has executed so far, whatever else happens in between. |
| ChannelInvariant.TokensPreserved | core/src/approvals/state.rs:53-78 | Every step keeps each sender in exactly one place. |
| DeliveryInvariant.DeliveryPreserved | core/src/ipc/server.rs:62-124 | Every step keeps delivery in order on every connection. |
| GateInvariant.GatePreserved | core/src/app.rs:1777-1788 | Every step keeps backend calls unique and, behind a gate, preceded by the accepted approval. |
| Progress.EveryStepFalls | core/src/ipc/server.rs:62-124 | Every step without a client makes the measure smaller once deadlines have passed. |
| Progress.QuiescentDone | core/src/app.rs:1053-1087 | Where no step is possible nothing is left to do. |
| Registry.PendingApprovalRegistry.Register | core/src/approvals/state.rs:53-58 | A fresh pending channel under the id; a sender registered there before is dropped. |
| Registry.PendingApprovalRegistry.Resolve | core/src/approvals/state.rs:69-78 | Unknown without an entry, Closed if the receiver is gone, otherwise delivered; the entry is gone in all cases. |
| Registry.ResolveTwice | core/src/approvals/state.rs:69-78 | A second decision for an id is always Unknown. |
| Registry.UnknownIsRefused | core/src/ipc/server.rs:442-465 | Without interference, a decision for an unregistered id is refused, audited and answered with an error, and nothing else changes. |
| Registry.ResolveIsTwoSteps | core/src/approvals/state.rs:69-78 | Without interference the protocol's two steps do what Resolve does in one. |
| AppFlows.App.DispatchInteraction | core/src/app.rs:1541-1701 | Response, audit entries, registration and the order of all that happens are those of the request's script; the flags of the policy alone decide between refusal, wait and run, each spelled out. |
| AppFlows.App.AwaitAndContinue | core/src/app.rs:1703-1827 | Broadcasts, entries and their order after the wait are those of the script, spelled out for each decision; a timeout takes the id out of the registry. |
| AppFlows.App.RequestApprovalDemo | core/src/app.rs:975-1051 | Always passes the guard and answers approval_requested. |
| AppFlows.App.AwaitAndResolveDemo | core/src/app.rs:1053-1087 | Broadcasts exactly the resolution and audits nothing. |
| AppFlows.App.PlanDemoAction | core/src/app.rs:1109-1270 | Response, entries and registration are those of the script for the sanitised kind. |
| AppFlows.App.AwaitAndExecuteDemoPlan | core/src/app.rs:1272-1384 | Broadcasts, entries and the final plan status, spelled out for each decision. |
| AppFlows.App.ExecuteDemoPlan | core/src/app.rs:1462-1527 | A plan that has ended is not run again; any other runs once to completed. |
| AppFlows.App.RecordInteractionLifecycleAudit | core/src/app.rs:1847-1912 | One entry per lifecycle frame, in order. |
| AppFlows.DemoPlan.SetStatus | core/src/actions/plan.rs:186-195 | A terminal status never changes. |
| Capabilities.GuardAllowsExactlyExecutable | core/src/capability_guard.rs:164-209 | The guard lets an id through exactly when it is on the executable list. |
| Capabilities.ReasonsExactly | core/src/capability_guard.rs:164-209 | Which reason the guard gives, for all ids; capability_not_executable_today is never given. |
| Capabilities.GuardInteractionExact | core/src/capability_guard.rs:215-223 | Of all interaction kinds exactly the two with a backend pass. |
| Capabilities.GuardDemoAllows | core/src/capability_guard.rs:229-237 | The demo planner is never refused, whatever kind string arrives. |
| Capabilities.SanitizeKindExactly | core/src/actions/plan.rs:90-97 | A demo kind counts up to white space and case; anything else is noop. |
| Capabilities.CapabilitiesSpelled | core/src/capabilities.rs:135-172 | The capability id of every interaction kind and, through the sanitised kind, of every demo plan. |
| Capabilities.RefusalReasons | core/src/capability_guard.rs:215-223 | Why each interaction kind without a backend is refused. |
| Text.TrimExactly | core/src/actions/plan.rs:90-97 | What trimming leaves is the one text without white space at its ends that stands in the original with nothing but white space around it. |
| Text.WhitespaceExactly | core/src/audio/types.rs:39-46 | White space is the 25 characters of the Unicode property. |
| Text.NormalizeExactly | core/src/actions/plan.rs:90-97 | Normalising moves the ASCII capitals of the trimmed text to lower case and changes nothing else. |
| Ids.PaddedDecodes | core/src/app.rs:706-726 | Zero-padded counters decode to the counter they were made from. |
| Ids.PaddedShape | core/src/app.rs:706-726 | Zeros in front up to the width, then the number without leading zeros; never cut. |
| Ids.CounterIdInjective | core/src/app.rs:706-726 | Equal ids of a family come from equal counters. |
| Ids.CounterForm | core/src/app.rs:706-726 | An id is its prefix and the counter in decimal digits, six wide below a million. |
| Ids.CorrelationIdInjective | core/src/audit/correlation.rs:39-46 | Equal correlation ids come from equal counters, whatever the clock says. |
| Ids.CorrelationForm | core/src/audit/correlation.rs:39-46 | A correlation id is the prefix, the clock in 12 and the counter in 16 hexadecimal digits. |
| AuditEvent.SanitizedFixed | core/src/audit/event.rs:287-298 | Sanitising a sanitised record changes nothing. |
| AuditEvent.SanitizedKeeps | core/src/audit/event.rs:287-298 | Every field is stored in its own place, from its own input only, as that field is to be cleaned up. |
| AuditEvent.KeepsDetermines | core/src/audit/event.rs:73-151 | These conditions leave one stored record only. |
| AuditEvent.CapabilityExact | core/src/capabilities.rs:308-335 | A capability id is stored exactly if, trimmed, it is one of the 18 of the vocabulary. |
| AuditEvent.SummaryFixed | core/src/audit/event.rs:73-88 | A stored summary is trimmed, not empty, at most 80 characters, and stays as it is. |
| AuditEvent.CorrelationExact | core/src/audit/correlation.rs:52-78 | A correlation id survives exactly when, trimmed, it has 24 to 80 characters, `corr_` first and then small letters, digits and underscores only. |
| AuditEvent.GeneratedCorrelationPasses | core/src/audit/correlation.rs:39-78 | Every generated correlation id is stored unchanged. |
| AuditEvent.GeneratedIdPasses | core/src/app.rs:706-726 | Generated action and approval ids are stored unchanged. |
| AuditEvent.InteractionIdsStored | core/src/capabilities.rs:308-335 | The capability id of every interaction kind is stored unchanged. |
| AuditEvent.PlanIdsStored | core/src/capabilities.rs:308-335 | The capability id of every demo plan is stored unchanged. |
| AuditEvent.ResultStored | core/src/audit/event.rs:142-151 | Every result the handlers pass is stored unchanged, except `timed_out`, which is dropped. |
| AuditTrail.StoredResults | core/src/app.rs:1313-1325 | A finished request's results are all stored as passed exactly unless it is a demo plan whose approval timed out. |
| AuditTrail.TimedOutDemo | core/src/app.rs:1281-1325 | Under every policy every kind of demo plan has such a finished run. |
| AuditFirst.AuditedBeforeShown | core/src/app.rs:1777-1788 | When a step, verification or completion frame of an interaction is shown, its backend call and both audit entries of the run are already in the log. |
| AuditStore.AuditStore.Record | core/src/audit/store.rs:96-104 | The log grows by one event under the next number, each field of it stored in its own place as it is to be cleaned up, and the ring is the newest part of the log. |
| AuditStore.AuditStore.MakeRoom | core/src/audit/store.rs:99-101 | The eviction loop keeps the newest events, one less than fit. |
| AuditStore.AuditStore.ListRecent | core/src/audit/store.rs:108-117 | The answer is the newest part of the whole log, as long as limit and ring allow. |
| AuditStore.HandleAuditRecent | core/src/ipc/server.rs:470-476 | The clamp in the handler never changes the answer. |
| AuditStore.IdsDistinct | core/src/audit/store.rs:126-128 | No two stored events share an id. |
| AuditStore.RacingIdsDistinct | core/src/audit/store.rs:96-104 | With number and lock taken separately by any number of threads, the ring is the newest part of the log and ids stay distinct. |
| AuditStore.AscendsExactly | core/src/audit/store.rs:96-128 | Once all threads have appended, ids ascend exactly if no thread appended while another held a smaller number. |
| AuditStore.NoOverlapAscends | core/src/audit/store.rs:96-128 | In every run in which records do not overlap, ids ascend in log and ring. |
| AuditStore.OverlapCanSwap | core/src/audit/store.rs:96-128 | With overlap they need not. |
| SplitCommand.Split | core/src/audio/types.rs:15-51 | The loop returns the tokens of the scanner, the first as program, and nothing exactly if there is no token. |
| SplitCommand.SplitNoneEmpty | core/src/audio/types.rs:22-50 | Program and arguments are never empty. |
| SplitCommand.SplitReads | core/src/audio/types.rs:22-46 | However words are written, bare, escaped, single or double quoted, and whatever white space separates them, splitting yields what they stand for. |
| SplitCommand.SplitReadsAny | core/src/audio/types.rs:22-50 | The same for lines that break off: an open quote closes by itself, a lone backslash is dropped. |
| SplitCommand.EveryLine | core/src/audio/types.rs:22-50 | There is no other command line: every text is written in these ways, so its tokens are known. |
| SplitCommand.SplitKeepsAll | core/src/audio/types.rs:29-46 | Splitting gives back every written word exactly if none of them stands for the empty string. |
| SplitCommand.EmptyQuotesVanish | core/src/audio/types.rs:43-46 | A pair of quotes with nothing in it is no argument. |
| SplitCommand.SplitInvertsEscape | core/src/audio/types.rs:15-51 | Escape, join with spaces, split: the tokens are back, for every non-empty list of non-empty tokens. |
| CommandTemplate.ChainedIsSimultaneous | core/src/interaction/backend.rs:164-177 | The chain of replacements is simultaneous substitution for brace-free literals and all values that no later replacement can touch. |
| CommandTemplate.StagesExactly | core/src/interaction/backend.rs:171-174 | Over all templates each replacement fills in its own placeholder only, exactly if no value contains a later placeholder or ends in the beginning of one. |
| CommandTemplate.SplitCommutesWithRender | core/src/interaction/backend.rs:164-177 | Splitting the rendered line is rendering each token of the split template, for plain values. |
| CommandTemplate.SplitAlone | core/src/audio/types.rs:15-51 | A line is its own only token exactly if it is not empty and free of white space, quotes and backslashes. |
| CommandTemplate.CommutesExactly | core/src/interaction/backend.rs:164-177 | Over all templates with given placeholders, splitting commutes with rendering exactly if the values of these placeholders are plain. |
| CommandTemplate.FocusArguments | core/src/interaction/backend.rs:152-177 | focus_window spawns the template's own arguments with the cleaned title and application filled in. |
| CommandTemplate.FocusExactly | core/src/interaction/backend.rs:152-177 | It does so for all templates with given placeholders exactly if the target's values for them are plain. |
| CommandTemplate.TargetExactly | core/src/interaction/backend.rs:152-170 | A title names the target, an application alone stands in for it; what is missing or blank is filled in as nothing. |
| CommandTemplate.OpenArguments | core/src/interaction/backend.rs:100-120 | open_application spawns the template's own arguments with the name filled in. |
| CommandTemplate.OpenExactly | core/src/interaction/backend.rs:100-120 | It does so for all templates exactly if the name is plain. |
| CommandTemplate.RefusedExactly | core/src/interaction/backend.rs:100-177 | When either command is not spawned, and which error says so. |
| CommandTemplate.ApplicationAlone | core/src/interaction/backend.rs:159-177 | The template {name} with the application x and no title spawns x. |
| CommandTemplate.BraceInTitle | core/src/interaction/backend.rs:159-177 | The template {name} with the title {app} and the application x spawns x. |
| CommandTemplate.SpaceInName | core/src/interaction/backend.rs:118-120 | The template {name} with the name `a b` spawns a with the argument b. |
| Chains.ValidateChain | core/src/providers/stt.rs:99-115 | The loop returns the normal form or the first offence. |
| Chains.ValidateExact | core/src/providers/text.rs:141-157 | Accepted are exactly the non-empty lists of known kinds, up to trimming and case, without repetition. |
| Chains.FirstOffence | core/src/providers/stt.rs:104-112 | The first entry that is unknown, or else repeats one before it, is the one reported; everything before it is known and distinct. |
| Chains.RejectedExactly | core/src/providers/text.rs:141-157 | Which error a rejected chain gets, for all chains: empty, or its first wrong entry. |
| Chains.ValidateIdempotent | core/src/providers/stt.rs:99-115 | Validating an accepted chain again changes nothing. |
| Chains.AcceptedKinds | core/src/providers/stt.rs:437-460 | A resolver built from an accepted chain has exactly its kinds in its order, none twice. |
| Chains.KindsExactly | core/src/providers/stt.rs:437-460 | The kinds of a resolver are the known entries of its chain, one by one. |
| Chains.DefaultExactly | core/src/providers/stt.rs:461-477 | The first kind of the vocabulary stands in exactly if no entry is known. |
| Providers.SttResolver.Run | core/src/providers/stt.rs:511-570 | The first success in order is returned and nothing behind it is asked; the status shows the configured and the active kind, available, fallback_active or unavailable, and the last error exactly if all failed. |
| Providers.BuildStt | core/src/providers/stt.rs:437-477 | The loop builds the providers of the known kinds, or the default one. |
| Providers.SttFrame | core/src/providers/stt.rs:250-313 | Speech-to-text providers depend on the speech-to-text fields only. |
| Providers.SttSpelled | core/src/providers/stt.rs:250-313 | Switch, command and timeout of every speech-to-text provider, and when it is ready. |
| Providers.TtsSpelled | core/src/providers/tts.rs:222-285 | The same for text-to-speech. |
| Providers.HonestExactly | core/src/providers/stt.rs:511-570 | In every snapshot, before the first run and after any, fallback_active is reported exactly for an active provider other than the configured one, if and only if the first kind of the chain occurs once. |
| Providers.AcceptedChainHonest | core/src/providers/stt.rs:391-406 | Every chain the settings accept has an honest status record. |
| Providers.RepeatedPrimary | core/src/config.rs:726-740 | A startup chain that repeats its first kind does not. |
| Settings.HandleCoherent | core/src/app.rs:2308-2419 | After every settings call, refused or with a failed save included, the installed resolvers are those of the live settings and the key in memory is the one on disk. |
| Settings.SessionCoherent | core/src/app.rs:490-622 | The same after any session from any files. |
| Settings.OnlyItsAxis | core/src/app.rs:2525-2621 | Each call changes only the settings, resolver and file of its own axis. |
| SettingsEffects.LlamafileEffect | core/src/app.rs:2308-2419 | When the call is refused, and what each of its values becomes, live, on disk and in the provider. |
| SettingsEffects.LocalHttpEffect | core/src/app.rs:2667-2756 | The same for the local HTTP provider. |
| SettingsEffects.CloudHttpEffect | core/src/app.rs:3097-3195 | The same for the cloud provider, whose settings are not saved. |
| SettingsEffects.ApiKeyEffect | core/src/app.rs:3197-3258 | An accepted key is stored trimmed, in memory, on disk and for the next start; a missing or blank one clears it; it is refused exactly if it cannot be saved. |
| SettingsEffects.SttEffect | core/src/app.rs:2525-2570 | Switch and command of speech-to-text, live, on disk and in the providers. |
| SettingsEffects.TtsEffect | core/src/app.rs:2574-2621 | The same for text-to-speech, with auto_speak. |
| SettingsEffects.TextChainEffect | core/src/app.rs:2758-2825 | An accepted chain is stored normalised; a refused one changes nothing. |
| SettingsEffects.SttChainEffect | core/src/app.rs:2854-2900 | The same for the speech-to-text chain. |
| SettingsEffects.TtsChainEffect | core/src/app.rs:2919-2961 | The same for the text-to-speech chain. |
| SettingsEffects.ResetEffect | core/src/app.rs:2832-2848 | A reset is never refused and leaves the default of its axis and nothing else changed. |
| SettingsEffects.TextSpelled | core/src/app.rs:490-622 | Every text provider holds the settings of its own kind. |
| SettingsEffects.StartReads | core/src/settings_store.rs:174-236 | A start takes from each file what is valid in it, and the startup value for the rest. |
| SettingsRace.OverlapExactly | core/src/app.rs:2525-2621 | After any interleaving of two audio calls the resolvers match the live configuration exactly if the calls did not overlap or the first to store changed nothing for its resolver. |
| SettingsRace.SttSilentExactly | core/src/app.rs:2525-2570 | A speech-to-text call changes nothing for its resolver exactly if it keeps the switch and, with the command provider in the chain, the command. |
| SettingsRace.TtsSilentExactly | core/src/app.rs:2574-2621 | The same for a text-to-speech call. |
| SettingsRace.OverlapHappens | core/src/app.rs:2574-2621 | Wherever it does change something, some interleaving leaves a stale resolver. |
| SettingsApp.App.constructor | core/src/app.rs:490-622 | The started daemon holds the overrides over the startup values. |
| SettingsApp.App.UpdateLlamafile | core/src/app.rs:2308-2419 | Does to the object what Handle does to the value. |
| SettingsApp.App.UpdateLocalHttp | core/src/app.rs:2667-2756 | The same for the local HTTP provider. |
| SettingsApp.App.UpdateCloudHttp | core/src/app.rs:3097-3195 | The same for the cloud provider, without a file. |
| SettingsApp.App.UpdateTextChain | core/src/app.rs:2758-2825 | The same for the text chain. |
| SettingsApp.App.UpdateSttChain | core/src/app.rs:2854-2900 | The same for the speech-to-text chain. |
| SettingsApp.App.UpdateTtsChain | core/src/app.rs:2919-2961 | The same for the text-to-speech chain. |
| SettingsApp.App.ResetTextProviderChain | core/src/app.rs:2832-2848 | Never refused; removes the file and writes the default. |
| SettingsApp.App.ResetSttProviderChain | core/src/app.rs:2901-2915 | The same for the speech-to-text chain. |
| SettingsApp.App.ResetTtsProviderChain | core/src/app.rs:2962-2976 | The same for the text-to-speech chain. |
| SettingsApp.App.SetCloudHttpApiKey | core/src/app.rs:3197-3258 | Stored first; on failure nothing changes. |
| SettingsApp.App.UpdateStt | core/src/app.rs:2525-2570 | Does to the object what Handle does to the value. |
| SettingsApp.App.UpdateTts | core/src/app.rs:2574-2621 | The same for text-to-speech. |
| Restart.RestartRestores | core/src/settings_store.rs:174-236 | From any files and after any session with successful saves, a restart brings back all persisted settings, strings the daemon cleared at their startup value. |
| Restart.RestartIdentity | core/src/app.rs:490-622 | A restart changes nothing at all exactly when no string that startup sets is missing both live and in its file, and the cloud settings are untouched. |
| Restart.ClearedPathReturns | core/src/settings_store.rs:174-205 | One request that clears a configured path: the path is gone, and back after a restart. |
| Restart.ResetSurvives | core/src/app.rs:2832-2848 | A reset text chain survives a restart under any startup configuration, unless its save failed after the removal. |
| Restart.SttResetSurvives | core/src/app.rs:2901-2915 | The same for the speech-to-text chain. |
| Restart.TtsResetSurvives | core/src/app.rs:2962-2976 | The same for the text-to-speech chain. |
| AtomicSave.NamesDistinct | core/src/settings_store.rs:649-657 | No save touches the target or temporary file of another axis. |
| AtomicSave.AllOrNothing | core/src/settings_store.rs:649-672 | The only steps that change what a reader finds replace the whole old content by the whole new body, or remove it. |
| AtomicSave.StoppedAnywhere | core/src/secrets_store.rs:162-193 | Stopped after any step of any interleaving, each target holds its old content or, past the rename, the whole new body with no temporary file left. |
| AtomicSave.CompleteSave | core/src/settings_store.rs:649-672 | A save nothing goes wrong with leaves the body in the target, no temporary file, and every other file as it was, whatever earlier saves left behind. |
| AtomicSave.RemovedOrFailed | core/src/settings_store.rs:649-672 | A removal takes away the target only; a failure leaves every file as it is. |
| AtomicSave.TempIsTarget | core/src/settings_store.rs:657-657 | The temporary name is the target's with .tmp behind it. |
| AtomicSave.OthersInvisible | core/src/settings_store.rs:649-672 | Saves of other axes never show in a target. |

## Left out

- WebSocket handshake, TCP, HTTP probes and process spawning: backend, providers and file system answer through parameters.
- Frame payloads other than the resolution's outcome and the correlation id: action ids, titles, risks and human-readable messages do not influence which frames are emitted.
- The stdin loop, the accessibility probe and discovery, target selection and the status payload: they take no part in the gate.
- `InteractionExecutor::execute`: the daemon dispatches through `run_approved` only.
- `classify_error`, which matches substrings of error messages: an error class is part of a provider's answer.
- Running the text and text-to-speech resolvers: their construction is modelled, their fallback loop is the same as speech-to-text's.
- JSON syntax, file permissions and fsync: a file that cannot be read counts as missing.
- Providers.SttResolver.Run: a run and its status update are one step; two runs that overlap can leave the status of either.
- Protocol.Step: a deadline may also pass before its wait has begun, which only adds runs; requests other than the gated ones are not steps.
- Guarantees.RunsToCompletion: assumes that the 64-bit correlation counter suffices for the requests there are.
- AuditStore.AuditStore.Record: number and append are one step here; their separation is the subject of RacingIdsDistinct and AscendsExactly.
- Settings.HandleCoherent: one call is one atomic step; overlapping calls are the subject of OverlapExactly, for one speech-to-text and one text-to-speech call.
- CommandTemplate.ChainedIsSimultaneous: one direction only; the exact statement is the one of StagesExactly, about every replacement by itself, since a later replacement may happen to undo an earlier one.
