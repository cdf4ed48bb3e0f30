# RouteDeck: models and proofs

RouteDeck is a desktop VPN client: a Rust backend starts and watches a proxy engine, changes the
Windows proxy settings, keeps a library of servers and compiles routing policies; a TypeScript UI
shows the backend's snapshots and tells it what to do. This project models five connected parts of it
in Dafny and proves what they are meant to guarantee, for all inputs and all runs.

* **Sessions.** `Session` is the lifecycle as a state machine: each function is one stretch the
  controller runs without releasing its state lock, with the answers of the services as parameters,
  and a run interleaves commands, the monitor and the reconnection freely. `SessionController` is the
  same as a class whose methods change the fields in place and state what each section promises;
  `SessionOutcomes` proves these promises of the machine. `SessionSafety`, `SessionStops` and
  `SessionProbes` prove what holds in every run; `SessionContract` proves that the published snapshots
  satisfy the UI's rules, which `RuntimeStatus` states; `SessionExamples` gives the concrete runs named
  below.
* **The server library.** `SourceLibrary` defines the simple rebuild a restart performs,
  `LibraryOperations` and `RefreshIds` the operations, `ServerLibrary` the class that changes the index
  in place, and `LibraryRuns` all interleavings with refreshes in flight.
* **The policy compiler.** `AppRuleMatching` (names and their patterns), `RoutePolicy` (validation),
  `TunPrefix` (bit arithmetic of prefixes), `RouteRules` (the first-match rule list and its meaning),
  `ConfigCompiler` (generation and its closing checks), `UiRouting` (the UI's document and the keys
  that decide whether an edit reconnects) and `UiDecisions` (what the user's rules do to a connection).
* **The reconciler.** `Reconciler` is the UI's serial queue and the loop that chases an intent which
  may change at every `await`.
* **Updates and identities.** `Versions`, `UpdateChecker` and `SecurityIdentity`.

`Text` holds shared text and sequence helpers.

## Assumptions

* Services answer arbitrarily, within these contracts: a save is atomic or fails; port reservations
  are valid and distinct; a measured latency is at most a day (the probes time out after seconds);
  identifiers drawn at random are new; the subscription parser rejects content without a usable node
  and gives the nodes of one report distinct content hashes; a fetch of an update does not panic; the
  digest of the approval has no collisions (only in `ApprovalIsBound`).
* Texts in the matching of names and paths and in the UI's routing document are ASCII where case
  folding or trimming matters; the statements say so.
* A sort is any function that permutes its input; nothing else about the UI's locale comparison is used.

## Findings

Some expectations do not hold of the code without a condition; each has a lemma with a concrete input
and one with the exact condition.

* The re-verification of a running System Proxy can report `BlockedByConflict` with the ownership proof
  still passed (`FinishProxyIff`, `BlockedWithoutFailedOwnership`), and the re-verification of either
  mode, when the monitor has meanwhile required recovery, a ready session whose process proof is failed
  (`FinishProxyIff`, `FinishLocalIff`, `ReadyWithFailedProcess`, `LocalReadyWithFailedProcess`). The UI
  rejects these snapshots.
* The UI accepts an exact path whose file name exceeds 260 bytes; the backend refuses the policy
  (`UiAcceptedIsValidIff`, `LongFileNameIsRefused`).
* A connection asked for between the call of a stop and its turn, and not cancelled by another stop,
  leaves an intent behind the completed stop, and that intent reconnects (`StopIsQuietIff`,
  `IntentSurvivesStop`, `SurvivingIntentReconnects`).
* The backend accepts a file name that begins with U+FEFF, which the UI trims and refuses
  (`UiNameCheckAgrees`, `ByteOrderMarkDiffers`).

## Model

| member | source | states |
|---|---|---|
| AppRuleMatching.UiNameCheckAgrees | src/appRuleMatching.ts:8-13 | the UI accepts a file name exactly when the backend does, except for a name that starts with U+FEFF |
| AppRuleMatching.ByteOrderMarkDiffers | src/appRuleMatching.ts:8-13 | a concrete name the backend accepts and the UI refuses |
| AppRuleMatching.ExecutableNamePattern | src-tauri/src/app_rule_matching.rs:32-41 | a pattern is produced for exactly the valid names, and it is the printed pattern |
| AppRuleMatching.ValidateExecutableNamePattern | src-tauri/src/app_rule_matching.rs:45-61 | the decoder accepts a text exactly when some valid name prints to it |
| AppRuleMatching.DecodeLiteral | src-tauri/src/app_rule_matching.rs:48-59 | decoding the escaped part yields the unique text that escapes to it, or nothing |
| AppRuleMatching.UnescapeInvertsEscape | src-tauri/src/app_rule_matching.rs:34-39 | unescaping an escaped name gives the name back |
| AppRuleMatching.EscapeInvertsUnescape | src-tauri/src/app_rule_matching.rs:48-59 | escaping what was unescaped gives the literal back |
| AppRuleMatching.PatternLength | src-tauri/src/app_rule_matching.rs:46 | the pattern of a valid name is within the decoder's length bound |
| AppRuleMatching.PatternInjective | src-tauri/src/app_rule_matching.rs:32-61 | different valid names have different patterns |
| AppRuleMatching.PatternMatchesBasename | src-tauri/src/app_rule_matching.rs:26-41 | (ASCII) the pattern, read as a regular expression and searched in a path, matches exactly when the file name of the path equals the name ignoring case |
| RoutePolicy.Validate | src-tauri/src/domain.rs:747-780 | accepts exactly the policies with at most 512 rules, each sound by itself, no two about the same program; a rejection names the fault of the first offending rule |
| RoutePolicy.ValidityIgnoresOrder | src-tauri/src/domain.rs:747-780 | permuting the rules of a valid policy keeps it valid |
| TunPrefix.CanonicalBits | src-tauri/src/config.rs:759-789 | the canonical prefix keeps the network bits and clears exactly the host bits, for every length from 0 to full width |
| TunPrefix.CanonicalIsNetwork | src-tauri/src/config.rs:759-789 | with h host bits the result is the address less its remainder by 2^h: a multiple of 2^h, not above the address, less than 2^h below it, and the largest such multiple |
| TunPrefix.CanonicalIdempotent | src-tauri/src/config.rs:759-789 | canonicalizing twice is canonicalizing once |
| TunPrefix.SameNetworkIffSamePrefixBits | src-tauri/src/config.rs:759-789 | two addresses share a result exactly when they agree on the first p bits |
| TunPrefix.GuardCoversNetwork | src-tauri/src/config.rs:198-209 | an address lies in the canonical prefix exactly when it agrees with the TUN address on every network bit |
| RouteRules.AppRuleMeaning | src-tauri/src/config.rs:359-382 | a compiled application rule matches exactly the connections of its application and routes them as chosen |
| RouteRules.AppRulesMeaning | src-tauri/src/config.rs:359-382 | first match over the compiled application rules is: an exact path before a file name, otherwise nothing |
| RouteRules.TrafficRulesMeaning | src-tauri/src/config.rs:330-358 | first match over the compiled traffic rules is the first rule for the network and port, inside the TUN only: Block rejects, Direct goes out directly, VPN through the selected server |
| RouteRules.TunPartMeaning | src-tauri/src/config.rs:310-324 | inside the TUN port 53 is hijacked and the TUN's own networks are dropped |
| RouteRules.GuardMeaning | src-tauri/src/config.rs:198-209 | the guard's prefixes cover exactly the networks of the TUN's addresses |
| RouteRules.CompiledRulesMeanPolicy | src-tauri/src/config.rs:309-391 | first-match evaluation of the whole compiled list is the declared policy, with every outcome written out, for every connection |
| RouteRules.OrderIsIrrelevant | src-tauri/src/config.rs:359-382 | permuting the application rules of a valid policy changes no decision |
| ConfigCompiler.ValidateRequest | src-tauri/src/config.rs:649-721 | reports the first fault of a request, and one that is there, or none |
| ConfigCompiler.RequestAcceptedIff | src-tauri/src/config.rs:649-721 | a request is accepted exactly when approval, ports, policy, capture mode, TUN settings, upstream and VPN DNS each meet the stated condition |
| ConfigCompiler.TunAddressRanges | src-tauri/src/config.rs:730-757 | an accepted TUN address is one of the private ranges, written as numbers |
| ConfigCompiler.UpstreamDnsRanges | src-tauri/src/config.rs:722-728 | an accepted upstream DNS server is no loopback, multicast, broadcast or unspecified address |
| ConfigCompiler.GenerateConfig | src-tauri/src/config.rs:165-436 | fails exactly for a fault of the request (or bridge), with that fault; otherwise yields the whole document, native or bridged, with the stated bindings, final route and address family |
| ConfigCompiler.GeneratedIff | src-tauri/src/config.rs:165-436 | a document is generated exactly for an accepted request with a usable credential and the VPN DNS its policy needs, and a bridge only for a REALITY node |
| ConfigCompiler.GenerateValidated | src-tauri/src/config.rs:187-436 | for a validated request only a bad health credential or a missing VPN DNS can still fail |
| ConfigCompiler.GenerateRules | src-tauri/src/config.rs:309-391 | the loops build the specified rule list; no validated name is refused by the pattern printer |
| ConfigCompiler.GenerateInbounds | src-tauri/src/config.rs:213-253 | a tag names one inbound with the port and kind reserved for it, only the TUN is open beyond loopback, only the health listener asks for credentials, there is a TUN exactly in TUN mode, and its addresses are those whose networks the guard drops |
| ConfigCompiler.GenerateDns | src-tauri/src/config.rs:255-307 | with VPN DNS every query goes through the selected server and none to the bootstrap server; otherwise the final server and the resolver of the selected outbound are the local ones, native or bridged |
| ConfigCompiler.Close | src-tauri/src/config.rs:425-436 | the document is released exactly when the health listener is protected and, in TUN mode, the TUN's own networks are dropped and traffic leaves by the chosen adapter |
| ConfigCompiler.ClosingChecksAccept | src-tauri/src/config.rs:449-647 | the health, own-prefix and upstream checks accept every document generated from a valid request |
| ConfigCompiler.OwnAddressesHavePrefixes | src-tauri/src/config.rs:198-209 | the addresses of a validated request always canonicalize |
| ConfigCompiler.GeneratedConfigMeansPolicy | src-tauri/src/config.rs:309-436 | every generated document routes every connection as its policy declares |
| UiRouting.UiAcceptedIsValidIff | src/tauriController.ts:105-139 | a document the UI accepts gives the backend a valid policy exactly when no effective exact path has a file name over 260 bytes |
| UiRouting.LongFileNameIsRefused | src/tauriController.ts:117-120 | a concrete document the UI accepts and the backend refuses |
| UiRouting.SameKey | src/appRuleMatching.ts:15-19 | the UI's duplicate key of a rule is the key the backend computes for it |
| UiRouting.EqualKeysEquallyValid | src/tauriController.ts:149-151 | documents with equal routing keys are both valid for the backend or both invalid |
| UiRouting.SkipIsSound | src/tauriController.ts:145-151 | documents with equal routing key, TUN key and Naive flag compile to documents equal up to the text of their rules, which decide every connection identically |
| UiRouting.UnchangedRuntimeIsSound | src/tauriController.ts:1076-1095 | an edit that is saved without a reconnect leaves the running configuration deciding as the new one would |
| UiRouting.TunRuleEditSkips | src/tauriController.ts:1076-1095 | outside TUN mode an edit of a TUN rule alone keeps the routing key: a concrete pair of different documents that meets every premise of SkipIsSound |
| UiRouting.SavedRoutingReloads | src/tauriController.ts:105-139 | a validated document validates to itself, so what was saved reloads unchanged |
| UiDecisions.UiAcceptsIff | src/tauriController.ts:105-143 | the UI accepts exactly documents with readable texts, distinct identifiers and programs, and ports other than 53, and keeps them trimmed |
| UiDecisions.UiTrafficRuleDecides | src-tauri/src/config.rs:330-358 | inside the TUN the first enabled traffic rule of the document decides a connection, as the user chose |
| UiDecisions.UiAppRuleDecides | src/tauriController.ts:786-801 | a program with a route of its own is routed as the user chose, an exact path before a file name |
| UiDecisions.UiDefaultDecides | src-tauri/src/config.rs:383-391 | a program without one goes the default way, private destinations directly |
| UiDecisions.UiSettingsCompiled | src-tauri/src/config.rs:213-253 | the document's TUN stack and Naive setting reach the configuration |
| SecurityIdentity.Hasher.HashTaggedComponent | src-tauri/src/domain.rs:584-588 | appends the tag and the value, each with its length |
| SecurityIdentity.Hasher.HashTaggedBool | src-tauri/src/domain.rs:590-593 | appends the tag and one byte |
| SecurityIdentity.Hasher.HashTaggedOptional | src-tauri/src/domain.rs:595-602 | appends the tag, presence, and the value with its length when present |
| SecurityIdentity.Hasher.HashTaggedList | src-tauri/src/domain.rs:604-615 | appends the tag, the count, and each value with its length |
| SecurityIdentity.HashSecurityIdentity | src-tauri/src/domain.rs:540-576 | appends every TLS security field in order |
| SecurityIdentity.SecurityStream | src-tauri/src/domain.rs:188-196 | computes the whole stream of a node |
| SecurityIdentity.TaggedPrefix | src-tauri/src/domain.rs:579-615 | each tagged part can be read off the front of a stream: equal streams have equal parts and equal rests |
| SecurityIdentity.TlsInjective | src-tauri/src/domain.rs:540-576 | equal TLS streams come from equal TLS fields |
| SecurityIdentity.StreamInjective | src-tauri/src/domain.rs:188-196 | two nodes give the same stream exactly when their update keys are equal and they agree on having TLS and, if so, on every TLS field of the protocol |
| SecurityIdentity.ApprovalNeededIff | src-tauri/src/domain.rs:126-182 | approval is needed exactly by a node whose protocol uses TLS and skips its verification |
| SecurityIdentity.LengthReadsBack | src-tauri/src/domain.rs:579-588 | a length up to 64 bits is read back from its little-endian bytes |
| SecurityIdentity.PartBytes | src-tauri/src/domain.rs:579-588 | a tagged part is the length of its tag, the tag, the length of its value, the value |
| SecurityIdentity.ApprovalIsBound | src-tauri/src/domain.rs:79-96 | an approval is given exactly for a node that needs it, and with a collision-free digest matches exactly the nodes with the same update key and the same TLS fields, all of which need it |
| Versions.RenderOfParse | src-tauri/src/app_updates.rs:200-257 | rendering an accepted text's version gives back that exact text, and the version is well formed (no leading zeros, 64-bit numbers) |
| Versions.ParseOfRender | src-tauri/src/app_updates.rs:200-257 | every well-formed version of at most 64 bytes is read back from its rendering |
| Versions.CompareIsTotalOrder | src-tauri/src/app_updates.rs:259-282 | precedence is antisymmetric and transitive, and equal only for identical versions |
| Versions.CompareIsPrecedence | src-tauri/src/app_updates.rs:259-282 | the comparison is the precedence of section 11 of Semantic Versioning 2.0.0 |
| Versions.OfferedIffNewer | src-tauri/src/app_updates.rs:146-182 | an update is offered exactly for a published stable release, tagged with its canonical text, that the installed version precedes |
| UpdateChecker.AppUpdateChecker.TryBegin | src-tauri/src/app_updates.rs:58-73 | the cached result is returned exactly while younger than a minute; a fetch begins only when none runs; a caller waits only for a running fetch; nothing else changes |
| UpdateChecker.AppUpdateChecker.Complete | src-tauri/src/app_updates.rs:77-85 | the fetch is over and its result is cached at the current time |
| UpdateChecker.EveryRunIsGood | src-tauri/src/app_updates.rs:49-86 | in every run of any number of checks: at most one fetch in flight, at least a minute from the end of a fetch to the next begin, nobody waits without a running fetch, every check returns its own fetch or a result younger than a minute |
| UpdateChecker.CompleteWakesAll | src-tauri/src/app_updates.rs:84 | after a fetch nobody waits, and each woken check finds its result fresh |
| UpdateChecker.EveryCheckCanEnd | src-tauri/src/app_updates.rs:49-86 | from every moment of every run every check, begun or not, can still end |
| UpdateChecker.OthersStand | src-tauri/src/app_updates.rs:49-86 | a step moves only its own thread, except that the end of a fetch wakes those that wait |
| SourceLibrary.EntriesDistinct | src-tauri/src/application.rs:3829-3870 | node identifiers are distinct across all sources |
| SourceLibrary.DroppedIndex | src-tauri/src/application.rs:1376-1384 | dropping a source in place leaves the index of the remaining entries |
| SourceLibrary.SpliceLands | src-tauri/src/application.rs:1324-1350 | the block spliced at the place of the source's first node lands in source order |
| RefreshIds.CollectIds | src-tauri/src/application.rs:1279-1294 | the queues hold exactly the identifiers of the source's nodes by update key, in library order, and the nodes are counted |
| RefreshIds.AssignIds | src-tauri/src/application.rs:1295-1309 | the loop assigns what the occurrence-wise definition says; it fails only when a draw is needed and randomness fails |
| RefreshIds.RefreshKeepsIdentity | src-tauri/src/application.rs:1295-1309 | for every update key the first min(old, new) nodes keep the old identifiers in order, the others get drawn ones |
| LibraryOperations.CommittedIdentity | src-tauri/src/application.rs:1279-1322 | after a committed refresh the kept identifiers are the old ones, the others are new to the library, and all are distinct |
| LibraryOperations.IndexShape | src-tauri/src/application.rs:938-991 | in a consistent library identifiers are distinct, the order lists exactly the indexed nodes, at most 2000 |
| LibraryOperations.BlockStands | src-tauri/src/application.rs:951-965 | each source's nodes stand together, in source order |
| LibraryOperations.BlockOwns | src-tauri/src/application.rs:951-965 | no node of a source stands outside its block |
| LibraryOperations.BlockHolds | src-tauri/src/application.rs:3829-3870 | each node of a block has its stored identifier, or else the one its source and content give, and its record names its source |
| LibraryOperations.RestartKeeps | src-tauri/src/application.rs:938-991 | a restart rebuilds exactly the sources, order and nodes held in memory |
| LibraryOperations.ConfirmKeeps | src-tauri/src/application.rs:1188-1220 | an import, successful or not, keeps memory equal to the rebuild from disk |
| LibraryOperations.RemoveKeeps | src-tauri/src/application.rs:1358-1386 | a removal, successful or not, keeps memory equal to the rebuild from disk |
| LibraryOperations.RemoveDrops | src-tauri/src/application.rs:1364-1372 | exactly the removed source disappears |
| LibraryOperations.RemovedNodesAreGone | src-tauri/src/application.rs:1376-1379 | no node of a removed source is left |
| LibraryOperations.ResetKeeps | src-tauri/src/application.rs:1388-1412 | a reset, successful or not, keeps memory equal to the rebuild from disk |
| LibraryOperations.RefreshKeeps | src-tauri/src/application.rs:1269-1355 | a refresh, successful or not, keeps memory equal to the rebuild from disk |
| LibraryOperations.RefreshLeavesOthers | src-tauri/src/application.rs:1324-1350 | the other sources' nodes and their relative order are untouched |
| LibraryOperations.ImportCommitsIff | src-tauri/src/application.rs:1106-1221 | an import is committed exactly when nothing runs, the preview is pending, the name and the grown library are acceptable, and it can be saved |
| LibraryOperations.ImportedRecord | src-tauri/src/application.rs:1127-1186 | an import records the content, kind and address of its preview, the given or a numbered name, revision 0 and the time |
| LibraryOperations.RefreshCommitsIff | src-tauri/src/application.rs:1255-1322 | a refresh is committed exactly when fetched, complete, of an unchanged source that is not in use, within the limits, and saved |
| LibraryOperations.RefreshedRecord | src-tauri/src/application.rs:1269-1322 | a refresh records the same source one revision up with the fetched content, its address and the time |
| ServerLibrary.Controller.BeginRefresh | src-tauri/src/application.rs:1232-1254 | a refresh begins exactly for a subscription with an address that is not in use, and hands out its record |
| ServerLibrary.ValidateSources | src-tauri/src/subscription_store.rs:77-127 | the validation loops accept exactly at most 64 sources with distinct identifiers, at most 10 MiB in all, each of them acceptable by itself |
| ServerLibrary.RebuildEntries | src-tauri/src/application.rs:943-968 | the restore loop yields the simple rebuild, or nothing when a source is unusable or there are more than 2000 nodes |
| ServerLibrary.Controller.constructor | src-tauri/src/application.rs:971-990 | the controller starts as the library restored from disk |
| ServerLibrary.Controller.ReserveSlot | src-tauri/src/application.rs:590-608 | a slot is given exactly while fewer than four previews are pending or in progress |
| ServerLibrary.Controller.DropSlot | src-tauri/src/application.rs:644-655 | an unused slot is given back |
| ServerLibrary.Controller.CommitPreview | src-tauri/src/application.rs:610-641 | the slot is given back and the preview stored, unless its token is already taken |
| ServerLibrary.Controller.ConfirmImport | src-tauri/src/application.rs:1106-1221 | a successful import appends one source with the preview's content and consumes the preview; it succeeds exactly when nothing runs and the result is acceptable and saved; otherwise the fields are unchanged |
| ServerLibrary.Controller.RefreshSource | src-tauri/src/application.rs:1255-1355 | commits exactly a fetched, complete report of an unchanged source not in use, one revision up; an incomplete report, a failed check or a failed save changes nothing |
| ServerLibrary.Controller.RemoveSource | src-tauri/src/application.rs:1358-1386 | a source is removed exactly when it is listed, the running session is on another source, no recovery awaits, and the save succeeds; otherwise nothing changes |
| ServerLibrary.Controller.ResetLocalState | src-tauri/src/application.rs:1388-1412 | clears sources, order, nodes and previews exactly when no session is active and the store can be cleared |
| LibraryRuns.EveryRunKeepsIndex | src-tauri/src/application.rs:938-1412 | from any store or none, in every interleaving of imports, in-flight refreshes, removals, resets and restarts, memory is what a restart would rebuild from the disk |
| LibraryRuns.EveryRunIsLinear | src-tauri/src/application.rs:1232-1386 | in every such run each commit replaces the immediately preceding record of its source one revision up, new sources count from revision 0, and a removed source never reappears |
| LibraryRuns.ActiveSourceIsUntouched | src-tauri/src/application.rs:3806-3827 | in every run, from a moment with a session on a listed node until the session changes, whatever imports, refreshes, removals and resets happen leave that node and its source unchanged |
| RuntimeStatus.RevisionGate.Accept | src/tauriContract.ts:572-584 | lets through strictly newer revisions only |
| RuntimeStatus.RevisionGate.AcceptAll | src/tauriContract.ts:572-584 | what passes of any arrival order is the specified subsequence |
| RuntimeStatus.GateShowsNewest | src/tauriContract.ts:571-584 | whatever the order and repetition, what passes rises strictly and ends with the newest snapshot that arrived |
| SessionSafety.StopActiveSafe | src-tauri/src/application.rs:2780-2923 | a teardown restores first, then stops, then lets go; completed cleanup leaves no session, an incomplete one waits for recovery |
| SessionSafety.RollBackProxySafe | src-tauri/src/application.rs:1894-1966 | undoing a failed System Proxy start restores Windows before stopping the core |
| SessionSafety.StepSafe | src-tauri/src/application.rs:1417-3615 | every step of the machine keeps the retained session equal to what runs and to what Windows is owed |
| SessionSafety.EveryRunIsSafe | src-tauri/src/application.rs:1417-3615 | the same for every run, whatever the services answer and however the steps interleave |
| SessionSafety.LedgerMeansOrder | src-tauri/src/application.rs:2776-2779 | a ledger without violation means: at most one session and one unrestored publication, stops only when nothing is owed, restorations only of what is owed, a release only right after the successful stop of that session's core |
| SessionSafety.RestoreBeforeStop | src-tauri/src/application.rs:2706-2718 | in every run a session with its restore flag set is retained exactly while Windows may point at RouteDeck, and published revisions rise |
| SessionSafety.StaleProbeChangesNothing | src-tauri/src/application.rs:3440-3444 | a probe of a session that has ended changes nothing, whatever runs now; one that changes something measured the running session |
| SessionSafety.StartCoreSafe | src-tauri/src/application.rs:2327-2762 | a start, whatever fails, leaves the retained session equal to what runs and to what Windows is owed |
| SessionSafety.TakeOverSafe | src-tauri/src/application.rs:2691-2739 | taking over the Windows proxy sets the restore flag exactly while Windows may point at the session |
| SessionSafety.RollBackLocalSafe | src-tauri/src/application.rs:1615-1674 | undoing a failed local start leaves nothing, or the same session waiting for recovery |
| SessionStops.IntentIsSetAndDropped | src-tauri/src/application.rs:1677-1722 | over all steps, only an admitted System Proxy call sets the intent and only the call of a stop drops it |
| SessionStops.IntentIsAnUncancelledAsk | src-tauri/src/application.rs:1677-1722 | after a cancellation an intent exists exactly when some admitted call has not been followed by a stop |
| SessionStops.EveryRunBoundsRetry | src-tauri/src/application.rs:3055-3129 | in every run the next attempt of the intent is at most a minute ahead |
| SessionStops.StopIsQuietIff | src-tauri/src/application.rs:2764-2774 | a stop that completes leaves no session and no intent exactly when every connection admitted between its call and its turn was cancelled by another stop |
| SessionStops.QuietUntilAsked | src-tauri/src/application.rs:3131-3253 | without session and intent neither the monitor nor the reconnection ever starts a core |
| SessionStops.StoppedMeansStopped | src-tauri/src/application.rs:2764-2774 | after such a stop, called even during a reconnection, no core starts until a connection is asked for again |
| SessionStops.SurvivingIntentReconnects | src-tauri/src/application.rs:3131-3253 | in every run, an unpaused intent that survived a completed stop starts exactly one core at the tick a minute later, whenever the engine launches and neither recovery nor shutdown forbids it |
| SessionProbes.CountIsFailedProbes | src-tauri/src/application.rs:3450-3543 | in every run the count of a running session is the number of its probe results without proof since the last one with proof |
| SessionProbes.TornDownAfterSixFailures | src-tauri/src/application.rs:3131-3165 | in every run a reconnection touches a running session only in System Proxy mode and after six such results in a row |
| SessionOutcomes.LockAfter | src-tauri/src/application.rs:1417-3253 | after every step, which command holds the operation lock and where it is |
| SessionOutcomes.ScheduleAfter | src-tauri/src/application.rs:3101-3129 | the end of an attempt counts or resets the failures and schedules the next one by their number; a completed stop leaves no session; a recovery ends exactly when files and journal are clean |
| SessionOutcomes.MonitorAfter | src-tauri/src/application.rs:3301-3584 | after every step, whether a probe or a warm measurement is under way and of which session |
| SessionExamples.IntentSurvivesStop | src-tauri/src/application.rs:2764-2774 | a run in which a stop completes, an intent survives it, and a core is started again |
| SessionContract.UpdateAccepted | src-tauri/src/application.rs:3617-3648 | an update whose phase fits the rows and the session publishes an acceptable snapshot |
| SessionContract.ResetSound | src-tauri/src/application.rs:3657-3664 | the reset to the disconnected snapshot is acceptable |
| SessionContract.StartCoreReady | src-tauri/src/application.rs:2327-2762 | a start that does not fail ends with the requested session running, ready, and its restore flag set exactly in System Proxy mode |
| SessionContract.RollBackLocalSound | src-tauri/src/application.rs:1615-1674 | every snapshot of undoing a failed local start is acceptable |
| SessionContract.RollBackProxySound | src-tauri/src/application.rs:1894-1966 | every snapshot of undoing a failed System Proxy start is acceptable |
| SessionContract.StartCoreSound | src-tauri/src/application.rs:2327-2762 | every snapshot of a start is acceptable, up to a ready session or a state that can be undone |
| SessionContract.StopActiveSound | src-tauri/src/application.rs:2780-2923 | every snapshot of a teardown is acceptable |
| SessionContract.MonitorBeginSound | src-tauri/src/application.rs:3301-3394 | every snapshot of the monitor's first section is acceptable |
| SessionContract.MonitorResultSound | src-tauri/src/application.rs:3436-3613 | every snapshot of a probe result is acceptable |
| SessionContract.MonitorWarmSound | src-tauri/src/application.rs:3544-3584 | every snapshot of the warm measurement is acceptable |
| SessionContract.FinishAttemptSound | src-tauri/src/application.rs:3101-3129 | the retry schedule announced after an attempt is acceptable: at most 60 s, never while paused |
| SessionContract.FinishProxyIff | src-tauri/src/application.rs:1776-1867 | the re-verification of a System Proxy publishes only acceptable snapshots exactly when the process row is passed on success, and the ownership row failed when blocked |
| SessionContract.FinishLocalIff | src-tauri/src/application.rs:1477-1612 | the re-verification of a local proxy publishes only acceptable snapshots exactly when the process row is passed on success |
| SessionContract.StepSoundIff | src-tauri/src/application.rs:1417-3615 | each step publishes only snapshots the UI accepts exactly when it is not one of those two |
| SessionContract.EveryPublishedSnapshotIsAccepted | src/tauriContract.ts:247-413 | in every run without those steps every published snapshot satisfies all the UI's rules |
| SessionExamples.BlockedWithoutFailedOwnership | src-tauri/src/application.rs:1848-1867 | a run that reports a taken-over proxy with the ownership row still passed, which the UI rejects |
| SessionExamples.ReadyWithFailedProcess | src-tauri/src/application.rs:1797-1847 | a run that reports a ready session while recovery is required and the process row is failed, which the UI rejects |
| SessionExamples.LocalReadyWithFailedProcess | src-tauri/src/application.rs:1488-1527 | a run that reports a ready local session with the process row failed, which the UI rejects |
| SessionController.Controller.constructor | src-tauri/src/application.rs:822-846 | begins settled: nothing runs, Windows does not point here, and recovery is required exactly when something was left over |
| SessionController.Controller.SyncReconnectStatus | src-tauri/src/application.rs:3082-3099 | a retry is announced only while one is wanted, not paused, nothing runs and no recovery is required, and the flags then satisfy the UI |
| SessionController.Controller.StartLocalProxy | src-tauri/src/application.rs:1417-1475 | never replaces a running session and verifies exactly the requested one; from rest it ends ready exactly when no service fails, else with the first failure reported and nothing left once its cleanup succeeds |
| SessionController.Controller.FinishLocalVerification | src-tauri/src/application.rs:1488-1612 | confirms the living session with its measurement, replaces a session that fails, and leaves another alone; the published snapshots are acceptable exactly when a confirmed session has its process row passed |
| SessionController.Controller.RequestSystemProxy | src-tauri/src/application.rs:1677-1717 | admits exactly a valid, known request that nothing forbids, and then replaces the intent by one due in two seconds |
| SessionController.Controller.StartSystemProxyLocked | src-tauri/src/application.rs:1724-1776 | ends with the requested session ready exactly when it starts from rest and no service fails; otherwise, with cleanup successful, at rest with the first failure reported, or else awaiting recovery; a running session is left alone, and verified exactly when requested |
| SessionController.Controller.FinishProxyVerification | src-tauri/src/application.rs:1797-1867 | succeeds exactly for a proven, living and owned session, else reports it degraded or, not owned, blocked; the published snapshots are acceptable exactly when the process row is passed on success and the ownership row failed when blocked |
| SessionController.Controller.FinishConnectionAttempt | src-tauri/src/application.rs:3101-3129 | counts or resets failures, schedules the retry 2, 4, 8, 16, 32 or 60 seconds ahead by their number, pauses exactly for the errors a retry cannot mend, announces a retry only when it may come |
| SessionController.Controller.CancelConnection | src-tauri/src/application.rs:2764-2769 | no retry is wanted or announced any more; nothing is published and the session is untouched |
| SessionController.Controller.Stop | src-tauri/src/application.rs:2770-2774 | completes exactly when Windows is restored as owed, the core stopped and the files reconciled, and then nothing runs; a foreign proxy ends the session and pauses the intent; otherwise the session awaits recovery |
| SessionController.Controller.BeginSessionRecovery | src-tauri/src/application.rs:2925-2938 | goes on only when recovery is required and no session is retained; a retained one is torn down first |
| SessionController.Controller.FinishSessionRecovery | src-tauri/src/application.rs:2939-2976 | recovery ends exactly when session files and the journal are reconciled |
| SessionController.Controller.TickReconnect | src-tauri/src/application.rs:3131-3253 | reconnects exactly a due, unpaused intent from rest, or after tearing down a System Proxy session with six failed probes; any other session is left alone |
| SessionController.Controller.BeginProbe | src-tauri/src/application.rs:3301-3408 | a session whose process is lost is torn down or awaits recovery; a lost Windows proxy blocks or degrades it; a snapshot is taken exactly of a living, owned session whose last one is ten seconds old |
| SessionController.Controller.FinishProbe | src-tauri/src/application.rs:3436-3613 | a result of another session or generation changes nothing; a latency resets the count of failures and reports the session ready, a failure counts and from the second on degrades it |
| SessionController.Controller.FinishWarmMeasurement | src-tauri/src/application.rs:3544-3584 | the warm latency is shown only for the measured session while it is ready and without error |
| Reconciler.NewWishIsQueued | src/tauriController.ts:773-777 | a new wish to connect leaves an operation in the queue |
| Reconciler.CallsKeepOrder | src/tauriController.ts:678-687 | whatever the user calls, an operation that only stops is last only when no connection is wanted |
| Reconciler.WantedIffLastWish | src/tauriController.ts:773-836 | after any calls a connection is wanted exactly when the last of connect, disconnect, retry and reset asks for one |
| Reconciler.ModeIsLastSet | src/tauriController.ts:793-805 | after any calls the mode is the last one set |
| Reconciler.RevisionCountsChanges | src/tauriController.ts:1076-1095 | after any calls the routing revision counts the changes of the rules |
| Reconciler.SelectionIsLastMade | src/tauriController.ts:756-791 | after any calls the selection is the last listed server selected, or what a later import keeps or picks |
| Reconciler.TauriController.StopRuntime | src/tauriController.ts:689-697 | succeeds exactly when the command does and the runtime then reports disconnected |
| Reconciler.TauriController.Approach | src/tauriController.ts:714-745 | one command; in a turn without user calls the distance to the wanted state shrinks; a stop, a switch or a start that the runtime confirms succeeds |
| Reconciler.TauriController.GiveUp | src/tauriController.ts:746-751 | after an error the wish is dropped unless still pursued, and a cancelled session is torn down |
| Reconciler.TauriController.ReconcileConnection | src/tauriController.ts:699-752 | the loop ends whenever the user acts finitely often; returning normally with nothing queued, the runtime is as wanted; undisturbed it connects when the runtime lets it, and gives no command to a connection that stands |
| Reconciler.TauriController.StopOperation | src/tauriController.ts:807-814 | the queued disconnect ends with the runtime as wanted, and succeeds exactly when the runtime reports the stop |
| Reconciler.TauriController.RetryOperation | src/tauriController.ts:822-836 | a retry ends with the runtime as wanted, or with nothing wanted any more |
| Reconciler.TauriController.Reload | src/tauriController.ts:847-869 | no server of another source is lost and none of a removed source remains; the selected server stays selected while it is listed |
| Reconciler.TauriController.RefreshOperation | src/tauriController.ts:871-905 | exactly a refresh of the running session's source stops and re-establishes it; while the runtime stands still any other leaves a runtime as wanted so |
| Reconciler.TauriController.RemoveOperation | src/tauriController.ts:907-925 | no server of the removed source is listed afterwards; undisturbed the wish is dropped exactly when the running session is of that source |
| Reconciler.TauriController.ResetOperation | src/tauriController.ts:1185-1215 | no server, selection or routing revision is left |
| Reconciler.TauriController.Perform | src/tauriController.ts:678-687 | an operation runs exactly when the call needs one; the queue drains; if its last operation settles the connection and returned normally, the runtime is the selected server in the chosen mode with the saved rules, or no session exists; without further calls the intent is what the call asks for |

## Left out

- TUN sessions of the controller: starting, restarting and switching an owned TUN core and its capture proof; the session runs are those of the local and System Proxy modes. The reconciler's TUN branch and the compiler's TUN mode are modelled.
- Engines, processes, privileges, adapters, HTTP, files, IPC and JSON text: services answer through parameters, documents and snapshots are typed records.
- SHA-256: the input of the approval hash is modelled, the digest is a parameter.
- Unicode case folding, locale comparison and the regular-expression features outside the generated patterns.
- IPv6 text: addresses and prefixes are numbers; the text form is only malformed or well formed.
- The outbound's own fields (server, transport, TLS) and error messages: an outbound keeps its kind, bindings and resolver, an error its stage or kind.
- Redaction of source names next to the nodes' secrets: whether a name is acceptable is a service.
- A library without a store: saving always goes to the store, which may fail.
- The 64-bit saturation of snapshot revisions and of failure counts, which needs more events than a run can have.
- The portable-update guard, clearing a foreign proxy and diagnostics.
- The UI's adoption of the backend's intent when no operation is queued.
- Reconciler.TauriController.Perform: while an operation runs, whether saved rules are still pending is an answer of the environment, because snapshots may arrive between the user's calls.
- Panics, poisoned locks and the closing of the event channel at shutdown.
- AppRuleMatching.PatternMatchesBasename: stated for ASCII names and paths, because the engine's Unicode folding is not modelled.
- RoutePolicy.Validate: its duplicate keys fold ASCII letters only, where the source folds Unicode; for ASCII rules they are the same.
- RouteRules.AppRuleMeaning: stated for ASCII names and paths, for the same reason.
- RouteRules.AppRulesMeaning: stated for ASCII names and paths, for the same reason.
- RouteRules.CompiledRulesMeanPolicy: stated for ASCII names and paths, for the same reason.
- RouteRules.OrderIsIrrelevant: stated for ASCII names and paths, for the same reason.
- ConfigCompiler.GeneratedConfigMeansPolicy: stated for ASCII names and paths, for the same reason.
- UiRouting.UiAcceptedIsValidIff: stated for ASCII documents, because trimming and folding of the two languages differ beyond.
- UiRouting.SameKey: stated for ASCII rules, for the same reason.
- UiRouting.EqualKeysEquallyValid: stated for ASCII documents, for the same reason.
- UiRouting.SkipIsSound: stated for ASCII documents, for the same reason.
- UiRouting.UnchangedRuntimeIsSound: stated for ASCII documents, for the same reason.
- UiRouting.SavedRoutingReloads: stated for ASCII documents, for the same reason.
- UiDecisions.UiAcceptsIff: trims the white space the backend trims; for ASCII texts the UI trims the same.
- UiDecisions.UiTrafficRuleDecides: stated for ASCII documents, for the same reason.
- UiDecisions.UiAppRuleDecides: stated for ASCII documents, for the same reason.
- UiDecisions.UiDefaultDecides: stated for ASCII documents, for the same reason.
- SessionSafety.StaleProbeChangesNothing: assumes distinct random session identifiers, as the code relies on.
