# JuggleWork: protocols and algorithms, verified

This project models the parts of JuggleWork that behave like protocols or algorithms, and proves what
they keep over every input, every failure and every interleaving. `dafny verify dfyconfig.toml` checks
all of it.

| file | what it models |
|---|---|
| `Diagnostics.dfy`, `UrlText.dfy` | the Agent-context report builder against the report schema that validates it |
| `CloudProbe.dfy`, `Sse.dfy` | the three-request MCP catalog probe, its shared byte budget and its event-stream parser |
| `Glob.dfy` | the glob-to-regular-expression compiler and last-match-wins rules |
| `PercentDecoding.dfy` | the bounded percent-decoding closure behind the sensitive-text check |
| `ProviderRuntime.dfy`, `CloudSync.dfy` | staged, non-transactional imports and removes, and the reconciliation over them |
| `ModelSelection.dfy` | which model a synchronised run uses |
| `RunPrompt.dfy` | the prompt loop: deltas, interactions, run slot |
| `Composer.dfy` | the line editor with a scrolling menu |
| `Redaction.dfy` | secret redaction over JSON trees |
| `Cdp.dfy` | the debugger request multiplexer |
| `BoundedMap.dfy` | the bounded-concurrency mapper |
| `LineFraming.dfy` | chunked output cut into lines, and the start that settles once |
| `Bootstrap.dfy` | the bootstrap file merged over repeated installs |
| `Common.dfy`, `Json.dfy` | shared datatypes and sequence vocabulary |

Objects and loops of the source are classes and loops here, each proved against a function of its inputs
or its old state; the theorems are about those functions and about whole runs.

## Where the code does less than it seems to promise

Each of these is proved as an exact condition, with the failing inputs or a failing run beside it.

- The report builder can refuse its own report. The probe trims the endpoint before parsing it, the
  report's path evidence does not; a no-break space in front of the URL passes the first and fails the
  second, and the report is rejected exactly when tools/list ran over such a URL
  (`Diagnostics.BuiltReportAccepted`, `Diagnostics.PaddingRejectsTheReport`).
  Adding a server refuses surrounding white space (apps/server/src/validators.ts:58-64); a config patch
  stores its `mcp` section unvalidated (apps/server/src/server.ts:4003-4077).
- Importing a provider again after it has lost its key writes a baseline without its mirror, and the
  stored mirror can no longer be removed (`ProviderRuntime.ImportAccountedIff`,
  `ProviderRuntime.KeylessReimportLeaksTheMirror`).
- A run still held when the prompt fails need not have been asked to stop: a stop accepted for an earlier
  run is taken for its own (`RunPrompt.AskedIff`, `RunPrompt.StopForAnotherRun`).
- Redaction can restore a secret that overlaps its marker. The condition is exact for a single secret
  (`Redaction.RestorableIff`) and for any number of secrets without square brackets
  (`Redaction.BracketFreeSecretsIff`); for several secrets with brackets `Redaction.RedactedTreeIsClean`
  gives a sufficient one.
- Redaction drops own properties named `__proto__` (`Redaction.ShapeKeptIff`).

## Assumptions

They appear as preconditions or parameters, never as axioms.

- URL parsing, JSON parsing, `Date.parse`, UTF-8 and NFKC are parameters. `UrlText.UrlLaws` states what
  is used of the URL parser: C0 controls and spaces around a URL are dropped, a URL starts with a
  letter, and a character above the ASCII range at the end of a path is percent-encoded.
  `PercentDecoding.AsciiLaws` states that ASCII is in NFKC and its bytes decode to themselves.
- MCP server names are unique keys of one configuration object (`Diagnostics.UniqueNames`).
- Provider ids are distinct, contain no slash (`ModelSelection.WellKeyed`) and need no trimming, so that
  the managed id of a publication is its id, as packages/cloud-provider/src/index.ts builds it.
- One CLI at a time mutates a workspace's Cloud providers.
- In `RunPrompt`, the streams theorem asks that the text of a part only grows and that
  `messageId:partId` keys are distinct within a snapshot (`RunPrompt.AppendOnly`); everything else holds
  of arbitrary snapshots.
- A stop request of the user takes effect between two turns of the prompt loop (`RunPrompt.Poll.stop`).
- A connection and the listing it was requested for carry the same environment list, so a provider that
  needs its own mirror has a non-empty one (`CloudSync.Matches`).
- That a command menu is full after every key is claimed for menus in which no command's name matches more
  than eight entries (`Composer.ShortCompletions`), which the fixed menu of apps/cli/src/cli.ts:95-117 is.
- A WebSocket opens at most once and a cleared timer does not fire (`Cdp.Enabled`).

## Model

| member | source | states |
|---|---|---|
| `Diagnostics.RunDiagnostics` | apps/server/src/agent-context-diagnostics.ts:875-1616 | the whole builder, with the registrations and handshake it observes arbitrary: a request the schema refuses yields nothing; otherwise a report is returned exactly unless tools/list ran over a URL whose padding only `trim()` removes; the probe slot is released again |
| `Diagnostics.BuiltReportAccepted` | apps/server/src/agent-context-diagnostics-schema.ts:412-564 | for every workspace, engine snapshot, registration map and probe outcome the built report meets all cross-field rules, if and only if it is not the case that tools/list ran over such a padded URL |
| `Diagnostics.NoBreakSpaceIsLost` | apps/server/src/agent-context-diagnostics.ts:374-394 | the failing family is inhabited: put a no-break space before the URL of any workspace the probe is prepared for; it is prepared as before, for the same endpoint and credential, and the path evidence is gone |
| `Diagnostics.PaddedRunIsRejected` | apps/server/src/agent-context-diagnostics-schema.ts:412-564 | over such a URL the built report breaks the cross-field rules exactly when the probe gets as far as tools/list: prepared, admitted, and past initialize and its acknowledgement |
| `Diagnostics.PaddingRejectsTheReport` | apps/server/src/agent-context-diagnostics.ts:875-1616 | the two together, over one workspace: any run that gets as far as tools/list has its report accepted, and the same run with a no-break space before the cloud URL has it rejected |
| `Diagnostics.PathEvidenceIff` | apps/server/src/agent-context-diagnostics.ts:374-394 | for an endpoint the probe accepts, the report carries path evidence exactly when the padding is plain for the URL parser too |
| `Diagnostics.RetainedRowIff` | apps/server/src/agent-context-diagnostics.ts:1018-1037 | a connected cloud entry has a retained row that satisfies the schema exactly when it has path evidence, so truncation to 200 rows never decides |
| `Diagnostics.CloudItemIsKept` | apps/server/src/agent-context-diagnostics.ts:1024-1037 | the cloud item survives the truncation to 200 rows, by the replacement of slot 199 where it fell off |
| `Diagnostics.KeptRows` | apps/server/src/agent-context-diagnostics.ts:1018-1037 | at most 200 indices, all of them when there are no more; each is its own position except that slot 199 may hold the cloud entry, which is always kept when there is one |
| `Diagnostics.RestAccepted` | apps/server/src/agent-context-diagnostics-schema.ts:412-564 | the rules that do not depend on tools/list hold of every built report |
| `Diagnostics.EngineRulesHold` | apps/server/src/agent-context-diagnostics-schema.ts:412-564 | engine evidence rules: an observed engine was read, and effective rows appear only with it |
| `Diagnostics.AssessEffectiveToolPolicy` | apps/server/src/agent-context-diagnostics.ts:113-159 | the decision per required tool id is the last-match decision, denied is exactly the required ids that are denied, in their order, and the status is denied exactly when that list is not empty |
| `Diagnostics.RegistrationMemo.For` | apps/server/src/agent-context-diagnostics.ts:1038-1048 | each item is inspected at most once, and what is remembered never changes |
| `Diagnostics.ReportRows` | apps/server/src/agent-context-diagnostics.ts:1050-1103 | the retained rows and the registration status handed to the probe come from the same memo |
| `Diagnostics.PermittedMeans` | apps/server/src/agent-context-cloud-probe.ts:225-259 | a permitted probe implies a passed policy, an effective engine and a connected, enabled remote cloud entry, the facts the report rules ask for |
| `UrlText.PlainPaddingAgrees` | apps/server/src/agent-context-cloud-probe.ts:193-211 | where all trimmed characters are also dropped by the URL parser, trimming first changes nothing |
| `UrlText.OtherPaddingLosesThePath` | apps/server/src/agent-context-diagnostics.ts:374-394 | with any other padding the untrimmed URL is refused or its path no longer ends at the route |
| `CloudProbe.PerformProbe` | apps/server/src/agent-context-cloud-probe.ts:526-614 | tools/list is attempted exactly after a valid initialize result and a 2xx acknowledgement; observed is reported exactly when every phase passed, and then with exactly the two required ids; for every other outcome of every phase, an answered and refused tools/list included, the reported code and HTTP status are those of the first failure; the remaining budget is the limit minus the bytes accepted |
| `CloudProbe.ProbeRun.Attempt` | apps/server/src/agent-context-cloud-probe.ts:540-585 | the phases in order: exactly which requests were sent, which bytes accepted, and which failure and last HTTP status result, before tools/list and in it |
| `CloudProbe.ProbeRun.Initialize` | apps/server/src/agent-context-cloud-probe.ts:541-560 | initialize succeeds exactly on a 200 answer with a valid result and session headers, and fails with the first thing that is wrong |
| `CloudProbe.ProbeRun.Acknowledge` | apps/server/src/agent-context-cloud-probe.ts:562-572 | the acknowledgement succeeds exactly on a 2xx answer whose body can be drained within what the first body left of the budget |
| `CloudProbe.ProbeRun.Open` | apps/server/src/agent-context-cloud-probe.ts:541-572 | the two together: their outcome, the requests sent, and the bytes taken from the shared budget |
| `CloudProbe.ProbeRun.List` | apps/server/src/agent-context-cloud-probe.ts:574-585 | tools/list is marked as performed before it is sent, and succeeds exactly on a valid two-tool answer within the remaining budget |
| `CloudProbe.ProbeRun.ReadBoundedBody` | apps/server/src/agent-context-cloud-probe.ts:309-354 | the accepted bytes are the concatenation of the chunks that fit the shared budget, and the text is theirs |
| `CloudProbe.RunWithinBudget` | apps/server/src/agent-context-cloud-probe.ts:309-354 | over every run the three responses together contribute at most 65536 bytes |
| `CloudProbe.ObservedRunReadsWholeBodies` | apps/server/src/agent-context-cloud-probe.ts:309-354 | an observed run has read all three bodies completely, however they were cut into chunks |
| `CloudProbe.ParseToolIds` | apps/server/src/agent-context-cloud-probe.ts:405-427 | succeeds exactly on a JSON-RPC result with one page holding the two required tools in either order, and then returns the required ids themselves |
| `CloudProbe.PrepareIffPermitted` | apps/server/src/agent-context-cloud-probe.ts:225-259 | the gate opens if and only if every condition holds: local workspace, runtime configuration, an enabled remote cloud entry, passed policy, effective engine, connected registration, well-formed request id, a safe URL at a trusted or loopback origin, and exactly one authorization header, holding a bearer credential |
| `CloudProbe.PreparedMeans` | apps/server/src/agent-context-cloud-probe.ts:174-259 | what is prepared is the trimmed URL parsed, and the one bearer credential of the entry |
| `CloudProbe.OnlyEndpointMatters` | apps/server/src/agent-context-cloud-probe.ts:193-259 | of the URL text only the endpoint it stands for matters to the gate |
| `CloudProbe.ProbeCatalog` | apps/server/src/agent-context-cloud-probe.ts:622-669 | a probe runs exactly when not aborted, prepared, and fewer than 16 run; it is permitted then; tool ids are present exactly on an observed result; the set of active probes is restored |
| `CloudProbe.ProbeGate.Enter` | apps/server/src/agent-context-cloud-probe.ts:622-669 | the gate admits at most 16 probes |
| `Sse.ParseSse` | apps/server/src/agent-context-cloud-probe.ts:364-394 | the line loop with its mutable event, data and messages refines the event-stream reading of section 9.2.6 of the WHATWG HTML standard, except that a final unterminated event is dispatched |
| `Sse.SplitRendered` | apps/server/src/agent-context-cloud-probe.ts:364-372 | the three line endings are split back into exactly the printed lines |
| `Sse.StreamMessages` | apps/server/src/agent-context-cloud-probe.ts:364-394 | any printed stream of blocks yields one message per block that has data, in order, with any comments, unknown fields or event types between, as long as the last event type of a block with data is none or `message`, and the last block even without its blank line |
| `Sse.OtherEventsRefused` | apps/server/src/agent-context-cloud-probe.ts:364-394 | one block with data and any other last event type refuses the whole stream, an unterminated last block included |
| `Sse.RoundTrip` | apps/server/src/agent-context-cloud-probe.ts:364-394 | a payload printed as data lines with any filler and any line endings parses back to exactly that payload |
| `Sse.PlainRoundTrip` | apps/server/src/agent-context-cloud-probe.ts:364-394 | the round trip for every payload without carriage returns and LF, CR or CRLF throughout |
| `Sse.OneMessageRequired` | apps/server/src/agent-context-cloud-probe.ts:364-394 | a stream with no message or with more than one is refused, and a stream with one is read as that one, whether or not its last block is terminated |
| `Glob.WildcardIsGlob` | apps/server/src/agent-context-engine-inspection.ts:143-155 | for every pattern and value, the regular expression the four rewrites produce, parsed and matched by backtracking, accepts exactly the declarative glob language |
| `Glob.TranslationParses` | apps/server/src/agent-context-engine-inspection.ts:143-155 | every translated pattern is a valid expression, so the `catch` is never reached |
| `Glob.EffectiveToolDecision` | apps/server/src/agent-context-engine-inspection.ts:160-171 | the forward scan gives the verdict of the last matching rule, and allow when none matches |
| `Glob.DecisionIsLastMatch` | apps/server/src/agent-context-engine-inspection.ts:160-171 | there is a last matching rule whenever one matches, and it decides |
| `Glob.EarlierRulesIrrelevant` | apps/server/src/agent-context-engine-inspection.ts:160-171 | rules before the last match change nothing |
| `Glob.NonMatchingRulesIrrelevant` | apps/server/src/agent-context-engine-inspection.ts:160-171 | rules that do not match may be inserted anywhere |
| `Glob.DeniedIffLastGlobDenies` | apps/server/src/agent-context-engine-inspection.ts:157-171 | a tool is hidden exactly when the last rule whose glob covers it is a whole-resource deny |
| `PercentDecoding.DecodeIsRunwise` | apps/server/src/agent-context-diagnostics-schema.ts:78-95 | both branches of the decoder decode octet run by octet run (section 2.1 of RFC 3986), malformed runs octet by ASCII octet |
| `PercentDecoding.FallbackAgrees` | apps/server/src/agent-context-diagnostics-schema.ts:78-95 | where strict decoding succeeds, the fallback would have given the same text |
| `PercentDecoding.DecodeEncode` | apps/server/src/agent-context-diagnostics-schema.ts:78-95 | decoding undoes one layer of encoding of ASCII text, whatever the spelling of each octet |
| `PercentDecoding.DiagnosticTextVariants` | apps/server/src/agent-context-diagnostics-schema.ts:97-138 | the growing set and the early exit compute the full closure: the chain of twelve decodings and four growth rounds, and whether decoding is incomplete |
| `PercentDecoding.LateRoundsAddNothing` | apps/server/src/agent-context-diagnostics-schema.ts:108-114 | rounds after the first that changes nothing add no variant |
| `PercentDecoding.NoDepthHides` | apps/server/src/agent-context-diagnostics-schema.ts:65-148 | a text that becomes sensitive after any number of decodings is reported |
| `PercentDecoding.NestedEncodingIsCaught` | apps/server/src/agent-context-diagnostics-schema.ts:140-148 | sensitive ASCII text under any number of encoding layers in any spelling is reported |
| `PercentDecoding.ShallowNestingIsComplete` | apps/server/src/agent-context-diagnostics-schema.ts:115-119 | text with nothing left to decode, under at most twelve layers, is not reported as incomplete |
| `ProviderRuntime.Runtime.ImportProvider` | apps/cli/src/provider-command.ts:45-85 | whatever requests are lost, refused or lose their answers: the calls take effect up to the first that fails, that one too if only its answer was lost, and no further; the error names the stage of that call and lists exactly the stages before it; success means all calls and all eight stages |
| `ProviderRuntime.ImportCompletesIff` | apps/cli/src/provider-command.ts:45-85 | an import completes if and only if the connection is the requested one and publishable, the host accepts every call, and none of its requests meets a fault |
| `ProviderRuntime.ImportIsAccepted` | apps/server/src/routes/provider-auth.ts:100-195 | over baselines the CLI writes, the host accepts every call of an import of a publishable connection if and only if it accepts the id |
| `ProviderRuntime.ImportErrorMeans` | apps/cli/src/provider-command.ts:28-36 | the error of an import is the next stage after the completed ones, or that the connection cannot be imported |
| `ProviderRuntime.Runtime.RemoveProvider` | apps/cli/src/provider-command.ts:87-102 | the same for remove; without a baseline nothing happens |
| `ProviderRuntime.RemoveCompletesIff` | apps/cli/src/provider-command.ts:87-102 | a remove of a stored baseline completes if and only if the host accepts every call and no request meets a fault |
| `ProviderRuntime.Runtime.RunMutation` | apps/cli/src/provider-command.ts:60-80 | the four mutating stages run in order, up to the first failing call; the error is that of the stage the call belongs to, and the state is that of the calls that took effect |
| `ProviderRuntime.Runtime.RunStage` | apps/cli/src/provider-command.ts:28-36 | a stage is listed as completed if and only if each of its calls was accepted and answered |
| `ProviderRuntime.ImportedMeans` | apps/cli/src/provider-command.ts:60-80 | the import calls, one by one, amount to one state change: key stored or old mirror retired, auth set, config replaced, baseline written |
| `ProviderRuntime.RemovedMeans` | apps/cli/src/provider-command.ts:92-100 | the remove calls amount to one state change |
| `ProviderRuntime.RemoveIsAccepted` | apps/cli/src/provider-command.ts:87-102 | where every baseline is one the CLI writes, the host accepts every call of a remove |
| `ProviderRuntime.RemoveCanBeRetried` | apps/cli/src/provider-command.ts:87-102 | a remove cut off at any call reaches on retry the state of an uninterrupted one; until the last call the baseline is unchanged and all calls are still accepted |
| `ProviderRuntime.CutRemoveConverges` | apps/cli/src/provider-command.ts:45-102 | after any sequence of imports and removes, each cut off anywhere, a cut remove can be run again: every call is accepted and the state is that of a remove never interrupted |
| `ProviderRuntime.RemoveLeavesNothing` | apps/cli/src/provider-command.ts:87-102 | a completed remove of an accounted provider leaves no baseline, credential, configuration or mirror of it |
| `ProviderRuntime.ImportAccountedIff` | apps/cli/src/provider-command.ts:53-80 | an import keeps every residue covered by a baseline, if and only if it does not re-import without a key over a baseline whose mirror is stored |
| `ProviderRuntime.KeylessReimportLeaksTheMirror` | apps/cli/src/provider-command.ts:59-66 | the failing run: import with a key, import without, remove; the mirror stays and no remove reaches it |
| `ProviderRuntime.CutImportElsewhere` | apps/server/src/routes/provider-auth.ts:100-195 | an import cut off anywhere keeps baselines aligned and every other provider as it was |
| `ProviderRuntime.CutRemoveElsewhere` | apps/cli/src/provider-command.ts:87-102 | a remove cut off anywhere does too |
| `ProviderRuntime.CutRemoveAccounted` | apps/cli/src/provider-command.ts:87-102 | a remove cut off anywhere leaves every residue covered by its baseline |
| `ProviderRuntime.RunsStayAligned` | apps/cli/src/provider-command.ts:45-102 | over any sequence of imports and removes, each cut off anywhere, every baseline is one the CLI writes |
| `ProviderRuntime.RunsStayAccounted` | apps/cli/src/provider-command.ts:45-102 | over completed imports that do not leak and removes cut off anywhere, any remaining mirror, credential or configuration has its baseline |
| `CloudSync.Synchronize` | apps/cli/src/cloud-runtime-sync.ts:106-143 | from any state, a run that completes leaves exactly the published providers as well-formed imports, each settled or freshly imported, and reports exactly the stale ids as removed and the needed ones as imported; even an interrupted run leaves all other providers alone; without faults, over baselines the CLI writes, it completes if and only if every needed connection can be imported |
| `CloudSync.RemoveStale` | apps/cli/src/cloud-runtime-sync.ts:119-125 | the first loop removes exactly the imports that are no longer published |
| `CloudSync.ImportMissing` | apps/cli/src/cloud-runtime-sync.ts:127-143 | the second loop imports exactly the publications that are missing, out of date or not working, in listing order, changes nothing where all is well, and without faults completes exactly if each of them can be imported |
| `CloudSync.NeededIff` | apps/cli/src/cloud-runtime-sync.ts:127-135 | an id is imported exactly when one of its publications is missing, out of date or not working |
| `CloudSync.FreshBaselineInSync` | packages/cloud-provider/src/index.ts:113-178 | the baseline of every import the CLI accepts is well formed and in sync with the listing it came from |
| `CloudSync.NextRunIsQuiet` | apps/cli/src/cloud-runtime-sync.ts:106-143 | after a completed run the next run with the same listing has nothing to remove or import |
| `CloudSync.RemoveImported` | apps/cli/src/cloud-runtime-sync.ts:184-192 | after sign-out every well-formed import is removed and nothing else |
| `ModelSelection.RecommendedModel` | apps/cli/src/cloud-runtime-sync.ts:55-67 | the first usable model in listing order, and none exactly when none is usable |
| `ModelSelection.ResolveModel` | apps/cli/src/cloud-runtime-sync.ts:145-181 | whenever a model is resolved it is never an unpublished managed model nor one without points; an automatic model is published, loaded, enabled and selectable and replaces only nothing or a stale choice; each of the three refusals is given if and only if its condition holds and none before it does |
| `ModelSelection.UsableIsPublished` | apps/cli/src/managed-points.ts:3-6 | a usable model is published, and every provider publishing it fits the available points |
| `ModelSelection.OnePublisher` | apps/cli/src/cloud-runtime-sync.ts:150-160 | with distinct ids without slashes, at most one provider publishes a given model id |
| `Redaction.RedactedTreeIsClean` | apps/cli/src/render.ts:412-427 | after redaction no string value in the tree contains a registered secret, if no registered secret overlaps the marker: neither is part of the other, and no end of one starts the other |
| `Redaction.NothingCreated` | apps/cli/src/render.ts:415-417 | one replacement creates no occurrence of any word that does not overlap the marker, and leaves none of its secret |
| `Redaction.NoSecretLeft` | apps/cli/src/render.ts:415-417 | after all replacements, in any order, no secret is left: later ones never bring back an earlier one |
| `Redaction.RestorableIff` | apps/cli/src/render.ts:415-417 | for a single secret, exactly when some text has it back after its replacement: it can begin inside the marker, or the marker inside it after a beginning the left-to-right scan passes over |
| `Redaction.BracketFreeSecretsIff` | apps/cli/src/render.ts:412-417 | for any number of secrets without square brackets: no text ever holds one after redaction, if and only if none is part of the marker |
| `Redaction.BracketFreeApartIff` | apps/cli/src/render.ts:412 | a secret without square brackets overlaps the marker exactly when it is part of it |
| `Redaction.MarkerPartComesBack` | apps/cli/src/render.ts:415-417 | the failing family: a registered part of the marker comes back, whatever else is registered |
| `Redaction.SortedSecretsAre` | apps/cli/src/render.ts:413 | the secrets used are exactly the non-empty registered ones, longest first |
| `Redaction.WholeSecretBecomesMarker` | apps/cli/src/render.ts:413-417 | a value that is a secret becomes exactly the marker, even when shorter secrets are parts of it |
| `Redaction.ShapeKeptIff` | apps/cli/src/render.ts:419-425 | shape and keys are preserved, if and only if no visited object has an own `__proto__` key |
| `RunPrompt.SessionController.RunPrompt` | apps/cli/src/controller.ts:395-546 | what the Server answers decides everything: the error before the loop; else the turn at which the loop is left, with what error or result, the run then held, the deltas printed, the interactions answered, and all the runs asked to stop; the run slot is empty afterwards, and a timeout comes only after all turns |
| `RunPrompt.ExitIsUnique` | apps/cli/src/controller.ts:444-545 | there is only one turn, one error and one held run with which a loop can be left: the first turn that fails or finds the session idle and its run cleared or gone, or else the deadline |
| `RunPrompt.AskedIff` | apps/cli/src/controller.ts:538-545 | a run still held at a failure was asked to stop during the call if and only if the deadline passed, no stop request had been accepted before, or one of them named that run |
| `RunPrompt.StopForAnotherRun` | apps/cli/src/controller.ts:505-545 | the failing run, two turns long: a stop is accepted for the held run, it goes and another run of the session is held instead, then a request fails; the prompt fails with that run held, and no run but the first was ever asked |
| `RunPrompt.PromptResultMeans` | apps/cli/src/controller.ts:437-533 | what that means to a caller: for texts that only grow, each stream printed during the call is the growth of its part, the returned text is the newline join of those streams, and `aborted` says exactly whether a stop was accepted |
| `RunPrompt.StreamsAreFaithful` | apps/cli/src/controller.ts:477-485 | for append-only snapshots the deltas of every part, concatenated, are its latest text without its text before the prompt: nothing lost, repeated or reordered |
| `RunPrompt.ReturnedTextIsWhatWasPrinted` | apps/cli/src/controller.ts:469-476 | the final text is the newline join of the printed streams in the order of the last snapshot |
| `RunPrompt.SessionController.PrintText` | apps/cli/src/controller.ts:477-485 | the printing loop over one snapshot computes the specified display |
| `RunPrompt.SessionController.TakeTurn` | apps/cli/src/controller.ts:446-533 | one turn: what is printed, answered and held, the first thing that goes wrong if anything does, and when the run counts as ended |
| `RunPrompt.SessionController.SettleRun` | apps/cli/src/controller.ts:505-528 | the observed or listed run decides the next run slot, and exactly which failed requests fail the turn; an idle session with no ended run holds an active one |
| `RunPrompt.SessionController.ResolveInteractions` | apps/cli/src/controller.ts:378-393 | each new key is answered once, in order, until one fails; after success every pending key has been answered |
| `RunPrompt.KeysAreFresh` | apps/cli/src/controller.ts:378-393 | over all turns of a prompt no interaction is answered twice |
| `RunPrompt.SessionController.AbortCurrentRun` | apps/cli/src/controller.ts:317-334 | a stop counts as requested exactly when the request was sent and accepted |
| `RunPrompt.SessionController.PollGuarded` | apps/cli/src/controller.ts:444-545 | the handlers around the loop empty the run slot on every exit, and the runs asked to stop are those of the turns, of the deadline, and the run held at a failure unless a stop was accepted |
| `RunPrompt.FailureIff` | apps/cli/src/controller.ts:448-455 | the prompt fails on a message error exactly when a new or changed assistant message has one |
| `RunPrompt.OldErrorsDoNotFail` | apps/cli/src/controller.ts:400-455 | errors the session already had never fail a new prompt by themselves |
| `Composer.Editor.OnKey` | apps/cli/src/composer.ts:68-121 | every key, on the spliced characters and cursor, does what it does on the text before and after the cursor; the selected choice exists when it is taken |
| `Composer.Editor.Feed` | apps/cli/src/composer.ts:61-124 | the same for every key sequence |
| `Composer.Editor.Draw` | apps/cli/src/composer.ts:45-59 | the redraw brings selection and window in line with the visible choices |
| `Composer.Editor.Type` | apps/cli/src/composer.ts:107-119 | backspace, delete, control-U, control-W and printable input on the zipper |
| `Composer.PressStaysSettled` | apps/cli/src/composer.ts:45-121 | after every key a non-empty menu shows its selected choice, and a chooser, or a command menu no name of which matches more than eight entries, fills its window of eight |
| `Composer.DrawnFullIff` | apps/cli/src/composer.ts:45-50 | exactly when a redraw leaves the window full |
| `Composer.Move` | apps/cli/src/composer.ts:12-14 | one step down or up, wrapping at both ends |
| `Composer.ChooserSubmitsAChoice` | apps/cli/src/composer.ts:75-81 | a chooser ends only cancelled or with the value of one of its choices |
| `Composer.FilterKeeps` | apps/cli/src/composer.ts:7-10 | the filter shows only matching choices of the list |
| `Composer.FilterDropsNone` | apps/cli/src/composer.ts:7-10 | and it drops none that matches |
| `Composer.DropWordIs` | apps/cli/src/composer.ts:110-113 | control-W deletes exactly the last word and the white space after it |
| `Composer.BackspaceUndoesTyping` | apps/cli/src/composer.ts:107-119 | backspace after a typed character restores text and cursor |
| `Composer.RightUndoesLeft` | apps/cli/src/composer.ts:103-104 | right after left restores the cursor |
| `Cdp.AlwaysInv` | evals/runner/cdp.ts:141-235 | over all interleavings pending is exactly the issued and unsettled set, no request settles twice, the connection settles at most once, and with a send limit every pending request has its timer running |
| `Cdp.HistoryGrows` | evals/runner/cdp.ts:141-235 | settlements are final and ids only grow, so none is reused |
| `Cdp.AnswersAreOwn` | evals/runner/cdp.ts:203-215 | a resolved request was answered by a message with its own id while it was pending |
| `Cdp.EndSettlesAll` | evals/runner/cdp.ts:216-234 | after an error or a close no request is pending, and each request made so far has exactly one settlement |
| `Cdp.Connection.SendRequest` | evals/runner/cdp.ts:181-200 | a request takes a new id and is pending unless the socket refuses it |
| `Cdp.Connection.OnMessage` | evals/runner/cdp.ts:203-215 | a reply settles the pending request with its id and is otherwise ignored |
| `Cdp.Connection.OnEnd` | evals/runner/cdp.ts:216-234 | the error and close listeners reject everything pending, in order, and an unopened connection |
| `Cdp.Connection.RejectPending` | evals/runner/cdp.ts:165-171 | all pending requests are rejected once, in the order they were made |
| `Cdp.Connection.OnOpen` | evals/runner/cdp.ts:173-180 | a connection that has timed out or failed is not resolved by a late open |
| `Cdp.Connection.OnConnectTimeout` | evals/runner/cdp.ts:152-163 | the connect timer rejects the connection |
| `BoundedMap.ResolvesToTheMapIff` | apps/server/src/claude-plugin-bundle.ts:246-257 | in every finished interleaving the map resolves to the results in input order, if and only if every call succeeds and a worker is started or there is nothing to do |
| `BoundedMap.EveryRunEnds` | apps/server/src/claude-plugin-bundle.ts:246-257 | every interleaving ends after at most one step per item, and without failures with every item claimed |
| `BoundedMap.RunInv` | apps/server/src/claude-plugin-bundle.ts:249-254 | in every state each claimed item has its own result or is with exactly one worker, and at most min(limit, n) workers exist |
| `BoundedMap.StepProgresses` | apps/server/src/claude-plugin-bundle.ts:249-254 | each step brings the map one call nearer to its end |
| `BoundedMap.RejectsWithOwnError` | apps/server/src/claude-plugin-bundle.ts:255 | a rejected map carries the error of one of its calls |
| `BoundedMap.Mapper.Resume` | apps/server/src/claude-plugin-bundle.ts:250-253 | a worker stores its result at its own index and claims the next |
| `BoundedMap.Mapper.RunAll` | apps/server/src/claude-plugin-bundle.ts:246-257 | the shared index, workers and result array follow the specification over any schedule |
| `LineFraming.ChildServer.Run` | apps/installer/src/index.ts:87-133 | for every way of cutting the output into chunks, and spawn errors and exits between, the handled lines are the newline-terminated lines of everything received, the buffer is the unterminated rest, and the outcome is that of the first event that settles it |
| `LineFraming.ChildServer.OnData` | apps/installer/src/index.ts:120-128 | the inner loop handles all complete lines of the buffer and keeps the rest |
| `LineFraming.ChildServer.HandleLine` | apps/installer/src/index.ts:94-117 | a line settles the start only as the first ready message |
| `LineFraming.OneCut` | apps/installer/src/index.ts:120-128 | a text can be cut at its newlines in only one way, so the lines do not depend on how they were found |
| `LineFraming.CutAppend` | apps/installer/src/index.ts:120-128 | more output extends the unterminated rest and leaves earlier lines alone |
| `LineFraming.ChunksDoNotMatter` | apps/installer/src/index.ts:120-128 | as long as only output arrives, the outcome depends on the whole text and not on its chunks |
| `LineFraming.SettlesOnce` | apps/installer/src/index.ts:88-92 | once settled, no later event changes the outcome |
| `LineFraming.FirstReadyWins` | apps/installer/src/index.ts:105-117 | among unsettled lines the first ready message decides |
| `Bootstrap.CompareIsTotalPreorder` | apps/installer/src/install.ts:84-87 | the candidate comparator is a total preorder |
| `Bootstrap.SortPicksGreatest` | apps/installer/src/install.ts:112-116 | the descending sort puts a greatest candidate first |
| `Bootstrap.InstalledIs` | apps/installer/src/install.ts:108-116 | the canonical file is installed unless the legacy one is strictly greater |
| `Bootstrap.InstalledIsGreatest` | apps/installer/src/install.ts:84-118 | an organization deployment is preferred to a hosted default and a later one to an earlier |
| `Bootstrap.Disk.WriteBootstrapConfig` | apps/installer/src/install.ts:103-145 | the files after one install, including a failing write and a failing clean-up |
| `Bootstrap.Merge` | apps/installer/src/install.ts:121-136 | every key of the written record: which candidate or setting it comes from |
| `Bootstrap.DeploymentIsFixed` | apps/installer/src/install.ts:103-145 | over any sequence of installs, a settled organization deployment never changes in any key but prepared state, claim links, time and grant |
| `Bootstrap.InstallSettles` | apps/installer/src/install.ts:103-145 | an install settles a deployment exactly when what it writes is not hosted, given that the legacy file is gone or the same |
| `Bootstrap.WritesInstalledDeployment` | apps/installer/src/install.ts:118-131 | what is preserved is the deployment of the greatest candidate |
| `Bootstrap.HandoffIsGone` | apps/installer/src/install.ts:136 | no written file carries the one-time grant |
| `Bootstrap.CarriedPersists` | apps/installer/src/install.ts:119-133 | prepared state and claim links persist over any installs |
| `Bootstrap.WrittenIsReadable` | apps/installer/src/install.ts:67-136 | the file an install writes is always a candidate for the next one |
| `Bootstrap.NormalizeUrl` | apps/installer/src/config-sources.ts:62-69 | a normalised URL starts with its scheme, so it is never blank; every setting of an install passes through it |

## Left out

- The length, count and text-safety rules of the report schema, including the cap of 100 on detail arrays: the registration failure details of one check are not truncated by the builder.
- The concrete sensitive-text patterns: `sensitive` is an arbitrary predicate, so the results hold for any pattern list.
- The early returns of the synchronisation for an environment token or a signed-out profile: they select no model and reconcile nothing.
- Environment entries of a provider other than its mirror: they are shared by name, and remove does not touch them.
- The in-memory engine after the reload stage: only persisted state is modelled, and a failed read of the existing baseline is an import or remove that changes nothing, without the form of its error.
- Two CLIs mutating one workspace at once.
- The listing, account and status requests of a synchronisation: their answers are inputs, and a run in which one of them fails is one that has stopped before its next mutation.
- Tool-state lines, retry warnings and waiting notices of the prompt loop, and the full-access set-up of a new session.
- Code points and grapheme clusters: an editor character is one unit of a string, and the terminal frame is not drawn.
- Key names beyond those the editor distinguishes; a key press carries its name, modifiers and text.
- The order of JSON keys in the bootstrap file, path resolution, and `removableInstallerBundlePath`.
- `resolveRefAndTree`, `fitTerminalText`, `expectedConnectBranch` and `validateEffectiveEngineSnapshot`: single functions without state, which would only add easy members.
- RedactedTreeIsClean: for several registered secrets of which one holds a square bracket and overlaps the marker, whether some text brings it back is not decided here; single secrets and bracket-free lists are.
- RunPrompt: a stop request that arrives while a turn's own requests are under way is seen at the next turn.
- HTTP clients, process spawning, file access, terminal output and all user interfaces: their outcomes are inputs.
- Approvals, audit, version and help text, onboarding menus and doctor counters.
