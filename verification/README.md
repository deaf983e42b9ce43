# Failure resolver: verified model

This project models the service that resolves stopped robot Flows, and proves what it promises. The service keeps a
memory of past resolutions as Markdown files in a Git repository, finds the memory that fits a new failure, turns the
remembered actions into a plan for the present Flow run, and, where automatic recovery is enabled, executes that plan
on the robot under a retry budget and decides from fresh Flow frames whether it worked.

## How it is organised

- `Text`, `Json`, `JsonText`: the text operations of the Python runtime, JSON values, the text that is written for them
  and the reader; a value printed and read again is the same value.
- `EpisodeEvidence`, `MemorySource`, `MemoryMarkdown`, `SuggestedFix`: sanitised evidence, the hashed source of a memory,
  the Markdown file and its parser, and the summary shown for it.
- `FlowPointers`, `FlowOutcome`, `FlowWait`, `RobotSession`, `RobotAnswers`, `AttemptEvidence`: the identity of a Flow
  frame, the automaton that decides an attempt, waiting over a bounded history, the reconnecting connection with correlated
  requests, what it holds being what the robot said, and the path from the connection's log to the recorded outcome.
- `Contracts`, `RecoveryPlan`, `RecoveryRebinding`, `RecoveryRebindable`, `ActionArguments`: validators of untrusted values,
  the plan and its guards, rebinding a remembered plan to a new run, and the check of arguments against a live spec.
- `StoredPlan`, `FlowTree`, `StoredRebinding`, `SchemaPlaces`: what these decide, stated on the data itself: the stored
  actions and the guards sent for them, the enabled steps of a Flow, the captured frame a plan is bound to, and every place
  of an argument against the schema in force there.
- `RecoveryLifecycle`, `RecoveryRuns`, `RecoveryRobots`, `RecoveryGuarantees`, `RecoveryProgress`, `RecoveryAttempt`: the
  session row and the database procedures, every interleaving of recoveries over many processes, locks and the registry
  within a process, what holds of every run, how a task gets where it is, and the retry loop as it runs.
- `NotificationQueue`: coalescing of failure notifications.
- `Ranking`, `Retrieval`, `RetrievalProperties`, `SearchScore`, `BuiltIndex`, `RetrievalLoop`: the deterministic index,
  what its scores mean in terms of occurrences, what holds of it once it is built from documents, and the bounded agent loop.
- `GitMemory`, `Ingestion`, `IngestionDurability`, `IngestionRuns`, `IngestionStaleness`: durable writes to the shared
  branch, workers that claim, find or write, and acknowledge a document, what an acknowledgement means for the branch,
  whole runs of them, and the runs in which it means less.

A class stands for an object of the service, and its methods are proved against functions on values; protocols are
transition systems whose steps are the stretches of code between two awaits, with everything the service does not
control as a choice of the step.

## What turned out to have a condition

- Rendering and parsing a memory is a round trip exactly when no frontmatter text contains U+0085, U+2028 or U+2029
  (`MemoryMarkdown.ParseRender`). A Flow name with a line separator is an accepted input that breaks it (`MemorySource.LineSeparatorIsNotReadBack`).
- The index does not depend on the order in which documents are supplied exactly when no execution candidate shares its
  identifier with a document that is none (`RetrievalProperties.BuildIgnoresOrder`, `RetrievalProperties.MixedIdsDependOnOrder`,
  and a pair of documents in `BuiltIndex.MixedPairDependsOnOrder`). Documents supplied as a mapping, as the resolver does,
  always meet this.
- Corpora that differ only in dispatched actions give the same index unless the character budget lies between them: the
  budget counts the whole body, and with it the section that shows the actions (`BuiltIndex.IndexIsBlindToActions`,
  `BuiltIndex.BudgetSeesActions`).
- A snapshot that is eligible for exhaustive reading can be read exactly if its identifiers are trimmed
  (`BuiltIndex.BuiltAutoReadIff`); those of stored documents are (`BuiltIndex.StoredIdsAreTrimmed`).
- A remembered modern plan can be rebound exactly under the condition `RecoveryRebindable.IsRebindable`; a Flow whose
  `filename` and `fid` differ never meets it.
- A bounded history loses nothing for a wait exactly when no evicted frame was unseen (`FlowWait.NothingLostIff`).
  For an attempt it loses nothing if at most 512 frames were published since the acknowledgement
  (`AttemptEvidence.FewFramesAreKept`).
- A commit that an acknowledged ingestion records is a commit of that document on the remote branch
  (`IngestionRuns.EveryRecordedCommitIsDurable`), but the version it acknowledges need not be there. It is there if it
  was just written (`IngestionDurability.WriteKeepsFresh`). If a new version was found in the checkout instead, it is
  there, through the cached commit, exactly if every commit of the document in the checkout is pushed
  (`IngestionStaleness.CachedIsDurableIff`), and through the newest commit exactly if that commit is of the version found
  (`IngestionStaleness.LatestIsDurableIff`). Two runs acknowledge a version that is not on the remote branch: a write
  whose push failed, followed by a retry that takes the older cached commit (`IngestionStaleness.AcknowledgedButNotThere`),
  and a write that stopped between the file and its commit, followed by a retry that finds the file
  (`IngestionStaleness.UncommittedFileRun`).
- One worker at a time holds the claim of a resolution exactly as long as the resolution is not made pending while a
  worker that claimed it still runs (`IngestionRuns.EveryOrderlyRunIsExclusive`,
  `IngestionRuns.ResetUnderHolderBreaksExclusion`). Looking at the row's status is not enough: when the answer to an
  acknowledgement is lost, the row is ingested while its worker goes on to mark it as failed
  (`IngestionRuns.LostAnswerBreaksExclusion`).
- A lease must not be expired while a task works under its token (`RecoveryGuarantees.ExpiryMidAttemptWouldBreakSafety`).

## Environment assumptions

The bodies of the recovery database procedures are not part of the repository. Their contract is taken from the lifecycle
checks in `parse_recovery_session` and from the fake database of the tests: a claim is granted only from `ready` or
`failed`, adds one attempt and mints a new token; an attempt is finished or expired only under its own token while
active; an operator cancels only from `ready` or `failed`. Request identifiers and run tokens do not repeat. A failure's
robot, Flow and step do not change. Git commits are compared by the prefix order of linear histories, pulls only
fast-forward, pushes are never forced, and other writers only extend the remote branch. A database update takes effect
before its call ends, or never.

## Model

| member | source | states |
|---|---|---|
| `Json.LoadsDumps` | memory_store.py:1121-1127 | For every JSON value, the text written for it, compact or indented, reads back as that value |
| `Json.DumpsInjective` | memory_store.py:395-402 | Different values have different canonical texts |
| `JsonText.PrintTame` | memory_store.py:1121-1127 | JSON text holds no raw control character, and in the indented style every line feed is followed by a blank or a closing bracket |
| `JsonText.RarePrint` | memory_store.py:1121-1127 | Compact JSON text holds a line boundary that `splitlines` cuts at if and only if some text inside the value holds U+0085, U+2028 or U+2029 |
| `Json.PyEqualReflexive` | recovery_executor.py:1700-1703 | A pinned copy always equals itself under Python's equality |
| `EpisodeEvidence.SanitizeIsClean` | episode_evidence.py:98-143 | No sensitive key is left at any depth |
| `EpisodeEvidence.SanitizeKeepsTheRest` | episode_evidence.py:98-130 | A path survives if and only if it passes no sensitive key, and every surviving leaf is unchanged |
| `EpisodeEvidence.SanitizeIdempotent` | episode_evidence.py:98-130 | Sanitising a sanitised value gives the same value at the same depth |
| `EpisodeEvidence.ValidateIdempotent` | episode_evidence.py:80-95 | Evidence that validated once validates again to itself and is clean |
| `EpisodeEvidence.SanitizeAcceptsIff` | episode_evidence.py:98-130 | A value is sanitised, and not refused, if and only if every place outside sensitive members is at most 16 deep, its text at most 32,000 characters and its members at most 4,096 |
| `EpisodeEvidence.ValidateAcceptsIff` | episode_evidence.py:80-95 | Evidence is accepted if and only if it is such an object and the text of what is kept has at most 160,000 characters |
| `EpisodeEvidence.SensitiveHoweverSpelled` | episode_evidence.py:133-143 | A sensitive name is recognised in any mixture of upper and lower case, hyphens and underscores, with blanks around it |
| `EpisodeEvidence.SensitiveIff` | episode_evidence.py:133-143 | A plainly written name is sensitive if and only if it names a token, ends as an address, holds the name of a secret anywhere, or is one the resolver keeps for itself |
| `MemorySource.PreimageIdentifiesPayload` | memory_store.py:330-408 | The hashed text of two sources is equal if and only if the canonical payloads are |
| `MemorySource.DraftIsPrepared` | memory_store.py:231-292 | Every draft made from an accepted row satisfies all that rendering relies on |
| `MemorySource.RowIff` | memory_store.py:330-395 | A row is accepted if and only if its identifiers, its flag, its outcome, its evidence and its runs are well formed |
| `MemorySource.NormalisedShown` | memory_store.py:330-395 | The source of an accepted row shows its identifiers in canonical spelling, its outcome trimmed and "recorded" when blank, its runs or none, and its validated evidence |
| `MemorySource.PayloadShows` | memory_store.py:330-395 | Every other field of the source is the row's own, and a map the row does not name is the one the robot reports to be on |
| `MemorySource.DraftIff` | memory_store.py:231-292 | A draft is accepted if and only if it is made of its inputs, trimmed and validated, and an actionable one is a positive, applied, resolved demonstration that dispatched something |
| `MemorySource.LineSeparatorIsNotReadBack` | memory_store.py:1004-1042 | An accepted row whose Flow name holds U+2028 gives a prepared draft whose rendered file does not parse back to it |
| `MemoryMarkdown.ParseFrontmatter` | memory_store.py:1004-1042 | The loop over lines computes the specified dictionary or error |
| `MemoryMarkdown.FrontmatterRoundTrip` | memory_store.py:1004-1042 | The rendered frontmatter parses to the rendered dictionary, or when it cannot, never silently to another one of the same size |
| `MemoryMarkdown.FrontmatterShows` | memory_store.py:796-875 | The frontmatter shows the source field by field, with the draft's own kind, hash and model beside them |
| `MemoryMarkdown.BodySections` | memory_store.py:796-875 | The first complete section of each kind in the rendered body is the generated one, whatever the prose contains |
| `MemoryMarkdown.ParseRender` | memory_store.py:796-1042 | For every prepared draft, parsing the rendered file gives back the identifier, hash, frontmatter, actions, evidence and signature, if and only if no frontmatter text holds one of the three raw line boundaries |
| `SuggestedFix.SuggestionIsSummary` | resolver.py:1766-1780 | A rendered and re-parsed memory is presented as its recovery summary with blanks collapsed, cut at 2,000 characters |
| `SuggestedFix.SuggestionIsBounded` | resolver.py:1766-1793 | For every document something is shown, and at most 2,000 characters |
| `SuggestedFix.FallbackIsShown` | resolver.py:1783-1793 | Without recovery knowledge the titles of the dispatched actions are shown, joined by arrows, or a standard sentence if there are none |
| `SuggestedFix.TitleIs` | resolver.py:1783-1788 | An action is shown by its title, without one by its command, and else not at all |
| `FlowPointers.ParseFlowPointer` | robot_session.py:127-212 | A pointer carries the revision and connection it was parsed under; a completed one has a success status; any other has a command and a non-negative index |
| `FlowPointers.PointerNamesCurrentAction` | robot_session.py:173-199 | An uncompleted pointer names the one current action: the first with the index the Flow names, or else the first failed, else aborted, else running one |
| `FlowPointers.PointerIff` | robot_session.py:127-212 | A frame is read as a pointer if and only if the pointer shows it: the first identity it goes by, its trimmed texts, completion, and otherwise the one current action with its index and command |
| `FlowOutcome.RecoveredIsDecisive` | recovery_executor.py:2904-2972 | A frame that classifies as recovered ends the wait in every automaton state; which frames these are, `RecoveredFrameIff` says |
| `FlowOutcome.RecoveryIsNeverSkipped` | recovery_executor.py:2933-2972 | The first decisive frame comes no later than any frame that shows recovery |
| `FlowOutcome.DecisionTrace` | recovery_executor.py:2933-2972 | A recurrence is decided at its final pause and not before |
| `FlowOutcome.FailedIff` | recovery_executor.py:2904-2972 | An attempt is failed if and only if the frames show jump pauses, a start of this Flow, running, and the pause on the exact step |
| `FlowOutcome.RecoveredFrameIff` | recovery_executor.py:2904-2930 | A frame counts as recovery if and only if it is of this Flow and shows it completed with a success status, past the failed step, or with success at or after it |
| `FlowOutcome.RecoveredIff` | recovery_executor.py:2904-2972 | An attempt is recovered if and only if some frame shows recovery and all frames before it are jump pauses, or jump pauses, a start and still-running frames |
| `FlowWait.FlowWaiter.Wake` | robot_session.py:517-537 | One wake-up scans the retained frames, or raises when the connection changed and changes nothing |
| `FlowWait.ScanIsFold` | robot_session.py:517-537 | A pass selects what a plain fold over the unseen frames of the connection selects |
| `FlowWait.NothingLostIff` | robot_session.py:500-555 | The 512-frame history shows a wait the same stream as the full one if and only if no evicted frame was unseen |
| `FlowWait.WaitIsFold` | robot_session.py:500-555 | For every wake-up schedule the wait selects the first decisive frame after its starting revision, each frame judged once in order |
| `FlowWait.OutcomeOfWait` | recovery_executor.py:1315-1331 | The executed wait with the stateful predicate gives the pure outcome of the post-acknowledgement stream |
| `RobotSession.InvariantKept` | robot_session.py:360-641 | Every event keeps: revisions count frames, the history is the last 512 of them, the latest pointer is current, requests agree with the log |
| `RobotSession.RunInvariant` | robot_session.py:223-641 | The same over any sequence of events |
| `RobotSession.GuardIffUndisturbed` | recovery_executor.py:1496-1510 | The Flow guard passes for the pointer that was latest if and only if no Flow frame, disconnect or reconnect happened since |
| `RobotSession.StaleForever` | recovery_executor.py:1496-1510 | A pointer that went stale never passes the guard again |
| `RobotSession.SettledOnce` | robot_session.py:601-641 | A pending request is settled at most once |
| `RobotSession.ReturnedReceiptIsSound` | robot_session.py:381-458 | A returned receipt was begun, dispatched and settled within one unbroken connection, and its revision separates the frames before the acknowledgement from those after it |
| `RobotSession.EveryReturnedReceiptIsSound` | robot_session.py:381-458 | The same for every run from construction, under any interleaving of reconnects and responses |
| `RobotSession.StreamAfterAck` | robot_session.py:586-599 | What the wait judges after a receipt is what the robot published on that connection after the acknowledgement |
| `RobotSession.FramesAscend` | robot_session.py:584-599 | Published frames are numbered one by one |
| `RobotAnswers.EveryAnswerWasSaid` | robot_session.py:557-641 | In every run, whatever a request comes back with the robot has said to that very request: a result with an explicit null error, or a refusal with its reason |
| `RobotAnswers.AnswerArrives` | robot_session.py:601-634 | What the robot says to a request that waits for it arrives, under the present connection and revision |
| `RobotAnswers.EveryFrameWasShown` | robot_session.py:557-599 | In every run, the commands and the pointer that the guard relies on were shown by the robot on the present connection, and the pointer is the newest frame |
| `RobotAnswers.FrameArrives` | robot_session.py:569-599 | What the robot shows is what the session then holds, a Flow only as the pointer it shows |
| `RobotSession.RobotConnection.constructor` | robot_session.py:226-268 | A new session is disconnected, empty and consistent |
| `RobotSession.RobotConnection.ActivateConnection` | robot_session.py:360-369 | A new connection raises the generation and forgets the latest frames |
| `RobotSession.RobotConnection.InvalidateConnection` | robot_session.py:371-379 | A lost connection forgets the latest frames |
| `RobotSession.RobotConnection.HandleMessage` | robot_session.py:557-599 | One message settles, then informs, then publishes, in that order, or changes nothing when malformed |
| `RobotSession.RobotConnection.TakeFlowFrame` | robot_session.py:584-599 | A Flow frame gets the next revision and enters the bounded history |
| `RobotSession.RobotConnection.SettleResponse` | robot_session.py:601-634 | Only a waiting, known request is settled, by the error field of the response |
| `RobotSession.RobotConnection.RejectPendingUnknown` | robot_session.py:636-641 | Every waiting request becomes lost and no settled one changes |
| `RobotSession.RobotConnection.BeginRequest` | robot_session.py:381-404 | A request starts only on a live connection and captures it |
| `RobotSession.RobotConnection.SendRequest` | robot_session.py:412-436 | A command is dispatched only on the connection its request captured |
| `RobotSession.RobotConnection.ReturnRequest` | robot_session.py:438-458 | A receipt is returned only if the captured connection is still the live one |
| `RobotSession.RobotConnection.TimeOutRequest` | robot_session.py:453-458 | A timeout gives up the request and leaves the rest |
| `AttemptEvidence.WaitAfterAck` | recovery_executor.py:1315-1331 | The wait after a settled receipt yields the outcome of exactly the frames published on that connection after the acknowledgement |
| `AttemptEvidence.FailedMeansRecurredAfterAck` | recovery_executor.py:1315-1363 | Failed is recorded if and only if a start of this Flow and the pause on the same step were published after the acknowledgement |
| `AttemptEvidence.SelectedIsOutcome` | recovery_executor.py:1315-1331 | The frame a wait selects decides as everything published since the acknowledgement does, if no unseen frame was evicted; then it is a recurrence exactly for failed, and a recovery of this Flow exactly for recovered |
| `AttemptEvidence.FewFramesAreKept` | robot_session.py:500-555 | No unseen frame is evicted if at most 512 frames were published since the acknowledgement |
| `Contracts.UuidTextIdempotent` | recovery_executor.py:3205-3214 | A canonical identifier is its own canonical form |
| `Contracts.JsonWalk.Walk` | recovery_executor.py:3071-3098 | The recursive walk with the shared counter accepts if and only if the count and the depth stay within bounds |
| `Contracts.ValidateJson` | recovery_executor.py:3068-3100 | Accepts if and only if there are at most 2,000 values, none deeper than 12 |
| `RecoveryPlan.CheckAction` | recovery_executor.py:1766-1843 | One stored action is accepted if and only if it meets the field, size, depth and provenance rules |
| `RecoveryPlan.ParseRecoveryPlan` | recovery_executor.py:1759-2040 | The loop over the stored actions computes the specified plan or refuses; which plan of which actions, `StoredPlan.ParsedPlanIff` says |
| `StoredPlan.ParsedPlanIff` | recovery_executor.py:1759-2040 | Stored actions are read as a plan if and only if there are 1 to the maximum of them, each safe, all but the last plain corrections shown one by one, and the last a continuation that is shown |
| `StoredPlan.CorrectionsAreStored` | recovery_executor.py:1829-1880 | Whenever a plan is parsed, each correction has the stored command and the stored arguments, and the stored effective and explicit arguments where there are any |
| `StoredPlan.TerminalIsStored` | recovery_executor.py:1884-2040 | Whenever a plan is parsed, its last part shows the last stored action: mode, rewind, current and target step, and for a resumption the stored arguments |
| `StoredPlan.SafeActionIff` | recovery_executor.py:1766-1880 | A stored action is accepted if and only if it has no field but the seven known ones, a trimmed command, bounded arguments that its effective ones repeat, and names exactly its arguments as explicit |
| `StoredPlan.FitsStepIff` | recovery_executor.py:2043-2086 | A parsed plan fits a failed step if and only if the index and command stored in its last action are those of the step |
| `RecoveryPlan.FlowActionContexts` | recovery_executor.py:2089-2150 | The nested loops compute the enabled actions of a Flow, in order, or refuse |
| `FlowTree.FlowContextsAre` | recovery_executor.py:2089-2150 | A Flow is accepted if and only if everything enabled in it is well formed and its enabled actions have different indices; its contexts are then exactly those actions, in order |
| `FlowTree.FitsFlowIff` | recovery_executor.py:2153-2202 | A plan fits a live pointer if and only if the live action is the enabled step it was stored for, followed by the step it expects or with the target it resumes at among the others |
| `RecoveryRebinding.FlowContextsSound` | recovery_executor.py:2089-2150 | Every accepted action tree has unique indices and bounded, trimmed parts |
| `RecoveryRebinding.ContextAtFinds` | recovery_executor.py:2167-2169 | The look-up by index finds each action of an accepted tree |
| `RecoveryRebinding.PayloadParses` | recovery_executor.py:2305-2311 | A context written by a rebind parses back to itself |
| `RecoveryRebinding.RebindKeepsCorrections` | recovery_executor.py:2205-2302 | A rebound plan parses again with every correction unchanged; a legacy plan comes back as it was |
| `RecoveryRebinding.RebindPassesGuards` | recovery_executor.py:2043-2202 | A rebound plan passes the guards for the Flow it was bound to; what the guards refuse, `StoredPlan.ResumeSentIff` says |
| `RecoveryRebinding.RebindIsFixedPoint` | recovery_executor.py:2205-2302 | A second rebind to the same snapshot changes nothing |
| `RecoveryRebinding.LegacyArguments` | recovery_executor.py:2839-2844 | A fitting legacy plan always gets a fresh guarded payload |
| `StoredPlan.ResumeSentIff` | recovery_executor.py:2827-2866 | The arguments of a parsed modern plan are sent, unchanged, if and only if each guard field they hold shows the live pointer: index, command, Flow, file name, file identifier or else the file name, and commit or an explicit null |
| `StoredPlan.LegacySentIff` | recovery_executor.py:2827-2866 | A legacy plan is sent with a fresh guard for the live Flow if and only if the Flow has a current action |
| `StoredPlan.AcknowledgedIff` | recovery_executor.py:2869-2901 | An answer is taken as the acknowledgement if and only if it accepts and says the mode, rewind, previous and target index, command and Flow that were asked for, and the file name and commit where the live Flow has them |
| `StoredRebinding.GuardedIff` | recovery_executor.py:2792-2824 | A guard is built if and only if the Flow has a current action, the rewind is within bounds, and only a rewind goes back; it then holds exactly what the live Flow says of itself, with an explicit null for a commit it leaves out |
| `RecoveryRebinding.AcknowledgementConfirmsThePlan` | recovery_executor.py:2869-2901 | An accepted acknowledgement names the step and the target the plan was stored for |
| `RecoveryRebindable.RebindSucceedsIff` | recovery_executor.py:2205-2302 | A modern plan is rebound if and only if the live steps are the remembered ones, the identity texts are short and agree, and the argument text fits |
| `StoredRebinding.ModernRebindIff` | recovery_executor.py:2205-2302 | A remembered modern plan is bound to a failure if and only if the captured frame shows the Flow paused on exactly the failed step, that step and the one to go on from are the remembered ones by command, area and item, the Flow's names are short and agree, and the guard is not too large |
| `StoredRebinding.LegacyRebindIff` | recovery_executor.py:2205-2302 | A remembered legacy plan is taken unchanged if and only if it fits the captured frame, paused on exactly the failed step |
| `RecoveryRebindable.DifferingIdentityIsRefused` | recovery_executor.py:1960-1967 | A Flow with differing `filename` and `fid` is always refused |
| `ActionArguments.CollectInputs` | recovery_executor.py:2377-2401 | The loop computes the declared paths or refuses an ambiguous input |
| `ActionArguments.ValidIffAllFit` | recovery_executor.py:2416-2449 | The recursion accepts if and only if every place not below a declared path is a declared valid input or an object on the way to one |
| `ActionArguments.LeafIsDeclared` | recovery_executor.py:2416-2449 | Every accepted leaf lies at or below exactly one declared path, whose input is satisfied |
| `ActionArguments.NothingUndeclared` | recovery_executor.py:2416-2449 | No accepted place is unrelated to the declared paths |
| `ActionArguments.ResolvedIsValidated` | recovery_executor.py:2549-2558 | Any declared path that resolves was visited and validated |
| `ActionArguments.RequiredIsPresentAndValid` | recovery_executor.py:2450-2462 | Every required input is present, not empty and valid |
| `ActionArguments.AcceptedIff` | recovery_executor.py:2362-2462 | The decision on a whole command, both directions |
| `ActionArguments.AcceptedIsSound` | recovery_executor.py:2362-2462 | Accepted arguments are declared, validated and complete down to the declared paths; below them, `SchemaPlaces.AcceptedEverywhereIff` goes on |
| `SchemaPlaces.ChecksIff` | recovery_executor.py:2602-2772 | The recursive check accepts a value if and only if at every place of it, walked together with the schema, the value has the kind, size, range and required keys that the schema in force there declares |
| `SchemaPlaces.InputIff` | recovery_executor.py:2561-2599 | An input is accepted if and only if it is null and not required, or all its places fit its schema and it is one of the listed options |
| `SchemaPlaces.AcceptedEverywhereIff` | recovery_executor.py:2362-2462 | Arguments are accepted if and only if every place of them, down to the last, holds what the declared input and its schema say there, and every required input is there |
| `SchemaPlaces.NoUndeclaredKey` | recovery_executor.py:2686-2738 | At no depth does an accepted object hold a key outside its properties, unless its schema says something of additional ones |
| `SchemaPlaces.SpecIsListed` | recovery_executor.py:2377-2402 | The declared paths are exactly the listed inputs' names, cut at the dots, each with its own input |
| `RecoveryLifecycle.ParsedSessionIff` | recovery_executor.py:1622-1756 | A row is accepted as a record if and only if every field of the record is the row's own within its bounds, the progress fits the lifecycle, and a claimed row is an active attempt |
| `RecoveryLifecycle.CallMoves` | recovery_executor.py:506-575 | A procedure on a row is refused exactly when the move does not exist, and otherwise keeps the identity and makes the stated move |
| `RecoveryLifecycle.MovesKeepLifecycle` | recovery_executor.py:1667-1688 | Every move keeps the lifecycle conditions, adds an attempt only by a claim, and never leaves a terminal status |
| `RecoveryLifecycle.RowsStayValid` | recovery_executor.py:1622-1756 | Every row a procedure leaves behind parses again with the same identity; a claimed row parses as an active attempt |
| `RecoveryLifecycle.BudgetIsKept` | recovery_executor.py:1639-1688 | From a prepared row, any calls in any order keep it parsing, keep its identity, and count exactly the granted claims, at most the maximum |
| `RecoveryRuns.ClaimKeepsDatabase` | recovery_executor.py:1137-1152 | A claim starts a live attempt of a session nobody works on, within the budget |
| `RecoveryRuns.SendKeepsDatabase` | recovery_executor.py:1262-1298 | A dispatch is the next command of the script under the live token |
| `RecoveryRuns.ConcludeKeepsDatabase` | recovery_executor.py:1332-1430 | Concluding an attempt leaves row and trace in agreement; only failed leads on |
| `RecoveryRuns.PrepareKeepsDatabase` | recovery_executor.py:1041-1063 | Preparing pins a fresh session or adopts the prior one for the same step |
| `RecoveryRuns.DatabaseKept` | recovery_executor.py:907-1430 | Every step of every process keeps rows, tokens and trace in agreement with the session protocol |
| `RecoveryRobots.ProcessKept` | recovery_executor.py:907-1245 | Every step keeps the lock table and the registry in agreement with the tasks |
| `RecoveryRobots.OneRecoveryPerRobot` | recovery_executor.py:944-952 | At most one task of a process is inside the recovery of a robot |
| `RecoveryRobots.RegistryOwnersHoldTheLock` | recovery_executor.py:1132-1136 | Every registered recovery belongs to the task holding that robot's lock |
| `RecoveryRobots.NoPrepareWhileActive` | recovery_executor.py:944-952 | No session is prepared for a step whose recovery is registered |
| `RecoveryRobots.OnlyOwnerClaims` | recovery_executor.py:1137-1152 | Only the registered owner claims attempts, and only of its session |
| `RecoveryRobots.StepConfined` | recovery_executor.py:954-1005 | While a recovery is registered for a step, its process prepares and registers no other, claims and sends only as its owner for its session, each claim names the failure that joined last, and a recurrence joins it or is done |
| `RecoveryRobots.JoinConfined` | recovery_executor.py:982-1005 | Joining links the failure to the session, makes it the current one there and in the registered entry, and changes no attempt and no other session |
| `RecoveryGuarantees.RunInvariant` | recovery_executor.py:907-1430 | Both halves of the invariant hold after every run |
| `RecoveryGuarantees.AcceptedIsSafe` | recovery_executor.py:1136-1430 | A trace the session protocol accepts has all the promised properties |
| `RecoveryGuarantees.EveryRunIsSafe` | recovery_executor.py:1136-1430 | In every run: commands under a token are a prefix of the script in order, a later claim follows only after the earlier attempt failed, nothing follows a terminal status, and dispatches stay within attempts times script length |
| `RecoveryGuarantees.EveryRunIsExclusive` | recovery_executor.py:944-952 | In every run two tasks inside the same robot's recovery are the same task |
| `RecoveryGuarantees.OneSessionWhileRegistered` | recovery_executor.py:954-1245 | Over any stretch of a run in which a recovery stays registered for a step, all its process does about that step belongs to that one session and its owner |
| `RecoveryGuarantees.OneCommandAtATime` | recovery_executor.py:1247-1314 | In every run, from the sending of a command until its acknowledgement the attempt sends no other command and does not go on to await the outcome |
| `RecoveryGuarantees.RetriesIff` | recovery_executor.py:1178-1245 | A concluded attempt is retried if and only if it failed after its outcome was awaited, that was heard of, the same step paused afresh, and an attempt is left |
| `RecoveryProgress.NothingIsSkipped` | recovery_executor.py:907-1332 | In every run a task is as far as it is only because each check before was passed, in order: eligible, robot free, eligible again, session executable, registered, claim granted and heard of, wait recorded and heard of |
| `RecoveryProgress.EveryRecoveryIsForItsStep` | recovery_executor.py:1047-1084 | In every run whoever claims, sends, waits or joins does so in a session pinned for the robot, Flow, index and command of its own failure |
| `RecoveryProgress.PreparedIff` | recovery_executor.py:1041-1093 | A prepared task goes on if and only if the plan is executable and the session is fresh, or is an earlier one of the same step that is ready or whose last attempt failed; an earlier session is left as it is |
| `RecoveryGuarantees.ExpiryMidAttemptWouldBreakSafety` | recovery_executor.py:868-897 | Were a lease expired under a working task, its next dispatch would break the protocol |
| `RecoveryAttempt.ExecuteAttempt` | recovery_executor.py:1247-1430 | The robot is handed the stored actions' commands and arguments in order, each under the guard and only after the one before was acknowledged; recovered or failed is returned only on a checked acknowledgement and what the session logged after it, and a wait that decided is reported as exactly that decision; if no unseen frame was evicted, failed exactly on a recurrence and recovered exactly on a recovery published there |
| `RecoveryAttempt.SendScript` | recovery_executor.py:1255-1314 | What is sent are the stored commands and arguments, and last the resumption under a guard that shows the live pointer; it completes only when the resumption was acknowledged for this plan |
| `RecoveryAttempt.World.RequireLive` | recovery_executor.py:1490-1525 | Dispatch is allowed if and only if the connection is the pointer's, its commands are known, the latest frame is the very one the pointer was read from, and the plan fits it |
| `RecoveryAttempt.World.Ask` | robot_session.py:381-458 | A returned receipt was settled for this request in the session's log, whatever reached the session meanwhile |
| `RecoveryAttempt.World.WaitForOutcome` | robot_session.py:500-555 | The wait over the live session selects what its wake-ups select on the frames logged since the acknowledgement, up to its end |
| `RecoveryAttempt.RunAttempts` | recovery_executor.py:1136-1245 | The retry loop ends by using up attempts, every dispatch in it was guarded, and every attempt but the first followed one that failed on evidence, with the robot paused on the failed step again |
| `RecoveryAttempt.World.ClaimAttempt` | recovery_executor.py:1137-1152 | A delivered claim starts one more attempt with nothing sent |
| `RecoveryAttempt.FinishUnknown` | recovery_executor.py:1432-1448 | An attempt is closed as unknown, or left to its lease when the call fails |
| `NotificationQueue.Coordinator.NotifyFailure` | recovery_executor.py:824-846 | A notification enqueues, coalesces or is turned away by the cap |
| `NotificationQueue.Coordinator.FinishProcessing` | recovery_executor.py:848-866 | The end of a job frees its id and replays a dirty one |
| `NotificationQueue.InvariantKept` | recovery_executor.py:824-866 | At every await point: one live job per pending id, dirty ids pending, at most 512 pending, nothing lost |
| `NotificationQueue.ReplayIsEnqueued` | recovery_executor.py:861-866 | A replay is never turned away by the cap |
| `NotificationQueue.AcceptIff` | recovery_executor.py:824-846 | A running service takes a notification: a job is started if there is none for it and fewer than 512 are pending, else it joins that job or is ignored |
| `NotificationQueue.QuietMeansProcessed` | recovery_executor.py:824-866 | When nothing is live, every enqueued or coalesced notification was followed by a processing started after it |
| `Ranking.SortKeeps` | retrieval.py:217-217 | Sorting gives a ranked permutation |
| `Ranking.RankedIsUnique` | retrieval.py:217-217 | There is only one ranked order of elements with distinct ranks |
| `Retrieval.WindowIsFull` | retrieval.py:593-598 | The snippet window lies in the text and has length min(800, text length), wherever the offset falls |
| `Retrieval.CollectDocuments` | retrieval.py:136-157 | The constructor's loop keeps the execution candidates or refuses |
| `Retrieval.MemoryRetrievalIndex.Search` | retrieval.py:172-233 | For a valid query and limit, and only then, the hits are the best entries in order, each with its own score, matched fields, snippet and metadata; what a score means, the rows of `SearchScore` say |
| `SearchScore.FindIff` | retrieval.py:580-590 | An offset is found if and only if the text occurs there and nowhere before, and -1 if and only if it occurs nowhere |
| `SearchScore.ScoresIff` | retrieval.py:529-542 | A field scores if and only if the query occurs in it as a phrase or one of its terms occurs |
| `SearchScore.PhraseScoresMore` | retrieval.py:529-542 | Of two fields with the same name and terms, the one that shows the phrase scores strictly more than one that does not |
| `SearchScore.TermsScoreMore` | retrieval.py:529-542 | More occurrences of the query's terms never score less, and strictly more for a term seen less than four times |
| `SearchScore.BoostScoresMore` | retrieval.py:202-203 | Of two memories whose fields score alike the one with the greater boost scores more, by just the difference |
| `SearchScore.MatchedAreMatching` | retrieval.py:190-216 | The matched fields of a hit are exactly those in which the phrase or a term occurs, in order |
| `SearchScore.BestFieldIsBest` | retrieval.py:568-577 | The snippet is taken from the first of the highest-scoring fields |
| `SearchScore.PhraseComesFirst` | retrieval.py:172-233 | Of two memories with the same names, terms and boost, the one that shows the phrase in a further field is among the results before the other |
| `SearchScore.ResultsDescend` | retrieval.py:217-233 | Along the results scores descend, and equal scores ascend by identifier |
| `SearchScore.QueryIs` | retrieval.py:604-615 | A query is accepted if and only if it is not blank, not too long and without NUL, and its terms are its tokens, each once, in order of first occurrence |
| `SearchScore.SnippetOffset` | retrieval.py:580-592 | The snippet is placed at the first occurrence of the phrase, or else at the first of any term, or else at the start |
| `SearchScore.WindowShowsMatch` | retrieval.py:593-601 | An occurrence of the length of a query, at most 500 characters, lies whole within the window shown |
| `SearchScore.SnippetIs` | retrieval.py:568-601 | A snippet names its field and shows 800 characters of its text, or the whole of a shorter one, with a mark wherever something was cut off; no text, no snippet |
| `Retrieval.MemoryRetrievalIndex.Read` | retrieval.py:235-284 | Reading returns the requested entries in order within every budget, or refuses |
| `RetrievalProperties.BestIsHeadOfOrder` | retrieval.py:217-233 | The results are the first min(limit, n) in the order score descending, identifier ascending |
| `RetrievalProperties.BestIgnoresOrder` | retrieval.py:217-233 | Ranking forgets the order of the entries |
| `RetrievalProperties.CollectIsTakeAll` | retrieval.py:136-157 | The accumulating loop is a fold over the supply |
| `RetrievalProperties.BuildIgnoresOrder` | retrieval.py:112-163 | Without mixed identifiers any permutation of the supply builds the same index or is refused alike |
| `RetrievalProperties.MixedIdsDependOnOrder` | retrieval.py:146-157 | With mixed identifiers an accepted supply has a permutation that is refused |
| `RetrievalProperties.ReadAllFrom` | retrieval.py:262-284 | Reading all entries succeeds exactly within the per-memory and combined budgets |
| `RetrievalProperties.AutoReadIff` | retrieval.py:286-320 | Entries with different identifiers are eligible and trimmed if and only if reading all of them succeeds, with equal totals |
| `BuiltIndex.BuildIff` | retrieval.py:112-163 | The constructor accepts a supply if and only if it is within the budgets, correctly named, and no document follows an execution candidate of its identifier |
| `BuiltIndex.BuildSound` | retrieval.py:112-163 | A built index has different identifiers, namely those of the supplied execution candidates, each with an entry made from its document |
| `BuiltIndex.DraftIsCandidateIff` | memory_store.py:320-327 | A rendered and re-read draft is an execution candidate if and only if it is an actionable one |
| `BuiltIndex.EntryShows` | retrieval.py:336-377 | An entry searches the signature, the frontmatter, the prose before the first protected section and the evidence of its document, each under its own name |
| `BuiltIndex.ProseEndsAtSection` | retrieval.py:460-474 | The generalised prose of a memory ends where the first protected section begins |
| `BuiltIndex.NewIndex` | retrieval.py:112-163 | The constructor builds those entries in the order of their identifiers, or raises |
| `BuiltIndex.MixedPairDependsOnOrder` | retrieval.py:146-157 | A negative memory before a positive one of the same identifier is accepted, the other order refused |
| `BuiltIndex.IndexIsBlindToActions` | retrieval.py:336-394 | Corpora that differ only in dispatched actions and from the first protected section on are the same index or both refused, unless the character budget lies between the two |
| `BuiltIndex.BudgetSeesActions` | retrieval.py:380-394 | For every execution candidate there is such a budget: showing one more action makes the constructor refuse |
| `BuiltIndex.BuiltAutoReadIff` | retrieval.py:286-320 | A built index is eligible and the supplied identifiers trimmed if and only if reading all of it succeeds, with equal totals |
| `BuiltIndex.StoredIdsAreTrimmed` | memory_store.py:1004-1042 | The identifiers of documents read from memory files are trimmed |
| `RetrievalLoop.Browse` | resolver.py:665-817 | For any answers of the agent: at most 10 turns, 4 searches, 4 distinct documents and 300,000 characters; the loop goes on and ends just as each turn lets it; and it applies a memory if and only if the agent chose it at a turn by which it had been discovered and read |
| `RetrievalLoop.TakeTurn` | resolver.py:676-812 | After a turn the loop goes on if and only if it was a search or a read within the budgets, or a conclusion that came before any search or read; else it ends with the agent's word, a refusal, or an error |
| `RetrievalLoop.ReadWithin` | resolver.py:744-757 | The loop reads only with valid budgets |
| `RetrievalLoop.TakeReadTurn` | resolver.py:721-773 | A read turn reads all that is new in it, in order, or is refused, and refused exactly if something in it was not discovered, is too long, or does not fit into what is left of both budgets |
| `RetrievalLoop.ReadIff` | retrieval.py:262-284 | Reading succeeds if and only if every requested memory is there and none too long, and together they fit into the budget |
| `RetrievalLoop.ChooseFrom` | resolver.py:636-817 | A small enough index is read whole, and then the agent's one choice among all of it counts; otherwise the loop applies what was chosen in it; an applied memory belongs to the index and was read within the budgets |
| `RetrievalLoop.RetrieveMemoryChoice` | resolver.py:622-817 | Over stored documents, every document returned, an applied memory in particular, is an execution candidate of the snapshot and was read within the budgets |
| `GitMemory.GitMemoryStore.WriteMemory` | memory_store.py:421-459 | The operation computes the specified state and result; on return the remote holds what the local branch does, the document newest |
| `GitMemory.WriteIsDurable` | memory_store.py:421-459 | When a write returns, all local commits and the document with its source hash are on the remote branch, also when only an interrupted push was completed; a reported commit is the newest of the document |
| `GitMemory.WriteOnlyExtends` | memory_store.py:421-459 | Whatever fails in a write, neither branch loses a commit |
| `GitMemory.LatestIsDurable` | memory_store.py:514-550 | A returned commit is the newest of the document, and it and everything committed locally before is on the remote branch |
| `GitMemory.LatestIff` | memory_store.py:514-550 | An answer names a commit if and only if the checkout has the file and some commit in it touches the file |
| `GitMemory.GitMemoryStore.LatestCommit` | memory_store.py:514-550 | The operation computes the specified state and result |
| `GitMemory.GitMemoryStore.HasHash` | memory_store.py:485-503 | The operation computes the specified state and result, from the file in the checkout |
| `GitMemory.GitMemoryStore.PullFastForward` | memory_store.py:623-627 | A pull never drops local commits |
| `GitMemory.GitMemoryStore.PublishBranch` | memory_store.py:629-637 | A push succeeds only when it fast-forwards the remote, which then has every local commit |
| `GitMemory.DurableForever` | memory_store.py:629-637 | A commit on the remote stays on it |
| `Ingestion.ExclusiveKept` | resolver.py:854-1195 | Every step keeps at most one claim holder per resolution, lost answers included, if it does not make a resolution pending under a holder |
| `Ingestion.OnlyTheseMoves` | resolver.py:1042-1195 | The row moves only from pending or failed to ingesting, from ingesting to ingested or failed, and from ingested to ingested |
| `Ingestion.ReleaseAlwaysLands` | resolver.py:1105-1157 | An acknowledgement or failure mark of the holder that arrives takes effect while the row is about its resolution |
| `Ingestion.RefreshIsCompareAndSet` | resolver.py:1159-1195 | A refresh replaces exactly the commit it had seen |
| `IngestionDurability.RecordedKept` | resolver.py:895-970 | Every step keeps: each commit on record, cached or about to be recorded is a commit of its document on the remote branch |
| `IngestionDurability.WriteKeepsFresh` | resolver.py:934-970 | After a write the version is on the remote branch before it is acknowledged |
| `IngestionDurability.LatestKeepsFresh` | resolver.py:904-914 | After asking for the newest commit, a version that was found committed is on the remote branch |
| `IngestionDurability.FreshKept` | resolver.py:895-970 | Every step keeps each acknowledged version on the remote branch, if the file it finds is committed and the document is pushed where a cached commit is taken |
| `IngestionRuns.EveryOrderlyRunIsExclusive` | resolver.py:854-985 | In every run in which no resolution is made pending under a holder, one worker at a time holds its claim |
| `IngestionRuns.EveryRecordedCommitIsDurable` | resolver.py:854-985 | In every run the commit on record is on the remote branch and touches the document |
| `IngestionRuns.EveryCarefulAckIsDurable` | resolver.py:854-985 | In every run that takes both shortcuts with care, every acknowledged version is on the remote branch |
| `IngestionRuns.EveryWorkerIsDiligent` | resolver.py:854-985 | In every run a worker goes on only after it saw the row free or settled for its resolution, never while it was being ingested, and what it replaces is a commit it saw on an ingested row |
| `IngestionRuns.IngestedStays` | resolver.py:1042-1195 | An ingested resolution stays ingested until one is made pending |
| `IngestionRuns.ResetUnderHolderBreaksExclusion` | resolver.py:1042-1103 | Making a resolution pending under a holder lets a second worker hold the claim |
| `IngestionRuns.LateMarkBreaksExclusion` | resolver.py:971-985 | A late failure mark of the old holder then lets a third one work beside the second |
| `IngestionRuns.LostAnswerBreaksExclusion` | resolver.py:891-985 | The same happens, with the row ingested when it is made pending, after the answer to an acknowledgement is lost |
| `IngestionStaleness.CachedIsDurableIff` | resolver.py:904-909 | With the cached commit, a version new in the checkout is on the remote branch if and only if every commit of the document in the checkout is pushed |
| `IngestionStaleness.LatestIsDurableIff` | resolver.py:904-914 | With the newest commit, a version new in the checkout is on the remote branch if and only if that commit is of this version |
| `IngestionStaleness.NewestCachedIsPushed` | resolver.py:904-909 | That is so if the cached commit is not older than the last commit of the document in the checkout |
| `IngestionStaleness.StaleCacheRun` | resolver.py:891-985 | A failed push, and a retry that takes the older cached commit, acknowledge a version that is not on the remote branch |
| `IngestionStaleness.AcknowledgedButNotThere` | resolver.py:891-985 | The same in one run from an empty branch, for any document, texts and two different source hashes |
| `IngestionStaleness.UncommittedFileRun` | memory_store.py:438-449 | A write that stops between the file and its commit, and a retry that finds the file, acknowledge the older commit |

## Left out

- Supabase, WebSocket, Git subprocess and OpenAI calls: they are steps that may fail or answer anything within the stated contracts.
- SQL bodies of the recovery procedures, the mirrored failure statuses, leases as clock values and start grace times: not in the repository, or only a choice of the environment.
- Cancellation while a command is being sent, and before a task's first step: the pending entry the code leaves behind is not modelled, and an attempt may be left to lease expiry.
- NaN and infinities in JSON, escaped surrogates, and rounding of numbers beyond what a float represents: values are exact.
- UUID spellings other than the hyphenated one; Unicode case mapping beyond ASCII letters.
- SHA-256, Unicode normalisation, tokenisation and the Python text of non-text values: function parameters.
- Regular expressions over sections are modelled line by line, which is what the anchored patterns mean.
- Reasons and order of error messages: a refusal is one result.
- Hint validation and hint scores: a non-negative boost that depends only on the metadata.
- Action provenance against live defaults (`_validate_action_provenance`, `_action_input_default`) and confirmation rules.
- NotificationQueue.QuietMeansProcessed: only while the service is not stopped, because stopping drops replays on purpose.
- GitMemory.GitMemoryStore.WriteMemory: merge commits are not modelled, because histories are linear.
- Ingestion of a resolution without a failure row, which claims and acknowledges nothing; the choice between the production and the development branch, of which one is modelled.
- RecoveryAttempt.RunAttempts: other processes that claim the same session between two attempts are modelled in `RecoveryRuns`, not in the loop, because the loop's world holds one task.
- RetrievalLoop.Browse: the observations shown to the agent are not modelled, because the agent may answer anything to them.
- `wait_for_commands`, the projection of remembered actions to a suggestion, the filter for revoked resolutions and the safe-candidate test in the resolver.
- Counters and snapshots of state, settings parsing, prompts and response models of the agent.
- main.py, sqs_handler.py, solution_executor.py, robot_interface.py, observer.py, terraform and container files.
