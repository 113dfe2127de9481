# CodeAgent, modelled and proved

CodeAgent runs a language model as a coding agent on a session's own worktree. This project models
its stateful cores in Dafny and proves what they keep over whole runs. `dafny verify dfyconfig.toml`
checks everything.

The modules, by subject:

- **Session log and turns.** `SessionLog` is the append-only event log with its identities.
  `TurnBudget` reads a turn's budget off the log. `Projector` replays the log into indivisible
  tool-exchange atoms, and `SummaryChain` decides which condensations of those atoms are valid.
  `ContextBuilder` picks cuts and assembles a request within token limits. `Runner`, with the facts
  of `RunnerLog`, is the agent loop with its condensation, truncation, stop and budget paths.
- **Edits.** `EditPlanner` (with `Paths`, `TextEdit` and `Utf8`) plays a multi-file edit over lazily loaded
  tables, against a reference that plays the operations one at a time over the whole tree.
  `EditJournal` is the write-ahead journal with its rollback and crash recovery: every file-system
  step may finish, raise, or be the last thing the process does.
- **Supervision.** `Supervisor` is the concurrent protocol of jobs, stops and approvals, as critical
  sections that threads enter in any order.
- **Delivery.** `GitModel` is an abstract Git; `Delivery` freezes, applies, checkpoints and discards
  changes while other programs may change the source between any two operations.
- **Smaller cores.** `Sandbox` (policy compiled to a mount list), `Decoders` (incremental line and
  chunk decoders), `Selection` (apportionment and capped selection) and `Usage` (two-level token
  accounting). `Options` and `Collections` hold what several modules share.

Code that works step by step is modelled by methods and classes that are proved against functions
over the inputs; what the program promises is then proved about those functions. What a step
leaves open (a model's reply, a subprocess, a kill, other threads) is chosen arbitrarily, so each
theorem holds for every outcome. Fields such as `faulty`, `flaky` and `quiet` say whether steps may
fail or others interfere; where they do not, the contracts also promise that the work gets done, and
`faults` counts failed steps of a delivery, so that no success is claimed after one. Hashes are free
constructors, so equal digests mean equal contents.

## Where the code and its promises differ

Each of these is stated in the model as the code behaves, with the exact condition under which the
promise holds.

- An edit promises a unique match but counts matches that do not overlap. The count decides
  uniqueness for every text exactly when the searched text cannot overlap itself
  (`TextEdit.CountDecidesUniqueness`).
- `prepare` accepts plans that leave a file where the same plan creates a directory
  (`EditPlanner.ClashingPlans`, `EditPlanner.FileOverItsOwnDirectory`). The journal never commits
  such a plan; its rollback cannot remove that directory, so the session is locked although nothing
  failed (`EditJournal.EditService.Commit`).
- A response that declares an empty list of calls passes the replay but leaves an atom that never
  closes, so no later request can be built (`Projector.AllClosedMeaning`,
  `Projector.EmptyCallsNeverClose`). The runner never records one.
- The answered requests of a turn stay within its limit. The projected count passes the limit, by
  one, exactly when the turn gave up on malformed calls with its limit already answered, and then
  the turn is closed (`TurnBudget.ResponsesWithinLimit`, for every reachable log
  `Runner.AnySession`; such a turn is `TurnBudget.LimitPassed`).
- The latest answer to an approval counts, not the first: the worker is told yes exactly when the
  latest answer was yes and no stop came, so a first answer stands exactly when the latest one
  equals it (`Supervisor.ExecutionSupervisor.AwaitWake`; a yes followed by a no is
  `Supervisor.ExecutionSupervisor.YesThenNo`).
- An `accept` that wrote the patch goes back to active changes, with the patch in the source,
  exactly when the last look at the source failed or saw another tree, or the result could not be
  recorded; frozen files that cannot be cleared leave the session in `accepting`
  (`Delivery.ChangesService.Accept`, `Delivery.SlipNeedsInterference`, `Delivery.SlipExample`).
- A write covered by a session grant is allowed without looking at the boundaries; it is writable
  exactly when no existing boundary covers it (`Sandbox.CoveredWrites`,
  `Sandbox.CoveredWriteStaysReadOnly`). An allowed read below `/tmp` shows the private directory
  unless a mount covers it (`Sandbox.AllowedReads`, `Sandbox.AllowedReadStaysPrivate`).
- A selection of size zero is written and then refused by its reader (`Selection.ReaderAgrees`,
  `Selection.ZeroIsWritten`, `Selection.ZeroIsWrittenExample`).
- Totals of two accounting levels differ exactly when only some of the tasks with requests report a
  field; for cache misses they still agree when the other tasks derive theirs and these add up to
  nothing (`Usage.TotalsAgree`, `Usage.UnevenTotalsDiffer`). Completeness differs exactly when cache
  misses are reported in full by some tasks and derived by the others (`Usage.CompletenessAgrees`,
  `Usage.MixedFlagsDiffer`), and a task without requests clears the derived flag
  (`Usage.DerivedFlagAgrees`, `Usage.IdleTaskClearsDerived`).

## Model

| member | source | states |
|---|---|---|
| `SessionLog.SessionStore.Create` | codeagent/session/store.py:48-82 | a new session holds its creation event and its counters agree with the log |
| `SessionLog.SessionStore.AppendEvent` | codeagent/session/store.py:241-317 | one event is appended, stamped with the turn and step identities that the log itself determines |
| `SessionLog.SessionStore.AppendDerivedEvents` | codeagent/session/store.py:245-287 | derived events are appended all together or, when the frontier moved, not at all; they carry no step |
| `SessionLog.TurnAfterIsUser` | codeagent/session/store.py:296-300 | the current turn identity is the number of the last user message |
| `SessionLog.KeepsIdentities` | codeagent/session/store.py:245-287 | appending a derived event moves neither the turn nor the step identity |
| `TurnBudget.CurrentTurnBudget` | codeagent/runtime/turn_budget.py:22-40 | the loop over the last turn computes used, limit, closed and waiting as the folds over the whole log do |
| `TurnBudget.IncreaseTurnBudget` | codeagent/runtime/turn_budget.py:48-83 | a raise succeeds exactly when the workspace is ready, the turn waits, and turn, expected limit and target are right; it then appends one event and sets the limit asked for; otherwise nothing changes |
| `TurnBudget.LimitOnlyRises` | codeagent/runtime/turn_budget.py:22-83 | within a turn of a run the limit never falls |
| `TurnBudget.RaiseRises` | codeagent/runtime/turn_budget.py:48-83 | a raise names the limit in force and takes effect at once |
| `TurnBudget.OneRaisePerLimit` | codeagent/runtime/turn_budget.py:48-83 | of two raises that saw the same limit, only the first succeeds |
| `TurnBudget.WaitingMayRaise` | codeagent/runtime/turn_budget.py:59-75 | a waiting turn’s raise is accepted exactly when it goes up within the maximum and names either a limit or a number of steps |
| `TurnBudget.RaisesNameDistinctLimits` | codeagent/runtime/turn_budget.py:48-83 | two raises of one turn never name the same expected limit |
| `TurnBudget.ExhaustedOncePerLimit` | codeagent/runtime/runner.py:557-568 | one turn never reports the same limit exhausted twice |
| `TurnBudget.ResponsesWithinLimit` | codeagent/runtime/runner.py:133-284 | at every point of a run the answered requests are within the limit then in force; the projected count passes it exactly when the turn gave up on malformed calls with its limit answered, by one, and then the turn is closed |
| `TurnBudget.StepsAnswerRequests` | codeagent/runtime/runner.py:185-253 | every counted step of a turn answered a request of its own, but for the message that gives up after a malformed reply, and that one closes the turn |
| `TurnBudget.LimitPassed` | codeagent/runtime/runner.py:205-216 | with a limit of two, two malformed replies and the closing message: a run whose count is three |
| `TurnBudget.IncreaseKeepsRun` | codeagent/runtime/turn_budget.py:48-83 | a raise of a waiting turn keeps the run within budget and ends the wait |
| `Projector.ProjectEvents` | codeagent/context/projector.py:61-163 | the imperative replay accepts exactly the logs that the fold accepts, and finds the same response in progress |
| `Projector.ProjectContextEvents` | codeagent/context/projector.py:166-262 | the two passes with their tables and ordered dictionary give the atoms that the fold over the log gives |
| `Projector.RejectionPersists` | codeagent/context/projector.py:61-163 | a log with a rejected prefix is rejected |
| `Projector.DeclareMeaning` | codeagent/context/projector.py:100-112 | a declaration of calls succeeds only with distinct new call ids, and adds exactly them as unanswered |
| `Projector.ProtocolHolds` | codeagent/context/projector.py:61-163 | in every accepted log the groups keep log order, their shape, and their open calls |
| `Projector.DictionaryGroupsAreContiguous` | codeagent/context/projector.py:192-262 | grouping by identity in a dictionary gives the contiguous groups of the log |
| `Projector.FlattenIsContiguous` | codeagent/context/projector.py:192-262 | flattening the atoms of an accepted log gives back exactly the allowlisted events in log order |
| `Projector.CallAtomsAnswer` | codeagent/context/projector.py:61-163 | with no response in progress a call atom is its call event followed by exactly one terminal outcome for each declared call |
| `Projector.AllClosedMeaning` | codeagent/context/projector.py:192-262 | all atoms are closed exactly when no response is in progress and no response declared an empty list of calls |
| `Projector.EmptyCallsNeverClose` | codeagent/context/projector.py:97-112 | a log with one response that declares no calls: accepted with no response in progress, and its atoms never close |
| `Projector.AtomsAreStable` | codeagent/context/projector.py:166-262 | once no response is in progress, the atoms of a log stay a prefix of the atoms of every accepted extension |
| `Projector.QuietAppend` | codeagent/context/projector.py:166-262 | an event outside the allowlist changes neither the replay nor the atoms |
| `SummaryChain.ValidSummaryChain` | codeagent/context/builder.py:69-117 | the loop accepts exactly the records that the declarative rule accepts, with their covered items |
| `SummaryChain.SelectRollingSummary` | codeagent/context/builder.py:120-125 | the selected summary is the chain entry with the largest coverage and then the latest number |
| `SummaryChain.LegalFrontiers` | codeagent/context/builder.py:74 | the frontiers are exactly the ends of leading atoms |
| `SummaryChain.TipIsUnique` | codeagent/context/builder.py:120-125 | a chain determines its tip |
| `SummaryChain.ChainMeaning` | codeagent/context/builder.py:69-117 | every accepted summary covers a prefix of the flattened atoms that ends on an atom boundary, and has a non-blank text within its limit |
| `SummaryChain.ChainIsStable` | codeagent/context/builder.py:69-125 | with atoms that only grew, every accepted summary stays accepted and unchanged |
| `SummaryChain.CoverageNeverDecreases` | codeagent/context/builder.py:120-125 | the selected coverage never falls as the log grows |
| `SummaryChain.WriterReaderAgree` | codeagent/runtime/runner.py:399-442 | a record written for a run planned earlier is accepted on a log that grew meanwhile, and covers more than its predecessor |
| `ContextBuilder.EstimateOfSuffix` | codeagent/context/builder.py:58-61 | dropping leading messages never raises the estimate |
| `ContextBuilder.TokensMeaning` | codeagent/context/builder.py:59-61 | an estimate is a third of the bytes, rounded up, and eight: within a budget exactly when the bytes are within three times what eight leaves of it |
| `ContextBuilder.ArrayBytesOfJson` | codeagent/context/builder.py:59-61 | for every encoding of the messages, the bytes counted are the length of the compact JSON array of them |
| `ContextBuilder.CallsAnsweredInPlace` | codeagent/context/builder.py:373-403 | a rendered call atom is one assistant message followed directly by exactly one tool message for each of its calls |
| `ContextBuilder.PreCount` | codeagent/context/builder.py:405-421 | counting messages of the atoms older than the anchor gives the length of the history before the cut |
| `ContextBuilder.SplitIsPositional` | codeagent/context/builder.py:405-421 | splitting the rendered history by index is splitting the atoms by position around the latest user message |
| `ContextBuilder.AtomsAfterCoverage` | codeagent/context/builder.py:428-439 | the returned index is the one whose leading atoms hold exactly the covered items |
| `ContextBuilder.FindAnchor` | codeagent/context/builder.py:161 | the anchor is the last user message of the atoms |
| `ContextBuilder.ViewOf` | codeagent/context/builder.py:146-172 | a view exists exactly for accepted logs with all atoms closed, and every part of it is what the log determines |
| `ContextBuilder.DesiredAtomCount` | codeagent/context/builder.py:292-321 | the two loops find the least cut that meets every triggered goal, or all eligible atoms when none does |
| `ContextBuilder.LaterOfTwoCuts` | codeagent/context/builder.py:292-321 | the later of the first cuts for the two goals is the first cut that meets both |
| `ContextBuilder.ProjectedTokensFall` | codeagent/context/builder.py:292-321 | a longer cut never leaves more history tokens |
| `ContextBuilder.LargestFittingPrefix` | codeagent/context/builder.py:323-338 | the scan with its early break returns the longest prefix that fits the condenser |
| `ContextBuilder.CondenserTokensGrow` | codeagent/context/builder.py:323-338 | the estimate of the condenser input never falls as atoms are added |
| `ContextBuilder.LeadingAtomsAreNextRun` | codeagent/context/builder.py:323-338 | the planned atoms are a run that the summary reader accepts next |
| `ContextBuilder.ContextManager.Build` | codeagent/context/builder.py:137-290 | a request is ready, must be condensed first, or is given up, exactly as the budget report decides; a ready one fits the context limit less the reserves in tokens and in bytes, one that does not fit is given up or condensed by a hard plan, and the fixed part alone gives it up exactly when it leaves no room; a log that cannot be projected raises |
| `ContextBuilder.ContextManager.BuildFrom` | codeagent/context/builder.py:173-290 | the same decisions, after the projection |
| `ContextBuilder.ContextManager.Assemble` | codeagent/context/builder.py:173-214 | the assembly order of the program is the request that reads in order, and the report measures it and its fixed and history parts |
| `ContextBuilder.ContextManager.SplitHistory` | codeagent/context/builder.py:405-418 | the two halves are the atoms before and after the latest user message, rendered in log order |
| `ContextBuilder.ContextManager.Plan` | codeagent/context/builder.py:230-290 | a plan condenses the longest fitting run of leading uncovered atoms within the desired cut; when there is none, the reason given is the first that holds |
| `ContextBuilder.ContextManager.DesiredCount` | codeagent/context/builder.py:230-256 | the count to condense is the least cut that meets the triggered goals, capped by a retry |
| `ContextBuilder.BuildIsDetermined` | codeagent/context/builder.py:137-290 | what build promises admits exactly one result: same decision, plan, reason, messages and report |
| `ContextBuilder.ReportIsMeasured` | codeagent/context/builder.py:174-215 | every figure of a report, from the bytes of the messages and the caps alone: what is sent, its fixed part, its history, the shares, and the events not covered |
| `ContextBuilder.BuildDecides` | codeagent/context/builder.py:216-269 | the decision from the messages and the caps alone, without the report |
| `ContextBuilder.PlanProposes` | codeagent/context/builder.py:263-290 | a plan holds the next context events after the summary, in whole atoms, with its identity and the size of its condenser input |
| `ContextBuilder.MeetsMeaning` | codeagent/context/builder.py:292-321 | a cut meets the goals exactly when it leaves few enough events, and little enough history beside the new summary |
| `ContextBuilder.EligibleMeaning` | codeagent/context/builder.py:230-235 | atoms may be condensed exactly when they end before the mandatory atom begins |
| `ContextBuilder.ProgressMeaning` | codeagent/context/builder.py:253-256 | enough is condensed exactly when the request must shrink or the events are the least share of the uncovered ones |
| `ContextBuilder.CondenserRoomMeaning` | codeagent/context/builder.py:258-262 | the condenser has room exactly when its fixed bytes leave one token of its budget |
| `ContextBuilder.CappedMeaning` | codeagent/context/builder.py:247-248 | a retry condenses at most what its cap allows, and at most the desired cut |
| `ContextBuilder.PlanOrReason` | codeagent/context/builder.py:251-290 | a plan and a reason against one exclude each other |
| `ContextBuilder.RawPartIsUncovered` | codeagent/context/builder.py:405-418 | the raw parts and the anchor are together exactly the uncovered atoms, in log order |
| `ContextBuilder.RawPartReads` | codeagent/context/builder.py:361-404 | line by line, the conversation in a request says what the context events say that the summary does not cover, in log order; a latest user message that is covered comes before them |
| `ContextBuilder.PartialMeaning` | codeagent/context/builder.py:461-476 | a partial answer is replayed exactly when the latest response of the turn was truncated, and it is that one’s text |
| `ContextBuilder.OlderBefore` | codeagent/context/builder.py:405-418 | everything rendered before the latest user message is older than it |
| `ContextBuilder.NewerAfter` | codeagent/context/builder.py:405-418 | everything rendered after it is newer |
| `ContextBuilder.MandatoryStaysRaw` | codeagent/context/builder.py:441-453 | the mandatory atom is in the request as a block, with its reasoning |
| `ContextBuilder.MandatoryLimitGrows` | codeagent/context/builder.py:441-453 | the number of items that may be covered only grows with the log |
| `ContextBuilder.PlannedRunsStayClear` | codeagent/context/builder.py:441-453 | no summary of a run covers the mandatory atom of any later log of the run |
| `ContextBuilder.TipIsUsed` | codeagent/context/builder.py:163-171 | in a run the builder always uses the chain tip: its fallback never applies |
| `ContextBuilder.PlannedRunsAccept` | codeagent/runtime/runner.py:363-442 | every summary that a run recorded is in the chain of the run’s log |
| `ContextBuilder.ChainWithoutNewSummaries` | codeagent/context/builder.py:69-117 | growth without new summaries leaves the chain as it was |
| `ContextBuilder.CondensationAdvances` | codeagent/runtime/runner.py:363-442 | a plan written at the end of a log that grew meanwhile is accepted, becomes the tip, and covers strictly more |
| `RunnerLog.StepsUsed` | codeagent/runtime/runner.py:615-620 | counting responses by turn identity gives the budget’s count |
| `RunnerLog.CallsOfTurn` | codeagent/runtime/runner.py:594-613 | the calls and outcomes found by turn identity are those of the current turn |
| `RunnerLog.AlreadyReported` | codeagent/runtime/runner.py:557-568 | the search by turn identity answers whether the limit was already reported |
| `RunnerLog.CountTruncations` | codeagent/runtime/runner.py:748-762 | the backward count is the number of truncated responses in a row |
| `RunnerLog.TurnByIdentity` | codeagent/session/store.py:289-317 | a primary event carries the current turn’s identity exactly if it comes after the turn’s user message |
| `RunnerLog.UnansweredEmpty` | codeagent/context/projector.py:39-42 | a response is closed exactly when none of its calls is unanswered |
| `RunnerLog.SideAppend` | codeagent/runtime/runner.py:363-467 | condensation records, approvals and notes change neither the replay, the atoms nor the budget |
| `RunnerLog.RaiseAppend` | codeagent/runtime/turn_budget.py:48-83 | a raise keeps a running turn running |
| `Runner.AgentRunner.PrepareContext` | codeagent/runtime/runner.py:286-361 | the loop ends for every build result and condenser outcome, within four condenser calls of which one is soft; estimates fall after every valid completion, a failed hard request is tried again, and an invalid one plans fewer atoms; a ready request is one that the builder accepts on the final log; each reason for giving up is justified by the rounds before it |
| `Runner.AgentRunner.React` | codeagent/runtime/runner.py:334-361 | each outcome of a condenser call leads to the next round or to a reason that the rounds justify: a second failure of the plan or the fourth call, two invalid completions, or a single atom; a soft plan that did not succeed is not followed by another soft one |
| `Runner.AgentRunner.LoopGaveUp` | codeagent/runtime/runner.py:315-321 | no progress means an estimate no lower than the one before the last valid summary, and exhausted cycles mean four calls |
| `Runner.AgentRunner.CallCondenser` | codeagent/runtime/runner.py:363-442 | every outcome is recorded once and decided by the reply and the frontier alone: no reply, an unusable one, one for a frontier that moved, or a valid summary; a valid one is written on the planned frontier, and is then the new tip |
| `Runner.AgentRunner.RecordSummary` | codeagent/runtime/runner.py:399-442 | the records are written exactly when the frontier is the planned one |
| `Runner.AgentRunner.AppendCondensationFailure` | codeagent/runtime/runner.py:444-467 | a failed attempt is recorded even when the frontier moved |
| `Runner.AgentRunner.BuildNow` | codeagent/context/builder.py:137-290 | on a log the runner left behind, build never raises |
| `Runner.AgentRunner.CondenseOnce` | codeagent/runtime/runner.py:300-361 | a plan is re-stamped with the frontier and sent; it goes stale only if the log grew while it was out, and a refused plan still stands |
| `Runner.AgentRunner.HandleToolCall` | codeagent/runtime/runner.py:764-800 | a call gets exactly one outcome, recorded last, whatever the tool does |
| `Runner.AgentRunner.TerminateStopped` | codeagent/runtime/runner.py:594-613 | every unanswered call is denied and nothing else is written, then the turn is closed by the stop |
| `Runner.AgentRunner.WaitForBudget` | codeagent/runtime/runner.py:557-568 | the log grows by one report of the limit, or not at all if that limit was reported before; the turn stays open |
| `Runner.AgentRunner.RecordOutputTruncation` | codeagent/runtime/runner.py:714-746 | the response is recorded and counted; the slice ends exactly at the limit, or else after three truncated responses in a row |
| `Runner.AgentRunner.RunCalls` | codeagent/runtime/runner.py:263-270 | after a batch of calls no call is unanswered; it stops exactly when a cancellation is seen, and then too |
| `Runner.AgentRunner.ModelStep` | codeagent/runtime/runner.py:156-270 | one iteration records one response and counts it, or ends the slice with its reason; only a request that fits the caps is sent, the turn ends for its context exactly when none could be prepared, and as stopped exactly when a cancellation was seen |
| `Runner.AgentRunner.RunSlice` | codeagent/runtime/runner.py:133-284 | however a slice ends, the log is accepted with no response in progress, the count and limit are kept, the status agrees with the last event and with whether the turn is closed, and it is stopped exactly when a cancellation was seen |
| `Runner.AgentRunner.RunTurn` | codeagent/runtime/runner.py:121-126 | a new turn starts from the user message and ends as a slice does |
| `Runner.AgentRunner.ContinueTurn` | codeagent/runtime/runner.py:128-131 | refused exactly when the turn is closed; otherwise a slice on the same turn |
| `Runner.AgentRunner.RunToEnd` | codeagent/product/execution.py:248-251 | the loop over slices ends, with a budget wait, a model failure or a closed turn, as the last event tells |
| `Runner.AgentRunner.Session` | codeagent/runtime/runner.py:121-284 | any sequence of turns, continuations, raises, idle stops and events of other writers keeps the log at rest and only extends it |
| `Runner.AnySession` | codeagent/runtime/runner.py:121-284 | every log that a new session can reach is accepted with no response in progress, with planned summaries, and at every point of every turn its responses were within the limit then in force, and its count passed it exactly by giving up on malformed calls with the limit answered |
| `Runner.AgentRunner.CallStep` | codeagent/runtime/runner.py:253-270 | the calls of a response are recorded and all answered, or the stop denies the rest |
| `Runner.AgentRunner.Request` | codeagent/runtime/runner.py:163-191 | a prepared request is sent and its usage recorded before its reply |
| `Runner.AgentRunner.RecordReply` | codeagent/runtime/runner.py:185-270 | by the reply’s own fields: an answer with calls is recorded with them, one without calls as truncated or final, a malformed one as truncated or an error; only an untruncated answer without calls, or the malformed call that is the fourth since the slice began or was last truncated or repeats the one before, ends the turn as completed |
| `Runner.AgentRunner.RecordMalformed` | codeagent/runtime/runner.py:205-223 | a malformed call is answered by its error, and the turn goes on with one more step counted or is closed by the message that gives up |
| `TextEdit.CountDecidesUniqueness` | codeagent/runtime/atomic_edit.py:168-172 | counting matches decides that a text is there exactly once, for all texts, if and only if the searched text cannot overlap itself |
| `TextEdit.CountOne` | codeagent/runtime/atomic_edit.py:169-171 | a count of one means a first occurrence and none at or after its end |
| `TextEdit.OverlappingPair` | codeagent/runtime/atomic_edit.py:169-171 | a self-overlapping text that is present twice and counted once |
| `TextEdit.ReplacesFirst` | codeagent/runtime/atomic_edit.py:172 | the replacement rewrites the first occurrence and nothing else |
| `TextEdit.DetectedStyle` | codeagent/runtime/atomic_edit.py:511-519 | a single detected newline style is the style of every newline of the text |
| `TextEdit.AdaptedFollows` | codeagent/runtime/atomic_edit.py:511-519 | an adapted text uses only the style it was adapted to |
| `TextEdit.AdaptedIsSpelled` | codeagent/runtime/atomic_edit.py:518 | an adapted text is the text’s own characters and line ends, spelled in the style; with CRLF, a lone LF and a lone CR one line end each |
| `TextEdit.OneStyle` | codeagent/runtime/atomic_edit.py:511-517 | a style is the only one detected exactly when the text has a newline and every newline has that style |
| `TextEdit.ReadingJoins` | codeagent/runtime/atomic_edit.py:172 | two texts are read one after the other exactly when no CRLF is made where they meet |
| `TextEdit.EditReads` | codeagent/runtime/atomic_edit.py:168-173 | an edited text is the text before the match, the new text and the text after it; the match says what the old text says, and with at most one style nothing is made or lost where they meet |
| `TextEdit.EditKeepsNewlines` | codeagent/runtime/atomic_edit.py:168-173 | an edit of a text with one newline style leaves that style everywhere |
| `Paths.SplitIsInjective` | codeagent/runtime/atomic_edit.py:284-292 | two texts that name the same components are the same text |
| `Paths.ByDepth` | codeagent/runtime/atomic_edit.py:204 | the paths in an order where every one comes after its parents |
| `EditPlanner.Prepare` | codeagent/runtime/atomic_edit.py:91-204 | returns the error or the plan of the one-at-a-time reference, for every request and worktree |
| `EditPlanner.PlanAll` | codeagent/runtime/atomic_edit.py:120-181 | the operation loop over lazily loaded tables keeps step with the whole tree |
| `EditPlanner.PlanCreate` | codeagent/runtime/atomic_edit.py:149-158 | a creation, with its error cases in order |
| `EditPlanner.PlanReplace` | codeagent/runtime/atomic_edit.py:159-173 | a replacement keeps the tables in step with the whole tree, with its error cases in order |
| `EditPlanner.ReplacementReads` | codeagent/runtime/atomic_edit.py:159-174 | the planned text rewrites the one match of the old text by the new one, and says what the two say |
| `EditPlanner.NormalizedMeaning` | codeagent/runtime/atomic_edit.py:284-303 | a text names a path exactly when it joins plain components within 1024 characters and neither a link nor the guard stands against it |
| `EditPlanner.OnDiskMeaning` | codeagent/runtime/atomic_edit.py:305-318 | what can be read: a text file whose UTF-8 bytes are few enough and hold no early zero, and nothing where nothing is |
| `EditPlanner.TextBytesMeaning` | codeagent/runtime/atomic_edit.py:155-181 | what counts for the text limit are the UTF-8 bytes of all texts of the request |
| `Utf8.EncodedReads` | codeagent/runtime/atomic_edit.py:354-355 | a character’s UTF-8 bytes are as many as counted and as the lead byte tells, and the character is read back from them; only NUL has a zero byte |
| `Utf8.NulAmongFirst` | codeagent/runtime/atomic_edit.py:311 | a zero among the first bytes is a NUL character that so few bytes precede |
| `Paths.SplitJoin` | codeagent/runtime/atomic_edit.py:288-292 | components without separators are read back from the text that joins them |
| `EditPlanner.PlanDelete` | codeagent/runtime/atomic_edit.py:174-177 | a deletion, with its error cases in order |
| `EditPlanner.PlanMove` | codeagent/runtime/atomic_edit.py:133-148 | a move, with its error cases in order |
| `EditPlanner.PlanRelocation` | codeagent/runtime/atomic_edit.py:138-148 | the second half of a move: the destination is free, its parents are directories, and the text and its origin move together |
| `EditPlanner.PlanParent` | codeagent/runtime/atomic_edit.py:319-334 | the missing parents are collected, or the first bad parent is reported |
| `EditPlanner.HasCycle` | codeagent/runtime/atomic_edit.py:183-190 | a cycle is reported exactly when some set of moves never leaves itself |
| `EditPlanner.PlanIsSequential` | codeagent/runtime/atomic_edit.py:192-204 | a plan takes the tree to the result of the operations one by one, its backup takes it back, and it names exactly the paths that differ |
| `EditPlanner.ExpectedDigestsAreOriginal` | codeagent/runtime/atomic_edit.py:341-346 | every expected digest was checked against the original text of the file that the path leads back to through moves and replacements |
| `EditPlanner.OriginIsDescent` | codeagent/runtime/atomic_edit.py:145-147 | the text at a path descends from the file that the moves lead back to |
| `EditPlanner.OthersKeepTheirText` | codeagent/runtime/atomic_edit.py:120-181 | a path that no operation names keeps its text |
| `EditPlanner.ChangedLoads` | codeagent/runtime/atomic_edit.py:106-118 | a path whose text changes could be read as text, or did not exist |
| `EditPlanner.CreatedDirectoriesMeaning` | codeagent/runtime/atomic_edit.py:319-334 | the created directories are exactly the missing parents of the written paths |
| `EditPlanner.WrittenParents` | codeagent/runtime/atomic_edit.py:319-334 | every existing parent of a written path is a directory |
| `EditPlanner.TextsAreWritten` | codeagent/runtime/atomic_edit.py:120-181 | a text of the final tree was there before, or some operation wrote its path |
| `EditPlanner.NewTexts` | codeagent/runtime/atomic_edit.py:120-181 | a path without an original text ends with one exactly when an operation writes it and none after that takes it away |
| `EditPlanner.ClashingPlans` | codeagent/runtime/atomic_edit.py:319-334 | for the operations alone: a plan clashes exactly when they leave a text at a path that is not there and that another of them writes below |
| `EditPlanner.FileOverItsOwnDirectory` | codeagent/runtime/atomic_edit.py:319-334 | creating a/b and then a is accepted and clashes |
| `EditJournal.EditService.Commit` | codeagent/runtime/atomic_edit.py:206-256 | with any step failing or the process dying anywhere: once no transaction is open, nothing happened and the log is unchanged, or all happened and the log has one more event, with the next revision; where nothing fails, a plan that can be put in place finishes, and one that clashes ends with a failed rollback and a locked session |
| `EditJournal.EditService.EnsureRecovered` | codeagent/runtime/atomic_edit.py:258-278 | from any state a crash leaves, finishing means the open transaction is wholly undone and unlogged, or wholly done and logged once; where nothing fails, it finishes exactly when the transaction was committed or no directory stands at a planned path, and otherwise locks the session |
| `EditJournal.EditService.Restore` | codeagent/runtime/atomic_edit.py:375-392 | from any point between the two trees, finishing means the old tree, directories included; where nothing fails, it finishes exactly when no directory stands at a planned path |
| `EditJournal.EditService.RestoreFiles` | codeagent/runtime/atomic_edit.py:376-383 | every planned path is put back, unless a directory stands there |
| `EditJournal.EditService.RemoveCreated` | codeagent/runtime/atomic_edit.py:384-388 | with the files back, taking away the empty created directories gives the old tree |
| `EditJournal.EditService.RecoverTx` | codeagent/runtime/atomic_edit.py:264-278 | one open transaction is completed or undone by its journal state |
| `EditJournal.EditService.RepairEvent` | codeagent/runtime/atomic_edit.py:474-480 | the event is written unless the log already has it |
| `EditJournal.EditService.Complete` | codeagent/runtime/atomic_edit.py:267-270 | a committed transaction gets its one event, in the order of revisions, and is cleaned up |
| `EditJournal.EditService.LoadPlan` | codeagent/runtime/atomic_edit.py:458-472 | the plan read back from the journal is the plan that was staged |
| `EditJournal.EditService.Stage` | codeagent/runtime/atomic_edit.py:209-220 | until the journal says prepared, nothing is open and nothing changed |
| `EditJournal.EditService.BackUp` | codeagent/runtime/atomic_edit.py:215-219 | every file that the plan changes is in the backup |
| `EditJournal.EditService.Place` | codeagent/runtime/atomic_edit.py:223-232 | finishing means the planned tree; a clashing plan never finishes |
| `EditJournal.EditService.RollBack` | codeagent/runtime/atomic_edit.py:233-244 | a failed commit is undone, or left open and marked; where nothing fails, it is left open exactly when the transaction is open and a directory stands at a planned path |
| `EditJournal.EditService.Settle` | codeagent/runtime/atomic_edit.py:246-256 | the event is appended once, only after the journal says committed, and carries the next revision |
| `EditJournal.EditService.NextRevision` | codeagent/session/store.py:159-164 | the next revision is handed out, or none is; a step that does not finish may still use one up |
| `EditJournal.EditService.MarkUnrecovered` | codeagent/runtime/atomic_edit.py:238-241 | the journal and the session say that recovery is required |
| `EditJournal.EditService.Apply` | codeagent/runtime/atomic_edit.py:63-89 | a successful request leaves the tree as the log’s last event says; where nothing fails, every plan that does not clash succeeds and every one that does locks the session |
| `EditJournal.EditService.Session` | codeagent/runtime/atomic_edit.py:63-89 | any requests with any failures, kills and restarts, and commands that hand out revisions too, keep the journal’s promise: the log only grows, and the revisions in it rise strictly, repaired events included |
| `EditJournal.PlanFits` | codeagent/runtime/atomic_edit.py:91-204 | a plan made on a tree is one that commit can carry out on it |
| `EditJournal.PlanIsPlaceable` | codeagent/runtime/atomic_edit.py:319-334 | every parent that a plan needs is a directory or is created first, so a plan that does not clash can be put in place |
| `EditJournal.NeverBoth` | codeagent/runtime/atomic_edit.py:192-195 | a plan that changes something is never both undone and done |
| `EditJournal.OnlyLoggedChanges` | codeagent/runtime/atomic_edit.py:246-256 | the worktree differs from the first one only at paths that a logged transaction names |
| `EditJournal.ReceiptsCanBeUndone` | codeagent/runtime/atomic_edit.py:419-437 | a logged transaction can be taken back from its own event |
| `Supervisor.ExecutionSupervisor.Start` | codeagent/product/execution.py:104-130 | accepted exactly when no job is live and the request suits the turn: a new message a closed turn, a continuation an open one that does not wait, a raise the waiting one; then one new live job |
| `Supervisor.ExecutionSupervisor.Stop` | codeagent/product/execution.py:132-167 | a live job is marked, its first request recorded once and its pending approval refused; an idle open turn is closed with a request and its acknowledgement; a closed one is refused |
| `Supervisor.ExecutionSupervisor.ResolveApproval` | codeagent/product/execution.py:169-179 | accepted exactly for the live job’s pending approval with no stop; the answer joins the earlier ones and becomes the decision |
| `Supervisor.ExecutionSupervisor.AwaitBegin` | codeagent/product/execution.py:181-195 | refused exactly when a stop was requested; otherwise the request is recorded once and the worker waits |
| `Supervisor.ExecutionSupervisor.AwaitWake` | codeagent/product/execution.py:201-213 | the worker wakes exactly on an answer or a stop; it is told yes exactly if the latest of all answers was yes and no stop was requested, and this is recorded once |
| `Supervisor.ExecutionSupervisor.YesThenNo` | codeagent/product/execution.py:169-213 | a yes followed by a no before the worker wakes: the worker is told no |
| `Supervisor.ExecutionSupervisor.Finish` | codeagent/product/execution.py:265-282 | a stopped job leaves with its turn closed and exactly one acknowledgement; a job without stop leaves the log alone |
| `Supervisor.ExecutionSupervisor.WorkerFails` | codeagent/product/execution.py:253-264 | a failed worker leaves the turn closed, with one event if it was open |
| `Supervisor.ExecutionSupervisor.WorkerEvent` | codeagent/product/execution.py:238-252 | whatever else the worker writes keeps the tables and the ledgers |
| `Supervisor.ExecutionSupervisor.AnyInterleaving` | codeagent/product/execution.py:104-290 | every interleaving of the sections keeps the invariant |
| `Supervisor.ExecutionSupervisor.OneLiveJob` | codeagent/product/execution.py:106-123 | at most one live worker for a session |
| `Supervisor.ExecutionSupervisor.NoStopIsLost` | codeagent/product/execution.py:149-155 | for a job that is gone, acknowledgements equal requests, at most one of each, and each acknowledgement found the turn closed |
| `Supervisor.ExecutionSupervisor.EachApprovalDecidedOnce` | codeagent/product/execution.py:189-211 | each approval is asked at most once, and decided exactly once unless its worker still waits |
| `GitModel.ApplyInvertsDiff` | codeagent/runtime/candidate.py:77 | a diff applied to its first tree gives its second, and reversed it gives the first back |
| `GitModel.AppliedElsewhere` | codeagent/runtime/candidate.py:173-176 | an exactly applying patch gives the frozen result only on the frozen tree |
| `GitModel.DeliversOnlyOurChanges` | codeagent/runtime/candidate.py:70-77 | the patch to deliver touches only paths that the candidate changed |
| `GitModel.UnmovedSourceTakesOurs` | codeagent/runtime/candidate.py:74-76 | when the source did not move, the merge is the candidate |
| `GitModel.AddedFilesSurvive` | codeagent/runtime/candidate.py:212-223 | a file that the candidate added is in every clean merge |
| `GitModel.MergeCombines` | codeagent/runtime/candidate.py:212-219 | a merge conflicts exactly when both sides changed a path differently and one removed it or the texts do not blend; a clean one holds at every path the side that changed it, the equal change, or the blended text |
| `GitModel.ResetAt` | codeagent/runtime/current_changes.py:75-76 | what a hard reset and a clean leave at one path |
| `GitModel.ResetToMerge` | codeagent/runtime/current_changes.py:107-121 | a hard reset to a clean merge of the worktree’s own tree leaves exactly the merge, untracked files included |
| `GitModel.ResetAndClean` | codeagent/runtime/current_changes.py:75-76 | a hard reset and a clean leave exactly the commit’s tree |
| `Delivery.ChangesService.RunCommand` | codeagent/runtime/command_service.py:113-149 | the log grows by exactly the audit entry, the completion and the evidence; evidence is for the tree left behind on the requested baseline, and is there exactly when a validation started, stopped, completed with exit code 0 and left the workspace active |
| `Delivery.ChangesService.Execute` | codeagent/runtime/command_service.py:121-136 | an unstopped command asks for recovery, a failed audit taints the workspace, and the revision rises exactly when an audited tree changed |
| `Delivery.ChangesService.CurrentEvidence` | codeagent/runtime/validation.py:10-23 | evidence is for exactly this tree on exactly this baseline |
| `Delivery.ChangesService.Freeze` | codeagent/runtime/candidate.py:43-113 | what is frozen was validated as it stands, combines the worktree and the source at every path, and carries its exact patch; a conflict freezes nothing; where nothing fails or interferes, it succeeds exactly on acceptable changes |
| `Delivery.ChangesService.FreezeMerge` | codeagent/runtime/candidate.py:74-113 | the frozen patch takes the source as it was seen to its clean merge with the changes; where nothing interferes, a conflict freezes nothing; where nothing fails either, it exists exactly when the merge is clean, changes the source and is small |
| `Delivery.ChangesService.ApplyFrozen` | codeagent/runtime/candidate.py:142-180 | the source is written at most once, by the frozen patch, after both checks; applied is answered exactly when the last look saw the merged tree and the result was recorded; a quiet source that is still the frozen one becomes the merged tree |
| `Delivery.ChangesService.TryApply` | codeagent/runtime/candidate.py:147-179 | the checks, the approval, the second checks, the write and the last look, each with its status or the exception it ends in; the patch was tried on the source before the approval and again before the write, and a refused trial is answered as such |
| `Delivery.ChangesService.Accept` | codeagent/runtime/current_changes.py:35-70 | a receipt means that no step failed; applied means a delivered, validated tree that combines the worktree and the source at every path, and a worktree on its new baseline; with a conflict and no interference, it fails and leaves the source alone; otherwise the session stays in accepting exactly when the frozen files could not be cleared, and of the rest it asks for recovery exactly when the last look confirmed the write and the result was recorded; where nothing fails or interferes, the answer is decided by the state, the changes and the approval alone |
| `Delivery.ChangesService.Deliver` | codeagent/runtime/current_changes.py:41-69 | what was frozen is applied once, and concluded or given back; every end state is decided by the last look, the record and the clearing of the frozen files |
| `Delivery.ChangesService.Conclude` | codeagent/runtime/current_changes.py:46-61 | the checkpoint leaves worktree, head and baseline on the merged tree, or recovery is required, or the frozen files cannot be cleared and the session stays in accepting |
| `Delivery.ChangesService.NotApplied` | codeagent/runtime/current_changes.py:43-70 | without a confirmed and recorded write the session returns to active changes, or stays in accepting where the frozen files cannot be cleared |
| `Delivery.ChangesService.Discard` | codeagent/runtime/current_changes.py:72-95 | the worktree is proved to be the baseline’s tree and no step failed, or recovery is required; where nothing fails, it succeeds |
| `Delivery.ChangesService.ResetToBase` | codeagent/runtime/current_changes.py:75-88 | success is observed, not assumed |
| `Delivery.ChangesService.Session` | codeagent/runtime/current_changes.py:35-95 | edits, commands, accepts and discards in any order, with a source that others change, keep the invariant |
| `Delivery.EvidenceIsNotReused` | codeagent/runtime/validation.py:16-23 | two accepted trees never rest on the same validation, and each has its own earlier one |
| `Delivery.SlipNeedsInterference` | codeagent/runtime/candidate.py:173-180 | an unconfirmed write needs a source other than the frozen one, or a last look that failed or saw something else; for an exact patch and a last look that sees what was written, it happens exactly when the source was another one |
| `Delivery.SlipExample` | codeagent/runtime/candidate.py:173-180 | a file added in the window: the patch applies, and the last look does not confirm, so accept goes back to active changes |
| `Sandbox.Build` | codeagent/runtime/bubblewrap.py:29-65 | for every path the last covering mount allows exactly what the policy says, every mount point below /tmp has its parents made first, and every existing denied path is masked |
| `Sandbox.AppendGroup` | codeagent/runtime/bubblewrap.py:55-64 | a group of mounts, from the outside in |
| `Sandbox.PlanImplementsPolicy` | codeagent/runtime/bubblewrap.py:29-65 | the ordered list and the policy agree at every path |
| `Sandbox.PlanMakesMountPoints` | codeagent/runtime/bubblewrap.py:41-55 | directories are made before the mounts that need them |
| `Sandbox.GrantsOpenNothingForbidden` | codeagent/runtime/sandbox_policy.py:34-69 | in the list built for any set of grants, exactly the denied paths are masked, and no protected or source path is writable |
| `Sandbox.GrantsOnlyAdd` | codeagent/runtime/sandbox_policy.py:58-69 | what one list lets be written, the list for more grants does too |
| `Sandbox.AllowedWritesAreWritable` | codeagent/runtime/sandbox_policy.py:34-50 | a write that the policy lets through without a session grant is writable at its resource in the list built with its grant |
| `Sandbox.CoveredWrites` | codeagent/runtime/sandbox_policy.py:108-127 | a write that a session grant covers is allowed unseen, and in the list for any grants that include the session’s it is writable exactly when no existing boundary covers it |
| `Sandbox.CoveredWriteStaysReadOnly` | codeagent/runtime/sandbox_policy.py:34-36 | a covered write inside the source: allowed, and read-only |
| `Sandbox.AllowedReads` | codeagent/runtime/sandbox_policy.py:44-45 | in the list for any grants, an allowed read shows the host’s file exactly unless it is denied, which takes a covering session grant, or lies in the private /tmp with no mount over it |
| `Sandbox.AllowedReadStaysPrivate` | codeagent/runtime/sandbox_policy.py:44-45 | a read below /tmp without any grant: allowed, and shown the private directory |
| `Sandbox.NetworkIsAsked` | codeagent/runtime/sandbox_policy.py:34-39 | network access is asked for unless the session granted it, and the effective policy has it exactly then |
| `Sandbox.DeniedExactly` | codeagent/runtime/sandbox_policy.py:40-50 | what is denied without a session grant, and of the rest what is asked for |
| `Sandbox.GrantsAreSpecific` | codeagent/runtime/sandbox_policy.py:108-133 | a grant covers its own request, and otherwise only paths below a granted directory, reads under a write, and never a file replaced since |
| `Decoders.DecodeAll` | examples/eval-repos/httpx/httpx/_decoders.py:321-378 | decoding a text in any pieces and flushing gives its lines |
| `Decoders.LineDecoder.Decode` | examples/eval-repos/httpx/httpx/_decoders.py:333-369 | the lines given out and the buffered line are the lines of the text so far |
| `Decoders.LineDecoder.Flush` | examples/eval-repos/httpx/httpx/_decoders.py:371-378 | the last lines complete the batch result and the decoder is as new |
| `Decoders.SplitAppend` | examples/eval-repos/httpx/httpx/_decoders.py:333-369 | splitting a text cut anywhere but inside a CRLF is splitting its parts, with an open line going on |
| `Decoders.SplitsAtNewlines` | examples/eval-repos/httpx/httpx/_decoders.py:333-369 | a text is split at each newline character, with CRLF as one, and the last line needs none |
| `Decoders.ChunkAll` | examples/eval-repos/httpx/httpx/_decoders.py:228-303 | the chunks of any pieces are the slices of the whole, and nothing is lost |
| `Decoders.Chunker.Decode` | examples/eval-repos/httpx/httpx/_decoders.py:237-258 | only full chunks are given out before the flush |
| `Decoders.Chunker.Flush` | examples/eval-repos/httpx/httpx/_decoders.py:260-264 | the rest completes the batch result |
| `Decoders.JoinOfSlices` | examples/eval-repos/httpx/httpx/_decoders.py:228-264 | the slices of a text join to the text |
| `Decoders.SlicesGoOn` | examples/eval-repos/httpx/httpx/_decoders.py:241-256 | slicing may go on from the left-over |
| `Selection.ProportionalTargets` | codeagent/benchmark/selection.py:249-257 | targets sum to the size, each is its quota rounded down or up and at most its pool, and larger remainders are served first; refused exactly for a small pool or a missing tier |
| `Selection.ApportionmentIsUnique` | codeagent/benchmark/selection.py:249-257 | a size has exactly one apportionment |
| `Selection.LargerRemainderFirst` | codeagent/benchmark/selection.py:255 | a tier rounded up lost no less to rounding than one rounded down, and of equal losses it is the earlier tier |
| `Selection.SeatsLeft` | codeagent/benchmark/selection.py:254-256 | rounding down leaves as many seats as the remainders make up, at most two |
| `Selection.OneSeat` | codeagent/benchmark/selection.py:249-257 | a quota rounded up only with a remainder stays within the pool |
| `Selection.Generate` | codeagent/benchmark/selection.py:109-180 | a written selection meets the targets, the repository cap and the exclusions, and holds distinct tasks in tier order that passed; none is written only for unknown exclusions, a small pool, a missing tier, repeated ids, or a tier left short with every candidate taken, failed or at the cap |
| `Selection.SelectTier` | codeagent/benchmark/selection.py:137-171 | one tier of the loop for any preflight outcomes: short of its target only when no candidate is left that could be taken |
| `Selection.RepoCap` | codeagent/benchmark/selection.py:107 | a repository may give three tenths of the tasks, rounded down, and one at least |
| `Selection.AmplePool` | codeagent/benchmark/selection.py:137-171 | a suitable pool of distinct candidates that all pass, within the repository caps, never leaves a tier short |
| `Selection.ReaderAgrees` | codeagent/benchmark/batch.py:23-42 | the reader takes every written selection exactly when the requested size is positive |
| `Selection.ZeroIsWritten` | codeagent/benchmark/selection.py:109-180 | on every suitable pool the empty selection is sound for size zero, and the reader refuses it |
| `Selection.ZeroIsWrittenExample` | codeagent/benchmark/selection.py:109-180 | such a pool: one task of each tier |
| `Usage.AggregateUsage` | codeagent/benchmark/accounting.py:17-37 | the field loop computes sums, coverage, completeness and derived cache misses of the requests |
| `Usage.TotalsMeaning` | codeagent/benchmark/accounting.py:17-37 | a total is there when some request reports the field, complete when every one does; cache misses that nobody reports are what the cached part leaves of the input, when every request reports both |
| `Usage.ZeroIsKnown` | codeagent/benchmark/accounting.py:40-47 | a task known to have made no request is idle, and one of which nothing is known is not |
| `Usage.CoverageMeaning` | codeagent/benchmark/accounting.py:17-25 | coverage is complete, unavailable or partial as all, none or some of the requests reported anything, and the ratio is their share |
| `Usage.OneItem` | codeagent/benchmark/accounting.py:17-28 | the figures of one request |
| `Usage.AggregateEntries` | codeagent/benchmark/batch.py:472-510 | the second level computes its totals and flags from the first level’s |
| `Usage.EntryField` | codeagent/benchmark/batch.py:493-505 | one field of the second level: a sum only when every known entry has a value, complete only when every entry is |
| `Usage.Tally` | codeagent/benchmark/accounting.py:26-28 | how many requests report a field, and the sum of what they report |
| `Usage.BatchOfTasks` | codeagent/benchmark/batch.py:464-510 | for requests cut into tasks in any way: counts and coverage are those of all requests together, every other figure is exactly under its condition, and all are when reporting is even |
| `Usage.TotalsAgree` | codeagent/benchmark/batch.py:493-501 | the two levels give the same total exactly when every task with requests reports the field or none does, or, for cache misses, when the tasks that do not report them all derive them and these add up to nothing |
| `Usage.UnevenTotalsDiffer` | codeagent/benchmark/batch.py:493-501 | two tasks of which one reports a field: the totals differ |
| `Usage.CompletenessAgrees` | codeagent/benchmark/batch.py:502-505 | the flags agree exactly unless all tasks are complete for cache misses, some by reporting and some by deriving them |
| `Usage.MixedFlagsDiffer` | codeagent/benchmark/batch.py:502-505 | one task that reports its cache misses and one that derives them: the flags differ |
| `Usage.CoverageAgrees` | codeagent/benchmark/batch.py:484-492 | request counts and coverage agree however requests are cut |
| `Usage.DerivedFlagAgrees` | codeagent/benchmark/batch.py:506-509 | the derived flag agrees unless a task without requests stands among derived ones |
| `Usage.IdleTaskClearsDerived` | codeagent/benchmark/batch.py:506-509 | one task that derives its cache misses and one without requests: the derived flag differs |

## Left out

- JSON encoding, message texts and schemas: token estimates take sizes from a `Measure` parameter,
  and control messages are among the arbitrary transient messages of a request.
- Turn views for display, the timeline, the RPC layer, the command line, providers and the editor
  extension.
- Legacy events without a model step identity, the manual `/call` command, tool handlers that raise,
  and processes killed in the middle of a tool call: the claim that the runner's log is always
  accepted does not cover them. Call ids are distinct within a turn.
- A crash between appending an event and rewriting the session record, which can reuse a number.
- A slice length of zero: the worker's loop over slices would then never end, and the runtime
  configuration does not exclude it. `Runner.AgentRunner.RunToEnd` requires at least one step.
- The bound on a rendered tool result, and the omission notes in a budget report.
- Tool execution itself, workspace upgrades inside a turn, and file contents read by tools.
- JSON argument shapes of an edit: a request field of a wrong type is one malformed operation.
  Case folding and the size of the review patch are parameters. Lone surrogates in texts.
- Foreign writers between planning an edit and the end of its recovery; symbolic links that appear
  after planning; temporary files left by a kill; file modes. One append to the log, one replace,
  one removal of a transaction directory, and reading a transaction's state each succeed or fail
  as a whole.
- EditJournal.EditService.RemoveTx: a transaction directory is removed at once, so a half-removed
  directory that blocks recovery is not modelled.
- Order among planned files: the journal’s loops take them in any order, which includes the
  program’s sorted one. Directories of equal depth are in any order.
- Threads as such, condition variables and notification delivery: a waiting worker is a state, and
  waking is a section with its guard.
- Renames in merges, binary files, ignored files and Git filters: trees are maps from paths to texts,
  a conflicting pair of texts goes to an arbitrary content merge, and a patch that does not fit
  exactly goes to an arbitrary fuzzy application.
- A `git apply` killed in the middle: it changes all files of a patch or none.
- Commands that change the worktree while `accept` runs, and commands that move its head; stored
  copies of deliveries. The approval part of a command. Writes to the session record that fail
  while a failure of `accept` or `discard` is handled, or within a command: these always succeed.
- Symbolic links in sandbox paths: paths are taken as resolved. The discovery of protected and denied
  paths, network namespaces, and the command line of the sandbox program.
- Floating point in quotas and in the repository cap: both are exact rationals.
- Artifacts, checkpoints and resumption of a selection run: the outcome of every preflight is a
  parameter, however it came about. The search of a selection for forbidden keys.
- Prices and cost totals.
- The compression decoders, the text decoder, and the rest of the bundled HTTP client.
