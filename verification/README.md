# FootballAi V2: verification model

A Dafny 4.11 model of the parts of FootballAi V2 where a mistake would be hard to see: the life of one analysis run
under crashes and cancellations, the bounded question agent with its grounding and its budget, and three small loops.
`dafny verify dfyconfig.toml` checks everything.

## The run lifecycle

`RunContract` is the immutable record of one attempt with its validation and its transitions. `RunStore` holds the
shared lifecycle rules (`Lifecycle`), the local store as a class over manifests, write-once files and cancel marks, and
`StoreHistories`: every order of creations, retries, saves, half-finished artifact writes and cancellation requests by
any number of clients. `Coordinator` creates retries and clones. `RunJson` and `Timestamps` are the wire form.

The executor comes in two forms. `Executor` is a machine with one step for each access to the stored run, and events
for everything that can happen between two accesses: a cancellation request, a crash, a redelivery, and another client
that ends the run with a record it loaded while the run was queued. `ExecutorSteps`, `ExecutorHistories`,
`ExecutorCancellation`, `ExecutorTheorems`, `ExecutorRecords`, `ExecutorDeliveries` and `ExecutorCompletion` prove what
holds over all histories of that machine, and what the record says at the end.
`ExecutorRuntime` is the executor as a class: a loop over the stages, with saves to the shared store and four exits,
that is proved to follow the machine. What a pipeline returns is a list of payloads, and the two dashboard aliases are
made of two of them; a payload carries the JSON encodings that are made of it.

Assumptions: a save is one atomic step, the clock of the worker does not go back, at most one worker handles a run at a
time, and delivery is at least once. What the pipeline returns or raises is arbitrary.

## The agent

The model is an arbitrary function from all requests so far to raw replies or errors, tool handlers are arbitrary
functions of the catalog, and the clock is an arbitrary sequence of readings. `Provider` is the strict reply parser,
`AgentTools` the registry, `AgentTrace` the bounded trace, `AgentLoop` and `AgentConversations` the conversation,
`AgentAnswer` grounding and the whole question, `AgentMonitor` the protocol monitor, `Grounding` and `Evidence` the claims, their rendering and their
citations, `Snapshot` and `SnapshotValues` the evidence of a run field by field. `Budget` is the cost guard, with every interleaving of
threads in `Interleavings`; `Pricing` has the bounds.
Money, time and speed are reals.

## What the code does not promise

Each of these names the condition under which the code does, and where it fails an input that shows it.

- The reservation of a turn covers every usage if and only if a cache write is no dearer than input
  (`Pricing.WorstCaseBoundsEveryUsageIff`). It is dearer in every listed price (`Pricing.NoListedPriceCoversCacheWrites`,
  `Pricing.ACacheWriteExceedsItsReservation`), so the bound rests on there being no cache writes.
- Recorded turns equal the guard's requests if and only if two kinds of outcome balance
  (`Interleavings.RecordedTurnsEqualRequestsSentIff`): a budget failure that the inner model raises itself is charged but
  not recorded (`Interleavings.AnInnerRefusalIsNotRecorded`), and a timeout of the not-configured kind is released but
  recorded (`Interleavings.AnUnconfiguredTimeoutIsNotCounted`). No code of the repository raises the second.
- All citations of the catalog validate if and only if none cites the diagnostics artifact, or it is registered with a
  schema version and still intact (`Evidence.CatalogValidatesIff`). Without a schema version the evidence is loaded
  nevertheless, and then every citation of it is refused.
- The citable paths of a run are exactly those that resolve if and only if no artifact id and no threshold of its short
  tracklets contains a dot (`Snapshot.CitablePathsResolveIff`). Both may: the contract allows such ids, and the
  thresholds are the keys of the payload (`Snapshot.AnExampleThresholdDoesNotResolve`,
  `Evidence.DottedKeysAreListedButDoNotResolve`).
- Over a catalog of at most 32 valid ids, a question ends with an exception of the trace if and only if calls that were
  let through returned more than 32 claims (`AgentAnswer.AgentService.AnswerQuestion`,
  `AgentLoop.OnlyLongAnswersOverflow`). The registry approves such an answer (`AgentLoop.ARepeatedClaimOverflows`,
  `AgentLoop.AnExampleEscapes`); the shipped tools never give one (`AgentLoop.ShippedToolsAreTraceable`).
- A run at rest can still complete if and only if no file is in the way of what its adapter publishes, next to what
  its stages, a planned failure and a request to cancel it demand (`ExecutorCompletion.RunsCompleteIff`). A worker that
  dies after writing one of those files leaves a run that can be delivered again and never completes
  (`ExecutorCompletion.AnInterruptedPublicationNeverCompletes`); every run can be left like that
  (`ExecutorCompletion.EveryRunCanBeLeftUnable`, `ExecutorCompletion.TheCrashedWorldNeverCompletes`).
- A request to cancel that comes before the second checkpoint of the publication stage is passed rules out completion
  for good (`ExecutorCancellation.RequestsBeforeTheLastCheckpointWin`). A later one changes nothing, unless a crash makes
  that stage run again or the pipeline looks at the mark itself
  (`ExecutorCancellation.RequestsPastTheLastCheckpointChangeNothing`), and a run that could complete still can
  (`ExecutorCompletion.LateRequestsLeaveRunsAbleToComplete`).
- Something besides the label is shown if and only if some selected claim fits beside it; a longer one is dropped whole
  (`Grounding.MoreThanTheLabelIsShownIff`).

## Model

| member | source | states |
|---|---|---|
| `Pricing.CostIsMonotone` | v2/src/footballai_v2/copilot/pricing.py:49-57 | A request's list price never falls as any of its four token counts grows, also across the long-prompt jump at 100,000 tokens |
| `Pricing.WorstCaseBoundsRequest` | v2/src/footballai_v2/copilot/pricing.py:60-63 | What was reserved for a turn covers every usage within its limits that wrote nothing to the cache |
| `Pricing.WorstCaseBoundsEveryUsageIff` | v2/src/footballai_v2/copilot/pricing.py:40-63 | With cache writes allowed, the reservation covers every usage if and only if a cache write is no dearer than input |
| `Pricing.NoListedPriceCoversCacheWrites` | v2/src/footballai_v2/copilot/pricing.py:39-46 | No listed price lets a reservation cover a prompt written to the cache, whatever the turn |
| `Pricing.ACacheWriteExceedsItsReservation` | v2/src/footballai_v2/copilot/pricing.py:40-63 | 2,000 written tokens cost $0.00025 at the first listed price, where $0.0002 was reserved |
| `Pricing.QuestionCostIsBounded` | v2/src/footballai_v2/copilot/pricing.py:66-77 | The turns of one agent question cost at most the published worst case, whatever each reports within its limits |
| `Pricing.TheWorstCaseIsReached` | v2/src/footballai_v2/copilot/pricing.py:66-77 | That worst case is the least bound: a question of full turns costs exactly as much |
| `Pricing.ListedPricesChargeAsPublished` | v2/src/footballai_v2/copilot/pricing.py:39-57 | What any usage costs under each of the four listed prices, in dollars per token written out, with the surcharge of the first one beyond 100,000 prompt tokens |
| `Budget.BudgetGuard.Admit` | v2/src/footballai_v2/copilot/budget.py:46-53 | Refuses for the request limit exactly when it is reached, for the cap exactly when it is not and spent, reserved and new worst case exceed it; otherwise counts and reserves |
| `Budget.BudgetGuard.Release` | v2/src/footballai_v2/copilot/budget.py:55-59 | Takes an unsent request out of the count and its reservation out of the reserved money |
| `Budget.BudgetGuard.Charge` | v2/src/footballai_v2/copilot/budget.py:61-68 | Turns a reservation into the reported cost, or into its worst case, which is counted, exactly when no usage was reported |
| `Budget.BudgetedAgentModel.Complete` | v2/src/footballai_v2/copilot/budget.py:104-124 | Admits, calls and settles one request; the counters afterwards are those of the specification for its outcome |
| `Budget.UninterruptedCallLeavesNoReservation` | v2/src/footballai_v2/copilot/budget.py:104-124 | Alone, a settled call leaves the reserved money as it was, and a call that was never sent leaves no trace at all |
| `Budget.TurnsReserveInFull` | v2/src/footballai_v2/copilot/budget.py:71-88 | A turn reserves for all instructions, tools and messages that the server wrote, and for a full output for each earlier reply |
| `Interleavings.EveryInterleavingKeepsInvariant` | v2/src/footballai_v2/copilot/budget.py:46-68 | Under every interleaving, reserved money is the sum of the reservations in flight, spent money the sum of settlements, and each admission settles at most once |
| `Interleavings.SpentMoneyIsReportedOrWorstCase` | v2/src/footballai_v2/copilot/budget.py:61-68 | Under every interleaving, spent money is the list price of the usage reported by sent requests plus the worst case of each sent one that reported none, and those are what is counted |
| `Interleavings.AReportIsChargedForItself` | v2/src/footballai_v2/copilot/budget.py:61-68 | A request with $0.0017 reserved that reports 1,000 input and 100 output tokens leaves $0.00015 spent |
| `Interleavings.CallsAreAdmittedIff` | v2/src/footballai_v2/copilot/budget.py:46-53 | After any interleaving a call is admitted exactly when settled and open requests are below the limit and all reported, unreported and open money leaves room for its worst case |
| `Interleavings.SpendStaysWithinCaps` | v2/src/footballai_v2/copilot/budget.py:46-68 | Spent plus reserved money stays within the cap and the count within its limit, when every report is within its turn |
| `Interleavings.HonestUsageNeverOverruns` | v2/src/footballai_v2/copilot/budget.py:61-68 | Reports within their turns never cost more than was reserved for them |
| `Interleavings.RecordedTurnsEqualRequestsSentIff` | v2/src/footballai_v2/copilot/agent/loop.py:109-116 | With nothing in flight, recorded turns equal the guard's requests exactly when the two kinds of outcome that only one side counts balance |
| `Interleavings.RecordedTurnsEqualRequestsSent` | v2/src/footballai_v2/copilot/agent/loop.py:261-280 | So they are equal when the inner model raises neither a budget failure nor a timeout of the not-configured kind |
| `Interleavings.AnInnerRefusalIsNotRecorded` | v2/src/footballai_v2/copilot/budget.py:113-120 | One call whose inner model raises a budget failure itself: one request counted, no turn recorded |
| `Interleavings.AnUnconfiguredTimeoutIsNotCounted` | v2/src/footballai_v2/copilot/agent/loop.py:265-267 | One call that ends in a timeout of the not-configured kind: no request counted, one turn recorded |
| `Provider.ParsedRepliesAreWellFormed` | v2/src/footballai_v2/copilot/provider.py:427-464 | Every parsed reply has distinct call ids that are exactly the ids its content asks to have answered, or a selection without repeats |
| `Provider.ToolTurnsAreAcceptedIff` | v2/src/footballai_v2/copilot/provider.py:427-464 | A tool-use turn is accepted exactly when it has calls, all readable, under distinct ids |
| `Provider.FinalTurnsAreReadExactly` | v2/src/footballai_v2/copilot/provider.py:441-464 | A finished turn is accepted exactly when it makes no call and its text decodes to at most 64 ids without repeats; the reply then selects exactly those, in their order, and makes no call |
| `Provider.ToolTurnsAreReadExactly` | v2/src/footballai_v2/copilot/provider.py:427-464 | An accepted tool-use turn makes exactly the calls of its blocks, in order, with their ids, names and arguments, and selects nothing |
| `Provider.OneBlockIsRead` | v2/src/footballai_v2/copilot/provider.py:269-279 | Of a single block, exactly a tool-use block is read as a call and exactly a non-empty text as text |
| `Provider.OtherMessagesAreRefused` | v2/src/footballai_v2/copilot/provider.py:183-203 | Every other stop reason is refused, with the failure kind of a refusal, a truncation or an invalid response exactly as the reason says |
| `AgentMonitor.CheckHistory` | v2/src/footballai_v2/copilot/evaluation/agent_models.py:92-106 | One history has no violation exactly when roles alternate and every result message answers exactly the calls before it; otherwise the list holds exactly the wrong roles, mixed contents and unanswered calls that there are |
| `AgentMonitor.ProtocolViolations` | v2/src/footballai_v2/copilot/evaluation/agent_models.py:85-107 | The list is empty exactly when history only grows and the last history conforms, and names an edit exactly when there was one |
| `AgentTools.ToolRegistry.Execute` | v2/src/footballai_v2/copilot/agent/tools.py:201-241 | One call is rejected, failed or answered as specified, and only a call that reaches the handler marks its tool as called |
| `AgentTools.ExecutionsAreAnsweredIff` | v2/src/footballai_v2/copilot/agent/tools.py:201-241 | Which of the five error codes a call of a known tool gets, as an if and only if for each, with the status, the claims, the text for the model and whether the tool counts as called |
| `AgentTools.UnknownToolsAreRejected` | v2/src/footballai_v2/copilot/agent/tools.py:203-205 | A name without a tool is rejected as unknown, and nothing is called |
| `AgentTools.ToolNamesAre` | v2/src/footballai_v2/copilot/agent/tools.py:28-33 | Each tool has its own name for the model |
| `AgentTools.CallsReturnOnlyServerClaims` | v2/src/footballai_v2/copilot/agent/tools.py:201-241 | Whatever a handler does, a call returns only claims equal to the server's own, owned by that tool, and none with an error |
| `AgentTools.ToolsRunAtMostOnce` | v2/src/footballai_v2/copilot/agent/tools.py:209-211 | After a call that ran a tool, every further call of it is rejected without claims |
| `AgentTools.ReadOnlyToolsSucceed` | v2/src/footballai_v2/copilot/agent/tools.py:85-95 | A shipped tool succeeds and returns exactly its claims of the catalog, when ids are distinct and claims fit the payload |
| `AgentTools.ReadOnlyToolsAnswerShortly` | v2/src/footballai_v2/copilot/agent/tools.py:85-137 | Over claims with distinct ids, no shipped tool returns more than eleven of them |
| `AgentTools.EveryClaimHasOneTool` | v2/src/footballai_v2/copilot/agent/tools.py:97-137 | Each of the 21 owned claim ids reaches the model through one named tool, and through no other |
| `AgentTrace.TraceRecorder.RecordTurn` | v2/src/footballai_v2/copilot/agent/trace.py:260-288 | Records a turn with its number, time and usage, or nothing when the schema refuses it |
| `AgentTrace.TraceRecorder.RecordTool` | v2/src/footballai_v2/copilot/agent/trace.py:290-303 | Notes the returned ids once each, then records the call unless the schema refuses it |
| `AgentTrace.TraceRecorder.Build` | v2/src/footballai_v2/copilot/agent/trace.py:312-354 | Builds the trace of all recorded facts, exactly when it fits the schema |
| `AgentTrace.TurnsKeepConsistent` | v2/src/footballai_v2/copilot/agent/trace.py:260-288 | Usage and cost totals stay the sums over the turns that reported usage, and completeness says whether all did |
| `AgentTrace.ToolsKeepConsistent` | v2/src/footballai_v2/copilot/agent/trace.py:290-303 | Sequence numbers stay 1 to n, and the returned ids stay those of the calls, without repeats |
| `AgentTrace.RecordsAreAcceptedIff` | v2/src/footballai_v2/copilot/agent/trace.py:112-131 | The schema refuses a turn exactly after the fifth, and a call exactly after the fourth or for its list of ids |
| `AgentTrace.EveryCallIsValidOrNot` | v2/src/footballai_v2/copilot/agent/trace.py:349-350 | Valid and invalid tool calls add up to all calls |
| `AgentTrace.TracesAreAcceptedIff` | v2/src/footballai_v2/copilot/agent/trace.py:133-162 | The finished trace fits its schema exactly when the returned, selected and rendered ids do |
| `AgentTrace.RecordsSay` | v2/src/footballai_v2/copilot/agent/trace.py:260-303 | What a recorded turn and a recorded call say: number, turn, milliseconds, usage, tool, status, ids and error code |
| `AgentTrace.TracesAccount` | v2/src/footballai_v2/copilot/agent/trace.py:312-354 | Cost, lower bound, source of the usage, the four token sums, both total times and both counts of calls are those of the turns and calls listed |
| `AgentLoop.ReadOnlyAgent.ModelTurn` | v2/src/footballai_v2/copilot/agent/loop.py:261-280 | Sends one request; a turn is recorded with its time and usage unless the request was refused locally, each failure stops with its own reason, and a late reply is discarded as a timeout |
| `AgentLoop.ReadOnlyAgent.Refuse` | v2/src/footballai_v2/copilot/agent/loop.py:282-294 | Stops a turn whose calls name a run, then one over the call budget, then the final one, each with its own reason and detail, and lets every other turn's calls run |
| `AgentLoop.ReadOnlyAgent.RunTools` | v2/src/footballai_v2/copilot/agent/loop.py:296-317 | Answers every call of the turn once, in order, with exactly its content and error flag, and retrieves exactly the claims that came back; fails exactly when the trace cannot list what some call returned |
| `AgentLoop.ReadOnlyAgent.RunRound` | v2/src/footballai_v2/copilot/agent/loop.py:250-258 | The history, the tools called and the claims retrieved after a round are those that the model's replies determine, and the prompt size counts every result |
| `AgentLoop.NextRequestFollows` | v2/src/footballai_v2/copilot/agent/loop.py:253-258 | A request that shows the history of the earlier replies keeps the conversation determined by the model |
| `AgentLoop.ReadOnlyAgent.Converse` | v2/src/footballai_v2/copilot/agent/loop.py:206-259 | For any model and handlers: every request shows exactly the history of the earlier replies, within the limits; only server claims are retrieved; each request that counts is one recorded turn; the reason, detail and trace at the end are those that the replies, the limits and the clock determine; and an exception escapes exactly when calls that were let through returned more than the trace can list |
| `AgentLoop.LimitsEndItIff` | v2/src/footballai_v2/copilot/agent/loop.py:225-232 | A conversation ends for the deadline, or for the length of the prompt, exactly when its last calls ran and then the time had passed, or it had not and the next prompt was too long |
| `AgentLoop.FailuresEndItIff` | v2/src/footballai_v2/copilot/agent/loop.py:109-114 | Which reason and detail each failure of the last request gives, as an if and only if for timeout or late reply, refusal, truncation, invalid response, exhausted budget and every other kind |
| `AgentLoop.RepliesEndItIff` | v2/src/footballai_v2/copilot/agent/loop.py:246-294 | A reply in time ends the conversation as a selection exactly when it makes no call, else for a run named, too many calls, the final turn or the escaped exception, each exactly under its condition and in this order |
| `AgentConversations.DuplicatesAreThoseThatRanBefore` | v2/src/footballai_v2/copilot/agent/tools.py:206-211 | Over a whole conversation, a call runs exactly when it has no arguments and no earlier call ran the same tool, and is a duplicate exactly when one did |
| `AgentConversations.RetrievedAreTheReturned` | v2/src/footballai_v2/copilot/agent/loop.py:303-308 | A claim may be shown exactly when some call of the conversation returned it |
| `AgentConversations.HistoriesAreMadeOfRounds` | v2/src/footballai_v2/copilot/agent/loop.py:220-258 | Before any request stand the question and, for each earlier reply, its blocks unchanged and one result per call with its id, text and error flag |
| `AgentConversations.PromptsAreCounted` | v2/src/footballai_v2/copilot/agent/loop.py:221-252 | The prompt size is that of the instructions, the tools, the question and every tool result so far |
| `AgentConversations.ConversationsAreBounded` | v2/src/footballai_v2/copilot/agent/loop.py:118-135 | Under every valid configuration a request may take 20 seconds at most and must be over 45 seconds after the question came, and a conversation that goes on has run at most four calls in fewer than five turns |
| `AgentLoop.GoodConversationsConform` | v2/src/footballai_v2/copilot/evaluation/agent_models.py:85-107 | The requests of every conversation of the loop satisfy the protocol monitor |
| `AgentLoop.RoundKeepsHistory` | v2/src/footballai_v2/copilot/agent/loop.py:247-258 | Adding a reply and the results of its calls keeps roles alternating and every call answered |
| `AgentLoop.CallsFitTheTrace` | v2/src/footballai_v2/copilot/agent/trace.py:112-119 | With handlers that return at most 32 claims, every call fits its trace record |
| `AgentLoop.OnlyLongAnswersOverflow` | v2/src/footballai_v2/copilot/agent/trace.py:112-119 | Over valid claim ids, the trace refuses exactly the conversations in which some call returned more than 32 claims |
| `AgentLoop.ShippedToolsAreTraceable` | v2/src/footballai_v2/copilot/agent/tools.py:97-137 | The shipped tools never overflow the trace, over any catalog of at most 32 claims with distinct, valid ids |
| `AgentLoop.ARepeatedClaimOverflows` | v2/src/footballai_v2/copilot/agent/tools.py:234-241 | A handler that hands over one claim of its own 33 times is approved, and a model that calls it overflows the trace |
| `AgentLoop.AnExampleEscapes` | v2/src/footballai_v2/copilot/agent/loop.py:296-317 | The agent, run with that handler and model under any limits that allow one call, ends with the exception |
| `AgentLoop.ConversationsStayWithinTheWorstCase` | v2/src/footballai_v2/copilot/pricing.py:66-77 | The prompt budget and turn limit of the loop make the published worst case of a question hold |
| `AgentAnswer.Ground` | v2/src/footballai_v2/copilot/agent/loop.py:321-391 | A selection is grounded exactly when all its ids were retrieved, something routed is shown and all its citations are valid; each refusal names the first that fails, with the known ids and the number rejected |
| `AgentAnswer.RenderingShowsWhatWasPromised` | v2/src/footballai_v2/copilot/grounding.py:644-671 | The label comes first, and everything after it was selected, is routed and equals the server's own claim |
| `AgentAnswer.EligibleClaimsAreTheServers` | v2/src/footballai_v2/copilot/grounding.py:628-632 | An eligible claim is routed or the label, and is the claim the full catalog has under its id |
| `AgentAnswer.AgentService.Publish` | v2/src/footballai_v2/copilot/agent/loop.py:321-391 | A selection becomes an explanation or a typed refusal, and its trace never fails over a catalog of at most 32 valid ids |
| `AgentAnswer.AgentService.AnswerQuestion` | v2/src/footballai_v2/copilot/agent/loop.py:177-202 | For any model and handlers: the answer begins with the label and holds each shown claim in its place; the ending, its detail, the mode and the trace are those that the route, the conversation and the grounding of its selection determine; over at most 32 valid ids there is no result exactly when the conversation overflowed the trace, and always one with the shipped tools over distinct ids |
| `Grounding.EligibleIff` | v2/src/footballai_v2/copilot/grounding.py:628-632 | A claim is eligible exactly when the route names it or it is the label |
| `Grounding.ByIdFinds` | v2/src/footballai_v2/copilot/grounding.py:655 | A lookup by id finds a claim of that id exactly when there is one |
| `Grounding.SelectedIff` | v2/src/footballai_v2/copilot/grounding.py:656-661 | A selection is accepted exactly when every id is known, and holds each selected claim once |
| `Grounding.ClaimsToRender` | v2/src/footballai_v2/copilot/grounding.py:644-671 | Rejects unknown ids, returns nothing for an unaddressed question, and otherwise the greedy rendering |
| `Grounding.SelectionsAreAnsweredIff` | v2/src/footballai_v2/copilot/grounding.py:644-663 | A selection is forged exactly when some id is not eligible, and unaddressed exactly when none is routed or there is no label |
| `Grounding.SelectedInOrder` | v2/src/footballai_v2/copilot/grounding.py:656-661 | Selected claims keep the order in which their ids were first given |
| `Grounding.GreedyIsExact` | v2/src/footballai_v2/copilot/grounding.py:665-670 | Which selected claims are shown: each, in order, that is not the label and with which the answer so far stays within 4000 characters |
| `Grounding.GreedyLengthIsTheAnswers` | v2/src/footballai_v2/copilot/grounding.py:665-670 | The running length is the length of the joined answer, and the label comes first |
| `Grounding.AnswersJoinTheTexts` | v2/src/footballai_v2/copilot/grounding.py:681 | The text of claim k stands at the sum of the earlier lengths plus k, behind a single space, and nothing else is in the answer |
| `Grounding.AnswersBeginWithTheFirst` | v2/src/footballai_v2/copilot/grounding.py:681 | The text of the label is a prefix of the answer |
| `Grounding.AnswersAreBounded` | v2/src/footballai_v2/copilot/grounding.py:665-670 | An answer is at most 4000 characters long, unless the label alone is longer |
| `Grounding.NoDroppedClaimWouldFit` | v2/src/footballai_v2/copilot/grounding.py:667-670 | A selected claim that was left out would not fit at the end either |
| `Grounding.MoreThanTheLabelIsShownIff` | v2/src/footballai_v2/copilot/grounding.py:667-670 | Something besides the label is shown exactly when some selected claim fits beside the label |
| `Grounding.MergedAreTheLastOfEachKey` | v2/src/footballai_v2/copilot/grounding.py:674-681 | The citations of an answer are those of the claims shown, exactly one for each key: the last |
| `Grounding.EveryKeyIsKept` | v2/src/footballai_v2/copilot/grounding.py:676-680 | Every citation of a shown claim has one with its key in the answer |
| `Grounding.CitationsAreMergedByRunPathAndArtifact` | v2/src/footballai_v2/copilot/grounding.py:676-680 | No two citations of an answer agree in run, path and artifact, and each citation shown has one that does |
| `Grounding.MergedInOrder` | v2/src/footballai_v2/copilot/grounding.py:676-681 | The citations of an answer stand in the order in which their keys first occurred |
| `Evidence.FlattenedIffResolves` | v2/src/footballai_v2/copilot/evidence.py:187-206 | With plain keys, the citable paths are exactly the paths that resolve |
| `Evidence.ListedAreTheResolvingIff` | v2/src/footballai_v2/copilot/evidence.py:187-206 | The citable paths are exactly the resolving ones if and only if in each object every key leads, segment by segment, to something that covers what is under that key |
| `Evidence.ListedAreTheResolvingIffNoDottedKey` | v2/src/footballai_v2/copilot/evidence.py:187-206 | With plain names apart from objects that are keyed by data, that means: if and only if no key has a dot |
| `Snapshot.CitablePathsResolveIff` | v2/src/footballai_v2/copilot/evidence.py:154-195 | For every run, payload and storage: the citable paths of the evidence as built are exactly the resolving ones, if and only if no artifact id and no threshold of its real diagnostics has a dot |
| `Snapshot.SnapshotsAreTidy` | v2/src/footballai_v2/copilot/evidence.py:154-181 | The snapshot has fixed, plain names throughout, except for the artifact ids and the thresholds |
| `Snapshot.RealDiagnosticsAreTidy` | v2/src/footballai_v2/copilot/evidence.py:406-480 | Of the diagnostics taken from a payload only the thresholds are named by the payload, each with the three fields of a criterion |
| `Snapshot.DottedThresholdsDoNotResolve` | v2/src/footballai_v2/copilot/evidence.py:454-464 | A threshold whose first segment is no threshold itself is citable under a path that does not resolve |
| `Snapshot.AnExampleThresholdDoesNotResolve` | v2/src/footballai_v2/copilot/evidence.py:454-464 | One payload with the threshold `ignore.previous`: every artifact id is plain, and still a citable path does not resolve |
| `SnapshotValues.RealDiagnosticsAreApprovedIff` | v2/src/footballai_v2/copilot/evidence.py:406-419 | Diagnostics of a real run are approved exactly when both totals are counts and the quality label is absent or text |
| `SnapshotValues.RealDiagnosticsAreTaken` | v2/src/footballai_v2/copilot/evidence.py:414-420 | Approved real diagnostics have five possible sections, with the schema, the label up to 40 characters and the taken metrics |
| `SnapshotValues.ObservedMetricsAreTaken` | v2/src/footballai_v2/copilot/evidence.py:420-453 | Which of twelve named metrics are taken: exactly those that are finite and not negative, whole where counts, each with the value of the payload |
| `SnapshotValues.ThresholdsAndTrendAreTaken` | v2/src/footballai_v2/copilot/evidence.py:454-467 | Every threshold is taken with its criterion, count and percentage, and of the trend the number of bins |
| `SnapshotValues.JudgementsAreTaken` | v2/src/footballai_v2/copilot/evidence.py:468-479 | Interpretation and ground truth are taken with their status and one text of at most 600 characters |
| `SnapshotValues.SyntheticDiagnosticsAreTaken` | v2/src/footballai_v2/copilot/evidence.py:482-491 | Of synthetic diagnostics three texts and three numbers are taken, each as in the payload |
| `SnapshotValues.TrackingCountsAreTakenIff` | v2/src/footballai_v2/copilot/evidence.py:492-499 | Legacy tracking counts are taken exactly when all four are counts and the data is not labelled synthetic |
| `SnapshotValues.ProvenanceIsTheRuns` | v2/src/footballai_v2/copilot/evidence.py:154-181 | Code, video and artifacts of a snapshot repeat the run, and there are diagnostics exactly when some were loaded, as approved |
| `SnapshotValues.DurationsAreTheProbes` | v2/src/footballai_v2/copilot/evidence.py:503-509 | A duration is given exactly when the probe recorded a positive finite number, and is that number |
| `SnapshotValues.ArtifactsAreTheRuns` | v2/src/footballai_v2/copilot/evidence.py:154-181 | Each artifact stands under its id as registered, as verified exactly when its check was good |
| `SnapshotValues.ModelsAreTheRuns` | v2/src/footballai_v2/copilot/evidence.py:154-181 | Models are listed in their order, each as in the record of the run |
| `Evidence.DottedKeysAreListedButDoNotResolve` | v2/src/footballai_v2/copilot/evidence.py:187-206 | The smallest snapshots for which it fails: one key with a dot below a plain one |
| `Evidence.ValidateCitations` | v2/src/footballai_v2/copilot/grounding.py:692-719 | Accepts a list exactly when each citation names this run, a supplied path and, if any, a verified matching artifact |
| `Evidence.CitationsAreValidIff` | v2/src/footballai_v2/copilot/grounding.py:692-719 | A citation is valid exactly when it names this run and a listed path and, if an artifact, the first of that id, stamped verified, with the schema and digest it names |
| `Evidence.DiagnosticsAreLoadedIff` | v2/src/footballai_v2/copilot/evidence.py:331-404 | Each of the ten reasons why a registered artifact gives no diagnostics, as an if and only if and in the order of the checks; otherwise they are those approved |
| `Evidence.UnregisteredDiagnosticsAreNotLoaded` | v2/src/footballai_v2/copilot/evidence.py:341-347 | The reason is a missing registration exactly when no artifact has the id of the diagnostics |
| `Evidence.EvidenceIsOfTheRun` | v2/src/footballai_v2/copilot/evidence.py:225-329 | The evidence has the id of the run, every artifact stamped in its place, and diagnostics exactly when they were loaded |
| `Evidence.OneSpecIsOffered` | v2/src/footballai_v2/copilot/grounding.py:304-316 | A claim is offered exactly when it has a text and some path of it is listed, and cites its listed paths |
| `Evidence.OnePathIsCited` | v2/src/footballai_v2/copilot/grounding.py:289-301 | A listed path gives one citation, to the diagnostics artifact with schema and digest exactly when it comes from there |
| `Evidence.SpecsAreOfferedInOrder` | v2/src/footballai_v2/copilot/grounding.py:543-625 | The catalog keeps the order of its specifications |
| `Evidence.StampedArtifactMatches` | v2/src/footballai_v2/copilot/evidence.py:151-152 | The stamped artifact of an id carries the digest, schema and integrity answer of the first registered one |
| `Evidence.CatalogClaimsComeFromSpecs` | v2/src/footballai_v2/copilot/grounding.py:543-625 | Every offered claim has text and citations, and was made from one of the authored specifications |
| `Evidence.CatalogValidatesIff` | v2/src/footballai_v2/copilot/grounding.py:289-316 | All citations of the catalog validate exactly when no claim cites the diagnostics artifact, or it is registered with a schema version and its second integrity answer is good |
| `Lifecycle.TransitionAllowedIff` | v2/src/footballai_v2/storage/lifecycle.py:63-85 | A successor is allowed exactly when the record is not terminal, the provenance is the same and the status moves as permitted |
| `Lifecycle.ProvenanceIsTheRest` | v2/src/footballai_v2/storage/lifecycle.py:37-50 | The fixed provenance is everything but status, artifacts, stages, times after creation and reasons |
| `RunStore.SaveFollowsTheLifecycle` | v2/src/footballai_v2/storage/local_analysis_runs.py:100-142 | The rules that the store spells out accept the same pairs as the shared lifecycle, apart from the artifact check |
| `RunStore.SavesAreAnsweredIff` | v2/src/footballai_v2/storage/local_analysis_runs.py:100-142 | Which answer each save gets, as an if and only if for every refusal in the order of the checks, with the artifacts read from the stored files |
| `RunStore.WritesAreAnsweredIff` | v2/src/footballai_v2/storage/local_analysis_runs.py:329-356 | Which answer the checks before an artifact write give, as an if and only if for each |
| `RunStore.SafePathsNameArtifacts` | v2/src/footballai_v2/contracts/v1/analysis_run.py:244-260 | A path is safe exactly when it is `artifacts` followed by one or more plain names, none empty, `.` or `..` |
| `RunStore.LocalAnalysisRunStore.Create` | v2/src/footballai_v2/storage/local_analysis_runs.py:63-83 | Stores a record under a free id exactly when the shared rule lets it be created, and changes nothing otherwise |
| `RunStore.LocalAnalysisRunStore.Load` | v2/src/footballai_v2/storage/local_analysis_runs.py:85-98 | Returns the stored record, or that there is none |
| `RunStore.LocalAnalysisRunStore.Save` | v2/src/footballai_v2/storage/local_analysis_runs.py:100-142 | Replaces a record exactly when the save rules allow it, and changes nothing otherwise |
| `RunStore.LocalAnalysisRunStore.ArtifactsAreIntact` | v2/src/footballai_v2/storage/local_analysis_runs.py:405-423 | True exactly when every registered artifact reads back with its size and digest |
| `RunStore.LocalAnalysisRunStore.RequestCancellation` | v2/src/footballai_v2/storage/local_analysis_runs.py:211-226 | Marks an unfinished run, and leaves a finished one alone |
| `RunStore.LocalAnalysisRunStore.CancellationRequested` | v2/src/footballai_v2/storage/local_analysis_runs.py:228-230 | Reads the mark |
| `RunStore.LocalAnalysisRunStore.WriteArtifact` | v2/src/footballai_v2/storage/local_analysis_runs.py:329-374 | Creates a file exactly when the run is running, the path is safe and free, and returns a reference that matches it |
| `StoreHistories.HistoryEvolves` | v2/src/footballai_v2/storage/local_analysis_runs.py:100-142 | Over any history no record goes back, changes its provenance, or loses a file or a mark |
| `StoreHistories.CompletionComesFromRunning` | v2/src/footballai_v2/storage/local_analysis_runs.py:104-119 | A run stored with published artifacts was stored running before |
| `StoreHistories.OnlyACheckedSaveCompletes` | v2/src/footballai_v2/storage/local_analysis_runs.py:140-142 | A record completes only by a save over a running one, with its artifacts read back |
| `StoreHistories.EveryStoredRunIsValid` | v2/src/footballai_v2/contracts/v1/analysis_run.py:631-678 | Every record a history can store meets the contract |
| `StoreHistories.PublishedArtifactsStayIntact` | v2/src/footballai_v2/storage/local_analysis_runs.py:355-363 | The artifacts of a completed run read back as registered in every later state, with writes caught half way |
| `StoreHistories.PublishedArtifactsReadBack` | v2/src/footballai_v2/storage/local_analysis_runs.py:405-423 | After any history, each registered artifact of a succeeded or partial run is stored with its registered size and digest |
| `StoreHistories.FirstAttemptsAreStored` | v2/src/footballai_v2/contracts/v1/analysis_run.py:800-829 | A first attempt is stored exactly as given, with number 1 and no link, when it meets the contract and its id is free |
| `StoreHistories.RetriesAreStored` | v2/src/footballai_v2/contracts/v1/analysis_run.py:831-861 | A retry is stored with the next number and linked to the failed or partial attempt that was loaded, when it meets the contract and its id is free |
| `StoreHistories.OtherEventsAreStored` | v2/src/footballai_v2/storage/local_analysis_runs.py:100-142 | A save replaces one record, a link adds one file, a request one mark, and nothing else changes |
| `StoreHistories.WritersAreUnderWay` | v2/src/footballai_v2/storage/local_analysis_runs.py:329-374 | A writer is under way exactly from passing its checks until it links its file or gives up |
| `StoreHistories.CallersHoldWhatTheyLoaded` | v2/src/footballai_v2/storage/local_analysis_runs.py:85-98 | A caller retries from the record that it loaded last |
| `StoreHistories.StoredRecordsSayHowTheyEnded` | v2/src/footballai_v2/contracts/v1/analysis_run.py:720-800 | Over every history, a record has an end, a failure, a partial reason or artifacts exactly with the statuses that have them, and its times are in order |
| `StoreHistories.StoredStagesFitTheStatus` | v2/src/footballai_v2/contracts/v1/analysis_run.py:484-538 | Over every history, each stage fits its own status and that of its run |
| `StoreHistories.StoredPartsAreDistinct` | v2/src/footballai_v2/contracts/v1/analysis_run.py:689-718 | Over every history, ids, names and paths do not repeat, and every produced id is registered |
| `StoreHistories.AttemptChainIsComplete` | v2/src/footballai_v2/contracts/v1/analysis_run.py:831-861 | Attempt n is n - 1 hops from attempt 1, through retryable attempts of the same analysis, without a cycle |
| `Coordinator.AnalysisCoordinator.CopyInput` | v2/src/footballai_v2/storage/local_analysis_runs.py:179-193 | Keeps a copy of the input exactly when its digest is the registered one and the target had none |
| `Coordinator.AnalysisCoordinator.SupplyAttempt` | v2/src/footballai_v2/execution/coordinator.py:209-214 | Which of three outcomes a new attempt gets, exactly by its input, its profile and the answer of the queue; the inputs, the queue and the record afterwards are those of the outcome |
| `Coordinator.AnalysisCoordinator.Retry` | v2/src/footballai_v2/execution/coordinator.py:204-215 | Each error exactly under its condition; a retry is stored with its link, number, code, version and nine queued stages, queued or failed as its supply went; any other refusal changes nothing |
| `Coordinator.AnalysisCoordinator.Clone` | v2/src/footballai_v2/execution/coordinator.py:217-228 | Each error exactly under its condition; a clone is stored as a first attempt with the same input, origin, parameters and models, queued or failed as its supply went; any other refusal changes nothing |
| `Coordinator.QueuedAttemptsCanFail` | v2/src/footballai_v2/execution/coordinator.py:212-214 | Recording the failure of a queued attempt is always accepted by the contract and the store |
| `Coordinator.RetriesAreBuilt` | v2/src/footballai_v2/execution/coordinator.py:204-207 | The record of a retry can be built exactly when the previous attempt is failed or partial and the id is new |
| `Coordinator.ClonesAreBuilt` | v2/src/footballai_v2/execution/coordinator.py:217-220 | The record of a clone can always be built, as a first attempt with the same input, origin, parameters and models |
| `Coordinator.NewStagesAreTheNine` | v2/src/footballai_v2/execution/coordinator.py:238-241 | A new attempt has the nine stages in their order, all queued, and all required but for the two that the compatible profile lacks |
| `Coordinator.NewAttemptsFollowTheProfile` | v2/src/footballai_v2/execution/contracts.py:16-18 | The pipeline version and the required stages of a new attempt are those of its profile |
| `Coordinator.KnownProfilesAre` | v2/src/footballai_v2/execution/contracts.py:42-43 | There are jobs for exactly three profiles, each under its own text |
| `ExecutorSteps.StoppedRunsCanEnd` | v2/src/footballai_v2/execution/executor.py:137-158 | Wherever a live run stopped, both the cancelled and the failed record meet the contract |
| `ExecutorSteps.CompletesIff` | v2/src/footballai_v2/execution/executor.py:126-134 | A run whose stages are finished completes exactly when it has stages, its artifacts differ and a forced stop falls on a required stage |
| `ExecutorSteps.MovedStageKeepsPrefix` | v2/src/footballai_v2/execution/executor.py:66-93 | Moving the current stage on keeps finished stages, at most one running stage, then queued ones |
| `ExecutorSteps.WrittenStagesFit` | v2/src/footballai_v2/execution/executor.py:71-92 | Each stage record the loop writes is valid in place of a queued or running one |
| `ExecutorSteps.CompletionEnds` | v2/src/footballai_v2/execution/executor.py:126-136 | The last save ends the delivery with the completed record exactly when the contract accepts it, and otherwise goes on to the failure exit |
| `ExecutorSteps.PublishingProceeds` | v2/src/footballai_v2/execution/executor.py:94-134 | Each access of the publication goes on, fails over to the failure exit, or ends with a valid completed record |
| `ExecutorHistories.TerminalRecordsStay` | v2/src/footballai_v2/execution/executor.py:49-50 | No event touches a finished record, its files or its mark, and a delivery of it returns its status |
| `ExecutorHistories.WorkProceeds` | v2/src/footballai_v2/execution/executor.py:44-159 | Each access of a live delivery leaves a live run that fits it, or a valid finished one whose status it returns |
| `ExecutorHistories.EveryHistoryKeepsInvariant` | v2/src/footballai_v2/execution/executor.py:44-159 | The shape of the run and its fit with the delivery hold over every history of cancellations, crashes, foreign endings and redeliveries |
| `ExecutorHistories.StoredRunsKeepTheirShape` | v2/src/footballai_v2/execution/executor.py:66-93 | At every moment the stored record is valid, an unfinished one is finished stages, at most one running, then queued, and a returned status is the stored one |
| `ExecutorHistories.RedeliveryChangesNothing` | v2/src/footballai_v2/execution/executor.py:46-50 | Delivering a finished run any number of times changes nothing and returns its status |
| `ExecutorCancellation.AtMostOneMoreStageSucceeds` | v2/src/footballai_v2/execution/executor.py:66-93 | After a request at most one more stage ever succeeds, and only one past its second checkpoint |
| `ExecutorCancellation.CancelledBeforeTheLastCheckpointNeverCompletes` | v2/src/footballai_v2/execution/executor.py:137-143 | A run asked to stop while a checkpoint lay ahead never ends succeeded or partial, across crashes and redeliveries |
| `ExecutorCancellation.TheLastStageHasTheLastCheckpoint` | v2/src/footballai_v2/execution/executor.py:66-93 | When the last stage is required, a checkpoint lies ahead exactly until the second one of that stage is passed |
| `ExecutorCancellation.RequestsBeforeTheLastCheckpointWin` | v2/src/footballai_v2/execution/executor.py:137-143 | Of every run that the coordinator creates: a request before the second checkpoint of the publication stage rules out completion for good |
| `ExecutorCancellation.LateRequestsChangeNothing` | v2/src/footballai_v2/execution/executor.py:174-176 | Over whole histories past the last checkpoint, the stored run and its files are the same with the request as without it |
| `ExecutorCancellation.RequestsPastTheLastCheckpointChangeNothing` | v2/src/footballai_v2/execution/executor.py:174-176 | So a later request changes nothing, unless the pipeline looks at the mark itself or a crash makes a stage run again |
| `ExecutorCancellation.HistoriesKeepPlan` | v2/src/footballai_v2/execution/executor.py:66-93 | Until a run ends, no history adds, drops or reorders its stages or changes its parameters |
| `ExecutorCompletion.RunsCompleteIff` | v2/src/footballai_v2/execution/executor.py:94-134 | A run at rest can still complete if and only if its files leave room for all that some build of its adapter publishes, its stages allow it, no failure is planned and no request has still to be seen |
| `ExecutorCompletion.RunsWithRoomComplete` | v2/src/footballai_v2/execution/executor.py:66-134 | And then the next delivery completes it when left alone |
| `ExecutorCompletion.EveryBuildNeedsTheForcedPaths` | v2/src/footballai_v2/execution/executor.py:97-117 | Whatever the adapter, a completion creates the track summary, the workload advisory and both aliases of them |
| `ExecutorCompletion.SomeAdapterHasRoomIff` | v2/src/footballai_v2/execution/executor.py:97-117 | With an adapter that may return anything, those four paths have to be free, and that is enough |
| `ExecutorCompletion.DemoRunsCompleteIff` | v2/src/footballai_v2/execution/adapters/demo_pipeline.py:73 | A run of the demonstration pipeline can complete exactly while none of its seven files exists |
| `ExecutorCompletion.V1RunsCompleteIff` | v2/src/footballai_v2/execution/adapters/v1_compat_pipeline.py:215-229 | A run of the V1-compatible pipeline can complete exactly while none of its nine files exists |
| `ExecutorCompletion.AnInterruptedPublicationNeverCompletes` | v2/src/footballai_v2/execution/executor.py:97-117 | A worker that dies after writing any file that every build needs leaves a run at rest that no later delivery completes |
| `ExecutorCompletion.EveryRunCanBeLeftUnable` | v2/src/footballai_v2/execution/executor.py:97-117 | Every run that could complete can be left so, by a crash right after its track summary and before either alias |
| `ExecutorCompletion.TheCrashedWorldNeverCompletes` | v2/src/footballai_v2/execution/executor.py:97-117 | One run with all nine stages done and that single file: it is delivered again and never completes, and without the file it can |
| `ExecutorCompletion.LateRequestsLeaveRunsAbleToComplete` | v2/src/footballai_v2/execution/executor.py:137-143 | A request past the last checkpoint leaves a run at rest able to complete |
| `ExecutorCompletion.LateRequestsDoNotStopTheDelivery` | v2/src/footballai_v2/execution/executor.py:83-136 | And a delivery past the last checkpoint goes on to complete in spite of it |
| `ExecutorTheorems.EveryUndisturbedDeliveryEnds` | v2/src/footballai_v2/execution/executor.py:44-159 | A delivery that is left alone always ends, with the finished status stored for good |
| `ExecutorTheorems.NothingEscapesUnlessEndedElsewhere` | v2/src/footballai_v2/execution/executor.py:137-159 | No exception leaves a delivery unless another client ended the run |
| `ExecutorTheorems.CompletionPublishesThePayloads` | v2/src/footballai_v2/execution/executor.py:97-134 | A completed run registers exactly the payloads in order and the two aliases, each as written |
| `ExecutorTheorems.RunsCompleteAsAsked` | v2/src/footballai_v2/execution/executor.py:126-136 | Over every history of a created run: a completed one is partial exactly when `force_partial` was given as the JSON value true, in its last stage alone at 80 percent, and otherwise succeeded |
| `ExecutorRecords.CompletedRunsHoldTheBuild` | v2/src/footballai_v2/execution/executor.py:96-119 | Each artifact of a completed run is a payload of the build, with the name, category, path and content that its key gives it, or one of two excerpts for the dashboard |
| `ExecutorRecords.ProducedArtifactsAre` | v2/src/footballai_v2/execution/executor.py:211-225 | The publication stage produced all artifacts, detection and tracking their own one if registered, the other stages none |
| `ExecutorRecords.DeliveriesFailFor` | v2/src/footballai_v2/execution/executor.py:74-125 | A live delivery goes to the failure exit for exactly five things, each with its code and its stage |
| `ExecutorRecords.SkippingMovesOneStage` | v2/src/footballai_v2/execution/executor.py:68-73 | A stage is left out exactly when the profile lacks it and it is not required, and no other stage changes |
| `ExecutorRecords.BeginningMovesOneStage` | v2/src/footballai_v2/execution/executor.py:77-78 | A stage begins at ten percent and keeps the time of its first start, and no other stage changes |
| `ExecutorRecords.FinishingMovesOneStage` | v2/src/footballai_v2/execution/executor.py:84-93 | A stage is done at 100 percent with the metrics reported of it, and no other stage changes |
| `ExecutorRecords.StageWorkWritesNothing` | v2/src/footballai_v2/execution/executor.py:79-86 | Nothing is written into the record while the pipeline works, or when its report cannot be read |
| `ExecutorRecords.ExitsRecordTheReason` | v2/src/footballai_v2/execution/executor.py:137-158 | Both exits change the active stage alone and only if it was running, and the record says why and when |
| `ExecutorDeliveries.MarkedRunsAreNeverStarted` | v2/src/footballai_v2/execution/executor.py:51-57 | Over every history without a foreign ending, a run marked before a worker looked at it stays as it was or ends cancelled, never started |
| `ExecutorDeliveries.ClaimedRunsAreStarted` | v2/src/footballai_v2/execution/executor.py:58 | A run without a mark is started at the time of its claim, and nothing else changes |
| `ExecutorDeliveries.BuildsComeFromThePipeline` | v2/src/footballai_v2/execution/executor.py:79-95 | Over every history, the build that is published is one that the pipeline returned in the same delivery, unchanged since |
| `ExecutorDeliveries.BuildsAreTakenInHand` | v2/src/footballai_v2/execution/executor.py:79-95 | What the pipeline returns is taken, unless the cancellation was seen at the checkpoint behind it |
| `ExecutorDeliveries.DeliveriesRaiseIff` | v2/src/footballai_v2/execution/executor.py:137-159 | A delivery raises exactly when another client ended the run before it wrote a start or an end of its own; on its way to the failure exit it returns the stored status instead |
| `ExecutorTheorems.EveryArtifactIsProduced` | v2/src/footballai_v2/execution/executor.py:211-225 | The publication stage produced every registered artifact, and no stage names another id |
| `ExecutorTheorems.FailureIsBlamedOnTheActiveStage` | v2/src/footballai_v2/execution/executor.py:144-158 | A failure changes the active stage alone, and the failure of the run names it with the same code |
| `ExecutorRuntime.AnalysisExecutor.Begin` | v2/src/footballai_v2/execution/executor.py:51-58 | A queued run is cancelled when marked and started otherwise, as the machine says |
| `ExecutorRuntime.AnalysisExecutor.RunStage` | v2/src/footballai_v2/execution/executor.py:66-93 | One round of the loop follows the machine and leaves the later stages alone |
| `ExecutorRuntime.AnalysisExecutor.Publish` | v2/src/footballai_v2/execution/executor.py:94-135 | Writing, reading back and completing follow the machine, whatever is refused |
| `ExecutorRuntime.AnalysisExecutor.ExitCancelled` | v2/src/footballai_v2/execution/executor.py:137-143 | The cancellation exit follows the machine |
| `ExecutorRuntime.AnalysisExecutor.ExitFailed` | v2/src/footballai_v2/execution/executor.py:144-159 | The failure exit follows the machine, and returns a status stored meanwhile |
| `ExecutorRuntime.AnalysisExecutor.Execute` | v2/src/footballai_v2/execution/executor.py:44-159 | One delivery over the shared store follows the machine, leaves a deliverable run even when the worker dies, and ends only with a finished run whose status it returns |
| `Timestamps.DateOf` | v2/src/footballai_v2/contracts/v1/analysis_run.py:141-143 | Every day of years 1 to 9999 has one valid calendar date with that day number |
| `Timestamps.InstantsRoundTrip` | v2/src/footballai_v2/contracts/v1/analysis_run.py:127-143 | A written instant is read back as itself, to the microsecond |
| `Timestamps.DaysAreCounted` | v2/src/footballai_v2/contracts/v1/analysis_run.py:141-143 | Day numbers start at the first day of year 1 and go up by one with each day of the Gregorian calendar |
| `Timestamps.WrittenInstantsAre` | v2/src/footballai_v2/contracts/v1/analysis_run.py:141-143 | An instant is written digit by digit as date, T and time of day, with six fractional digits exactly when there are microseconds, and Z |
| `RunJson.ErrorsRoundTrip` | v2/src/footballai_v2/contracts/v1/analysis_run.py:433-459 | An error survives its wire form |
| `RunJson.ArtifactsRoundTrip` | v2/src/footballai_v2/contracts/v1/analysis_run.py:369-408 | An artifact reference survives its wire form, with or without a schema version |
| `RunJson.StagesRoundTrip` | v2/src/footballai_v2/contracts/v1/analysis_run.py:540-603 | A valid stage survives its wire form |
| `RunJson.WrittenKeysAreExact` | v2/src/footballai_v2/contracts/v1/analysis_run.py:953-1008 | A written run has all required keys and only optional ones that say something |
| `RunJson.RunsRoundTrip` | v2/src/footballai_v2/contracts/v1/analysis_run.py:953-1042 | Every valid run survives its wire form, through every nested record and optional field |
| `RunJson.WireFormsDiffer` | v2/src/footballai_v2/contracts/v1/analysis_run.py:953-982 | No two valid runs share a wire form |
| `RunJson.StatusAndOriginAreWritten` | v2/src/footballai_v2/contracts/v1/analysis_run.py:43-61 | Each status and each origin is written as its own text, and no other one is |
| `RunJson.StageTextsAreWritten` | v2/src/footballai_v2/contracts/v1/analysis_run.py:74-98 | Each stage name and stage status is written as its own text, and no other one is |
| `RunJson.ArtifactsAreWritten` | v2/src/footballai_v2/contracts/v1/analysis_run.py:369-384 | Each field of an artifact is written under its key, and each category as its own text |
| `RunJson.RecordsAreWritten` | v2/src/footballai_v2/contracts/v1/analysis_run.py:953-971 | Identity, provenance, input and code of a run are written under their keys |
| `RunJson.ListsAreWritten` | v2/src/footballai_v2/contracts/v1/analysis_run.py:966-968 | Models, artifacts and stages are written one by one, in their order |
| `RunJson.ModelsAndErrorsAreWritten` | v2/src/footballai_v2/contracts/v1/analysis_run.py:326-445 | The exact objects that a model and an error are written as |
| `RunJson.OnlyExactKeysAreRead` | v2/src/footballai_v2/contracts/v1/analysis_run.py:164-176 | An object with a missing or an unknown key is refused |
| `RunJson.ReadRunsSayWhatWasSent` | v2/src/footballai_v2/contracts/v1/analysis_run.py:984-1042 | What is read is valid, and says of its identity and provenance what the object says |
| `RunJson.ReadTextsAreTheWritten` | v2/src/footballai_v2/contracts/v1/analysis_run.py:984-1042 | Only the texts of the contract are read as a status or an origin, each as the one it names |
| `RunJson.WholePercentagesAreRead` | v2/src/footballai_v2/contracts/v1/analysis_run.py:540-603 | A whole percentage without a fraction is read as the same stage |
| `RunJson.EmptyErrorsReadLikeNone` | v2/src/footballai_v2/contracts/v1/analysis_run.py:600 | Where an error may stand, exactly the seven empty JSON values read as none |
| `Sprints.CountSprints` | pipeline/02_stats.py:100-115 | The loop counts exactly the maximal fast runs that last at least the minimum |
| `Sprints.SprintsStartIff` | pipeline/02_stats.py:100-115 | A sprint starts exactly where speed first reaches 5.5 and stays there for at least a second, until it falls below or the series ends |
| `Sprints.BlocksAreFifteenMinutes` | pipeline/02_stats.py:160-161 | A sample is in the block of fifteen minutes that its time falls in |
| `Sprints.CutChangesCountByAtMostOne` | pipeline/02_stats.py:100-115 | Cutting a time-ordered series in two changes the total by at most one either way |
| `Sprints.GuardChangesNothing` | pipeline/02_stats.py:218 | The guard for short blocks changes no count |
| `Sprints.GroupsFlattenToTheSeries` | pipeline/02_stats.py:215 | Grouping a series by block loses nothing and keeps the order |
| `Sprints.GroupsAscend` | pipeline/02_stats.py:215 | The groups are the blocks that occur, each once, in ascending order |
| `Sprints.BlockSprintsTrackTheTotal` | pipeline/02_stats.py:214-245 | The sprints summed over blocks differ from the player's total by at most the number of blocks minus one |
| `Sampling.Sample` | v2/src/footballai_v2/copilot/evaluation/live.py:87-101 | The loop returns the specified sample: categories in turn, each in hash order, until the limit |
| `Sampling.SampleIsStratified` | v2/src/footballai_v2/copilot/evaluation/live.py:87-101 | It has exactly the limit of cases, a hash-order prefix of each category, and shares that differ by at most one unless the smaller is used up |
| `Sampling.SampleIsTakenInTurns` | v2/src/footballai_v2/copilot/evaluation/live.py:92-101 | A case comes before another exactly in this order: fewer of its category taken before it, then the name of its category |
| `Sampling.SampleTakesTheLowestDigests` | v2/src/footballai_v2/copilot/evaluation/live.py:92-101 | Of each category it holds the cases of the lowest digests, in the order of these |
| `Sampling.NothingIsSampledWithoutALimitAboveZero` | v2/src/footballai_v2/copilot/evaluation/live.py:96-101 | A limit of zero or less samples nothing |
| `Sampling.SampleIsDrawnFromTheCases` | v2/src/footballai_v2/copilot/evaluation/live.py:87-101 | It holds no case more often than the input does |
| `Sampling.SampleOfDistinctCasesIsDistinct` | v2/src/footballai_v2/copilot/evaluation/live.py:87-101 | Distinct cases stay distinct |
| `Sampling.SampleIgnoresInputOrder` | v2/src/footballai_v2/copilot/evaluation/live.py:92-100 | With distinct hashes it does not depend on the order of the input |
| `Sampling.UnboundSampleKeepsInputOrder` | v2/src/footballai_v2/copilot/evaluation/live.py:89-90 | Without a binding limit it is the input, in its order |

## Left out

- Text rules of the contract (identifiers, UUIDs, digests, secret-like wording) and its check that JSON values are
  finite: single-pattern checks on strings.
- Other forms of timestamp that `datetime.fromisoformat` reads: the parser here reads what the contract writes, so
  `RunJson.FromDict` refuses some texts that the code accepts.
- The difference between an integer and a float progress value, which compare equal in the source.
- The text identity of a trace (correlation id, model name, versions), its stop reasons and request ids, and the
  public projection: each is mapped onto a closed set or copied.
- JSON encodings of payload documents, and the check of an artifact reference that runs after its file is linked:
  a document carries its encodings, and the written names, media types and schema versions are taken as well formed.
- The SHA-256 function, the hash order and the category order of the sample, and JSON encodings of tool payloads: they
  are parameters.
- How the text of a final turn decodes to a list of claim ids: a parameter of the parser, with every malformed text as
  one case.
- The wording of the texts in an evidence snapshot, and the wording and paths of claims: parameters, so the citation
  theorem holds for any of them and for any layout; `Snapshot` has the layout of the source.
- Support levels, limitations texts, and the check that a run is completed before it is explained.
- The lock of the budget guard as such: each of its three operations is one atomic step.
- How many bytes or tokens a text has: the cost bounds assume no more prompt tokens than server-written characters,
  earlier outputs and the API allowance.
- The conversion of the probed video duration before the `try` of `execute`, which is taken to succeed.
- Two clock readings inside one step of the executor that only stamp the same record are one reading, and reading all
  artifacts back is one step, because no file ever changes.
- Local run directories, symbolic links, temporary files and file synchronisation: files are a flat write-once map, so
  a file does not keep another one from being created below its path, as it would on a disk.
- The check-then-write gap inside a local save.
- The upload, probing and first-attempt branch of `create_analysis`: it ends in the same create, supply and record-failure
  steps as a retry, without a copy.
- Series of unequal lengths in `count_sprints` pair up as `zip` does; data frames and kinematics are not modelled.
- PostgreSQL, blob storage, service bus, the web interface, the SDK and its worker thread.
