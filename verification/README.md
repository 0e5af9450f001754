# AutonomOS: a model of its algorithmic cores

AutonomOS runs a workforce of agents on software projects. Around the agents stand a few
self-contained pieces of machinery on which everything else relies. This project models them in
Dafny, in the form the program gives them (classes with fields that methods update, loops with
invariants, pure functions where the program has expressions), and proves what they are for.

| part | modules |
|---|---|
| The brace scan that takes tool calls out of a model's text | `ScanPositions`, `BraceScanner`, `ScannerLaws`, `JsonText` |
| The context pipeline: deduplication, ranking, allocation under three budgets | `ContextModel`, `Deduplication`, `DeduplicationWinners`, `Sorting`, `BudgetAllocation`, `BudgetLaws`, `SelectionLaws`, `Assembly` |
| Inference routing, the circuit breaker and the fallback loop | `Breaker`, `Routing`, `Gateway` |
| The projection of events onto activities | `Activities`, `ActivityLists`, `ActivityLaws`, `Projection`, `ActivityObjects`, `ActivityHistory`, `ActiveWorkers`, `ActivityEffects`, `ActivityEffectLaws`, `ActivityStories` |
| The event stream of one client | `EventStream` |
| Project memory: an index mirrored as files | `Memory` |
| The manager's plan versions and its stagnation counter | `Controller` |

`Strings` and `Wrappers` hold what several of them use.

Each imperative member is proved against a function or a history: a method's postcondition gives
its whole new state, and the lemmas say what that function or history amounts to over all inputs
and all runs.

Such a function is in turn held to a description that does not mention it: the scan to counts of
unescaped quotes and braces by position, the rankings to the parts of their keys one after the
other, the allocation to what is left at each step, the dispatch of events to a table of effects
field by field, and the memory and plan operations to what they do for their caller.

Five expectations one might have do not hold of the code as it is. For each there is a failing
input, and the exact condition under which the expectation is met:

* One deduplication pass need not leave the texts distinct (`OnePassIsNotEnough`), because a
  replacement leaves its old checksum behind and does not look up its own. In terms of the
  candidates alone: a candidate opens its source if none before it has and no opening candidate
  before it has its text; the best of a source from its opening on wins; one pass keeps the winners
  (`KeptAreWinners`), and their texts are distinct exactly when no two winners have the same one
  (`OnePassSufficesIff`). In terms of the loop: a step from distinct texts repeats one exactly when
  it is blind, that is, when it replaces an item or finds its text unseen although a kept item of
  another source has it (`StepRepeatsIffBlind`, `StaysDistinctIffNeverBlind`; a refinement is
  `RepeatsWereSlipped`). Two passes always suffice (`TwoPassesSuffice`).
* The token limit can be exceeded by a truncated item (`TokenLimitCanFail`). An allocation exceeds
  it exactly when its mandatory items do, or when the loop meets an item that it cuts to a text
  with too many characters or words for the tokens left (`AllocationOverflowsIff`); that item is
  then the last. `TokensSafe` gives a condition on the budget alone that rules it out.
* The `active_workers` metric can be wrong after three events (`MetricGoesWrong`). An event makes
  it wrong exactly when it records a worker already listed with a status that starts or stops its
  running (`EventKeepsCountIff`), and over a stream it is off by what these flips add up to since
  the last recount (`MetricIsOffByFlips`).
* The fallback event can name the provider that has just failed, while nobody is tried next
  (`EventCanNameTheFailed`). It names the provider tried next exactly when the candidate it names
  can be called and no provider occurs twice among the candidates up to it (`FallbackEventIff`).
* Index and files agree over all runs exactly when different indexed paths have different files
  (`AgreementIff`); `.` and `..` segments can break this (`DottedPathClashes`).

Two more exact conditions: a payload is recognised if and only if every brace that the scan opened
before it has been closed (`FoundIffSettled`), and the chain of plan versions survives a restart if and
only if the newest plan is not completed (`RestartKeepsChainIff`).

One more thing follows that may surprise: a provider whose answers cannot be handled is recorded as
a success and then as a failure each time, so with a threshold above one its breaker never opens
(`AnswersKeepClosed`).

Where the code and its comments differ, the code is followed. The comment on the ranking of routes
promises ascending model ids as the last tie-breaker; the reversed sort ranks them descending
(core/inference/omniroute.py:131-138).

## Model

| member | source | states |
|---|---|---|
| BraceScanner.FindClose | app/services/message_sanitizer.py:150-174 | The inner loop stops at the least position at which the unescaped braces outside strings are balanced, where a character is escaped by an odd run of backslashes before it and a string is open after an odd number of unescaped quotes; or it finds that there is none; in one step per character passed |
| BraceScanner.RunCounts | app/services/message_sanitizer.py:152-174 | After any prefix the three variables are the brace count, the parity of the unescaped quotes and the parity of the backslash run before the position |
| BraceScanner.ExtractPayloads | app/services/message_sanitizer.py:133-193 | Step 2 returns exactly the narrative and the payloads of the text's decomposition, in order; the inner loops together take no more steps than the text has characters |
| BraceScanner.BlockIsLocal | app/services/message_sanitizer.py:156-174 | Whether an object closes at a position depends on nothing behind it |
| ScannerLaws.SplitIsUnique | app/services/message_sanitizer.py:139-191 | The pieces the scan finds are the only way to write the text as prose without braces, balanced objects and a rest that opens nothing that closes |
| ScannerLaws.SplitByCounts | app/services/message_sanitizer.py:139-191 | The same with objects described by counts alone |
| ScannerLaws.NothingIsLost | app/services/message_sanitizer.py:133-193 | The pieces join up to the text, and kept text and payloads have together as many characters as it |
| ScannerLaws.PayloadsAreObjects | app/services/message_sanitizer.py:176-182 | Whatever is extracted starts with a brace, closes with its last character and not before, and passes the payload test |
| ScannerLaws.RescanFindsNothing | app/services/message_sanitizer.py:133-193 | Idempotence: rescanning the narrative gives the pieces that were kept, extracts nothing and returns the same text |
| ScannerLaws.ScansIndependently | app/services/message_sanitizer.py:139-191 | After a text in which every opened brace is closed the scan treats what follows as if it stood alone |
| ScannerLaws.FoundIffSettled | app/services/message_sanitizer.py:176-191 | An object at a given position is one of the pieces if and only if the text before it leaves no brace open |
| ScannerLaws.OpenBlockSwallows | app/services/message_sanitizer.py:150-191 | If the text leaves a brace open, the next block starts inside it and ends behind it, if anywhere |
| JsonText.ValueStays | app/services/message_sanitizer.py:156-174 | The text of every JSON value, however nested and whatever its strings contain, leaves the scanner's state as it was and never takes it below its depth |
| JsonText.ObjectClosesAtItsEnd | app/services/message_sanitizer.py:150-174 | The text of every JSON object closes at its last character and not before |
| JsonText.ScanAgreesWithGrammar | app/services/message_sanitizer.py:150-174 | For every JSON object and every suffix the scan started at its brace stops at its own closing brace |
| JsonText.EmbeddedObject | app/services/message_sanitizer.py:176-187 | A JSON object after a settled text is extracted if it is a payload and kept otherwise, and both sides are treated as if they stood alone |
| JsonText.ObjectBehindOpenBrace | app/services/message_sanitizer.py:188-191 | A JSON object behind a brace left open outside a string is not recognised: the whole text is kept and nothing is extracted |
| ContextModel.EstimateGrows | core/context/model.py:20-32 | Adding text never makes the token estimate smaller |
| ContextModel.EstimateBound | core/context/model.py:20-32 | The estimate is at most 13/20 of the characters plus 31/20 |
| Strings.WordCountIsStarts | core/context/model.py:30-31 | The words counted are the visible characters that follow no other |
| ContextModel.ContextItem.constructor | core/context/model.py:130-136 | Counts and checksum are computed from the content exactly when they are not given |
| Deduplication.Deduplicate | core/context/engine.py:310-355 | The loop over item objects computes the deduplication of their values, returns only objects it was given, and none of them twice |
| Deduplication.RemoveExactly | core/context/engine.py:334 | Removal by value takes out precisely the superseded item: what stays are the items of other keys |
| Deduplication.KeysAgree | core/context/engine.py:319-353 | The kept items have different source keys, and the dictionary of keys holds exactly them |
| Deduplication.EveryItemAccounted | core/context/engine.py:319-353 | Each item is matched by a kept one of its source that scores at least as much, or repeats an earlier text |
| Deduplication.KeptWasGiven | core/context/engine.py:319-353 | Every kept item and every seen checksum come from the candidates, and no empty checksum is looked up |
| Deduplication.DistinctKeysPass | core/context/engine.py:339-353 | A pass over different keys keeps no text twice |
| Deduplication.UnchangedIffDistinct | core/context/engine.py:310-355 | A pass changes nothing if and only if keys and texts are all different |
| Deduplication.TwoPassesSuffice | core/context/engine.py:310-355 | After two passes keys and texts are all different, and a third is the identity |
| Deduplication.OnePassIsNotEnough | core/context/engine.py:332-337 | Four candidates for which one pass leaves the same text twice |
| Deduplication.StepRepeatsIffBlind | core/context/engine.py:322-353 | From distinct texts, a step leads to a repeated text if and only if it replaces an item without looking its text up, or finds a text unseen, though a kept item of another source has that text |
| Deduplication.StaysDistinctIffNeverBlind | core/context/engine.py:319-353 | The texts stay distinct throughout a pass if and only if none of its steps is blind in this way |
| DeduplicationWinners.KeptAreWinners | core/context/engine.py:310-355 | One pass keeps, in the order of the candidates, the winner of each opened source, and reports exactly the candidates that open none; which candidates open and which win is defined on the list of candidates without the loop's collections |
| DeduplicationWinners.OnePassSufficesIff | core/context/engine.py:310-355 | One pass leaves distinct texts if and only if no two winners among the candidates have the same text |
| Deduplication.RepeatsWereSlipped | core/context/engine.py:332-337 | A text is repeated in the end if and only if some step was blind to an item such that both are still kept |
| Deduplication.OnePassForStableSources | core/context/engine.py:310-355 | If a source always comes with the same text, one pass is enough |
| Sorting.SortIsStable | core/context/engine.py:382-390 | Sorting keeps items that tie in their order |
| Sorting.SortedIsUnique | core/context/engine.py:382-390 | Where no two elements tie there is one sorted arrangement only |
| BudgetAllocation.Cut | core/context/engine.py:439-444 | The item object itself is shortened, marked and measured again, and nothing else about it changes |
| BudgetAllocation.Offer | core/context/engine.py:426-458 | An optional item is taken whole if and only if it fits, cut if and only if it does not and is of a kind that may be cut with enough left, and otherwise left alone |
| BudgetAllocation.AllocateBudget | core/context/engine.py:392-460 | The loop over item objects selects the greedy packing of their values, with its warnings, and alters no item that it leaves out |
| BudgetLaws.CutLeavesNoRoom | core/context/engine.py:437-448 | After a cut nothing is cut again: either exactly 150 characters are left, or the tokens are used up and the loop stops |
| BudgetLaws.OverflowIffCutTooDense | core/context/engine.py:437-448 | One item takes the tokens over the limit if and only if it is cut and its remaining text with the mark has more than four characters, or more than ten thirteenths of a word, for each token left |
| BudgetLaws.AllocationBounds | core/context/engine.py:392-460 | The running totals are the sums over the selection; characters and item count exceed their limits only as far as the mandatory items do, and tokens exceed theirs only by mandatory items or by a last, cut item without which they would not; at most one item is cut if the items' counts are those of their contents |
| BudgetLaws.AllocationOverflowsIff | core/context/engine.py:392-460 | The tokens of the selection exceed the limit if and only if those of the mandatory items do, or the loop meets, before it breaks off, an item that it cuts to a text too dense for the tokens left |
| BudgetLaws.TokensSafe | core/context/engine.py:392-460 | If 20 times the token limit is at least 13 times the character limit plus 31 times the item limit, and the mandatory items respect the latter two, tokens never exceed the limit |
| BudgetLaws.TokenLimitCanFail | core/context/engine.py:437-448 | A budget and an item for which truncation exceeds the token limit |
| BudgetLaws.SelectionIsGreedy | core/context/engine.py:421-458 | The selection follows the given order, and if the loop ends without breaking off no omitted item would still fit |
| SelectionLaws.AllocationIsRun | core/context/engine.py:403-460 | Starting from the mandatory items, each optional item in turn is taken if it fits, else cut to 200 characters less than are left, with the notice and a warning, if it is a file or report and at least 150 tokens and 600 characters are left, else omitted; until the item limit is reached or at most 50 tokens are left |
| SelectionLaws.RequiredAreThose | core/context/engine.py:404-405 | The two groups are the items with and without the flag, as often and in the order they were given |
| SelectionLaws.ConsidersOnce | core/context/engine.py:422-458 | What a step does is determined by these numbers, so there is one such run only |
| Assembly.RequiredComeFirst | core/context/engine.py:382-405 | In ranked order the mandatory items precede the others, so allocation keeps the ranking |
| Assembly.RankingIsTotal | core/context/engine.py:382-390 | The four-part key compares any two items, and consistently |
| Assembly.AssembleContext | core/context/engine.py:72-88 | On item objects the composition gives the package of the values, in rank order part by part; only selected items may have been changed |
| Assembly.AssemblyIsReproducible | core/context/engine.py:72-83 | For candidates with different sources, texts and ids every order of discovery gives the same package |
| Assembly.RoundsToNearest | core/context/engine.py:386 | The rounded score is within half of ten thousand times the score, and even on a tie |
| Assembly.PackageFollowsRanking | core/context/engine.py:76-83 | In the ranking and in the package: mandatory items first, then the rounded score does not increase, on equal scores the source types follow the listed twelve, on equal types the ids ascend; the package is taken from the ranking in its order, up to the cut content, and contains every mandatory item |
| Assembly.PackageRespectsBudget | core/context/engine.py:72-103 | The budget bounds hold of whole packages, through exclusion, deduplication and ranking |
| Assembly.PackageOverflowsIff | core/context/engine.py:72-103 | A whole package exceeds the token limit if and only if its mandatory items do or a ranked item is cut to a text too dense; never, under the condition on the budget alone |
| Breaker.CircuitBreaker.IsOpen | core/inference/gateway.py:46-54 | The answer is the one the history of outcomes gives; forgetting an expired entry changes no later answer and touches no other provider |
| Breaker.CircuitBreaker.RecordSuccess | core/inference/gateway.py:56-58 | The outcome becomes part of the history, and both dictionaries go on telling what it says |
| Breaker.CircuitBreaker.RecordFailure | core/inference/gateway.py:60-65 | The same for a failure, which opens the breaker from the threshold on |
| Breaker.StreakByPosition | core/inference/gateway.py:56-65 | The streak is the number of the provider's failures that no success of it follows, and the last failure is the latest of them |
| Breaker.OthersDoNotMatter | core/inference/gateway.py:46-65 | Outcomes of other providers never change the answer for a provider |
| Routing.EvaluateRoute | core/inference/omniroute.py:43-157 | The candidates are exactly the models that satisfy the request, by descending score, on equal scores by descending quality, then ascending length of the id, then descending id; the others are rejected, each with the first check it fails |
| Routing.ReasonIsFirstFailure | core/inference/omniroute.py:60-118 | The reason for a rejection is the first of nine listed checks that fails, and a model is eligible if none does |
| Routing.EstimatesAre | core/inference/omniroute.py:94-107 | The token and cost estimates: a token for every four characters but at least one, 500 output tokens if none are given, prices for a million tokens |
| Routing.EligibleElements | core/inference/omniroute.py:60-129 | The candidates are exactly the models that satisfy the request, with their scores |
| Routing.Partition | core/inference/omniroute.py:57-129 | Every model is either a candidate or rejected, never both, and a candidate exactly if it satisfies the request |
| Routing.ModelsSeparate | core/inference/omniroute.py:135-138 | Candidates for different models never tie |
| Routing.RankingIgnoresRegistration | core/inference/omniroute.py:131-138 | The ranking is the same for every order of registration |
| Routing.EscalateTwice | core/inference/omniroute.py:233-264 | Escalation is idempotent |
| Routing.EscalationAsks | core/inference/omniroute.py:245-264 | Any of the three grounds asks for quality first; without one nothing changes, and only two capabilities, the profile and the latency limit can change at all |
| Routing.EscalationNarrows | core/inference/omniroute.py:245-264 | The models admitted after escalation are exactly those admitted before that also reason and give structured output; only a failure or replan lifts the latency limit |
| Gateway.FallbackIsFirstSuccess | core/inference/gateway.py:137-233 | With the registry unchanged the loop picks the first success among the best candidate of each provider, up to the attempt limit |
| Gateway.EachProviderOnce | core/inference/gateway.py:137-233 | In a request no provider is called twice and no more calls are made than the limit allows |
| Gateway.BestAnswers | core/inference/gateway.py:122-233 | Only qualifying models are called, the first called has the greatest score of all, and when a model answers, every qualifying model with a greater score belongs to a provider that was called in vain |
| Gateway.InferenceGateway.Execute | core/inference/gateway.py:122-280 | A request returns what the choice over its ranked candidates gives and emits the fallback events of that run, each model tried adds the breaker records of what its call brought, no call is made to a provider whose breaker is open, and the request ends by its last clock reading |
| Gateway.InferenceGateway.TryInOrder | core/inference/gateway.py:137-280 | The loop with its failed set and attempt counter carries out that choice, with a fallback event after each failure that leaves attempts and candidates |
| Gateway.InferenceGateway.Attempt | core/inference/gateway.py:198-233 | One call gives a success, a failure, or, when the handling of its answer fails, both records in turn; it keeps the log safe and changes the breaker for no other provider |
| Gateway.RoutedMayBeCalled | core/inference/omniroute.py:70-73 | Whoever passed routing is not refused by the breaker when routing is over |
| Gateway.FallbackEventIff | core/inference/gateway.py:142-273 | In every request, each fallback event names the provider tried next if and only if the candidate it names can be called and no callable provider occurs twice among the candidates up to it |
| Gateway.EventCanNameTheFailed | core/inference/gateway.py:255-273 | With two models of one provider the event after the first failure names that provider again, and nobody is tried next |
| Gateway.EventEmittedIff | core/inference/gateway.py:255-257 | With the registry unchanged, the first failure is followed by an event if and only if there is a second candidate and a second attempt, and so on for each failure |
| Gateway.ServeInTurn | core/inference/gateway.py:91-280 | A new gateway and any sequence of requests made one after another: each is served as the choice over its candidates given the log so far, no call in the whole run is made while the breaker of its provider is open, and from the failure that opens a breaker to a later one in the row there lies a cooldown for each |
| Gateway.FailuresAreSpaced | core/inference/gateway.py:122-233 | In the log of every such run, once a provider has failed often enough in a row each further failure comes at least a cooldown after the one before |
| Gateway.AnswersKeepClosed | core/inference/gateway.py:198-233 | A provider that answers every call never has its breaker opened, whatever becomes of its answers, if the threshold is above one |
| Gateway.OpenBreakerHoldsBack | core/inference/gateway.py:122-233 | From the threshold-th failure in a row to the n-th at least n minus threshold cooldowns pass |
| ActivityLists.EndLastIs | core/activity/projector.py:465-473 | Completion ends the latest running command and no other |
| ActivityLists.EndLastOfNone | core/activity/projector.py:465-473 | With no command running, completion changes nothing |
| ActivityLaws.EveryEventKeepsConsistent | core/activity/projector.py:134-447 | Whatever the event: no repeated files, actions, worker ids or changed paths, counts equal to list lengths, running commands distinct, finished implies not live, not live implies an end time |
| ActiveWorkers.CountStaysRightIff | core/activity/projector.py:491-513 | Recording a worker keeps the metric of active workers right if and only if no listed worker thereby starts or stops running |
| ActiveWorkers.CountIsSetRight | core/activity/projector.py:505-531 | A new worker, a status update and the completion of all workers set that metric right |
| ActiveWorkers.EveryEventSurplus | core/activity/projector.py:91-132 | From every state and for every event: exactly how far the metric is off afterwards |
| ActiveWorkers.EventKeepsCountIff | core/activity/projector.py:91-132 | An event makes a right metric wrong if and only if it records a listed worker so that it starts or stops running |
| ActiveWorkers.MetricIsOffByFlips | core/activity/projector.py:91-132 | For every stream in which ids are not reused, the metric is off by the sum of these flips since the last recount, so right exactly when they cancel out |
| ActiveWorkers.MetricGoesWrong | core/activity/projector.py:491-524 | Three events, the start, finish and restart of a worker, after which the metric says 0 while the worker is running |
| Projection.EachKeyTellsItsStory | core/activity/projector.py:91-132 | For every stream in which ids are not reused, the activity at a key is the fold of the first deliveries of that key's events, and of nothing else |
| Projection.OnlyOwnOrderMatters | core/activity/projector.py:91-132 | Streams that agree on the first deliveries of each key lead to the same state |
| Projection.RepetitionIsHarmless | core/activity/projector.py:91-101 | Delivering an event again, at any later time, leaves all state as it would have been |
| Projection.DifferentKeysCommute | core/activity/projector.py:91-132 | Neighbouring events of different keys may arrive in either order |
| Projection.ReachableIsConsistent | core/activity/projector.py:91-132 | Every activity the projector can ever hold is consistent, also when ids are reused |
| ActivityEffectLaws.EveryEventDoes | core/activity/projector.py:134-543 | Each event kind does to each field exactly what a table apart from the dispatch says: status, liveness, end, error, waiting reason, action, names, files read and changed, commands, completed actions and workers |
| ActivityStories.ActivityTells | core/activity/projector.py:91-543 | For every stream in which ids are not reused, the activity at a key has the status, liveness, end, error, waiting reason and action that its own first deliveries brought last; lists exactly the files they read, the files they changed with their last operation, and the actions they completed, in order of first occurrence; and its commands are those started, the running ones being a stack |
| ActivityStories.LastOfIs | core/activity/projector.py:134-447 | The last value brought is that of the latest delivery that brings one |
| ActivityStories.FirstsAre | core/activity/projector.py:475-489 | A list of first occurrences has each nonempty element once, in the order in which they first occur |
| ActivityStories.StackStep | core/activity/projector.py:451-473 | Starting a command puts it on the stack of running ones unless it is there, and a completion takes the top one off |
| ActivityStories.TouchNotes | core/activity/projector.py:113-127 | The start is the first time noted, the worker the last one named, and a specialist's id names its trade |
| ActivityStories.KeyIs | core/activity/projector.py:74 | An event belongs to its correlation, or else to its task, or else to its project's activity or the global one |
| ActivityHistory.EveryEventAdvances | core/activity/projector.py:134-447 | No event loses a completed action, a file read, a changed file, a worker or a command; workers stay who they are, an ended command stays as it is, and the research counters grow by what the event brings |
| ActivityHistory.CountersAreExact | core/activity/projector.py:238-264 | For every stream in which ids are not reused the research counters are the totals over the first deliveries of the activity's own events |
| ActivityHistory.NothingIsForgotten | core/activity/projector.py:91-132 | One more delivery, of whatever key, loses nothing from any of the five lists of any activity |
| ActivityObjects.WorkforceActivityProjector.ProjectEvent | core/activity/projector.py:91-132 | On the mutable objects one event does what the projection step does; the key's entry is its old object or a fresh one, the other entries stay, and keys never share an object |
| ActivityObjects.WorkforceActivityProjector.GetOrCreateActivity | core/activity/projector.py:66-89 | An activity is made exactly when its key is new, and no other entry changes |
| ActivityObjects.ExecutionActivity.ApplyEvent | core/activity/projector.py:134-447 | Updating the fields in place comes to the value the event function gives |
| ActivityObjects.ExecutionActivity.RecordWorker | core/activity/projector.py:491-513 | The worker list and its metric in place: a listed worker changes where it stands, and the early return leaves the metric alone |
| ActivityObjects.ExecutionActivity.UpdateWorkerStatus | core/activity/projector.py:515-524 | The first worker with the id changes, and the metric is counted anew in any case |
| ActivityObjects.ExecutionActivity.CompleteLastCommand | core/activity/projector.py:465-473 | The backward search in place ends the latest running command |
| ActivityObjects.ExecutionActivity.RecordFileChanged | core/activity/projector.py:480-489 | A changed path is replaced where it stands or added at the end |
| EventStream.EventStreamConnection.Deliver | app/stream/event_stream.py:73-99 | A delivery is accepted unless the connection is closed or remembers the id; from 1000 queued events on the oldest is dropped for it; from 5000 remembered ids on 2500 are kept, and otherwise one more is; all bounds and the accounting below are kept |
| EventStream.EventStreamConnection.GetNextEvent | app/stream/event_stream.py:101-106 | The client takes the oldest queued event, if there is one, and everything else is kept |
| EventStream.ExitsInterleave | app/stream/event_stream.py:73-106 | What left the queue is an in-order interleaving of what the client took and what was dropped |
| EventStream.HighWaterIsMaximum | app/stream/event_stream.py:86-88 | The high-water mark is the maximum of the start value and all accepted numbers |
| EventStream.NoRepeatBeforeFirstTrim | app/stream/event_stream.py:78-84 | Among the events accepted before the first trim no id occurs twice |
| EventStream.OncePerWindow | app/stream/event_stream.py:78-84 | However often it is delivered, an id is accepted at most once between two trims |
| Memory.NormalizeTwice | core/memory/manager.py:40-42 | Normalising a path is idempotent |
| Memory.NormalizeKeepsName | core/memory/manager.py:40-42 | Leading slashes and backslashes go, all of them; the managed directory is put in front exactly if the rest does not start with it; the rest stays as it is |
| Memory.UnmanagedStayApart | core/memory/manager.py:83-86 | Two paths outside the managed directory are indexed alike only if they are equal |
| Memory.TwoCreationsSucceed | core/memory/manager.py:77-91 | After a creation another one under a different such path, with a new id, succeeds too |
| Memory.CreateSucceedsIff | core/memory/manager.py:76-90 | A creation succeeds exactly for a registered project, a new id and a path at which nothing is indexed, and otherwise changes nothing |
| Memory.CreatedIsThere | core/memory/manager.py:92-116 | After a creation the document is there with every field as given, at version 1, and nothing else has changed but its file |
| Memory.UpdateFailsWhen | core/memory/manager.py:146-149 | Which error an update meets, in order: unknown document, stale version, unknown project; and then nothing changes |
| Memory.UpdateChangesOne | core/memory/manager.py:151-166 | An update changes one document, its given fields, its version by one, and one file |
| Memory.DeleteTakesOne | core/memory/manager.py:169-178 | A deletion takes away one document and its file, or fails and changes nothing |
| Memory.PathsStayUnique | core/memory/manager.py:61-178 | After every sequence of operations no two documents of a project have the same path, and documents are stored under their own ids |
| Memory.RunsAgree | core/memory/manager.py:61-178 | If different places have different files, every sequence of operations leaves each document's file with its content and its checksum matching |
| Memory.AgreementIff | core/memory/manager.py:36-43 | Index and files agree after every sequence confined to a set of places if and only if no two of them have the same file |
| Memory.CanonicalPlacesHaveOwnFiles | core/memory/manager.py:36-43 | With canonical paths and project roots of which none contains another, every place has its own file |
| Memory.DottedPathClashes | core/memory/manager.py:36-43 | Two different indexed paths, both normalised, for one file |
| Memory.ParentClashes | core/memory/manager.py:36-43 | So does a parent segment, which takes back the segment before it |
| Memory.VersionCountsUpdates | core/memory/model.py:48-59 | A document's version is one more than its successful updates since it was created |
| Memory.OneWinner | core/memory/manager.py:146-149 | Of the updates that expect the same version of a document at most one succeeds, unless it was deleted in between |
| Memory.MemoryDocument.UpdateContent | core/memory/model.py:48-59 | Content, checksum and version change together, and the optional fields only if they are given |
| Memory.MemoryManager.CreateMemory | core/memory/manager.py:61-116 | Creation does what the operation is defined to do, in every error case too: an unknown project, an id in use, a path in use |
| Memory.MemoryManager.ReadMemoryByPath | core/memory/manager.py:125-133 | A document is found under every path that normalises to its own, and none otherwise |
| Memory.MemoryManager.UpdateMemory | core/memory/manager.py:135-167 | The same for updates: an unknown document, a stale version, an unknown project |
| Memory.MemoryManager.DeleteMemory | core/memory/manager.py:169-178 | The same for deletion |
| Controller.ManagerController.GetActivePlan | core/manager/controller.py:120-129 | The cached plan, or else the active plan of the highest version, which is then cached |
| Controller.ManagerController.ApplyUpdate | core/manager/controller.py:369-435 | Store and cache after a plan update are those of the plan function |
| Controller.LatestActiveIs | core/manager/controller.py:124-128 | The plan found in the store is active, and no active one has a higher version |
| Controller.UpdateAddsPlan | core/manager/controller.py:371-415 | The plan added takes what the update gives and the rest from the plan before it, which is marked revised; nothing else changes |
| Controller.CompletionMarksPlan | core/manager/controller.py:812-815 | Completing the project marks the active plan completed, in the store and in the cache, and nothing else |
| Controller.ManagerController.ExecuteCycle | core/manager/controller.py:188-367 | A cycle pauses, stops at the cost limit, or updates plan, cache and counters as the cycle function says |
| Controller.CycleByCases | core/manager/controller.py:188-340 | A cycle by cases: paused, stopped at the cost limit, or counted, with the idle counter reset by progress within the action limit, kept while tasks run or the user is asked or the project completed, and counted up otherwise |
| Controller.CyclePlans | core/manager/controller.py:287-319 | The plans after a cycle are those after its update, completed if one of the actions within the limit completes the project |
| Controller.UpdateExtendsChain | core/manager/controller.py:369-435 | With a plan to build on, an update revises it and adds the next version, which is active and cached |
| Controller.VersionsFormChain | core/manager/controller.py:120-435 | After any cycles and reads of the active plan from an empty store, with n updates carried out, the store holds exactly the versions 1 to n, all but the last are revised, and the cached plan is version n |
| Controller.CompleteKeepsCoherent | core/manager/controller.py:801-817 | Completing the project keeps the chain and the cache in agreement and adds no version |
| Controller.RestartKeepsChainIff | core/manager/controller.py:120-129 | After a restart the next update continues the chain if and only if the newest plan is still active |
| Controller.PauseIsFinal | core/manager/controller.py:188-197 | Once the idle limit is reached no sequence of cycles without feedback or trigger changes anything; reads in between at most put the active plan in the cache |
| Controller.IdleStaysBounded | core/manager/controller.py:321-340 | Such cycles never take the idle counter past the limit |
| Controller.IdleRunsOut | core/manager/controller.py:321-340 | Such cycles without progress, with any reads in between, pause the manager after exactly as many as the limit still allows |

## Left out

- The regular expressions before and after the brace scan, and `json.loads` with the payload test: the test is an arbitrary predicate on strings, and payloads are given as their texts. The list of kept segments is held joined.
- SHA-256, UUIDs and clock readings: a hash is any function, ids are given (an omitted id is a fresh one), and a clock is a nondecreasing sequence of readings. One reading serves all timestamps written during one event's projection.
- Floating point: scores, costs and times are exact reals, `* 1.3` and `/ 4.0` are exact rationals, and `round` to four digits goes to the nearest, ties to even.
- The formulas for relevance and routing scores: scores are given numbers, for routing a given function of model and request.
- Candidate discovery, reading project files, writing the snapshot, and the fields of a context item that the pipeline does not read (title, priority, freshness, scoring reasons, metadata).
- Messages and details of warnings and errors, apart from their kind and target.
- Emitting events, logging and reading secrets are assumed to succeed. An exception while an answer is handled is modelled as a failure after a success; one that the handling of a failure raises itself is not. Of the events of a request only the fallback event is modelled. The redaction of answers and the texts of the final error are not.
- Requests to the gateway and calls on the breaker run one after another; concurrent requests are not modelled, nor are locks anywhere.
- The event PROGRAMMER_BLOCKED: its branch names a status that does not exist (core/activity/projector.py:335-337).
- The redaction of commands and the tidying of error messages in activities are arbitrary functions on strings. An id that is missing from an event is the empty string. An event kind carries only the payload entries that its branch reads.
- Listing and lookup of activities, their serialisation, and the display-only projector in core/events/activity.py.
- The stream manager's registry of connections and catch-up of missed events; delivery and retrieval are atomic steps, and waiting is one attempt.
- Symbolic links and failing writes in project memory, other memory fields (type, worker and task, metadata, timestamps), listing and searching, and deletion of projects: the registered roots are fixed.
- The manager's task actions: whether an action is accepted, whether tasks are running, what the decision proposes and whether the cost limit is reached are inputs of a cycle. The dependencies of plans, events and decision records are left out. One project is modelled; projects share none of this state.
- HTTP, transport objects, providers, secret stores, autonomy evaluation, the request dispatcher and planner decomposition.
