# Verification of the gateway's state machines

The gateway forwards chat requests to many upstream providers. Most of its code is plumbing, but some
of it is small state machines that live in memory and whose promises are about whole runs: a rate
limiter, schedulers, retry loops, and transducers that turn an upstream's byte or line stream into
OpenAI-style events. This project models those machines in Dafny and proves what they promise.

`dafny verify dfyconfig.toml` checks everything.

## How it is built

Code that changes state is a class or a method here, as it is in the source, and is proved against a
specification: a function that says what one call does to the state. The results are lemmas about that
function over every run, every input or every way of cutting a stream. Time is a non-decreasing
integer, what the outside world does is an arbitrary input, and what the gateway calls without our
seeing it (JSON, protobuf and text decoding, filters, error analysis) is an arbitrary function.

| Module | Source | Subject |
|---|---|---|
| `KeyBudget`, `KeyTokens`, `KeyAdmission` | `open-sse/services/keyBudget.js` | per-key budget and rate limits; the token window; the whole decision |
| `RunnerPool`, `PanelCollector` | `open-sse/services/combo.js` | fan-out with a concurrency cap; quorum with grace and hard deadline |
| `Rotation`, `ModelOrder`, `ComboFailover`, `ComboAnswers` | `open-sse/services/combo.js` | round robin, the orderings, the failover rounds, what they answer |
| `Eviction`, `SlotGuard`, `ErrorMonitor`, `ErrorTotals` | `open-sse/services/oauthAntiBan.js` | concurrency slots, the 429/403 monitor, its counters, and the soft eviction of both |
| `KiroFraming`, `KiroFrame`, `KiroThinking`, `KiroBlocks`, `KiroEvents`, `KiroFinish` | `open-sse/executors/kiro.js` | framing, frame parsing, thinking tags and the text that should remain, the event machine, its finish chunks |
| `KiroClock`, `KiroClockShows`, `KiroStream`, `KiroArrival` | `open-sse/executors/kiro.js` | ids made from the clock and when they show, the whole transform, the times at which chunks arrive |
| `CursorTools`, `CursorDecoders`, `CursorNames`, `CursorComposer`, `CursorFrames` | `open-sse/executors/cursor.js` | the two decoders, for other models and for composer models |
| `Qoder`, `QoderReading` | `open-sse/executors/qoder.js` | line splitting and unwrapping; what each line means |
| `Retry`, `StreamReplay` | `open-sse/executors/base.js`, `open-sse/executors/codex.js`, `open-sse/services/combo.js` | the retry loops; peek and replay |
| `Rtk`, `RtkShapes` | `open-sse/rtk/index.js` | tool-result compression and its accounts; which texts it changes |
| `Basics`, `Arithmetic`, `Bytes`, `Text` | | shared vocabulary |

## What the proofs found

- **Rate limit.** With `rpmLimit` L and at most c admitted requests outstanding, "at most L - 1 + c
  requests per window" holds for every run, requests that fail unrecorded included, if and only if
  L <= 500 or L + c <= 1001. Otherwise the truncation of the stored window makes room for L + c.
- **Token limit.** It decides as the complete history would in all states with at most n live usages if and
  only if n <= 500. With 501 the truncation can drop a live one, and a request too many is admitted.
- **Cooling partition.** A retry round asks for cooldowns once per filter. A model whose cooldown ends
  between the two questions is in neither list and is dropped from the request.
- **Sticky session.** Moving a model to the front drops its other occurrences. That and the cooling
  partition are the only ways in which a combo loses a fallback (`ModelOrder.NoFallbackLost`).
- **Failed combo.** A combo that fails can report a success status; the exact condition is
  `ComboFailover.FailureLooksOk`.
- **Slots.** While every held slot is tracked, n calls for an account give it no more than its limit if there
  is room for it in the tracker. Without room each of the n calls gives a slot, whatever the limit, so the
  limit is exceeded if and only if there is no room and n is above it (`SlotGuard.AcquireMany`). A tracker of
  any size runs out of room (`SlotGuard.LimitExceeded`), and a reset forgets the slots that are held.
- **Error monitor.** The comment at `open-sse/services/oauthAntiBan.js:237-240` says that the map can
  stay above its cap while all accounts cool down. It cannot: the entry just inserted has no cooldown, so
  it is evicted itself, and the error that created it is lost. Also, the "error rate" divides the errors
  of the window by all requests since the entry was created, not by those of the window.
- **Kiro framing.** 1000 frames are handled per call. A chunk that carries more leaves the rest for the
  next call, and if there is none, it is lost. A length field below 16 stalls the stream for good.
- **Kiro thinking tags.** The program looks for one block per event. Where no tag that matters is split
  between events, the client sees the text without its blocks if and only if no event has an opening tag
  behind a closing tag: `<thinking>a</thinking>b<thinking>c</thinking>` in one event loses its first block
  only. What has been sent is right at every moment, whatever text without `<` comes next, if and only if
  every event is of that kind and none ends within a tag that matters or right behind a block. A split
  opening tag sends the whole block; a split closing tag loses the text behind it.
- **Kiro tool uses without an id.** The program makes their id from the clock, so that what a client sees
  depends on when frames are handled: two such tool uses in one chunk can be one tool with both arguments,
  and in two chunks two tools (`KiroArrival.TwoCuttings`). Cuts and clock never show if and only if every
  tool use brings its own id. They show in no more than the ids they make if and only if at most one tool
  use lacks an id and no other brings one that looks as if made from the clock.
- **Cursor.** Error, text and finish reason of the two decoders always agree for models other than
  composer models. The tool calls agree if and only if no fragment of an id that comes behind its
  `isLast` fragment brings arguments or another `isLast`. The deltas of one call carry one name if and only
  if its fragments with arguments do (`CursorNames.StreamNames`).
- **Cursor composer models.** The outcomes agree if and only if no thinking had been shown when the first
  error frame met neither text nor tools. The texts agree, without errors, if and only if there was text and
  nothing was shown of the thinking, or there was no text and what was shown is all that is visible at the
  end. So text differs whether it comes before a visible thinking or behind it.
- **Qoder.** An envelope whose body is `[DONE]` with a line break in it is not recognised as the end, but
  is forwarded as `[DONE]`. A carriage return without a line feed survives sanitizing; the event stream
  format (section 9.2.6 of the WHATWG HTML Standard) counts it as a line end.

## Model

| member | source | states |
|---|---|---|
| KeyBudget.VerdictExact | open-sse/services/keyBudget.js:91-100 | as long as dropped entries are out of the window or enough live ones are stored, the verdict on the stored window is the verdict on the complete history |
| KeyBudget.RpmVerdict | open-sse/services/keyBudget.js:91-100 | in every reachable state with a limit of at most 500, a request is refused for its rate exactly when the complete history holds `rpmLimit` requests in the last 60 s |
| KeyBudget.RateSafety | open-sse/services/keyBudget.js:123-136 | with at most c admitted requests outstanding, and any number that failed and were never recorded, every window of every run holds at most `rpmLimit` - 1 + c recorded requests, under the condition of RateSafetyExactly |
| KeyBudget.RateSafetyExactly | open-sse/services/keyBudget.js:128-134 | that promise holds for all runs if and only if `rpmLimit` <= 500 or `rpmLimit` + c <= 1001 |
| KeyBudget.RateOverrun | open-sse/services/keyBudget.js:133-133 | outside the condition, a legal run that records `rpmLimit` + c requests at one instant |
| KeyBudget.RateBoundTight | open-sse/services/keyBudget.js:91-136 | within the condition, a legal run that attains the bound |
| KeyBudget.RetryHint | open-sse/services/keyBudget.js:95-99 | a stored request has expired when the retry hint is over, and none before, unless the hint was raised to one second |
| KeyTokens.TokenVerdict | open-sse/services/keyBudget.js:103-112 | the token limit never refuses what the full history would admit, and is exact while at most 500 usages are live |
| KeyTokens.TokenVerdictExactly | open-sse/services/keyBudget.js:103-134 | it is exact in all states of all runs with at most n live usages if and only if n <= 500 |
| KeyTokens.TokensMissed | open-sse/services/keyBudget.js:134-134 | a legal run with 501 live usages in which a request over the limit is admitted |
| KeyBudget.SpendConserved | open-sse/services/keyBudget.js:75-131 | lifetime spend is the sum of all recorded costs, and period spend the sum since the last reset |
| KeyAdmission.WhitelistVerdict | open-sse/services/keyBudget.js:69-73 | a model is refused exactly if the key has a whitelist that lists neither the model nor `*` |
| KeyAdmission.BudgetVerdict | open-sse/services/keyBudget.js:76-89 | a key is over its budget exactly if it has one, may use the model, and the costs recorded since the last reset, none if one is due, reach it; the retry time is what is left of the period |
| KeyAdmission.Admission | open-sse/services/keyBudget.js:60-114 | the whole decision from the complete history, for a rate limit and a number of live usages of at most 500: whitelist, budget, requests, tokens, in this order |
| KeyBudget.KeyState.Check | open-sse/services/keyBudget.js:65-111 | whitelist, period reset, budget, request and token limits in the source's order, against the specification `Checked` |
| KeyBudget.KeyState.Record | open-sse/services/keyBudget.js:127-134 | spend, request and token records with their truncation, against the specification `Recorded` |
| KeyBudget.KeyBudgets.SetKeyBudget | open-sse/services/keyBudget.js:28-43 | registers a key and leaves the others alone |
| KeyBudget.KeyBudgets.RemoveKeyBudget | open-sse/services/keyBudget.js:48-50 | forgets one key and leaves the others alone |
| KeyBudget.KeyBudgets.CheckKeyBudget | open-sse/services/keyBudget.js:60-66 | an unknown key is admitted; a known one is checked and no other key changes |
| KeyBudget.KeyBudgets.RecordKeyUsage | open-sse/services/keyBudget.js:123-136 | records against one key and leaves the others alone |
| RunnerPool.BoundedDelay | open-sse/services/combo.js:912-941 | in every reachable state at most cap runners are active, no slot waits while a worker is free, slots start in index order, and slot i starts no later than floor(i / cap) latencies after the start: one that has started did, and one that has not is not late yet |
| RunnerPool.LaunchedOnce | open-sse/services/combo.js:924-938 | launching keeps the start times of the slots launched before and starts each new one once, now |
| RunnerPool.MostWorkers | open-sse/services/combo.js:912-917 | the cap is the largest number that neither the slots nor a positive limit forbid |
| RunnerPool.Makespan | open-sse/services/combo.js:912-941 | after ceil(n / cap) latencies everything has been launched and has settled |
| RunnerPool.Scheduler.Launch | open-sse/services/combo.js:926-938 | the loop that fills free workers reaches the specified state |
| RunnerPool.Scheduler.OnSettled | open-sse/services/combo.js:933-936 | a settled runner frees its worker and the next slot is launched |
| PanelCollector.ResolvesWhenDue | open-sse/services/combo.js:870-900 | the panel resolves at most once, at the earliest of the hard deadline, the instant all settled and quorum plus grace, with exactly the answers settled by then and their number of successes |
| PanelCollector.ResolvesEventually | open-sse/services/combo.js:870-900 | once that moment has passed the panel has resolved |
| PanelCollector.OutsMeaning | open-sse/services/combo.js:872-890 | a position of the result is filled exactly when its own call has settled, with that answer |
| PanelCollector.SettlesOnce | open-sse/services/combo.js:885-898 | no call is counted twice in any run |
| PanelCollector.DueStable | open-sse/services/combo.js:870-900 | a later settlement does not change when the panel is due |
| PanelCollector.Collector.OnSettled | open-sse/services/combo.js:886-897 | a settlement fills its position and arms the grace timer or resolves, as specified |
| PanelCollector.Collector.OnHardTimer | open-sse/services/combo.js:877-884 | the hard timer resolves unless the panel already has |
| PanelCollector.Collector.OnGraceTimer | open-sse/services/combo.js:877-896 | the grace timer resolves unless the panel already has |
| Rotation.ClosedForm | open-sse/services/combo.js:295-324 | from state (i0, c0), call t starts at model (i0 + (c0 + t) / k) mod n |
| Rotation.Fair | open-sse/services/combo.js:295-324 | any n * k consecutive calls lead with each position exactly k times |
| Rotation.CallReturns | open-sse/services/combo.js:278-324 | call t returns the list whose j-th model is models[(i0 + (c0 + t) / k + j) mod n] |
| Rotation.FairLists | open-sse/services/combo.js:278-324 | of any n * k consecutive lists returned, k begin with a model for each time it is listed |
| Rotation.Serve | open-sse/services/combo.js:278-324 | any number of calls for one combo, as the program makes them: call c returns the list that begins at i0 + (c0 + c) / k |
| Rotation.NormalizeStickyLimit | open-sse/services/combo.js:273-276 | a positive limit is kept, and anything else is 1 |
| Rotation.RotateModelsFromIndex | open-sse/services/combo.js:278-285 | shifting one by one gives the list whose j-th model is models[(i + j) mod n] |
| Rotation.RotatedKeepsAll | open-sse/services/combo.js:278-285 | rotation is a permutation |
| Rotation.ComboRotation.GetRotatedModels | open-sse/services/combo.js:295-324 | returns the list that begins at the model of the combo's state, advances that state and no other |
| Rotation.ComboRotation.ResetComboRotation | open-sse/services/combo.js:330-333 | forgets one combo, or all |
| ModelOrder.ReorderIsStable | open-sse/services/combo.js:145-164 | capability reordering is tier 0, tier 1, tier 2, each in its original order, whatever the sorting algorithm |
| ModelOrder.BestFirst | open-sse/services/combo.js:145-164 | what is required not being empty: first the models with all capabilities, then those with all hard ones, then the rest, each part in its original order |
| ModelOrder.ReorderKeepsAll | open-sse/services/combo.js:145-164 | capability reordering is a permutation |
| ModelOrder.SortUnique | open-sse/services/combo.js:160-163 | two sorted arrangements of the same decorated entries are equal |
| ModelOrder.StickyKeepsAll | open-sse/services/combo.js:397-400 | moving the sticky model to the front is a permutation if and only if it is listed at most once |
| ModelOrder.StickyKeepsOrder | open-sse/services/combo.js:397-400 | the other models keep their order |
| ModelOrder.NoFallbackLost | open-sse/services/combo.js:367-449 | rotation, capability order, sticky model and the cooling partition of every retry round together: what is tried is never more than the combo lists, and all of it if and only if the sticky model is not listed twice and no listed model's cooldown ends between two readings |
| ModelOrder.CoolingKeepsAll | open-sse/services/combo.js:433-449 | the cooling partition is a permutation if and only if both readings agree on every model; one that stops cooling in between is dropped |
| ModelOrder.CoolingOrder | open-sse/services/combo.js:433-449 | if the readings agree, the models that cool come behind all others, and both parts keep their order |
| ModelOrder.CoolingParts | open-sse/services/combo.js:433-449 | in any case models that the first reading calls free come first, and then models that the second calls cooling |
| ComboFailover.ResultUnique | open-sse/services/combo.js:425-622 | the outcomes and the clock determine the result and the round it comes from |
| ComboFailover.FirstDecisiveWins | open-sse/services/combo.js:491-568 | the first outcome of the first round that ends the request is what the client gets, whatever comes behind it |
| ComboAnswers.ResultMeans | open-sse/services/combo.js:451-622 | said of the outcomes' own fields: what is delivered is a reply with a 2xx status that is last or not objected to, or one with another status that forbids fallback; every earlier outcome of its round, and all of earlier rounds, were cooling, thrown, objected to or errors that allow fallback; so were all where the combo fails |
| ComboAnswers.FirstEndWins | open-sse/services/combo.js:451-568 | the first such reply of the first round is what the client gets |
| ComboAnswers.AnotherRound | open-sse/services/combo.js:592-606 | another round follows if and only if there were fewer than three and the earliest retry time is ahead by 65 s at most, or none was given and all models were cooling |
| ComboAnswers.FailureReports | open-sse/services/combo.js:608-622 | the message, status and retry time of a failure, from the outcomes of its last round |
| ComboAnswers.WaitsFor | open-sse/services/combo.js:491-580 | what is waited for one outcome |
| ComboAnswers.CallsAre | open-sse/services/combo.js:451-485 | the models called are those that were not cooling, in order |
| ComboFailover.FailureLooksOk | open-sse/services/combo.js:517-608 | exactly when a failed combo reports a success status |
| ComboFailover.FailureWithSuccessStatus | open-sse/services/combo.js:517-608 | such a run exists |
| ComboFailover.CostBound | open-sse/services/combo.js:425-622 | at most four rounds, four calls per listed model, and 195000 + 20000 n ms of deliberate waits |
| ComboFailover.TryRound | open-sse/services/combo.js:451-589 | one pass over the models finds the first decisive answer or gathers error, status and earliest retry as specified, with exact waits and calls |
| ComboFailover.HandleComboChat | open-sse/services/combo.js:425-622 | the loop returns the specified result; its waits and calls are those the bound speaks of |
| Eviction.AddThenEvict | open-sse/services/oauthAntiBan.js:57-67 | after adding a key and evicting, the table is within its limit, no key in use is gone, and the new key is there exactly when there was room or an older key was idle |
| SlotGuard.Guard.Conservation | open-sse/services/oauthAntiBan.js:82-126 | while every held slot is tracked, an account's count is the number of slots it holds, never above the limit |
| SlotGuard.Guard.FewHoldersLeaveRoom | open-sse/services/oauthAntiBan.js:44-67 | while fewer accounts than the tracker's limit hold slots, there is room for any account |
| SlotGuard.Guard.AcquireAccountSlot | open-sse/services/oauthAntiBan.js:82-126 | a slot exactly when the account's count is below the limit; no account in use is evicted and no other count changes; the new slot is the account's own exactly when there was room, and otherwise belongs to a fresh entry while the table stays as it was |
| SlotGuard.Guard.Release | open-sse/services/oauthAntiBan.js:98-123 | the first release gives the slot back, later ones do nothing, and the hand-over to a waiter is unreachable |
| SlotGuard.Guard.EnsureEntry | open-sse/services/oauthAntiBan.js:44-54 | the account's entry, evicted again at once exactly when there is no room |
| SlotGuard.Guard.MaybeEvictIdle | open-sse/services/oauthAntiBan.js:57-67 | drops the oldest idle account when the tracker is over its limit, and nothing else |
| SlotGuard.Guard.HasAvailableSlot | open-sse/services/oauthAntiBan.js:132-140 | answers whether the account holds fewer slots than the limit |
| SlotGuard.Guard.ResetAll | open-sse/services/oauthAntiBan.js:372-375 | clears the table; from then on held slots are tracked if and only if there are none, and there is room for every account |
| SlotGuard.ResetForgets | open-sse/services/oauthAntiBan.js:372-375 | after a reset an account gets a slot, however many it holds |
| SlotGuard.AcquireMany | open-sse/services/oauthAntiBan.js:44-126 | from any state in which every held slot is tracked, n calls for one account give min(n, what is left of the limit) slots with room and n slots without; the limit is exceeded if and only if there is no room and n is above it |
| SlotGuard.LimitExceeded | open-sse/services/oauthAntiBan.js:57-67 | for every limit, tracker size and n there is a run after which one account holds n slots |
| ErrorMonitor.WindowExact | open-sse/services/oauthAntiBan.js:266-302 | after each recorded error the window is exactly the errors since the entry was created within `errorWindowMs`, and the cooldown is set exactly by the sample size and rate rule |
| ErrorTotals.TotalsExact | open-sse/services/oauthAntiBan.js:266-320 | in every run an entry's counters are the errors, and the errors and successes, of its account since the entry was created |
| ErrorTotals.AlertExact | open-sse/services/oauthAntiBan.js:278-291 | an alert is noted exactly if the errors in the window are enough, their share of the account's requests is above the threshold, and the last alert is long enough ago |
| ErrorTotals.OthersIgnored | open-sse/services/oauthAntiBan.js:266-270 | a status other than 429 and 403, an account without a name, and a monitor that is off change nothing |
| ErrorMonitor.TableBounded | open-sse/services/oauthAntiBan.js:204-241 | in every reachable state the map is within its cap, stored windows are ends of the histories, and window length <= errors <= total |
| ErrorMonitor.CoolingStays | open-sse/services/oauthAntiBan.js:225-241 | a cooldown is never shortened, and a cooling account's entry goes only when an operator clears it |
| ErrorMonitor.ErrorLost | open-sse/services/oauthAntiBan.js:204-241 | an error is lost exactly when its account is unknown, the map is full and all its accounts are cooling |
| ErrorMonitor.EnsureKeeps | open-sse/services/oauthAntiBan.js:204-241 | what adding an entry leaves, and when the new entry stays |
| ErrorMonitor.PrunedExact | open-sse/services/oauthAntiBan.js:243-249 | a pruned window is exactly the part of the history inside the window |
| ErrorMonitor.Monitor.PruneWindow | open-sse/services/oauthAntiBan.js:243-249 | the shifting loop computes the pruned window |
| ErrorMonitor.Monitor.MaybeEvictErrorStats | open-sse/services/oauthAntiBan.js:225-241 | drops the oldest entry that is not cooling when the map is over its cap, and nothing else |
| ErrorMonitor.Monitor.RecordOAuthError | open-sse/services/oauthAntiBan.js:266-302 | records a 429 or 403 as specified, and ignores anything else |
| ErrorMonitor.Monitor.RecordOAuthSuccess | open-sse/services/oauthAntiBan.js:311-320 | raises the total as specified |
| ErrorMonitor.Monitor.IsAccountCoolingDown | open-sse/services/oauthAntiBan.js:326-335 | true exactly for the accounts that eviction must spare |
| ErrorMonitor.Monitor.ClearAccountStats | open-sse/services/oauthAntiBan.js:362-369 | removes one entry |
| ErrorMonitor.Monitor.GetErrorStatsSnapshot | open-sse/services/oauthAntiBan.js:340-359 | one row per account over its pruned window |
| KiroFraming.Refines | open-sse/executors/kiro.js:146-166 | after any chunks, frames given out plus buffer are all bytes received, and the greedy parse of all bytes is the frames given out followed by the parse of the buffer |
| KiroFraming.ExactUnlessCapped | open-sse/executors/kiro.js:154-166 | the frames given out are the whole parse if and only if the last call was not cut short by the iteration cap |
| KiroFraming.CutsDoNotMatter | open-sse/executors/kiro.js:146-166 | two ways of cutting the same bytes give the same frames and buffer |
| KiroFraming.CapLosesAFrame | open-sse/executors/kiro.js:155-157 | 1001 frames in one chunk: the last is not given out until a further chunk comes |
| KiroFraming.Stalled | open-sse/executors/kiro.js:160-162 | a length field below 16 stops the framing for good |
| KiroFrame.RoundTrip | open-sse/executors/kiro.js:530-590 | the frame of any message with string headers parses to the message's headers and payload |
| KiroFrame.ReadsInside | open-sse/executors/kiro.js:541-563 | what lies beyond the frame has no influence on the result |
| KiroFrame.StreamRoundTrip | open-sse/executors/kiro.js:146-166 | any messages, cut anywhere, are read back one by one with nothing left over |
| KiroFrame.ParseEventFrame | open-sse/executors/kiro.js:530-590 | the walking header loop ends and computes the specified frame |
| KiroThinking.WholeBlock | open-sse/executors/kiro.js:182-204 | a thinking block within one event is dropped, with one line feed behind it |
| KiroThinking.SpreadBlock | open-sse/executors/kiro.js:182-204 | one block spread over any number of events is dropped, and the text behind it in its last event is passed on as it is |
| KiroBlocks.OnePiece | open-sse/executors/kiro.js:182-204 | of any one event the client sees the text without its blocks if and only if no opening tag stands behind a closing tag in it |
| KiroBlocks.BlocksDropped | open-sse/executors/kiro.js:182-204 | of any events whose cuts split no tag that matters, nor a closing tag from its line feed, the client sees the joined text without its blocks if and only if each event is of that kind |
| KiroBlocks.RightExactly | open-sse/executors/kiro.js:182-204 | for any events: at every moment, whatever text without `<` comes next, all text sent is right if and only if each event is of that kind and none ends within a tag that matters or right behind a block |
| KiroBlocks.TwoBlocks | open-sse/executors/kiro.js:189-195 | of two blocks in one event only the first is dropped |
| KiroBlocks.SplitOpenLeaks | open-sse/executors/kiro.js:182-199 | wherever the one opening tag of a text is split between two events, all of the text is sent, tag, block and end of the block |
| KiroBlocks.SplitCloseLoses | open-sse/executors/kiro.js:182-199 | wherever the closing tag of a text's first block is split between two events, the text behind it is lost, up to another closing tag |
| KiroEvents.ToolStream | open-sse/executors/kiro.js:277-356 | tools are numbered 0, 1, 2, ... by first appearance of their id, with the name they then have; arguments follow their start; joined per number they are the upstream's inputs for that id |
| KiroEvents.FirstsComplete | open-sse/executors/kiro.js:291-296 | every id that came is numbered, once |
| KiroEvents.RoleOnce | open-sse/executors/kiro.js:217-222 | the role comes with the first counted chunk and no other, unless that chunk is code; the length that token estimates use is the length of all streamed text |
| KiroEvents.AnswerHeard | open-sse/executors/kiro.js:177-275 | in every run without a throw whose cuts split no tag that matters, the streamed answer is the upstream's text without its thinking blocks if and only if no event has an opening tag behind a closing tag; reasoning and code come through unchanged |
| KiroEvents.HeardRun | open-sse/executors/kiro.js:177-275 | for any cuts, the streamed answer is what stripping event by event leaves; reasoning and code come through unchanged |
| KiroEvents.Completed | open-sse/executors/kiro.js:359-491 | a completed stream ends with its one `[DONE]`, after one finish chunk per stop event plus one if metering and context usage came first, and at least one |
| KiroFinish.FinishSent | open-sse/executors/kiro.js:359-461 | the finish chunks that one event sends, in any stream that has not failed: one without usage for a stop; one with usage when metering and context usage have come before any stop; each says tool calls if and only if a tool use is among the events so far; the usage is the last metrics, or else the estimate from the text streamed and the last percentage |
| KiroFinish.FinishFlushed | open-sse/executors/kiro.js:471-491 | the flush sends one, without usage, if none has been sent; it says tool calls if and only if a tool use came |
| KiroClock.ClockIdInjective | open-sse/executors/kiro.js:284-284 | ids made at different milliseconds are different |
| KiroClockShows.ClockHidden | open-sse/executors/kiro.js:283-296 | for any events without a null tool use: the client gets the same whatever the clock reads if and only if every tool use brings its own id |
| KiroClockShows.ClockRenames | open-sse/executors/kiro.js:283-296 | it gets the same up to the ids made from the clock, whatever that reads, if and only if at most one tool use lacks an id and, if one does, no other brings one that looks as if made from the clock |
| KiroClockShows.ClocksCompared | open-sse/executors/kiro.js:283-356 | where every tool use brings arguments, two clocks in particular show the same up to those ids if and only if they make the same tool uses share an id |
| KiroClockShows.PatternMeansTicks | open-sse/executors/kiro.js:284-284 | which they do, unless an id that was brought looks as if made from the clock, if and only if equal readings are in the same places |
| KiroClockShows.SilentUses | open-sse/executors/kiro.js:321-331 | without arguments two clocks may show the same although they make different tool uses share an id |
| KiroStream.CutsDoNotShow | open-sse/executors/kiro.js:143-470 | keepalives aside, the output depends on the bytes and on what the clock reads for tool uses without an id, and not on how the bytes were cut |
| KiroStream.CutsNeverShow | open-sse/executors/kiro.js:143-470 | for any two cuttings of the same bytes: the output is the same whatever the clock reads if and only if every tool use brings its own id |
| KiroStream.CutsOnlyRename | open-sse/executors/kiro.js:143-470 | it is the same up to the ids made from the clock if and only if at most one tool use lacks an id and no other looks as if made from the clock |
| KiroStream.DeliveriesCompared | open-sse/executors/kiro.js:143-470 | two deliveries of the same bytes in particular, each with its readings: the output is the same up to those ids if the same tool uses share an id, and only if, where every tool use brings arguments |
| KiroArrival.TwoCuttings | open-sse/executors/kiro.js:283-356 | two tool uses without an id are one tool with both arguments when their frames come in one chunk, and two tools when they come in two chunks at different milliseconds |
| KiroStream.MessagesToChunks | open-sse/executors/kiro.js:131-501 | end to end: encoded messages, cut anywhere, give the run over the events they stand for, with ids from the clock exactly where they bring none |
| KiroStream.NeverSilent | open-sse/executors/kiro.js:143-470 | until the finish is out, every call sends something, behind what was sent before; it sends a keepalive alone or none |
| KiroStream.SentInOrder | open-sse/executors/kiro.js:171-461 | nothing sent is taken back, and the finish chunk of an event is the last that it sends |
| KiroStream.EventStream.TransformChunk | open-sse/executors/kiro.js:143-470 | one call of the transform reaches the specified buffer, state and output |
| KiroStream.EventStream.HandleEvent | open-sse/executors/kiro.js:171-461 | one turn of the event loop reaches the specified state |
| KiroStream.EventStream.HandleToolUses | open-sse/executors/kiro.js:277-356 | the loop over tool uses reaches the specified state, up to a null entry, which throws |
| KiroStream.EventStream.FlushStream | open-sse/executors/kiro.js:471-491 | the flush sends a missing finish chunk and the end |
| CursorTools.GatherMeans | open-sse/executors/cursor.js:398-420 | gathering fragments gives one call per id, with the name of the first and the arguments of all |
| CursorTools.LastsMeans | open-sse/executors/cursor.js:410-420 | the arguments listed at an id's last fragment are all its arguments exactly when nothing relevant follows it |
| CursorDecoders.DecodersAgree | open-sse/executors/cursor.js:343-678 | for a model that is no composer: same error or none, same text, same finish reason, and the same calls per id if and only if nothing that matters follows an `isLast` fragment of its id |
| CursorDecoders.StreamShape | open-sse/executors/cursor.js:499-705 | for any model: the first delta and only it has the role, and the deltas put together are the text and the gathered calls |
| CursorNames.StreamNames | open-sse/executors/cursor.js:553-612 | for any model: each tool delta belongs to its call, and all carry the call's name if and only if every fragment that brings arguments has the name of the first one of its id |
| CursorComposer.OutcomesAgree | open-sse/executors/cursor.js:343-552 | for a composer model and any frames: the same error or none if and only if no thinking had been shown when the first error frame met neither text nor tools |
| CursorComposer.ComposerTexts | open-sse/executors/cursor.js:329-708 | two answers that are no errors, for any frames: when the texts, the finish reasons and the calls agree, exactly, whether the decoders stop together or the event decoder stops earlier; and when that is |
| CursorComposer.ComposerTextsWithoutErrors | open-sse/executors/cursor.js:422-427 | without error frames the texts agree if and only if there was text and nothing shown of the thinking, or no text and exactly what is visible at the end was shown; finish reasons agree, and calls as for other models |
| CursorComposer.ComposerAgrees | open-sse/executors/cursor.js:422-427 | if what is visible only grows, they agree if and only if there was no text or nothing is visible |
| CursorComposer.OneTagAgrees | open-sse/executors/cursor.js:52-58 | that is so when the thinking has at most one end tag |
| CursorComposer.VisibleBehind | open-sse/executors/cursor.js:52-58 | what lies behind the last end tag is visible, without the white space it begins with, whatever comes before |
| CursorComposer.ComposerTextDiffers | open-sse/executors/cursor.js:621-640 | any text makes the decoders differ, before a visible thinking or behind it |
| CursorComposer.ComposerErrorDiffers | open-sse/executors/cursor.js:530-552 | any error behind a visible thinking alone makes the outcomes differ |
| CursorFrames.FramesRoundTrip | open-sse/executors/cursor.js:105-128 | packets laid end to end are read back one by one; an incomplete one at the end is ignored |
| CursorFrames.TransformProtobufToJSON | open-sse/executors/cursor.js:329-480 | the JSON loop computes the specified answer |
| CursorFrames.TransformProtobufToSSE | open-sse/executors/cursor.js:482-708 | the event loop computes the specified stream, and its finalising loop has nothing to do |
| Qoder.CutsDoNotMatter | open-sse/executors/qoder.js:278-306 | however the text is cut, what is sent by the end is what its lines give in order |
| Qoder.TimeOnlyInErrors | open-sse/executors/qoder.js:256-270 | however the text is cut and whenever an error is reported, the payloads are the same or report the same error |
| Qoder.Completed | open-sse/executors/qoder.js:240-306 | a stream that does not fail is the forwarded bodies, then an error chunk if there was an error, then the end mark; one that fails has sent the forwarded bodies |
| Qoder.DoneOnce | open-sse/executors/qoder.js:240-306 | the end mark comes last, and only once if and only if no forwarded body becomes the mark by sanitizing |
| Qoder.LineFeedGoes | open-sse/executors/qoder.js:274-275 | the end mark with a line feed behind it becomes the end mark |
| Qoder.OneLineEach | open-sse/executors/qoder.js:270-275 | in any stream, failed or not, no payload contains a line feed; one contains a carriage return exactly when a forwarded body has one without a line feed behind |
| Qoder.CrStays | open-sse/executors/qoder.js:274-274 | sanitizing leaves a carriage return exactly when none of its line feeds follows it |
| Qoder.WireRoundTrip | open-sse/executors/qoder.js:275-275 | a client that cuts the wire text at line feeds reads exactly the payloads |
| QoderReading.PayloadMeans | open-sse/executors/qoder.js:240-276 | what comes of a line with a payload, white space around it or not: end mark, error, forwarded or skipped body, or failure |
| QoderReading.OtherLines | open-sse/executors/qoder.js:240-242 | lines without the prefix may be dropped from any stream |
| QoderReading.BodiesForwarded | open-sse/executors/qoder.js:236-306 | payloads with status 200 and a body, each on its line, with a blank behind the colon or not and with carriage returns or not: the client gets the bodies, sanitized, in order, and the end mark |
| QoderReading.WireForwarded | open-sse/executors/qoder.js:236-306 | the same for the wire format that the gateway itself writes |
| QoderReading.ErrorEnds | open-sse/executors/qoder.js:256-262 | another status behind such payloads is reported with at most 200 characters of its body, then comes the end mark, and all that follows is ignored |
| QoderReading.SanitizeJoins | open-sse/executors/qoder.js:274-274 | sanitizing joins the lines of a body, each without the carriage return at its end |
| Qoder.Unwrapper.ProcessLine | open-sse/executors/qoder.js:240-276 | one line gives the specified output and state |
| Qoder.Unwrapper.TransformPiece | open-sse/executors/qoder.js:279-287 | one piece of text gives the specified buffer, state and output |
| Qoder.Unwrapper.FlushRest | open-sse/executors/qoder.js:288-305 | the flush handles an unterminated line and sends a missing end mark |
| Retry.FetchBound | open-sse/executors/base.js:129-182 | with F URLs and at most M attempts in the table: at most F * (1 + M) fetches, 1 + M per URL, in URL order, and the throw behind the loop is unreachable |
| Retry.FetchBoundReached | open-sse/executors/base.js:110-182 | the bound is attained when every fetch is rate limited |
| Retry.LoopEnd | open-sse/executors/base.js:154-177 | what is returned or thrown is the last fetch's; a rate limit is returned, and an error other than an abort thrown, only from the last URL |
| Retry.EachFetch | open-sse/executors/base.js:110-177 | after every fetch of every execution, what comes next from its outcome and the number of earlier fetches of the same URL: the same URL as long as the table allows a retry for the status, for 502 after a network error or a throw of the hook, and no veto; the next URL after a rate limit or an error; and otherwise the response or the error is the end |
| Retry.DefaultTries | open-sse/config/runtimeConfig.js:119-137 | without an entry of the provider's own, 503 is retried three times, 504 twice, anything else not |
| Retry.DefaultMost | open-sse/config/runtimeConfig.js:119-125 | with the default table M is 3 |
| Retry.ExecuteRequest | open-sse/executors/base.js:99-182 | the loop that takes its index back computes the specified trace and ends |
| Retry.AfterFetch | open-sse/executors/base.js:110-177 | retry, next URL, return or throw after one fetch, as specified |
| Retry.RoundsCount | open-sse/executors/codex.js:219-253 | at most attempts + 1 executions, and an overloaded answer only when all are used up |
| Retry.RoundsGoOn | open-sse/executors/codex.js:219-253 | every execution but the last was answered with the overload error, and each starts where the one before it ended |
| Retry.CodexBound | open-sse/executors/codex.js:219-253 | at most (A + 1) * F * (1 + M) fetches in all |
| Retry.ExecuteCodex | open-sse/executors/codex.js:219-253 | the outer loop computes the specified executions |
| StreamReplay.PeekFinds | open-sse/executors/codex.js:266-274 | an overload error is found exactly when the text within the peek's length contains one of the patterns, however it is cut into chunks |
| StreamReplay.PeekSseOverloaded | open-sse/executors/codex.js:259-279 | reads exactly the peeked chunks and says what they contain |
| StreamReplay.Replay | open-sse/executors/codex.js:281-300 | sends the chunks already read and then the rest, with the same end |
| StreamReplay.PeekAndReplay | open-sse/executors/codex.js:259-300 | the client gets every chunk once, in order, and the same end |
| StreamReplay.AwaitFirstChunk | open-sse/services/combo.js:170-205 | in time, the response is put together again without loss; too late, it is given up |
| Rtk.Conservation | open-sse/rtk/index.js:8-118 | when there are statistics; they are the total lengths of the eligible texts before and after, their difference is what the hits saved and not negative; nothing but eligible texts changes |
| Rtk.OnlyTextsChange | open-sse/rtk/index.js:25-88 | the eligible texts are replaced one by one and everything else, error-flagged results included, is unchanged |
| Rtk.Accounts | open-sse/rtk/index.js:120-146 | one hit, saving something, for each text that became shorter, and the sums over them |
| Rtk.NeverWorse | open-sse/rtk/index.js:120-146 | no text grows, no text becomes empty, and one of the same length is unchanged, for any filter |
| RtkShapes.TextBecomes | open-sse/rtk/index.js:120-146 | a text becomes another exactly if it has 500 characters to 10 MiB and the filter detected for it returns that one, which is shorter and not empty |
| RtkShapes.HitsListed | open-sse/rtk/index.js:141-145 | the hits are those of the texts that changed, in order, each with shape, filter and characters saved |
| RtkShapes.BodyBecomes | open-sse/rtk/index.js:8-118 | place by place, what compression leaves of a body: which texts are rewritten, and that all else is as before |
| RtkShapes.NothingElse | open-sse/rtk/index.js:25-110 | two bodies with the same eligible texts and the same rest are the same, so the list of texts leaves out none that is rewritten |
| Rtk.Compression.CompressText | open-sse/rtk/index.js:120-146 | one text and its statistics as specified |
| Rtk.Compression.CompressMessages | open-sse/rtk/index.js:8-88 | the nested loops leave the specified body and return the specified statistics |
| Rtk.Compression.CompressKiro | open-sse/rtk/index.js:91-118 | the same for a Kiro conversation, up to a null tool result, which throws |

## Left out

- Network, OAuth refresh, headers, URL building, user interface, build scripts, configuration tables and prompts.
- JSON, protobuf, gzip, text decoding, regular expressions and checksums are arbitrary functions here; the decoders' texts are strings of characters.
- Upstream fields of an unexpected JSON type, such as a number where a text belongs, except where the source looks for them.
- The error analyzer, the tool-result filters and their detection, the quota pool and the model capabilities are arbitrary inputs.
- `withFailover`, the smart router, the fusion judge and context handoff of `combo.js`: they keep no state of their own.
- `open-sse/services/contextCache.js` and `open-sse/services/compact.js` are deprecated and have no callers.
- Configuration changes while a machine runs: limits and caps are fixed per run.
- Waiting for a slot: nothing ever queues a waiter, which `SlotGuard.Guard.Release` proves; the queue is not modelled.
- Ties between events of the same instant are ordered by the run; the program's microtask order is one of these orders.
- KeyBudget.RateSafetyExactly: speaks of integer limits; fractional ones are not modelled.
- ComboFailover.HandleComboChat: a `retryAfter` that is no date, which makes the wait no number, is not modelled; times are integers.
- ErrorMonitor.Monitor.RecordOAuthError: an entry is a value in the map here; the update of an entry that was evicted while it was created is dropped rather than made to an object nobody can reach.
- KiroStream.CutsNeverShow: speaks of streams in which no tool use is null, and so do `KiroStream.CutsOnlyRename` and the lemmas they rest on.
- Prompt cache counters of the metrics event, which `KiroFinish.FinishSent` therefore does not speak of.
- The `id`, `created` and `model` fields that all chunks of one response share are not modelled.
- ErrorMonitor.CoolingStays: `resetAllAntiBanState` is not an event of its own; it removes what clearing every account removes.
- KiroEvents.Completed: speaks of streams in which no tool use is null; a null one throws and ends the stream without a flush.
- KiroStream.EventStream.TransformChunk: does not say what is in the buffer after a failed call, since the stream is never called again.
- KiroBlocks.BlocksDropped: needs its condition on the cuts, because a split tag does not always show at the end: a closing tag split at the very end loses nothing. `KiroBlocks.RightExactly` needs none.
- Qoder.CutsDoNotMatter: the text decoder's own independence of cuts is taken for granted; what it holds back to the end has no line feed.
- Retry.FetchBound: attempts are integers, and an exception while a URL, a body or headers are built, which leaves the loop, is not modelled; neither are the delays.
- Rtk.Conservation: two places of the body that share one object are not modelled; each place has its own text.
