# Verified model of mobilecoding

mobilecoding carries one AI CLI's event stream to browsers and phones: a runner's lines go through
the session manager, are projected into structured events, are broadcast by a hub with replay, and
arrive over a reconnecting WebSocket in a chat reducer. Beside it run a permission protocol, a relay,
a message table with paged reading, and the installation of a hook into a settings file. This project
models these stages in Dafny and proves what holds of them over all inputs and over whole runs.

`dafny verify dfyconfig.toml` checks everything.

How the model is built:

* Code that changes things step by step is a class or a method with loops, proved against functions
  on values; what the source promises is proved about those functions. `PhaseTracker`, `EventHub`,
  `Registry`, `Server`, `Manager`, `WSClient`, both `MessageStore`s and `SettingsInjector` carry the
  fields of the source.
* Concurrent protocols (hub, permissions, relay, session manager, WebSocket client) are state machines:
  a step is what happens under one lock, one channel operation, or one browser task, and a theorem
  speaks of every sequence of steps. Where a state holds more than the source stores (a log, where it
  was cut, who settled what), the extra parts only record history.
* What a step does is also told without the step, by the lines, operations or actions of the whole run:
  what the events tell (`ProjectedContent`), who gets which envelope (`HubDelivery`), which response counts
  (`Permissions.AcceptedIsTheFirst`), what settles a request (`WsCauses`), what the cards and fields of the
  chat say (`ChatCards`, `ChatHistory`, `MobileHistory`), what is active and put out (`SessionHistory`), who is
  paired (`RelayHistory`), what the table and the settings file hold (`MessageContents`, `HookContents`).
* Frames, settings and rows are decoded values. Random ids are minted from counters; JSON decoding and
  encoding of tool inputs and the regular expressions of the reducer are function parameters.

| file | what it holds |
|---|---|
| `Projection.dfy`, `PhaseTracker.dfy` | reading frames, pairing events: as functions, and as the source runs it |
| `EventScans.dfy`, `ThinkingBrackets.dfy`, `ToolPairing.dfy`, `ToolMatching.dfy`, `ToolMarkers.dfy` | event streams checked by small automata over whole runs |
| `ChunkIndependence.dfy`, `BlockAccumulation.dfy`, `ThinkTags.dfy`, `Text.dfy`, `Json.dfy` | batch, per-event and streamed projection; interleaved blocks; think tags |
| `ProjectedContent.dfy`, `NewIds.dfy` | what the events of a run tell, against what its lines say; minted ids |
| `Hub.dfy`, `HubDelivery.dfy` | broadcast with replay and back-pressure |
| `ChatEvents.dfy`, `ChatReducer.dfy`, `ChatReducerSteps.dfy`, `ExactlyOnceDisplay.dfy`, `Redelivery.dfy`, `DisplayTime.dfy`, `ChatCards.dfy`, `ChatHistory.dfy` | the web reducer |
| `MobileMessages.dfy`, `MobileHistory.dfy` | the phone's message store and grouping |
| `Quoting.dfy`, `SessionControls.dfy` | printed and split arguments; the model flag |
| `Permissions.dfy`, `Relay.dfy`, `RelayHistory.dfy`, `SessionManager.dfy`, `SessionReturns.dfy`, `SessionOutput.dfy`, `SessionHistory.dfy`, `SessionManagerObject.dfy`, `WsClient.dfy`, `WsCauses.dfy`, `WsClientObject.dfy`, `WsOrder.dfy`, `WsPermanence.dfy`, `WsStatus.dfy` | the concurrent protocols |
| `MessagePaging.dfy`, `MessageContents.dfy`, `HookSettings.dfy`, `HookContents.dfy`, `Options.dfy` | the message table, the settings file, a helper |

Claims that look natural but do not hold, with what does hold instead:

* The comment at `internal/ws/hub.go:46` says that old events are skipped when a newcomer's queue is
  full. The code skips the newest: the default queue (128) is smaller than the buffer (200), and the
  model follows the code (`Hub.NewcomerSeesReplayFirst`).
* Not all thinking is bracketed: Codex events bypass the tracker (`ThinkingBrackets.ThinkingIsBracketed`
  has the exact condition).
* A second copy of an event is not always invisible: a delta that continues a card, and says something,
  is appended again (`Redelivery.SecondCopyExactly`), an event without an id is shown again
  (`Redelivery.IdlessCopyExactly`), and a durable event is seen again once it has left the display
  (`Redelivery.DurableExactly`): after 500 new messages, at a reload if it is not among the last 200, at a
  session reset (`DisplayTime.OnDisplayExactly`, `DisplayTime.SeenAgainExactly`).
* On the phone a text cut into deltas does not always read as the whole text: a delta without a text, as
  every thinking delta is, appends the word "undefined" to its card (`MobileMessages.SplittingIsInvisible`,
  `MobileMessages.ThinkingReadsUndefined`). The web reducer guards against it (`web/src/core/state/ChatContext.tsx:260`).
* A successful Start may return no session id, when the runner ends at once
  (`SessionReturns.StartReturnsItsId`).
* A client that has been replaced, or whose session has been registered anew, goes on forwarding to the
  agent there is (`Relay.ForwarderIsAttachedExactly`).
* Tool ends do not always have a start, nor its tool name: a result that comes while no call is open ends
  an id of its own, and one that comes after the next call has started ends that call
  (`ToolMatching.ToolsMatchOneToOne`, `ToolMatching.ObeyedExactly`).
* A response that was accepted need not be the answer (`Permissions.LateResponseIsNotTheAnswer`).
* A truncated backward page lacks its newest row, because the store reverses before the endpoint cuts
  (`MessagePaging.CutPageLosesNewest`). Forward pages are not affected: `MessagePaging.SyncReadsAll` is about
  the endpoint and a reader that goes on until there is no more. The web client reads one page of 200
  (`web/src/core/state/ChatContext.tsx:557`) and does not look at `hasMore`.
* Requests may be sent out of order when a status listener issues one (`WsOrder.WireFollowsIssueOrder`),
  and the status "connected" may be false (`WsStatus.ConnectedIsTruthful`).
* An uninstall discards settings edited since the first install (`HookSettings.EditsAreLost`), and leaves
  the hook in if the first backup could not be written (`HookSettings.LostBackupKeepsTheHook`).
* Quoting loses empty arguments, and the double quotes of an argument with both kinds (`Quoting.RoundTrip`).

## Model

| member | source | states |
|---|---|---|
| ThinkTags.Strip | internal/projection/raw.go:647-668 | the loop terminates; the thinking is the removed sections joined and trimmed, the text the trimmed residue |
| ThinkTags.StripConserves | internal/projection/raw.go:647-668 | no character is lost or invented: input = residue + sections + one `<think></think>` pair per removal, as multisets and in length (15 per pair) |
| ThinkTags.ResidueIsFinal | internal/projection/raw.go:651-660 | what is left has no removable section, even when a removal has joined fragments into a new tag |
| ThinkTags.StripIsIdempotent | internal/projection/raw.go:647-668 | stripping a stripped text finds no thinking and returns the same text |
| ThinkTags.StripTakesApart | internal/projection/raw.go:647-668 | as long as the first tags of a text enclose a section, it is the next one, and what stands before and after it stays, in this order: so every text falls apart, also when a removal joins fragments into a new tag |
| ProjectedContent.EventsTellWhatLinesSay | internal/projection/raw.go:271-564 | over any calls and any lines the events tell exactly what the lines say, once and in order: texts as text and thoughts as thinking in their block, from the blocks of the frame and its think tags; calls with the input of their fragments; results under the name of the block they quote; notes, questions, ends of turn; and nothing else |
| ProjectedContent.StreamTellsWhatLinesSay | internal/projection/raw.go:205-229 | `Stream` tells the same, without what only a Codex reading has to say |
| ProjectedContent.SentInputArrives | internal/projection/raw.go:481-556 | whatever is interleaved, the input of a call is what its fragments decode to; a printed value comes back if decoding undoes printing, nothing is the empty object, and what cannot be decoded is kept as a string |
| NewIds.IdsAreNew | internal/projection/raw.go:121-137 | over any calls, no tool call and no question without an id gets an id that anything before it has had |
| ChunkIndependence.ChunkingIsInvisible | internal/projection/raw.go:40-87 | any split of any lines into one or more calls sharing a tracker gives, thinking markers erased, the events of one call on all lines, and exactly its final tracker |
| ChunkIndependence.PerEventIsBatch | cmd/server/main.go:478-481 | the server, which projects one event at a time with a shared tracker, emits what a batch would, up to thinking markers |
| ChunkIndependence.StreamIsProject | internal/projection/raw.go:205-246 | `Stream` is one `Project` call on a new tracker over the lines that need no Codex reading (all lines of Codex-free input), plus the end of a tool that is still open |
| ChunkIndependence.RefusedExactly | internal/projection/raw.go:271-372 | which frames the Claude reading refuses depends on the frame alone, and a refused frame leaves the tracker alone |
| ChunkIndependence.FeedSame | internal/projection/raw.go:60-80 | two trackers that differ only in the thinking flag produce the same events up to markers, and stay so |
| ChunkIndependence.EmitSame | internal/projection/raw.go:99-171 | the same for the pairing of one event |
| ThinkingBrackets.MarkersAlternate | internal/projection/raw.go:82-86 | over any number of calls and any lines, start and end markers strictly alternate, and every call ends with the bracket closed |
| ThinkingBrackets.ThinkingIsBracketed | internal/projection/raw.go:99-120 | every delta with thinking lies inside a bracket and every plain text delta outside, if and only if no Codex reasoning item arrives while the bracket is closed |
| ThinkingBrackets.ReasoningAloneIsUnbracketed | internal/projection/raw.go:68-71 | such an item exists: one Codex reasoning line alone is emitted with no bracket around it |
| ToolPairing.CallsKeepPairing | internal/projection/raw.go:117-168 | over any calls and any lines: a start uses a new id; an end closes the latest call, still open, or, with none open, a new id |
| ToolPairing.ToolIdsArePaired | internal/projection/raw.go:117-168 | no tool id is started twice or ended twice, and each end is for the latest call or for an id no call ever uses |
| ToolPairing.DisciplineUsesOnce | internal/projection/raw.go:117-152 | what that discipline means for single ids: used once, started before ended |
| ToolPairing.AllEndedWithoutOverlap | internal/projection/raw.go:117-168 | when nothing is left open, every start has its end exactly if no call starts before the one before it has ended |
| ToolPairing.DisciplineEndsAll | internal/projection/raw.go:117-168 | the same for any event stream that keeps the discipline |
| ToolMatching.ToolsMatchOneToOne | internal/projection/raw.go:117-168 | over any calls, starts and ends match one to one by id if and only if no line announces a call while one is open, results come one at a time and only while a call is open, and none is open at the end |
| ToolMatching.ObeyedExactly | internal/projection/raw.go:117-152 | each half on its own condition on the lines: no overlap; every end has its start, if and only if no result comes while no call is open; an end has the tool name of its start, if and only if the result that closes a call names no tool or that call's; an end is a shell command's exactly if its start is, on the same for shell commands |
| ToolMatching.OneToOneParts | internal/projection/raw.go:117-168 | one to one is: every start has an end and every end a start |
| ToolMatching.CommandsMatch | internal/projection/raw.go:130-147 | the command markers of starts and ends match if and only if a result that closes a call is a shell command's exactly if the call is one |
| ToolMatching.OwnNamesMatchCommands | internal/projection/raw.go:130-147 | it is enough that each such result names no tool or the call's |
| ToolMatching.LoneResultIsAnOrphan | internal/projection/raw.go:139-150 | a single result on a new tracker leaves nothing open and overlaps nothing, and yet ends an id that no call has |
| ToolMatching.OverlapMixesNames | internal/projection/raw.go:134-152 | the result of a shell command ends the id of a call started meanwhile, under the command's name |
| ToolPairing.TurnEndLeavesNothingOpen | internal/projection/raw.go:153-168 | after a result frame no tool and no thinking is open, whatever came before |
| ToolMarkers.MarkersPrecede | internal/projection/raw.go:130-148 | exactly the starts and ends named Bash have a command marker with their id right before them |
| ToolMarkers.ToolEventsComeInBlocks | internal/projection/raw.go:117-152 | every tool start is followed at once by the use it announces (same id, name, input); a Bash start is preceded by the start of its command, which is its input printed, a Bash end by the end of its command; no marker stands elsewhere |
| BlockAccumulation.FragmentsCollect | internal/projection/raw.go:463-471 | while block i is neither started nor stopped, exactly its own fragments are appended, in arrival order, whatever other blocks do |
| BlockAccumulation.StopAnnouncesTheTool | internal/projection/raw.go:376-505 | at the stop of block i the tool of its latest start is announced once, under a new id, its input parsed from exactly the fragments of block i since that start |
| BlockAccumulation.StopWithoutStartIsSilent | internal/projection/raw.go:489-493 | on any tracker with nothing pending for block i, a new one included, every stop of block i announces nothing and changes nothing until a tool block is started there |
| BlockAccumulation.SecondStopIsSilent | internal/projection/raw.go:489-494 | so a second stop with no start in between announces nothing |
| BlockAccumulation.ResultFindsItsTool | internal/projection/raw.go:499-535 | a result that quotes a stopped block's id carries that block's tool name, however much later it comes, unless the id is given to another block |
| PhaseTracking.ExtractClaudeContent | internal/projection/raw.go:596-632 | the loop over content blocks concatenates texts and thinkings in order |
| PhaseTracking.PhaseTracker.EndThinking | internal/projection/raw.go:82-86 | closes an open bracket, as every closing branch does |
| PhaseTracking.PhaseTracker.EmitToolUse | internal/projection/raw.go:117-133 | the tool_use branch, pairing events first |
| PhaseTracking.PhaseTracker.EmitToolResult | internal/projection/raw.go:134-152 | the tool_result branch: latest open id, else a new one |
| PhaseTracking.PhaseTracker.EndOpenTool | internal/projection/raw.go:159-167 | closes the tool that is still open |
| PhaseTracking.PhaseTracker.EmitLifecycle | internal/projection/raw.go:99-171 | the output grows, and the tracker changes, as the specification of one event says |
| PhaseTracking.PhaseTracker.EmitLifecycleBatch | internal/projection/raw.go:91-96 | the loop over a batch |
| PhaseTracking.PhaseTracker.HandleContentBlockStop | internal/projection/raw.go:481-505 | takes the pending tool out and records its name |
| PhaseTracking.PhaseTracker.HandleUserMessage | internal/projection/raw.go:509-541 | the loop over user blocks: one result event per tool_result, in order, an error when there is none |
| PhaseTracking.PhaseTracker.ParseAssistant | internal/projection/raw.go:279-305 | content extracted, think tags stripped, thinking joined; an empty message is an error |
| PhaseTracking.PhaseTracker.ParseTextDelta | internal/projection/raw.go:434-451 | the three outcomes of stripping a delta |
| PhaseTracking.PhaseTracker.ParseFrame | internal/projection/raw.go:271-476 | one frame: its events or an error, and the tracker after it |
| PhaseTracking.PhaseTracker.ParseCodex | internal/projection/raw.go:684-712 | the events of a Codex message |
| PhaseTracking.PhaseTracker.Take | internal/projection/raw.go:61-80 | one round of the loops of `Project` and `Stream` |
| PhaseTracking.PhaseTracker.ProjectBatch | internal/projection/raw.go:40-87 | `Project` as a loop over a tracker object |
| PhaseTracking.StreamAll | internal/projection/raw.go:205-246 | `Stream` as a loop, closing bracket and tool at the end |
| Hub.WindowAndConservation | internal/ws/hub.go:74-99 | over any run: the replay buffer is the last 200 envelopes broadcast since the last clear, told from the operations, and the subscriber counts summed over all broadcasts equal live deliveries plus `dropCount` |
| Hub.SubscriberSeesTheLog | internal/ws/hub.go:34-92 | what a subscriber has consumed and queued is an in-order, duplicate-free subsequence of the envelopes that were broadcast |
| Hub.NewcomerSeesReplayFirst | internal/ws/hub.go:41-48 | a newcomer first gets the oldest prefix of the replay buffer that fits its queue, then only later broadcasts; it gets the whole buffer exactly if that fits |
| Hub.GaplessExactly | internal/ws/hub.go:34-92 | an open subscriber has the log from the buffer on without a gap exactly if the buffer fitted and its queue was never full at a broadcast |
| Hub.ClosedStaysClosed | internal/ws/hub.go:58-72 | a closed channel stays closed and receives nothing more |
| HubDelivery.OpenExactly | internal/ws/hub.go:34-72 | a channel is open exactly from its subscription until it is taken back |
| HubDelivery.ReceivesAllExactly | internal/ws/hub.go:34-92 | a subscriber that stays gets what its queue took of the buffer and then every later broadcast, if and only if each broadcast finds fewer envelopes waiting, counted from the operations, than the queue holds |
| Hub.EventHub.Subscribe | internal/ws/hub.go:34-56 | the replay loop into a bounded channel |
| Hub.EventHub.Unsubscribe | internal/ws/hub.go:58-72 | closes the channel once; a second call does nothing |
| Hub.EventHub.TrySend | internal/ws/hub.go:83-90 | the non-blocking send: delivered if there is room, else counted as dropped |
| Hub.EventHub.OfferToAll | internal/ws/hub.go:82-91 | the loop over subscribers in any order |
| Hub.EventHub.Broadcast | internal/ws/hub.go:74-92 | buffer window, then one offer to every subscriber |
| Hub.EventHub.Receive | internal/ws/hub.go:39 | the receiving end of a channel |
| Hub.EventHub.ClearReplay | internal/ws/hub.go:95-99 | empties the buffer only |
| Hub.EventHub.SubscriberCount | internal/ws/hub.go:101-105 | the number of open channels |
| Quoting.SplitArgs | internal/config/config.go:11-35 | the byte loop computes the specification of splitting |
| Quoting.QuoteArgs | cmd/server/local.go:95-118 | the loop computes the specification of printing |
| Quoting.RoundTrip | cmd/server/local.go:95-118 | splitting a printed list gives the non-empty arguments in order, each unchanged unless it holds both kinds of quote, which loses exactly its double quotes |
| Quoting.RoundTripIsExact | cmd/server/local.go:95-118 | the list comes back as it was if and only if no argument is empty or holds both kinds of quote |
| Quoting.SecondTripIsExact | internal/config/config.go:11-35 | what survives one trip survives all further trips unchanged |
| Quoting.SpellingsAreRead | internal/config/config.go:11-35 | however arguments are spelled, in bare and quoted pieces with any blanks around them, splitting gives what they mean; empty ones are lost |
| Quoting.OpenQuoteTakesTheRest | internal/config/config.go:11-35 | after a quote that is never closed everything belongs to the last argument |
| ExactlyOnceDisplay.EveryStateIsClean | web/src/core/state/ChatContext.tsx:135-426 | in every state reachable by actions and page reloads: ids of messages other than permission cards are distinct, at most 500 messages are held, no displayed seq exceeds lastSeq |
| ExactlyOnceDisplay.LastSeqIsMonotone | web/src/core/state/ChatContext.tsx:297-301 | lastSeq never goes back except at a session reset, and covers every event taken in |
| ExactlyOnceDisplay.KnownIdsChangeNothing | web/src/core/state/ChatContext.tsx:231-238 | delivering events whose ids are on display, permission cards apart, is the identity |
| ExactlyOnceDisplay.RedeliveryWithinWindow | web/src/core/state/ChatContext.tsx:231-301 | while the window does not overflow, delivering any durable events again, in any order and number, changes nothing |
| ExactlyOnceDisplay.ShownExactlyOnce | web/src/core/state/ChatContext.tsx:231-301 | and, within the window, each delivered durable event is on display exactly once |
| ExactlyOnceDisplay.ReplayedDeltaIsRepeated | web/src/core/state/ChatContext.tsx:253-265 | a delta merged into a card is appended to the text again by a second copy |
| Redelivery.RedeliveryIsInvisible | web/src/core/state/ChatContext.tsx:231-238 | with no bound on the window: a list of durable events changes nothing at any point if and only if the session is stopped or all their ids are on display |
| Redelivery.UnmovedMeans | web/src/core/state/ChatContext.tsx:222-301 | changing nothing at any point is: every prefix of the list leaves the state as it is |
| Redelivery.DurableExactly | web/src/core/state/ChatContext.tsx:226-238 | the same for one event |
| Redelivery.SecondCopyExactly | web/src/core/state/ChatContext.tsx:226-301 | for every event with an id, every delta and every permission question: a second copy right after the first changes nothing, unless it is a delta that says something and continues a card, or has no id |
| Redelivery.DeltaExactly | web/src/core/state/ChatContext.tsx:253-268 | at any time a delta leaves the list alone if and only if it is ignored, or continues the last card and says nothing |
| Redelivery.IdlessCopyExactly | web/src/core/state/ChatContext.tsx:231-289 | an event without an id, no delta and no permission question, is shown again unless the whole window consists of its copies |
| Redelivery.OnDisplayWhileDelivering | web/src/core/state/ChatContext.tsx:287-289 | while nothing but events comes in, a durable message leaves the display exactly when as many messages have been pushed after it as the window holds |
| Redelivery.SeenAgainWhileDelivering | web/src/core/state/ChatContext.tsx:231-289 | then a durable event delivered again is seen again if and only if 500 messages have been pushed since |
| DisplayTime.OnDisplayExactly | web/src/core/state/ChatContext.tsx:51-65 | over any actions and page reloads, a durable message is on display, and where, exactly as its place says: one step back for every new message of event or user until 500 have come, at a reload gone unless among the last 200 and else forward past permission cards, gone at a session reset, untouched by anything else |
| DisplayTime.PlaceCounts | web/src/core/state/ChatContext.tsx:287-289 | with no reload and no reset the place is the count of new messages, those of the user included |
| DisplayTime.SeenAgainExactly | web/src/core/state/ChatContext.tsx:226-289 | a durable event delivered again after anything else has happened changes nothing if and only if its session is stopped by then or its place is not lost |
| DisplayTime.ReloadKeeps | web/src/core/state/ChatContext.tsx:44-65 | in every reachable state a reload shows exactly the last 200 messages without the permission cards |
| DisplayTime.EveryWorldIsStored | web/src/core/state/ChatContext.tsx:44-49 | permission cards apart, what is stored is always the last 200 messages on display |
| ChatReducerSteps.Splice | web/src/core/state/ChatContext.tsx:287-289 | the window keeps the last `max` messages |
| ChatReducerSteps.PlaceMessage | web/src/core/state/ChatContext.tsx:239-285 | where an event goes: appended, merged, or in place of the last card |
| ChatReducerSteps.NotePermission | web/src/core/state/ChatContext.tsx:303-337 | prompt and request id, also from a refused tool result |
| ChatReducerSteps.NoteTurn | web/src/core/state/ChatContext.tsx:339-352 | the end of a turn; the lifecycle branch changes nothing |
| ChatReducerSteps.NoteActivity | web/src/core/state/ChatContext.tsx:358-368 | context window and agent state |
| ChatReducerSteps.NoteFields | web/src/core/state/ChatContext.tsx:291-368 | all fields but the message list |
| ChatReducerSteps.ReceiveEvent | web/src/core/state/ChatContext.tsx:222-370 | the whole EVENT_RECEIVED branch, statement by statement |
| ChatReducerSteps.SendUserMessage | web/src/core/state/ChatContext.tsx:371-384 | the USER_MESSAGE_SENT branch |
| ChatReducerSteps.MarkLatestPermission | web/src/core/state/ChatContext.tsx:387-394 | the backward loop marks the latest permission card and no other |
| ChatReducerSteps.AnswerPermission | web/src/core/state/ChatContext.tsx:385-396 | the PERMISSION_ANSWERED branch |
| ChatCards.ShownLast | web/src/core/state/ChatContext.tsx:239-290 | for every event that is taken in: what the last card then says, and that everything before it stays: a text has its own words, and for thinking its own or else that of the card it completes; words and thinking of a delta come after those of its card; anything else is shown as it is |
| ChatCards.DeltasMakeOneCard | web/src/core/state/ChatContext.tsx:255-270 | the deltas of a turn make one card, under the id of the first: their words one after the other, their thinkings one below the other |
| ChatCards.TurnLeavesTheText | web/src/core/state/ChatContext.tsx:255-284 | a turn of deltas that a complete text ends leaves one card with the words and the id of that text, and its thinking or else all that the deltas have thought |
| ChatCards.AnswerMarksTheLatest | web/src/core/state/ChatContext.tsx:385-396 | an answer marks the last permission card and nothing else |
| ChatHistory.TurnIsFollowed | web/src/core/state/ChatContext.tsx:130-435 | over any run the turn is active from a message or question until it ends; thinking from a message; stopping from the wish to stop; text and tool events end none of them |
| ChatHistory.PromptIsTheLastQuestion | web/src/core/state/ChatContext.tsx:303-338 | the question on screen is the last one taken in, or found in a refused result while there was none, until it is answered or the session left; with it the id to answer under |
| ChatHistory.LastSeqIsGreatest | web/src/core/state/ChatContext.tsx:297-301 | lastSeq is the greatest seq taken in since the session reset, reloads included, so that catching up starts after it |
| ChatHistory.SessionIsKept | web/src/core/state/ChatContext.tsx:143-211 | an event names the session only while there is none and the user is not stopping; a stopped session is remembered until there is another |
| ChatHistory.ListsAreFollowed | web/src/core/state/ChatContext.tsx:397-419 | inputs queue in order, a repetition left out, until flushed; a tool is allowed from its permission until the list is cleared, over reloads, and listed once; the permission for a turn ends with it |
| ChatHistory.ActivityIsFollowed | web/src/core/state/ChatContext.tsx:359-368 | what the agent does, under which tool, and the context usage are what the last markers taken in say |
| ChatHistory.OwnMessageIsLast | web/src/core/state/ChatContext.tsx:371-384 | a message that is sent comes last, as it is |
| ChatHistory.FoundQuestion | web/src/core/state/ChatContext.tsx:316-337 | a question found in a refused result is about the tool that the result names, under its id |
| ChatHistory.WhatIsSetStays | web/src/core/state/ChatContext.tsx:137-142 | status, last error and command are the last that were set, until a reload or what clears them |
| MobileMessages.ReachableIsCanonical | mobile/src/stores/useMessageStore.ts:70-106 | from an empty store no reachable list has adjacent deltas of one block or adjacent permission cards for one tool |
| MobileMessages.SplittingIsInvisible | mobile/src/stores/useMessageStore.ts:72-83 | however a text is split into deltas of one block, the list looks like that of one delta with the whole text, if and only if every piece that falls on a card has a text: all pieces when the last card is of that block, else all but the first |
| MobileMessages.SplitsAgree | mobile/src/stores/useMessageStore.ts:72-83 | two splits of one text, one of them with a text in every piece that falls on a card, look alike exactly if the other one is such, too |
| MobileMessages.ThinkingReadsUndefined | mobile/src/stores/useMessageStore.ts:77 | thinking deltas have no text: the second of a block makes the card read "undefined", the third "undefinedundefined" |
| MobileMessages.GroupMessages | mobile/src/components/terminal/groupMessages.ts:21-49 | the loop returns a well-formed grouping that flattens to its input |
| MobileMessages.FlushAssistant | mobile/src/components/terminal/groupMessages.ts:25-30 | pushes a non-empty assistant group |
| MobileMessages.GroupingIsUnique | mobile/src/components/terminal/groupMessages.ts:21-49 | that grouping is the only one with non-empty, non-adjacent assistant groups of ordinary messages |
| MobileMessages.MessageStore.HandleEvent | mobile/src/stores/useMessageStore.ts:44-107 | one event, all branches; an absent text is appended to a card as the source does it |
| MobileMessages.MessageStore.AddUserMessage | mobile/src/stores/useMessageStore.ts:108-115 | appends the user card |
| MobileMessages.MessageStore.ResetMessages | mobile/src/stores/useMessageStore.ts:121 | back to the empty store |
| MobileHistory.ShownLast | mobile/src/stores/useMessageStore.ts:65-99 | for every event: what the last card then says, and that everything before it stays; events that are not displayed leave the list alone |
| MobileHistory.OwnMessagesAreAdded | mobile/src/stores/useMessageStore.ts:108-121 | the own messages are added as they are; only a reset takes anything away |
| MobileHistory.FieldsAreFollowed | mobile/src/stores/useMessageStore.ts:44-121 | over any run the flags, the greatest seq, the question with the id to answer it under, and the usage are what the operations say |
| MobileHistory.UsageIsRead | mobile/src/stores/useMessageStore.ts:125-160 | the first of five names that is there counts for what is used, the first of five for the total |
| Permissions.ResolvedAtMostOnce | internal/hook/handler.go:98-124 | under any interleaving each id leaves the pending map at most once and at most one `Respond` returns true |
| Permissions.ChannelsAreUsedSafely | internal/hook/handler.go:108-123 | a send always finds room in an open channel; no channel is closed twice |
| Permissions.NoWaiterIsLost | internal/hook/handler.go:213-222 | a handler that still waits when its request has been resolved can go on |
| Permissions.AllowNeedsConsent | internal/hook/handler.go:213-248 | with deny-on-timeout the reply allows only if the first response to the pending request was made and allows |
| Permissions.AcceptedIsTheAnswer | internal/hook/handler.go:213-231 | the answer is the default if a timeout was taken while the handler waited, else the decision of the first response, else the abort; a response that was accepted is the answer exactly if no timeout was taken, or it says what the default says |
| Permissions.AcceptedIsTheFirst | internal/hook/handler.go:98-124 | told from the operations: a response is accepted, with its own decision, if and only if it is the first to come to the request while that is pending, before an abort and before the handler has given up |
| Permissions.AllowedExactly | internal/hook/handler.go:213-255 | the reply allows if and only if the handler timed out and timeouts allow, or it did not and the first response allows |
| Permissions.TimeoutsGiveUp | internal/hook/handler.go:213-231 | the handler has given up exactly if at some point of the run its context ended while it waited |
| Permissions.LateResponseIsNotTheAnswer | internal/hook/handler.go:223-231 | `Respond` can return true although the handler denies: it had chosen its timeout before |
| Permissions.PendingIsRegisteredMinusResolved | internal/hook/handler.go:127-131 | pending = registered minus resolved |
| Permissions.Registry.Register | internal/hook/handler.go:87-94 | a new id with an empty channel |
| Permissions.Registry.Respond | internal/hook/handler.go:98-111 | true exactly for the first resolution of a pending id |
| Permissions.Registry.Abort | internal/hook/handler.go:114-124 | closes without a decision, once |
| Permissions.Registry.Pending | internal/hook/handler.go:127-131 | the number of pending ids |
| Relay.ConnectionsAreCounted | internal/relay/server.go:73-81 | over any interleaving the counters are the numbers of running loops and together within the limit |
| Relay.AttachedToOneSession | internal/relay/server.go:153-162 | each peer is attached to at most one session, on one side |
| Relay.ForwardsToLivePeers | internal/relay/server.go:315-333 | frames go to a peer whose loop runs and serves the same session on the other side |
| Relay.ExitLeavesNoTrace | internal/relay/server.go:339-368 | after a disconnect no session mentions the peer, ever; the disconnect of a replaced client does not detach its successor |
| Relay.ForwarderIsAttachedExactly | internal/relay/server.go:255-333 | a client that has paired forwards, while connected, to the agent then registered for the session; it is the attached client exactly if no registration and no other pairing for the session has taken effect since, and has presented the current secret exactly if the last registration since has the same one |
| Relay.OldClientReachesNewAgent | internal/relay/server.go:153-162 | after another registration under another secret the old client is attached no longer, and forwards to the new agent |
| RelayHistory.SessionIsRegistered | internal/relay/server.go:140-162 | told from the operations: a session is there once it is registered, with the secret, expiry and agent of its last registration and the last client welcomed since, each as long as it is connected |
| RelayHistory.PairsExactly | internal/relay/server.go:234-259 | a pairing takes effect if and only if the session is registered, the secret is that of its last registration, and that has not expired; else the error names the first that fails and nothing changes |
| RelayHistory.AdmitsExactly | internal/relay/server.go:67-104 | a connection is admitted, under a new number, if and only if fewer loops run than the limit |
| RelayHistory.ClientIdsAreApart | internal/relay/server.go:254-257 | no two attached clients have the same client id |
| Relay.Server.HandleAgent | internal/relay/server.go:67-84 | admission under the limit |
| Relay.Server.HandleClient | internal/relay/server.go:87-104 | admission under the limit |
| Relay.Server.Register | internal/relay/server.go:140-162 | a registration makes, or replaces, the session |
| Relay.Server.Pair | internal/relay/server.go:234-259 | the checks in order, then the client is attached |
| Relay.Server.MarkAgentDisconnected | internal/relay/server.go:339-352 | the loop that stops at the first match detaches the agent from every session |
| Relay.Server.MarkClientDisconnected | internal/relay/server.go:355-368 | the same for a client |
| Relay.Server.AgentLoopEnds | internal/relay/server.go:108-114 | counter and detachment together |
| Relay.Server.ClientLoopEnds | internal/relay/server.go:202-208 | counter and detachment together |
| Relay.Server.FindTarget | internal/relay/server.go:315-329 | the lookup of the forward loop |
| SessionManager.ActiveHasSession | internal/session/manager.go:64-277 | in every reachable state an active runner implies a session id |
| SessionManager.OnlyOwnExitClears | internal/session/manager.go:203-227 | the active runner goes if and only if Stop, Restart, its own failing start or its own exit takes effect |
| SessionManager.OtherExitIsHarmless | internal/session/manager.go:211-222 | the exit of any other runner changes neither runner nor session id |
| SessionManager.SupersededForGood | internal/session/manager.go:64-184 | a runner that another one has superseded never becomes active again |
| SessionReturns.StartReturnsItsId | internal/session/manager.go:104-116 | a successful Start returns the id that it minted if and only if the new forwarder has not found the end of the events before the id is read, without the lock; else it returns "" and no error |
| SessionReturns.RestartKeepsSession | internal/session/manager.go:120-184 | a successful Restart of an active session keeps the id for the new runner and returns it, whatever the forwarders do in between |
| SessionOutput.OutputOfOneRunner | internal/session/manager.go:228-239 | the output of one runner is an in-order subsequence of its events, all of them exactly if the channel was never full when offered |
| SessionHistory.StopIsFinal | internal/session/manager.go:255-277 | Stop clears runner and session id, and they stay clear until a Start or Restart; it fails exactly if a runner cannot be closed |
| SessionHistory.StartIsRefused | internal/session/manager.go:64-70 | Start fails while a runner is active and changes nothing |
| SessionHistory.FailedCallsRelease | internal/session/manager.go:104-183 | a call whose runner does not start, or whose old runner cannot be closed, fails and leaves nothing active; Start leaves no session id, Restart keeps it |
| SessionHistory.SessionIdsAreNew | internal/session/manager.go:64-72 | a session id that is gone never comes back |
| SessionHistory.OutputIsOffered | internal/session/manager.go:228-239 | the output, what is taken and what is consumed are what the operations say: each event that a forwarder takes is the next one of its runner, and is put into the output exactly if fewer than 256 wait |
| SessionHistory.CompleteExactly | internal/session/manager.go:228-239 | the output has all that the forwarder of a runner has taken, in order, if and only if each time fewer than 256 events waited |
| SessionHistory.ForwardsExactly | internal/session/manager.go:203-227 | a runner is forwarded from its start until its forwarder has found the end of its events |
| SessionHistory.ExitsExactly | internal/session/manager.go:209-227 | a forwarder finds the end exactly when it runs, the events have ended, and all of them are taken |
| SessionHistory.ForwarderDrains | internal/session/manager.go:203-227 | by then all that the runner will ever have sent is taken |
| SessionManagerObject.Manager.Start | internal/session/manager.go:64-117 | claim, start, release on failure, the id read after the forwarder has been started |
| SessionManagerObject.Manager.Launch | internal/session/manager.go:104-116 | the part after the claim |
| SessionManagerObject.Manager.Restart | internal/session/manager.go:120-184 | with no active runner a Start; else detach, close the old runner, claim, start, with the failures of each; the id returned is a copy |
| SessionManagerObject.Manager.Relaunch | internal/session/manager.go:171-183 | the part after the claim |
| SessionManagerObject.Manager.Stop | internal/session/manager.go:255-277 | clears runner and session id, then closes the runner and returns its error; without a runner there is none |
| SessionManagerObject.Manager.ForwardOne | internal/session/manager.go:228-239 | one event: sent if there is room, else dropped |
| SessionManagerObject.Manager.ForwarderExits | internal/session/manager.go:210-227 | clears only what is its own |
| WsClient.EveryRequestHasOnePlace | web/src/core/ws/ws-client.ts:76-105 | in every reachable state each issued request is queued, pending or settled, and only one of these |
| WsClient.SettledOnceByItsOwn | web/src/core/ws/ws-client.ts:82-105 | no request is settled twice, sent twice, or settled by anything but its own answer, timeout, close, or, unsent, a flush; live timers are exactly those of the pending ids |
| WsCauses.CausesAreEffects | web/src/core/ws/ws-client.ts:87-105 | over any run the settlements are, in order, what the operations cause, each at its point |
| WsCauses.CausedByItsOwn | web/src/core/ws/ws-client.ts:190-205 | an answer, timeout or loss is recorded if and only if that answer, with the same `ok`, that timer, or `close` comes while the envelope is pending |
| WsCauses.ResolvedExactly | web/src/core/ws/ws-client.ts:197-203 | the promise of a request is resolved if and only if an answer that says ok comes for its pending envelope |
| WsCauses.ReconnectsExactly | web/src/core/ws/ws-client.ts:181-225 | after a loss the client reconnects if and only if it was not normal and the user has not closed it: a new timer, then a new own socket |
| WsCauses.ConnectDials | web/src/core/ws/ws-client.ts:55-61 | `connect` dials unless the own socket is open; losses are counted anew then and at every opening |
| WsCauses.CloseLetsGo | web/src/core/ws/ws-client.ts:63-74 | `close` begins to close the own socket and no other, stops the reconnect timer, and leaves nothing pending; the queue stays |
| WsPermanence.SettledForGood | web/src/core/ws/ws-client.ts:190-264 | what is settled or sent stays so, with its cause |
| WsOrder.WireFollowsIssueOrder | web/src/core/ws/ws-client.ts:76-105 | over all connections of a run the wire follows the order of issue if and only if no status listener issues a request while older ones wait for the flush |
| WsOrder.ListenerOvertakes | web/src/core/ws/ws-client.ts:168-172 | such a run exists: the listener of "connected" is called before the flush |
| WsOrder.FlushSends | web/src/core/ws/ws-client.ts:227-237 | a flush sends the queue in its order over an open socket, and nothing otherwise |
| WsClient.ExpireSettles | web/src/core/ws/ws-client.ts:89-92 | a live timer is that of a pending request, and settles it |
| WsPermanence.ClosedStaysQuiet | web/src/core/ws/ws-client.ts:63-74 | after `close`, until `connect`, nothing is sent and no socket is made, whatever timers and old sockets do |
| WsStatus.NeverStuck | web/src/core/ws/ws-client.ts:181-225 | "reconnecting" has a live timer, "connecting" a socket with an event to come |
| WsStatus.ConnectedIsTruthful | web/src/core/ws/ws-client.ts:55-74 | over a whole run, "connected" means an open own socket at every point if and only if no foreign socket opens while the own one is not open, and the closing handshake of the own socket never begins while connected |
| WsStatus.StepIsTruthful | web/src/core/ws/ws-client.ts:168-187 | the same for one step from a true status |
| WsStatus.ClosingMisleads | web/src/core/ws/ws-client.ts:181-187 | the second case: a closing handshake has no callback |
| WsStatus.ConnectedExactly | web/src/core/ws/ws-client.ts:168-172 | the moment a socket opens, "connected" is true of the client's own socket exactly if that is the one that opens or is open already |
| WsStatus.ReplacedSocketMisleads | web/src/core/ws/ws-client.ts:55-74 | it can be false: the client says "connected" after `close` |
| WsClientObject.WSClient.Connect | web/src/core/ws/ws-client.ts:55-61 | no second socket while one is open; otherwise a fresh start |
| WsClientObject.WSClient.DoConnect | web/src/core/ws/ws-client.ts:157-167 | a new socket unless closed |
| WsClientObject.WSClient.Send | web/src/core/ws/ws-client.ts:76-85 | queued or sent |
| WsClientObject.WSClient.DoSend | web/src/core/ws/ws-client.ts:87-105 | a fresh id, its timer, its entry, its envelope |
| WsClientObject.WSClient.FlushQueue | web/src/core/ws/ws-client.ts:227-237 | the loop over the queue taken away |
| WsClientObject.WSClient.OnOpen | web/src/core/ws/ws-client.ts:168-172 | listeners first, then the flush |
| WsClientObject.WSClient.OnResponse | web/src/core/ws/ws-client.ts:190-205 | settles the pending request, ignores an unknown id |
| WsClientObject.WSClient.OnRequestTimer | web/src/core/ws/ws-client.ts:89-92 | rejects its request |
| WsClientObject.WSClient.OnClose | web/src/core/ws/ws-client.ts:181-187 | closed, or a reconnect is scheduled |
| WsClientObject.WSClient.Reconnect | web/src/core/ws/ws-client.ts:218-225 | schedules one more attempt |
| WsClientObject.WSClient.OnReconnectTimer | web/src/core/ws/ws-client.ts:224 | dials again |
| WsClientObject.WSClient.RejectAllPending | web/src/core/ws/ws-client.ts:258-264 | rejects all pending requests, in order of insertion, and stops their timers |
| WsClientObject.WSClient.Close | web/src/core/ws/ws-client.ts:63-74 | timer, socket, status, pending requests; the queue stays |
| MessagePaging.SeqsCountUp | internal/store/message.go:25-46 | whatever is saved and whichever saves are refused, each session's messages are numbered 1, 2, 3, ... in order of saving, and ids stay unique |
| MessagePaging.InsertAllKeepsNumbering | internal/store/message.go:25-46 | on any table with increasing positive numbers, saves never renumber and always number above |
| MessagePaging.SyncReadsAll | internal/store/message.go:50-68 | asking for page after page until hasMore is false terminates and yields exactly the messages above the start, each once, in order, for every limit from 1 to 500 and whatever is saved between pages |
| MessagePaging.BeforeIsGreatest | internal/store/message.go:71-96 | `GetMessagesBefore` returns the limit+1 greatest numbers below the bound, in ascending order |
| MessagePaging.CutPageLosesNewest | internal/gateway/router.go:381-400 | of the rows below the bound the newest is on the page exactly if nothing was cut: a cut backward page loses it |
| MessageContents.TableIsAccepted | internal/store/message.go:13-47 | whatever is saved, the table holds the messages whose id is new, in order, with the session and content they were saved with, numbered within their session |
| MessageContents.RequestsMean | internal/gateway/router.go:356-388 | limits from 1 to 500 are kept and any other means 100; without bounds the request starts after 0; what is refused, exactly |
| MessageContents.AnswersMean | internal/gateway/router.go:349-401 | which error the endpoint answers with, exactly |
| MessagePaging.MessageStore.SaveMessage | internal/store/message.go:13-47 | the number returned is the one stored; a taken id, and a failing transaction, change nothing |
| MessagePaging.MessageStore.GetMessagesAfter | internal/store/message.go:50-68 | the first limit+1 rows above the start, or a store error |
| MessagePaging.MessageStore.GetMessagesBefore | internal/store/message.go:71-96 | the descending rows, reversed in place, or a store error |
| MessagePaging.ScanMessages | internal/store/message.go:98-111 | the scanning loop returns all rows, or the first error |
| MessagePaging.ReverseInPlace | internal/store/message.go:91-94 | the two-pointer loop reverses the array |
| MessagePaging.MessagesHandler | internal/gateway/router.go:349-401 | missing store, parameters, their errors, store errors, truncation and hasMore |
| HookSettings.UpsertTwice | internal/hook/settings.go:182-244 | the last configuration wins; an upsert repeated changes nothing |
| HookSettings.UpsertKeepsOthers | internal/hook/settings.go:182-244 | leaves max(1, before) marked entries, all others in order, other events and settings untouched, and the hook findable |
| HookSettings.PutReplacesFirst | internal/hook/settings.go:216-242 | only the first marked entry is replaced, in place; with none the new entry is appended |
| HookSettings.RemoveTwice | internal/hook/settings.go:247-279 | removal is idempotent |
| HookSettings.NothingFoundAfterRemove | internal/hook/settings.go:247-301 | after a removal no marked entry can be found under any event |
| HookSettings.RemoveUndoesUpsert | internal/hook/settings.go:182-279 | removal after an upsert is removal alone, an absent list read as empty |
| HookSettings.RemoveUndoesUpsertExactly | internal/hook/settings.go:182-279 | literally so if and only if the settings already have the event's list |
| HookSettings.UninstallRestoresTheFirst | internal/hook/settings.go:60-160 | with no earlier backup, the first install that reads the file and writes the backup decides: an uninstall brings back that file as it was read, whatever is installed, removed or edited in between and whichever of that fails |
| HookSettings.EditsAreLost | internal/hook/settings.go:128-142 | an edit made after the first install survives an uninstall only if it is the original |
| HookSettings.UninstallIsRemovalExactly | internal/hook/settings.go:128-160 | an uninstall leaves what plain removal leaves exactly if there is no backup, or it is just that |
| HookSettings.LostBackupKeepsTheHook | internal/hook/settings.go:78-83 | a backup that fails to be written goes unnoticed, the next install backs up the hooked file, and the uninstall leaves the hook in |
| HookSettings.FailureChangesNothing | internal/hook/settings.go:60-160 | an operation that fails leaves the settings as they are |
| HookSettings.InstallsThenUninstall | internal/hook/settings.go:60-160 | any number of installs and one uninstall restore the original settings, of a file that cannot be parsed too |
| HookSettings.WhenInstalled | internal/hook/settings.go:60-178 | whatever fails: the hook is there after an install that is done, gone after a removal that is done, and after an uninstall there exactly if a backup with it was brought back |
| HookContents.InstallWrites | internal/hook/settings.go:60-98 | an install that is done has put the hook as configured (url, token, timeout, variables, mark) in the place of the first of ours or at the end, and changed no other entry, event or setting; and when it is done, exactly |
| HookContents.RemoveKeepsOthers | internal/hook/settings.go:247-279 | a removal keeps exactly the unmarked entries of every list, in order, and every other event and setting |
| HookContents.WhenDone | internal/hook/settings.go:101-160 | when a removal and an uninstall are done, exactly |
| HookSettings.HasMarker | internal/hook/settings.go:223-234 | the inner loop finds a mark exactly if there is one |
| HookSettings.PutEntry | internal/hook/settings.go:217-241 | the first marked entry is replaced, else the entry is appended |
| HookSettings.UpsertHook | internal/hook/settings.go:182-244 | nested lookups, the loop, the write back |
| HookSettings.FilterMarked | internal/hook/settings.go:257-276 | keeps the unmarked entries in order |
| HookSettings.RemoveHook | internal/hook/settings.go:247-279 | filters every event's list, in any order of events |
| HookSettings.FindHookByMarker | internal/hook/settings.go:283-301 | an index it returns is marked; -1 means there is none |
| HookSettings.SettingsInjector.Install | internal/hook/settings.go:60-98 | errors of directory, reading, parsing and writing, the one-time backup, the upsert |
| HookSettings.SettingsInjector.RemoveInstalledHook | internal/hook/settings.go:101-123 | removal without the backup, errors of reading, parsing and writing |
| HookSettings.SettingsInjector.Uninstall | internal/hook/settings.go:128-160 | backup first, removal if there is none or it cannot be read, errors of writing |
| HookSettings.SettingsInjector.IsInstalled | internal/hook/settings.go:163-178 | true exactly if the file can be read and the mark found |
| SessionControls.ModelReadsBack | web/src/features/terminal/sessionControls.ts:11-43 | the model put in is read back, for all arguments and models |
| SessionControls.LastChoiceWins | web/src/features/terminal/sessionControls.ts:30-43 | a second choice leaves no trace of the first |
| SessionControls.SameChoiceIsIdentity | web/src/features/terminal/sessionControls.ts:11-43 | choosing the chosen model again changes nothing exactly if there is no flag, or one flag last but one with a model |
| SessionControls.OtherArgsAreKept | web/src/features/terminal/sessionControls.ts:30-43 | every argument but a flag and the one after it is kept, in its place |
| SessionControls.IndexOfFlag | web/src/features/terminal/sessionControls.ts:12 | the scan for the first flag, -1 if there is none |
| SessionControls.ModelFromArgs | web/src/features/terminal/sessionControls.ts:11-14 | the first flag's value |
| SessionControls.ArgsWithModel | web/src/features/terminal/sessionControls.ts:30-43 | the skipping loop |
| SessionControls.ExtractModelFromArgs | internal/session/manager.go:192-199 | the manager's loop reads the same model as the client |

## Left out

- JSON text, and what is read off it before a frame is decoded: types of fields, defaults, `extractControlRequestInfo`, the normalisation of Codex messages, `extractContextTokens`.
- Session ids, timestamps and the random message ids of ordinary projected events; the `is_error` flag of a result frame, which the source reads and does not use. Frames of type `assistant` and `assistant_message` are read alike and are one kind here.
- `parseClaudeEvent` and the parsing branches for a missing tracker (`pt == nil`), kept in the source for old callers only.
- `os.ExpandEnv`, which the server applies between printing and splitting arguments (`cmd/server/main.go:168`); the round trip is about the printed string.
- The callbacks of the hub on connect and disconnect, and log lines everywhere.
- Relay: JSON frames, the error frames written to a peer, what a write to a dead connection does, TLS; a generated session id is an argument of the step.
- Session manager: the metadata store (a failed start leaves a record behind, so no such consistency holds), `Write`, `Abort` and `SendToStdin`. API calls are serial, as `Restart` gives up the lock between its two halves; forwarders interleave with their steps.
- Permission handler: the checks before `Register`, the event that is broadcast, `summarizeToolInput` and `cwdAllowed`.
- WebSocket client: the lengths of the reconnect delays and of the request timeout, parsing of messages, event listeners, and listeners that call `connect` or `close` from inside a callback.
- Chat reducer: failing `localStorage`, timestamps, rendering, effects, and the flush of pending inputs.
- Message table: SQL, deletion by age; the table is read as the list of its rows in order of insertion, and whether the database fails is a parameter.
- Settings: the formatting of JSON, and what a write that fails halfway leaves in the file; which calls fail is a parameter. Maps changed in place are returned as new values.
- `settingsFromArgs` and the session guards of `sessionControls.ts`, the phone's WebSocket client, authentication, cleanup, files and certificates: small branches, or near copies of what is modelled.
