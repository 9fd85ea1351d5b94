# What rysh keeps true

Six parts of rysh, modelled in Dafny and proved:

- **Peer coordination** (`PeerState`, `PeerStep`, `PeerInvariant`, `PeerSafety`, `PeerRuns`, `PeerLaws`,
  `PeerBoardLaws`, `PeerHistory`, `PeerStore`, `PeerEngine`, `PeerService`). A board of peers, agents, leader terms,
  tasks, attempts and leases is changed by one request at a time. `PeerStep` says what each request does to the board
  as a value; `PeerEngine` is the reducer that mutates a deep copy in place, where every record, list, map and stamp is
  an object, proved to do just that. `PeerLaws` and `PeerBoardLaws` say of each request when it is accepted and every
  record it leaves; `PeerSafety`, `PeerRuns` and `PeerHistory` what holds of every reachable board and over whole runs.
- **Conversation translation and healing** (`Transcript`, `ToolPairing`, `PairingLaws`, `TurnConversion`,
  `ConversionLaws`, `ClaudeWire`, `NativeClaudeWire`, `OpenAiWire`, `WireReading`). Transcripts of two shapes, the
  healers that make a damaged one acceptable, and the request builders of three wire dialects, each in two versions
  that are proved equal and whose requests are read back.
- **Run loop, session window and budget** (`SessionWindow`, `Compaction`, `RunLoop`, `RunLaws`, `RunBudget`,
  `BudgetLaws`, `PromptActor`, `PromptLaws`). The loop of model calls and tool rounds, the transcript it hands back
  however it stops, and the actor that resumes it leg by leg until a budget ends.
- **Reversible secret translation** (`TokenFormat`, `TokenOrder`, `TokenTable`, `Detection`, `Replacing`,
  `TokenCells`, `PlainTokens`, `TokenParse`, `SecretTranslation`, `SanitizeLaws`, `SanitizeTwice`, `PatternDetectors`,
  `MixedWords`, `KnownSecrets`, `TwoTiers`, `StreamRestore`, `StreamTiers`). Registered secrets are replaced by
  references and detected ones by tokens, and back, in whole texts and in streams.
- **Reply multiplexer** (`ReplyMux`). One inbox for all requests, as atomic steps of concurrent callers.
- **Connect envelopes** (`ConnectCodec`). The framing of a message stream and its reader, byte by byte.

`Basics`, `Sequences` and `Decimal` hold what several of them share. `dafny verify dfyconfig.toml` checks the whole
project.

Loops over Go maps take their keys in an order the model leaves open. Strings are sequences of bytes, one per
character. What comes from outside - clocks, random ids, the model's answers, the results of tools, detectors,
titles - is a parameter, and the results hold for every choice of it.

Where the code and its documentation disagree the model follows the code:

- `provider/turns.go:21-36` describes promotion of text (C1) for user and assistant turns with empty content; the code
  promotes for every role but tool, and only when there are no tool calls either. An image block's own text is dropped.
- `secretnat/stream.go:7-11` promises that a token never straddles what is emitted. A token that ends as a token
  begins can, and the built-in private key token does (`StreamRestore.PemTokenIsLost`). `StreamRestore.StreamsAreCutIff`
  gives the exact condition.
- `secretnat/generator.go:32-35` counts on fixed-width numbers. Private mode has three digits, so its thousandth token
  extends its hundredth (`SecretTranslation.WidePrivateTokensCollide`).
- `secretnat/sanitize.go:104-106` calls sanitizing idempotent. It is not for every detector a configuration may name:
  one of six digits replaces the digits of its own token (`SanitizeTwice.DigitsAreReplacedTwice`). Text and table both
  stay exactly when a second pass finds nothing but whole tokens and references (`SanitizeTwice.SecondPassIdleIff`);
  the text alone may stay when a value is replaced by itself (`SanitizeTwice.ReplacedByItself`), which no pattern
  detector can bring about (`PatternDetectors.SecondPassTextIff`). Detectors of words suffice, of one kind
  (`SanitizeTwice.WholeWordsAreIdempotent`) or of several (`MixedWords.MixedFindersAreIdempotent`).
- `secretnat/sanitize.go:14-17` has references restored as the secret store expands them. A registered name that is no
  identifier is replaced all the same and never restored (`KnownSecrets.OddNameIsLost`, `KnownSecrets.ReadsBackIff`).
- `agentic/session_memory.go:232-237` promises a transcript the API accepts. A call with a blank id is answered again
  each time, behind whatever follows (`SessionWindow.ClosingCanBreak`); `SessionWindow.CloseKeepsPairedIff` is exact.
- `agentic/orchestrator.go:58-67` says the brief survives any number of compactions. It does unless it holds the header
  of a summary (`Compaction.BriefSurvives`, `Compaction.BriefIsCut`, `Compaction.HeaderTaskIsLost`).
- `agentic/llm_prompt_execution_actor.go:697-704` means to keep each leg within the overall deadline. A leg that starts
  after the deadline has no time cap (`RunBudget.ResumedLegsAreFunded`, `RunBudget.LateLegIsUncapped`).
- `msg/publisher.go:120-124` never uses a token twice, up to the width of its counter (`ReplyMux.TokensRepeatIff`).

## Model

| member | source | states |
|---|---|---|
| `ToolPairing.HealToolPairing` | provider/toolpairing.go:37-83 | the nested loops compute the group-by-group healing: each caller keeps the first result per wanted id and gets an invented one for every call left unanswered, strays are dropped |
| `ToolPairing.ValidateToolPairing` | provider/toolpairing.go:88-115 | the report lists, in order, every unanswered call and every tool turn that no caller owns |
| `ToolPairing.AcceptedIffPaired` | provider/toolpairing.go:88-115 | the report is empty exactly for transcripts in which each caller's run answers all its calls and no tool turn stands elsewhere |
| `PairingLaws.ReportsByStretches` | provider/toolpairing.go:88-115 | the report outright, stretch by stretch: of a caller the calls that no result behind it answers, of results behind any other turn or none every one, each in order and under its own kind |
| `ToolPairing.HealedIsAccepted` | provider/toolpairing.go:37-83 | whatever the transcript, the healed one draws no violation |
| `ToolPairing.HealKeepsNonTool` | provider/toolpairing.go:37-83 | healing keeps every turn that is not a tool turn, unchanged and in order |
| `ToolPairing.HealInventsOnlyMarkedErrors` | provider/toolpairing.go:37-83 | every turn of the healed transcript was in the input or is an error result with the healing note, for a call of the input |
| `ToolPairing.HealFixesNothingIffExact` | provider/toolpairing.go:37-83 | healing returns its input exactly when each caller's run holds one result per call and nothing else |
| `ToolPairing.HealIdempotentIff` | provider/toolpairing.go:37-83 | healing twice equals healing once exactly when no caller repeats an id it leaves unanswered |
| `ToolPairing.DistinctIdsSuffice` | provider/toolpairing.go:37-83 | distinct ids within each assistant turn are enough for that |
| `ToolPairing.RepeatedIdBreaksIdempotence` | provider/toolpairing.go:66-76 | a transcript with one id called twice and answered by none, on which the second healing differs from the first |
| `ToolPairing.OneResultPerCall` | provider/toolpairing.go:44-76 | with distinct call ids the healed run has exactly one result per call |
| `PairingLaws.HealsByStretches` | provider/toolpairing.go:37-83 | healing outright, for every transcript: two stretches heal apart where the second begins with no result; a caller is followed by the first result for each of its calls in the order they came, then by an error with the healing note for each call that none answers in the order of the calls; results behind any other turn, or behind none, go |
| `ToolPairing.HealConversationHead` | provider/agentic_provider.go:804-814 | the scan drops the turns before the first user turn, and nothing when there is no user turn |
| `ToolPairing.HealHeadStartsWithUser` | provider/agentic_provider.go:804-814 | the healed head is a user turn exactly when the transcript has one |
| `ClaudeWire.BuildMessages` | provider/agentic_provider.go:817-943 | the index loop emits what the healed transcript means message by message: one message per user and assistant turn, one message for each run of results, attachments of a run behind it |
| `ClaudeWire.HealedEmissionAdjacent` | provider/agentic_provider.go:844-943 | in the messages of a healed transcript each assistant message with tool calls is followed by one user message made only of results that answer all its calls and nothing else, once each if the calls have distinct ids; results stand nowhere else |
| `ClaudeWire.RequestIsWellFormed` | provider/agentic_provider.go:817-943 | for every transcript, however damaged, the request obeys that rule and begins with a user message whenever there is a user turn |
| `WireReading.RequestSaysAll` | provider/agentic_provider.go:817-943 | reading the request back gives, with its speaker and in order, every text, image, thought, call and result of the healed conversation |
| `WireReading.SaidInOrder` | provider/agentic_provider.go:844-943 | attachments of results aside, what is read is what each turn says for itself, one after another; and the attachments are all there, in order |
| `NativeClaudeWire.HealUnitsHead` | provider/claude_chat_native.go:107-116 | the head healing of the block pipeline, as a scan over flattened units |
| `NativeClaudeWire.HealUnitsToolPairing` | provider/claude_chat_native.go:122-168 | the pairing healing of the block pipeline, as nested loops over units |
| `NativeClaudeWire.BuildTurnMessages` | provider/claude_chat_native.go:97-102 | the block pipeline emits flatten, heal the head, heal the pairing, print, in that order |
| `NativeClaudeWire.HealCommutes` | provider/claude_chat_native.go:122-168 | healing the pairing of projected turns is projecting the healed turns |
| `NativeClaudeWire.HeadCommutes` | provider/claude_chat_native.go:107-116 | the same for the head |
| `NativeClaudeWire.EmitCommutes` | provider/claude_chat_native.go:174-275 | printing projected turns is printing the turns |
| `NativeClaudeWire.NativeEqualsShim` | provider/claude_chat_native.go:93-102 | for every list of neutral turns the block pipeline emits the very messages the shim pipeline emits after conversion |
| `NativeClaudeWire.NativeRequestIsWellFormed` | provider/claude_chat_native.go:97-275 | so the block pipeline's requests obey the adjacency rule too |
| `WireReading.NativeRequestSaysAll` | provider/claude_chat_native.go:97-275 | the block pipeline's request reads back as the healed conversation too |
| `TurnConversion.FlattenTurn` | provider/chat_native.go:61-121 | the loop over a turn's blocks with its carrier and its text promotion, result by result |
| `TurnConversion.FlattenAgrees` | provider/chat_native.go:41-121 | flattening neutral turns is converting them to shim turns and projecting those |
| `TurnConversion.TurnFromConversation` | provider/turns.go:152-189 | one shim turn becomes one neutral turn: thinking, content, calls, result and attachments as blocks, in that order |
| `TurnConversion.ConversationTurnsFromTurn` | provider/turns.go:226-321 | the loop that turns blocks back into shim turns, with a turn per result and a carrier for what follows |
| `ConversionLaws.FansOut` | provider/turns.go:226-321 | for any blocks in any order: the blocks fall into stretches, one per turn, each result but a tool turn's first beginning one; each turn holds just its stretch's thoughts, calls, images and texts in order, its result with id, content and error flag, and as content the text that opens it |
| `TurnConversion.RoundTrip` | provider/turns.go:152-321 | there and back, one shim turn gives exactly one turn: its canonical form, with content promoted from a first attachment only when content and calls are empty, unknown blocks as text, and the uncarried fields dropped |
| `TurnConversion.RoundTripAll` | provider/turns.go:135-222 | and a conversation gives the canonical form of each of its turns, in order |
| `TurnConversion.SecondRoundTripKeepsIff` | provider/turns.go:21-36 | a second round trip changes nothing more, except exactly when the first promoted a blank text in front of a text block |
| `OpenAiWire.BuildRequest` | provider/openai_provider.go:163-204 | the Chat Completions request of a shim conversation |
| `OpenAiWire.BuildTurnRequest` | provider/openai_chat_native.go:90-110 | the same request built from neutral turns |
| `OpenAiWire.NativeChatEqualsShim` | provider/openai_chat_native.go:90-131 | for every list of neutral turns the two Chat Completions requests are equal |
| `WireReading.ChatSaysAll` | provider/openai_provider.go:163-204 | the request holds the system prompt if there is one, then a message per turn with its role, content, answered call and calls, and the output cap in exactly the field the endpoint reads |
| `WireReading.NativeChatSaysAll` | provider/openai_chat_native.go:90-131 | so does the request built from neutral turns |
| `OpenAiWire.BuildResponsesRequest` | provider/openai_responses.go:145-162 | the Responses request of a shim conversation |
| `OpenAiWire.BuildTurnResponsesRequest` | provider/openai_responses.go:171-188 | the same request built from neutral turns |
| `OpenAiWire.NativeResponsesEqualsShim` | provider/openai_responses.go:164-260 | for every list of neutral turns the two Responses requests are equal |
| `WireReading.ResponsesSayAll` | provider/openai_responses.go:145-230 | reading the items back gives every text, call and result of the conversation in order, under the instructions and the cap |
| `WireReading.NativeResponsesSayAll` | provider/openai_responses.go:171-260 | so does the request built from neutral turns |
| `PeerState.LabelsDistinct` | peercoord/types.go:236-246 | one reference never matches the labels of two task numbers |
| `PeerLaws.AcceptedIsAuthentic` | peercoord/engine.go:42-120 | every accepted request but the founding ones comes from a writing member of the workspace, speaks the version, and presents its peer's own token, user and incarnation on an enabled board, from a peer not revoked |
| `PeerLaws.Unadmitted` | peercoord/engine.go:42-98 | the code a request is refused with before its operation is looked at: version, invalid, forbidden, not found, forbidden, stale, in this order |
| `PeerLaws.TaskOperation` | peercoord/engine.go:464-678 | each of the twelve task operations is accepted exactly from an admitted peer that is entitled to it (worker, current leader in its term, operator or holder of the execution's token), in time and from a state the table allows; and then the task's new state, its attempt, its token, the event and all else of the board are what the table says: a review completes on approval and fails otherwise |
| `PeerLaws.AgentNamed` | peercoord/types.go:218-234 | a reference resolves to an agent exactly if it is its id, or no id and the only display name like it; otherwise it is unknown or ambiguous |
| `PeerLaws.TaskNamed` | peercoord/types.go:236-246 | a reference resolves to a task exactly if it is its id, or no id and its label in either case |
| `PeerLaws.RefusedExecution` | peercoord/engine.go:464-477 | the code a holder's request is refused with: forbidden without the execution's token, stale from another incarnation, conflict once the task is over |
| `PeerLaws.RefusedClaim` | peercoord/engine.go:489-529 | the code an admitted claim is refused with, in the order of its checks |
| `PeerLaws.RefusedLeader` | peercoord/engine.go:99-120 | a leader's request from another peer's agent is forbidden, from a former leader stale, and a review of another version or state conflicts |
| `PeerLaws.IdsAre` | peercoord/engine.go:24-27 | the exact form of an id: dashes at four places and nowhere else, hexadecimal digits between them, not all zero |
| `PeerLaws.FormsAre` | peercoord/engine.go:22-37 | the exact forms of names, labels and texts |
| `PeerBoardLaws.Heartbeats` | peercoord/engine.go:251-275 | accepted from every admitted peer; it renews the peer's lease, the leader's if it is the peer's own, ready and in its term, and exactly the unlapsed leases of the executions it reports running, and changes nothing else |
| `PeerBoardLaws.Leaving` | peercoord/engine.go:276-295 | accepted exactly when nothing is under way on the peer; its token goes, its agents are not ready, a leader among them has no lease any more |
| `PeerBoardLaws.Handovers` | peercoord/engine.go:296-311 | accepted exactly from an operator or the current leader, to a leader on a peer that has not left; a new term begins and all that waits is offered again under it |
| `PeerBoardLaws.Acquisitions` | peercoord/engine.go:337-361 | accepted exactly from the first standby that can stand in, where failover is on and the leader's lease has run out |
| `PeerBoardLaws.StandbyLists` | peercoord/engine.go:312-336 | accepted exactly from an operator naming at most ten agents of the leading role; the list holds each once, in the order first named |
| `PeerBoardLaws.Pauses` | peercoord/engine.go:362-368 | accepted exactly from an operator; the pause is set as asked and nothing else changes |
| `PeerBoardLaws.Messages` | peercoord/engine.go:369-404 | exactly when a message or an objective is accepted, the latter for the leader alone, and the event it becomes; the board stays as it was |
| `PeerBoardLaws.Assignments` | peercoord/engine.go:413-461 | accepted exactly from the current leader to a worker that offers runner and project, with a proper description, room and known dependencies; one new task is filed with one attempt, and nothing else changes |
| `PeerBoardLaws.Registrations` | peercoord/engine.go:152-175 | accepted exactly for a proper profile with room, or the same offer as the known one of that name; a new endpoint is filed, a known one left as it is |
| `PeerBoardLaws.Joins` | peercoord/engine.go:121-151 | accepted exactly for proper ids and token, with room or the token the session came with; the peer is new with its token, or renewed with its agents not ready |
| `PeerBoardLaws.Founds` | peercoord/engine.go:195-221 | accepted exactly once, from an operator, whose endpoint becomes the first leader |
| `PeerSafety.StepKeepsInv` | peercoord/engine.go:42-678 | every accepted request keeps the board's invariant and undoes nothing that was established |
| `PeerSafety.TaskRequestKeepsInv` | peercoord/engine.go:478-661 | the same for each of the task operations: attempts numbered 1..n with n at most 20, the last mirroring the task, earlier ones ended and not completed, secrets only for claimed current attempts, capacity, dependencies |
| `PeerRuns.RunIsSafe` | peercoord/engine.go:42-63 | every board of every run from the empty one satisfies the invariant |
| `PeerRuns.RunOnlyEvolves` | peercoord/engine.go:42-63 | between any two boards of a run: terms do not fall, ended attempts and execution ids stay, dependencies stay, completed tasks and revocations stay |
| `PeerRuns.TermHasOneLeader` | peercoord/engine.go:176-191 | no term is held by two agents in a run |
| `PeerRuns.CompletedIsFrozen` | peercoord/engine.go:531-542 | a completed task stays as it is, to the last field, for the rest of the run |
| `PeerHistory.OnlyTaskOperations` | peercoord/engine.go:478-661 | on a reachable board a task changes its state only by an accepted task operation on it, entitled and in time, and then as the table says |
| `PeerHistory.CompletedByReview` | peercoord/engine.go:531-542 | in every run a task becomes completed exactly in a step that is an accepted, approving review of its submitted result by the current leader in its term; an accepted review without approval fails it |
| `PeerHistory.PeersPresentTheirToken` | peercoord/engine.go:89-98 | in every run an accepted request presents the very token its peer's session was made with |
| `PeerHistory.HoldersPresentTheirToken` | peercoord/engine.go:464-477 | in every run an accepted report of an execution presents the very token its attempt was claimed with |
| `PeerRuns.RevocationIsPermanent` | peercoord/engine.go:276-295 | a revoked peer stays revoked and without a secret |
| `PeerRuns.SupersededIsPowerless` | peercoord/engine.go:566-588 | an attempt that is not the last any more never changes, and every request under its id is refused, for the rest of the run |
| `PeerRuns.TransitiveDependencies` | peercoord/engine.go:439-459 | along any chain of dependencies numbers fall, and a task that was ever claimed has all of the chain completed |
| `PeerRuns.LapsedStep` | peercoord/engine.go:598-646 | a step after the lapse of an attempt's lease does not renew it, and is no start, progress or result on it |
| `PeerRuns.LapsedStaysLapsed` | peercoord/engine.go:267-272 | over a run with a non-decreasing clock and no accepted adoption of the task, a lapsed lease stays as it was and the attempt is only ever wound down |
| `PeerRuns.LapsedNeverActs` | peercoord/engine.go:598-646 | over such a run, whatever adoptions are refused in it, every start, progress or result under the lapsed attempt's id is refused, whether or not the attempt has been superseded |
| `PeerRuns.OfferCarriesTerm` | peercoord/engine.go:176-191 | on a good board every offered or queued task carries the current leader and term |
| `PeerRuns.StaleClaimMeansLapsedLeader` | peercoord/engine.go:498-506 | so a claim refused as stale is refused for the peer's incarnation or a lapsed leader lease, never for the term |
| `PeerStore.TaskMap.WriteLast` | peercoord/engine.go:662-678 | the current attempt is written over where it lies in the task's list, and no other task shows the change |
| `PeerStore.TaskMap.Clone` | peercoord/clone.go:36-54 | the cloned map holds equal tasks in records, dependency lists, attempt lists, results and stamps that are all new |
| `PeerStore.CloneStore` | peercoord/clone.go:12-56 | the copy holds the same board, and every object of it, at any depth, is new |
| `PeerEngine.Transition.RunInit` | peercoord/engine.go:195-221 | the operation leaves the store with exactly the board of its specification, or refuses with its code |
| `PeerEngine.Transition.RunHeartbeat` | peercoord/engine.go:251-275 | the peer, its agents, the leader's lease and the running attempts' leases, each updated in its own record, make the specified board |
| `PeerEngine.Transition.RunLeave` | peercoord/engine.go:276-295 | the same for leaving, refused while an active attempt of the peer is left |
| `PeerEngine.Transition.RunAssign` | peercoord/engine.go:413-461 | the same for assigning, with every check in its order |
| `PeerEngine.Transition.RunClaim` | peercoord/engine.go:489-529 | the same for claiming: the current attempt is written in place, then the secret, then the move |
| `PeerEngine.Transition.RunRetry` | peercoord/engine.go:566-588 | the same for a retry: a new attempt behind the old ones, the old secret gone |
| `PeerEngine.Transition.RunExecution` | peercoord/engine.go:589-661 | the same for all that the holder of an execution reports |
| `PeerEngine.Apply` | peercoord/engine.go:42-63 | nothing reachable from the given store changes; a refusal returns that store; a success returns a store all of whose objects are new - maps, records, lists, attempts' results and stamps - holding exactly the specified board and event, which is stated for boards without two records under one session, endpoint name or number |
| `PeerService.ApplyAll` | peercoord/engine.go:42-63 | requests applied one after another leave the board the specification says, and the boards are a run, so the run results hold of what is stored |
| `SessionWindow.CloseDanglingToolCalls` | agentic/session_memory.go:238-281 | the backward scan and the loop append one marked error per call of the last open caller that has no answer with a non-blank id |
| `PairingLaws.ClosesWhatIsOpen` | agentic/session_memory.go:238-281 | closing outright: nothing changes unless the last calls are still open; then, in the order of the calls, a cancelled error with note, name, title and time is added for each call that no result behind them answers |
| `SessionWindow.CloseKeepsPairedIff` | agentic/session_memory.go:238-281 | closing a paired transcript leaves it paired, except exactly when a call with a blank id is followed by something else than results |
| `SessionWindow.ClosingCanBreak` | agentic/session_memory.go:259-281 | three paired turns that closing breaks |
| `SessionWindow.ClosesRound` | agentic/session_memory.go:238-281 | a tool round stopped after any of its results is closed into a paired transcript |
| `SessionWindow.BoundedIsSuffix` | agentic/llm_prompt_execution_actor.go:1387-1392 | trimming leaves a suffix of at most 300 turns |
| `SessionWindow.BoundedPairedIff` | agentic/llm_prompt_execution_actor.go:1387-1392 | a trimmed window of a paired transcript is paired exactly when it holds a user turn, is empty, or does not begin within a tool round |
| `SessionWindow.SessionMemory.Bound` | agentic/session_memory.go:130-133 | close, trim and heal the head, with that same condition on what comes out |
| `PromptLaws.WindowIs` | agentic/llm_prompt_execution_actor.go:1387-1392 | the window is all of at most 300 turns, or the last 200 of more, from the first user turn on if there is one |
| `Compaction.BriefSurvives` | agentic/orchestrator.go:1813-1829 | a further compaction carries the pinned brief over unchanged but for trailing space, if the brief does not hold the summary's header |
| `Compaction.BriefIsCut` | agentic/orchestrator.go:1813-1829 | a brief that does hold it is cut there by the second compaction |
| `Compaction.HeaderTaskIsLost` | agentic/orchestrator.go:1813-1829 | a task that is that header itself is gone after the second compaction |
| `Compaction.SummaryIs` | agentic/orchestrator.go:1813-1829 | for every first turn: the summary stands under its header at the end; before it, stripped, what an earlier summary had pinned, or the task a user had set up to 4000 bytes and a note under the pinned header, or nothing |
| `RunLoop.RunHandsBackResumable` | agentic/orchestrator.go:487-794 | whatever the model, the tools, the clock and the user do, a run from a resumable transcript hands back a resumable one on every exit: done, error, each cap, question, cancellation anywhere, after any compactions |
| `RunLoop.RunHandsBackPairedIff` | agentic/orchestrator.go:487-794 | and exactly the resumable starts have every run hand back a paired transcript |
| `RunLoop.SomePairedStartFails` | agentic/orchestrator.go:489-496 | a paired start from which a run cancelled at once hands back a violation |
| `RunLoop.RunStops` | agentic/orchestrator.go:566-604 | how each stop relates to the caps: in particular a run stopped by iterations has tokens and time left, since those are looked at first |
| `RunLaws.RunUsesItsAnswers` | agentic/orchestrator.go:566-680 | the tokens of the final state are those of the start and the sum of what the answers of its rounds used |
| `RunLaws.NoRoundPastACap` | agentic/orchestrator.go:566-604 | no round is made after a cancellation, past the iterations, past the time, or once the tokens so far reach a positive cap |
| `RunLaws.RunIsRounds` | agentic/orchestrator.go:566-794 | a run stops for the first limit due, or makes one round and goes on from it; a round adds the assistant's texts, thinking and calls, one result per call in order until one is interrupted, the last open question, and ends the run exactly as the answer and the results say |
| `RunLoop.RunOnlyAppends` | agentic/orchestrator.go:487-794 | without compaction the transcript is only appended to |
| `RunLoop.RunKeepsBrief` | agentic/orchestrator.go:1772-1829 | however often a run compacts, its transcript begins with the task or a summary that pins it |
| `RunLoop.Orchestrator.SafeCompactionCutIndex` | agentic/orchestrator.go:1836-1848 | the scan finds the first cut from the wanted one on that is no tool turn, or none |
| `RunLoop.Orchestrator.MaybeCompact` | agentic/orchestrator.go:1753-1803 | compaction happens under exactly its conditions and keeps what is behind the cut |
| `RunLoop.Orchestrator.RunLoop` | agentic/orchestrator.go:487-794 | the loop with its deferred closing ends in the state its specification gives for the world's answers |
| `RunBudget.EachLegCounts` | agentic/llm_prompt_execution_actor.go:1093-1123 | each automatic step brings the budget strictly nearer its end and keeps the phase order |
| `BudgetLaws.StepIff` | agentic/llm_prompt_execution_actor.go:977-1001 | a leg is resumed exactly if it stopped on iterations or time with resumes and time left; else closed exactly if it stopped on any cap, once, with a closing prompt; and else it rests |
| `BudgetLaws.BudgetAfter` | agentic/llm_prompt_execution_actor.go:913-948 | a resume costs one of those left; the closing leg gets its own resumes, deadline and tokens; a question keeps the budget; any other rest clears it but for the token total |
| `BudgetLaws.ArmedSets` | agentic/llm_prompt_execution_actor.go:779-841 | each field of an armed budget from the request, with the fewest resumes that reach the iterations asked for |
| `BudgetLaws.CapsAre` | agentic/llm_prompt_execution_actor.go:684-712 | the caps of a leg: its share of iterations, the time to the deadline and the tokens left, each only where there is a limit and something left of it |
| `BudgetLaws.RestsOnCapOnlyClosed` | agentic/llm_prompt_execution_actor.go:1093-1141 | a chain of legs armed with a closing prompt comes to rest on a cap only after its closing leg |
| `RunBudget.StepsInOrder` | agentic/llm_prompt_execution_actor.go:1093-1123 | what the actor does by itself is resumes within the allowance, then at most one closing leg, then at most its own resumes |
| `RunBudget.MainIterationsBounded` | agentic/llm_prompt_execution_actor.go:779-841 | the legs before the closing one use at most one leg's iterations per leg left |
| `RunBudget.ResumesReachTotal` | agentic/llm_prompt_execution_actor.go:821-830 | the allowance is the least number of resumes that reaches the total |
| `RunBudget.ArmedRunEnds` | agentic/llm_prompt_execution_actor.go:779-841 | armed while idle and left alone: at most ceil(total/perLeg)-1 resumes, one closing leg, its resumes; fewer than total+perLeg main iterations |
| `RunBudget.ResumedLegsAreFunded` | agentic/llm_prompt_execution_actor.go:697-712 | a leg that follows by itself has tokens left where there is a token cap, follows one that was over before the deadline, and has a positive time cap exactly if it starts before the deadline itself |
| `RunBudget.LateLegIsUncapped` | agentic/llm_prompt_execution_actor.go:697-704 | a leg resumed in time that starts after the deadline runs with no time cap at all |
| `RunBudget.CeilingsAreNotResumed` | agentic/llm_prompt_execution_actor.go:990-1001 | a leg that stops on time or tokens is never resumed, with a clock that does not go back |
| `RunBudget.RestKeepsOnlyQuestions` | agentic/llm_prompt_execution_actor.go:1125-1140 | when the actor comes to rest the budget stays armed exactly for a question |
| `RunBudget.RunFits` | agentic/orchestrator.go:566-604 | what the loop reports under a leg's caps is what the budget results assume of a leg |
| `PromptActor.Actor.HandleSetRunBudget` | agentic/llm_prompt_execution_actor.go:779-841 | arming and clearing, field by field |
| `PromptActor.Actor.StartPrompt` | agentic/llm_prompt_execution_actor.go:582-724 | a leg is started on the closed, trimmed window that ends with the prompt and its blocks, their texts sanitized, under the caps the budget leaves; the window is resumable |
| `PromptActor.PromptedIsResumable` | agentic/llm_prompt_execution_actor.go:606-616 | whatever was left of the session, the window a prompt starts from is resumable and ends with the prompt |
| `PromptLaws.PromptedEndsWithIt` | agentic/llm_prompt_execution_actor.go:582-616 | for any session, the leg is given the session's last turns and the prompt's own turn behind them, from a user turn on |
| `PromptLaws.CleanIs` | agentic/llm_prompt_execution_actor.go:582-616 | with translation on, the prompt's text and the texts of its text blocks are translated and nothing else changes; without it nothing does |
| `PromptActor.Actor.MergeDoneIntoSession` | agentic/llm_prompt_execution_actor.go:1024-1041 | a leg's transcript is taken into the session exactly when the leg is the active one |
| `PromptLaws.TakenIsWhole` | agentic/llm_prompt_execution_actor.go:1024-1041 | a leg's transcript takes the session's place with missing categories filled in; without one its summary is added; without either nothing changes |
| `PromptLaws.NextPromptIs` | agentic/llm_prompt_execution_actor.go:758-777 | the prompt of the following leg, word for word: the queued one, to go on, the closing prompt of the budget, each of the latter two with the reminder of the directory where one is set, or none |
| `PromptLaws.ReasonsRead` | agentic/llm_prompt_execution_actor.go:1125-1141 | each stop shows its own reason on the paused session |
| `PromptActor.Actor.HandleOrchestratorDone` | agentic/llm_prompt_execution_actor.go:1043-1141 | merge, then the queued prompt, else resume, closing leg or rest as the budget says; the session is the merged window with the prompt of just that step, sanitized, behind it |
| `PromptActor.RunToRest` | agentic/llm_prompt_execution_actor.go:1043-1141 | a prompt and all that follows by itself: every leg is given a resumable window, the actor comes to rest within the legs its budget leads to, and the session can go on from there |
| `TokenFormat.SeqOfSynthetic` | secretnat/generator.go:55-70 | the sequence number can be read back from a token of any mode, detector and template |
| `TokenFormat.SyntheticInjective` | secretnat/generator.go:55-70 | so tokens with different numbers differ across all formats |
| `TokenFormat.TokenLooks` | secretnat/generator.go:55-70 | every token outright: its number in at least three or six digits, behind the prefix or the detector's name in upper case, or within the frame of a private key or signed token |
| `TokenTable.MappingTable.TokenFor` | secretnat/mapping.go:67-84 | one record under both maps at first sight, one more hit later, the counter and the longest token kept up |
| `TokenTable.EveryRunIsTwoWay` | secretnat/mapping.go:67-84 | after any calls, in any modes and with any detectors, the two maps are mutually inverse and every token has a number of its own |
| `TokenTable.TokensAreForever` | secretnat/mapping.go:67-84 | no call takes a value's token away or gives a token to another value |
| `TokenTable.RepeatedTokenLosesValue` | secretnat/mapping.go:76-79 | for any mint at all: values come back after a new token exactly if the token is not in use |
| `TokenTable.MappingTable.RestoreAll` | secretnat/mapping.go:111-139 | the tokens are put back longest first, with a result and a count that do not depend on the map's iteration order |
| `TokenOrder.OrderIsUnique` | secretnat/mapping.go:122-127 | there is one listing of a token set in that order |
| `TokenCells.RestoreExpands` | secretnat/mapping.go:128-136 | where tokens can be told apart, putting them back one after another, in any order, is putting them all back at once, and as many are counted as there are |
| `Detection.DetectAll` | secretnat/detector.go:137-183 | collect, sort, sweep: matches in order and disjoint, all reported by a detector, and every reported one kept or beaten by a kept one |
| `Detection.ResultMeans` | secretnat/detector.go:137-183 | what is kept are validated spans, apart and from left to right; every other begins within one that began before it, or is longer, or more confident, or no later in the registry |
| `Detection.ResultIsDetermined` | secretnat/detector.go:133-136 | those properties leave no choice of spans |
| `SecretTranslation.SanitizeDetected` | secretnat/sanitize.go:129-150 | the loop rewrites the text through the matches, and putting the tokens back gives the text if they can be told apart in it |
| `SanitizeLaws.ReplacesExactly` | secretnat/sanitize.go:129-150 | for any spans: exactly those are replaced whose value is no token of the table as it stands there and holds no `${`, each by the token the final table has for its value; all else of the text stays, the replacements are counted, and each table follows from the one before |
| `SanitizeLaws.HasReferenceIff` | secretnat/sanitize.go:137-139 | a candidate is taken for a reference exactly if a dollar sign and a brace stand side by side in it |
| `SecretTranslation.RestoreUndoesSanitize` | secretnat/sanitize.go:109-181 | with any later table, in any order of tokens, restoring undoes sanitizing whenever no token, nor what neighbours leave of one, is in the text, and counts as many tokens as were put in |
| `SecretTranslation.RunsStayPlain` | secretnat/generator.go:55-70 | tables built in one mode by detectors without templates or digits in their names hold tokens that are a digit-free head and a fixed number of digits, while the numbers fit |
| `SecretTranslation.PlainRoundTrip` | secretnat/sanitize.go:109-181 | for those it is enough that no token is in the text |
| `SecretTranslation.InertRoundTripIff` | secretnat/sanitize.go:109-181 | if moreover values and tokens share no beginnings and ends, the round trip gives the text back exactly when no token is in it |
| `SecretTranslation.TokensCanComeBack` | secretnat/mapping.go:111-139 | a reachable table, with values that hold tokens, on which a text with tokens in it is restored to itself |
| `SecretTranslation.WidePrivateTokensCollide` | secretnat/generator.go:55-58 | after a thousand secrets in private mode a text without tokens comes back as another secret |
| `SanitizeTwice.SecondPassIdleIff` | secretnat/sanitize.go:104-150 | sanitizing what sanitizing gave, with the table it left, changes neither text nor table exactly when every match found there is a token of that table or holds a reference |
| `SanitizeTwice.TextKeptIff` | secretnat/sanitize.go:130-150 | a pass leaves the text alone as it was exactly when every value it replaced equals its token, if no value and its token begin one another |
| `SanitizeTwice.ReplacedByItself` | secretnat/sanitize.go:130-150 | a second pass that replaces a value by itself, the token it mints next, and changes the table only |
| `SanitizeTwice.DigitsAreReplacedTwice` | secretnat/sanitize.go:104-150 | with a custom detector of six digits, run over an empty table through detection and both passes, 123456 becomes a token whose digits the second pass replaces in turn |
| `SanitizeTwice.WordWiseIsIdempotent` | secretnat/sanitize.go:104-150 | detectors that report whole words, each wherever it stands or nowhere, and tokens that are words: a second pass changes neither text nor table, for every text |
| `SanitizeTwice.WholeWordsAreIdempotent` | secretnat/detectors_builtin.go:34-50 | so it is for detectors that find the words of a text, as patterns between word boundaries do, with names and prefixes of word characters |
| `SanitizeTwice.WordDetectorFinds` | secretnat/detectors_builtin.go:34-50 | the scan for words finds all of them and nothing else, so there are such detectors for any wanted content |
| `PatternDetectors.SyntheticIsMarked` | secretnat/detector.go:187-202 | every format in which a token can be minted holds one of the marks that pattern detectors refuse |
| `PatternDetectors.CallsMark` | secretnat/mapping.go:67-84 | so every token of a table built up by requests holds one |
| `PatternDetectors.PatternsRefuse` | secretnat/detector.go:187-202 | the validation of pattern detectors lets no value with a mark through |
| `PatternDetectors.PatternPasses` | secretnat/detector.go:208-225 | a candidate passes the shared validation exactly if it holds no mark of a token and begins neither like a reference nor like a placeholder |
| `PatternDetectors.TextKeptUnlessInside` | secretnat/sanitize.go:130-150 | a pass leaves the text alone as it was exactly when every value it replaced is its own token, if no other value holds its token |
| `PatternDetectors.SecondPassTextIff` | secretnat/sanitize.go:104-150 | with detectors that refuse the marks, as all pattern detectors do, a second pass leaves the text alone exactly when it finds nothing but tokens and references, and then the table too |
| `MixedWords.MixedWordsAreIdempotent` | secretnat/sanitize.go:104-150 | with refusing detectors that each have their own kind of word, and tokens that fit their values, sanitizing leaves nothing for any of them to find, for every text |
| `MixedWords.MixedFindersAreIdempotent` | secretnat/detectors_builtin.go:34-50 | so it is for detectors that find words, with names and prefixes of word characters or the web token's format, whose dots need be in nobody's words |
| `MixedWords.CallsFit` | secretnat/mapping.go:67-84 | tables built up by requests for such formats are ones it holds for |
| `KnownSecrets.NewKnownSet` | secretnat/sanitize.go:47-73 | the snapshot holds of each name the first usable registration, once, sorted with longer values first |
| `KnownSecrets.KeptIff` | secretnat/sanitize.go:44-61 | a registration is kept exactly if it has a name and a value of six bytes or more and is the first such of its name |
| `KnownSecrets.ReplaceKnown` | secretnat/sanitize.go:114-123 | the loop replaces each value throughout by its reference, one secret after another, and counts |
| `KnownSecrets.LongerAreGone` | secretnat/sanitize.go:32-35 | when a value's turn comes no longer value is left in the text, so none is replaced in part while it is whole |
| `KnownSecrets.NoValueIsLeft` | secretnat/sanitize.go:96-101 | after the pass no registered value is in the text, if values and references have nothing in common |
| `KnownSecrets.ReadsBackIff` | secretnat/sanitize.go:14-17 | a reference is read as one exactly when its name is made of letters, digits and underscores and begins with no digit |
| `KnownSecrets.KnownRoundTripIff` | secretnat/sanitize.go:114-181 | reading references back undoes the pass exactly for texts that hold no reference to a registered name; and then as many are counted as on the way out |
| `KnownSecrets.UnmarkedAreApart` | secretnat/sanitize.go:96-101 | values without dollar signs and braces that lie in no registered name have nothing in common with references |
| `KnownSecrets.ValueThatIsAName` | secretnat/sanitize.go:96-123 | a value that is another secret's name is replaced within that secret's reference, which then no longer reads back |
| `KnownSecrets.OddNameIsLost` | secretnat/sanitize.go:47-61 | a registration with a dash in its name is written into a text and never read back |
| `TwoTiers.Sanitize` | secretnat/sanitize.go:109-150 | both passes in order, the second left out without detectors, table or generator, with the text, the table and the count they leave |
| `TwoTiers.Restore` | secretnat/sanitize.go:159-181 | tokens longest first, then references to registered names, with text and count independent of map order |
| `TwoTiers.BothTiersRoundTripIff` | secretnat/sanitize.go:96-181 | through both tiers, with any later table, the text comes back exactly when it held no reference to a registered name, if tokens can be told apart in what the first pass leaves; and then as many are counted on the way back as on the way out |
| `TwoTiers.NoKnownSecretLeaves` | secretnat/sanitize.go:96-150 | no registered value is in the sanitized text, whatever the detectors report, if values have nothing in common with references and tokens |
| `TwoTiers.SanitizingIsIdempotent` | secretnat/sanitize.go:104-106 | and for whole-word detectors sanitizing twice through both tiers is sanitizing once |
| `StreamRestore.HoldbackLen` | secretnat/stream.go:59-85 | the nested scan gives the length of the longest suffix that is a proper beginning of a token |
| `StreamRestore.StreamRestorer.Feed` | secretnat/stream.go:30-43 | what is passed on and what is held back, for any chunk and whatever tokens there are by then |
| `StreamRestore.NothingIsLost` | secretnat/stream.go:30-54 | for every chunking, what was passed on and what is held back make up the input so far, and the held part is shorter than the longest token |
| `StreamRestore.StreamsAreCutIff` | secretnat/stream.go:7-11 | some stream has a token across an emission boundary exactly when a condition holds that the finite token set decides |
| `StreamRestore.BorderFreeIsNeverCut` | secretnat/stream.go:7-11 | it does not hold when no token ends as a token begins |
| `StreamRestore.StreamingAgrees` | secretnat/stream.go:7-16 | however a text is chunked, streaming it restores what restoring it whole does, if tokens cannot be cut and none shows in the restored text |
| `StreamRestore.NothingIsLostGrowing` | secretnat/stream.go:22-43 | nothing is lost, repeated or reordered though the tokens change from chunk to chunk |
| `StreamRestore.LateTokenCut` | secretnat/stream.go:22-43 | a token that is not streamed before it is known is cut only if the tokens of some chunk from then on can be |
| `StreamRestore.RestoreStream` | secretnat/stream.go:26-54 | a whole stream through one restorer, each chunk with the tokens of its time |
| `StreamRestore.GrowingStreamAgrees` | secretnat/stream.go:7-22 | with a table that grows as the stream comes in, streaming restores what the last table does on the whole text, for tokens not streamed before they are known |
| `StreamTiers.RefsConcat` | secretnat/sanitize.go:14-17 | references read in two parts are read as in one piece, if no registered one goes across, whatever unregistered ones do |
| `StreamTiers.RestoreBothStreams` | secretnat/secretnat.go:349-363 | a whole stream through one restorer that looks for tokens and references, both as known at each chunk |
| `StreamTiers.BothTiersStreamAgrees` | secretnat/stream.go:7-22 | with tokens and registered names that grow as the stream comes in, streaming through both tiers restores what restoring the whole text at the end does |
| `StreamTiers.TiersAreNeverCut` | secretnat/stream.go:7-11 | tokens without marks and borders and references to identifiers can never be cut |
| `StreamRestore.InertStreamingAgrees` | secretnat/stream.go:7-16 | for plain tokens and values unlike them this holds of every text and every chunking |
| `StreamRestore.PemTokenIsLost` | secretnat/detectors_builtin.go:102-104 | a private key token that arrives whole in one chunk is passed on unrestored |
| `ReplyMux.TokensRepeatIff` | msg/publisher.go:120-124 | two registrations have the same token exactly when the 64-bit counter has gone all the way round between them |
| `ReplyMux.RegisteredWaits` | msg/publisher.go:111-124 | a registered caller waits under its token with an empty channel |
| `ReplyMux.AtMostOneReply` | msg/publisher.go:108-145 | in every interleaving no waiter receives twice, or a reply not addressed to its token |
| `ReplyMux.SendNeverBlocks` | msg/publisher.go:134-145 | in every interleaving the send on a waiter's channel finds room |
| `ReplyMux.TakenForWaiter` | msg/publisher.go:136-141 | a reply for a waiting caller is taken for it and ends the wait |
| `ReplyMux.NeverLost` | msg/publisher.go:134-145 | no later step loses it |
| `ReplyMux.ReplyArrives` | msg/publisher.go:108-145 | from any reachable state, a reply for a waiting caller can be taken, sent and received, and is then all the caller has received |
| `ReplyMux.OnlyThatReply` | msg/publisher.go:134-145 | and the caller can receive no other |
| `ReplyMux.WaitEndsIff` | msg/publisher.go:120-131 | a wait ends exactly by a reply, a release or a registration on the same token |
| `ReplyMux.ReleasedGetsNoMore` | msg/publisher.go:126-131 | in every interleaving, once a caller has released its token it waits no more and nothing more comes for it |
| `ReplyMux.NoOtherDisturbs` | msg/publisher.go:120-131 | before the counter has gone round only the caller's own release or a reply for it is such a step |
| `ReplyMux.Publisher.AwaitReply` | msg/publisher.go:111-132 | registering is that step of the protocol, and the reply subject ends in the token |
| `ReplyMux.Publisher.RouteTake` | msg/publisher.go:136-141 | so is the locked part of routing |
| `ReplyMux.Publisher.RouteSend` | msg/publisher.go:142-144 | and the send behind it, which has room |
| `ConnectCodec.ConnectEnvelope` | forge/runtime/grpc_connect.go:36-40 | a flag byte of zero, the big-endian length, the payload |
| `ConnectCodec.LengthFitsIff` | forge/runtime/grpc_connect.go:36-40 | the length field gives the payload's length back exactly below 2^32 bytes |
| `ConnectCodec.ConsumeConnect` | forge/runtime/grpc_connect.go:73-108 | the reading loop passes on and fails as specified for every byte sequence, closed or broken off |
| `ConnectCodec.RoundTrip` | forge/runtime/grpc_connect.go:36-108 | messages within the cap and an end message are read back whole and in order, whatever follows; the stream fails exactly if the end message says of an error, and with that error |
| `ConnectCodec.PrefixFails` | forge/runtime/grpc_connect.go:75-101 | every strict prefix ends in an error after exactly the messages that had arrived whole |
| `ConnectCodec.ReadsEnvelopes` | forge/runtime/grpc_connect.go:73-108 | whatever arrives, only whole envelopes within the cap are passed on, in order and unchanged |
| `ConnectCodec.SucceedsIff` | forge/runtime/grpc_connect.go:73-132 | a stream succeeds with given messages exactly if it is their envelopes, a clean end message, and anything after |
| `ConnectCodec.StopsAsItMust` | forge/runtime/grpc_connect.go:73-132 | after whole messages the stream ends in just the error that the next bytes give rise to - short header, compressed, unknown flags, too large, short payload, a broken connection or what the end message says - or, after a clean end message, in none |

## Left out

- PeerEngine.Apply: on a board with two records under one session, endpoint name or number, which only a store made by hand can hold, the lookup's answer depends on map order; there only the isolation is stated, not the resulting board.
- PeerService.ApplyAll: the ids a request draws are taken to be unused, as random ones are relied on to be.
- Event texts, responses and the shared response pointers are not modelled; an event's kind, sender, recipient, task, attempt and thread are.
- PeerStore.CloneStore: lists that the program only ever replaces (names, result bytes, stamps) are objects without a write operation; spare capacity of a slice is not modelled.
- Hashing is an injective constructor, and a result document is its bytes with the summary they decode to.
- Numbers are unbounded where the code has 64-bit integers, except in the reply counter and the envelope length.
- White space and labels are judged by ASCII; other Unicode classes and case mappings are not modelled.
- HTTP, SSE, NATS, the actor system, KV persistence, backoff and the JSON codecs around the modelled functions.
- TurnConversion.RoundTrip: provider-specific blocks and raw JSON are carried as opaque strings.
- ClaudeWire.BuildMessages: cache markers, tool specifications and sampling parameters are not part of the messages.
- RunLoop.Orchestrator.RunLoop: grounding, approvals, status lines, usage records and ephemeral screenshot turns, which never enter the stored transcript; model-switch notes, which are inserted into requests only.
- RunLoop.Orchestrator.MaybeCompact: the summary text itself comes from the model; pinning and cutting are modelled. The threshold 0.75 is taken as an exact fraction.
- PromptActor.Actor.HandleOrchestratorDone: the budget's fields are one record-valued field; model seats, auto-approval, cache counters, recall, profiles and a failure to spawn are left out, and so is replacing a session's memory from outside.
- PromptActor.RunToRest: no prompt comes in between; with one, the queued prompt runs next and the budget goes on (`PromptActor.Actor.HandleOrchestratorDone`).
- PromptActor.Actor.StartPrompt: sanitizing is a function of the text; the table it fills is `TwoTiers.Sanitize`'s. Model seats, recall, tools, the system prompt and spawning are left out.
- TwoTiers.Sanitize: the regular expressions of detectors are any functions returning spans; switching translation on and off, sessions and JSON leaves are not modelled.
- KnownSecrets.KnownRoundTripIff: values that share a beginning or an end with a reference, or lie in one or hold one, are outside it; `KnownSecrets.ValueThatIsAName` shows one for which it fails.
- StreamRestore.GrowingStreamAgrees: streams of tokens only; `StreamTiers.BothTiersStreamAgrees` is the same for tokens and references together.
- MixedWords.MixedWordsAreIdempotent: detectors whose reports are bounded by something else than the end of a word, such as the private key block, are outside it.
- TokenTable.MappingTable.RestoreAll: the time of last use and the listing for display are not modelled.
- ReplyMux.Publisher.RouteTake: a mutex section is one step; message contents, timeouts and decoding are left out.
- ConnectCodec.ConsumeConnect: payloads are passed on as they are, without redaction and pretty printing; what an end message says is a parameter.
