# OpenJax, modelled and proved in Dafny

OpenJax is an agent runtime: it asks a language model what to do, runs the tools the model
asks for behind a policy gate, and streams everything that happens to its clients. This
project models the state machines, parsers, printers and bounded caches under that and
proves what they are for.

`dafny verify dfyconfig.toml` checks all of it. Code that computes is a function here; code
that updates fields or runs a loop is a class or a method, proved against such a function;
the lemmas are about the functions. Lemmas switch Dafny's automatic induction off, so that
each proof says what it rests on, and `hide` statements keep definitions out of proofs that
do not need them.

## The modules

| module | what it is | main results |
|---|---|---|
| `DecisionStream`, `DecisionDocument`, `DecisionPromise` | the character-level parser that releases a decision's `message` while the JSON arrives | `ChunkingIrrelevant`, `RunDocument`, `ReleasedMessage`, `PromiseKeptExactly` |
| `AuthStore` | sessions, access tokens and refresh tokens; one transaction is one step | `InvAlways`, `StatusCheckRedundant`, `LoginLasts`, `RevocationIsFinal`, `RotatedAgainOnlyIfReissued`, `ValidatedActiveExactly` |
| `AnthropicStream`, `AnthropicAgreement` | assembling a streamed Anthropic message | `EventsCarryEverything`, `StreamAnswers`, `StreamAgrees`, `SameContentExactly`, `SameReasoningExactly` |
| `ChatStream` | tool calls out of interleaved chat-completion deltas | `PendingExact`, `FramesKeepCallsExactly`, `ChatAgrees`, `EventsPerCall` |
| `ToolCommand` | the `tool:name key="value"` line | `RoundTrip`, `PassAdvances` |
| `AgentTurn` | one turn: rounds, batches, guards, budgets, against any model and any tools | `PassedOverExactly`, `BatchesAddUp`, `TurnEnds`, `AnsweredExactly`, `SixInARowEndTheTurn` |
| `LoopDetector` | the window of sixteen keys | `WindowIsEnough`, `SixInARowHalt` |
| `History` | commits, the quota of a hundred turns, compaction | `ReachableShape`, `CompactTells`, `CompactTwice` |
| `Policy`, `PolicyRuntime` | the rule engine, snapshots, overlays and the built-in rule | `DecidesExactly`, `OrderIrrelevant`, `ReasonExact`, `HandleMeaning`, `RunEscalatesExactly` |
| `Orchestrator` | the approval gate, for one call and for many at once | `ShellAllowedExactly`, `DispatchIsEntitled`, `AskedExactly` |
| `RateLimit` | the sliding-window limiter | `AnswersByTheRule`, `IntervalBound` |
| `Replay`, `SessionEvents` | the bounded logs and a live subscriber | `ReplayExact` (both), `PollGapFreeExactly`, `KeepingUpIsGapFree` |
| `ShellBlock` | the printed shell block and its parser | `ContentRebuilt`, `ReadBackExactly`, `BlockExactly` |
| `Providers` | model ids, routes and fallback chains | `RoutesAreFirstFree`, `NoneLost`, `ChainsEnd` |
| `ListDir` | the breadth-first listing and its pages | `CollectDirEntries`, `PagesConcatenate`, `PagesCompleteExactly`, `PlainTreesPage` |
| `Common`, `Decimal` | optional values, substrings, order and lower-casing of text; decimal text | |

## Where the code does less than it is for

Each of these is proved: by a lemma with a concrete input, by one that says exactly when the
code does what is expected, or by both.

- The decision parser keeps no stack for arrays, so the first string of an array under a
  top-level key counts as that key's string (`ArrayMessageIsReleased`). It drops surrogate
  pairs, also from keys, so it takes keys for `message` that are not
  (`ConfusedKeysAreReleased`). `PromiseKeptExactly` has the exact condition for all
  documents, `FaithfulBySpelling` says it by spelling when no keys are confused.
- `validate_access_token` takes its lock twice. The token check itself is never wrong
  (`StatusCheckRedundant`), but the record it returns may be one that was revoked in between
  (`ValidateMayReturnRevoked`); it is an active one exactly when nothing in between ended
  the session (`ValidatedActiveExactly`).
- Streaming an Anthropic message moves all text in front of the tool uses
  (`TextMovesInFront`, `SameContentExactly`) and joins thinking blocks without the line breaks
  of the whole form (`TwoThoughtsDiffer`, `SameReasoningExactly`); text parts of a chat
  completion differ in the same way (`TwoPartsDiffer`, `SamePartsExactly`).
- A chat-completion index that is skipped takes the id of the delta that skipped it
  (`SkippedIndexTakesForeignId`); `CallsKeptExactly` says for any deltas when calls keep
  their own id, name and arguments, `FramesKeepCallsExactly` for any frames.
- A tool use dropped for want of budget never gets a result. If a call of the same batch is
  skipped as a duplicate, the budget is not used up and the model is asked again with a tool
  use that nothing answers (`UnansweredRequest`); `AnsweredExactly` says when a request has
  all its results, `RoundTells` when the loop goes on.
- In a `tool:` command a word without an equals sign takes the word after it along, even if
  that is an argument (`BareWordSwallows`).
- The loop detector's halt ends the turn after the tool has run but before the call is
  counted (`HaltLeavesUncounted`); in every other ending all tools run are counted
  (`TurnEnds`), and the budget holds for the tools run, not just the counted ones.
- A turn that runs into a limit after at least one round is left in the resumed phase, not
  the failed one (`LimitLeavesResumed`), and no other ending is (`TurnEnds`).
- Replaying from cursor 0 in the Python backend is the same as replaying without a cursor:
  trimmed events are skipped silently (`ReplayFromZero`). A replay limit of 0 keeps
  everything (`TrimBoundsExactly`).
- A subscriber that falls behind the trimmed log once never learns what it missed
  (`KeepingUpIsGapFree`).
- A deny reason is the command's stderr and may have several lines. Each is read as a header
  line: one can make the whole block unreadable (`StderrLineSpoils`), flip the runtime flag
  (`StderrLineFlips`) or end the header early (`StderrMarkerCuts`), and the reason loses its
  later lines. `ReadBackExactly`, `MetadataExactly` and `BlockExactly` say, for all fields
  whatever, when the parser yields anything, the metadata, and the whole block.
- A user rule can allow destructive commands (`HigherPriorityAllows`); `EscalatesExactly` says
  exactly when one still escalates, `RunEscalatesExactly` after any changes of rules and
  overlays.
- The order of rules shows in the reason when tying winners give different ones
  (`ReasonFollowsOrder`, `ReasonExact`).
- Directory listings are sorted by a cut and slash-normalised path. Between two entries with
  one key the order is that of the directory and of an unstable sort; if the directory is
  read in another order for the next page, pages may show one of the two twice and the other
  never (`BackslashClashes`, `PagesCompleteExactly`).

## Model

| member | source | states |
|---|---|---|
| `DecisionStream.DecisionJsonStreamParser.constructor` | `openjax-core/src/agent/decision.rs:44-49` | a new parser is in the start state and has recorded no text |
| `DecisionStream.DecisionJsonStreamParser.PushChunk` | `openjax-core/src/agent/decision.rs:51-93` | reading a chunk in place appends it to the raw transcript, moves every field as reading its characters one by one does, and returns exactly the text and the action those characters release |
| `DecisionStream.DecisionJsonStreamParser.ConsumeStructuralChar` | `openjax-core/src/agent/decision.rs:60-90` | outside strings a character changes the object stack, the expected role of the next string and nothing else, and releases nothing |
| `DecisionStream.DecisionJsonStreamParser.ConsumeStringChar` | `openjax-core/src/agent/decision.rs:120-175` | inside a string one character is handled as an escape, the closing quote, a code point or plain text; what it releases is added to the chunk's delta |
| `DecisionStream.DecisionJsonStreamParser.ConsumeUnicodeChar` | `openjax-core/src/agent/decision.rs:121-139` | four hexadecimal digits speak the code point they denote, a surrogate speaks nothing, a bad digit abandons the escape |
| `DecisionStream.DecisionJsonStreamParser.PushDecodedChar` | `openjax-core/src/agent/decision.rs:177-204` | a decoded character of the top-level `message` goes to the delta once the action is final and to the held-back text before; every other string releases nothing |
| `DecisionStream.DecisionJsonStreamParser.FinalizeStringToken` | `openjax-core/src/agent/decision.rs:206-232` | a closed string becomes the pending key, or settles the action in lower case and releases the held-back text when that is final |
| `DecisionStream.RunAppend` | `openjax-core/src/agent/decision.rs:54-92` | reading a text in two parts is reading it at once |
| `DecisionStream.RunReports` | `openjax-core/src/agent/decision.rs:51-93` | what a call reports as action is the latest it has learnt, and nothing if it has learnt none |
| `DecisionStream.ChunkingIrrelevant` | `openjax-core/src/agent/decision.rs:51-93` | for any parser state and any cutting into chunks, the deltas joined together are what the uncut text releases |
| `DecisionDocument.KeepExact` | `openjax-core/src/agent/decision.rs:120-139` | the parser reads a string literal as RFC 8259 does exactly when the literal has no surrogate pair |
| `DecisionDocument.RunPiece` | `openjax-core/src/agent/decision.rs:120-204` | every spelling of a character that RFC 8259 has, as it is, by a letter, or by four digits in either case, speaks exactly that character; a surrogate pair speaks nothing |
| `DecisionDocument.UnknownEscape` | `openjax-core/src/agent/decision.rs:141-156` | a letter after a backslash that RFC 8259 gives no meaning speaks itself |
| `DecisionDocument.BrokenEscape` | `openjax-core/src/agent/decision.rs:121-139` | a unicode escape that breaks off before its fourth digit is dropped together with the character that breaks it |
| `DecisionDocument.RunQuoted` | `openjax-core/src/agent/decision.rs:70-77` | reading a quoted literal speaks its characters and then closes the string in the role it was opened in |
| `DecisionDocument.SilentValue` | `openjax-core/src/agent/decision.rs:51-93` | below the top level, or after an array's first comma, a whole value of any shape and depth releases nothing and restores the parser around it |
| `DecisionDocument.SilentObject` | `openjax-core/src/agent/decision.rs:61-69` | a nested object leaves the stack exactly as it was |
| `DecisionDocument.ClosedTop` | `openjax-core/src/agent/decision.rs:206-232` | closing a top-level string tells `action` or `message` and nothing else |
| `DecisionDocument.TopValue` | `openjax-core/src/agent/decision.rs:177-232` | a top-level member is heard through its leading string only: the value itself, or the first string at the head of an array |
| `DecisionDocument.TopMembers` | `openjax-core/src/agent/decision.rs:51-93` | the members of the top-level object are told in order, whatever their values are |
| `DecisionDocument.RunDocument` | `openjax-core/src/agent/decision.rs:51-232` | reading any well-formed document releases what its top-level members tell and ends outside every object |
| `DecisionPromise.ReleasedMessage` | `openjax-core/src/agent/decision.rs:51-232` | for every document whatever its keys, every chunking and either key order, the deltas join to a closed form read off the members: the `message` strings heard after the action is final, and the last one heard before it becomes so; the final action field is the last one heard, in lower case |
| `DecisionPromise.PromiseKeptExactly` | `openjax-core/src/agent/decision.rs:51-232` | for every document the deltas equal the decoded top-level `message` string of a decision whose `action` is the word final in any letter case (and nothing for other actions) if and only if the document is faithful, a condition on the spelled pieces of the literals that are heard |
| `DecisionPromise.FaithfulBySpelling` | `openjax-core/src/agent/decision.rs:51-232` | when no key is confused with `action` or `message`, faithful means: if the action heard is final, action and message are strings without surrogate pairs, or the head of `message` holds pairs only |
| `DecisionPromise.FaithfulAround` | `openjax-core/src/agent/decision.rs:51-232` | when the promised string, without surrogate pairs, is among what is heard, faithful means that nothing but surrogate pairs is heard before and after it |
| `DecisionPromise.PromiseKept` | `openjax-core/src/agent/decision.rs:51-232` | hence the promise holds on all documents with distinct keys whose top-level keys and strings have no surrogate pair and whose top-level values are no arrays |
| `DecisionPromise.LookupsAgree` | `openjax-core/src/agent/decision.rs:206-218` | for any members, looking an ASCII key up by the parser's reading finds the member that RFC 8259's reading finds if and only if the key of the first member it takes for it is spelled without surrogate pairs |
| `DecisionPromise.ArrayMessageIsReleased` | `openjax-core/src/agent/decision.rs:177-204` | a concrete final decision whose `message` is an array releases the array's first string though there is no `message` string |
| `DecisionPromise.ConfusedKeysAreReleased` | `openjax-core/src/agent/decision.rs:120-218` | a concrete document with distinct keys releases the value of a key that differs from `message` by a surrogate pair, after the message itself |
| `AuthStore.Store.constructor` | `openjax-gateway/src/auth/store.rs:50-57` | a store in memory starts with three empty tables |
| `AuthStore.Store.CreateSessionAndTokens` | `openjax-gateway/src/auth/store.rs:105-162` | one transaction inserts the session and both tokens, or nothing when an id or hash is taken |
| `AuthStore.Store.RotateRefreshToken` | `openjax-gateway/src/auth/store.rs:182-292` | one transaction: unknown, reused, expired and dead-session tokens are refused as the code refuses them (expiry revokes the row), otherwise the old row is revoked and both new tokens are inserted |
| `AuthStore.Store.RevokeSessions` | `openjax-gateway/src/auth/store.rs:294-377` | the loop over the selected active sessions revokes exactly their rows in all three tables, keeps earlier revocation times, and returns their number, in whatever order they are visited |
| `AuthStore.Store.RevokeOne` | `openjax-gateway/src/auth/store.rs:357-373` | the three updates for one session id |
| `AuthStore.Store.CleanupExpired` | `openjax-gateway/src/auth/store.rs:434-448` | expired access tokens go, and expired refresh tokens only if they are revoked |
| `AuthStore.Store.QueryAccessToken` | `openjax-gateway/src/auth/store.rs:164-180` | the first lock section of validation finds the session of an unrevoked, unexpired token and does not ask the session's status |
| `AuthStore.Store.GetSession` | `openjax-gateway/src/auth/store.rs:410-432` | the record under an id, if there is one |
| `AuthStore.CreateKeeps` | `openjax-gateway/src/auth/store.rs:105-162` | creation keeps the invariant: references resolve, a session that is not active has revoked tokens only, a session has at most one unrevoked refresh token, token ids are unique |
| `AuthStore.RotateKeeps` | `openjax-gateway/src/auth/store.rs:182-292` | rotation keeps the invariant in each of its outcomes |
| `AuthStore.RevokeKeeps` | `openjax-gateway/src/auth/store.rs:294-377` | revocation keeps the invariant |
| `AuthStore.CleanupKeeps` | `openjax-gateway/src/auth/store.rs:434-448` | cleanup keeps the invariant |
| `AuthStore.InvAlways` | `openjax-gateway/src/auth/store.rs:105-448` | the invariant holds after any run of create, rotate, revoke and cleanup steps, even with a clock that runs backwards |
| `AuthStore.CreateExact` | `openjax-gateway/src/auth/store.rs:105-162` | creation makes its access token valid until it expires and changes no other validation |
| `AuthStore.CreateSucceedsExactly` | `openjax-gateway/src/auth/store.rs:105-162` | a login succeeds if and only if its ids and hashes are new, and otherwise changes nothing |
| `AuthStore.RotateSucceedsExactly` | `openjax-gateway/src/auth/store.rs:182-292` | in a reachable state rotation succeeds if and only if the refresh token is unrevoked, unexpired and the new ids and hashes are unused: its check of the session's status never decides |
| `AuthStore.PresentExactly` | `openjax-gateway/src/auth/store.rs:182-292` | which answer a presented refresh token gets: reuse if and only if it is known and revoked, missing if and only if unknown or expired, a rotation for its session if and only if neither and the replacements are new |
| `AuthStore.LoginLasts` | `openjax-gateway/src/auth/store.rs:105-162` | a login's refresh token works for its whole refresh time to live over any run that does not present it or revoke its session, and not a moment longer |
| `AuthStore.RotationLasts` | `openjax-gateway/src/auth/store.rs:240-292` | and so does the refresh token that a rotation issues |
| `AuthStore.ReuseIsDetected` | `openjax-gateway/src/auth/store.rs:206-226` | a token that has been rotated, was presented too late, or whose session was revoked answers reuse over any run, until a cleanup after its expiry |
| `AuthStore.LoginAccessLasts` | `openjax-gateway/src/auth/store.rs:105-180` | a login's access token works for its whole access time to live over any run that does not revoke its session |
| `AuthStore.RotationAccessLasts` | `openjax-gateway/src/auth/store.rs:164-280` | and so does the access token that a rotation issues, for the session it answers |
| `AuthStore.LoginRecord` | `openjax-gateway/src/auth/store.rs:105-162` | until it is revoked a session's record has the device and time of its login and the time of its last successful rotation |
| `AuthStore.DeadRecordKept` | `openjax-gateway/src/auth/store.rs:294-377` | once revoked, its record never changes again |
| `AuthStore.RotateEffect` | `openjax-gateway/src/auth/store.rs:243-292` | after a rotation the new refresh token is the session's only live one, and no other session's live tokens change |
| `AuthStore.RotateLookups` | `openjax-gateway/src/auth/store.rs:182-292` | a rotation adds one valid access token and changes no other validation |
| `AuthStore.RevokeExact` | `openjax-gateway/src/auth/store.rs:294-377` | after a revocation a token validates exactly if it did before and its session was not selected |
| `AuthStore.SelectedExactly` | `openjax-gateway/src/auth/store.rs:306-348` | a revocation picks active sessions only: all of them, or by id, by device, or by both |
| `AuthStore.RevokeTells` | `openjax-gateway/src/auth/store.rs:294-377` | the sessions it picks get the new status and time, all other records stay, and it returns how many it has ended |
| `AuthStore.CleanupInvisible` | `openjax-gateway/src/auth/store.rs:434-448` | cleanup changes no later validation |
| `AuthStore.CleanupForgets` | `openjax-gateway/src/auth/store.rs:434-448` | it removes exactly the expired access tokens and the expired refresh tokens that are revoked |
| `AuthStore.StatusCheckRedundant` | `openjax-gateway/src/auth/store.rs:164-180` | in every reachable state the lookup that ignores the session's status answers as the one that demands an active session |
| `AuthStore.RevocationIsFinal` | `openjax-gateway/src/auth/store.rs:294-377` | once a session is not active, no token of its is accepted and no refresh token of its rotates, at any later time in any continuation |
| `AuthStore.RotatedAgainOnlyIfReissued` | `openjax-gateway/src/auth/store.rs:182-292` | in any run, a refresh hash yields a second rotation only if some step in between has issued that very hash again |
| `AuthStore.RotatedOnce` | `openjax-gateway/src/auth/store.rs:182-292` | hence, with all issued refresh hashes distinct, each yields a rotation at most once in any run from the empty store |
| `AuthStore.ValidateFindsSession` | `openjax-gateway/src/auth/store.rs:164-180` | between the two lock sections of validation the session record cannot vanish, and the session was active at the first |
| `AuthStore.ActiveExactly` | `openjax-gateway/src/auth/store.rs:294-377` | an active session is still active after any run if and only if no step of it was a revocation to another status that selected the session at that moment |
| `AuthStore.ValidatedActiveExactly` | `openjax-gateway/src/auth/store.rs:164-180` | whatever happens between the two lock sections of validation, the record returned is an active one if and only if no step in between ended the session |
| `AuthStore.ValidateMayReturnRevoked` | `openjax-gateway/src/auth/store.rs:164-180` | in particular revoking that session between the two lock sections makes the returned record a revoked one |
| `AnthropicStream.Assembler.constructor` | `openjax-core/src/model/anthropic_messages.rs:759-770` | a new stream has assembled nothing |
| `AnthropicStream.Assembler.OnFrame` | `openjax-core/src/model/anthropic_messages.rs:823-887` | one pass of the frame loop: the stop flag, the text delta, the thinking delta and the tool frame, in that order, with their events |
| `AnthropicStream.Assembler.ProcessToolUseFrame` | `openjax-core/src/model/anthropic_messages.rs:531-612` | a tool block's start resets id, name and arguments, its deltas append, its stop pushes the tool use; each sends its event; a stop reason is taken from message_delta |
| `AnthropicStream.Assembler.Finish` | `openjax-core/src/model/anthropic_messages.rs:989-1032` | the answer of the assembled state, once the stream has ended: without either end marker an error, without content another, otherwise text first, then the tool uses, the reasoning and the stop reason |
| `AnthropicStream.ExtractContentBlocks` | `openjax-core/src/model/anthropic_messages.rs:444-480` | the loop over a whole message keeps nonempty text blocks and tool uses that have id and name, in order |
| `AnthropicStream.ExtractThinking` | `openjax-core/src/model/anthropic_messages.rs:482-501` | the loop joins thinking blocks with a line break once something has been collected |
| `AnthropicAgreement.EventsCarryEverything` | `openjax-core/src/model/anthropic_messages.rs:531-612` | for any frames whatever, a subscriber that only sees the events rebuilds the text, the reasoning and the tool uses of the final response |
| `AnthropicAgreement.RunBlock` | `openjax-core/src/model/anthropic_messages.rs:823-887` | reading the frames of one block, cut anywhere and with unrelated frames in between, adds exactly its text, its thinking or its tool use, and its events |
| `AnthropicAgreement.RunMessage` | `openjax-core/src/model/anthropic_messages.rs:823-887` | reading the frames of a whole message adds its blocks' texts, thinking, tool uses and events in order |
| `AnthropicAgreement.ExtractMessage` | `openjax-core/src/model/anthropic_messages.rs:444-480` | extraction from the whole message yields the same text and tool uses |
| `AnthropicAgreement.StreamAgrees` | `openjax-core/src/model/anthropic_messages.rs:444-480` | the streamed response and the extraction of the whole message agree on the joined text and on the ordered tool uses, and the events are those of the blocks |
| `AnthropicAgreement.RunStops` | `openjax-core/src/model/anthropic_messages.rs:599-620` | over any frames a stop is seen if and only if there is a message_stop frame, and the stop reason is that of the last message_delta that carries one |
| `AnthropicAgreement.StreamAnswers` | `openjax-core/src/model/anthropic_messages.rs:823-1032` | a message in frames is answered with its text, its tool uses, its reasoning and its last stop reason if there is a message_stop frame or the end marker, and with the right one of the two errors otherwise |
| `AnthropicAgreement.SameContentExactly` | `openjax-core/src/model/anthropic_messages.rs:1006-1014` | the two content lists are equal if and only if no block of the message says anything after a tool block or after another block that does, because the stream moves all text in front |
| `AnthropicAgreement.TextMovesInFront` | `openjax-core/src/model/anthropic_messages.rs:1006-1014` | a concrete message, a tool use and then a text: the stream turns them around |
| `AnthropicAgreement.SameReasoningExactly` | `openjax-core/src/model/anthropic_messages.rs:482-501` | the streamed reasoning equals the extracted one if and only if no thinking block follows the first that has text: only the whole form puts line breaks between blocks |
| `AnthropicAgreement.TwoThoughtsDiffer` | `openjax-core/src/model/anthropic_messages.rs:482-501` | a concrete message of two thinking blocks: with a line break in the whole response, without one in the stream |
| `AnthropicAgreement.StreamBracketed` | `openjax-core/src/model/anthropic_messages.rs:531-612` | every tool's Start, argument and End events form one unbroken bracket with one id |
| `ChatStream.ChatAssembler.constructor` | `openjax-core/src/model/chat_completions.rs:638-652` | a new stream has assembled nothing |
| `ChatStream.ChatAssembler.OnFrame` | `openjax-core/src/model/chat_completions.rs:704-776` | one frame adds its text and reasoning, then each tool-call delta in order, then the finish reason |
| `ChatStream.ChatAssembler.OnDelta` | `openjax-core/src/model/chat_completions.rs:744-772` | a delta grows the pending list up to its index, one Start event each, and appends nonempty arguments to its call |
| `ChatStream.ChatAssembler.Finish` | `openjax-core/src/model/chat_completions.rs:861-907` | the answer of the assembled state, once the stream has ended; with the end marker every pending call gets one End event |
| `ChatStream.ExtractContentBlocks` | `openjax-core/src/model/chat_completions.rs:382-442` | the loops over a whole message's text parts and tool calls give the text, joined with line breaks, and the calls in order |
| `ChatStream.PendingExact` | `openjax-core/src/model/chat_completions.rs:744-772` | for any deltas in any order and with gaps, call j is named by the first delta that reaches j and has the arguments of all deltas for j in order |
| `ChatStream.EncodedCalls` | `openjax-core/src/model/chat_completions.rs:744-772` | when each index first appears in its turn with the id and name of its call, however the deltas interleave, each call ends with its own id, name and arguments, equal ids or not |
| `ChatStream.CallsKeptExactly` | `openjax-core/src/model/chat_completions.rs:750-772` | calls with different ids come out with their own id, name and arguments if and only if each index first appears in its turn, with its own id and name, and the fragments add up to the arguments |
| `ChatStream.FramesKeepCallsExactly` | `openjax-core/src/model/chat_completions.rs:704-776` | the same for whole frames, wherever text and reasoning fall |
| `ChatStream.ChatAgrees` | `openjax-core/src/model/chat_completions.rs:382-469` | for every message, its content missing, one string or parts, streaming it gives the very content that extraction of the whole gives if and only if no text part follows the first nonempty one |
| `ChatStream.ChatAnswers` | `openjax-core/src/model/chat_completions.rs:743-907` | frames are answered with all their text, the calls and the last finish reason if the end marker was seen, and with the right one of the two errors otherwise |
| `ChatStream.EventsCarryText` | `openjax-core/src/model/chat_completions.rs:704-743` | the events carry all text and all reasoning of the frames, in order; reasoning is no part of the answer |
| `ChatStream.MissingFields` | `openjax-core/src/model/chat_completions.rs:412-442` | a call of the whole message that lacks id, name or arguments has empty ones and an empty object for input |
| `ChatStream.SamePartsExactly` | `openjax-core/src/model/chat_completions.rs:382-469` | text parts read whole and read as a delta give the same text if and only if no part follows the first nonempty one |
| `ChatStream.TwoPartsDiffer` | `openjax-core/src/model/chat_completions.rs:382-469` | two concrete parts: with a line break in the whole message, without one in the stream |
| `ChatStream.SkippedIndexTakesForeignId` | `openjax-core/src/model/chat_completions.rs:744-772` | an index that is skipped gets the id and name of the delta that skipped it: a concrete case beside `ChatStream.CallsKeptExactly` |
| `ChatStream.EventsPerCall` | `openjax-core/src/model/chat_completions.rs:704-893` | however text, reasoning and fragments of calls interleave over the frames, a completed stream has sent for each call one Start, its argument fragments in order and one End |
| `ToolCommand.ParseToolCall` | `openjax-core/src/tools/router.rs:12-77` | the cursor-driven parser computes the recursive reading of the line: prefix, name, arguments, and each failure |
| `ToolCommand.ParseOneArg` | `openjax-core/src/tools/router.rs:27-74` | one pass of the outer loop stops, fails or goes on exactly where the recursive reading does, with the same map and the same rest |
| `ToolCommand.ParseQuotedValue` | `openjax-core/src/tools/router.rs:118-152` | a quoted value ends at the first unescaped quote; a backslash escapes the quote and itself only; an open value fails |
| `ToolCommand.ScanWord` | `openjax-core/src/tools/router.rs:79-116` | a word ends at white space, a key also at an equals sign |
| `ToolCommand.SkipSpacesFrom` | `openjax-core/src/tools/router.rs:96-104` | the cursor stops at the first character that is not white space |
| `ToolCommand.PassAdvances` | `openjax-core/src/tools/router.rs:27-74` | on any input every pass that goes on has moved the cursor forward, so parsing ends |
| `ToolCommand.QuotedEscape` | `openjax-core/src/tools/router.rs:118-152` | reading an escaped value returns the value, whatever its characters and whichever the quote |
| `ToolCommand.ArgsRoundTrip` | `openjax-core/src/tools/router.rs:25-74` | arguments written with or without quotes of either kind and with any white space parse to the last-wins map |
| `ToolCommand.RoundTrip` | `openjax-core/src/tools/router.rs:12-77` | a command reads back to its name and last-wins map however it is written: any white space around it, after the prefix, between arguments and around equals signs, and each value in double quotes, in single quotes or, when it can, bare |
| `ToolCommand.BareWordSwallows` | `openjax-core/src/tools/router.rs:48-58` | a word without an equals sign is dropped, and so is the word after it, even if that is an argument |
| `ToolCommand.EmptyAtEnd` | `openjax-core/src/tools/router.rs:59-64` | a key with nothing after its equals sign has the empty value at the end of the command |
| `ToolCommand.Unreadable` | `openjax-core/src/tools/router.rs:12-77` | no prefix, no name, no key in front of an equals sign, or an open quote: the command cannot be read |
| `ToolCommand.LoneBackslash` | `openjax-core/src/tools/router.rs:118-152` | inside quotes a backslash before anything but the quote and itself stays |
| `ToolCommand.WhitespaceExactly` | `openjax-core/src/tools/router.rs:96-104` | white space is the twenty-five code points of the Unicode property |
| `AgentTurn.Agent.constructor` | `openjax-core/src/agent/bootstrap.rs:95-102` | an agent that has done nothing yet |
| `AgentTurn.Agent.FailTurn` | `openjax-core/src/agent/tool_executor.rs:104-114` | failing sends the error event and ends the turn's phase as failed |
| `AgentTurn.Agent.RecordToolCall` | `openjax-core/src/agent/state.rs:73-95` | the call is remembered with its outcome and epoch, and only the last sixteen are kept |
| `AgentTurn.Agent.ExecuteToolCall` | `openjax-core/src/agent/tool_executor.rs:20-191` | a call that passed the guards runs the tool once and books the answer |
| `AgentTurn.Agent.OnToolOk` | `openjax-core/src/agent/tool_executor.rs:56-134` | epoch, loop detector, warning or halt, then the books: a halt aborts before the call is counted |
| `AgentTurn.Agent.OnToolErr` | `openjax-core/src/agent/tool_executor.rs:135-190` | an error is remembered as failed, counted, and ends the turn only if an approval was blocked |
| `AgentTurn.Agent.ExecuteNativeToolCall` | `openjax-core/src/agent/planner_tool_action.rs:14-36` | blank names abort, duplicates are skipped (the second in a row aborts), everything else runs |
| `AgentTurn.Agent.DropToolCalls` | `openjax-core/src/agent/planner.rs:319-352` | calls over the budget are reported as failed, each with two events, and never run |
| `AgentTurn.Agent.RunToolCalls` | `openjax-core/src/agent/planner.rs:354-386` | the batch loop counts successes and failures and stops at the first abort |
| `AgentTurn.Agent.PlannerRound` | `openjax-core/src/agent/planner.rs:107-402` | one planner round: failure, final answer with commit, or a batch within the remaining budget |
| `AgentTurn.Agent.ExecuteTurn` | `openjax-core/src/agent/planner.rs:56-446` | the whole turn is the loop of rounds under both budgets, with a reset detector, and the limit error after it |
| `AgentTurn.Agent.SubmitTurn` | `openjax-core/src/agent/turn.rs:17-56` | a user's turn starts with an empty memory of calls |
| `AgentTurn.RunCallsCounts` | `openjax-core/src/agent/planner.rs:315-386` | a finished batch has succeeded plus failed equal to its tool uses, and executed exactly as many tools as it counted |
| `AgentTurn.RoundCounts` | `openjax-core/src/agent/planner.rs:107-402` | a round uses one planner round, stays within the tool budget and commits only when it completes the turn |
| `AgentTurn.TurnEnds` | `openjax-core/src/agent/planner.rs:107-446` | from the head of the loop, however the turn ends, both budgets hold, the commit happens once if completed and never otherwise; the phase stays resumed if and only if a limit was reached after at least one round; tools run exceed tools counted by one if and only if the loop detector halted the turn |
| `AgentTurn.LimitLeavesResumed` | `openjax-core/src/agent/planner.rs:398-446` | a concrete turn: one read, then the limit, and the phase is resumed, not failed |
| `AgentTurn.HaltLeavesUncounted` | `openjax-core/src/agent/tool_executor.rs:83-117` | a concrete turn: six reads in one batch run six tools and count five |
| `AgentTurn.BudgetsAndCommit` | `openjax-core/src/agent/planner.rs:56-446` | for every model and every tool behaviour a turn runs at most its maximum of tools and rounds, and history grows by exactly the completed response if and only if the phase ends completed |
| `AgentTurn.CallSends` | `openjax-core/src/agent/tool_executor.rs:20-191` | the events of one call in each of its outcomes, in order, and what it returns |
| `AgentTurn.BatchesAddUp` | `openjax-core/src/agent/planner.rs:297-396` | the events of every turn follow a protocol to its end: each started call comes out once under its own id, each batch closes with exactly the numbers that came out well and badly and these add up to the number proposed, the second duplicate with no call run in between aborts the turn and the first does not, and nothing follows the end |
| `AgentTurn.CompletedExactly` | `openjax-core/src/agent/planner.rs:185-262` | a turn completes if and only if the model answers without tool uses, and its text is the one streamed live if there is any and the answer's own otherwise; it ends with a model error if and only if the last request got one |
| `AgentTurn.RoundTells` | `openjax-core/src/agent/planner.rs:315-402` | a round that goes on has given every tool use its result if and only if none was dropped; if one was, what is left of the budget is the number of calls skipped as duplicates |
| `AgentTurn.AnsweredExactly` | `openjax-core/src/agent/planner.rs:107-402` | for every model and every tool behaviour, a planner request holds exactly one result, in order, for every earlier tool use of the turn if and only if no tool use was dropped before it; and where one was, a call was skipped as a duplicate |
| `AgentTurn.UnansweredRequest` | `openjax-core/src/agent/planner.rs:315-402` | a concrete turn: of three equal searches on a budget of two one is run, one skipped and one dropped, and the model is asked again with a tool use that has no result |
| `AgentTurn.NeverRepeatsRemembered` | `openjax-core/src/agent/tool_guard.rs:67-130` | no two remembered successful guarded calls of one epoch are equal, after any turn that starts so |
| `AgentTurn.CallRunExactly` | `openjax-core/src/agent/tool_guard.rs:67-130` | a call with a name is passed over if and only if it repeats a success, and then no tool runs; otherwise its tool runs once |
| `AgentTurn.PassedOverExactly` | `openjax-core/src/agent/state.rs:55-95` | over every turn a user starts: passed over were exactly the calls, of tools that are not exempt, with the same name and arguments as a success among the last sixteen finished calls with no changing tool having replied since; all other calls were run |
| `AgentTurn.SixInARowEndTheTurn` | `openjax-core/src/agent/tool_executor.rs:83-117` | six equal checked calls in a row can only be the last six of a turn that failed, whatever the agent remembered before |
| `LoopDetector.Detector.constructor` | `openjax-core/src/agent/loop_detector.rs:20-28` | a fresh detector |
| `LoopDetector.Detector.CheckAndAdvance` | `openjax-core/src/agent/loop_detector.rs:30-57` | the in-place check returns the signal and moves window, state and warned key as the specification does |
| `LoopDetector.Detector.Reset` | `openjax-core/src/agent/loop_detector.rs:69-74` | a reset forgets everything |
| `LoopDetector.CheckRefines` | `openjax-core/src/agent/loop_detector.rs:30-57` | one check of the sixteen-entry detector gives the signal of one that remembers all keys, and keeps them related |
| `LoopDetector.WindowHolds` | `openjax-core/src/agent/loop_detector.rs:30-57` | the window holds the last sixteen recorded keys |
| `LoopDetector.WindowIsEnough` | `openjax-core/src/agent/loop_detector.rs:30-57` | over any run the signals are those of the unbounded detector: Halt exactly after a warning on the same key, else Warned exactly when the last five recorded keys are equal |
| `LoopDetector.SixInARowHalt` | `openjax-core/src/agent/loop_detector.rs:30-57` | any six equal calls in a row contain a Halt |
| `History.Conversation.constructor` | `openjax-core/src/agent/bootstrap.rs:95-102` | a conversation starts with an empty history |
| `History.Conversation.CommitTurn` | `openjax-core/src/agent/state.rs:97-128` | a commit appends the turn and drops the oldest turns beyond the hundredth, never a summary |
| `History.Conversation.RetainAfter` | `openjax-core/src/agent/state.rs:112-127` | the filtering pass drops the first turns up to the overflow and keeps everything else |
| `History.Conversation.DoCompact` | `openjax-core/src/agent/state.rs:136-189` | a compaction replaces the history, clears the token count and reports its counts, or skips and changes nothing |
| `History.CommitTells` | `openjax-core/src/agent/state.rs:97-128` | on a history of that shape a commit keeps the summary and the last hundred turns |
| `History.SplitBuild` | `openjax-core/src/agent/context_compressor.rs:9-26` | the split is refused up to four turns and otherwise separates the last three turns from all before |
| `History.CompactTells` | `openjax-core/src/agent/context_compressor.rs:69-99` | a compaction succeeds if and only if there are more than four turns and the model answers; it keeps exactly the last three, and compressed plus retained is the old number of turns |
| `History.RunTells` | `openjax-core/src/agent/state.rs:97-189` | every history reached by commits and compactions is a summary or none followed by at most a hundred turns, which are the latest committed ones in order |
| `History.ReachableShape` | `openjax-core/src/agent/state.rs:97-189` | in every reachable history a summary can only be first and the turns are a suffix of all turns ever committed |
| `History.CompactTwice` | `openjax-core/src/agent/context_compressor.rs:9-26` | compacting again at once does nothing, whatever the model would answer |
| `Policy.PrecedenceLaws` | `openjax-policy/src/engine.rs:27-40` | the comparator is antisymmetric, and ties exactly for equal priority, specificity, decision and id |
| `Policy.PrecedenceTransitive` | `openjax-policy/src/engine.rs:27-40` | the comparator is transitive |
| `Policy.MaxByIsMax` | `openjax-policy/src/engine.rs:6-9` | the chosen candidate takes precedence over or ties with every other |
| `Policy.DecidedByWinner` | `openjax-policy/src/engine.rs:5-25` | a decision is that of a matching rule no matching rule precedes, and the default exactly with its reason when nothing matches |
| `Policy.MatchesExactly` | `openjax-policy/src/schema.rs:53-62` | a rule matches if and only if the input offers all it demands, field by field, capability by capability, tag by tag |
| `Policy.SpecificityCounts` | `openjax-policy/src/schema.rs:64-72` | its specificity is the number of its different demands |
| `Policy.GivesWayExactly` | `openjax-policy/src/engine.rs:27-40` | one rule yields to another, or ties, if and only if it has lower priority; at equal priority, fewer demands; with equally many, the laxer kind; of one kind, the id that comes later in the dictionary or the same one |
| `Policy.DecidesExactly` | `openjax-policy/src/engine.rs:5-25` | the decision is that of a rule that applies and to which every rule that applies yields, whichever such rule is taken; with no rule that applies it is the default with its own reason |
| `Policy.StricterDecides` | `openjax-policy/src/schema.rs:14-21` | of two rules that apply with equal priority and equally many demands the stricter decides, in either order of listing |
| `Policy.OrderIrrelevant` | `openjax-policy/src/engine.rs:5-25` | any other listing of the same rules, with repetitions and equal ids, gives the same kind, rule id and version |
| `Policy.LastWinnerDecides` | `openjax-policy/src/engine.rs:6-9` | of tying winners the one listed last gives the reason |
| `Policy.ReasonExact` | `openjax-policy/src/engine.rs:5-25` | the whole decision is the same for every reordering if and only if all winners give one reason |
| `Policy.ReasonFollowsOrder` | `openjax-policy/src/engine.rs:10-14` | two concrete rules that tie with different reasons: the reason follows the order of listing |
| `Policy.DecidesKindExactly` | `openjax-policy/src/engine.rs:5-25` | a decision is of a given kind if and only if every matching rule of another kind is outranked by a matching one of that kind; when nothing matches, the default decides |
| `Policy.UniqueIdsOrderFree` | `openjax-policy/src/engine.rs:5-25` | with unique ids the whole decision, reason included, is the same for every reordering |
| `PolicyRuntime.Runtime.constructor` | `openjax-policy/src/runtime.rs:23-32` | the first snapshot has version one and no overlays |
| `PolicyRuntime.Runtime.PublishStore` | `openjax-policy/src/runtime.rs:44-50` | publishing replaces the store, keeps the overlays and raises the version by one |
| `PolicyRuntime.Runtime.SetSessionOverlay` | `openjax-policy/src/runtime.rs:52-67` | setting an overlay touches that session only and raises the version by one |
| `PolicyRuntime.Runtime.ClearSessionOverlay` | `openjax-policy/src/runtime.rs:69-79` | clearing an overlay touches that session only and raises the version by one, even when there was none |
| `PolicyRuntime.Runtime.Swap` | `openjax-policy/src/runtime.rs:85-91` | the swap installs the new snapshot and returns its version |
| `PolicyRuntime.RunMeaning` | `openjax-policy/src/runtime.rs:44-91` | after any run of changes the version has risen by one per change, the store is the last one published, and each session has the overlay it was last given unless cleared |
| `PolicyRuntime.HandleMeaning` | `openjax-policy/src/runtime.rs:122-143` | what a handle taken after any run of changes answers: the session's last overlay decides if a rule of it matches, otherwise the last published store, with the version of that moment |
| `PolicyRuntime.OwnChangesOnly` | `openjax-policy/src/runtime.rs:122-143` | two histories with the same last store and the same last overlay of a session decide its inputs alike but for the version |
| `PolicyRuntime.OverlaysIsolated` | `openjax-policy/src/runtime.rs:52-79` | overlay changes of other sessions, any number of them, leave a session's decisions unchanged but for the version |
| `PolicyRuntime.EscalatesExactly` | `openjax-policy/src/store.rs:10-31` | a destructive input escalates if and only if each matching user rule of another kind is outranked by the built-in rule or by a matching user rule that escalates |
| `PolicyRuntime.RunEscalatesExactly` | `openjax-policy/src/runtime.rs:122-143` | the same after any run of changes: an overlay of the session with a matching rule decides alone, by its own rules, otherwise the last store's user rules and the built-in rule do |
| `PolicyRuntime.DestructiveEscalates` | `openjax-policy/src/store.rs:10-31` | after any run of changes a destructive input escalates, by the built-in rule, as long as user rules stay below its priority and no overlay rule of the session matches |
| `PolicyRuntime.HigherPriorityAllows` | `openjax-policy/src/store.rs:10-31` | a single user rule above the built-in priority allows a destructive input |
| `Orchestrator.InjectTags` | `openjax-core/src/tools/orchestrator.rs:338-350` | the loop adds each tag that is not there yet |
| `Orchestrator.Inject` | `openjax-core/src/tools/orchestrator.rs:338-350` | the result has exactly the descriptor's tags and the command's |
| `Orchestrator.NoRuntimeExactly` | `openjax-core/src/tools/orchestrator.rs:333-386` | with no policy runtime a call is allowed if and only if its tool has a descriptor with no risk tag, escalated if and only if one of them is destructive, never denied, and asked about otherwise |
| `Orchestrator.ShellDecision` | `openjax-core/src/sandbox/policy.rs:112-140` | for a readable shell command this comes down to its text: allowed if and only if it yields no tag, escalated if and only if it contains a destructive pattern |
| `Orchestrator.ShellAllowedExactly` | `openjax-core/src/sandbox/policy.rs:112-225` | a readable shell command is allowed if and only if no extended rights are asked for, its lower-cased text has none of the listed signs of risk, and its first word sets no variable |
| `Orchestrator.TagsExactly` | `openjax-core/src/sandbox/policy.rs:112-140` | each of the five tags is found if and only if its own signs stand in the text |
| `Orchestrator.NormalizeWords` | `openjax-core/src/tools/orchestrator.rs:340-341` | words set apart by any white space come out set apart by single spaces |
| `Orchestrator.OtherToolsExactly` | `openjax-core/src/tools/orchestrator.rs:333-386` | other tools, and shell tools whose arguments cannot be read: reading and observing tools and the shell are allowed, edits and unknown tools are asked about |
| `Orchestrator.NoRuntimeBecause` | `openjax-core/src/tools/context.rs:49-63` | each such decision names the rule it comes from and its reason |
| `Orchestrator.OffersExactly` | `openjax-core/src/tools/context.rs:106-165` | what an invocation offers to the rules of a policy runtime, fact by fact: tool, action, session, actor, resource, capabilities and tags |
| `Orchestrator.DestructiveTag` | `openjax-core/src/sandbox/policy.rs:112-124` | the destructive tag is there if and only if the lower-cased command contains one of the destructive patterns |
| `Orchestrator.AllowRuleMatches` | `openjax-core/src/tools/context.rs:49-63` | the rule generated for a tool matches the input generated for that tool |
| `Orchestrator.ToolOrchestrator.constructor` | `openjax-core/src/tools/orchestrator.rs:30-49` | no turn is approved at first |
| `Orchestrator.ToolOrchestrator.Run` | `openjax-core/src/tools/orchestrator.rs:60-271` | one call through the gate: a denial refuses, a needed approval is asked for, and only then the call is dispatched |
| `Orchestrator.ToolOrchestrator.RecordMutatingApproval` | `openjax-core/src/tools/orchestrator.rs:287-299` | an approval is recorded for the turn of a non-shell mutating call only, and the set is emptied when it grows over its bound |
| `Orchestrator.InvAlways` | `openjax-core/src/tools/orchestrator.rs:60-299` | the gate's invariant holds however the steps of any number of calls interleave |
| `Orchestrator.DispatchIsEntitled` | `openjax-core/src/tools/orchestrator.rs:60-299` | every dispatched call was allowed, or was approved itself before, or is a non-shell mutating call in whose turn such a call was approved before; a denied call never is; at most 256 turns are recorded |
| `Orchestrator.RunCallExactly` | `openjax-core/src/tools/orchestrator.rs:60-299` | a call is denied, asked about or dispatched by its decision, its answer and whether it is an edit in a turn that has an approval; an approved edit records its turn, or empties the record at the two hundred and fifty-seventh |
| `Orchestrator.AskedExactly` | `openjax-core/src/tools/orchestrator.rs:273-299` | however calls interleave, a new call waits for an answer if and only if the policy asks and it is no edit in a turn in which an edit has been approved, as long as at most 256 turns have been |
| `Orchestrator.AnswerDecides` | `openjax-core/src/tools/orchestrator.rs:120-250` | a waiting call goes the way of its answer, a ready one is sent, and nothing else moves |
| `Orchestrator.RunIsThreeSteps` | `openjax-core/src/tools/orchestrator.rs:60-271` | an uninterrupted run of one call is its three steps in a row |
| `RateLimit.SlidingWindowRateLimiter.constructor` | `openjax-gateway/src/auth/rate_limit.rs:12-18` | no bucket at first |
| `RateLimit.SlidingWindowRateLimiter.Allow` | `openjax-gateway/src/auth/rate_limit.rs:20-34` | the popping loop drops what is older than the window and the rest decides, for this key's bucket only |
| `RateLimit.RunMatches` | `openjax-gateway/src/auth/rate_limit.rs:20-34` | a key's bucket is a suffix of all its admissions, and what is missing is out of every later window |
| `RateLimit.AnswersByTheRule` | `openjax-gateway/src/auth/rate_limit.rs:20-34` | with a clock that never runs backwards a call is refused if and only if the limit was already let through in the closed window ending now, and never more than the limit were |
| `RateLimit.IntervalBound` | `openjax-gateway/src/auth/rate_limit.rs:20-34` | every closed interval as long as the window holds at most the limit of a key's admissions |
| `RateLimit.KeysIndependent` | `openjax-gateway/src/auth/rate_limit.rs:20-34` | a key's bucket is the same as if nobody else had called, even when the clock runs backwards |
| `Replay.ReplayBuffer.constructor` | `openjax-core/src/streaming/replay.rs:17-23` | an empty buffer of capacity at least one |
| `Replay.ReplayBuffer.Push` | `openjax-core/src/streaming/replay.rs:25-33` | a push returns the next sequence number and keeps the last entries up to the capacity |
| `Replay.ReplayBuffer.ReplayFrom` | `openjax-core/src/streaming/replay.rs:35-57` | stated against everything ever pushed: exactly what follows the cursor if none of it has been lost, otherwise the window error with the first cursor that would do, and without a cursor all that is retained |
| `Replay.ReplayBuffer.LastSeq` | `openjax-core/src/streaming/replay.rs:59-61` | the number of entries ever pushed |
| `Replay.ReplayExact` | `openjax-core/src/streaming/replay.rs:35-57` | a cursor is served if and only if nothing after it has been lost, and then with exactly everything pushed after it; the error names the first cursor that would be served |
| `Replay.ReplayAll` | `openjax-core/src/streaming/replay.rs:35-57` | without a cursor all retained entries come back |
| `SessionEvents.SessionRuntime.constructor` | `python/backend/app.py:52-55` | an empty log |
| `SessionEvents.SessionRuntime.Publish` | `python/backend/app.py:58-90` | the event gets the next session number and its turn's next number, and the log keeps the last events up to the limit |
| `SessionEvents.SessionRuntime.CountUp` | `python/backend/app.py:68-72` | a named turn's counter goes up by one, an unnamed one has number zero |
| `SessionEvents.NumberedExactly` | `python/backend/app.py:58-90` | the kept events are numbered from one in the session and from one in their turn, with zero for no turn, and carry what was published |
| `SessionEvents.SessionRuntime.ReplayFrom` | `python/backend/app.py:92-101` | stated against everything ever published: all that is kept without a cursor or for cursor zero, exactly what follows any other cursor if none of it has been trimmed, and the window error otherwise |
| `SessionEvents.Subscriber.constructor` | `python/backend/app.py:337-346` | after a replay the cursor stands at the highest number sent |
| `SessionEvents.Subscriber.OnEvents` | `python/backend/app.py:352-366` | the loop skips what is not newer than the cursor and sends the rest |
| `SessionEvents.ReplayExact` | `python/backend/app.py:92-101` | a cursor other than zero is served if and only if nothing after it has been trimmed, and then with the exact suffix; a negative one never is |
| `SessionEvents.ReplayFromZero` | `python/backend/app.py:92-101` | cursor zero counts as none: it is always served, and trimmed events are skipped silently |
| `SessionEvents.TrimBoundsExactly` | `python/backend/app.py:86-88` | the log is held to its limit if and only if the limit is positive or the log is empty; with limit zero nothing is ever trimmed |
| `SessionEvents.AlwaysIncreasing` | `python/backend/app.py:337-366` | under any interleaving of publishing and polling a subscriber sees published events only, in strictly increasing order |
| `SessionEvents.PollGapFreeExactly` | `python/backend/app.py:103-109` | a poll leaves no gap if and only if nothing after the cursor has been trimmed, that is, the publisher is at most the limit ahead |
| `SessionEvents.KeepingUpIsGapFree` | `python/backend/app.py:337-366` | over any run a subscriber has received everything after its starting point if and only if it kept up before every poll: a gap once made is never closed |
| `SessionEvents.SubscriptionStarts` | `python/backend/app.py:337-350` | a successful replay leaves the subscriber in order and without gap after its cursor, or, without one, after what was already trimmed |
| `ShellBlock.ParseShellDisplayOutput` | `openjax-core/src/tools/router_impl.rs:238-292` | the loop over header lines, last one wins, computes the recursive reading; a missing marker or required field fails |
| `ShellBlock.DisplayIs` | `openjax-core/src/sandbox/mod.rs:233-261` | the printed block and the model content in full, line by line |
| `ShellBlock.CarriageReturns` | `openjax-core/src/tools/router_impl.rs:243-292` | a carriage return before a line break belongs to the break, alone it stays |
| `ShellBlock.FirstMarker` | `openjax-core/src/tools/router_impl.rs:238-241` | with no stdout marker in the header the first marker is the printed one, whatever the output contains |
| `ShellBlock.ContentRebuilt` | `openjax-core/src/tools/router_impl.rs:301-308` | for arbitrary stdout and stderr the rebuilt content is the printed one, but for the stderr section, which is dropped only if stderr is empty |
| `ShellBlock.HeaderRead` | `openjax-core/src/tools/router_impl.rs:243-292` | single-line header fields read back to the metadata, reasons up to normal form |
| `ShellBlock.MetadataRecovered` | `openjax-core/src/sandbox/mod.rs:233-261` | printing and parsing with single-line header fields returns all metadata, with absent, empty and `none` reasons identified, and the model content |
| `ShellBlock.HeaderYields` | `openjax-core/src/tools/router_impl.rs:243-292` | whatever the fields contain, a printed header yields a result class, a backend, a policy decision and the printed exit code |
| `ShellBlock.FieldsAreLast` | `openjax-core/src/tools/router_impl.rs:243-292` | reading any header lines gives each field the value on the last line that starts with its name |
| `ShellBlock.ReadBackExactly` | `openjax-core/src/tools/router_impl.rs:238-292` | for any header whatever the parser reads what comes before the header's own first marker: every recovered field is the one on its last line there, and the block is read back if and only if all required ones are; without a marker only the truth value of `runtime_allowed=` can be missing; the content is rebuilt if and only if the header has no marker |
| `ShellBlock.BlockExactly` | `openjax-core/src/tools/router_impl.rs:238-308` | for any header whatever the block comes back, metadata up to normal form and model content, if and only if the header has no marker of its own and the last line with its name holds the printed value of every field |
| `ShellBlock.MetadataExactly` | `openjax-core/src/tools/router_impl.rs:238-292` | for any header whatever the metadata alone comes back if and only if, up to the first marker, the last line with its name holds the printed value of every field and of the exit code |
| `ShellBlock.StderrLineSpoils` | `openjax-core/src/sandbox/mod.rs:275-295` | a concrete deny reason of two lines makes the whole block unreadable |
| `ShellBlock.StderrLineFlips` | `openjax-core/src/sandbox/mod.rs:275-295` | another one turns the runtime flag from false to true and is cut from the reason |
| `ShellBlock.StderrMarkerCuts` | `openjax-core/src/sandbox/mod.rs:275-295` | any deny reason with a line `stdout:` in the middle puts a marker into the header, and the block does not come back |
| `Providers.NormalizeIsStable` | `openjax-core/src/provider_store.rs:139-151` | a normalised name has lower-case letters, digits and inner underscores only, and normalising it again changes nothing |
| `Providers.NormalizeKeepsTheCore` | `openjax-core/src/provider_store.rs:139-151` | normalising keeps every letter and digit in place and trims nothing but other characters at the ends |
| `Providers.ActiveComesFirst` | `openjax-core/src/provider_store.rs:63-70` | reordering loses and invents no provider, and a stored active provider comes first |
| `Providers.OrderKept` | `openjax-core/src/provider_store.rs:63-70` | the providers with the active id keep their order, and so do all others |
| `Providers.TakenAreFew` | `openjax-core/src/provider_store.rs:81-85` | pigeonhole: the candidate ids are distinct, so at most as many of them are taken as there are models |
| `Providers.AssignId` | `openjax-core/src/provider_store.rs:77-85` | the dedup loop ends, for any models present, with the first candidate that is free |
| `Providers.AssignAll` | `openjax-core/src/provider_store.rs:72-108` | the loop over the providers gives each its id and files its entry under it |
| `Providers.EntryTells` | `openjax-core/src/provider_store.rs:87-107` | an entry has its provider's own fields, its vendor by the signs in its address and name, and a profile for the one protocol that needs one |
| `Providers.CandidatesAre` | `openjax-core/src/provider_store.rs:77-85` | the ids that are tried: the name, or the provider's id for an empty one, then the name with the numbers from two on |
| `Providers.FallbacksOf` | `openjax-core/src/provider_store.rs:111-117` | the fallbacks of a route are exactly the later routes, and the last route has none |
| `Providers.BuildModelTable` | `openjax-core/src/provider_store.rs:51-133` | the whole table: models, routes, fallbacks and the three stages on the first route; nothing for no providers |
| `Providers.RoutesAreFirstFree` | `openjax-core/src/provider_store.rs:77-85` | each id is new and is its provider's first candidate that no earlier provider has |
| `Providers.AllRoutesDistinct` | `openjax-core/src/provider_store.rs:81-86` | all ids differ |
| `Providers.NoneLost` | `openjax-core/src/provider_store.rs:87-107` | there are as many models as providers and each provider's entry is under its id |
| `Providers.ActiveIsPlanner` | `openjax-core/src/provider_store.rs:110-131` | a stored active provider is the planner route under its plain, unnumbered id |
| `Providers.ChainsEnd` | `openjax-core/src/provider_store.rs:111-117` | any chain that follows fallbacks visits each route at most once and is no longer than the number of models |
| `ListDir.CollectDirEntries` | `openjax-core/src/tools/list_dir.rs:130-202` | the queue-driven walk ends, fails if and only if it must open an unreadable directory, and otherwise collects exactly the multiset of the recursive listing |
| `ListDir.OpenDirectory` | `openjax-core/src/tools/list_dir.rs:193-198` | one directory's entries are listed and its subdirectories queued while depth remains |
| `ListDir.EntryTells` | `openjax-core/src/tools/list_dir.rs:150-190` | an entry has its node's kind, depth and size, and a name and a key cut to the longest part of five hundred bytes |
| `ListDir.OneDirectory` | `openjax-core/src/tools/list_dir.rs:139-199` | opening one directory keeps the total of listed and pending entries and leaves less to do |
| `ListDir.EntriesHavePaths` | `openjax-core/src/tools/list_dir.rs:130-202` | every listed entry is that of the node at some path of at most `depth` names |
| `ListDir.PathsAreListed` | `openjax-core/src/tools/list_dir.rs:130-202` | every node at such a path is listed |
| `ListDir.ListDir` | `openjax-core/src/tools/list_dir.rs:67-128` | the argument errors in order, an unreadable directory, and otherwise one page of some sorted listing |
| `ListDir.ListingUniqueExactly` | `openjax-core/src/tools/list_dir.rs:106-106` | two calls see one and the same listing, in whatever order equal keys come, if and only if entries with equal keys are equal |
| `ListDir.PagesConcatenate` | `openjax-core/src/tools/list_dir.rs:93-128` | then consecutive pages of any sizes join to the listing from the first offset on, and the last page announces nothing more if and only if it is complete |
| `ListDir.PlainTreesPage` | `openjax-core/src/tools/list_dir.rs:204-211` | that is so for every tree of distinct ordinary file names within the length limit |
| `ListDir.PagesCompleteExactly` | `openjax-core/src/tools/list_dir.rs:93-128` | pages that announce nothing more show every entry exactly as often as it is there, in whatever order equal keys come and however the pages are cut, if and only if no two different entries share a key |
| `ListDir.ClashSplitsPages` | `openjax-core/src/tools/list_dir.rs:93-128` | for every tree with such a pair there are answers that show one of the two once too often and lose the other |
| `ListDir.BackslashClashes` | `openjax-core/src/tools/list_dir.rs:204-211` | a file named `a\b` beside `a/b`: a concrete tree, its entries, and pages that repeat one of the two and lose the other |
| `ListDir.TakeBytesFits` | `openjax-core/src/tools/list_dir.rs:204-220` | a cut name is the longest prefix within the byte limit, and a name within it is not cut |

## Left out

- HTTP, server-sent events, timeouts, logging, the terminal and web front ends: plumbing with no state of their own.
- SQL and SQLite: the auth tables are maps, a uniqueness violation is an outcome, a failing disk is not modelled.
- Time stamps as RFC 3339 text: times are integers.
- Random ids, tokens and hashes: parameters; what needs them to be new says so.
- `list_sessions` and the descriptive columns of a session (scope, device name, platform, user agent): they take no part in any decision.
- `serde_json`: tool arguments are parsed by an arbitrary function; payloads are the fields the code looks into.
- The decision module's other functions (`parse_model_decision`, `normalize_tool_calls`, `canonical_tool_name`): pure reading of parsed values.
- The grammar of numbers, `true`, `false` and `null`, and the ban on control characters in strings: the trees admit more texts than RFC 8259, which only widens the claims about documents.
- Stop reasons are kept as the text they come in.
- Token usage and debug counters of both streaming clients, and streams without a subscriber: the events are then simply not sent.
- Frames that arrive after the end of a chat-completion stream: the code reads no tool calls from them.
- Byte offsets in the command line parser: the cursor counts characters, so that a cursor is never inside a character.
- The `u32` counters of a batch and the saturating epoch: unbounded here.
- Rate limiting and automatic compaction inside a turn, the recovery prompt, git and skill observation, the text of messages and traces: they do not touch the budgets or guards.
- Hash-map order in the loop detector's argument text: the text is an opaque part of the key.
- The tools' own work, the sandbox, hooks, approval previews and approval timeouts as durations: an approval is one of four answers.
- Reading a shell tool's arguments: an invocation says what they are, if they can be read at all.
- The file-system and environment capabilities of `detect_capabilities`: of its findings only writing decides a tag.
- Shared pointers and locks of the policy runtime: a handle is the snapshot it was taken from, so that it cannot change holds by construction.
- `saturating_add` at the end of the sequence numbers of the replay buffer.
- The wire form of Python events and the waiting itself: a poll is one step.
- The summary's prompt and the token ratio that triggers compaction (a floating-point comparison): the model's reply is a parameter.
- Windows paths, unreadable single entries, and the text of a listed line with its rounded size: a page is a list of entries.
- ListDir.ListDir: equal keys may come in any order, as with an unstable sort on a directory that is read anew.
- The non-model parts of the configuration and the constants of a model entry: the same for every provider.
- The fallback lists are built but the model router never follows them; `Providers.ChainsEnd` is about the lists.
