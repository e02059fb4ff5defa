# LIM: the session, the speculative loop and the text layer

LIM keeps one KV cache alive for a whole chat session.  This project models the code
that keeps the objects of a session in step, and proves what that code promises.

- `KvMemory` is the memory of one sequence: attention rows, recurrent state with its
  snapshot planes, and the stack of recurrent checkpoints.  A recurrent state is
  represented by the tokens it has consumed.  The operations follow the vendored
  `llama-memory-recurrent.cpp`, not the comments about it elsewhere.
- `Model` is the decode wrapper.  A decode takes all rows, or fails and keeps a prefix of
  them; every failure is counted in a ghost field, so a contract can say that an operation
  fails only when a decode failed or the user interrupted.
- `ChatSession` holds the session transitions: feeding, the tool-call hook, the prompt
  return, undo, the tool-correction rollback, fast and slow restore, the canary rollback,
  reincarnation, and benchmark modes 1 and 2.  A session as a value is a `View`, and the
  conditions under which an operation keeps the invariant are predicates of the `View`
  before it.
- `PlainLoop` is token generation without speculation; `Generation` is the speculative loop
  of the program, over the same session and memory.  The drafts are arbitrary.  The sampler
  is any function of its own call history and of the row it is asked about, and a row is the
  pair of attention and recurrent contents its logits were computed from.
- `Requests` says what a user can ask for, what each request needs of the session, and what it
  does to the conversation: `Served` relates the session before a request to the one behind it
  through the generations in between, each of them a run of the plain loop.
- `WholeRun` composes everything: prompts, resumed turns, undos, clears, restores and
  reincarnations in any order, requested by a user who sees the session.
- `Shortfalls` holds concrete states in which the code misses what its comments promise.
- `Mirror` is the second cache that speculation drafts from.
- `Escape`, `TextSearch`, `ToolCall`, `Parameters`, `CallStream`, `TurnTokens` and `ThinkScan` are
  the text layer: the backslash escape, the end of a tool call, parameter extraction, the check for
  the end while a call is generated, the tokens to escape, and the incremental scans.
- `SaveFile` and `KvCache` are the save file as bytes and the cache directory.
- `TurnLoop` is the auto-continue loop around the generations of one turn.

The main invariant is `ChatSession.Session.Inv`: tracker, `n_past` and attention rows are
equal, the recurrent state is that of the same tokens, every checkpoint is a position of the
tracker, and stack entry `j` is the recurrent state of checkpoint `j + offset`, with one more
entry exactly while the turn's tool slot is pushed.

`WholeRun.Serve` is the main result about it.  A request is `Trusted` if a condition on it and
on the session before it holds: a correction's reminder outgrows the snapshot window, an undo
meets `InstantUndoSound`, a restored list is sound, a probe outgrows the window, a mode 2 request
meets `DriftSound`, a resume without prefill finds nothing pending, a reincarnation finds no slot
left over and its prompt fits.  For undo, both restores and the prompt return the condition is
exact; for a resume, a mode 2 request that matches completely, a reincarnation and the reminder's
length it is sufficient only.  What can still lose the invariant is `Excused`: a decode that failed
or a feed that was interrupted in that request, the exits of items 2 and 3 with more than one draft
per round, and a correction behind a checkpoint.

What is in the conversation is said without the functions that the loops are proved against.
`PlainLoop.RunSays` and `Generation.TokenGenerator.EndedSays` say of every token a generation adds
which call of the sampler gave it and about which row; `Requests.ResultsInPlace` and
`Requests.CorrectionInPlace` say of every generation of a turn what stands behind it;
`Requests.PromptAnswered` and `Requests.ResumeAnswered` what stands in front of the first.

`Requests.DraftsDoNotShow` and `Requests.RunsAreAlike` say what speculation means for the user: two
undisturbed sessions that are asked the same say the same, however many drafts each of them
speculates with and whatever the drafts were.  `Requests.DeltaRefinesWhole` says the same of
benchmark modes 1 and 2: the answer to a request does not depend on how much of it was in the cache,
item 16 apart.

## Where the code falls short of its comments

The model follows the code.  Each of these is stated as the exact condition under which the
promise holds, and with a state in which it does not.

1. `llama-memory-recurrent.cpp:203-216` checks the snapshot window before the restore flag.
   A restore followed by a roll-back that fits the window therefore takes the old snapshot and
   leaves the flag set, and a later roll-back is accepted with a wrong state
   (`KvMemory.RestoredRollbackExact`, `KvMemory.StaleRestoreFlagAcceptsWrongState`).  This is
   why undo, correction, canary and mode 2 are exact only for distances outside the window.
2. A checkpoint save copies the newest plane and ignores a pending roll-back
   (`llama-memory-recurrent.cpp:436-477`), so a turn that ends by rolling back verify rows saves
   a state that is ahead (`KvMemory.SaveExactUnlessPending`, `ChatSession.Session.PromptReturn`;
   `Shortfalls.SaveWhilePending`, `Shortfalls.InterruptedRound`).
3. The thinking tripwire on the last match of a round leaves the memory one token ahead
   (`token_generator.cc:743-750`, `:876-907`, `:1389`; `Shortfalls.TripOnLastMatch`).
   `Generation.TokenGenerator.Generate` proves that this is the only exit that does, and that it
   needs more than one draft per round.
4. An instant undo does not reset the tool slot, and below the oldest stack entry it leaves the
   stack as it is (`session.cc:2641-2677`).  `ChatSession.Session.Undo` gives the exact condition
   (`Shortfalls.UndoOnStaleSlot`, `Shortfalls.UndoBelowStack`).
5. A fast restore aligns the stack only if the last saved checkpoint is at the end of the tokens,
   or there are no checkpoints and no canary (`session.cc:2016-2033`;
   `ChatSession.Session.FastRestore`, `Shortfalls.RestoreBehindCheckpoint`).
6. A correction can roll back behind the newest checkpoint after a 90% crossing
   (`session.cc:3690-3706`, `:761-775`; `ChatSession.Session.RollbackToToolCheckpoint`,
   `Shortfalls.CorrectionBehindCheckpoint`, `TurnLoop.CorrectionGoesBack`).
7. A reincarnation whose prompt cannot be fed keeps the old stack bookkeeping
   (`session.cc:1752-1773`; `Shortfalls.RebirthThatDoesNotFit`), and one that is asked for right
   after an ejected correction forgets that correction's slot while its entry stays on the stack
   (`session.cc:949-960`, `:2900`; `Shortfalls.RebirthOverSlot`).
8. The decode that closes a round after the loop, when it fails after writing its row, is rolled
   back to a snapshot that a one-row decode does not refresh (`token_generator.cc:1344-1366`;
   `Generation.TokenGenerator.SettleOrigin`, `Shortfalls.OriginOverStaleSnapshot`).
9. A correction regenerates with `auto_continue` off, and `session.cc:1407` then resets the depth
   counter, so the auto-continue cap does not bound chains of corrected calls
   (`TurnLoop.CapDoesNotBoundCorrections`); the context does (`TurnLoop.Trips`), and without
   corrections the cap does (`TurnLoop.CapBoundsTrips`).
10. `escape_tag` leaves a raw token behind exactly when the token has a border, as the HTML
    sentinels do (`Escape.ScanLeavesNoRawIffUnbordered`, `Escape.SentinelIsBordered`).
11. Mode 2 that cuts the cache at an older checkpoint keeps the entries in front of it and moves
    the offset past them, so the stack is never aligned afterwards (`session.cc:3231-3262`;
    `ChatSession.PrunedNeverFits`, `Shortfalls.DriftToOlderCheckpoint`); and one whose feed stops
    early keeps checkpoints behind the end of the tokens (`Shortfalls.InterruptedDelta`).
12. The comment at `session.cc:3606-3622` says that an ejected correction falls through to the
    prompt return.  It does not: the whole of step 8b ends in `continue` (`session.cc:3641`), so
    the slot stays pushed and the turn is not recorded.  `WholeRun.Leg` follows the code, and
    the slot that is left is the one of item 4.
13. When computing a micro-batch fails, its positions are removed but its snapshots were never
    written (`llama-context.cpp:1829-1860`).  The removal of a short one is accepted with a state
    that is too old (`KvMemory.FailedMicroBatch`).
14. The note about a changed repository is decoded without the mirror hook
    (`session_utils.cc:190-201`), which is harmless only while no draft rows are ahead
    (`Mirror.Speculator.DecodeUnhooked`).
15. While a call is generated, its closing tag is found as soon as only the last character is
    missing, and is then not taken because it cannot be repaired at the end of the text.  That
    relies on there being no other FUNC_END in the text (`token_generator.cc:938-947`): a call
    whose value holds one is taken to end in front of the last character of its closing tag
    (`CallStream.SeeToolEnd`, `CallStream.WatchCall`, `CallStream.EarlyEnd`).
16. A mode 2 request that the cache already holds as a whole feeds nothing (`session.cc:3286-3292`),
    so the row that is sampled behind it is whatever the batch was left with, not its own
    (`Shortfalls.DeltaWithoutFeed`); `ChatSession.Session.FeedDelta` and
    `Requests.DeltaRefinesWhole` say that every other request is sampled from its own row.

## Model

| member | source | states |
|---|---|---|
| KvMemory.Memory.SeqRm | llama/src/llama-memory-recurrent.cpp:167-261 | the roll-back refines the value-level one: window first, then the restore flag, else refused with nothing changed |
| KvMemory.Memory.Decode | llama/src/llama-batch.cpp:251-320 | a batch that does not start at the next position, or for which there is no room, writes nothing; any other takes all rows, or fails, is counted and keeps a prefix |
| KvMemory.CheckpointRoundTrip | llama/src/llama-memory-recurrent.cpp:436-563 | a checkpoint saved or overwritten at any entry and restored after more tokens than the window brings back rows and live state of the moment it was taken, with nothing pending and the entries up to it kept |
| KvMemory.DecodeRefreshes | llama/src/models/delta-net-base.cpp:546-603 | a decode of n tokens makes exactly the snapshots 0..n-1 (up to the window) right and keeps coherence |
| KvMemory.MicroBatchesAreOneDecode | llama/src/llama-batch.cpp:605-655 | for every batch and micro-batch size, decoding in micro-batches that keep the last n_rs_seq + 1 tokens together gives the rows, the live state and every snapshot of one decode |
| KvMemory.SplitKeepsSnapshots | llama/src/llama-memory-recurrent.cpp:592-598 | a second decode that covers the window leaves exactly the snapshots of one decode of both |
| KvMemory.FailedMicroBatch | llama/src/llama-context.cpp:1829-1860 | removing a failed micro-batch of n tokens is accepted if and only if n fits the window, and then the live state is right if and only if snapshot n already was; after a fresh decode it never is |
| KvMemory.DecodeAppends | llama/src/llama-memory-recurrent.cpp:1458-1476 | two decodes in a row leave the rows and the live state of one decode of both |
| KvMemory.FreshRollback | llama/src/llama-memory-recurrent.cpp:200-218 | rolling back inside freshly decoded rows always succeeds and is exact |
| KvMemory.PlainRollbackExact | llama/src/llama-memory-recurrent.cpp:200-218 | without a checkpoint a hybrid roll-back succeeds if and only if it fits the window, and is right if and only if the snapshot is |
| KvMemory.RestoredRollbackExact | llama/src/llama-memory-recurrent.cpp:200-218 | after a restore every roll-back succeeds; it is right if and only if the distance is zero, outside the window, or the snapshot happens to be right |
| KvMemory.StaleRestoreFlagAcceptsWrongState | llama/src/llama-memory-recurrent.cpp:200-218 | a concrete memory in which a left-over restore flag accepts a roll-back to a wrong state |
| KvMemory.SaveExactUnlessPending | llama/src/llama-memory-recurrent.cpp:436-477 | after a roll-back a save is exact if and only if nothing is pending |
| Model.HandleDecode | model.cc:550-590 | success is reported for exactly a return code of success, or for exhausted and aborted when the caller does not ask to break; it means that all rows were decoded if the code was success or the caller asked; an invalid or exhausted decode wrote nothing |
| ChatSession.Session.Feed | session.cc:847-906 | from a session in step, for every chunk size, interrupt and decode outcome, the tracker gains exactly the decoded prefix, all of it on success; tracker, memory and n_past agree on return; a failure means a failed decode or an interrupt |
| ChatSession.Session.QueueAndDecode | session.cc:847-890 | the chunked loop decodes a prefix of the tokens in order, and all of them unless it reports a failure |
| ChatSession.Session.SettleFeed | session.cc:880-906 | what was decoded is re-attached to the tracker on every failure path |
| ChatSession.Session.BeginGeneration | session.cc:1452-1456 | a stale slot flag is dropped exactly if the turn has no slot and this is no correction |
| ChatSession.Session.OnToolStart | session.cc:1471-1501 | the hook keeps the stack aligned; in lockstep the slot holds the state of exactly the target position, otherwise nothing is saved |
| ChatSession.Session.PromptReturn | session.cc:3659-3735 | the checkpoint bookkeeping is exact; the invariant holds again if and only if no stack entry is written or no roll-back is pending (rs_idx is 0) |
| ChatSession.Session.RecordTurn | session.cc:3662-3717 | a finished turn gets one checkpoint and one stack entry, the tool slot's if there was one |
| ChatSession.Session.AdvanceCheckpoint | session.cc:3718-3735 | a resumed turn's provisional checkpoint moves to the turn's end, label kept |
| ChatSession.Session.ClearSession | session.cc:457-466 | always ends in a fresh session that holds a prefix of the system prompt and satisfies the invariant |
| ChatSession.Session.ClearContext | session.cc:921-947 | the memory is emptied and only the system prompt is fed again |
| ChatSession.Session.Undo | session.cc:2594-2766 | the instant path is taken if and only if a stack entry or the memory allows it; both paths end at exactly the target's tracker and checkpoints; a failed re-decode gives a fresh session; the invariant holds again if and only if the path was not instant or InstantUndoSound held before |
| ChatSession.Session.TryInstant | session.cc:2610-2677 | the instant roll-back succeeds exactly under InstantUndo and is coherent exactly under InstantUndoRight |
| ChatSession.Session.InstantUndoInv | session.cc:2627-2677 | the stack and flags an instant undo leaves are aligned exactly under InstantUndoSound |
| ChatSession.Session.Regenerate | session.cc:2678-2750 | the fallback decodes exactly the kept prefix and makes it the only live checkpoint |
| ChatSession.Session.ForgetAfter | session.cc:2753-2764 | the checkpoints behind the target are erased and the offset counts those without stack entries |
| ChatSession.Session.FindAnchor | session.cc:761-775 | the newest checkpoint with a stack entry at or before a position |
| ChatSession.Session.RollbackToToolCheckpoint | session.cc:659-816 | the slot path and the anchor path both end at exactly the first tool_correction_n_past tokens; a failed suffix stays in step; succeeded or not, the invariant holds again if and only if no checkpoint lies behind the end of what is left and the restored distance exceeds the window |
| ChatSession.Session.RollbackInv | session.cc:708-790 | the if-and-only-if part of the rollback |
| ChatSession.Session.RedecodeFrom | session.cc:776-805 | truncate to the anchor and re-decode the suffix; a failure leaves a prefix in step |
| ChatSession.Session.NextChunk | session.cc:2214-2223 | a chunk of a slow restore is never empty, never longer than n_batch and never passes over the next checkpoint |
| ChatSession.Session.Redecode | session.cc:2210-2251 | all tokens once and in order, terminating for every batch size; each state saved no earlier than its checkpoint, exactly at it for a sound list |
| ChatSession.Session.SlowRestore | session.cc:2199-2307 | every saved state is at precisely its checkpoint if and only if the list is nondecreasing, positive and within the tokens; a failure gives a fresh session |
| ChatSession.Session.RecordedIsAligned | session.cc:2244-2250 | the recorded stack is aligned exactly for a sound list |
| ChatSession.Session.FastRestore | session.cc:1983-2034 | the invariant holds if and only if the list is sound and its last entry is the end of the tokens, or the list is empty and no canary runs |
| ChatSession.Session.RollBackCanary | session.cc:1877-1906 | the probe is removed from tracker and memory; the recurrent state is exact unless the probe fits the window and the snapshot is wrong |
| ChatSession.Session.BeginReincarnation | session.cc:2884-2901 | feeding the request for the new prompt keeps the invariant if and only if it fails, the model is not hybrid, or no ejected correction has left its slot on the stack |
| ChatSession.Session.Reincarnate | session.cc:1752-1802 | success gives a fresh aligned session with one checkpoint; failure keeps the old stack bookkeeping and is aligned exactly if that was empty |
| ChatSession.Session.FeedWhole | session.cc:3120-3137 | mode 1 ends at exactly the request on a settled memory |
| ChatSession.Session.FeedDelta | session.cc:3193-3310 | mode 2 ends at exactly the request, with the longest match kept when the memory can drop the tail itself, else cut at the newest usable checkpoint, else at 0; the recurrent state is right unless the cut fits the window and the snapshot is wrong; the invariant holds if and only if nothing drifted or DriftSound held before, and no checkpoint is left behind the end; when something was fed the batch holds a row to sample, that of the request; when nothing was, the rows are untouched |
| ChatSession.Session.MatchLength | session.cc:3193-3198 | the longest common prefix |
| ChatSession.Session.CutAt | session.cc:3205-3285 | where the cache is cut, that it holds exactly the tracker up to there, and which stack entries, offset and slot the pruning leaves |
| ChatSession.DriftAligned | session.cc:3193-3300 | the bookkeeping a cut leaves fits the new tokens, whatever they are, if and only if DriftSound held before the cut |
| ChatSession.UntouchedFits | session.cc:3205-3230 | after a cut at the match, it fits if and only if no live entry, slot or checkpoint lies behind the match |
| ChatSession.AnchoredFits | session.cc:3231-3262 | after a cut at the newest checkpoint, if and only if no tool slot was pushed |
| ChatSession.PrunedNeverFits | session.cc:3231-3262 | after a cut at an older checkpoint it never fits: the entries in front of the anchor stay and the offset passes over them |
| ChatSession.WithinSound | session.cc:3286-3292 | dropping checkpoints behind the request keeps exactly an ordered prefix of them |
| PlainLoop.StepProgress | token_generator.cc:309-426 | every iteration that goes on commits one token, uses up one remaining iteration and starts below n_ctx - 10 |
| PlainLoop.RunExtends | token_generator.cc:309-426 | a generation only extends the tracker, the sampler's calls and the text, and never passes n_ctx - 10 by more than the token it ends on; a probe is capped |
| PlainLoop.RunSays | token_generator.cc:436-570 | every token a generation adds is what the sampler gave for the row of exactly the tokens in front of it, in its last call about that row; one that was re-sampled is not an end-of-generation token; and an end-of-generation token is added only inside the thinking block, or as the last token of a turn that ends on it |
| PlainLoop.RunEnds | token_generator.cc:491-570 | a turn ends on an end-of-generation token only if, asked about the row of everything in front of it, the sampler gave nothing else as often as it may be asked, or until the interrupt |
| PlainLoop.RunGoesOn | token_generator.cc:876-1010 | a generation goes on past a token only if the text up to it asks for nothing |
| PlainLoop.RunStops | token_generator.cc:309-426 | a generation stops only for a reason: for each exit the condition that held when it was taken; it crosses the 90% line either with its first check, when the last one before it was below, or at exactly the line |
| PlainLoop.StopsAtTheLine | token_generator.cc:360-392 | a turn that begins below the 90% line does not pass it, and if it reaches it, it ended there by the crossing, an interrupt or timeout, or the end of its text |
| Generation.TokenGenerator.SampleNext | token_generator.cc:436-570 | the plain loop's sampler calls; the token that is used is the one of the last call about the row, which after a recovery is not an end-of-generation token; an end-of-generation token is used only inside the thinking block |
| Generation.TokenGenerator.VerifyRowIsExact | token_generator.cc:432-436 | while verify rows are compared, the row that is sampled was computed from exactly the tracker |
| Generation.TokenGenerator.Compare | token_generator.cc:690-777 | the comparison leaves one of three states: decode the token, decode the verify batch, or its cell is already there |
| Generation.TokenGenerator.DropUncommitted | token_generator.cc:750-770 | rolling back the drafts of a round cannot fail and is exact: the distance is below draft_len, which the window covers |
| Generation.TokenGenerator.FeedToken | token_generator.cc:452-489 | a matched token advances the tracker without a decode; a failed decode leaves tracker and memory in step |
| Generation.TokenGenerator.CommitDraft | token_generator.cc:453-468 | committing a draft keeps memory = tracker + uncommitted drafts, each row at its own position |
| Generation.TokenGenerator.DecodeVerifyBatch | token_generator.cc:1203-1274 | the verify batch starts a round in its phase invariant, or a failure settles at the committed prefix with or without the first draft |
| Generation.TokenGenerator.EndTurn | token_generator.cc:611-668 | ending on an end-of-generation token commits it in every phase |
| Generation.TokenGenerator.Settle | token_generator.cc:1316-1435 | the post-loop cleanup gives memory = tracker and a batch whose last row is the tracker's, except in the one stranded state; a roll-back is pending afterwards exactly if the break left verify rows uncommitted, by that many tokens, or had left one pending itself |
| Generation.TokenGenerator.SettleOrigin | token_generator.cc:1330-1380 | an origin that was committed but not decoded gets its cell; if that fails it is dropped, exactly so unless its row was written over a stale snapshot |
| Generation.TokenGenerator.FireHook | token_generator.cc:1296-1308 | the lockstep flag given to the hook is true if and only if the memory holds exactly the tracker |
| Generation.TokenGenerator.Iterate | token_generator.cc:308-1309 | one trip around the speculative loop is one step of the plain loop |
| Generation.TokenGenerator.Cycle | token_generator.cc:308-1309 | the same with the hook fired on a new tool call and one remaining iteration used up |
| Generation.TokenGenerator.EndedInRun | token_generator.cc:308-1309 | how the last iteration ends is how the whole generation ends, a failed decode included: then tracker, sampler calls and text are a prefix of the plain run |
| Generation.TokenGenerator.EndedSays | token_generator.cc:436-570 | so every token that is left in the tracker behind a speculative generation, however it ended and whatever was drafted, is what the sampler gave for the row of exactly the tokens in front of it |
| Generation.TokenGenerator.Generate | token_generator.cc:261-1483 | for all drafts and whatever row the batch was left with, the tracker, sampler calls and exit are the plain loop's, or a prefix of them after a failed decode (EndedSays: each token is the sampler's answer for its row); memory, tracker and n_past agree on every exit but the stranded tripwire, which needs more than one draft per round; checkpoints and stack entries are kept; with one draft per round nothing new is left pending; it terminates |
| WholeRun.Serve | session.cc:2398-3740 | over any number of requests, chosen by any user who sees the session: a cause is reported if and only if the invariant is lost; every request does what Served promises, with the generations it took; and if the request that lost it could be trusted, it did so only after a failed decode or an interrupted feed of its own, with more than one draft per round, or by a correction behind a checkpoint |
| WholeRun.Handle | session.cc:2398-3740 | the same for one request of any kind |
| Requests.PureAttentionTrusted | session.cc:2398-3740 | on a pure attention model every request can be trusted except the restore of a list that is not ordered, positive and within the tokens |
| Requests.PromptAnswered | session.cc:3062-3740 | an undisturbed prompt without corrections, in every mode: its tokens stand behind the old conversation or in its place, followed by what was said, the old checkpoints are kept behind an appended turn, and a new one lies at the end |
| Requests.ResumeAnswered | session.cc:2998-3028 | an undisturbed resume goes on behind the old tokens and the prefill |
| Requests.ResultsInPlace | tool_executor.cc:300-323 | undisturbed, each generation of a turn starts where the one before ended and is the plain loop's; behind a call stands its result, exactly once, and the turn goes on exactly if it should; where nothing is asked for nothing is added |
| Requests.CorrectionInPlace | session.cc:3429-3641 | undisturbed, in place of a bad call stands the good one with its result, if the plain loop gave one behind the reminder and the session can go back; else the text with the reminder and what was said, and the turn ends |
| Requests.RebornAsAsked | session.cc:1752-1802 | a reincarnation whose turn came to its end starts a session with the system prompt and the new prompt and one checkpoint |
| Requests.EverydayTrusted | session.cc:2398-3740 | on every model prompts and resumes without corrections, a mode 2 request that goes on where the cache ends, an undo that decodes again, a clear and the restore of an ordered list can be trusted |
| Requests.DeltaRefinesWhole | session.cc:3141-3310 | undisturbed, a mode 2 request is answered with the same tokens as the mode 1 request, whatever part of it was in the cache, unless the cache held all of it |
| Requests.TurnGrows | session.cc:3312-3740 | over any number of generations, results and resumes a turn without corrections only adds tokens and checkpoints, keeps its name while it goes on, and is recorded once it has gone back to the prompt at the 90% line |
| Requests.DraftsDoNotShow | token_generator.cc:670-680 | two sessions with the same conversation give the same tokens, checkpoints and names after the same prompt or resume, for any two numbers of drafts, if nothing disturbs them, nothing is corrected and the tripwire cannot fire |
| Requests.RunsAreAlike | token_generator.cc:670-680 | and so do two runs of any length |
| WholeRun.Ask | session.cc:3062-3740 | a typed prompt, appended or as a whole or partial request: undisturbed, the tokens are those asked for, and everything behind them is what the plain loop says, with results and corrections in their places, up to the prompt return that records the turn |
| WholeRun.Continue | session.cc:2998-3028 | /continue, from the batch as it was left or behind a prefill: undisturbed, the prefill stands behind the old tokens and the plain loop goes on from the row the batch holds; with long reminders and, without a prefill, nothing pending, the invariant is lost only for the excuses of Serve |
| WholeRun.FeedPrompt | session.cc:3062-3310 | an appended turn is added, a whole or partial request replaces the conversation, a failed feed leaves a prefix; what is sampled next is the row of those tokens, but for a mode 2 request that the cache held as a whole; only a mode 2 request loses the invariant while it is fed: when the feed succeeds, exactly if it drifted and DriftSound did not hold |
| WholeRun.FeedMode2 | session.cc:3141-3310 | a mode 2 request is fed completely or a prefix is left; fed, the batch holds its own row unless the cache held all of the request; the invariant is lost exactly if it drifted and DriftSound did not hold |
| WholeRun.Turn | session.cc:3062-3740 | the generations of a turn as a chain of legs, each where the one before ended, for any number of results, corrections, recoveries and 90% resumes (ResultsInPlace and CorrectionInPlace say what stands between them); nothing new is left pending unless a decode failed, a feed was interrupted or rounds hold more than one draft |
| WholeRun.TakeLeg | session.cc:3312-3740 | one generation and what follows it: undisturbed, the text, the exit and the 90% check are the plain loop's; the turn is recorded at the 90% line only; a text that asks for something, a call closed by an end-of-generation token included, gets it; the invariant is lost only for the excuses of Serve or by saving a roll-back that was pending before |
| WholeRun.Follow | session.cc:3330-3641 | undisturbed, the tokens are the old ones with the result of the call behind them, once, and the turn goes on exactly if it should; a tripwire is never corrected; an undisturbed correction ends where Corrected says |
| WholeRun.Undo | session.cc:2594-2766 | an undo loses the invariant if and only if it is instant and InstantUndoSound did not hold before |
| WholeRun.Load | session.cc:2199-2307 | a slow restore loses the invariant only for an unsound list, and without failed decodes or interrupts exactly then; it gives the saved tokens and checkpoints, or a fresh session |
| WholeRun.FastLoad | session.cc:1971-2130 | a fast restore is unsound exactly when FastSound fails; else it ends at the saved tokens and checkpoints, by the cache or, after three probes that were judged corrupted or broke off, by decoding them again, or at a fresh session if that fails; only a too short probe can lose the invariant |
| WholeRun.Probe | session.cc:2036-2092 | the probe cannot trip; it is rolled back exactly if it ran to its end and is not judged corrupted; without failed decodes it then leaves the restored session if and only if the model is not hybrid or the plain loop's probe outgrows the snapshot window |
| WholeRun.Generate | session.cc:1391-1510 | a generation over the batch that the last step left loses the invariant exactly by stranding or by failing to settle; without failed decodes it ends where the plain loop ends, and if it started on its own row it leaves its own row to resume from, unless a tripwire can fire |
| WholeRun.Correct | session.cc:3429-3641 | the correction cycle: undisturbed, the plain loop speaks again behind the reminder, and if that gives a good call it is executed in place of the bad one if the session can go back there, in place if there are no checkpoints, and otherwise the turn ends unrecorded; with a reminder longer than the window the invariant is lost only for the excuses of Serve |
| WholeRun.Inject | session.cc:3500-3600 | undisturbed, the tokens are those up to the bad call, the good call and its result; the invariant is lost only through the rollback, and if the reminder outgrew the window only behind a checkpoint |
| WholeRun.RollBackCall | session.cc:659-816 | without failed decodes or interrupts the rollback keeps the invariant if and only if CorrectionSound held before; otherwise it lost it only inside the window or behind a checkpoint |
| WholeRun.ReturnToPrompt | session.cc:3659-3735 | the checkpoints, the turn's name and the provisional checkpoint become exactly what Recorded says; the invariant is lost if and only if a stack entry is written while a roll-back is pending |
| WholeRun.Reincarnate | session.cc:1752-1802 | the request for the new prompt, its turn, and, if its text was completed, the new session: undisturbed, the system prompt and the new one, with one checkpoint; without a slot left by an ejected correction, with long reminders and a prompt that fits, the invariant is lost only for the excuses of Serve |
| Shortfalls.SaveWhilePending | session.cc:3659-3735 | for the state PENDING, which is lawful, a prompt return saves a state that is one token ahead (item 2) |
| Shortfalls.InterruptedRound | token_generator.cc:1381-1435 | an interrupt in the middle of a round of two drafts leaves a roll-back pending, and the turn saves it (item 2) |
| Shortfalls.TripOnLastMatch | token_generator.cc:876-907 | the tripwire on the last match of that round leaves the memory one token ahead (item 3) |
| Shortfalls.UndoOnStaleSlot | session.cc:2641-2677 | an undo right after an ejected correction loses the invariant (item 4) |
| Shortfalls.UndoBelowStack | session.cc:2641-2677 | an undo inside the window to a checkpoint without an entry loses it (item 4) |
| Shortfalls.RestoreBehindCheckpoint | session.cc:2016-2033 | a fast restore of a list that ends in front of the tokens loses it (item 5) |
| Shortfalls.CorrectionBehindCheckpoint | session.cc:761-805 | a correction of a call that the 90% line has cut in two, whose slot the prompt return there has reset: if nothing fails, the re-decode from the first checkpoint ends behind the crossing's (item 6) |
| Shortfalls.RebirthThatDoesNotFit | session.cc:1752-1773 | a reincarnation whose prompt does not fit keeps the old offset (item 7) |
| Shortfalls.RebirthOverSlot | session.cc:949-960 | a reincarnation right after an ejected correction forgets its slot (item 7) |
| Shortfalls.OriginOverStaleSnapshot | token_generator.cc:1344-1366 | a settled memory in which the closing decode, failed after its row, is rolled back to a wrong state (item 8) |
| Shortfalls.DriftToOlderCheckpoint | session.cc:3231-3262 | a mode 2 request that differs behind the first of two checkpoints loses the invariant (item 11) |
| Shortfalls.InterruptedDelta | session.cc:3286-3310 | a mode 2 feed that stops in front of the last checkpoint leaves it behind the end (item 11) |
| Shortfalls.DeltaWithoutFeed | session.cc:3286-3292 | a mode 2 request that is a proper prefix of the cache leaves the row of the longer context to be sampled (item 16) |
| Shortfalls.StaleSlotIsLawful | session.cc:3606-3641 | the state of UndoOnStaleSlot satisfies the invariant; so do the other states, each by its own lemma |
| Mirror.Speculator.Process | mtp.cc:240-322 | if the mirror agreed with the main rows up to the batch, then whatever drafts or stale rows it held and for every chunk size it ends equal to them; it switches itself off exactly if it ended before the batch or one of its own decodes failed |
| Mirror.Speculator.MirrorChunks | mtp.cc:282-308 | the chunked rebuild ends with all main rows or reports a failed decode |
| Mirror.Speculator.HookedDecode | model.cc:552-591 | a successful main decode makes an agreeing mirror equal to the main rows and lets it be drafted from, or one of its own decodes failed or it had a gap; a full context switches it off and keeps its rows; a decode that wrote nothing leaves the agreement |
| Mirror.Speculator.Draft | mtp.cc:395-459 | drafting gives draft_len tokens and writes only behind the main rows; it gives none only if it may not draft or one of its own decodes failed |
| Mirror.Speculator.RollBackMain | mtp.cc:258-266 | a main roll-back keeps the agreement |
| Mirror.Speculator.Rearm | mtp.cc:381-388 | re-arming happens exactly if the mirror was off for want of context and the undo point lies within its rows; it agrees afterwards exactly if the main rows are the ones it mirrored, and they are if the main context never was shorter than the undo point |
| Mirror.Speculator.DecodeUnhooked | session_utils.cc:190-201 | a decode without the hook keeps the agreement if no drafts were ahead, and destroys it if the first of them was another token |
| Mirror.Speculator.Load | session.cc:1983-1998 | a loaded cache entry leaves mirror and main in agreement, with drafting held off until the next feed; without a mirror in the entry, or with the mirror off, drafting stays off |
| Mirror.Speculator.RollBackProbe | session.cc:1877-1906 | the canary rollback cuts main and mirror to the restore point, and a covering mirror is equal to main afterwards |
| Mirror.Speculator.Make | mtp.cc:240-459 | one move of any kind: a step, a feed or a note appends its tokens, a roll-back, an undo or a probe removes what the memory can remove, a clear empties both, a load replaces both; it keeps the agreement unless a decode failed half-way, and keeps the mirror on unless a decode failed |
| Mirror.Speculator.Follow | mtp.cc:240-459 | any sequence of steps, feeds, roll-backs, undos, clears, loads, probes and notes is made, each as Moved says of the two memories; the next hooked decode makes an agreeing mirror equal to main; it agreed if no main decode failed and no note was slipped in; and it is on if besides no entry came without its rows and none of its own decodes failed |
| Mirror.Speculator.UndoAfterExhaustion | mtp.cc:373-388 | after a full context, whatever is decoded in the meantime, an undo to rows that were there when it ran full turns the mirror on again, and it agrees |
| Escape.EscapeTag | parsers.cc:18-45 | the in-place loop computes the scan, and for an unbordered token the position-by-position escape |
| Escape.UnescapeTag | parsers.cc:49-86 | the same for unescaping |
| Escape.EscapeScanIsEscaped | parsers.cc:24-44 | skipping the token's length after a match misses nothing if the token has no border |
| Escape.UnescapeScanIsUnescaped | parsers.cc:54-85 | the same for unescaping |
| Escape.EscapesCommute | parsers.cc:117-124 | two reserved tokens may be escaped in either order |
| Escape.UnescapeEscaped | parsers.cc:18-86 | unescaping a token undoes escaping it, on every text |
| Escape.RoundTrip | tool_executor.cc:285-288 | unescaping every reserved token after escaping every one, in the same order, is the identity on every text |
| Escape.EscapedAllInjective | tool_executor.cc:285-288 | different texts stay different |
| Escape.NoRawLeftAll | tool_executor.cc:285-288 | no reserved token is left raw |
| Escape.EscapeReserved | parsers.cc:117-128 | the loop over the reserved tokens escapes all of them, reversibly, leaving none raw |
| Escape.UnescapeReserved | parsers.cc:117-132 | the loop over the reserved tokens unescapes all of them in order |
| Escape.ScanLeavesNoRawIffUnbordered | parsers.cc:24-44 | escape_tag leaves no raw token in any text if and only if the token has no border |
| Escape.OverlapLeavesRaw | parsers.cc:38-40 | for every bordered token, a text in which a raw one is left |
| Escape.SentinelIsBordered | output.cc:129-130 | the HTML sentinel is such a token |
| TurnTokens.CollectTurnTokens | parsers.cc:92-115 | what is collected from the markers is exactly their pieces between an opener and its next closer and the whole markers that hold no opener, each once; every such marker is collected |
| TurnTokens.PieceIsCollected | parsers.cc:100-109 | whatever stands between an opener and the next closer is a piece, whatever stands in front of the opener is not, and the search goes on behind the closer |
| TurnTokens.TurnTokensPrefixFree | parsers.cc:100-109 | no piece collected from the markers is the start of another |
| TurnTokens.PrefixesAreWholeMarkers | parsers.cc:92-115 | among everything collected only a whole marker without an opener can be the start of another token |
| TurnTokens.ReservedFromTurnTokens | tool_executor.cc:285-288 | PARAM_END and the turn tokens may be escaped together if no turn token holds a second '<' or a backslash |
| ToolCall.ToolSchemaValid | tokens.h:5-24 | the tags in use cannot overlap or be mistaken for each other |
| CallStream.ToolSchemaCutIsOwn | tokens.h:5-24 | and the closing tag without its last character starts no other tag |
| ToolCall.StrayEndIsText | token_generator.cc:70-71 | a PARAM_END outside a parameter is text |
| ToolCall.NextEvent | token_generator.cc:72-91 | the earliest of the five events is the next tag that counts |
| ToolCall.FindToolEnd | token_generator.cc:57-180 | a complete call ends where the tag-by-tag scan says; an incomplete one outside a parameter ends at the first cut closing tag behind the last tag, if there is one, and one that stops inside a parameter has no end; the parameter state reported is the scan's |
| ToolCall.FindPartialEnd | token_generator.cc:130-178 | the fallback finds the first cut closing tag outside any parameter, and misses none |
| CallStream.RepairToolEnd | token_generator.cc:183-193 | the missing '>' is put where the tag was cut, replacing only the garbage before the next one |
| ToolCall.PrintedCallEnds | token_generator.cc:57-180 | for every call whose parameters are opened by PARAM_START or by a bare tag, in any mix, and whose values hold no raw PARAM_END, whatever other tags they hold and whatever follows, the scan ends at the call's own final FUNC_END |
| ToolCall.NestedCallIsPassed | token_generator.cc:93-121 | a whole call outside the parameters is passed over at every depth |
| ToolCall.NestedCallEnds | token_generator.cc:93-121 | so the end is the call's own even if a stray PARAM_END and another call stand behind its parameters |
| CallStream.CallStreams | token_generator.cc:57-180 | for every such call, with either kind of opening tag, and every start of it: nothing is reported until the closing tag lacks only its last character, then the cut tag is, then the end |
| CallStream.InsideIsSeen | token_generator.cc:93-121 | from the end of either kind of opening tag until PARAM_END is complete, the scan says that the text stops inside a parameter |
| CallStream.OutsideIsSeen | token_generator.cc:93-121 | and between the parameters that it does not, until the next opening tag is complete |
| CallStream.SeeToolEnd | token_generator.cc:937-947 | the check after each token: an end is taken, a cut tag is repaired and taken, but not at the very end of the text, unless the text holds another FUNC_END, when the cut tag is taken as it is |
| CallStream.WatchCall | token_generator.cc:937-947 | so a call is seen to end exactly when it is complete, and one character early if it holds a FUNC_END in a value (item 15) |
| CallStream.WatchMangled | token_generator.cc:937-947 | a call whose closing tag is mangled, as soon as more text follows: the tag is repaired and the call ends at it |
| CallStream.EarlyEnd | token_generator.cc:941-943 | every call whose value holds one is such a call |
| Parameters.FindParamTag | parsers.cc:222-246 | the first canonical tag that reads as the name; the first bare tag if no canonical one does; none exactly if neither is there |
| Parameters.PaddedName | parsers.cc:174-184 | a name is read without the quotes and white space around it |
| Parameters.QuoteIsDropped | parsers.cc:174-184 | and without quotes inside it |
| Parameters.ExtractParamBlock | parsers.cc:281-289 | the block runs from the end of that tag to the first PARAM_END behind it or the end of the text, and is empty if there is no tag |
| Parameters.BlockIsValue | parsers.cc:281-289 | the block of a printed parameter is its value: of a canonical one when nothing in front of it reads as its name, of a bare one when no canonical tag reads as its word and no earlier bare tag has it |
| Parameters.ParsedBack | parsers.cc:281-297 | a value printed escaped behind either kind of opening tag is found, extracted and unescaped unchanged, whatever it contains |
| ThinkScan.Scanner.Append | token_generator.cc:817-873 | for every split of the output into pieces, started fresh or inside an open block, the incremental scan finds the block, its end and the tripwire of one scan of the whole text |
| ThinkScan.Scanner.Feed | token_generator.cc:910-936 | for every split, for models with and without thinking tags: unless the tripwire fired, the call is seen at the first place where the tool tag starts in front of the thinking block or behind its closing tag, and no call is seen exactly if there is no such place |
| ThinkScan.PlainScan | token_generator.cc:837-866 | a block ends at its first closing tag, unless an opening tag comes before that and trips the wire |
| ThinkScan.ProbeScan | token_generator.cc:837-866 | in a canary probe a block ends at the closing tag that pairs with its opening tag |
| ThinkScan.CallBehindThought | token_generator.cc:910-936 | for every split of thinking block, prose and tool tag into pieces, the block and the call are seen where they are |
| ThinkScan.AnyThought | token_generator.cc:910-936 | with tags that begin with a bracket and hold no other, that is so for every thought and prose without brackets |
| ThinkScan.NoLateStart | token_generator.cc:819-823 | where a tag starts in front of one that is already complete, more text changes nothing, if the second cannot hide inside the first |
| ThinkScan.DefaultTagsValid | model.cc:283-286 | the default thinking tags meet the scan's condition |
| ThinkScan.ChannelTagsValid | llama/common/parsers/gpt-oss.cpp:45-46 | so do the tags of the channel format, in which a tag repeats its first character |
| ThinkScan.NoThinkingTagsValid | token_generator.cc:817 | a model without thinking tags meets it too |
| ThinkScan.ProseStays | token_generator.cc:919-923 | more text never turns prose into a call or a call into prose |
| ThinkScan.EndedBefore | token_generator.cc:837-866 | a block that ends inside a text already ended there |
| SaveFile.DecimalParses | filesystem.cc:80-101 | printed numbers are read back |
| SaveFile.LeastFirst | filesystem.cc:174-186 | a token and a checkpoint's position are four bytes, the least significant first, in two's complement |
| SaveFile.HeaderSays | filesystem.cc:164-170 | the header line as it stands in the file, with the session number only if there is one |
| SaveFile.FieldFound | filesystem.cc:73-107 | a key is read from its own field, wherever it stands, if no other field's name ends in it |
| SaveFile.HeaderFits | filesystem.cc:110-129 | the header and its newline always fit the 256 bytes that are searched |
| SaveFile.Label | filesystem.cc:189-194 | labels of up to 65535 bytes are kept; longer ones are cut to exactly 65535 bytes, the last 14 of which are ...[truncated] |
| SaveFile.WriteSave | filesystem.cc:158-209 | the file is header, tokens and checkpoint records |
| SaveFile.ReadTokenSave | filesystem.cc:131-153 | all tokens or none |
| SaveFile.ReadCheckpoints | filesystem.cc:228-240 | a record that is cut short discards them all |
| SaveFile.SaveRoundTrip | filesystem.cc:74-254 | for all tokens, checkpoints and session numbers, reading the written bytes returns them, labels cut, -1 for no session |
| KvCache.ChecksAreExact | filesystem.cc:499-507 | in 64-bit arithmetic the loader's and the sweep's size checks both accept exactly the entries whose sizes add up as unbounded integers |
| KvCache.BoundsAreNeeded | filesystem.cc:494-498 | without the bounds a wrapping sum would accept other sizes |
| KvCache.Directory.Sweep | filesystem.cc:618-640 | exactly the same-hash entries the loader would accept are kept |
| KvCache.Directory.Write | filesystem.cc:566-698 | other tokens' entries go exactly if they have the save's name, or one that continues it, or the previous save's hash; if one of these tokens' own entries is good enough, nothing is written and exactly the loadable ones stay; else the new entry is the only one, or there is none if the memory does not hold the tokens |
| TurnLoop.StepDecreases | session.cc:3344-3392 | every trip that goes on raises the floor below which no correction can go back, or leaves it and uses up context, or uses up the one resume at the 90% line; a call cut in two by that line may be corrected to where it started |
| TurnLoop.WeightDecreases | session.cc:2400-3740 | so one number decreases on every trip |
| TurnLoop.CorrectionGoesBack | session.cc:3669-3706 | the position itself need not: a run in which a correction ends in front of where the trip began |
| TurnLoop.Trips | session.cc:2400-3740 | whatever the generations come to, the automatic resume of a reborn session's first turn included, the loop returns to the prompt within Weight + 1 trips |
| TurnLoop.DepthCounts | tool_executor.cc:314-323 | without a correction a trip uses up one of the cap, or the one resume at the 90% line, or the one behind a reborn session's first turn |
| TurnLoop.GoesOn | session.cc:3312-3740 | exactly when a trip goes on: a result or a recovery that was fed below the cap, a correction that was fed if none was attempted since, the 90% line if there is a request to name, and the first turn of a reborn session |
| TurnLoop.GoesOnBehind | tool_executor.cc:314-323 | and where: behind everything that was committed and fed, one further in the count if something was |
| TurnLoop.CorrectionGoesOn | session.cc:3500-3600 | behind a correction: where the latest call starts, with the corrected call and its result, or behind a repair in place, with the count at one |
| TurnLoop.CapBoundsTrips | tool_executor.cc:314-323 | without corrections the loop takes at most as many trips as are left of the cap, plus those two resumes and the last |
| TurnLoop.CorrectionResetsDepth | session.cc:1407 | a successful correction starts the count over |
| TurnLoop.CapDoesNotBoundCorrections | session.cc:1407 | for every n, n corrected calls in a row run under any cap if the context has room |

## Left out

- Real logits, sampling arithmetic, GPU fitting, model loading and the rest of llama.cpp: memory, decode and sampler are the abstractions above.
- KvMemory.Memory.Decode: keeps a failed decode's rows as a prefix whose recurrent state belongs to it; what the removal of a half-computed micro-batch does instead is stated on its own, in FailedMicroBatch.
- Model.HandleDecode: leaves the mirror out; the decode with its hook is Mirror.Speculator.HookedDecode.
- ChatSession.Session.RollBackCanary: leaves the mirror out; its part is Mirror.Speculator.RollBackProbe.
- WholeRun.Serve: takes the tokens of prompts, results and corrections as given, and which round follows a generation as part of the request; a restore starts from a cleared session, and how many of its probes are judged corrupted is part of the request; a turn that would go on behind its listed rounds goes no further; what a reborn session does by itself are requests to resume without a prefill.
- WholeRun.FastLoad: stops at a list the stack cannot be aligned with, where the program goes on with the probe; the judgement of a probe and a restore that is cancelled at its selection prompt are left out.
- The bound of `TurnLoop` on the trips of a turn and the rounds of `WholeRun.Turn` are two views of one loop and are not connected.
- Position gaps that an M-RoPE model accepts: a batch must start at the next position.
- The convolution part of the recurrent state, which is snapshotted with the same planes.
- Hidden states in the mirror: only tokens and positions are modelled, and the row at a heal point is approximate by design.
- Context-size checks before a feed, which only refuse the feed, except where they decide a path.
- The text a generation accumulates, inside `PlainLoop` and `Generation`: the scans are a function of the committed pieces there, and are modelled separately in `ThinkScan` and `ToolCall`.
- Thinking tags in which one tag hides strictly inside another, or is the start of another: nothing is said of their scan.
- The 90% line is `n_ctx * 9 / 10` rounded down; the program computes it in floating point.
- Quote stripping, array splitting and the stripping of thinking blocks from a call, which lose data by design.
- Leading blanks or signs in a save file's numbers, which the C++ parser would accept and the writer never writes.
- Byte order: integers are written as the machine holds them, which is taken to be least significant byte first.
- Hashing: a cache entry's hash is part of its name.
- Speculation statistics and the adaptive switch-off, terminal and browser output, networking, and tool implementations.
- Interrupts and decode outcomes are arbitrary; the order in which a real interrupt arrives within one chunk is not modelled.
