# Verified model of the bkcrab gateway's protocols

bkcrab is a multi-tenant agent gateway. This project models the parts of it whose correctness does not
show in any single function, and proves what they promise.

| file | models | main results |
|---|---|---|
| `Revisions.dfy`, `ContextCache.dfy` | the Redis-backed context cache: three atomic scripts over one hash per key | coherence in every interleaving of readers, writers, delayed fills and losses of the hash; fencing of stale fills; exactly when a fill takes effect, and what is served then |
| `Turns.dfy`, `TurnRuns.dfy`, `TurnEffects.dfy` | turn reservations and the steering inbox | one holder per address, no stranded waiter, exactly when a retired context still acquires, steering neither lost nor doubled nor reordered; exactly when a turn is cancelled, open or through |
| `Messages.dfy`, `ToolPairs.dfy` | conversation lists; sanitizing of tool calls and results | every output is well-formed, with an exact meaning for every position; unchanged exactly when it was so before; what may be dropped |
| `Compaction.dfy` | choosing a tail, pruning, summarising | structure and the protected tail survive, end to end; the chosen tail is optimal; when each outcome happens |
| `FailurePolicy.dfy`, `ToolRounds.dfy` | the failure reminder, tools-off replies, one round of tool calls, repair of an interrupted round | one reminder per streak; one result per call, whatever the executor returned; when repair is harmless |
| `ReAct.dfy`, `ReActLoop.dfy`, `ReActEffects.dfy` | the loop of one agent turn | every request well-formed, and determined by the one before it, guard permanent, no triple passes, one retry, bounded calls, the session well-formed again after the turn |
| `Steering.dfy` | the inbox and the loop together | the user messages in a finished session are exactly the accepted ones, in order |
| `Lease.dfy` | the channel lease loop with its goroutines, and many processes running it against one lease row | orderly in every interleaving, never stuck, every tenure released unless lost; the exact timing condition for exclusion |
| `RateLimit.dfy`, `Reservation.dfy` | the sliding-window limiter; capacity decisions along runs | answers equal a reference without cleanup; capacity bounds, and no gain above base under contention |
| `Text.dfy`, `Bubbles.dfy`, `Tables.dfy` | reply bubbles and flattened Markdown tables | split undoes join exactly when no part holds the marker; parsing inverts GFM escaping; exactly when flattening is idempotent |
| `NestedConfig.dfy` | nested configuration records | what every path reads after a write; writes commute |
| `Optional.dfy` | optional values | |

`dafny verify dfyconfig.toml` checks everything.

## How to read it

Critical sections, Redis scripts and database statements are atomic steps. A concurrent protocol is a
step function over a state, and a theorem about it speaks of `Run(states, ops)`: every sequence of states
linked by enabled steps. Code that updates state in place is a class or a method with loops; its contract
ties it to a function, and the theorems are about that function.

The agent turn is a log of events. `ReAct.Legal` says which event may follow a given log; the theorems
hold for every legal log; `ReActLoop.RunTurn` is the loop, and its contract says that it only writes legal
logs and that the session is what the log says. The model, the executor, the inbox and the store are
arbitrary functions (`World`). The proofs ask of a model reply what `GoodReply` says: distinct, non-empty
call IDs, and no ID in its raw JSON beyond its parsed calls.

Choices and premises:

- Message content is a sequence of bytes (token estimates divide byte counts); `Text`, `Bubbles` and
  `Tables` work on code points. For valid UTF-8 the scanners, which only look for ASCII, agree.
- The cache's premises are those of its design: a reader takes the epoch before it reads the source, a
  Change runs after its revision is committed, epochs are new, payloads are not empty, and Changes that
  carry a payload run in commit order. `EarlyLoadIsStale` and `LateWriteThroughIsStale` show that the
  ordering premises are needed, and `CoherentIff` says exactly how much of commit order is. Redis compares strings by bytes. Expiry, eviction, restart and Drop are
  one step that loses the hash.
- `Revisions.RevisionOrder` covers all of int64: the string order is the numeric one unless both numbers
  are negative, when it is reversed.
- The lease table expires strictly (`expires_at < now`, internal/store/database.go:4963). The comment at
  internal/channels/lease.go:46-58 says that a lost lease is released locally before the loop retries; the
  code (135-145) does not release in that branch, and the model follows the code.
- A context derived from a turn can still acquire after that turn's release, in one window: its caller had
  passed the context check (internal/agent/turns.go:72) and had yet to take the lock.
  `TurnRuns.RetiredContextAcquiresIff` is exact, `TurnRuns.RetiredContextCanAcquire` a run that does it. The
  turn it gets is never the retired turn's address and is cancelled from birth.
- An adapter that returns within TTL minus the renew interval of its cancellation is safe only if no lease
  write is ever late: `Lease.ExclusionIff` gives the exact condition on interval, lateness, drain time and
  TTL, and `Lease.ShippedConstants` what it means for 30 s and 10 s.
- An emergency compaction of a list that sanitizes to nothing returns its input with the changed flag off;
  well-formedness is claimed for changed results, and for every result outside emergency mode.
- The repair that closes a turn appends a stray result when the newest caller has a call without ID:
  `ToolRounds.RepairHarmlessIff` is the exact condition.
- Flattening a table can produce text that again holds a table when cells contain literal pipes
  (`Tables.EscapedPipesBreakIt`); `Tables.FlattenTwice` says on which texts flattening is idempotent.

## Model

| member | source | states |
|---|---|---|
| Revisions.RevisionOrder | internal/contextcache/cache.go:142-143 | for every pair of int64 the scripts' string order is the numeric order, reversed when both are negative; rendering is injective |
| Revisions.RevisionReadsBack | internal/contextcache/cache.go:142-143 | the rendering has twenty places and reads back as the revision |
| ContextCache.Cache.Read | internal/contextcache/cache.go:115-140 | a hit answers the stored payload, a miss the stored epoch, which is the new one only if there was none; counters, and what a lost request or reply leaves behind |
| ContextCache.Cache.Fill | internal/contextcache/cache.go:145-163 | takes effect exactly when its epoch is the stored one and no newer revision is; an empty epoch does nothing; refused fills are counted and reported as superseded |
| ContextCache.Cache.Change | internal/contextcache/cache.go:165-181 | replaces epoch, revision and payload unless there is no hash or a newer revision; a refusal is not an error |
| ContextCache.Cache.Drop | internal/contextcache/cache.go:183-188 | removes the key and touches no counter |
| ContextCache.ScriptsCompareNumbers | internal/contextcache/cache.go:142-176 | the string-comparing scripts do what comparing int64 revisions would do |
| ContextCache.StepKeepsInv | internal/contextcache/cache.go:113-181 | every step keeps the invariant relating outstanding fill tokens to stored epoch and revision; only a write-through Change that takes effect has to be in time |
| ContextCache.CacheCoherence | internal/contextcache/cache.go:113-181 | once Change(r) has run, effective or refused, no payload served later is older than r, in every interleaving with delayed fills and losses |
| ContextCache.RetiredEpochNeverReturns | internal/contextcache/cache.go:113-121 | an epoch retired by an accepted Change or a loss is never the stored epoch again |
| ContextCache.StaleFillRefused | internal/contextcache/cache.go:145-151 | a fill by a reader that missed before an accepted Change or a loss is refused for ever |
| ContextCache.HitServesStored | internal/contextcache/cache.go:113-140 | along a run, a read that finds a payload serves exactly it and changes nothing |
| ContextCache.MissHandsOutStoredEpoch | internal/contextcache/cache.go:113-140 | a read that misses leaves a hash with an epoch, the one it found if any, and its reader holds that epoch |
| ContextCache.ChangeEffect | internal/contextcache/cache.go:165-181 | exactly when a Change takes effect, and the hash it leaves |
| ContextCache.FillTakesEffectIff | internal/contextcache/cache.go:145-163 | a fill by a reader that missed, with no accepted Change and no loss since, stores what it loaded if and only if no newer revision is stored |
| ContextCache.FilledIsServed | internal/contextcache/cache.go:113-163 | and then every read is served exactly that, until the next fill, Change or loss |
| ContextCache.RevisionNeverDecreases | internal/contextcache/cache.go:145-176 | while one hash lives its stored revision never goes back |
| ContextCache.StoredNumber | internal/contextcache/cache.go:142-176 | every stored revision renders a committed one |
| ContextCache.ChangeKeepsPayloadCurrentIff | internal/contextcache/cache.go:165-181 | a Change keeps the payload current exactly when it stores nothing, finds no hash, finds a newer revision, or is as new as every executed Change |
| ContextCache.CoherentIff | internal/contextcache/cache.go:113-181 | over a whole run: what is stored is always current if and only if every write-through Change that took effect was no older than the Changes before it |
| ContextCache.CommitOrderIsTimely | internal/contextcache/cache.go:165-181 | commit order is enough for that |
| ContextCache.LateWriteThroughIsStale | internal/contextcache/cache.go:165-176 | without commit order a read can hit an older revision than one already announced |
| ContextCache.EarlyLoadIsStale | internal/contextcache/cache.go:165-167 | a reader that loads the source before taking its epoch can store a stale payload |
| Turns.TurnControl.StillReserved | internal/agent/turns.go:63-69 | the nested-acquire check: does this very reservation hold its address |
| Turns.TurnControl.TrySlot | internal/agent/turns.go:75-92 | reserves a free address with a new turn, cancelled from birth if the caller's context is done; else names the holder and changes nothing |
| Turns.TurnControl.BindTurnSession | internal/agent/turns.go:121-131 | binds the session; only a starting turn becomes running |
| Turns.ActiveTurn.StateLocked | internal/agent/turns.go:133-139 | a cancelled turn is seen stopping unless it is already finishing |
| Turns.TurnControl.PushTurnSteer | internal/agent/turns.go:141-154 | buffers exactly for a starting or running holder; reports idle only for a free address |
| Turns.TurnControl.DrainTurnSteer | internal/agent/turns.go:156-169 | hands over the inbox; an empty final checkpoint closes intake in the same step |
| Turns.TurnControl.CloseIntake | internal/agent/turns.go:174-182 | first half of finishing: intake closed, leftovers and session taken |
| Turns.TurnControl.ReleaseSlot | internal/agent/turns.go:183-189 | frees the address and closes the done channel together |
| Turns.TurnControl.StopWebTurn | internal/agent/turns.go:227-237 | marks the holder stopping, cancels its context, and keeps its reservation |
| Turns.TurnControl.WebTurnState | internal/agent/turns.go:243-251 | reports the holder's state as seen under the lock, idle for a free address |
| TurnRuns.StepKeepsInv | internal/agent/turns.go:59-205 | every operation of callers, workers, producers and stops keeps the protocol invariant |
| TurnRuns.HeldIffOpen | internal/agent/turns.go:71-102 | a turn holds its address exactly while its done channel is open, so two open turns never share one |
| TurnRuns.WaiterNeverStranded | internal/agent/turns.go:92-101 | a waiter can wake, or the turn it waits for still holds the address |
| TurnRuns.OnlyOwnReleaseFrees | internal/agent/turns.go:174-189 | only the holder's own release frees an address: no stop, nested finish, cancellation or late cleanup does |
| TurnRuns.RetiredContextFails | internal/agent/turns.go:59-74 | after its turn's release a context fails on entering and at the top of the loop, and never counts as nested |
| TurnRuns.RetiredContextAcquiresIff | internal/agent/turns.go:71-91 | exactly when it still acquires: its caller stood between context check and lock at the release, and the address is free; the turn it gets has another address and is cancelled from birth |
| TurnRuns.NeverAtOwnSlot | internal/agent/turns.go:63-76 | a context never reaches the slot check for its own turn's address, before or after the release |
| TurnRuns.RetiredContextCanAcquire | internal/agent/turns.go:72-91 | a run in which a context acquires after its turn's release |
| TurnRuns.ClosedInboxStaysClosed | internal/agent/turns.go:141-182 | after a stop, a finish, a parent's cancellation or an empty final checkpoint no message is accepted for that turn |
| TurnRuns.SteeringTraced | internal/agent/turns.go:141-205 | at every moment the accepted messages are the appended ones, then those in the worker's hand, then the inbox |
| TurnRuns.SteeringConserved | internal/agent/turns.go:141-205 | appended messages are a prefix of the accepted ones, and all of them once the turn is released: each once, in order |
| TurnRuns.LeftoversGoHome | internal/agent/turns.go:179-201 | leftovers of a turn without a session go to the address and project it was reserved for |
| TurnEffects.CancelledIff | internal/agent/turns.go:71-237 | a turn is cancelled exactly when it was stopped, its parent was cancelled, its own finish came that far, or its caller's context was done as it got the slot |
| TurnEffects.StopCancels | internal/agent/turns.go:227-237 | a stop cancels the turn that holds the address, for ever |
| TurnEffects.OnlyLiveContextsPass | internal/agent/turns.go:59-91 | a context fails on entering and at the top of the loop exactly when it is over, and a turn is born cancelled exactly when its caller's context is |
| TurnEffects.StoppedContextFails | internal/agent/turns.go:59-91 | after a stop every caller with a context of the stopped turn fails, or gets a turn cancelled from birth |
| TurnEffects.SeenStateMeans | internal/agent/turns.go:121-182 | what a turn is seen in, from what has happened to it: stopping once interrupted, else finishing once its worker is through, else running once bound, else starting |
| TurnEffects.PushAnswered | internal/agent/turns.go:141-154 | a push is buffered, at the end of the holder's inbox, exactly when that turn was neither interrupted nor is through; and the state it is answered with |
| TurnEffects.SlotTaken | internal/agent/turns.go:75-102 | a free address goes to the caller at the slot as a new, open, empty turn; for a held one the caller waits for its holder or is told busy |
| TurnEffects.NestedWhileHeld | internal/agent/turns.go:59-76 | a live context is nested at its own turn's address exactly while that turn is not released, and gets to the slot everywhere else |
| TurnEffects.WaiterTriesAgain | internal/agent/turns.go:92-101 | a waiter wakes only once its turn is released, and tries again; it gives up only when its context is over |
| TurnEffects.WholeInboxTaken | internal/agent/turns.go:156-182 | a drain and the start of the cleanup take the whole inbox into the worker's hand |
| TurnEffects.SessionIsLastBound | internal/agent/turns.go:121-131 | a turn's session is the one bound last |
| TurnEffects.AppendedWhere | internal/agent/turns.go:190-201 | each appended message is the next in hand and goes to the session bound last, or to the reserved address and project while none is |
| Messages.WellFormedMeans | internal/agent/compaction_tool.go:36-103 | what well-formed says at every position: a tool message belongs to the caller its block follows; a caller's block holds one result per ID |
| Messages.WellFormedIff | internal/agent/compaction_tool.go:36-103 | and that is all it says: a list is well-formed exactly when every position is right |
| Messages.ExpectedMeans | internal/agent/compaction_tool.go:109-120 | the IDs an assistant message expects results for: the non-empty ones of its parsed calls and of its raw JSON |
| Messages.WellFormedConcat | internal/agent/compaction.go:274-279 | well-formed lists can be joined |
| Messages.WellFormedSuffix | internal/agent/compaction.go:386-397 | a cut that does not fall on a tool message leaves a well-formed tail |
| ToolPairs.ExpectedToolCallIDs | internal/agent/compaction_tool.go:109-120 | collects exactly the non-empty IDs of parsed and raw calls |
| ToolPairs.SanitizeToolPairs | internal/agent/compaction_tool.go:36-103 | the loop computes `Sanitized`, and reports a change exactly when the output differs from the input |
| ToolPairs.SanitizedWellFormed | internal/agent/compaction_tool.go:36-103 | sanitizing yields a well-formed list for every input |
| ToolPairs.WellFormedUntouched | internal/agent/compaction_tool.go:98-102 | a well-formed list is left alone, so sanitizing is idempotent |
| ToolPairs.UntouchedIffWellFormed | internal/agent/compaction_tool.go:98-102 | the output equals the input exactly when the input was well-formed |
| ToolPairs.SanitizedThins | internal/agent/compaction_tool.go:36-103 | only tool messages and textless incomplete callers are dropped; incomplete callers with text lose their calls; nothing else changes |
| ToolPairs.SanitizedKeepsBystanders | internal/agent/compaction_tool.go:47-59 | every message that is neither tool nor assistant stays, in order |
| ToolPairs.CompleteBlockSurvives | internal/agent/compaction_tool.go:66-91 | a caller followed by one result per ID keeps all of them |
| ToolPairs.IncompleteBlockStripped | internal/agent/compaction_tool.go:90-107 | an incomplete block loses its results; its caller stays, without calls and raw JSON but with every other field, when it has content, parts or thinking, and goes otherwise |
| ToolPairs.KeepsFirst | internal/agent/compaction_tool.go:66-80 | of several answers to one call the first is kept |
| Compaction.EstimateTokens | internal/agent/compaction.go:86-100 | the loop computes the additive per-message estimate |
| Compaction.TokensMean | internal/agent/compaction.go:86-117 | what one message adds to the request's estimate, and one call to a message's |
| Compaction.SafeCompactionCutoff | internal/agent/compaction.go:386-397 | the first position at or after the cutoff that is not a tool message |
| Compaction.CompleteTurnTail | internal/agent/compaction.go:424-490 | the returned cut is best: closest to the target among user starts above 0 with enough turns, plus the empty tail in emergency; ties by tail size |
| Compaction.BestTailUnique | internal/agent/compaction.go:448-467 | the best cut is unique, so the choice is determined |
| Compaction.CompactionTailStart | internal/agent/compaction.go:399-416 | computes the best cut, 0 when there is none |
| Compaction.TailIsOptimal | internal/agent/compaction.go:424-490 | the chosen tail, in plain arithmetic: no other place to cut is nearer the target, and of two as near the longer tail is kept, in emergency the shorter |
| Compaction.CutExistsIff | internal/agent/compaction.go:399-490 | there is a cut exactly when a user turn past the first message has enough turns behind it, or in emergency mode |
| Compaction.EmergencyAlwaysCuts | internal/agent/compaction.go:281-327 | in emergency mode a non-empty list always has a cut above 0 |
| Compaction.PruneOldToolResults | internal/agent/compaction.go:505-539 | replaces exactly the large tool results before the cut, their text and metadata only, and reports whether it did |
| Compaction.CompressOlder | internal/agent/compaction.go:542-606 | everything before the cut gives way to one user message with the summary |
| Compaction.CompactTriggered | internal/agent/compaction.go:329-384 | sanitize, prune, stop below target, else cut; the second sanitize changes nothing |
| Compaction.EmergencyCompact | internal/agent/compaction.go:281-319 | the emergency path, with its empty and single-message cases |
| Compaction.CompactMessages | internal/agent/compaction.go:136-161 | dispatch by mode and trigger computes `Compacted`; `CompactionOutcome` and `EmergencyOutcome` say what that is |
| Compaction.CompactionOutcome | internal/agent/compaction.go:136-384 | when each outcome happens: nothing but sanitizing below the trigger limit; the head gives way to the summary exactly when the request is due, the pruned one not below the target (or the mode manual) and a cut exists; else the pruned list |
| Compaction.EmergencyOutcome | internal/agent/compaction.go:281-319 | an emergency cuts at once whatever the size, unless at most one message is left |
| Compaction.DueGetsSmall | internal/agent/compaction.go:329-384 | a proactive compaction that is due ends below the target, or has no turn to cut at, or starts with the summary |
| Compaction.DefaultLimits | internal/agent/compaction.go:206-272 | the trigger, target and tail limits of an unset configuration: 96000, 70400 and 38400 tokens |
| Compaction.PercentRoundsDown | internal/agent/compaction.go:267-272 | a limit is a percentage of the budget, rounded down |
| Compaction.OptionsInRangeKept | internal/agent/compaction.go:206-265 | options in range are used as they are; a percentage above 100 counts as 100 |
| Compaction.CutWellFormed | internal/agent/compaction.go:366-375 | the summarised list is well-formed before it is sanitized again |
| Compaction.CompactionKeepsStructure | internal/agent/compaction.go:136-384 | a changed result is well-formed, an unchanged one is the input; outside emergency the result is always well-formed |
| Compaction.RecomputedCutoffNotLater | internal/agent/compaction.go:505-549 | the cut recomputed after pruning is above 0 and never later than the one pruning was done for |
| Compaction.ProtectedTailSurvives | internal/agent/compaction.go:281-384 | every message from the first chosen cut on ends the result, unchanged and in order, in every mode |
| Compaction.MinimumTurnsKept | internal/agent/compaction.go:399-490 | outside emergency the last MinTailTurns user turns are never summarised away |
| FailurePolicy.FailureReminder.Observe | internal/agent/failure_policy.go:11-22 | the counter and the answer as a function of the old counter |
| FailurePolicy.CounterIsStreak | internal/agent/failure_policy.go:11-22 | the counter is the current streak capped at three, and it fires exactly when the streak is three |
| FailurePolicy.OneReminderPerStreak | internal/agent/failure_policy.go:5-22 | in every maximal streak of failed rounds it fires after the third round and at no other |
| FailurePolicy.NoReminderAfterSuccess | internal/agent/failure_policy.go:12-15 | never after a round with a success |
| FailurePolicy.ModelResponse.MaybeRecoverToolCalls | internal/agent/tool_recovery.go:30-58 | rewrites content, calls and raw JSON as `Prepared` says with tools on |
| FailurePolicy.ModelResponse.PrepareToolResponse | internal/agent/failure_policy.go:28-46 | rewrites the reply in place as `Prepared` says |
| FailurePolicy.PreparedGood | internal/agent/failure_policy.go:28-46 | a prepared reply keeps consistent IDs, and with tools off it has no calls |
| FailurePolicy.PreparedMeans | internal/agent/failure_policy.go:28-46 | field by field what preparing a reply does, with tools on and off |
| ToolRounds.ExecuteTools | internal/agent/sdkbridge.go:151-246 | hands all its calls to the executor and returns one result per call, in call order, taken by ID from whatever came back |
| ToolRounds.RealignedByID | internal/agent/sdkbridge.go:176-204 | a call's result is the last response with its ID, wherever that stood |
| ToolRounds.UnansweredFails | internal/agent/sdkbridge.go:176-204 | a call nothing was said about has failed |
| ToolRounds.RunWithCap | internal/agent/loop.go:2409-2466 | hands exactly the calls within the cap to the executor; those get its results, the rest a deferral, in call order |
| ToolRounds.PadMissing | internal/agent/loop.go:2442-2466 | a short result list is completed by ID, a full one left alone |
| ToolRounds.RunRound | internal/agent/loop.go:2409-2548 | the calls that ran, as many as the cap lets through; the tool messages of the round; and whether every call failed |
| ToolRounds.FailedMeans | internal/agent/loop.go:2468-2525 | a round has failed exactly when nothing of it was deferred and every call failed |
| ToolRounds.RoundAnswersCalls | internal/agent/loop.go:2433-2548 | whatever the executor returned, the round answers each of its calls exactly once |
| ToolRounds.GuardMessages | internal/agent/loop.go:2827-2846 | every call of a guarded round is answered without running |
| ToolRounds.PadOrphanToolResults | internal/agent/loop.go:2862-2895 | appends a stopped result for each unanswered call of the newest caller |
| ToolRounds.LastCallerMeans | internal/agent/loop.go:2864-2876 | the caller repaired is the newest assistant message with calls |
| ToolRounds.RepairAppends | internal/agent/loop.go:2862-2895 | the repair only appends, each time a stopped result for a call of the newest caller that nothing behind it answers |
| ToolRounds.RepairInterruptedRound | internal/agent/loop.go:2852-2895 | a round cut off after any of its results is repaired into a well-formed session |
| ToolRounds.RepairHarmlessIff | internal/agent/loop.go:2852-2895 | repairing a complete session leaves it well-formed exactly when the newest caller's calls all have IDs |
| ReAct.AlwaysWellFormed | internal/agent/loop.go:2197-2565 | session and request are complete after every event but an interrupted round |
| ReAct.EveryRequestWellFormed | internal/agent/loop.go:2197-2584 | every request of the turn is well-formed, across rounds, deferrals, missing responses, guard, steering, rebuilds and the final nudge |
| ReAct.CompactedNamed | internal/agent/compaction.go:136-161 | compaction never makes up a call |
| ReAct.EveryTurnRepaired | internal/agent/loop.go:2345-2358 | wherever the turn ends, also between a caller and its results, the closing repair leaves a well-formed session |
| ReAct.GuardIsPermanent | internal/agent/loop.go:2254-2289 | after the guard has tripped no round runs or is guarded and no request offers tools |
| ReAct.NoThreeInARow | internal/agent/loop.go:2359-2383 | among all calls that pass the detector in a turn no three in a row share name and arguments |
| ReAct.RunsWithinCap | internal/agent/loop.go:2409-2440 | the executor is handed the leading calls of a round, exactly as many as the cap lets through; their messages carry what it said to exactly those, every other call a deferral; and when the round counts as failed |
| ReAct.RetryAsksTheSame | internal/agent/loop.go:1050-1072 | a rebuild directly answers a context-limit error with the emergency compaction of the session, is the only one of the turn, and is followed only by the same request anew, on prompt plus compacted session, with the same tools |
| ReAct.FinalRequestIsLast | internal/agent/loop.go:2570-2616 | the final request comes only when every iteration has made its call, offers no tools, and only its answer follows |
| ReAct.NothingAfterClosing | internal/agent/loop.go:2310-2329 | a turn ends with the first answer after which nothing waits |
| ReAct.CallsBounded | internal/agent/loop.go:2229-2584 | a turn makes at most maxToolIterations + 2 model calls: one per iteration, the forced one and one retry |
| ReAct.ReminderOncePerStreak | internal/agent/loop.go:2468-2554 | over a whole turn the reminder follows exactly the third round of each maximal all-failed streak, and no round with a success |
| ReActEffects.StartsFrom | internal/agent/loop.go:2184-2197 | a turn starts from the sanitized history while that is below the trigger limit, and always keeps its protected tail |
| ReActEffects.FirstRequest | internal/agent/loop.go:2197-2236 | the first request: prompt, session, steering so far |
| ReActEffects.RequestGrows | internal/agent/loop.go:2229-2584 | each later request from the one before it: a rebuilt session, or the earlier request, then the answer with text, the round with its reminder or the guarded round with its warning, then the steering, then the nudge |
| ReActEffects.SessionGrows | internal/agent/loop.go:2291-2616 | what each event does to the session; answers without text are saved too |
| ReActEffects.RequestShowsSession | internal/agent/loop.go:2197-2236 | a request is the prompt and the whole session but for answers without text |
| ReActEffects.GuardIffTriple | internal/agent/loop.go:2359-2387 | a round is guarded exactly when three equal calls stand in a row among the turn's calls up to its end |
| ReActEffects.OfferedIff | internal/agent/loop.go:2254-2258 | exactly when a request offers tools |
| ReActEffects.AnswerMeans | internal/agent/loop.go:2291-2604 | an answer is the text of the reply it answers; the forced one the text of the last reply, or the fallback line if there is none |
| ReActEffects.CallerMeans | internal/agent/loop.go:2289-2358 | the caller of a round is the prepared reply that asks for it, all its calls and its raw JSON included |
| ReActEffects.PartsAt | internal/agent/loop.go:2303-2334 | the reply's parts are the assistant's non-empty texts, each at its place |
| ReActEffects.DeliveredAnswer | internal/agent/loop.go:2310-2641 | what a turn delivers ends with the text of the answer that closed it |
| ReActLoop.OneMore | internal/agent/loop.go:2366-2376 | the running counter reaches three exactly when a call completes a triple |
| ReActLoop.DetectLoop | internal/agent/loop.go:2359-2378 | detects exactly when the calls so far plus this round contain three equal ones in a row |
| ReActLoop.AppendEach | internal/agent/loop.go:2032-2041 | saves and shows each message once, in order |
| ReActLoop.Drain | internal/agent/loop.go:2233-2236 | folds all waiting steering into session and request |
| ReActLoop.CallWithEmergencyRetry | internal/agent/loop.go:1031-1072 | one call, or after a first context-limit error and a compaction that did something, one more |
| ReActLoop.ToolRound | internal/agent/loop.go:2345-2554 | saves the caller, stops if saving failed, guards or runs the round, reminds when due |
| ReActLoop.AnswerRound | internal/agent/loop.go:2291-2329 | a reply without calls ends the turn unless steering waits, and then the loop goes on; what is sent again is `ReActEffects.RequestGrows` |
| ReActLoop.Iterate | internal/agent/loop.go:2229-2565 | one pass keeps session, request, detector, reminder and flags what the log says, and costs one model call besides the retry |
| ReActLoop.DeliverFinal | internal/agent/loop.go:2567-2622 | one request with the nudge and without tools; its answer, which `ReActEffects.AnswerMeans` determines, ends the turn |
| ReActLoop.TurnIsSound | internal/agent/loop.go:2184-2622 | from any history every request is well-formed, and the repaired session is if the history's calls have IDs |
| ReActLoop.RunTurn | internal/agent/loop.go:2184-2622 | the whole loop writes a legal log, the session is what the log says, and the turn ends with the joined reply, a broken store, or a model error the retry could not cure |
| ReActLoop.FinishSession | internal/agent/turns.go:190-201 | repair, then the unread steering in order |
| ReActLoop.HandleMessage | internal/agent/loop.go:2043-2622 | at most maxToolIterations + 2 model calls; all requests well-formed; a well-formed session after the turn |
| Steering.StepTakes | internal/agent/turns.go:141-182 | one operation: accepted messages go to the end of the inbox, a drain or a close takes all of it |
| Steering.AcceptedIsHandedOut | internal/agent/turns.go:141-205 | once a turn is released, what was accepted is what its drains handed out, then its leftover |
| Steering.UsersAreDrains | internal/agent/loop.go:2032-2041 | of all a turn appends to its session, the user's messages are its drains, in order |
| Steering.SteeringReachesSession | internal/agent/turns.go:141-205 | the user's messages the loop appends, then what finishing appends, are exactly the accepted steering, once each, in order |
| Steering.SteeringInFinalSession | internal/agent/turns.go:190-201 | in the session a turn leaves uncompacted the user's messages are those it found, then the accepted steering |
| Lease.CallKeepsInv | internal/channels/lease.go:77-179 | every step of loop, adapter, renew loop and context keeps one call consistent |
| Lease.EveryInterleavingOrderly | internal/channels/lease.go:77-179 | in every interleaving starts never overlap and each belongs to a won Acquire, no tenure is won before the last adapter returned, Acquire runs with no adapter and no renew loop alive, Release follows the adapter's return, and an ended call leaves no adapter |
| Lease.OnlyTheContextEndsIt | internal/channels/lease.go:77-147 | in every interleaving the call ends only once its context has |
| Lease.SleepsAndRetries | internal/channels/lease.go:77-147 | with a live context a failed attempt, a lost lease and a finished release all lead to the retry interval, and from there to acquiring again |
| Lease.NeverStuck | internal/channels/lease.go:77-147 | wherever the call stands, steps of its own lead it back to acquiring, or to its end if the context is done |
| Lease.LostEndsRenewing | internal/channels/lease.go:149-179 | the renew loop goes on through renewals and errors and ends when the lease is lost, which ends the tenure |
| Lease.ReleasedOnce | internal/channels/lease.go:113-134 | a tenure ended by the context or by the adapter is released exactly once, before the call sleeps, retries or ends |
| Lease.LostNotReleased | internal/channels/lease.go:135-145 | a tenure whose lease was lost is never released |
| Lease.RunWithLease | internal/channels/lease.go:59-147 | the call under any schedule of its goroutines is the interleaving's state, of which the laws above speak |
| Lease.StepKeepsCovered | internal/channels/lease.go:59-179 | every step of any process's call keeps: a process with a live adapter holds the row, and the adapter is gone before it lapses, whatever lease calls err and whether they took effect |
| Lease.ExclusionIff | internal/channels/lease.go:23-31 | over all runs of any number of these calls at most one adapter is ever live, if and only if interval, lateness and drain fit into the TTL |
| Lease.Overlap | internal/channels/lease.go:149-179 | otherwise two processes can run the adapter at once |
| Lease.ShippedConstants | internal/channels/lease.go:27-31 | what the condition means for a TTL of 30 s and an interval of 10 s |
| Lease.WriteProtects | internal/store/database.go:4930-5013 | a won or renewed lease keeps every other process out for exactly the TTL |
| Lease.ReleaseLetsIn | internal/store/database.go:5016-5030 | a release by the holder lets everybody in at once, one by anybody else changes nothing |
| Lease.FreeAfterTTL | internal/store/database.go:4930-4986 | once the row has not been written for longer than the TTL any process can take it |
| RateLimit.RateLimiter.Allow | internal/api/ratelimit.go:29-53 | trims, refuses at the limit, else records, as `AllowNext` says |
| RateLimit.RateLimiter.Cleanup | internal/api/ratelimit.go:56-83 | one tick trims every user and forgets the empty ones |
| RateLimit.AnswersMatchReference | internal/api/ratelimit.go:29-83 | a request is refused exactly when rpm admitted ones lie in its window, for every run and any cleanup ticks |
| RateLimit.CleanupNeverMatters | internal/api/ratelimit.go:56-83 | runs with the same requests answer alike whatever cleanup they had |
| RateLimit.GrantedAreAdmitted | internal/api/ratelimit.go:29-83 | along every run the times the limiter itself said yes are the reference's |
| RateLimit.LimiterBound | internal/api/ratelimit.go:29-83 | at every time the limiter has said yes to a user at most rpm times in the window ending there |
| RateLimit.SweepKeeps | internal/api/ratelimit.go:56-83 | a cleanup tick keeps a user exactly when the limiter said yes to it within the window, and as many times as it did |
| Reservation.CapacityHolds | internal/fairqueue/policy.go:22-51 | after any run the total is within the global limit and each tenant within its burst |
| Reservation.DecisionsAlongRuns | internal/fairqueue/policy.go:22-51 | for an active tenant the consistency errors are unreachable; each of the six decisions exactly when it is due; and when a sole borrower is refused |
| Reservation.ErrorIff | internal/fairqueue/policy.go:22-34 | exactly when a decision is an error, whatever the counts |
| Reservation.NoGainAboveBase | internal/fairqueue/policy.go:41-51 | while two tenants are active no tenant ends above its base, or above what it held before |
| Reservation.AboveBaseMeansWasAlone | internal/fairqueue/policy.go:44-50 | a tenant above its base borrowed at a moment when it was the only active one |
| Reservation.SoleTenantFills | internal/fairqueue/policy.go:22-51 | a sole tenant that keeps asking ends at exactly its burst, or its base without borrowing |
| Bubbles.JoinReplyParts | internal/agent/loop.go:2627-2641 | joins the non-blank parts with the marker |
| Bubbles.SplitOutboundText | internal/channels/base.go:198-209 | the trimmed non-blank pieces between markers |
| Bubbles.SpokenInOrder | internal/agent/loop.go:2627-2633 | the parts joined are the non-blank ones, in order |
| Bubbles.JoinedEndsWith | internal/agent/loop.go:2627-2641 | a further non-blank part comes last, behind a marker if anything was said before |
| Bubbles.ChunksClean | internal/channels/base.go:194-209 | every bubble is trimmed, not empty and free of the marker |
| Bubbles.BubblesUndoJoinIff | internal/channels/base.go:194-209 | splitting a joined reply gives its trimmed non-blank parts exactly when no part holds the marker |
| Text.FirstSeparator | internal/channels/base.go:20 | no occurrence of a borderless marker straddles the end of a part |
| Tables.IsMarkdownTableRow | internal/channels/base.go:72-85 | the scan finds an unescaped inner pipe exactly when there is one |
| Tables.IsMarkdownTableSeparator | internal/channels/base.go:90-115 | a row whose cells are all dashes with optional colons, or empty |
| Tables.DashCellMeans | internal/channels/base.go:90-115 | a separator cell is blank, or at least one dash with an optional colon at each end |
| Tables.ParseMarkdownTableRow | internal/channels/base.go:119-146 | the index loop computes the cells |
| Tables.AcceptedIffTwoCells | internal/channels/base.go:72-146 | a piped line is accepted as a row exactly when it parses to at least two cells |
| Tables.ParseInvertsEscape | internal/channels/base.go:119-146 | parsing inverts GFM pipe escaping for all trimmed cells |
| Tables.RenderFlatTable | internal/channels/base.go:150-192 | one line per row: "left: right" for two columns, else padded cells joined by dots |
| Tables.RowTextMeans | internal/channels/base.go:150-192 | a row's text, cell by cell: key and value in two columns, else every cell and a blank for each missing one |
| Tables.TableLineBecomes | internal/channels/base.go:43-192 | what each line of a table becomes, in a table as wide as its longest row |
| Tables.FlattenMarkdownTables | internal/channels/base.go:43-67 | the text of `FlatLines` of its lines |
| Tables.OneLineLessPerTable | internal/channels/base.go:43-67 | each table of k lines becomes k - 1 lines |
| Tables.LineStays | internal/channels/base.go:43-67 | each line outside tables stays verbatim, in order |
| Tables.FlatFixedIff | internal/channels/base.go:43-67 | flattening changes a text's lines exactly when a table starts somewhere in it |
| Tables.LinesOfFlattened | internal/channels/base.go:43-192 | no rendered row breaks over lines |
| Tables.WideNoSeparator | internal/channels/base.go:180-191 | a row rendered in three columns or more never looks like a separator |
| Tables.FlatReemerges | internal/channels/base.go:43-192 | flattened lines hold a table exactly when a two-column table of the input has a row that reads like a separator below a line that reads like a row |
| Tables.FlattenTwice | internal/channels/base.go:43-192 | flattening a text is idempotent exactly when no table of it comes again in that way; in particular when no row of a table has an escaped pipe |
| Tables.EscapedPipesBreakIt | internal/channels/base.go:43-192 | a text with literal pipes in its cells on which it is not |
| Tables.GfmTableFlattens | internal/channels/base.go:43-192 | a table written by the GFM rules comes out as exactly its rows' texts, whatever its cells hold |
| Tables.KeyValueTable | internal/channels/base.go:31-41 | a two-column table reads "key: value" line by line |
| NestedConfig.GetNested | internal/agentcli/agentcli.go:810-820 | the walk computes `Get`; a scalar on the way or a missing key reads as nil |
| NestedConfig.GetMeans | internal/agentcli/agentcli.go:810-820 | reading without its recursion: the empty path, one key, and one path after another |
| NestedConfig.ReadAfterSet | internal/agentcli/agentcli.go:797-820 | the written path reads the written value, and what every other path reads: along, below, above and beside it |
| NestedConfig.SetTwice | internal/agentcli/agentcli.go:797-808 | a second write at the same path overwrites the first |
| NestedConfig.SetsCommute | internal/agentcli/agentcli.go:797-808 | writes at unrelated paths can be done in either order |
| NestedConfig.Record.SetNested | internal/agentcli/agentcli.go:797-808 | the in-place write of a scalar or a whole record stands for `Set`, keeps the records a tree, and adds only new records and the written one's |

## Left out

- ReActLoop.HandleMessage: hooks are the identity, the missing-provider reply, events, usage, full-text indexing, media, PII scrubbing, metadata of answers and tool messages, and the text of prompts and reminders are not modelled; panics and process death inside a round are covered only through `ToolRounds.RepairInterruptedRound`.
- ReActLoop.RunTurn: the steering drained in a turn is what its world says; `Steering` ties it to what was accepted.
- ReActLoop.CallWithEmergencyRetry: which error texts count as a context limit is an arbitrary choice of the model's answer.
- FailurePolicy.ModelResponse.PrepareToolResponse: what call recovery finds in a text, and the text it leaves, are given data.
- ToolRounds.ExecuteTools: how an executor response turns into text and into failed or not is given data.
- Compaction.PruneOldToolResults: the summary of a pruned tool result is an arbitrary string.
- Compaction.CompressOlder: the summary is an arbitrary string, so the summariser's retries and its deterministic fallback are not modelled, nor the error return that no path of the source reaches.
- Compaction.EstimateTokens: integers are unbounded; the tool definitions' share is one number.
- Lease.RunWithLease: a goroutine's steps are given as a schedule, and one process makes one call; the retry interval and the ticker's period appear only as the timing of the many-process model.
- Lease.ExclusionIff: clocks are one clock, and a lease write takes effect at one instant.
- NestedConfig.Record.SetNested: recursion down the path takes the place of the loop.
- TurnRuns.RetiredContextAcquiresIff: a turn's cancellation reaches turns derived from its context at their birth and by a step of its own that may come at any later time, not at once.
- Reservation.DecisionsAlongRuns: queues and turns of the fair queue are reduced to which tenants are active (internal/fairqueue/redis_runtime.go:471-476, 545).
- RateLimit.RateLimiter.Cleanup: the ticker and its shutdown are not modelled, one tick is.
- The streaming variant of the loop, plan mode and sub-agents.
- Session persistence, compaction's record lookups, the memory and goal packages, the fair queue's recovery and Redis scripts: not part of this model.
- Redis, SQL, HTTP, WebSocket and chat-platform plumbing; JSON, hashing and UUIDs beyond injectivity and newness.
- Configuration defaults, authorisation checks and slash commands: they are branch-by-branch facts.
