# Kiro proxy: verified models

A Dafny model of the hard logic of a Go proxy that turns Kiro accounts into OpenAI and Anthropic
streaming endpoints. Each module models one part of the program and proves it against a reference
that is simpler than the code:

- `ThinkingSplit`, `InlineReading`, `InlineSplit`: text arrives in arbitrary chunks and `<thinking>` blocks are taken out of it. The reference reads the whole text at once.
- `Overlap`, `Continuation`, `AutoContinue`: an answer cut off at the output limit is continued, and what the continuation repeats is dropped.
- `EventFrames`: the Amazon event stream message format, against an encoder.
- `ToolTable`, `ToolLaws`: tool-call fragments are put together again. The reference runs each call's fragments alone; of fragments without ids, each stretch of one name is a call.
- `Rotation`, `SessionAffinity`, `Failover`, `WebSearch`: which account serves a request, how often it is tried, and what is charged to whom.
- `RefreshLock`: the keyed token-refresh lock as a state machine over the steps of any number of callers.
- `Quota`: reservations on an API key's limits, against a ledger.
- `PromptCache`: the prompt-cache index, against the history of everything stored.
- `MinuteRing`, `CrowdedStore`, `ModelMix`: traffic rings and model totals, against the request log.
- `ResponsesClient`, `ResponsesInput`, `ResponsesStream` and `ClaudeClient`, `ClaudeStream`: the two event-stream emitters, each against a reader that refuses any event out of order.

`Text` and `Speech` hold what they share. `dafny verify dfyconfig.toml` checks all of it.

Objects the program updates in place are classes here; the value-level functions beside them say what
their methods do, and the lemmas are about those functions. Calls into code that is not modelled
(upstream replies, saving the configuration, JSON decoding, checksums, the clock, new ids) are
parameters, mostly functions from a call's number to its outcome, so that the theorems hold for every
outcome.

Some results differ from what one might expect:

- The rotation reaches an account that can always serve within n picks, not n + 1.
- The fixed-margin buffers and the splitter do not agree when a tool call falls inside an open `<thinking>` block; `SplittersAgree` says that they agree exactly if none does, `SplittersDisagree` is an input.
- `repeatedOverlap` trims only the ends of a match, so blanks inside it count towards the sixteen characters that its comment calls non-blank. `InnerBlanksCount` is an input, `FloorIsMetExactlyWhen` the exact condition on the text.
- Finalizing a reservation with a negative amount marks it done but changes no counter, so what was reserved stays charged; `CounterIsActualUsage` says that the counter is the settled and outstanding usage exactly if there is no such operation, `NegativeSettlementIsKept` is an input.
- In the Responses stream the branch that announces reasoning after the fact can never be taken, and in the Claude stream neither can the one that closes an event's thinking after the flush.
- A Responses stream that fails after it began leaves its last item open exactly if text or reasoning, not a call, was the last thing told (`Fail`, `RunAttempt`; `FailureLeavesMessageOpen` is an input); a completed one never does.
- An account's figures in the minute rings are about the rows since its present ring was begun, so an account whose ring was dropped for room may show less than it did. They are the whole window's exactly if none of its earlier rows lies in it (`CellsAreWholeExactlyWhen`); `CrowdedOut` is a run in which one does. No ring is dropped before a 201st account is seen.

## Model

| member | source | states |
|---|---|---|
| `ThinkingSplit.ScanIsSettledThenPending` | proxy/thinking_split.go:35-59 | The reference split of a text is what an incremental reader may already release followed by what it must hold, and ends inside a block exactly when the reader is inside one. |
| `ThinkingSplit.PendingIsPartialTag` | proxy/thinking_split.go:66-81 | What is held back is always a proper prefix of the tag being looked for, for every text. |
| `ThinkingSplit.SettledExtends` | proxy/thinking_split.go:21-29 | More text never changes what was released: the released part of s + t is that of s, then that of the held text + t. |
| `ThinkingSplit.PartialTagSuffixLen` | proxy/thinking_split.go:66-81 | The longest proper prefix of the tag that ends the text: it is one, and no longer one is. |
| `ThinkingSplit.ThinkingTagSplitter.Drain` | proxy/thinking_split.go:35-59 | The loop releases exactly the settled output (all of the reference output when final), leaves exactly the pending text, and never emits an empty segment. |
| `ThinkingSplit.ThinkingTagSplitter.Push` | proxy/thinking_split.go:21-29 | A push releases exactly what the text so far settles and keeps exactly the pending rest and block state. |
| `ThinkingSplit.ThinkingTagSplitter.Flush` | proxy/thinking_split.go:31-33 | A flush releases the held text as it stands, in the kind of the open block, and leaves the block open. |
| `ThinkingSplit.SplitStream` | proxy/thinking_split.go:14-59 | Chunking independence: pushes of any chunks and one flush give the marks of the whole text split at once. |
| `InlineSplit.InlineSplitter.ProcessText` | proxy/handler.go:1181-1265 | Of what is held and comes in, exactly what the reading with the code's margins lets go is said, in order, the source of reasoning is that of the reading, and exactly its rest is held: at most 50 characters, 20 in a block, none after a flush. What was shown plus what is held means the reference split; a flush shows all of it and ends block and phase. |
| `InlineReading.HeldIsShort` | proxy/handler.go:1199-1259 | However text arrives, no more than 50 characters are held back outside a block and no more than 20 inside; nothing after a flush. |
| `InlineSplit.InlineSplitter.ProcessReasoning` | proxy/handler.go:1163-1179 | A reasoning event is shown whole exactly when thinking is on and no tag block claimed the reasoning, and claims it. |
| `InlineSplit.Receive` | proxy/handler.go:1268-1281 | One upstream callback keeps the run invariant: shown so far plus still due is the whole expected answer and reasoning; and it says exactly what this event brings after those before it. |
| `InlineSplit.FinishStream` | proxy/handler.go:1372-1375 | After the last flush the answer, the reasoning, the one reasoning source and the phase brackets are those of the whole stream. |
| `InlineSplit.Run` | proxy/handler.go:1912-2016 | For every stream with events and tool calls anywhere: the answer is the reference answer of each stretch between calls, the reasoning is whole and from the one source the stream determines, answer and reasoning are said in the order they came with each stretch of reasoning begun and ended where the events determine, and the phases are well bracketed. |
| `InlineSplit.FirstSourceWins` | proxy/handler.go:1163-1198 | Over every stream of events, however its text is cut: reasoning comes from the events exactly if thinking is on and one with text came before any opening tag was completed; otherwise from the blocks exactly if an opening tag was completed, and else no source is decided. |
| `InlineSplit.ExpectedWithoutTools` | proxy/handler.go:1162-1266 | Without tool calls the chunks do not matter: the expected text is that of the whole stream split at once. |
| `ResponsesInput.SplittersAgree` | proxy/handler.go:1230-1245 | For streams with any number of tool calls and native reasoning anywhere: the partial-tag splitter and the fixed-margin buffers give the same answer, on the stream, on every part of it and on any text that may follow a part, if and only if no call comes inside an open block. |
| `ResponsesInput.SplittersDisagree` | proxy/handler.go:1230-1245 | An input on which they differ: an opening tag, a tool call, and a letter after it. |
| `Overlap.RepeatedOverlap` | proxy/auto_continue.go:231-249 | The descending loop, which stops early, finds n > 0 if and only if the first n characters are the longest overlap with the tail, have at least sixteen characters from the first to the last that is not blank, and are no whole-line repeat; otherwise it finds 0. |
| `Overlap.FloorIsMetExactlyWhen` | proxy/auto_continue.go:218-236 | The documented floor of sixteen non-blank characters holds of all that is ever dropped from a text, whatever the answer before it, if and only if every start of the text that passes the code's test has sixteen non-blank characters. |
| `Overlap.InnerBlanksCount` | proxy/auto_continue.go:218-236 | An input for which the documented floor fails: two letters around fourteen blanks are dropped. |
| `Overlap.DropCountIsSettled` | proxy/auto_continue.go:171-183 | Once as much is held as the tail is long, no further text changes the count: releasing then is safe. |
| `Overlap.DroppedIsLongestRepeat` | proxy/auto_continue.go:223-249 | Said of the whole answer: what is dropped of a text is its longest start, of at most 1024 characters, that the answer ends with, and nothing if that trims to fewer than sixteen characters or repeats whole lines. |
| `Continuation.ContinuationHop.ForwardAnswer` | proxy/auto_continue.go:171-183 | Text is held until it can be compared, then all that was delivered is compared, once; what the client was told is always what was let through, less the repeat. |
| `Continuation.ContinuationHop.ReleaseHeld` | proxy/auto_continue.go:185-200 | The held text is sent without the repeat, at most once. |
| `Continuation.ContinuationHop.OnText` | proxy/auto_continue.go:127-140 | The first hop passes text through; a continuation lets through exactly what its splitter settles as answer, and reasoning adds nothing. |
| `Continuation.ContinuationHop.OnToolUse` | proxy/auto_continue.go:141-150 | On a continuation everything held is let through before the call, the call comes after it, and it is the last thing sent; the first hop just passes it on. |
| `Continuation.ContinuationHop.Flush` | proxy/auto_continue.go:203-212 | Flushing releases the held text and reports whether the hop ended inside a block. |
| `Continuation.Deliver` | proxy/auto_continue.go:105-212 | For every delivery of a hop in any chunks: a finished continuation has told the client exactly ContinuedLine, character by character with each tool call in its place, an unfinished one a prefix of it, and a first hop everything unchanged. |
| `Continuation.ContinuedLineSays` | proxy/auto_continue.go:125-212 | What a continuation tells is its answer text minus the repeated opening, all of its tool calls in order, and no reasoning. |
| `Continuation.OpeningIsPrefix` | proxy/auto_continue.go:141-150 | What is compared (the text before the first tool call) is a prefix of the hop's text. |
| `Continuation.HopTextWithoutTools` | proxy/auto_continue.go:125-159 | Without tool calls the hop's text is the answer of its whole text split at once. |
| `AutoContinue.ContinuationWithoutTools` | proxy/auto_continue.go:125-249 | A tool-free continuation sends its answer text without its first DropCount(tail, text) characters. |
| `AutoContinue.RunAutoContinue` | proxy/auto_continue.go:35-103 | At most maxContinuations + 1 calls; a run that ends well reports stop reason and completion once, with totals summed over hops; the client is told, in order, all text and tool calls of every hop used, and at most a prefix of those of a call that ended the run early; why it ends, and that an error reports nothing. What repeats of the answer are left out is said by ContinuationsDropTheRepeat, when a run goes on by GoesOnExactlyWhen, and what the totals are by ReportsSayTheTotals. |
| `AutoContinue.BudgetKept` | proxy/auto_continue.go:59-86 | If upstream stays within each grant, total output never exceeds the client's max_tokens, also in runs that end with a failed continuation or in which continuations report no output; needed is only that the first call reports some, or that the estimate used in its place is never negative. |
| `AutoContinue.ContinuationsReplayEverything` | proxy/auto_continue.go:65-70 | Every continuation replays the original turn and the whole answer so far, or, once a hop returned a followup payload, the turn of the last one and the whole answer from that hop on; without a limit of the client's its configuration is that turn's own. |
| `AutoContinue.ContinuationsDropTheRepeat` | proxy/auto_continue.go:185-249 | In every run every continuation's opening loses exactly its longest start, of at most 1024 characters, with which the whole answer before it ends, and nothing if that trims to fewer than sixteen characters or repeats whole lines; the rest of its text and all of its calls are told. |
| `AutoContinue.GoesOnExactlyWhen` | proxy/auto_continue.go:251-283 | A run may go on after a call exactly if it answered with visible text and no tool call, ended outside a thinking block, stopped at the output cap, by its stop reason or without one by 7782 tokens or more, and left room in the client's own limit. |
| `AutoContinue.LastNoteCounts` | proxy/auto_continue.go:151-157 | Of each kind of report a call makes the last counts, each figure for what it is. |
| `AutoContinue.NoNoteNoFigure` | proxy/auto_continue.go:151-157 | A figure no report came for is empty. |
| `AutoContinue.FinalStopIsLast` | proxy/auto_continue.go:62-67 | The stop reason reported is that of the last call that succeeded. |
| `AutoContinue.ReportsSayTheTotals` | proxy/auto_continue.go:89-102 | Read as a call's own reports are, those of a run say the sums over all of its calls, figure by figure; credits and cache counts are left out only where there are none. |
| `EventFrames.HeadersRoundTrip` | proxy/kiro.go:1122-1168 | Decoding encoded headers of any value types gives those headers. |
| `EventFrames.HeadersReencode` | proxy/kiro.go:1122-1168 | Bytes that decode as headers are the encoding of what they decode to. |
| `EventFrames.ParseHeaders` | proxy/kiro.go:1122-1168 | The parser never reads outside the data, fails exactly when decoding fails with the same error, and returns exactly the string-typed headers. |
| `EventFrames.ParseFrames` | proxy/kiro.go:595-641 | The frame loop returns exactly the decoded messages and how the stream ended. |
| `EventFrames.StreamRoundTrip` | proxy/kiro.go:595-627 | Decoding the concatenation of any encoded messages returns exactly those messages and a clean end. |
| `EventFrames.PrefixDecodes` | proxy/kiro.go:595-627 | Every prefix decodes to the whole messages in it, and ends cleanly exactly on a frame boundary, otherwise as truncated. |
| `EventFrames.CutInsideFrame` | proxy/kiro.go:715-721 | A stream cut inside a frame is a truncation after the whole messages before it. |
| `EventFrames.CleanEndMeansEncoded` | proxy/kiro.go:605-623 | A clean end means the bytes are the encoding of valid messages, checksums included. |
| `ToolTable.PendingToolUses.HandleToolUseEvent` | proxy/kiro.go:1001-1064 | One fragment does what the value-level Step does, error case included, and keeps the table valid (order lists exactly the pending ids once); ToolLaws says of whole streams what that amounts to. |
| `ToolTable.PendingToolUses.FlushAll` | proxy/kiro.go:986-999 | Finishes in arrival order, stops at the first failure and always leaves the table empty. |
| `ToolTable.StepKeepsValid` | proxy/kiro.go:946-984 | Every fragment keeps order a duplicate-free listing of exactly the pending ids. |
| `ToolTable.RekeyKeepsPosition` | proxy/kiro.go:955-971 | Swapping an id replaces it in its place in the order and keeps the table valid. |
| `ToolTable.InterleavingDoesNotMatter` | proxy/kiro.go:1007-1064 | When every fragment has an id and none fails, one id's calls under any interleaving are those of its own fragments alone. |
| `ToolTable.PiecesAreJoined` | proxy/kiro.go:1049-1092 | However one call's arguments are cut into pieces, with or without a stop, it is made once, under its id and name, with the pieces joined and decoded, {} if they are blank, and refused exactly when they are no JSON object. |
| `ToolTable.LateIdIsAdopted` | proxy/kiro.go:1012-1018 | An opening fragment without an id followed by one with an id is as if the first had carried it. |
| `ToolTable.RunStream` | proxy/kiro.go:667-686 | A whole stream through the class gives the specified calls, and per id those of its own fragments. |
| `ToolLaws.EveryOpenedCallIsMade` | proxy/kiro.go:1001-1064 | In every stream that does not fail, whatever ids its fragments carry or lack, the calls made are exactly the calls opened, by name and number: none lost, none doubled. |
| `ToolLaws.NewNameEndsLast` | proxy/kiro.go:1031-1042 | One with another name first ends the call seen last, exactly as a stop for it would, and then opens its own. A fragment without an id and with no other name is one of the call seen last (NoIdMeansLast). |
| `ToolLaws.StretchesAreCalls` | proxy/kiro.go:1031-1092 | A stream in which no fragment has an id: each stretch of one name is one call with its pieces joined and decoded, in order, and the stream fails exactly if the pieces of one are no JSON object. |
| `ToolLaws.WholeObjectReplaces` | proxy/kiro.go:1049-1055 | Arguments sent as a whole object replace all pieces before them. |
| `Rotation.AccountPool.Reload` | pool/account.go:45-71 | The slots are the eligible accounts by weight, the cursor stays in range and an empty pool resets it. |
| `Rotation.WeightedIsFromEnabled` | pool/account.go:52-62 | Every slot holds an enabled account. |
| `Rotation.SlotsByWeight` | pool/account.go:52-62 | Every enabled account has as many slots as its weight says, and at least one, unless it used up a limit that nothing allows it to exceed; then it has none. |
| `Rotation.AccountPool.UpdateToken` | pool/account.go:458-470 | Changes the token of every copy of the account and nothing else. |
| `Rotation.AccountPool.FindNextAvailable` | pool/account.go:191-218 | Returns the first slot from the cursor that serves (and is not the last account), despite skipping repeated ids, and moves the cursor past it; otherwise nothing changes. |
| `Rotation.AccountPool.NextAccount` | pool/account.go:177-189 | Two passes amount to one Pick. |
| `Rotation.AccountPool.GetPreferredForModelExcluding` | pool/account.go:155-175 | Nil exactly when no slot can serve; what is returned can serve and is not excluded; a preferred hit leaves the cursor alone. ServesExactlyWhen says what serving takes, reason by reason. |
| `Rotation.PickMeaning` | pool/account.go:177-218 | A pick fails exactly when nobody serves and then changes nothing; it avoids the last account when another serves. |
| `Rotation.PickComesCloser` | pool/account.go:191-218 | Every pick of another account brings a waiting one nearer to the cursor. |
| `Rotation.NoStarvation` | pool/account.go:155-218 | An account that can always serve is picked within n rotation picks of n slots, whatever the others' eligibility does and however many preferred hits come between. |
| `Rotation.AllServeInTurn` | pool/account.go:191-218 | When everybody serves, distinct accounts are picked in slot order. |
| `SessionAffinity.SessionAffinityMap.Lookup` | proxy/session_affinity.go:37-53 | The account of the last binding within the hour and nothing else, for every conversation but those whose last binding was itself dropped from a crowded map; for these, that account or none. |
| `SessionAffinity.SessionAffinityMap.Bind` | proxy/session_affinity.go:55-66 | The conversation is found from now on, whatever was dropped before; the map stays within its bound, and of the others no more live bindings are lost than are above 90% of the bound, and none unless this one is new and the map full. |
| `SessionAffinity.Evicted` | proxy/session_affinity.go:72-86 | Drops what has lapsed and of the live bindings just as many as are above 90% of the bound; nothing held is changed. |
| `Failover.CallWithFailover` | proxy/claude_websearch.go:529-572 | At most maxPerRequest attempts, at most maxPerAccount on one account, no account returned to once left, nothing after a success, client error or cancellation; an account is tried again exactly when the plan allows it after that attempt; why it stopped and what it returns. |
| `Failover.TriedAgainExactlyWhen` | proxy/account_failover.go:39-48 | In every request an account is tried again after a failed attempt exactly if the error is not the caller's, not a cancellation and not final for the account (a broken stream never is), and neither the account's nor the request's attempts are used up. |
| `Failover.TryAccount` | proxy/claude_websearch.go:543-565 | One account's attempts: bounded, and after each error another one exactly if the plan's retry rule allows it. |
| `Failover.PickAccount` | proxy/session_affinity.go:98-109 | Picks none exactly when no account outside the excluded ones can serve. |
| `Failover.RoundKeepsDiscipline` | proxy/claude_websearch.go:536-567 | A round on a new account keeps every bound of the attempts before it. |
| `Failover.RoundStaysExact` | proxy/account_failover.go:39-48 | One account's retry rule, counted from its own first attempt, is the rule over all attempts of the request. |
| `Failover.NewRequestRetryPlan` | proxy/account_failover.go:19-37 | The plan allows at least one attempt, and configured positive limits as they are. |
| `WebSearch.RunClaudeWebSearchLoop` | proxy/claude_websearch.go:376-527 | At most maxUses + 2 rounds; why it ended; the searches asked for in all rounds are served in order out of one budget: exactly as many run as there are queries, capped at maxUses, and an answer presents their outcomes in that order; each account is credited once with exactly what the rounds it answered spent, all credits add up to what was spent, and the account picked last, and no other, counts the request. |
| `WebSearch.RunWebSearches` | proxy/claude_websearch.go:324-344 | Outcomes in order, the counter grows by the searches run and never past maxUses. |
| `WebSearch.SearchesRun` | proxy/claude_websearch.go:326-342 | As many valid queries run as the budget allows, and each use gets an outcome. |
| `WebSearch.RunFinalSearches` | proxy/claude_websearch.go:452-468 | Searches beside client tools in the last round have the outcomes of the searches alone, within the same budget, and exactly as many run as it allows. |
| `WebSearch.OutcomesConcat` | proxy/claude_websearch.go:324-344 | Serving searches in several rounds is serving them all at once: the budget runs through. |
| `WebSearch.WebSearchLoopUsage.Add` | proxy/claude_websearch.go:497-508 | Adds to the totals and to the one account's share; shares always add up to the totals. |
| `WebSearch.SumSharesAdd` | proxy/claude_websearch.go:504-507 | Adding to one account's share adds just that to the sum of the shares. |
| `WebSearch.RecordWebSearchLoop` | proxy/claude_websearch.go:515-527 | The credits add up to the totals, each account is credited once, and only the last counts the request. |
| `RefreshLock.ActionKeepsInv` | proxy/token_refresh.go:24-48 | Every step of every caller keeps the invariant: refs counts waiters and holders, table entries are those referred to. |
| `RefreshLock.MutualExclusion` | proxy/token_refresh.go:41-43 | Two holders of one account's gate are the same caller. |
| `RefreshLock.InTableExactlyWhileReferred` | proxy/token_refresh.go:33-40 | An account has an entry exactly while some caller waits for it or holds it. |
| `RefreshLock.EveryRunIsExclusive` | proxy/token_refresh.go:24-98 | Over every schedule of entering, giving up, refreshing, releasing, and accounts deleted and added: mutual exclusion, also across entries dropped and made again. |
| `RefreshLock.WaitersDoNotRefreshAgain` | proxy/token_refresh.go:69-95 | Take any run, a refresh about to be stored in it, and anything that may follow: every later refresh of the account starts from newer tokens, and a caller that held the replaced tokens or older ones, forced or not, refreshes only if the stored token is no longer valid. |
| `RefreshLock.RefreshesExactlyWhenNeeded` | proxy/token_refresh.go:65-79 | After any run, a caller that is still wanted and finds its account asks for new tokens, once and in exchange for just those stored, exactly if it has no API key and they end within two minutes, or it is forced and they are still those it came with; otherwise it returns with the stored tokens. A caller no longer wanted, or whose account is gone, returns with an error. |
| `RefreshLock.NeededRefreshIsDone` | proxy/token_refresh.go:60-98 | A caller alone with tokens that will not do exchanges them exactly once, returns with the new ones, which are stored, and leaves no entry behind. |
| `RefreshLock.EveryCallerCanReturn` | proxy/token_refresh.go:24-56 | From every state of every run every caller under way can be brought to return by letting callers go on, without anyone giving up or failing: the lock never closes for good. |
| `RefreshLock.TokensAreSpentOnce` | proxy/token_refresh.go:24-95 | In every run no two stored refreshes of an account start from the same tokens: the later starts from what the earlier made, or from newer. Accounts may be deleted and added again meanwhile. NothingElseTouchesTokens says which steps change tokens at all. |
| `Quota.KeyStore.ReserveApiKeyRequestUsage` | config/apikeys.go:245-303 | Every refusal and its order; a reservation that cannot be saved leaves the keys as they were; success adds exactly the tokens to the first key with that id. |
| `Quota.KeyStore.ReleaseReservation` | config/apikeys.go:305-329 | Negative amounts and unknown keys change nothing; otherwise exactly this key gives the amounts back, clamped at zero. |
| `Quota.KeyStore.FinalizeReservation` | config/apikeys.go:331-363 | Negative amounts change nothing; otherwise reserved becomes actual on this key only, and a reached limit disables it. |
| `Quota.ReserveApiKeyUsage` | proxy/auth.go:179-191 | No key, no reservation; otherwise at least one token is reserved, exactly when the key is in use, the tokens fit into its limit, its credits are not used up and the change can be saved. |
| `Quota.Reservation.Release` | proxy/auth.go:193-201 | Gives back once and then never again. |
| `Quota.Reservation.Finalize` | proxy/auth.go:203-209 | Settles once and then never again. |
| `Quota.LedgerBalances` | config/apikeys.go:285-363 | In every interleaving TokensUsed is the start plus settled actual tokens, outstanding reserved ones and those of reservations stuck by a negative settlement; it never falls below the start. |
| `Quota.ClampNeverFires` | config/apikeys.go:318-351 | The clamp at zero never changes a result. |
| `Quota.SettlesOnce` | proxy/auth.go:193-209 | A reservation that has ended stays as it is whatever follows. |
| `Quota.CounterIsActualUsage` | proxy/auth.go:193-209 | In every run the tokens used are at least the start plus the settled and the outstanding ones, and exactly these if and only if no operation settles an outstanding reservation with a negative amount. |
| `Quota.StuckExactlyWhen` | proxy/auth.go:203-209 | A reservation stays stuck exactly if some operation of the run settles it with a negative amount while it is outstanding. |
| `Quota.NegativeSettlementIsKept` | config/apikeys.go:331-337 | An input for which the counter is not the usage: a token reserved and settled as minus one stays on the counter. |
| `Quota.EnabledMeansWithinLimits` | config/apikeys.go:285-363 | In every run a key still enabled is within its limits, whatever was settled above what was reserved, its limits are those it had, and a disabled key stays disabled. |
| `Quota.DisabledExactlyWhen` | config/apikeys.go:331-363 | In every run a key stays in use exactly as long as no settlement leaves a limit reached. |
| `Quota.RequestsAreCounted` | config/apikeys.go:331-363 | In every run a key counts each settled reservation as one request, and nothing else. |
| `Quota.AllEndedMeansActualUsage` | proxy/auth.go:203-209 | Once every reservation of a run has ended, the same with nothing outstanding: the counter is the reported usage if and only if none was settled with a negative amount. |
| `Quota.Perform` | proxy/auth.go:179-209 | One operation on the real store and reservations does the ledger's step. |
| `Quota.Interleave` | config/apikeys.go:245-363 | Any sequence of operations on the real store runs the ledger, and the ledger balances. |
| `PromptCache.FingerprintsIdentifyPrefixes` | proxy/cache_tracker.go:81-83 | The length-prefixed encoding is injective: equal fingerprints mean equal block sequences. |
| `PromptCache.BuildClaudeProfile` | proxy/cache_tracker.go:70-121 | The profile's breakpoints are exactly the prefixes with a lifetime; none, no profile; the total covers all blocks. |
| `PromptCache.BuildOpenAIProfile` | proxy/cache_tracker.go:129-184 | The breakpoints are exactly the prefixes of the stable blocks that reach the floor, capped at the total. |
| `PromptCache.ProfileBreakpointIsPrefix` | proxy/cache_tracker.go:99-105 | Every breakpoint of either API stands for a prefix of the request and counts no more tokens than it has. |
| `PromptCache.PromptCacheTracker.PruneExpired` | proxy/cache_tracker.go:281-292 | What is held afterwards is exactly what was stored and is live, for every account. |
| `PromptCache.PromptCacheTracker.Update` | proxy/cache_tracker.go:252-279 | Stores exactly the breakpoints above the floor. |
| `PromptCache.PromptCacheTracker.Compute` | proxy/cache_tracker.go:186-250 | Hits the deepest breakpoint above the floor that is live for the account, renews only it, and reports usage that conserves tokens. |
| `PromptCache.UsageForHit` | proxy/cache_tracker.go:216-249 | Read plus creation is the cacheable input, never above the total; the 5m and 1h parts add up to the creation. |
| `PromptCache.TtlBreakdownLimited` | proxy/cache_tracker.go:538-560 | The two parts add up to the creation, and the hour part counts exactly the tokens first reached by an hour breakpoint, for breakpoints in any order. |
| `PromptCache.LiveMeansStored` | proxy/cache_tracker.go:274-277 | A live entry was stored for that very account and fingerprint. |
| `PromptCache.ReadsAreStoredPrefixes` | proxy/cache_tracker.go:186-279 | In any run a cache read is of blocks that an earlier successful request of the same account began with, word for word. |
| `PromptCache.RunTracker` | proxy/cache_tracker.go:186-279 | In any run with a non-decreasing clock every request is answered by the deepest live prefix of all that was stored and renewed before. |
| `MinuteRing.TouchRefines` | proxy/observe.go:157-163 | Adding a row of the last day keeps the ring right about every minute of the day. |
| `MinuteRing.RefinesLater` | proxy/observe.go:152-163 | Time passing keeps it right: old minutes drop out, new ones read as nothing. |
| `MinuteRing.GetOrCreateAccountRing` | proxy/observe.go:165-191 | A known account keeps its ring and from which row of the log it counts; a new one gets an empty ring that counts from now; nobody else's changes but the victim's of a full store; at most 200 are held, and none is dropped before a 201st account was seen. |
| `MinuteRing.MakeRoom` | proxy/observe.go:174-187 | A full store drops the ring of an account touched longest ago, and only then. |
| `MinuteRing.ObserveStore.CountRequest` | proxy/observe.go:222-252 | A request adds one row: everyone's ring and its account's stay right about the log, and which rows each account's ring is about changes as RingGiven says. |
| `MinuteRing.ObserveStore.RecordFailure` | proxy/observe.go:266-282 | A failed attempt adds one retry row, likewise. |
| `MinuteRing.ObserveStore.Overview` | proxy/observe.go:409-496 | Every window total, rate and series value is the sum over the log's rows of those minutes. |
| `MinuteRing.FiguresAddUp` | proxy/observe.go:222-252 | Every figure of a window, requests, outcomes, retries, tokens, cache counts and credits, is the arithmetic sum of that figure over the log's rows in the window. |
| `MinuteRing.ObserveStore.HeatmapWith` | proxy/observe.go:581-682 | Every cell, dense or sparse, is the sum over the log's rows of its bucket: all rows for everyone, for every account those since its present ring was begun, which are all of its rows if it never lost a ring. |
| `MinuteRing.CellsAreWholeExactlyWhen` | proxy/observe.go:165-191 | An account's heatmap shows its whole window if and only if none of its rows before its present ring lies in the window. |
| `CrowdedStore.CrowdedOut` | proxy/observe.go:165-191 | A run in which it does not: 201 accounts make a request each, a second apart, the first makes another, and its heatmap of the hour shows only that one. |
| `MinuteRing.RequestsSucceedOrFail` | proxy/observe.go:224-230 | In every window the requests are the successes and the failures, so the error rate is a share of all. |
| `MinuteRing.HeatmapConserves` | proxy/observe.go:603-623 | However the window is cut, dense or sparse, the cells add up to the log's total for the window. |
| `MinuteRing.ObserveStore.LoadWindow` | proxy/observe_persist.go:411-434 | A rebuild counts exactly the rows of the last day, in any order. |
| `MinuteRing.GroupingSums` | proxy/observe_persist.go:249-292 | Sums over GROUP BY rows in any order are sums over the rows grouped. |
| `MinuteRing.RebuiltReadsLikeTheLog` | proxy/observe_persist.go:386-434 | After a rebuild from the two queries every window of the day reads as the log itself. |
| `MinuteRing.RebuiltShowsTheSame` | proxy/observe_persist.go:386-434 | The log a rebuild counts has the overview and the heatmaps of the log it was read from. |
| `MinuteRing.RebuiltStoreShowsTheSame` | proxy/observe_persist.go:386-434 | A store rebuilt from another's log shows the same overview and the same heatmap for everyone; an account's heatmaps agree if neither store lost rows of the window with a dropped ring, which a store that never dropped it did not, and differ if just one did. |
| `ModelMix.ModelTotals.CountRow` | proxy/observe.go:241-251 | A row adds to its model's totals, unless it has no model or no account. |
| `ModelMix.ModelTotals.Reload` | proxy/observe_persist.go:404-413 | A reload empties the totals and leaves what is logged to the warmup. |
| `ModelMix.ModelTotals.RunWarmup` | proxy/observe_persist.go:442-468 | After the warmup every logged row counts exactly once, also those counted meanwhile; a stale warmup changes nothing. |
| `ModelMix.TotalConcat` | proxy/observe_persist.go:456-466 | A model's total over a log is that of its first part joined with that of the rest. |
| `ResponsesStream.ResponsesEmitter.EnsureReasoningAdded` | proxy/responses_api.go:346-379 | Opens a reasoning item, a new one with a new id and index if the last was closed, in events the client accepts. |
| `ResponsesStream.ResponsesEmitter.FinishReasoning` | proxy/responses_api.go:380-406 | Closes an open reasoning item, recording the text its deltas gave. |
| `ResponsesStream.ResponsesEmitter.EnsureMessageAdded` | proxy/responses_api.go:407-440 | The same for messages. |
| `ResponsesStream.ResponsesEmitter.FinishMessage` | proxy/responses_api.go:442-468 | The same for messages. |
| `ResponsesStream.ResponsesEmitter.EmitTextDelta` | proxy/responses_api.go:495-514 | Every state of the emitter is kept: the client accepts the events, was told exactly what Kept says, and holds it in exactly the items that lays out. |
| `ResponsesStream.ResponsesEmitter.EmitReasoningDelta` | proxy/responses_api.go:471-491 | The same for reasoning of an admitted source. |
| `ResponsesStream.ResponsesEmitter.EmitTagThinking` | proxy/responses_api.go:517-522 | The same for inline thinking, which is dropped when not asked for or when native reasoning came first. |
| `ResponsesStream.ResponsesEmitter.OnReasoning` | proxy/responses_api.go:529-535 | The same for native reasoning events. |
| `ResponsesStream.ResponsesEmitter.EmitCall` | proxy/responses_api.go:538-580 | A call closes what is open, takes the next index and is closed at once. |
| `ResponsesStream.ResponsesEmitter.Complete` | proxy/responses_api.go:629-679 | The final event is one the client accepts: output is its items, and one empty message more exactly if there was no message or call; the branch that replays unannounced reasoning is dead. |
| `ResponsesStream.ResponsesEmitter.Fail` | proxy/responses_api.go:614-626 | A failure after the start ends the stream; an item stays open exactly if the last thing told was text or reasoning and not a call. |
| `ResponsesStream.FailureLeavesMessageOpen` | proxy/responses_api.go:614-626 | An attempt whose failed stream ends with its message open: one letter, then the error. |
| `ResponsesInput.KeptChars` | proxy/responses_api.go:471-522 | A whole piece of text passes as its characters do one by one. |
| `ResponsesInput.KeptTexts` | proxy/responses_api.go:469-522 | The answer told is all answer text with leading blanks dropped; the reasoning told is all of the first source's, likewise, or none. |
| `ResponsesInput.FlushedParts` | proxy/responses_api.go:524-548 | What came in by the end, native reasoning aside, is the reference reading of the callbacks; and all native text is in it. |
| `ResponsesInput.CallsStandInPlace` | proxy/responses_api.go:524-548 | Every call stands where it came: what precedes it is exactly what the callbacks before it say, native reasoning included. |
| `ResponsesStream.RunAttempt` | proxy/responses_api.go:300-685 | For every callback sequence and ending the trace is accepted and the client was told exactly what Kept says of the callbacks, native reasoning and calls in their places: all of it when the attempt finished (nothing open) or failed (an item open exactly if text or reasoning came last), and what had arrived when the client left. It sends nothing exactly if it failed with nothing to tell. The client's items are exactly what is told laid out by kind: text of one kind in one item until something else comes, each call on its own. |
| `ResponsesStream.UninterruptedTextIsOneItem` | proxy/responses_api.go:346-514 | In every trace no two neighbouring items are both messages or both reasoning, the open one included, and no message or reasoning item is empty. |
| `ResponsesStream.Handle` | proxy/responses_api.go:269-698 | Over every retry history the client's whole trace is that of the first attempt that did not fail with nothing to tell; those before it told nothing, and if there is none nothing is sent. |
| `ResponsesStream.ReplyIsSettled` | proxy/responses_api.go:524-580 | Without native reasoning everything the client is told, text, reasoning and calls in order, is settled by the callbacks, whatever the chunks. |
| `ResponsesStream.TextReplyIsTheAnswer` | proxy/responses_api.go:629-679 | A completed reply without calls says the answer of the whole stream split at once, whatever the chunks. |
| `ClaudeStream.ClaudeEmitter.EnsureMessageStart` | proxy/handler.go:965-983 | Starts the message once. |
| `ClaudeStream.ClaudeEmitter.CloseActiveBlock` | proxy/handler.go:1027-1037 | Stops the open block, if any, under its own index. |
| `ClaudeStream.ClaudeEmitter.StartContentBlock` | proxy/handler.go:1039-1071 | Afterwards a block of that type is open, the same one if it was. |
| `ClaudeStream.ClaudeEmitter.SendThinkingBlock` | proxy/handler.go:1128-1158 | Reasoning goes to thinking blocks only: on in the open one or else into a new one, which is closed when the phase ends; with display omitted there is one block without text from begin to end. |
| `ClaudeStream.ClaudeEmitter.SendText` | proxy/handler.go:1080-1160 | Every well-placed call keeps the state: the client accepts the events and was told exactly what the format renders of the calls. |
| `ClaudeStream.ClaudeEmitter.EmitTool` | proxy/handler.go:1287-1318 | A call is one block of its own between the others. |
| `ClaudeStream.ClaudeEmitter.Finish` | proxy/handler.go:1372-1411 | The message stops with no block open, uninterrupted text in one block. |
| `ClaudeStream.ClaudeEmitter.Abort` | proxy/handler.go:1359-1369 | So does a failed one, with an error event. |
| `ClaudeStream.Receive` | proxy/handler.go:1268-1319 | One callback keeps the run invariant of buffer and emitter together: answer and calls sent so far are what is due so far. |
| `ClaudeStream.RunAttempt` | proxy/handler.go:1012-1412 | For every callback sequence, format and ending: the trace is accepted. What was sent is, character by character, what the callbacks make the buffer let go, answer, reasoning, calls and the bounds of reasoning each where it came: all of it, flushed, for an attempt that finished, or failed when anything it let go had started the message; what was let go so far if the client left. A failed attempt leaves no event exactly if nothing its callbacks let go starts the message (text, a call, or reasoning as the format shows it), and else ends with the held tail and the error. A finished attempt shows the whole answer and calls in order and the reasoning of the one source the callbacks determine. The blocks the client holds are exactly those that what was let go makes, token by token: text goes on in the open block of its kind, and only then; a call is a block of its own. |
| `ClaudeStream.OneBlockForEachStretch` | proxy/handler.go:1039-1158 | Where reasoning has blocks of its own: the thinking blocks' texts are, in order, the stretches of reasoning the callbacks determine that are not empty, one block each; with the display omitted every stretch has one empty block. |
| `ClaudeStream.TextBlocksAreWhole` | proxy/handler.go:1080-1126 | No text block of a reply is empty and no two follow one another. |
| `ClaudeStream.TraceTellsTheCallbacks` | proxy/handler.go:1080-1160 | Reading the trace gives exactly a function of the callbacks: what they let go, with reasoning in thinking blocks, as plain text, left out or between <think> marks as the format says; the marks stand around the stretches of reasoning, do not nest, and all are closed at the end of a finished attempt or of a failed one that had begun. |
| `ClaudeStream.Handle` | proxy/handler.go:985-1414 | Over every retry history the client's whole trace is that of the first attempt that does not fail in silence, as its callbacks alone decide; every attempt before it failed in silence and sent nothing, and if all did the trace is empty. |
| `ClaudeStream.BlocksSayTheCalls` | proxy/handler.go:1128-1158 | With thinking blocks, text blocks hold exactly the answer and thinking blocks exactly the reasoning (none if omitted). |

## Left out

- HTTP, OAuth, SQLite, JSON, admin routes and the user interface: input and output only.
- Request translation (`ClaudeToKiro`, `OpenAIToKiro`, `sanitizeKiroHistory`): not part of this model; the history a continuation replays is taken as built, before sanitizing.
- Reading the events inside a frame (usage, stop reasons, credits) and the tool-markup filter: the frame model stops at headers and payload, and text is taken as it leaves the filter.
- `classifyStreamIntegrity` and error-message tests: whether an error is terminal, final or a cancellation is a property of the error.
- Waiting between retries, and integer overflow: counters are unbounded.
- Floating point: credits are reals, and the cache's 85% cap is any number up to the input total.
- Invalid UTF-8 and the difference between bytes and runes: text is a sequence of characters. Trimming and lower case are those of ASCII.
- Weight-proportional share of the rotation: the first pass skips the last account, so adjacent copies of one account collapse.
- Cooldowns are read by the rotation but set elsewhere; how errors set them is not modelled.
- The name back-fill of a pending tool call (proxy/kiro.go:1026) cannot happen, since an entry is never without a name; it is not in the model.
- Pending tool calls are values in a map field, not shared pointers: replacing an entry stands for updating it.
- The refresh lock is a step relation, not a class: its point is the interleaving of callers.
- The OpenAI chat chunks around the inline buffer: only the buffer, which is the same state machine, is modelled.
- SHA-256 is taken as collision-free: a fingerprint is the text hashed. Flattening a request into blocks and estimating their tokens are inputs.
- Active and total account counts, the ranking of the busiest accounts and the recent-request lists of the statistics would only add easy members.
- Rings of accounts that are no longer configured are not pruned in the model.
- The request log is written at once in `ModelMix`; the program writes it a little later, so a request counted just before a reload may be missing from both.
- Failover.PickAccount: the conversation's preferred account is a parameter of the world it finds; `SessionAffinity` says what it is.
- ResponsesStream.Handle: which account each attempt uses is left to `Failover`; here an attempt is only its callbacks and its end.
- ClaudeStream.Handle: the same.
