# Verified models of the trading backend's stateful components

These Dafny modules model the parts of the repository that keep state over long runs: keyset
pagination of closed trades, the two rate limiters, the event bus, the stream parser, five database
protocols run by many instances, the leadership of the MCP server, and the statistical gate of the
cache parity evaluation. Each model has two layers. Classes and methods follow the source's own
updates in place, and every method is proved equal to a function of the old state. Lemmas then say
what those functions guarantee over every input, every run and every interleaving. For each operation
some of them speak of its inputs and outputs alone, by columns, texts, labels, times and constants,
without the functions that specify it.

| file | models |
|---|---|
| `Pagination.dfy`, `Cursors.dfy` | `get_performance_trades_page` and its cursor codec |
| `RateLimit.dfy` | the token bucket and the bounded bucket table |
| `WsManager.dfy` | the sliding-log limiter and the outbound queue of a WebSocket connection |
| `EventBus.dfy` | queues, replay rings and tombstones |
| `StreamParser.dfy`, `StreamReports.dfy`, `StreamStatuses.dfy` | `parse_stream_chunk`, what a client holds after its reports, and which agents it announces and completes |
| `Migrations.dfy` | the migration runner under its advisory lock |
| `Schedules.dfy`, `CloseRules.dfy`, `Retention.dfy` | claims, close rules and retention |
| `McpLeadership.dfy`, `AuditQueue.dfy` | the MCP manager, its leader lock, and the shutdown of its audit writer |
| `Binomial.dfy`, `ParityGate.dfy` | the exact p-value and the parity gate |
| `Common.dfy` | what several models share |

Run `dafny verify dfyconfig.toml` in this directory.

## Modelling decisions

- Floats and decimals are exact reals. Clocks are parameters. The clock of one process and the clock of the
  database do not run backwards; stamps of several processes may come in any order.
- A table is a map or a sequence of rows. One SQL statement is one atomic step; an interleaving is a
  sequence of such steps. In `McpLeadership` a step is the code between two awaits.
- A crash is a step that can come at any point. It loses the memory of the process, frees its
  session's locks, and rolls back an open transaction.
- `hide` statements in proofs only narrow what the solver looks at; they assume nothing.

## Where the code and its description differ

The models follow the code. Each difference has a lemma with the exact condition.

- `parse_decision` says a reply without a label counts against agreement
  (scripts/cache_parity_eval.py:434-435). The code drops it. Its rate equals the documented one exactly when
  every fixture the old arm labelled has a reply with a label, or nothing matches:
  `ParityGate.AgreementIsDocumentedExactly`. The gate passes where the documented gate fails exactly when the
  matches suffice for the comparable fixtures but not for all labelled ones: `ParityGate.GateDiffersExactly`,
  and `ParityGate.MissingReplyPasses` is such an evaluation.
- `claim_manual_trigger` promises a single winner (backend/async_persistence.py:3380-3386). After a win, a
  second caller with the same reading wins exactly when the schedule is active and the stamp written last, by a
  winner or by an execution, is that reading: `Schedules.ManualClaimWinsExactly`. Behind the caller's cooldown
  that needs a stamp no later than the reading from a scheduled claim, whose clock then lags, from an execution
  that was started before the first winner and restamps after it
  (backend/services/scan_scheduler_service.py:448 and 488-493), or from an execution that the recovery at startup
  replays without a claim (640-669 of that file): `Schedules.CooldownGivesSingleWinner`.
  `Schedules.LaggingClockGivesTwoWinners`, `Schedules.SlowExecutionGivesTwoWinners` and
  `Schedules.ReplayGivesTwoWinners` are such runs; in the second every clock is right.
- `claim_scheduled_scan` promises a single runner across instances (backend/async_persistence.py:3362-3367). The
  replay at startup takes no claim. A due time that a claim won is run again exactly by the replays of instances
  that saw it before, and one that was replayed is run again exactly by every further replay and by every claim
  while it is still due: `Schedules.SecondRunExactly`. Instances that start together run it more than once:
  `Schedules.StartingTogetherRunsThrice`.
- `_decode_cursor` means to answer 422 to any garbage (backend/routers/performance.py:47-49). Under the amount
  sort it raises instead exactly for a valid id after an integer whose magnitude is at least
  `2^1024 - 2^970`, so that `math.isfinite` overflows, and below `10^4300`, so that `json.loads` accepts the
  literal: `Cursors.DecodeCrashesExactlyOnUnconvertible`. `[10^309, id]` is such a cursor:
  `Cursors.TenToThe309Crashes`.
- A chunk without a `messages` entry resets the message count, so the next chunk replays every message
  (backend/stream_parser.py:154-156): `StreamParser.ProcessedOnceExactlyWhenGrowing`.
- Debate and risk histories are cumulative but sent with `append=True` (backend/stream_parser.py:199 and 275),
  and the client appends them (frontend/src/hooks/useAnalysisWebSocket.ts:303-305). It holds the last history
  exactly when the history changed at most once: `StreamReports.HistoryIsLastTextExactly`. A history "a" that
  grows to "ab" is held as "aab": `StreamReports.GrowingHistoryIsRepeated`.
- `_stop_transport` shuts the audit writer down twice, through the server without a guard and then by itself
  (backend/mcp/mount.py:374-383). A record enqueued after the first drain ended is never marked done, so the
  second drain waits for ever (`AuditQueue.SecondShutdownWaitsExactly`, `AuditQueue.LateRecordJams`). The first
  shutdown raises exactly when its cancel lands in a write with no other record in the queue, because the task
  then counts that record done twice (backend/mcp/core/audit.py:95-106): `AuditQueue.CancelFailsExactly`. With
  wakeups in the order in which tasks became ready, which is asyncio's, no cancel lands in a write, so it never
  raises and the wait is the only bad end: `AuditQueue.InOrderNeverRaises`,
  `AuditQueue.InOrderSecondShutdownWaitsExactly`, `McpLeadership.InOrderNeverHalfStops`.
  `McpLeadership.StopClearsExactly` says how a stop ends in each case, and `McpLeadership.BadStopsHappen` gives
  a run for each bad end.
- What a bad stop keeps: after one that raised, or that waits at its first shutdown, the leader lock stays until
  the process ends (`McpLeadership.DeadStopBlocksFailover`), and `enable` stores the flag over a server that is
  not served, the half-state its comment rules out (backend/mcp/mount.py:315-318; the contract of
  `McpLeadership.MCPManager.Enable`). After one that waits at the second shutdown the lock stays through all
  later stops (`McpLeadership.HungStopKeepsTheLock`), until an `enable`, which starts over under the old
  leadership, and a stop after it that ends (`McpLeadership.HungStopIsReleasedByEnable`).
- The audit writer is published before its `start()` is awaited (backend/mcp/mount.py:253-254), and requests
  enqueue into it (backend/mcp/router.py:50-55). If the start then fails with such a record, the teardown that is
  to leave nothing waits for ever: `McpLeadership.FailedStartClearsExactly`, and `McpLeadership.EarlyRecordsHappen`
  is such a run.
- The leader election is for any multi-worker deployment (backend/mcp/mount.py:133-135), but it reads the number
  of workers from `WEB_CONCURRENCY` (backend/mcp/mount.py:143-145). Several worker processes that it does not
  announce all become writers: `McpLeadership.SingleWriterExactly`. The application does not start without a
  database address (backend/main.py:194-196), so that branch of the election is not the cause.
- Keyset pagination is exact only if the sort value survives `float` and `Decimal(str(..))`
  (backend/async_persistence.py:2947 and 2965), and only where a cursor is taken. A fetch continues exactly if and
  only if no row it could select stands at or between the last row's place and the returned one:
  `Pagination.FetchContinuesExactly`. Any value that does not survive breaks some walk:
  `Pagination.InexactTripBreaksWalk`.

## Model

| member | source | states |
|---|---|---|
| Pagination.PrecedesIsStrictTotalOrder | backend/async_persistence.py:2903-2916 | The column with NULLs last and the id tie-break, in either direction, order all places strictly and totally. |
| Pagination.KeysetSelectsStrictlyAfter | backend/async_persistence.py:2938-2952 | In SQL's three-valued logic the added condition is true of a row if and only if the row comes strictly after the cursor, for both directions and the NULL tail. |
| Pagination.OrderBySorts | backend/async_persistence.py:2954 | Ordering rows with distinct ids gives the same rows, strictly in order. |
| Pagination.WhereKeepsRemaining | backend/async_persistence.py:2918-2952 | The WHERE clause keeps exactly the selected rows after the cursor. |
| Pagination.TradeStore.TradesPage | backend/async_persistence.py:2894-2967 | A page is the first `limit` remaining rows in order; `has_more` if and only if another row remains; a cursor for the last row exactly then. |
| Pagination.CutIsExactPage | backend/async_persistence.py:2953-2967 | Cutting the sorted remainder at `limit`, with more exactly when rows are left over, is an exact page. |
| Pagination.PageShowsExactly | backend/async_persistence.py:2918-2958 | By columns: a row on a page is closed, with a closing time and a positive exit price, of an existing, undeleted, active account that counts in the analytics, and passes each given filter; a row of which that is true after the cursor is on the page, or the page is full and all of it comes first. |
| Pagination.PageIsInOrder | backend/async_persistence.py:2911-2916 | On a page the sort column rises or falls as asked, rows without a value come last, and equals follow the id in the same direction. |
| Pagination.CursorNamesLastRow | backend/async_persistence.py:2959-2966 | There is a cursor exactly when the page has rows and more remain; it has the last row's id and its instant, or its amount as the float trip returns it. |
| Pagination.AccountFilters | backend/async_persistence.py:2926-2931 | The table filtered by ids, or by account type, is the unfiltered one without the rows of other accounts. |
| Pagination.WindowFilters | backend/async_persistence.py:2932-2937 | The table from a start on, or before an end, is the unbounded one without the rows closed earlier, or at or after it. |
| Pagination.WindowsSplit | backend/async_persistence.py:2932-2954 | Neighbouring windows split the window they make up, and by closing time their tables are its two parts. |
| Pagination.PagesMoveOn | backend/async_persistence.py:2938-2966 | Whatever happens to the table between fetches, no later cursor precedes a place already shown. |
| Pagination.NoPlaceShownTwice | backend/async_persistence.py:2938-2966 | Under arbitrary change of the table, and of the filters, between fetches no place appears on two pages. |
| Pagination.UnseenStaysAhead | backend/async_persistence.py:2938-2966 | A row that keeps its place stays strictly after every cursor until it is shown. |
| Pagination.UnchangedRowShownExactlyOnce | backend/async_persistence.py:2938-2966 | A row that keeps its place, and stays selected, through a completed walk is on exactly one page, though other rows come, go and are re-priced and the time window moves. |
| Pagination.PageIsSlice | backend/async_persistence.py:2953-2967 | From a row of the sorted table the next page is the next slice of it. |
| Pagination.FixedWalk | backend/async_persistence.py:2953-2967 | On a fixed table the pages read so far are the head of the sorted table. |
| Pagination.FixedWalkReadsSortedTable | backend/async_persistence.py:2911-2967 | For every limit from one on a walk over a fixed table ends after the least number of pages that can hold the rows, and has then read exactly the sorted table. |
| Pagination.WalkGoesOn | backend/async_persistence.py:2959-2967 | A walk with more to come can always be continued, whatever the table has become. |
| Pagination.FixedWalkEnds | backend/async_persistence.py:2911-2967 | On a fixed table following the cursor ends for every limit from one on, with the sorted table read once. |
| Pagination.FetchContinuesExactly | backend/async_persistence.py:2938-2966 | Whatever the float trip does to a cursor, the next fetch sees exactly the rows after the last one if and only if no row it could select stands at or between the two places. |
| Pagination.InexactTripBreaksWalk | backend/async_persistence.py:2947-2965 | For any value that the float trip changes there is a table whose walk skips or repeats a row, so exactness is needed. |
| Cursors.DecodeInvertsEncode | backend/routers/performance.py:32-66 | Every emitted cursor is accepted for its own sort and decodes to itself. |
| Cursors.DecodeAcceptsExactly | backend/routers/performance.py:40-66 | Which cursors are accepted under each sort and what each is read as; a missing one only is the first page, and a broken one is answered 422. |
| Cursors.CursorOfOtherSort | backend/routers/performance.py:56-66 | A cursor is accepted under the other sort exactly when it is in the NULL tail. |
| Cursors.DecodeCrashesExactlyOnUnconvertible | backend/routers/performance.py:40-66 | Decoding escapes the 422 answer if and only if, under the amount sort, a valid id follows an integer beyond the range of a double with at most 4300 digits. |
| Cursors.OverflowIsBeyondDoubles | backend/routers/performance.py:57-60 | The magnitude from which the check for a finite number raises is `2^1024 - 2^970`. |
| Cursors.TenToThe309Crashes | backend/routers/performance.py:43-60 | `10^309` and `10^4299` with a valid id crash the decoder; `10^4300` is answered 422. |
| Cursors.EchoedWalkIsWalk | backend/routers/performance.py:32-66 | A client that echoes encoded cursors makes the same walk as one that passes places, so the walk theorems hold through the codec. |
| RateLimit.ConsumeStaysInBounds | backend/rate_limit.py:22-31 | Consuming keeps the tokens between zero and the capacity. |
| RateLimit.MeterIsTightestHeadroom | backend/rate_limit.py:22-31 | The tokens a call finds equal the least slack over all windows that end with it. |
| RateLimit.AllowedExactlyWhenEveryWindowFits | backend/rate_limit.py:22-31 | A call is allowed if and only if admitting it keeps every window ending there within capacity plus rate times elapsed time. |
| RateLimit.WindowBound | backend/rate_limit.py:22-31 | Between any two calls of any run at most capacity plus rate times elapsed are allowed. |
| RateLimit.SpacedCallsAllAllowed | backend/rate_limit.py:22-31 | With capacity of at least one, calls spaced by one over the rate are all allowed. |
| RateLimit.CheckKeepsTableBounded | backend/rate_limit.py:39-53 | The table never has more than 1000 entries. |
| RateLimit.StaleConsumesLikeNew | backend/rate_limit.py:42-51 | A bucket idle for more than an hour consumes exactly like a new one. |
| RateLimit.CheckMatchesUnbounded | backend/rate_limit.py:39-53 | A call is refused for lack of room if and only if its caller has no fresh bucket while at least 1000 ids do; otherwise it is decided as by a table that never deletes. |
| RateLimit.BoundedRefinesUnbounded | backend/rate_limit.py:39-53 | Over every run the bounded table decides each call it serves as the unbounded one does. |
| RateLimit.EvictionIsInvisible | backend/rate_limit.py:34-53 | The same from the empty table. |
| RateLimit.VerdictsAreTheBuckets | backend/rate_limit.py:13-53 | Over every run from the empty table the verdicts on the served calls of an id are those of one bucket of ten tokens, earning ten a second, built at its first call. |
| RateLimit.OthersChangeNoVerdict | backend/rate_limit.py:39-53 | Two runs in which an id has the same served calls give them the same verdicts, whatever other ids do. |
| RateLimit.GrantedExactlyWhenEveryWindowFits | backend/rate_limit.py:16-53 | Over every run a served call is granted if and only if every window of its id's calls that ends with it then has at most ten grants and ten more for each second. |
| RateLimit.GrantsWithinRate | backend/rate_limit.py:16-53 | Between any two served calls of an id at most ten are granted, and ten more for each second between them. |
| RateLimit.RefusedExactlyWhenAThousandAreRecent | backend/rate_limit.py:34-50 | Over every run a call is refused for lack of room if and only if its id has no served call within the last 3600 seconds and at least 1000 ids do. |
| RateLimit.TokenBucket.Consume | backend/rate_limit.py:22-31 | The method's new fields and verdict are those of the specified bucket, and stay in bounds. |
| RateLimit.RateLimiter.MakeRoom | backend/rate_limit.py:41-45 | The eviction pass deletes exactly the buckets idle for more than 3600 seconds when there are at least 1000, and nothing otherwise. |
| RateLimit.RateLimiter.CheckRateLimit | backend/rate_limit.py:39-53 | The whole new table and the outcome are those of the specified check, with buckets kept as distinct objects. |
| WsManager.StepKeepsConsistent | backend/ws_manager.py:150-155 | The kept list stays the recent part of the full accepted history. |
| WsManager.ReplayConsistent | backend/ws_manager.py:150-155 | Over every run, pruning the kept list and pruning the full history agree. |
| WsManager.AcceptedIsAdmitted | backend/ws_manager.py:150-155 | The history with nothing forgotten is that of the verdicts: exactly the frames that were admitted, in order. |
| WsManager.RejectedExactlyWhenTenAreRecent | backend/ws_manager.py:150-155 | Over every run a frame is rejected if and only if ten frames were admitted before it and the tenth most recent of them is less than a second old. |
| WsManager.ElevenSpanOneSecond | backend/ws_manager.py:150-155 | Any eleven admitted frames span at least a second. |
| WsManager.Connection.HandleMessage | backend/ws_manager.py:140-168 | A frame of more than 4096 characters is too large and not counted; another is limited exactly if ten were admitted within the second before it, else admitted, whatever its payload decides: ignored, raising, or its kind. |
| WsManager.Connection.Admit | backend/ws_manager.py:150-155 | The pruned list admits a frame exactly when fewer than ten of the frames ever admitted are less than a second old. |
| WsManager.Connection.Offer | backend/ws_manager.py:92-105 | A full queue drops the new event; what is sent and waiting stays an ordered choice of the offered events. |
| WsManager.Connection.SendNext | backend/ws_manager.py:114-119 | Events leave oldest first, numbered 1, 2, 3 and so on. |
| EventBus.WindowIsLongest | backend/event_bus.py:117-133 | The replay window is the longest suffix of the log with at most 500 events and at most 2097152 bytes. |
| EventBus.BytesAddUp | backend/event_bus.py:118-119 | The bytes of a log are 64 for every event and 32 for every field. |
| EventBus.WindowIsIncremental | backend/event_bus.py:125-133 | Trimming after each event gives the same window as trimming the whole log. |
| EventBus.Trim | backend/event_bus.py:129-133 | The pop loop leaves the window with its exact byte count, and its guard for an empty ring is never taken. |
| EventBus.Bus.AddToRing | backend/event_bus.py:117-133 | After any history the ring is the window of the run's log and the byte count is that of the ring. |
| EventBus.Bus.GetSnapshot | backend/event_bus.py:142-145 | A snapshot is the longest recent part of the log that fits. |
| EventBus.TombstonesAreLastInsertions | backend/event_bus.py:149-151 | The tombstones are always the last 1000 insertions, without repeats. |
| EventBus.TombstoneLifetime | backend/event_bus.py:149-151 | An id is tombstoned if and only if fewer than 1000 ids were inserted after it. |
| EventBus.CleanedRunIsSilent | backend/event_bus.py:42-166 | Over any calls after the cleanup of a run, emits change nothing, nothing waits and new drains are turned away while fewer than 1000 ids have been tombstoned since; unless it is cleaned up again, exactly that long. |
| EventBus.TornSnapshot | backend/event_bus.py:117-145 | A snapshot taken from another thread between append and pop is a suffix of the log that exceeds each cap by at most the new event. |
| EventBus.Queue.PutDroppingOldest | backend/event_bus.py:76-88 | Putting drops the oldest item exactly when the queue is full; accepted events stay split into taken, dropped and waiting. |
| EventBus.Queue.Get | backend/event_bus.py:135-140 | Taking yields the oldest waiting event and records it as taken. |
| EventBus.DeliveryIsSubsequence | backend/event_bus.py:76-88 | What is taken and then what waits is a subsequence of what was accepted, and the rest is exactly what was dropped. |
| EventBus.BooksBalance | backend/event_bus.py:50-140 | Over any calls for a new run: what waits are the last events emitted, a thousand at most; taken, dropped and waiting add up to emitted; the log has each event and, in marking mode, one marker for each drop. |
| EventBus.Bus.Emit | backend/event_bus.py:50-115 | An emit is the specified step of the whole bus: the event is logged and queued for its run alone, with a marker when one was dropped, and nothing changes for a tombstoned run. |
| EventBus.Bus.OpenDrain | backend/event_bus.py:42-48 | A new drain stops exactly for a tombstoned run. |
| EventBus.Bus.FinishDrain | backend/event_bus.py:135-140 | A waiting consumer gets the oldest item, or stops at the poison. |
| EventBus.Bus.CleanupRun | backend/event_bus.py:147-166 | Cleanup is the specified step: it tombstones the id, forgets its queue and ring, poisons the queue last, and leaves tombstones disjoint from live runs. |
| StreamParser.CompletedWasAnnounced | backend/stream_parser.py:134-141 | In every run, workflow mode and asset type a completed event comes after an in-progress event of the same agent. |
| StreamParser.PlayKeepsOrder | backend/stream_parser.py:134-141 | Whatever the branches do, agents marked as seen were announced, and completions stay announced. |
| StreamParser.SameChunkAgainIsSilent | backend/stream_parser.py:144-319 | Parsing the same chunk again emits nothing and leaves the state as it is, from any state. |
| StreamParser.RunSpeaksProcessed | backend/stream_parser.py:153-170 | The message and tool-call events of a run are those of the messages processed, in order. |
| StreamParser.RunSaysWhatMessagesSay | backend/stream_parser.py:158-170 | Over every run the trace has exactly the tool calls of the processed messages, by name and arguments, and their texts under their senders, in order. |
| StreamParser.ProcessedOnceExactlyWhenGrowing | backend/stream_parser.py:153-156 | For prefixes of one list each message is processed exactly once if and only if no list is shorter than an earlier one. |
| StreamParser.ChunkingIsInvisible | backend/stream_parser.py:153-170 | For growing lists the message and tool-call events and their numbers do not depend on how the list is cut into chunks. |
| StreamParser.MissingMessagesAreReplayed | backend/stream_parser.py:154-156 | A chunk without messages makes the next one process them all again. |
| StreamParser.NumbersAreConsecutive | backend/stream_parser.py:158-163 | With a counter, messages are numbered without gap or repeat. |
| StreamParser.NumbersWithoutCounter | backend/stream_parser.py:162 | Without a counter every message is numbered zero. |
| StreamParser.StripTakesBlanks | backend/stream_parser.py:160-163 | A stripped text is the text without all the blanks at its two ends. |
| StreamParser.SpellingsParseAlike | backend/stream_parser.py:213-226 | A plan or decision parses alike as a structure and as its JSON text; text that is no JSON counts stripped, and blanks count as none. |
| StreamParser.ParserState.ParseMessages | backend/stream_parser.py:153-177 | The loop emits the events of the new messages behind the agent the last of them names, and advances the count and the counter. |
| StreamParser.ParserState.ParseReports | backend/stream_parser.py:179-189 | The loop over the analyst fields does the specified actions and remembers the latest texts. |
| StreamParser.ParserState.ParseDebate | backend/stream_parser.py:191-211 | The branch does exactly the specified actions and remembers the debate. |
| StreamParser.ParserState.ParseRisk | backend/stream_parser.py:267-288 | The same for the risk debate, which quick trades skip. |
| StreamParser.ParserState.ParseDecision | backend/stream_parser.py:290-309 | The same for the final decision, held back while a risk debate is present. |
| StreamParser.ParserState.ParseStreamChunk | backend/stream_parser.py:144-319 | The object's whole new state and the events are those of the specified parse. |
| StreamReports.ClientHoldsNewestReport | backend/stream_parser.py:179-189 | Over every run a client holds, for an analyst section, the text of the report that changed last of those that share it. |
| StreamReports.SoleReportIsLastText | backend/stream_parser.py:94-108 | For a section with one report that is the last non-empty text the snapshots had for it. |
| StreamReports.StockSections | backend/stream_parser.py:94-99 | Over every run the section of each of the four stock analysts has the last text of that analyst's report. |
| StreamReports.CryptoSections | backend/stream_parser.py:101-108 | The same for the four crypto sections that have one report. |
| StreamReports.SharedSection | backend/stream_parser.py:101-108 | In the section that two crypto reports share, a changed fundamentals report wins over a changed derivatives report of the same chunk, and either hides the other until it changes. |
| StreamReports.SourceStep | backend/stream_parser.py:213-317 | One chunk keeps what the client holds of the plan and of each result in step with what the parser remembers, though nine branches write reports. |
| StreamReports.ClientHoldsLastText | backend/stream_parser.py:213-317 | Over every run and in every mode the client holds the last non-empty text of the plan and of each result: sending only changes loses nothing. |
| StreamReports.ClientJoinsChanges | backend/stream_parser.py:191-199 | For a debate or risk history the client holds all its versions one after the other. |
| StreamReports.HistoryIsLastTextExactly | backend/stream_parser.py:267-275 | It holds the last history if and only if the history changed at most once. |
| StreamReports.GrowingHistoryIsRepeated | backend/stream_parser.py:191-199 | A concrete run of two chunks after which the client holds the first text twice. |
| StreamReports.ClientHoldsDecisions | backend/stream_parser.py:276-309 | The portfolio manager's section, written by two branches, has what changed last of the judge's and the final decision; a decision is held back while a risk debate is present; quick trades use a section of their own. |
| StreamStatuses.ChunkSaysExactly | backend/stream_parser.py:134-317 | Over every run and in every mode a chunk completes an agent if and only if the text that is its result changed, and announces one if and only if its last new message names it, a change sets it to work, or it is completed and no chunk before set it to work or completed it. |
| StreamStatuses.StageOfOtherModeIsSilent | backend/stream_parser.py:227-254 | The risk manager in a deep analysis, and the compliance officer in a quick trade, are announced only by a result of their own or a message. |
| StreamStatuses.PlanComesInOrder | backend/stream_parser.py:227-237 | A changed plan is shown, then the trader is complete, then the next stage of the mode begins. |
| StreamStatuses.ResultComesInOrder | backend/stream_parser.py:239-317 | Any other changed result is shown once its agent is complete. |
| StreamStatuses.ConfluenceComesFirst | backend/stream_parser.py:256-265 | Behind a changed confluence summary both researchers begin. |
| StreamStatuses.AnalystComesInOrder | backend/stream_parser.py:179-189 | A changed report is shown once its analyst is complete. |
| StreamStatuses.ArgumentComesInOrder | backend/stream_parser.py:191-199 | A changed argument of either debate is shown behind the announcement of who argues. |
| StreamStatuses.ResearchComesInOrder | backend/stream_parser.py:200-210 | Behind a changed verdict on the research its three agents are complete, then the trader begins. |
| StreamStatuses.RiskComesInOrder | backend/stream_parser.py:276-287 | A changed verdict on risk is shown, then the five analysts are complete, then the portfolio manager begins. |
| StreamStatuses.DecisionComesInOrder | backend/stream_parser.py:299-306 | A changed decision is shown, then the portfolio manager is complete, then the execution monitor begins. |
| Migrations.StepKeepsInvariant | backend/async_persistence.py:1822-1857 | Every step of every instance, and every crash, keeps the committed list an ordered prefix covered by the version, with one lock holder. |
| Migrations.InvariantAlways | backend/async_persistence.py:1802-1859 | The same over every interleaving, with crashes and restarts anywhere, in a rolling deploy. |
| Migrations.CommittedIsPrefix | backend/async_persistence.py:1842-1855 | What is committed is an in-order, repeat-free prefix of the migrations and the version names its last one. |
| Migrations.FinishedIsUpToDate | backend/async_persistence.py:1839-1857 | An instance that finished left every migration it knows committed and a version of at least its own maximum. |
| Migrations.UniformDeploymentReachesMax | backend/async_persistence.py:1832-1857 | If all instances know all migrations and the start was not beyond them, a finished instance leaves the maximum version and nobody is refused. |
| Migrations.LeftAloneItFinishes | backend/async_persistence.py:1802-1859 | From every reachable state with the lock free, an instance that starts and is left alone ends and frees the lock: with exactly what it knows committed and its maximum as the version, or, if the database is newer, having raised and changed nothing. |
| Migrations.CrashedRunnerIsReplaced | backend/async_persistence.py:1802-1859 | If the holder of the lock crashes anywhere, nothing committed is lost, and any instance that starts then does the rest. |
| Migrations.Schema.ApplyMigrations | backend/async_persistence.py:1825-1855 | The loop commits exactly the migrations above the current version, and raises exactly when the database is newer. |
| Schedules.WonTimeIsPast | backend/async_persistence.py:3359-3375 | Once a due time is won the schedule never returns to it, if no write moves it back. |
| Schedules.DueTimesWonAdvance | backend/async_persistence.py:3359-3375 | Over every run of any number of instances the due times won strictly advance, so each is won once. |
| Schedules.RowIsLastWritten | backend/async_persistence.py:3359-3401 | Over every run the due time is the new one of the last claim that won or the last one set, the status is the one set last, and a scheduled claim wins exactly on that status and due time. |
| Schedules.RepeatedClaimWinsExactlyIfUnmoved | backend/async_persistence.py:3369-3375 | A repeated claim wins again if and only if the first put the same time back. |
| Schedules.SecondRunExactly | backend/services/scan_scheduler_service.py:640-669 | In every run, which operations execute a due time again after a claim won it or a replay ran it: certain replays, and claims while it is still due. |
| Schedules.SingleRunnerWithoutReplays | backend/async_persistence.py:3362-3367 | Without replays at startup no due time is executed twice. |
| Schedules.StartingTogetherRunsThrice | backend/services/scan_scheduler_service.py:640-669 | A run in which two instances replay one due time and a claim wins it as well. |
| Schedules.StampIsLastWritten | backend/services/scan_scheduler_service.py:488-493 | In every run, with any clocks, the stamp in the row is the last one that a winning claim or an execution wrote. |
| Schedules.ManualClaimWinsExactly | backend/async_persistence.py:3377-3401 | In every run, with any clocks: after a win a manual claim wins if and only if the schedule is active and its reading is the stamp written last; so a second caller with the same reading wins exactly when that stamp is the reading. |
| Schedules.CooldownGivesSingleWinner | backend/services/scan_scheduler_service.py:328-341 | Behind the caller's 60 seconds cooldown two callers with one reading both win only if in between a stamp no later than the reading was written by a scheduled claim, by an execution started before the first winner, or by a replay at startup. |
| Schedules.LaggingClockGivesTwoWinners | backend/services/scan_scheduler_service.py:328-341 | A run with a lagging scheduled claim in which both win. |
| Schedules.SlowExecutionGivesTwoWinners | backend/services/scan_scheduler_service.py:446-493 | A run with every clock right in which a slow execution restamps and both win. |
| Schedules.ReplayGivesTwoWinners | backend/services/scan_scheduler_service.py:640-669 | A run in which a replay that began after the first winner restamps and both win. |
| Schedules.SecondWinUnderOneClock | backend/async_persistence.py:3377-3401 | With stamps in statement order, and without the cooldown, the second caller wins if and only if the schedule is active and every stamp written since is the reading. |
| Schedules.ScheduleStore.Trigger | backend/services/scan_scheduler_service.py:328-341 | A caller is turned away exactly within the cooldown of its reading; otherwise its claim stamps at least a cooldown after the reading. |
| Schedules.ScheduleStore.UpdateLastRun | backend/services/scan_scheduler_service.py:488-493 | An execution's stamp is written whatever the row says, and no other column or row changes. |
| Schedules.ScheduleStore.ClaimScheduledScan | backend/async_persistence.py:3359-3375 | The update wins exactly on an active row with the expected due time; it then puts the new due time and the stamp there and changes nothing else. |
| Schedules.ScheduleStore.ClaimManualTrigger | backend/async_persistence.py:3377-3401 | The update wins exactly on an active row with the expected stamp, a missing one included; it then puts the new stamp there and changes nothing else. |
| CloseRules.FiringsMatchRecoveries | backend/async_persistence.py:3567-3662 | In every run the firings and recoveries of a rule differ by at most one, by its status. |
| CloseRules.FiringsAtMostOneMore | backend/async_persistence.py:3567-3662 | A rule fires at most once more often than it is recovered. |
| CloseRules.AfterFiring | backend/async_persistence.py:3567-3662 | After a firing a rule is triggered, spent, or past the recovery age. |
| CloseRules.FiringsAreApart | backend/async_persistence.py:3567-3662 | Two firings of one rule are more than the recovery age apart, whoever evaluates it. |
| CloseRules.ExpiryIsFinal | backend/async_persistence.py:3576-3595 | An expired rule stays as it is, and rules that pause trading or trail profit never expire by deactivation. |
| CloseRules.ExpiredExactlyByDeactivation | backend/async_persistence.py:3576-3595 | Over every run a rule is expired if and only if it was at first, or it was not executed and a deactivation of its own account came that did not exclude it, its type being neither of the two protected. |
| CloseRules.TriggeredExactlyByLastFiring | backend/async_persistence.py:3567-3662 | Over every run a rule that no deactivation aims at is triggered if and only if an attempt found it active and no recovery since came more than its age later, and has the time of that attempt as its stamp; else it is active. |
| CloseRules.RuleStore.AtomicTriggerRule | backend/async_persistence.py:3567-3574 | The trigger succeeds exactly on an active rule and changes that rule only. |
| CloseRules.RuleStore.DeactivateRulesForAccount | backend/async_persistence.py:3576-3595 | Rules of other accounts, excluded, protected, executed and expired ones stay as they are; every other rule is expired with its other columns kept, and the count is their number. |
| CloseRules.RuleStore.RecoverStuckTriggeredRules | backend/async_persistence.py:3654-3662 | Exactly the rules triggered for longer than the age are active again without a stamp, and the count is their number. |
| Retention.CleanupKeepsHead | backend/async_persistence.py:3445-3462 | Of each schedule exactly `max(recent, min(total, min_keep))` rows stay, they are the head of the newest-first ranking, and the rest is older than the cutoff, however ties are ranked. |
| Retention.CleanupOnlyDeletes | backend/async_persistence.py:3451-3462 | No row is changed or added. |
| Retention.CleanupIsIdempotent | backend/async_persistence.py:3451-3462 | A second cleanup with the same cutoff deletes nothing, even if ties are ranked differently. |
| Retention.ExecutionStore.CleanupOldExecutions | backend/async_persistence.py:3445-3462 | The statement leaves the specified table and returns the number of rows deleted. |
| McpLeadership.StopLeaves | backend/mcp/mount.py:342-392 | From any state, whichever guarded calls raise, a stop ends with nothing left, or half-way at the server, or waits for ever at one of the two shutdowns. |
| McpLeadership.StopClearsExactly | backend/mcp/mount.py:342-392 | Everything is cleared, the server stays, or the stop waits for ever, each if and only if the two shutdowns end so; from a serving worker by where the cancel of the audit task lands and what is enqueued after it. |
| McpLeadership.LandingIsTheQueues | backend/mcp/core/audit.py:148-156 | What a stop makes of a landing is what the audit queue does there in any of its runs. |
| McpLeadership.HalfStoppedForGood | backend/mcp/mount.py:374-376 | Every later stop of a half-stopped worker leaves it as it is, or waits for ever if records came since. |
| McpLeadership.StartLeaves | backend/mcp/mount.py:199-286 | Where each start from nothing, or behind a stop that waits for ever, ends, for every combination of answers. |
| McpLeadership.FailedStartClearsExactly | backend/mcp/mount.py:199-286 | A start ends serving exactly when every guard passes; a failed one leaves nothing behind if and only if it never led, or no record came while the writer that failed to start was seeding, or it built no server though the writer started, or the cancel of the audit task landed cleanly. |
| McpLeadership.StartHoldsExactly | backend/mcp/mount.py:199-286 | What a start that serves holds: its leadership, the protections built before the first failure, the transport if there is one; and which error each other start records. |
| McpLeadership.EarlyRecordsHappen | backend/mcp/mount.py:252-286 | In every run in which a worker can take the lock, a start whose writer gets a record and then fails to start ends waiting for ever, with the lock. |
| McpLeadership.StepKeepsInvariant | backend/mcp/mount.py:132-392 | Every step of every worker at await granularity, and every crash, keeps each active worker's session holding the lock. |
| McpLeadership.RunKeepsInvariant | backend/mcp/mount.py:132-392 | The same over every interleaving. |
| McpLeadership.ActiveHoldsTheLock | backend/mcp/leader.py:38-71 | At every await point only the worker whose session holds the advisory lock has a server or a writer. |
| McpLeadership.SingleWriterAlways | backend/mcp/mount.py:132-153 | When starts go through the lock at most one worker has a server or a writer, at every await point of every run. |
| McpLeadership.TwoWritersWithoutTheLock | backend/mcp/mount.py:142-148 | When starts skip the lock, six steps bring two workers up at once. |
| McpLeadership.SingleWriterExactly | backend/mcp/mount.py:132-153 | With n worker processes the single writer holds in every run if and only if n is at most one, or `WEB_CONCURRENCY` is above one and the database address is set. |
| McpLeadership.RestIsClear | backend/mcp/mount.py:199-392 | In every run a worker between calls serves, or has nothing left, or keeps a server whose shutdown raised; never anything else. |
| McpLeadership.LeadershipFailsOver | backend/mcp/leader.py:8-12 | In every run, once no process has the holding session open, any worker at rest can take the lock and serve. |
| McpLeadership.CrashedLeaderIsReplaced | backend/mcp/leader.py:8-12 | In every run, once the process of the worker with the lock ends, any other worker at rest can take the lock and serve. |
| McpLeadership.DeadStopBlocksFailover | backend/mcp/mount.py:374-376 | In every run, whatever calls come, a worker that is half stopped, or whose stop waits at its first shutdown, keeps the lock, and every other worker without a server, until its process ends. |
| McpLeadership.HungStopKeepsTheLock | backend/mcp/mount.py:380-392 | In every run a worker whose stop waits at its second shutdown does so through all later stops, until it is enabled or its process ends. |
| McpLeadership.HungStopIsReleasedByEnable | backend/mcp/mount.py:142-143 | From every such run an enable comes up under the old leadership, and a clean stop after it releases the lock. |
| McpLeadership.BadStopsHappen | backend/mcp/mount.py:374-392 | Two concrete runs that end half stopped and waiting for ever, and keep the other worker without a server, until the process ends or until the next enable. |
| McpLeadership.InOrderNeverHalfStops | backend/mcp/mount.py:374-376 | In every run in which the wakeups of every audit queue come in order no worker is ever half stopped. |
| AuditQueue.RunIsSane | backend/mcp/core/audit.py:82-106 | In every run the count of unfinished records is that of the queue and the write, until the task ends. |
| AuditQueue.QueueIsBounded | backend/mcp/core/audit.py:67-69 | In every run at most 10000 records wait, and one more is queued exactly below that. |
| AuditQueue.CancelFailsExactly | backend/mcp/core/audit.py:90-106 | In every run the cancel fails the task if and only if it lands in a write with no other record in the queue, and what it leaves unfinished is given in every case. |
| AuditQueue.LateRecordsAreToBlame | backend/mcp/core/audit.py:144-156 | A shutdown with no record enqueued after its drain ended neither raises nor leaves a record unfinished. |
| AuditQueue.SecondShutdownWaitsExactly | backend/mcp/core/audit.py:144-156 | A shutdown of a dead task waits for ever if and only if something is unfinished, and otherwise ends as the first one did. |
| AuditQueue.NeverLaunchedWaitsExactly | backend/mcp/core/audit.py:144-156 | The shutdown of a writer without a task waits for ever if and only if records were enqueued. |
| AuditQueue.InOrderNeverRaises | backend/mcp/core/audit.py:148-156 | With wakeups in order the cancel never lands in a write, no shutdown raises, and what is left are exactly the records enqueued after the drain ended. |
| AuditQueue.InOrderSecondShutdownWaitsExactly | backend/mcp/core/audit.py:148-156 | So the second shutdown waits for ever if and only if there was such a record. |
| AuditQueue.LateRecordJams | backend/mcp/core/audit.py:144-156 | A concrete run, with wakeups in order, after which every further step leaves the second shutdown waiting. |
| AuditQueue.OvertakenRaises | backend/mcp/core/audit.py:95-106 | A concrete run, with wakeups out of order, in which the shutdown raises. |
| McpLeadership.MCPLeader.Acquire | backend/mcp/leader.py:31-56 | The handle keeps a connection exactly when it won the lock. |
| McpLeadership.MCPManager.StartTransport | backend/mcp/mount.py:199-286 | The manager's fields after a start are those `StartLeaves` shows the step machine settles in, and so is the end of its teardown. |
| McpLeadership.MCPManager.AcquireLeadership | backend/mcp/mount.py:132-153 | The lock is asked for exactly when more than one worker is announced and there is an address; the handle is then the leader's exactly when it won. |
| McpLeadership.MCPManager.StopTransport | backend/mcp/mount.py:342-392 | The same for a stop: it returns, raises or waits for ever as the two shutdowns do. |
| McpLeadership.MCPManager.Enable | backend/mcp/mount.py:311-330 | How the call ends in each case; the flag is stored only over a server that passed its self-test; the endpoint then answers if and only if the manager was not half stopped before. |
| McpLeadership.MCPManager.Disable | backend/mcp/mount.py:332-340 | How the call ends in each case: a kill always reaches the stop; a plain disable that loses the row-version race ends in the conflict and changes nothing. |
| Binomial.TailsComplement | scripts/cache_parity_eval.py:545-547 | The lower tail and the mirrored upper tail make up all outcomes. |
| Binomial.PValueIsLopsidedShare | scripts/cache_parity_eval.py:527-547 | The p-value is the share of equally likely outcomes at least as lopsided as the observed split. |
| Binomial.ClampExactlyOnTies | scripts/cache_parity_eval.py:545-547 | The clamp to one changes the value if and only if the split is even. |
| Binomial.PValueRange | scripts/cache_parity_eval.py:527-547 | The p-value is in (0, 1] and symmetric in the two directions. |
| Binomial.PValueMonotone | scripts/cache_parity_eval.py:527-547 | For a fixed number of moves a more even split never has a smaller p-value. |
| Binomial.PValueOneWay | scripts/cache_parity_eval.py:527-547 | With all moves one way the p-value is `2^(1-n)`. |
| Binomial.OneWaySignificance | scripts/cache_parity_eval.py:527-547 | One-way drift is significant at 5% if and only if there are at least six moves. |
| Binomial.SignificanceNeedsSix | scripts/cache_parity_eval.py:527-547 | No split of fewer than six moves is significant at 5%. |
| ParityGate.FindModal | scripts/cache_parity_eval.py:475-482 | The label found has the highest count and comes first among those in tie order; the final fallback is never reached. |
| ParityGate.ComputeNoiseFloor | scripts/cache_parity_eval.py:455-472 | The loop computes the mean disagreement over fixtures that have a label. |
| ParityGate.DisagreementBound | scripts/cache_parity_eval.py:466-470 | By pigeonhole at most two thirds of the runs differ from their modal label, none exactly when all agree. |
| ParityGate.NoiseFloorBound | scripts/cache_parity_eval.py:455-472 | The noise floor is at most two thirds for any labels, and zero exactly when each fixture repeats one label. |
| ParityGate.NoiseIsMean | scripts/cache_parity_eval.py:463-472 | The noise floor is a mean: it weighs two collections of fixtures by how many have a label. |
| ParityGate.NoiseOfOne | scripts/cache_parity_eval.py:465-471 | Of one fixture it is the share of labels that are not the most frequent one; a fixture without a label does not count. |
| ParityGate.NoiseIsSymmetric | scripts/cache_parity_eval.py:592-595 | Pooled over both arms the noise is symmetric in them. |
| ParityGate.PoolByFixture | scripts/cache_parity_eval.py:592-595 | A pooled fixture has exactly the runs of both arms. |
| ParityGate.McNemarExactP | scripts/cache_parity_eval.py:504-531 | The loop counts the moves either way and returns their exact p-value. |
| ParityGate.EveryPairMatchesOrMoves | scripts/cache_parity_eval.py:485-526 | Each comparable fixture matches, moves up or moves down, and only one of these. |
| ParityGate.GateCounts | scripts/cache_parity_eval.py:485-526 | The counts by fixture: comparable with a label on both sides, matching with the same one, bullish from sell to hold or buy or from hold to buy, bearish the other way. |
| ParityGate.ModalsByFixture | scripts/cache_parity_eval.py:475-605 | A fixture's label is missing exactly if no run has one, else the most frequent, and of equals the first of buy, hold and sell. |
| ParityGate.PassedByCounts | scripts/cache_parity_eval.py:575-608 | The gate in counts: something comparable, enough matches for the noise, and no significant drift. |
| ParityGate.ZeroNoiseGate | scripts/cache_parity_eval.py:597-608 | With zero noise the gate passes if and only if something is comparable and all of it agrees. |
| ParityGate.PassNeedsAThird | scripts/cache_parity_eval.py:597-608 | Whatever the noise, a passing evaluation agrees on at least a third of what is comparable. |
| ParityGate.SameModalsGate | scripts/cache_parity_eval.py:597-608 | With the old arm's modal labels the gate passes if and only if some old run parsed, for any noise. |
| ParityGate.DriftThreshold | scripts/cache_parity_eval.py:504-608 | Drift alone fails the gate only from the sixth move on, and with all moves one way exactly from it. |
| ParityGate.UnparsedReplyIsDropped | scripts/cache_parity_eval.py:485-526 | An unparsed reply, at any place, changes neither agreement nor drift. |
| ParityGate.AgreementIsDocumentedExactly | scripts/cache_parity_eval.py:432-435 | Agreement is never below the documented rate, in which a missing reply is a non-agreement, and equals it if and only if every fixture the old arm labelled has a labelled reply or nothing matches. |
| ParityGate.GateDiffersExactly | scripts/cache_parity_eval.py:575-608 | The gate is never stricter than over the documented rate; the verdicts differ if and only if drift is not significant and the matches suffice for the comparable fixtures but not for all labelled ones. |
| ParityGate.MissingReplyPasses | scripts/cache_parity_eval.py:575-608 | A concrete evaluation with a missing reply that passes the gate and fails the documented one. |
| ParityGate.ZeroNoiseGateDiffers | scripts/cache_parity_eval.py:575-608 | Without noise the verdicts differ if and only if something is comparable, all of it agrees, and a reply is missing for a labelled fixture. |

## Left out

- SQL text, connection pools, JSON and base64 bytes: each statement is modelled by its meaning, and a
  raw cursor by what JSON decoding makes of it.
- Floating-point rounding and the resolution of clocks: values are exact, and the trip of a sort value
  through `float` is a function whose exactness the walk theorems require.
- `backend/persistence.py`: a synchronous twin of the same operations.
- `scipy.stats.binomtest`: the inline formula only.
- The regular expression of `parse_decision`: a reply is one of three labels or none.
- What the migrations do to the schema: a migration is its version. A statement that raises, a
  `lock_timeout` included, is a crash of the session.
- `update_close_rule` as an arbitrary writer, and deletes: they can set any status back. `Schedules` has every
  write of `update_scheduled_scan` to the status, the due time and the stamp; its due-time theorems assume that
  no write moves a due time back.
- Timestamps as text: stamps are whole seconds, and the database's `now()` does not run backwards.
  `get_due_scheduled_scans` only reads and is not modelled.
- Naive datetimes in a `closed_at` cursor, and what UUID and ISO parsers accept beyond one value each.
- StreamParser.ParserState.ParseStreamChunk: assumes field values of the expected types; a non-string
  debate entry would raise. A chunk is a value, so a caller that mutates a debate dict between chunks
  is not captured.
- StreamReports: what a client holds after it reconnects and is sent earlier events again.
- WsManager: heartbeats, `send_to` replay frames, connecting, slow clients and the rule of one consumer
  task for a run, which the done-callback does not guarantee.
- EventBus: thread scheduling of `emit_threadsafe` (its callback is the step), and `asdict`.
- EventBus.Bus.GetSnapshot: reads the ring between two steps; `TornSnapshot` says what another thread can see.
- McpLeadership: the transient audit writer of the control router, loss of the lock session in a live
  worker, two overlapping calls within one worker (except
  behind one that waits for ever), cancellation of a call at an await, the contents of the
  audit chain, and a `WEB_CONCURRENCY` that is no number, which ends a start before it holds anything.
- AuditQueue: what a record says, its hash chain, and an append that never returns.
- Cursors.DecodeCrashesExactlyOnUnconvertible: the digit limit is CPython's default; a text with a repeated
  key is read as the object that results.
- Schedules.ScheduleStore.Trigger: the status and in-flight checks before the cooldown are left out.
- RateLimit.RateLimiter.CheckRateLimit: the exception and the log lines are outcomes.
- Routers, schemas, LLM calls, encryption, display and backups: input and output, or easy.
