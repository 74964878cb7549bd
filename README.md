# chess-analyzer in Dafny

This project models the logic of chess-analyzer, a Next.js web application that replays a chess game from a PGN file and has the Stockfish engine, running in a Web Worker, analyse and classify each move. The model covers:

- **The engine multiplexer** (`lib/stockfish/load-engine.ts`).
  - The UCI text protocol carries no request ids. So every reply line is matched to a queued command by its content.
  - `send` queues the commands that expect a reply.
  - `processLine` routes each output line to the oldest command of its category, buffers it, and completes the command on a terminal line.
  - `stopMoves` cancels the running searches; `quit` drops the queue.
  - The engine is the class `EngineObject.Engine`. Each method is proved to make exactly the state change that a pure function of module `LoadEngine` describes. The properties are proved about those functions in `EngineLemmas`.
  - Callbacks are numbered. Worker writes, listener calls, callback calls and pending `setTimeout` callbacks are logs in the state.
  - The main theorem is `CallbackCalledAtMostOnce`: whatever the callers and the engine do, a callback handed to `send` once is called at most once.
- **The analysis hook** (`hooks/use-stockfish.ts`):
  - the centipawn move classifier `evaluateMove`;
  - the `info` line parser `parseAnalysisInfo`, a loop proved against a "last occurrence wins" specification;
  - the hook's state machine: `isReady`, `isAnalyzing`, `currentAnalysis`, `error`, and the messages posted to the worker.
- **Helpers of the user interface:**
  - the evaluation chart's bars and statistics;
  - score and best-line formatting;
  - grouping legal moves into a destination map (`toDests`);
  - placing the move-classification icon on the board;
  - the board configuration (`cgProps`);
  - navigation, autoplay, the move table and the PGN header tags of the analysis page;
  - the upload validator.

JavaScript built-ins the code relies on are written out in module `JsText`, and every other module builds on it. They are `split`/`join`, `trim` with JavaScript's whitespace set, `indexOf`, `lastIndexOf`, `substring` with its clamping and argument swap, and `parseInt` with NaN.

## Model

| member | source | states |
|---|---|---|
| LoadEngine.FirstWord | lib/stockfish/load-engine.ts:48-51 | the result is the prefix of the line before its first space (the whole line when there is none) and contains no space |
| LoadEngine.FirstServing | lib/stockfish/load-engine.ts:69-77 | the result is the lowest index whose command serves the category, or -1 exactly when none does |
| LoadEngine.DetermineQueueIndex | lib/stockfish/load-engine.ts:53-80 | the chosen index is the oldest entry serving the line's category (`uciok`/`option` go to `uci`, `readyok` to `isready`, `bestmove`/`info` to `go`, anything else to `other`, which `d` and `eval` also serve), and 0 when none serves it or the queue is empty |
| LoadEngine.Advance | lib/stockfish/load-engine.ts:133-169 | the new buffer is the old one with the line appended (newline-joined), both for an entry that stays open and for one that completes, except on the two resets: `bestmove` on a non-`bench` entry and a bare `Key is` on a `d` entry |
| LoadEngine.CancelSearches | lib/stockfish/load-engine.ts:219-224 | same length, and each entry is its cancelled self (an open `go` gets `discard`, the rest unchanged) |
| LoadEngine.ShouldIgnoreLine | lib/stockfish/load-engine.ts:82-89 | a noise line (empty, `No such option`, `id `, `Stockfish`) is never a handshake, readiness or search reply, so dropping it loses none |
| LoadEngine.IsNonReplying | lib/stockfish/load-engine.ts:39-44 | a non-replying command (`ucinewgame`, `flip`, `stop`, `ponderhit`, `position…`, `setoption…`) is never one that a reply could be routed to (`uci`, `isready`, `go`, `d`, `eval`, `bench`) |
| LoadEngine.AfterSend | lib/stockfish/load-engine.ts:190-216 | the state after `send`: the queue grows by one exactly for a non-blank reply-expecting command, the old entries keep their places, and no callback runs and no flag changes |
| LoadEngine.AfterLine | lib/stockfish/load-engine.ts:109-176 | the state after one line: the queue loses at most one entry, the listener gets every non-empty line, at most one callback call is appended, and nothing is written to the worker |
| LoadEngine.AfterChunk | lib/stockfish/load-engine.ts:109-115 | the state after a delivery: the queue never grows, calls are only appended, nothing is written and no timer added |
| LoadEngine.AfterStopMoves | lib/stockfish/load-engine.ts:218-225 | the state after `stopMoves`: same queue length, each entry unchanged except that `discard` may only turn on, one write per open search, no callback |
| LoadEngine.AfterQuit | lib/stockfish/load-engine.ts:231-234 | the state after `quit`: the queue is empty, the worker terminated, and nothing is called or written |
| LoadEngine.AfterTimers | lib/stockfish/load-engine.ts:213-215 | running the deferred callbacks calls each pending one with `''`, oldest first, and empties the timer list without touching the queue |
| EngineLemmas.BlankSendIsNoop | lib/stockfish/load-engine.ts:191-194 | a command that trims to empty changes nothing at all |
| EngineLemmas.SendRouting | lib/stockfish/load-engine.ts:39-44 | a non-blank command is written once, trimmed, and no flag changes; a reply-expecting one is appended at the queue tail (length grows by one), a non-replying one (`ucinewgame`, `flip`, `stop`, `ponderhit`, `position…`, `setoption…`) is never queued and its callback is deferred |
| EngineLemmas.NonReplyingCallbackGetsEmptyString | lib/stockfish/load-engine.ts:213-215 | the deferred callback of a non-replying command runs once, with `''`, when the timers run |
| EngineLemmas.UnroutedLineOnlyHeard | lib/stockfish/load-engine.ts:121-125 | with an empty queue or a noise line (`No such option`, `id `, `Stockfish`) only the global listener sees the line |
| EngineLemmas.EmptyLineSkipped | lib/stockfish/load-engine.ts:110 | an empty delivery changes nothing |
| EngineLemmas.MultiLineDelivery | lib/stockfish/load-engine.ts:112-115 | a delivery with newlines has exactly the effect of its pieces delivered one at a time, in order, empty pieces skipped |
| EngineLemmas.BufferIsJoin | lib/stockfish/load-engine.ts:133-138 | the buffer built from the routed lines is their newline-join |
| EngineLemmas.AdvanceDone | lib/stockfish/load-engine.ts:140-169 | the lines that complete an entry: `uciok` and `readyok` for any command, `bestmove` for any but `bench`, `Legal uci moves`/`Key is` only for `d`, the evaluation block only for `eval`, and `pawn key`/`Nodes/second`/`Unknown command` only for the other commands |
| EngineLemmas.BestmoveResetsBuffer | lib/stockfish/load-engine.ts:148-150 | a `bestmove` line completes any entry but `bench`, with that line alone as the result |
| EngineLemmas.KeyIsTerminatorCutOff | lib/stockfish/load-engine.ts:151-157 | for a `d` entry the terminator line `Key is` is cut off again, so the result is the buffer before it |
| EngineLemmas.EvalNeverClosedByPattern | lib/stockfish/load-engine.ts:46 | a buffer never ends in a newline, so the `Total Evaluation` pattern never matches: an `eval` entry completes exactly on `uciok`, `readyok` or a `bestmove` line |
| EngineLemmas.RoutedLine | lib/stockfish/load-engine.ts:127-176 | the routed entry's stream callback gets the line; on a terminal line exactly the routed entry leaves the queue, the others keep their order, and its callback gets the buffer if and only if the entry is not discarded; otherwise only that entry's buffer changes; `uciok` sets `loaded`, `readyok` sets `ready` |
| EngineLemmas.LineOnEmptyQueue | lib/stockfish/load-engine.ts:123-125 | any delivery to an idle engine only reaches the listener |
| EngineLemmas.NoOpenSearchAfterCancel | lib/stockfish/load-engine.ts:218-225 | after cancelling, no open search is left in the queue |
| EngineLemmas.CancelSearchesIdempotent | lib/stockfish/load-engine.ts:218-225 | cancelling twice is cancelling once |
| EngineLemmas.StopMovesEffect | lib/stockfish/load-engine.ts:218-225 | `stopMoves` keeps the queue length, marks every open search discarded, writes one `stop` per open search and calls nothing |
| EngineLemmas.StopMovesIdempotent | lib/stockfish/load-engine.ts:218-225 | a second `stopMoves` writes nothing and changes nothing |
| EngineLemmas.DiscardedEntryIsSilent | lib/stockfish/load-engine.ts:171-176 | a line routed to a discarded entry calls no callback |
| EngineLemmas.CancelledSearchIsSilent | lib/stockfish/load-engine.ts:171-176 | after `stopMoves`, a `bestmove` routed to a search removes exactly that entry (the queue shrinks by one, the others keep their order) and calls no callback |
| EngineLemmas.QuitEmptiesQueue | lib/stockfish/load-engine.ts:231-234 | `quit` empties the queue, terminates the worker and calls no callback |
| EngineLemmas.LineKeepsOwed | lib/stockfish/load-engine.ts:171-176 | handling a line only moves a callback from the queue to the call log |
| EngineLemmas.RunKeepsOwed | lib/stockfish/load-engine.ts:190-234 | over any run of operations, the callbacks queued, waiting in a timer or called never exceed those registered |
| EngineLemmas.CallbackCalledAtMostOnce | lib/stockfish/load-engine.ts:171-176 | a callback registered once is called at most once, whatever the engine outputs and the callers do |
| EngineObject.Engine.constructor | lib/stockfish/load-engine.ts:97-107 | a new engine has an empty queue and empty logs |
| EngineObject.Engine.Send | lib/stockfish/load-engine.ts:190-216 | the object's new state is exactly `AfterSend` of the old one |
| EngineObject.Engine.ProcessLine | lib/stockfish/load-engine.ts:109-177 | the object's new state is exactly `AfterChunk` of the old one, multi-line deliveries included |
| EngineObject.Engine.HandleLine | lib/stockfish/load-engine.ts:121-176 | one non-empty line has exactly the effect `AfterLine` |
| EngineObject.Engine.Conclude | lib/stockfish/load-engine.ts:140-169 | the buffer and completion flag agree with `Advance`; `loaded`/`ready` are set on `uciok`/`readyok` |
| EngineObject.Engine.SettleEntry | lib/stockfish/load-engine.ts:171-176 | a completed entry is spliced out and its callback logged unless discarded; an open one gets its new buffer |
| EngineObject.Engine.StopMoves | lib/stockfish/load-engine.ts:218-225 | the loop's end state is exactly `AfterStopMoves` of the start state |
| EngineObject.Engine.StopAt | lib/stockfish/load-engine.ts:219-224 | one turn of the loop cancels entry i if it is an open search, writing one `stop`, and leaves the state the loop's prefix specification names |
| EngineObject.Engine.GetQueueLength | lib/stockfish/load-engine.ts:227-229 | the result is the number of pending entries |
| EngineObject.Engine.Quit | lib/stockfish/load-engine.ts:231-234 | the new state is exactly `AfterQuit` of the old one |
| UseStockfish.Classify | hooks/use-stockfish.ts:174-238 | the loss from the best move picks the band (≤10 best or brilliant, ≤25 excellent, ≤50 okay, ≤100 inaccuracy, ≤250 mistake, else critical or blunder); brilliant exactly when the gain is ≥100, critical exactly when either adjusted score exceeds 300 in size |
| UseStockfish.EvaluateMove | hooks/use-stockfish.ts:163-239 | the score is always the adjusted gain, the type is never `theory`, and the description and colour are those of the type |
| UseStockfish.LossBands | hooks/use-stockfish.ts:178-238 | the six loss bands, each as an if-and-only-if, for the evaluated move |
| UseStockfish.BrilliantAndCritical | hooks/use-stockfish.ts:178-186 | brilliant if and only if loss ≤10 and gain ≥100; critical if and only if loss >250 and an adjusted score beyond ±300 |
| UseStockfish.SideSymmetry | hooks/use-stockfish.ts:170-172 | evaluating for black equals evaluating the negated scores for white |
| UseStockfish.BandMonotone | hooks/use-stockfish.ts:178-238 | a worse best-move score never yields a worse band for the same move |
| UseStockfish.LastKeywordIsLast | hooks/use-stockfish.ts:104-131 | the position found holds the keyword and no later token does, and none is found exactly when the keyword does not occur |
| UseStockfish.LastScoreIsLast | hooks/use-stockfish.ts:109-116 | the same for `score` followed by `cp` or `mate`: a `score` without either tag is ignored |
| UseStockfish.ObserveStep | hooks/use-stockfish.ts:104-131 | reading one more token through the loop's `switch` keeps every keyword's value at its last occurrence |
| UseStockfish.ParseAnalysisInfo | hooks/use-stockfish.ts:100-138 | the loop's result equals the declarative snapshot of the tokens: last occurrences, numbers through `parseInt`, none without depth and score |
| UseStockfish.SnapshotExists | hooks/use-stockfish.ts:133-137 | a snapshot exists if and only if a `depth` keyword and a `score cp` or `score mate` pair occur |
| UseStockfish.LastOccurrenceWins | hooks/use-stockfish.ts:106-129 | the depth comes from the last `depth`, and the line is every token after the last `pv` |
| UseStockfish.StockfishHook.constructor | hooks/use-stockfish.ts:51-91 | mounting posts `init`, or records `Failed to create worker: …` when the worker cannot be built |
| UseStockfish.StockfishHook.HandleMessage | hooks/use-stockfish.ts:28-49 | the change is exactly `AfterMessage`, branching on the first test the line passes (`KindOf`): `uciok` posts `isready`; `readyok` sets ready; an `info` line replaces the snapshot when it parses; `bestmove` stops analysing and records its second token as the best move of the current snapshot, if there is one |
| UseStockfish.StockfishHook.OnWorkerEvent | hooks/use-stockfish.ts:56-79 | a ready notice sets ready, clears the error and posts `uci`; a message notice has exactly the effect `AfterMessage` of its data, as `handleStockfishMessage` does; an error notice records the error and stops analysing; other types change nothing |
| UseStockfish.StockfishHook.OnWorkerError | hooks/use-stockfish.ts:81-84 | a worker error is recorded with its prefix and stops analysing |
| UseStockfish.StockfishHook.AnalyzePosition | hooks/use-stockfish.ts:140-154 | not ready: only the error `Stockfish not ready`; ready: analysing, error and snapshot cleared, one analyze message with depth 15 by default |
| UseStockfish.StockfishHook.StopAnalysis | hooks/use-stockfish.ts:156-161 | only while analysing: posts `stop` and clears the flag |
| GameEvaluationChart.BarHeight | components/game-evaluation-chart.tsx:22-30 | the height lies in [0, 100], and a missing evaluation gives the centre line 50 |
| GameEvaluationChart.BarHeightOfEvenScore | components/game-evaluation-chart.tsx:26-29 | score 0 gives the centre line |
| GameEvaluationChart.BarHeightSaturates | components/game-evaluation-chart.tsx:26 | scores beyond ±300 give the extreme heights |
| GameEvaluationChart.BarHeightNonIncreasing | components/game-evaluation-chart.tsx:26-29 | a higher score never gives a larger height value |
| GameEvaluationChart.BarColor | components/game-evaluation-chart.tsx:32-35 | grey `#6b7280` for a missing evaluation, its colour otherwise |
| GameEvaluationChart.BarColorOfClassification | components/game-evaluation-chart.tsx:32-35 | a classified move's bar has its classification's colour, never the grey |
| GameEvaluationChart.GetMoveTypeStats | components/game-evaluation-chart.tsx:37-57 | all nine types are keys and each count is the number of non-null evaluations of that type |
| GameEvaluationChart.CountsSumToTotal | components/game-evaluation-chart.tsx:50-60 | the nine counts add up to `totalMoves`, the number of non-null evaluations |
| GameEvaluationChart.AccuracyAtMostTotal | components/game-evaluation-chart.tsx:138-139 | brilliant + best + excellent + okay never exceeds `totalMoves`, so accuracy is at most 100% |
| GameEvaluationChart.MoveNumber | components/game-evaluation-chart.tsx:102 | the number is the move the ply belongs to, counting two plies per move from 1 |
| GameEvaluationChart.MoveNumberPairs | components/game-evaluation-chart.tsx:102 | both plies of a move share its number, and the next ply starts the next number |
| MoveAnalysis.FormatScore | components/move-analysis.tsx:63-75 | mate scores start `#+` exactly when positive, `#-` otherwise; centipawns carry their sign; zero and NaN give `0.00` |
| MoveAnalysis.CentipawnsRoundTrip | components/move-analysis.tsx:68-73 | the sign and the pawn digits read back as the centipawn score |
| MoveAnalysis.MateRoundTrip | components/move-analysis.tsx:64-65 | `parseInt` of the text after `#` gives the mate score back |
| MoveAnalysis.MateZero | components/move-analysis.tsx:65 | mate 0 is written `#-0` |
| MoveAnalysis.ScoreChangeIsFormatted | components/move-analysis.tsx:201-217 | the score-change text of a non-zero score is its centipawn text |
| MoveAnalysis.EvaluationBar | components/move-analysis.tsx:77-85 | the value lies in [0, 100]; a mate is 100 when positive and 0 otherwise; only a NaN centipawn score gives NaN |
| MoveAnalysis.EvaluationBarLandmarks | components/move-analysis.tsx:83-84 | 0 gives 50, and ±500 or beyond gives the full or the empty bar |
| MoveAnalysis.EvaluationBarMonotone | components/move-analysis.tsx:83-84 | the bar never shrinks as the score grows |
| MoveAnalysis.EvaluationBarSymmetric | components/move-analysis.tsx:83-84 | negating the score mirrors the bar about 50 |
| MoveAnalysis.PvPreview | components/move-analysis.tsx:187-192 | absent for a missing or empty line; ends in `...` when the line is longer than six moves |
| MoveAnalysis.PvPreviewShowsFirstMoves | components/move-analysis.tsx:191 | without the ellipsis, splitting the preview at spaces gives the first min(6, n) moves |
| MoveAnalysis.Capitalize | components/move-analysis.tsx:132 | same length, first character upper-cased, the rest unchanged |
| MoveAnalysis.LabelRoundTrip | components/move-analysis.tsx:132 | a badge label starts with a capital, and lowering it gives the type name back |
| MoveAnalysis.LabelsDistinct | components/move-analysis.tsx:132 | different types get different labels |
| ToDests.ToDests | components/chessground/to-dests.ts:4-19 | the keys are exactly the origin squares, and each list holds that square's destinations in input order |
| ToDests.EmptyMovesEmptyMap | components/chessground/to-dests.ts:5-7 | no moves give an empty map |
| ToDests.ListsAreNonEmpty | components/chessground/to-dests.ts:11-15 | every key has at least one destination |
| ToDests.ListedExactlyTheMoves | components/chessground/to-dests.ts:11-15 | a destination is listed under a square if and only if that move is in the input |
| ToDests.TotalIsMoveCount | components/chessground/to-dests.ts:11-15 | the lists hold as many squares as there are moves, duplicates kept |
| ToDests.Froms | components/chessground/to-dests.ts:11-15 | the keys in insertion order: each origin square once, and a square listed before another has its first move earlier in the input |
| MoveEvaluationOverlay.Overlay | components/chessground/move-evaluation-overlay.tsx:11-24 | nothing without an evaluation or a non-empty square; otherwise an icon 4.2% wide labelled with the type |
| MoveEvaluationOverlay.IndicesOnBoard | components/chessground/move-evaluation-overlay.tsx:14-15 | for a board square the file index is 0..7 and the rank index is the digit minus one |
| MoveEvaluationOverlay.CellOnBoard | components/chessground/move-evaluation-overlay.tsx:16-18 | a board square's cell edges are multiples of 12.5 within [0, 87.5] |
| MoveEvaluationOverlay.CornersForWhite | components/chessground/move-evaluation-overlay.tsx:17-18 | with white below, `a1` is at (0, 87.5) and `h8` at (87.5, 0) |
| MoveEvaluationOverlay.BlackIsReflection | components/chessground/move-evaluation-overlay.tsx:17-18 | the black picture is the point reflection of the white one |
| MoveEvaluationOverlay.CellsDistinct | components/chessground/move-evaluation-overlay.tsx:14-18 | different squares get different cells |
| MoveEvaluationOverlay.IconInsideCell | components/chessground/move-evaluation-overlay.tsx:20-24 | the icon box lies inside its square's cell |
| CgProps.CgPropsOf | components/chessground/cg-props.ts:4-43 | `fen` is copied only when non-empty; read-only disables moving, dragging and premoves, otherwise only destinations are shown; `viewOnly` is set only when true, animation disabled only when false; no other key is set |
| AnalysisPage.NavigationStaysInRange | app/analysis/page.tsx:263-267 | start, end, previous and next keep the selection within [-1, length - 1] |
| AnalysisPage.PrevAndNextAreInverse | app/analysis/page.tsx:265-267 | inside the range, next then previous (or previous then next) returns to the same move |
| AnalysisPage.Tick | app/analysis/page.tsx:238-244 | autoplay moves on by one until the last move, where it stops playing and keeps the index |
| AnalysisPage.AutoplayReachesEnd | app/analysis/page.tsx:235-255 | from any selectable move, autoplay reaches the last move, and the next tick stops it |
| AnalysisPage.FenFor | app/analysis/page.tsx:227-233 | the board shows the selected move's position, `start` for -1, and keeps its position otherwise |
| AnalysisPage.CurrentEvaluation | app/analysis/page.tsx:304-309 | the selected move's evaluation when in range, else none |
| AnalysisPage.AnalysisRequest | app/analysis/page.tsx:257-261 | a position is sent for analysis exactly when a real move is selected and the engine is ready |
| AnalysisPage.AnalysisPage.constructor | app/analysis/page.tsx:46-64 | the page starts at the `start` position with no history, no selection (-1), not playing, no evaluations and white's orientation |
| AnalysisPage.AnalysisPage.GoToStart | app/analysis/page.tsx:263 | the selection becomes -1 |
| AnalysisPage.AnalysisPage.GoToEnd | app/analysis/page.tsx:264 | the selection becomes the last move |
| AnalysisPage.AnalysisPage.GoToPrevMove | app/analysis/page.tsx:265 | the selection steps back, not below -1 |
| AnalysisPage.AnalysisPage.GoToNextMove | app/analysis/page.tsx:266-267 | the selection steps on, not past the last move |
| AnalysisPage.AnalysisPage.GoToMove | app/analysis/page.tsx:269 | the selection becomes the index as given |
| AnalysisPage.AnalysisPage.TogglePlay | app/analysis/page.tsx:268 | playing is flipped |
| AnalysisPage.AnalysisPage.FlipBoard | app/analysis/page.tsx:270-271 | the orientation is flipped |
| AnalysisPage.AnalysisPage.AutoplayTick | app/analysis/page.tsx:237-245 | one interval firing, which happens only while playing, has exactly the effect `Tick` |
| AnalysisPage.AnalysisPage.SyncFen | app/analysis/page.tsx:227-233 | the board position becomes `FenFor` of the selection |
| AnalysisPage.TintClassesDistinct | app/analysis/page.tsx:273-295 | the background classes of the colour families are pairwise different, and only the plain family has none |
| AnalysisPage.MoveItemClass | app/analysis/page.tsx:297-301 | every class starts with the common base classes, and the selected move's ends with the highlight `bg-primary text-primary-foreground` |
| AnalysisPage.SelectionOverridesTint | app/analysis/page.tsx:297-301 | the selected move's class ignores its classification; any other move ends with its background |
| AnalysisPage.TableCoversHistory | app/analysis/page.tsx:450-455 | ceil(n/2) rows; ply k sits in row k/2, white when even and black when odd, and in no other cell |
| AnalysisPage.Tag | app/analysis/page.tsx:611-616 | a tag is shown exactly for lines starting with `[` that contain a quote |
| AnalysisPage.HeaderTags | app/analysis/page.tsx:607-626 | one entry for each of the first ten lines at most, each the tag of that line |
| AnalysisPage.TagRoundTrip | app/analysis/page.tsx:612-616 | a standard tag line `[Key "Value"]` yields exactly its key and value |
| AnalysisPage.KeyWithoutSpace | app/analysis/page.tsx:612 | on a line without a space the key is `[`, because `substring` swaps its arguments |
| AnalysisPage.OnlyFirstTenLines | app/analysis/page.tsx:608-609 | lines after the tenth never change the tags shown |
| Actions.UploadPgn | app/actions.ts:5-43 | success exactly for a file whose name ends in `.pgn` (case-sensitive), and only success carries the file name; a missing file is reported before the suffix; a text field hits the generic error |
| Actions.SuffixIsCaseSensitive | app/actions.ts:18 | `game.PGN` is refused and `game.pgn` accepted |
| Actions.AcceptedNamesArePgn | app/actions.ts:10-35 | an accepted name ends in `.pgn`; every refusal gives one of the three messages |

## Left out

- Worker construction, `postMessage` transport, `Date.now()`, debug logging and `worker.terminate()` are not modelled as I/O. Worker writes are a log of strings, and termination is a flag.
- `engine.onError` forwarding (lib/stockfish/load-engine.ts:186-188) calls a user hook that cannot be seen and changes no state; it is not modelled.
- Callbacks are numbered and recorded, not run. A callback that re-enters the engine from inside `processLine` is not modelled.
- `setTimeout(cb, 0)` becomes a list of pending callbacks that an explicit step (`AfterTimers`) runs in order. Event-loop timing relative to other deliveries is otherwise not modelled.
- After `quit`, the terminated worker would deliver nothing more. The model keeps accepting calls and only records the flag.
- `EngineObject.Engine.ProcessLine`: the `!current` guard (lib/stockfish/load-engine.ts:129) cannot fail once the queue is non-empty, so the model has no branch for it.
- `EngineLemmas.CallbackCalledAtMostOnce`: callbacks are identified by number. The same JavaScript function object passed twice counts as two registrations.
- `UseStockfish.EvaluateMove`: scores are integers. The NaN comparisons JavaScript would make on NaN scores are not modelled.
- `parseInt` is modelled for integers only. Digit strings beyond double precision would lose precision in JavaScript but stay exact here.
- React machinery is not modelled: `useState`, `useEffect`, `useCallback`, `useMemo`, closures over stale state, `setInterval` and the unmount clean-up. Only the state transitions these perform are modelled, as methods of `StockfishHook` and `AnalysisPage`.
- `UseStockfish.StockfishHook.HandleMessage`: the `message` notice's data is assumed to be a string.
- `analyzeGame` and `createMockEvaluation` on the analysis page are driven by `Math.random` and are not modelled. PGN loading through chess.js is not modelled either: the move history is an input sequence of positions.
- The chess.js move generator behind `toDests` is not part of this model. The move list is an input sequence of (from, to) pairs.
- `MoveAnalysis.FormatScore`: `toFixed(2)` is modelled as the exact two-decimal rendering of the integer centipawn score. This agrees with JavaScript for every score whose value over 100 is represented exactly enough in double precision, which engine scores are. Chart percentages and the chart title's `toFixed` are not modelled.
- Bar heights, evaluation bars and overlay offsets use exact `real` arithmetic instead of floating point.
- `MoveAnalysis.Capitalize`: `toUpperCase` is modelled for ASCII letters only, which is all the type names contain.
- `ToDests.ToDests`: the result is a Dafny `map`, which has no key order. The insertion order of the JavaScript `Map`'s keys is stated only by `ToDests.Froms`.
- `AnalysisPage.MoveItemClass`: a move without an evaluation entry is treated like one whose evaluation is null.
- The evaluation chart's choice of top margin per bar (components/game-evaluation-chart.tsx:96-98) is layout only and is not modelled.
- The JSX rendering, icons, audio, theming, localStorage, the zod form in `app/page.tsx` and the other UI-only components are not modelled.
- `Actions.UploadPgn`: `revalidatePath` and its possible exceptions are not modelled. The `catch` branch is modelled only for a text field in place of a file.
