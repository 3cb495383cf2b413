# A verified model of a React chess front end and its Stockfish plumbing

The repository is a Vite/React chess application. This project models it in Dafny.

On the engine side there are five web-worker scripts under `vite-project/public/`. Each one starts a Stockfish build and turns structured requests into UCI lines. It also sorts the engine's output lines into typed replies.

There are also nine React hooks under `vite-project/src/`. Each one drives a worker or an engine instance: a handshake reaches readiness, `getBestMove` sends a search, and the hook reads the `bestmove` line back. One hook, `useSimpleAI`, asks an HTTP backend and falls back to a greedy one-ply material search.

On the UI side the project models four components:
- `ChessGame`: single player against `useSimpleAI`;
- `MultiplayerChess`: two players at one board;
- `StockfishDemo`: a console that talks to a worker;
- `App`: the view state machine that ties them together.

The model follows the source file by file, one Dafny module per file. Shared modules:
- `Strings`: `startsWith`, `includes`, `split`/`join`, `trim`, decimal numerals and `parseInt`.
- `Patterns`: the four regular expressions the code applies to engine lines, evaluated as a leftmost `String.prototype.match`.
- `Uci`: UCI command lines, with a parser for each kind of line, so that the lines sent can be read back.
- `WorkerProtocol`: the request and reply shapes, the request encoders and the line classifier.

What the source mutates is a class whose methods have `modifies` clauses, and each method's `ensures` states the whole new state. This covers the worker globals, each hook's state and refs, and each component's state. What the source computes is a function. Its properties are proved either in its own contract or as lemmas that relate it to an independent reading, for example:
- ParseGo reads back GoLine;
- the regular-expression search is pinned down by lemmas;
- the board-rendering index is inverted;
- stats stay balanced, with `totalGames` equal to the sum of the three counters.

Events that arrive from outside become method calls with parameters:
- a line from the engine;
- a timer firing;
- whether `new Worker` threw;
- what chess.js answered about a move or a position;
- a `Math.random()` value;
- the clock's `toLocaleTimeString()`.

Behaviour the source has, kept as written:
- `useStockfishRobust`: when `new Worker` throws, the `catch` block reads `timeoutId`, which is out of scope. That throws a `ReferenceError`, so no later source is tried. `RobustHook.Hook` ends the chain there.
- `useStockfishDirect`: the retry guard reads `initializationAttempts` from the mount-time closure, where it is always 0. Every worker error therefore schedules a retry (`DirectHook.Hook.OnError`).
- `useStockfishDirectLoad`: when `window.Stockfish` already exists, the instance gets no `onmessage`. The hook never becomes ready (`DirectLoadHook.Hook.OnLine` ensures `existing ==> !ready`).
- `useStockfishWorking`: the string branches for `readyok` and `bestmove` further down are never reached (`WorkingHook.Dispatch`).
- `useStockfishWorking` creates `/working-stockfish-worker.js` (useStockfishWorking.js:28) and sends it only `uci` (:84), never `'init'`. That worker drops every message before `'init'` (`WorkingWorker.Worker.OnMessage`), so it answers nothing and the hook never becomes ready in practice. `WorkingHook.Hook` models the hook's handlers for whatever replies arrive.
- `useStockfishBasic` and `useStockfishSimple`: on `bestmove (none)`, the thinking flag stays set.
- `App` passes no `playerColor` to `ChessGame`, so the colour picked in mode selection is dropped. `ChessGame` then treats the player as black. It does not flip the board, and it lets no piece be dragged while White is to move (`ChessGame.MissingColorStalls`, `App.ChosenColorIsDropped`).
- `useStockfishRobust` sends only `uci` to each source. `/working-stockfish-worker.js` (source 2) drops every message before `'init'`, so it posts nothing and its attempt times out (`RobustHook.Hook.OnTimeout`). `/simple-stockfish-worker.js` (source 3) answers `uci` with an `{type: 'error'}` object, while the hook's `onmessage` treats every message as a string. The object sets the message flag and clears the timeout before `line.includes` throws. That attempt then never becomes ready and is never abandoned for the next source (`RobustHook.Hook.OnObject`).
- Move numbers come from `history().length` of a game rebuilt with `new Chess(fen)`, whose history is empty. In `ChessGame` every player entry is therefore numbered 0 and every engine entry 1. In `MultiplayerChess` every entry is numbered 1. The model takes the history length as part of chess.js's answer, and these are the values chess.js gives.
- `MultiplayerChess.startNewGame` calls `updateBoardState()` inside the closure of the render that ran it. It therefore redraws and rescores the old position, not the new one. A checkmate shown before New Game is counted a second time (`Multiplayer.Game.StartNewGame`, `Multiplayer.NewGameAfterMateCountsAgain`).

## Model

| member | source | states |
|---|---|---|
| WorkingWorker.Worker.constructor | vite-project/public/working-stockfish-worker.js:2-3 | no engine, not initialised, nothing sent or posted |
| WorkingWorker.Worker.Initialize | vite-project/public/working-stockfish-worker.js:6-65 | a successful load sends `uci` then `isready` and posts nothing; a failed load sends nothing and posts exactly one error carrying the load's message |
| WorkingWorker.Worker.OnMessage | vite-project/public/working-stockfish-worker.js:68-126 | `'init'` initialises; before initialisation any other message is dropped (nothing sent, nothing posted); afterwards a string is forwarded verbatim and a request sends its encoding |
| WorkingWorker.Worker.OnEngineLine | vite-project/public/working-stockfish-worker.js:38-54 | exactly one reply per engine line, typed by the classifier and carrying the line; `isInitialized` becomes true exactly when the line is classified ready |
| WorkerProtocol.GoFor | vite-project/public/working-stockfish-worker.js:92-98 | the chosen limit is a movetime only when movetime is truthy and equal to it, and a depth is the truthy requested depth or the default; depth-first: a truthy depth wins, then a truthy movetime; time-first: movetime exactly when `useTime` and it is truthy, then the truthy depth; the default only when no truthy depth decides |
| WorkerProtocol.ConfigureLines | vite-project/public/working-stockfish-worker.js:105-114 | no lines without settings; two lines (`UCI_LimitStrength true`, then `UCI_Elo <elo>`) exactly when limitStrength and elo are truthy; otherwise the one `UCI_LimitStrength false` line |
| WorkerProtocol.PositionEncoding | vite-project/public/working-stockfish-worker.js:88-99 | `position` sends three lines: `ucinewgame`, a line from which the FEN reads back verbatim, and exactly one `go` line, which reads back as the policy's limit |
| WorkerProtocol.AnalyzeEncoding | vite-project/public/working-stockfish-worker.js:116-120 | `analyze` sends `ucinewgame`, the FEN line and exactly one `go infinite` |
| WorkerProtocol.OtherEncodings | vite-project/public/working-stockfish-worker.js:101-123 | `stop` sends just `stop`; `configure` starts no search; an unknown type sends nothing |
| WorkerProtocol.WorkingAgreesWithReal | vite-project/public/real-stockfish-worker.js:76-82 | the working and real workers send the same lines iff the request is no `position`, has no truthy movetime, or has a truthy depth exactly when useTime is false |
| WorkerProtocol.SimpleAgreesWithReal | vite-project/public/simple-stockfish-worker.js:35-41 | the simple and real workers differ only when the default depth (8 against 10) is used |
| WorkerProtocol.ClassifyEngineLines | vite-project/public/working-stockfish-worker.js:42-53 | an engine line without a `y` (so without `readyok`) is a best move when it starts `bestmove `, information when it starts `info `, and plain output when it starts with any other letter than `b` or `i` |
| WorkerProtocol.SimpleClassify | vite-project/public/simple-stockfish-worker.js:82-96 | the simple worker's five-branch classifier agrees with the four-branch one everywhere |
| WorkerProtocol.UciokIsOutput | vite-project/public/simple-stockfish-worker.js:91-93 | the handshake reply `uciok` is posted as output, not as ready |
| WorkerProtocol.ReadyokAnywhere | vite-project/public/real-stockfish-worker.js:24-26 | a line is classified ready whatever text surrounds `readyok` |
| RealWorker.Worker.constructor | vite-project/public/real-stockfish-worker.js:2-3 | no engine source, not initialised, nothing sent or posted |
| RealWorker.Worker.Initialize | vite-project/public/real-stockfish-worker.js:6-49 | the local script is used when it loads, the CDN build otherwise; a created engine gets `uci` then `isready`; when both throw, one error reply is posted |
| RealWorker.Worker.OnMessage | vite-project/public/real-stockfish-worker.js:52-110 | `'init'` initialises; messages are dropped while not initialised or without an engine; otherwise strings are forwarded verbatim and requests encoded movetime first |
| RealWorker.Worker.OnEngineLine | vite-project/public/real-stockfish-worker.js:19-34 | one reply per line, with the engine name `Stockfish 17` exactly on the ready reply, which also sets `isInitialized` |
| RealWorker.Worker.OnEngineError | vite-project/public/real-stockfish-worker.js:36-39 | an engine error posts one error reply with its message and changes nothing else |
| SimpleWorker.Worker.constructor | vite-project/public/simple-stockfish-worker.js:2-3 | no engine, not ready, nothing sent or posted |
| SimpleWorker.Worker.Initialize | vite-project/public/simple-stockfish-worker.js:71-113 | creation sends `uci` then `isready`; a throw posts its message as one error reply |
| SimpleWorker.Worker.OnMessage | vite-project/public/simple-stockfish-worker.js:8-69 | before readiness each non-`'init'` message gets exactly one `Stockfish not ready` error and sends nothing; afterwards strings are forwarded verbatim and requests encoded with default depth 8 |
| SimpleWorker.Worker.OnEngineLine | vite-project/public/simple-stockfish-worker.js:77-97 | one reply per line, tagged `Stockfish 11` when ready; `isReady` is set exactly by a ready line |
| SimpleWorker.Worker.OnEngineError | vite-project/public/simple-stockfish-worker.js:99-102 | an engine error posts one error reply and changes nothing else |
| TestWorker.Commands | vite-project/public/test-stockfish-worker.js:41-55 | `'init'` sends `uci` then `isready` and is not itself forwarded; any other string is forwarded verbatim; a request other than `move` sends nothing |
| TestWorker.MoveCommands | vite-project/public/test-stockfish-worker.js:50-54 | `move` sends `ucinewgame`, the FEN line and exactly one search, which reads back as depth 5 |
| TestWorker.FanOut | vite-project/public/test-stockfish-worker.js:8-30 | every line first posts `stockfish-output`; a `ready` reply follows iff the line contains `readyok`, a `bestmove` reply, last, iff it starts with `bestmove`; nothing else is posted |
| TestWorker.Worker.constructor | vite-project/public/test-stockfish-worker.js:4-63 | handlers exist only when creation succeeded; a failed creation posts `Failed to create Stockfish: <message>` |
| TestWorker.Worker.OnMessage | vite-project/public/test-stockfish-worker.js:41-55 | the engine receives exactly the commands of the message, and nothing is posted back |
| TestWorker.Worker.OnEngineLine | vite-project/public/test-stockfish-worker.js:8-30 | the replies posted for a line are its fan-out |
| TestWorker.Worker.OnEngineError | vite-project/public/test-stockfish-worker.js:32-38 | an engine error posts one error reply |
| UltraSimpleWorker.FirstLoad | vite-project/public/ultra-simple-stockfish-worker.js:30-48 | the walk from an index stops at the first fallback that loads, or past the end, and every URL before that failed |
| UltraSimpleWorker.FallbackUrlsDistinct | vite-project/public/ultra-simple-stockfish-worker.js:24-28 | no fallback URL is listed twice, so the walk imports each at most once |
| UltraSimpleWorker.Worker.constructor | vite-project/public/ultra-simple-stockfish-worker.js:5-51 | a throwing primary import stops the script; a loading primary gives an engine with no fallback tried; otherwise the fallbacks are walked from index 0 |
| UltraSimpleWorker.Worker.TryFallback | vite-project/public/ultra-simple-stockfish-worker.js:30-48 | the URLs imported are the walk's, in listed order; an engine exists iff one loaded; otherwise exactly one `error: All Stockfish versions failed to load` is posted |
| UltraSimpleWorker.Worker.OnMessage | vite-project/public/ultra-simple-stockfish-worker.js:54-64 | with an engine, the command is forwarded unchanged; without one, `error: Stockfish not initialized` is posted and nothing is forwarded |
| UltraSimpleWorker.Worker.OnEngineOutput | vite-project/public/ultra-simple-stockfish-worker.js:67-74 | output is relayed verbatim only when the engine existed at setup |
| Uci.ParseGoLine | vite-project/public/working-stockfish-worker.js:93-97 | every `go` line the code writes reads back as the limit it was written from |
| Uci.GoLineInjective | vite-project/public/real-stockfish-worker.js:76-82 | different limits give different `go` lines |
| Uci.FenOfPositionFen | vite-project/public/working-stockfish-worker.js:90 | the FEN comes back out of a `position fen` line unchanged |
| Uci.StartposMovesRoundTrip | vite-project/src/useStockfishRobust.js:161 | the move list comes back out of a `position startpos moves` line when no move holds a space |
| Strings.ContainsIff | vite-project/public/working-stockfish-worker.js:42 | `includes` holds iff the text occurs at some index |
| Strings.ParseIntOfIntToString | vite-project/src/useStockfish.js:52-53 | `parseInt` reads back every integer's numeral |
| Strings.JoinSplit | vite-project/src/useStockfishBasic.js:30 | joining the parts of `split(' ')` gives the text back |
| Strings.SplitJoin | vite-project/src/useStockfishBasic.js:30 | splitting a join gives the parts back when no part holds the separator |
| Strings.TrimSpec | vite-project/src/components/MultiplayerChess.jsx:224 | `trim` keeps a contiguous slice and removes exactly the leading and trailing whitespace |
| Strings.TrimEmpty | vite-project/src/components/MultiplayerChess.jsx:231 | the trimmed input is empty iff every character is whitespace |
| Patterns.Search | vite-project/src/useStockfish.js:37 | a capture has the group's shape, and the literal followed by it occurs in the line |
| Patterns.SearchFinds | vite-project/src/useStockfish.js:47-49 | after text that cannot start the literal, the literal and a capture-shaped text ending at a boundary yield that capture |
| Patterns.SearchAbsent | vite-project/src/useStockfish.js:47-49 | a line without the literal's first character has no match |
| Patterns.BestmoveToken | vite-project/src/useStockfishRobust.js:90 | `bestmove <word> ...` yields the word |
| Patterns.BestmoveNoneNoMatch | vite-project/src/useStockfishRobust.js:90-91 | `bestmove (none)`, followed by text holding no `b`, does not match `bestmove (\w+)` |
| Patterns.BestmoveCaptureIsNeverNone | vite-project/src/useStockfishRobust.js:91 | the capture is never `(none)`, so that comparison rejects nothing |
| EngineHooks.StrengthFor | vite-project/src/useStockfishRobust.js:13-21 | the five table entries, and the intermediate entry for every other key |
| EngineHooks.SkillLevel | vite-project/src/useStockfishRobust.js:167 | the level is in [0, 20], 0 for negative ratings, 20 from 2400, and otherwise the 120-point band holding the rating |
| EngineHooks.TableSkillLevels | vite-project/src/useStockfishRobust.js:13-19 | the table's ratings give levels 6, 10, 13, 16 and 20 |
| EngineHooks.SearchLinesMeaning | vite-project/src/useStockfishRobust.js:156-170 | `getBestMove` sends `ucinewgame`, a position line from which the FEN or the move list reads back, the Skill Level option, and exactly one search with the entry's depth and time |
| EngineHooks.FenSearchLinesMeaning | vite-project/src/useStockfishMinimal.js:117-120 | the depth-only hooks send `ucinewgame`, a FEN line that reads back, and exactly one depth search |
| EngineHooks.MoveOf | vite-project/src/useStockfishRobust.js:90-91 | an accepted move is a non-empty word other than `(none)` that follows `bestmove ` in the line |
| EngineHooks.MoveOfExamples | vite-project/src/useStockfishRobust.js:89-98 | `bestmove e2e4 ponder e7e5` gives e2e4; `bestmove (none)` gives no move |
| EngineHooks.MoveOfIsTheCapture | vite-project/src/useStockfishRobust.js:91 | the accepted move is exactly the regex capture |
| RobustHook.Hook.constructor | vite-project/src/useStockfishRobust.js:41-67 | the first attempt uses source 0 and sends `uci` when the worker was created; a throw ends the chain |
| RobustHook.Hook.Advance | vite-project/src/useStockfishRobust.js:41-52 | past the last source nothing is attempted; otherwise the next source is recorded and a fresh attempt starts with cleared flags |
| RobustHook.Hook.OnTimeout | vite-project/src/useStockfishRobust.js:59-67 | a timeout that is still armed abandons the attempt: past the last source every field stays; otherwise the next source is recorded, a created worker gets fresh flags and `uci`, and a throw ends the chain with the flags and lines kept; a disarmed timer changes nothing |
| RobustHook.Hook.OnError | vite-project/src/useStockfishRobust.js:107-118 | a worker error clears the timeout: on the last source every other field stays; otherwise the next source is recorded, a created worker gets fresh flags and `uci`, and a throw ends the chain with the flags and lines kept |
| RobustHook.Hook.OnObject | vite-project/src/useStockfishRobust.js:69-76 | an object message, as the simple worker posts in answer to `uci`, sets the message flag and cancels the timeout and nothing else, so the attempt is never abandoned |
| RobustHook.Hook.OnLine | vite-project/src/useStockfishRobust.js:69-105 | any line cancels the timeout; `uciok` sends exactly one `isready`; `readyok` sets ready only after `uciok` in the same attempt; `bestmove` sets the accepted move, if any, and always clears thinking |
| RobustHook.Hook.GetBestMove | vite-project/src/useStockfishRobust.js:146-175 | nothing without a worker or before readiness; otherwise thinking, no move, and the search lines appended |
| RobustHook.Hook.ResetAI | vite-project/src/useStockfishRobust.js:177-184 | `ucinewgame` only when ready; the move and the thinking flag are always cleared |
| DirectHook.DifficultyDepth | vite-project/src/useStockfishDirect.js:143-152 | beginner…grandmaster give 5/8/12/15/18, any other key 8 |
| DirectHook.DifficultyElo | vite-project/src/useStockfishDirect.js:172-181 | the same keys give 1000/1400/1800/2200/2600, any other key 1400 |
| DirectHook.TablesAreMonotone | vite-project/src/useStockfishDirect.js:143-181 | both tables rise strictly with the level, and an unknown key gets the intermediate entry |
| DirectHook.Hook.constructor | vite-project/src/useStockfishDirect.js:14-92 | mount runs the first initialisation: `uci` and a pending `isready` timer, or a pending retry after a throw |
| DirectHook.Hook.Initialize | vite-project/src/useStockfishDirect.js:14-90 | a created worker with cleared handshake flags gets `uci` and one pending `isready`; a throw bumps the attempt count and schedules a retry |
| DirectHook.Hook.OnIsReadyTimer | vite-project/src/useStockfishDirect.js:75-79 | the delayed `isready` is sent once, and only if a worker is set |
| DirectHook.Hook.OnError | vite-project/src/useStockfishDirect.js:55-68 | a worker error clears readiness and schedules a retry whatever the count |
| DirectHook.Hook.OnErrorRetry | vite-project/src/useStockfishDirect.js:63-66 | the retry drops the old worker and runs initialisation again: a created worker gets fresh flags, `uci` and an `isready` timer with the counters kept; a throw leaves no worker, keeps the flags, lines and `isready` timers, and bumps the attempts and the catch retries |
| DirectHook.Hook.OnCatchRetry | vite-project/src/useStockfishDirect.js:81-89 | the catch block's retry runs initialisation again with the error retries kept: a created worker gets fresh flags, `uci` and an `isready` timer, the attempts kept; a throw keeps the worker, flags, lines and timers and bumps the attempts |
| DirectHook.Hook.OnLine | vite-project/src/useStockfishDirect.js:24-53 | `uciok` only sets the flag and sends nothing; `readyok` sets ready only after `uciok`; `bestmove` sets the accepted move, if any, and clears thinking; the attempts and every pending timer stay |
| DirectHook.Hook.GetBestMove | vite-project/src/useStockfishDirect.js:102-141 | nothing without a worker or before readiness; otherwise `ucinewgame`, the FEN line and `go depth <DifficultyDepth>`; the worker, flags, attempts and pending timers stay |
| DirectHook.Hook.ResetAI | vite-project/src/useStockfishDirect.js:154-158 | clears the move and the thinking flag and sends nothing; the worker, flags, attempts and pending timers stay |
| WorkingHook.Dispatch | vite-project/src/useStockfishWorking.js:35-74 | a message is ready iff it is a `ready` object or a string holding `readyok`; the later string branches for readyok and bestmove are never taken; the uciok branch is only for strings holding `uciok` |
| WorkingHook.TypedBestmoveUsesData | vite-project/src/useStockfishWorking.js:38-40 | a typed bestmove reply is parsed from its `data` |
| WorkingHook.Hook.constructor | vite-project/src/useStockfishWorking.js:25-91 | mount sends `uci` when the worker was created |
| WorkingHook.Hook.OnMessage | vite-project/src/useStockfishWorking.js:30-75 | the branch chosen by Dispatch: ready with no `uciok` precondition, the accepted move, `isready` after a `uciok` string, or nothing |
| WorkingHook.Hook.OnError | vite-project/src/useStockfishWorking.js:77-80 | a worker error clears readiness |
| WorkingHook.Hook.GetBestMove | vite-project/src/useStockfishWorking.js:101-130 | the same gate and search lines as the Robust hook |
| WorkingHook.Hook.ResetAI | vite-project/src/useStockfishWorking.js:132-139 | `ucinewgame` only when ready; the move and the thinking flag are cleared |
| DirectLoadHook.Hook.constructor | vite-project/src/useStockfishDirectLoad.js:86-98 | with an existing constructor no script is loaded and `uci` is sent directly, with no handler installed; otherwise the script load is pending |
| DirectLoadHook.Hook.OnScriptLoad | vite-project/src/useStockfishDirectLoad.js:31-73 | a loaded constructor that creates an instance installs the handler and sends `uci`; otherwise nothing changes |
| DirectLoadHook.Hook.OnLine | vite-project/src/useStockfishDirectLoad.js:39-62 | without the handler nothing happens; `uciok` sends `isready`; `readyok` sets ready without `uciok`; `bestmove` sets the accepted move, if any, and clears thinking |
| DirectLoadHook.Hook.GetBestMove | vite-project/src/useStockfishDirectLoad.js:105-134 | the same gate and search lines as the Robust hook |
| DirectLoadHook.Hook.ResetAI | vite-project/src/useStockfishDirectLoad.js:136-143 | `ucinewgame` only when ready; the move and the thinking flag are cleared |
| MinimalHook.MinimalDepth | vite-project/src/useStockfishMinimal.js:11-19 | depths 3/5/8/12/15 with default 8 |
| MinimalHook.MinimalDepthIsRobustDepth | vite-project/src/useStockfishMinimal.js:11-19 | each depth is the Robust table's depth for the same key |
| MinimalHook.Hook.constructor | vite-project/src/useStockfishMinimal.js:53-98 | a created worker has the one-second `uci` timer pending and nothing sent |
| MinimalHook.Hook.OnUciTimer | vite-project/src/useStockfishMinimal.js:89-94 | the timer sends `uci` |
| MinimalHook.Hook.OnMessage | vite-project/src/useStockfishMinimal.js:60-82 | non-strings are ignored; `uciok` sends `isready`; `readyok` sets ready without `uciok`; `bestmove` sets the accepted move, if any, and clears thinking |
| MinimalHook.Hook.GetBestMove | vite-project/src/useStockfishMinimal.js:107-125 | gated on worker and readiness; exactly `ucinewgame`, the FEN line and `go depth <depth>` |
| MinimalHook.Hook.ResetAI | vite-project/src/useStockfishMinimal.js:127-130 | sends no engine command |
| BasicHook.SplitMove | vite-project/src/useStockfishBasic.js:30-31 | the move is the present, non-empty second space-separated field, other than `(none)` |
| BasicHook.SplitMoveOfWord | vite-project/src/useStockfishBasic.js:28-35 | `bestmove <word>`, followed by nothing or a space, gives the word |
| BasicHook.SplitMoveAgreesWithRegex | vite-project/src/useStockfishBasic.js:30-31 | on such lines the split parse and the regex parse agree |
| BasicHook.SplitMoveOfNone | vite-project/src/useStockfishBasic.js:31 | `bestmove (none)`, alone or followed by more fields, gives no move |
| BasicHook.Hook.constructor | vite-project/src/useStockfishBasic.js:13-54 | `uci` and `isready` are sent back to back at mount |
| BasicHook.Hook.OnMessage | vite-project/src/useStockfishBasic.js:19-36 | `readyok` sets ready independently of `uciok`; a bestmove line with a split move sets it and clears thinking; otherwise thinking stays as it was |
| BasicHook.Hook.GetBestMove | vite-project/src/useStockfishBasic.js:63-83 | refused before readiness; otherwise `ucinewgame`, the FEN line and `go depth 8` |
| BasicHook.Hook.ResetAI | vite-project/src/useStockfishBasic.js:85-88 | clears the move and thinking, and sends nothing |
| SimpleHook.Hook.constructor | vite-project/src/useStockfishSimple.js:14-44 | `uci` then `isready` at mount |
| SimpleHook.Hook.OnMessage | vite-project/src/useStockfishSimple.js:17-32 | `readyok` sets ready; a regex match sets the move and clears thinking; `bestmove (none)` leaves thinking set |
| SimpleHook.Hook.GetBestMove | vite-project/src/useStockfishSimple.js:53-66 | gated on readiness; `ucinewgame`, the FEN line and `go depth 8` |
| SimpleHook.Hook.ResetAI | vite-project/src/useStockfishSimple.js:68-71 | clears the move and thinking only |
| StockfishHook.LevelFor | vite-project/src/useStockfish.js:11-19 | the five entries, and grandmaster (no strength limit, depth 20) for unknown keys |
| StockfishHook.RealWorkerSearch | vite-project/src/useStockfish.js:112-118 | through the real worker, beginner searches by movetime 500 and every other level by its table depth, after `ucinewgame` and the FEN line |
| StockfishHook.RealWorkerConfigure | vite-project/src/useStockfish.js:84-95 | through the real worker, `configure` sets `UCI_LimitStrength` and, for limited levels, `UCI_Elo` to the table rating |
| StockfishHook.ParseInfo | vite-project/src/useStockfish.js:45-67 | no evaluation iff depth or both scores are missing; the depth is the parsed capture; cp wins over mate; a cp value is centipawns/100; a mate value keeps its sign |
| StockfishHook.ParseInfoOfMatches | vite-project/src/useStockfish.js:51-66 | the evaluation built from the three pattern matches |
| StockfishHook.ParseInfoCentipawns | vite-project/src/useStockfish.js:51-58 | `info depth D score cp N ...` gives `{cp, N/100, D}` |
| StockfishHook.ParseInfoMate | vite-project/src/useStockfish.js:59-66 | `info depth D score mate M` gives `{mate, M, D}`, sign kept |
| StockfishHook.ParseInfoNeedsDepth | vite-project/src/useStockfish.js:51-67 | a line without depth leaves the evaluation alone |
| StockfishHook.DepthOfInfo | vite-project/src/useStockfish.js:49 | the depth pattern takes the number after `info depth` |
| StockfishHook.NoCpInMate | vite-project/src/useStockfish.js:47-48 | a mate score holds no centipawn match |
| StockfishHook.Hook.constructor | vite-project/src/useStockfish.js:21-95 | mount posts `'init'` and arms the configure timer |
| StockfishHook.Hook.OnConfigureTimer | vite-project/src/useStockfish.js:84-95 | the timer posts one `configure` request with the level's strength |
| StockfishHook.Hook.OnReply | vite-project/src/useStockfish.js:26-73 | ready replies set ready; a bestmove match sets the move and clears thinking; an info line that parses replaces the evaluation; nothing is posted |
| StockfishHook.Hook.OnError | vite-project/src/useStockfish.js:75-78 | a worker error clears readiness |
| StockfishHook.Hook.GetBestMove | vite-project/src/useStockfish.js:105-122 | when ready, exactly one `position` request with the level's depth and think time, thinking set and the move cleared; otherwise nothing |
| StockfishHook.Hook.StopThinking | vite-project/src/useStockfish.js:124-129 | when ready, one `stop` request and thinking cleared at once |
| StockfishHook.Hook.ResetAI | vite-project/src/useStockfish.js:131-146 | clears move, thinking and evaluation; re-posts `configure` only when ready |
| StockfishHook.Hook.AnalyzePosition | vite-project/src/useStockfish.js:148-155 | one `analyze` request when ready, nothing otherwise |
| SimpleAI.PieceValue | vite-project/src/useSimpleAI.js:42-44 | piece values in [0, 9], 0 for unknown letters |
| SimpleAI.EvaluatePosition | vite-project/src/useSimpleAI.js:41-60 | the nested loops compute the material balance: +value for White and −value for Black over the 64 squares |
| SimpleAI.MaterialScoreSwapped | vite-project/src/useSimpleAI.js:41-60 | swapping every piece's colour negates the score |
| SimpleAI.MaterialScoreEmpty | vite-project/src/useSimpleAI.js:41-60 | an empty board scores 0 |
| SimpleAI.MaterialScoreBound | vite-project/src/useSimpleAI.js:41-60 | the score lies in [−576, 576] |
| SimpleAI.Min | vite-project/src/useSimpleAI.js:88 | `Math.min` returns one argument and lies above neither |
| SimpleAI.Least | vite-project/src/useSimpleAI.js:82-89 | the worst reply score: Infinity iff there are no replies, otherwise the evaluation of one of them and above none of them |
| SimpleAI.WorstReply | vite-project/src/useSimpleAI.js:82-89 | the reply loop returns the least reply evaluation, Infinity when there are none |
| SimpleAI.ScoreOf | vite-project/src/useSimpleAI.js:75-95 | a candidate's score is never −Infinity |
| SimpleAI.FirstBest | vite-project/src/useSimpleAI.js:97-100 | the strict-greater scan keeps an index into the scores |
| SimpleAI.FirstBestIsFirstMaximum | vite-project/src/useSimpleAI.js:71-101 | the kept index has a score no other is above, and every earlier score lies strictly below it |
| SimpleAI.Scores | vite-project/src/useSimpleAI.js:74 | one score for each of the first min(n, 10) moves |
| SimpleAI.BestChoice | vite-project/src/useSimpleAI.js:67-104 | no move iff there are no moves, otherwise one of the first min(n, 10) moves |
| SimpleAI.BestMoveSimple | vite-project/src/useSimpleAI.js:67-104 | the loops return the first maximum among the considered moves, with lookahead only when depth > 1 and n < 20 |
| SimpleAI.RandomMove | vite-project/src/useSimpleAI.js:62-65 | undefined iff there are no moves, otherwise one of them |
| SimpleAI.StrategyFor | vite-project/src/useSimpleAI.js:162-170 | random for beginner and for intermediate when the toss is ≤ 0.3; depth 2 for advanced, master and grandmaster; depth 1 otherwise |
| SimpleAI.ReportedDepthAgreesWithBackend | vite-project/src/useSimpleAI.js:132-140 | the reported depth equals the backend depth iff the key is one of the five levels (15 against 20 otherwise) |
| SimpleAI.TablesGrow | vite-project/src/useSimpleAI.js:199-201 | ratings and backend depths rise strictly from beginner to grandmaster |
| SimpleAI.Accepted | vite-project/src/useSimpleAI.js:28-32 | a backend move is used iff it is present, non-empty and not `(none)` |
| SimpleAI.Hook.constructor | vite-project/src/useSimpleAI.js:106-117 | not ready, with the 500 ms ready timer pending |
| SimpleAI.Hook.OnReadyTimer | vite-project/src/useSimpleAI.js:111-117 | the timer makes the hook ready |
| SimpleAI.FallbackMoveIsLegal | vite-project/src/useSimpleAI.js:160-170 | the fallback finds a move iff the position has one, and it is one of the position's moves: random for beginner, the depth-2 search for advanced, master and grandmaster, the depth-1 search for intermediate on a toss above 0.3 |
| SimpleAI.Hook.GetBestMove | vite-project/src/useSimpleAI.js:119-143 | nothing when not ready; otherwise thinking, no move, one backend request at the level's depth, and the backend awaited |
| SimpleAI.Hook.OnBackendAnswer | vite-project/src/useSimpleAI.js:143-158 | an accepted backend move is taken and thinking ends; any other answer leaves move and thinking alone and awaits the fallback's delay |
| SimpleAI.Hook.OnFallbackTimer | vite-project/src/useSimpleAI.js:158-183 | the fallback strategy's move, if the position has one, is taken; a rejected FEN leaves the move alone; thinking always ends |
| SimpleAI.Hook.ResetAI | vite-project/src/useSimpleAI.js:186-190 | clears the move and thinking |
| SimpleAI.Hook.SetBestMove | vite-project/src/useSimpleAI.js:198 | sets the move and nothing else |
| ChessGame.CellOfSquareName | vite-project/src/components/ChessGame.jsx:80 | the name of cell (i, j) is a square that reads back as (i, j) |
| ChessGame.SquareNameOfCell | vite-project/src/components/ChessGame.jsx:80 | every square is the name of its cell |
| ChessGame.SquareNameInjective | vite-project/src/components/ChessGame.jsx:80 | different cells have different names |
| ChessGame.PieceCode | vite-project/src/components/ChessGame.jsx:83 | two characters, the first the colour letter |
| ChessGame.PieceCodeHasImage | vite-project/src/components/ChessGame.jsx:19-22 | the lower-case code of every chess piece is a key of the image table |
| ChessGame.BoardPieces | vite-project/src/components/ChessGame.jsx:76-88 | the loops' map holds exactly the occupied squares, each with its piece code |
| ChessGame.RenderedUnflipped | vite-project/src/components/ChessGame.jsx:392-400 | unflipped index i is cell (i / 8, i % 8) |
| ChessGame.FlipIsHalfTurn | vite-project/src/components/ChessGame.jsx:397-400 | flipped index i names the square of unflipped index 63 − i |
| ChessGame.RenderedIsSquare | vite-project/src/components/ChessGame.jsx:392-400 | every rendered index names a square |
| ChessGame.RenderIndex | vite-project/src/components/ChessGame.jsx:392-400 | the inverse index of a square is in [0, 64) |
| ChessGame.RenderingIsBijection | vite-project/src/components/ChessGame.jsx:392-400 | in either orientation the 64 indices name 64 distinct squares, and every square is named |
| ChessGame.LabelsMatchSquares | vite-project/src/components/ChessGame.jsx:363-400 | the file and rank labels agree with the squares of their column and row |
| ChessGame.ActualColor | vite-project/src/components/ChessGame.jsx:67-73 | `random` becomes white or black; any other value is kept |
| ChessGame.SidesDiffer | vite-project/src/components/ChessGame.jsx:207 | player and engine have the two different colours |
| ChessGame.OutcomeOf | vite-project/src/components/ChessGame.jsx:96-133 | a player win iff checkmate with the winner (the side not to move) the player's colour; an engine win iff checkmate otherwise; a draw iff game over by draw |
| ChessGame.Record | vite-project/src/components/ChessGame.jsx:102-132 | an unfinished game leaves the stats alone; otherwise exactly one counter and the total rise by one |
| ChessGame.RecordKeepsBalance | vite-project/src/components/ChessGame.jsx:102-132 | `totalGames = playerWins + aiWins + draws` holds for the default and is kept by every update |
| ChessGame.NoMoveOnEngineTurn | vite-project/src/components/ChessGame.jsx:143-177 | on the engine's turn no drag starts and no drop moves |
| ChessGame.DropGuardIsDragGuard | vite-project/src/components/ChessGame.jsx:172 | the drop guard is the drag guard |
| ChessGame.MoveNumber | vite-project/src/components/ChessGame.jsx:201 | `ceil(n / 2)` |
| ChessGame.MissingColorStalls | vite-project/src/components/ChessGame.jsx:67-73 | without a colour prop the player is black, the board unflipped, and nothing can be dragged while White is to move |
| ChessGame.Game.constructor | vite-project/src/components/ChessGame.jsx:24-73 | the saved stats or the default; the colour effect's choice |
| ChessGame.Game.UpdateGameStatus | vite-project/src/components/ChessGame.jsx:93-141 | the status text and the stats recorded for the outcome |
| ChessGame.Game.UpdateBoardState | vite-project/src/components/ChessGame.jsx:76-90 | the pieces of the position by square name, then the status |
| ChessGame.Game.DragStart | vite-project/src/components/ChessGame.jsx:143-156 | a drag starts iff the piece is the player's and it is the player's turn |
| ChessGame.Game.MakeMove | vite-project/src/components/ChessGame.jsx:179-237 | a refused move changes nothing the board shows or records; a made one records from/to, appends the entry, draws every piece of the new position with its code, updates status and stats, and schedules the engine iff it is its turn, the game is not over and it is ready |
| ChessGame.Game.Drop | vite-project/src/components/ChessGame.jsx:167-177 | a disallowed or refused drop changes nothing the board shows or records; an allowed and made one has all of MakeMove's effects; the drag ends either way |
| ChessGame.Game.ApplyAIMove | vite-project/src/components/ChessGame.jsx:240-279 | applies only with a move, on the engine's turn, before game over; a played move is recorded as the engine's, drawn, and scored, a refused one changes nothing; the hook's move is cleared whether chess.js played it, refused it or threw; the hook's requests and phase, the drag and the dialog stay |
| ChessGame.Game.StartNewGame | vite-project/src/components/ChessGame.jsx:331-346 | the start position drawn and scored, empty history and no last move, the hook reset with its readiness, requests, phase and ready timer kept, and the engine asked to open when the player is black and it is ready; the drag and the dialog stay |
| ChessGame.Game.NewGameClick | vite-project/src/components/ChessGame.jsx:312-320 | starts a new game at once when no move was made; otherwise opens the dialog and changes nothing the board shows or records, nor the drag or any field of the hook |
| ChessGame.Game.ConfirmNewGame | vite-project/src/components/ChessGame.jsx:322-325 | closes the dialog and starts a new game, with all of `StartNewGame`'s effects, the hook's ready timer included |
| ChessGame.Game.CancelNewGame | vite-project/src/components/ChessGame.jsx:327-329 | closes the dialog; the board, status, stats, history, last move, schedule and drag stay, and the colours are fixed at mount |
| ChessGame.Game.ResetGameStats | vite-project/src/components/ChessGame.jsx:348-357 | back to the default, balanced record; the board, status, history, last move, schedule, drag and dialog stay, and the colours are fixed at mount |
| Multiplayer.ParseFromTo | vite-project/src/components/MultiplayerChess.jsx:113-120 | only `^[a-h][1-8]-[a-h][1-8][qrbnQRBN]?$` parses, to two squares and a lower-case promotion, `q` by default |
| Multiplayer.ParseFromToText | vite-project/src/components/MultiplayerChess.jsx:113-120 | every text of that shape parses to its squares and promotion |
| Multiplayer.ParseFromToOnlyText | vite-project/src/components/MultiplayerChess.jsx:113 | every text that parses is of that shape |
| Multiplayer.MoveLabel | vite-project/src/components/MultiplayerChess.jsx:415 | the move number is shown iff the move is White's |
| Multiplayer.RecentMoves | vite-project/src/components/MultiplayerChess.jsx:323 | the last min(8, n) entries, in order |
| Multiplayer.Record | vite-project/src/components/MultiplayerChess.jsx:56-101 | on checkmate the side not to move wins; each game-over update raises exactly one counter and the total |
| Multiplayer.RecordKeepsBalance | vite-project/src/components/MultiplayerChess.jsx:65-92 | `totalGames = whiteWins + blackWins + draws` holds for the default and is kept |
| Multiplayer.DragIsWhiteOnly | vite-project/src/components/MultiplayerChess.jsx:154-160 | only a white piece on White's turn can be dragged |
| Multiplayer.Game.constructor | vite-project/src/components/MultiplayerChess.jsx:252-257 | mount draws every piece of the start position with its code, shows its status and scores it |
| Multiplayer.Game.UpdateBoardState | vite-project/src/components/MultiplayerChess.jsx:39-53 | the pieces by square name, the status and the recorded stats |
| Multiplayer.Game.Played | vite-project/src/components/MultiplayerChess.jsx:126-142 | a made move draws every piece of the new position, updates status and stats, and appends its entry |
| Multiplayer.Game.MakeMove | vite-project/src/components/MultiplayerChess.jsx:103-151 | the from-to parse is tried only when SAN threw; success iff a move was made, and then the move chess.js answered is drawn, scored and entered and the input cleared; failure changes nothing |
| Multiplayer.Game.SetMoveInput | vite-project/src/components/MultiplayerChess.jsx:373 | the input field holds the typed text; the board, status, stats, history and drag stay |
| Multiplayer.Game.SubmitMove | vite-project/src/components/MultiplayerChess.jsx:222-242 | fails unless it is Black's turn and the trimmed input is non-empty; then it succeeds exactly when `makeMove` on the trimmed text does, with that move recorded; a failure changes nothing |
| Multiplayer.Game.DragStart | vite-project/src/components/MultiplayerChess.jsx:154-169 | a drag starts iff the guard holds, and then records the square and its targets; the board, status, stats, history and input stay |
| Multiplayer.Game.Drop | vite-project/src/components/MultiplayerChess.jsx:176-215 | nothing without a drag; otherwise a made move is drawn, scored and entered, and the drag state cleared; an unmade move changes nothing the board shows or records |
| Multiplayer.Game.DragEnd | vite-project/src/components/MultiplayerChess.jsx:217-220 | clears the drag state; the board, status, stats, history and input stay |
| Multiplayer.Game.StartNewGame | vite-project/src/components/MultiplayerChess.jsx:244-250 | the start position, no history and no input, with every piece of the old position redrawn with its code and that position rescored; the drag stays |
| Multiplayer.NewGameAfterMateCountsAgain | vite-project/src/components/MultiplayerChess.jsx:244-250 | New Game after a checkmate counts that game once more |
| StockfishDemo.StampReadsBack | vite-project/src/components/StockfishDemo.jsx:11-14 | the timestamp and message read back from a log line |
| StockfishDemo.Fixed2 | vite-project/src/components/StockfishDemo.jsx:53 | two decimals after a point |
| StockfishDemo.Fixed2ReadsBack | vite-project/src/components/StockfishDemo.jsx:53 | the shown pawns read back as the centipawns |
| StockfishDemo.InfoLine | vite-project/src/components/StockfishDemo.jsx:46-55 | an info message logs a line iff both cp and depth match |
| StockfishDemo.SearchLinesMeaning | vite-project/src/components/StockfishDemo.jsx:104-106 | the FEN reads back and exactly one search, at depth 10, is sent |
| StockfishDemo.Demo.constructor | vite-project/src/components/StockfishDemo.jsx:16-25 | logs loading and posts `'init'`, or logs the failure and posts nothing |
| StockfishDemo.Demo.AddToOutput | vite-project/src/components/StockfishDemo.jsx:11-14 | appends exactly one stamped entry and keeps the rest |
| StockfishDemo.Demo.ClearOutput | vite-project/src/components/StockfishDemo.jsx:109-111 | empties the log |
| StockfishDemo.Demo.SetFen | vite-project/src/components/StockfishDemo.jsx:134 | the FEN field holds the typed text; the log, readiness, move, thinking flag, worker and posts stay |
| StockfishDemo.Demo.OnMessage | vite-project/src/components/StockfishDemo.jsx:28-68 | one log line per reply with a line; ready sets ready; a bestmove match sets the move and clears thinking |
| StockfishDemo.Demo.OnWorkerError | vite-project/src/components/StockfishDemo.jsx:70-72 | logs the worker error and changes nothing else |
| StockfishDemo.Demo.SetPosition | vite-project/src/components/StockfishDemo.jsx:84-92 | a warning and nothing sent when not ready; otherwise the FEN line; the worker, readiness, FEN, move and thinking flag stay |
| StockfishDemo.Demo.GetBestMove | vite-project/src/components/StockfishDemo.jsx:94-107 | a warning and nothing sent when not ready; otherwise `position fen` then `go depth 10`, thinking set and the move cleared; the worker, readiness and FEN stay, so the reply can still arrive |
| StockfishDemo.Demo.SendDirectCommand | vite-project/src/components/StockfishDemo.jsx:113-121 | only when ready, `uci`, `isready`, `ucinewgame` in order; the worker, readiness, FEN, move and thinking flag stay |
| App.GamesEnteredFromModeSelection | vite-project/src/App.jsx:17-23 | a game view is entered only from mode selection, by its mode |
| App.SinglePlayerNeedsSingleMode | vite-project/src/App.jsx:17-23 | reaching single player from another view takes a `single` selection |
| App.AppState.constructor | vite-project/src/App.jsx:9-10 | the home view with difficulty `intermediate` |
| App.AppState.HandlePlayGame | vite-project/src/App.jsx:12-15 | records the difficulty and goes to mode selection |
| App.AppState.HandleSelectMode | vite-project/src/App.jsx:17-23 | single or multiplayer; any other mode leaves the view; the colour passed along changes nothing, since every colour gives the same view |
| App.AppState.HandleBackToHome | vite-project/src/App.jsx:25-27 | goes home |
| App.AppState.HandleBackToModeSelection | vite-project/src/App.jsx:29-31 | goes to mode selection |
| App.AppState.SinglePlayerProps | vite-project/src/App.jsx:47-52 | ChessGame gets the chosen difficulty, and a colour prop that for every coin leaves the player black, the engine white and the board unflipped |
| App.ChosenColorIsDropped | vite-project/src/App.jsx:17-52 | in every app state, whatever colour was chosen and whatever the coin, the game App renders plays the player as black against a white engine on an unflipped board |

## Left out

- Worker creation and termination, `importScripts`, script tags, `Blob` and `URL.createObjectURL`, `fetch` to the backend, `localStorage` and `console` are I/O. A boolean or an answer parameter says what each did.
- Timers are event methods (`OnTimeout`, `OnIsReadyTimer`, `OnConfigureTimer`, and so on). The 100 ms steps inside `useStockfishDirect.getBestMove` are collapsed, because the sequence of lines they send is what matters.
- Events from a worker that an earlier attempt abandoned (`useStockfishRobust`, `useStockfishDirect`) are not modelled. Their closures hold the abandoned attempt's flags, and the model keeps one attempt's flags.
- chess.js is not modelled: its answers about a position and a move are parameters. The chess rules are the library's.
- JavaScript numbers are doubles; the model uses exact reals. `Math.random()` values are parameters and the search noise is a real number. `useStockfish`'s `centipawns / 100` (useStockfish.js:55) is the exact quotient in `StockfishHook.ParseInfo`, not its rounded double. `Infinity` is a Score constructor. NaN is not modelled.
- SimpleAI.ScoreOf: the score is that of the given evaluations and noise, not of positions chess.js would produce.
- React's batching of state updates and effect re-runs are not modelled. The AI effect in ChessGame.jsx is the method `ApplyAIMove`, run when its inputs change.
- ChessGame.jsx's set-up effect (289-310) is not modelled. On mount, and again whenever `isReady` or `actualPlayerColor` changes, it resets the game to the start position and redraws the board. It then polls with `checkAndMakeAIMove` on one-second timers.
- ChessGame.Game.MakeMove: the move number comes from chess.js's history length, passed in with the position after the move.
- SimpleAI.Hook.GetBestMove: overlapping calls are not modelled. A call made while an earlier one still awaits replaces it in `phase`, and the earlier call's completion is not an event of the model.
- `HomePage.jsx`, `GameModeSelection.jsx` (apart from the colour it hands on), JSX markup, CSS and DOM drag events are presentation.
- The `testBackendCommunication` helper and the hooks' debug logging are not modelled.
- UltraSimpleWorker.Worker.OnEngineOutput: the value relayed is the engine's output, one string. The source posts the handler's whole argument `event`, and the model takes that argument to be the output line.
- StockfishDemo.Demo.constructor: the clock's `toLocaleTimeString()` is a parameter.
