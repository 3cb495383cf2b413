/**
 * src/useStockfishRobust.js: tries nine worker sources in order. Each
 * attempt sends `uci`, answers `uciok` with `isready`, and counts as ready
 * only on a `readyok` after a `uciok`. A five-second timeout with no message,
 * or a worker error, moves on to the next source.
 */
module RobustHook {
  import opened Options
  import opened Strings
  import opened Uci
  import opened EngineHooks

  const Sources := [
    "/ultra-simple-stockfish-worker.js",
    "/working-stockfish-worker.js",
    "/simple-stockfish-worker.js",
    "/stockfish-real.worker.js",
    "/stockfish.worker.js",
    "https://cdn.jsdelivr.net/npm/stockfish@16/stockfish.min.js",
    "https://cdn.jsdelivr.net/npm/stockfish@15/stockfish.min.js",
    "https://cdn.jsdelivr.net/npm/stockfish@14/stockfish.min.js",
    "https://cdn.jsdelivr.net/npm/stockfish@11/stockfish.js"
  ]

  class Hook {
    const settings: Strength
    /** The sources attempted so far, in order (each `setWorkerSource`). */
    var tried: seq<string>
    /** Whether `stockfishRef.current` holds a worker. */
    var hasWorker: bool
    /** The current attempt's `uciOkReceived`, `readyOkReceived`, `hasReceivedAnyMessage`. */
    var uciOk: bool
    var readyOk: bool
    var anyMessage: bool
    /** Whether the current attempt's timeout is still pending. */
    var timeoutArmed: bool
    /** Worker creation threw: the catch block fails on `timeoutId`, so no later source is tried. */
    var chainEnded: bool
    var ready: bool
    var thinking: bool
    var bestMove: Option<string>
    /** Every line posted to a worker, oldest first. */
    var sent: seq<string>

    ghost predicate Valid()
      reads this
    {
      0 < |tried| <= |Sources| && tried == Sources[..|tried|]
      && (timeoutArmed ==> hasWorker && !anyMessage && !chainEnded)
      && ((uciOk || readyOk) ==> anyMessage)
      && (ready ==> hasWorker)
    }

    /** The index of the latest attempt's source. */
    function SourceIndex(): nat
      reads this
      requires Valid()
    {
      |tried| - 1
    }

    /** The hook's mount: first attempt, with source 0. `created` says whether `new Worker` returned. */
    constructor(difficulty: string, created: bool)
      ensures Valid()
      ensures settings == StrengthFor(difficulty)
      ensures tried == [Sources[0]] && hasWorker == created && chainEnded == !created
      ensures !uciOk && !readyOk && !anyMessage && timeoutArmed == created
      ensures !ready && !thinking && bestMove.None?
      ensures sent == if created then [Identify] else []
    {
      settings := StrengthFor(difficulty);
      tried := [Sources[0]];
      hasWorker := created;
      uciOk, readyOk, anyMessage := false, false, false;
      timeoutArmed := created;
      chainEnded := !created;
      ready, thinking, bestMove := false, false, None;
      sent := if created then [Identify] else [];
    }

    /**
     * `initializeStockfish(sourceIndex + 1)`: past the last source nothing
     * happens; otherwise the next source is tried with fresh attempt flags.
     */
    method Advance(created: bool)
      requires Valid() && !chainEnded
      modifies this
      ensures Valid()
      ensures old(|tried|) == |Sources| ==>
        tried == old(tried) && hasWorker == old(hasWorker) && timeoutArmed == old(timeoutArmed)
        && chainEnded == old(chainEnded) && sent == old(sent)
        && uciOk == old(uciOk) && readyOk == old(readyOk) && anyMessage == old(anyMessage)
      ensures old(|tried|) < |Sources| ==>
        tried == old(tried) + [Sources[old(|tried|)]]
        && hasWorker == (old(hasWorker) || created) && timeoutArmed == created
        && chainEnded == !created
        && (created ==> !uciOk && !readyOk && !anyMessage && sent == old(sent) + [Identify])
        && (!created ==> uciOk == old(uciOk) && readyOk == old(readyOk) && anyMessage == old(anyMessage) && sent == old(sent))
      ensures ready == old(ready) && thinking == old(thinking) && bestMove == old(bestMove)
    {
      if |tried| >= |Sources| {
        return;
      }
      assert Sources[..|tried| + 1] == Sources[..|tried|] + [Sources[|tried|]];
      tried := tried + [Sources[|tried|]];
      if created {
        hasWorker := true;
        uciOk, readyOk, anyMessage := false, false, false;
        timeoutArmed := true;
        sent := sent + [Identify];
      } else {
        timeoutArmed := false;
        chainEnded := true;
      }
    }

    /** The five-second timer: if no message arrived in time, the next source is tried. */
    method OnTimeout(created: bool)
      requires Valid()
      modifies this
      ensures Valid()
      ensures !old(timeoutArmed) ==>
        tried == old(tried) && hasWorker == old(hasWorker) && !timeoutArmed && chainEnded == old(chainEnded)
        && sent == old(sent) && uciOk == old(uciOk) && readyOk == old(readyOk) && anyMessage == old(anyMessage)
      ensures old(timeoutArmed) && old(|tried|) == |Sources| ==>
        tried == old(tried) && hasWorker == old(hasWorker) && !timeoutArmed && chainEnded == old(chainEnded)
        && sent == old(sent) && uciOk == old(uciOk) && readyOk == old(readyOk) && anyMessage == old(anyMessage)
      ensures old(timeoutArmed) && old(|tried|) < |Sources| ==>
        tried == old(tried) + [Sources[old(|tried|)]] && hasWorker == (old(hasWorker) || created)
        && timeoutArmed == created && chainEnded == !created
        && (created ==> !uciOk && !readyOk && !anyMessage && sent == old(sent) + [Identify])
        && (!created ==> uciOk == old(uciOk) && readyOk == old(readyOk) && anyMessage == old(anyMessage) && sent == old(sent))
      ensures ready == old(ready) && thinking == old(thinking) && bestMove == old(bestMove)
    {
      if timeoutArmed {
        timeoutArmed := false;
        Advance(created);
      }
    }

    /** The current worker's `onerror`: the timeout is cleared and the next source, if any, is tried. */
    method OnError(created: bool)
      requires Valid() && hasWorker && !chainEnded
      modifies this
      ensures Valid()
      ensures old(|tried|) == |Sources| ==>
        tried == old(tried) && hasWorker == old(hasWorker) && !timeoutArmed && chainEnded == old(chainEnded)
        && sent == old(sent) && uciOk == old(uciOk) && readyOk == old(readyOk) && anyMessage == old(anyMessage)
      ensures old(|tried|) < |Sources| ==>
        tried == old(tried) + [Sources[old(|tried|)]] && hasWorker == (old(hasWorker) || created)
        && timeoutArmed == created && chainEnded == !created
        && (created ==> !uciOk && !readyOk && !anyMessage && sent == old(sent) + [Identify])
        && (!created ==> uciOk == old(uciOk) && readyOk == old(readyOk) && anyMessage == old(anyMessage) && sent == old(sent))
      ensures ready == old(ready) && thinking == old(thinking) && bestMove == old(bestMove)
    {
      timeoutArmed := false;
      if |tried| < |Sources| {
        Advance(created);
      }
    }

    /**
     * The current worker's `onmessage`. Any line cancels the timeout;
     * `uciok` sends one `isready`; `readyok` makes the hook ready only after
     * a `uciok` in this attempt; a `bestmove` line ends the search.
     */
    method OnLine(line: string)
      requires Valid() && hasWorker && !chainEnded
      modifies this
      ensures Valid()
      ensures anyMessage && !timeoutArmed && tried == old(tried) && hasWorker && !chainEnded
      ensures Contains(line, "uciok") ==>
        uciOk && readyOk == old(readyOk) && sent == old(sent) + [IsReady]
        && ready == old(ready) && thinking == old(thinking) && bestMove == old(bestMove)
      ensures !Contains(line, "uciok") ==> uciOk == old(uciOk) && sent == old(sent)
      ensures !Contains(line, "uciok") && Contains(line, "readyok") ==>
        readyOk && ready == (old(ready) || old(uciOk)) && thinking == old(thinking) && bestMove == old(bestMove)
      ensures !Contains(line, "uciok") && !Contains(line, "readyok") && StartsWith(line, "bestmove") ==>
        readyOk == old(readyOk) && ready == old(ready) && !thinking
        && bestMove == (if MoveOf(line).Some? then MoveOf(line) else old(bestMove))
      ensures !Contains(line, "uciok") && !Contains(line, "readyok") && !StartsWith(line, "bestmove") ==>
        readyOk == old(readyOk) && ready == old(ready) && thinking == old(thinking) && bestMove == old(bestMove)
    {
      anyMessage := true;
      timeoutArmed := false;
      if Contains(line, "uciok") {
        uciOk := true;
        sent := sent + [IsReady];
      } else if Contains(line, "readyok") {
        readyOk := true;
        if uciOk {
          ready := true;
        }
      } else if StartsWith(line, "bestmove") {
        var m := MoveOf(line);
        if m.Some? {
          bestMove := m;
        }
        thinking := false;
      }
    }

    /**
     * The same `onmessage` given an object, as the simple worker posts in
     * answer to `uci` (the working worker posts nothing before `'init'`, so
     * its attempt times out instead): the message flag is set and the
     * timeout cancelled, then `line.includes` throws. Nothing else changes, and with the timeout gone
     * this attempt is never abandoned for the next source.
     */
    method OnObject()
      requires Valid() && hasWorker && !chainEnded
      modifies this
      ensures Valid()
      ensures anyMessage && !timeoutArmed && tried == old(tried) && hasWorker && !chainEnded
      ensures uciOk == old(uciOk) && readyOk == old(readyOk) && ready == old(ready)
      ensures thinking == old(thinking) && bestMove == old(bestMove) && sent == old(sent)
    {
      anyMessage := true;
      timeoutArmed := false;
    }

    /** `getBestMove(fen, moves)`: nothing unless a worker exists and the hook is ready. */
    method GetBestMove(fen: string, moves: seq<string>)
      requires Valid()
      modifies this
      ensures Valid()
      ensures !(old(hasWorker) && old(ready)) ==> sent == old(sent) && thinking == old(thinking) && bestMove == old(bestMove)
      ensures old(hasWorker) && old(ready) ==> sent == old(sent) + SearchLines(settings, fen, moves) && thinking && bestMove.None?
      ensures tried == old(tried) && hasWorker == old(hasWorker) && ready == old(ready) && timeoutArmed == old(timeoutArmed)
      ensures uciOk == old(uciOk) && readyOk == old(readyOk) && anyMessage == old(anyMessage) && chainEnded == old(chainEnded)
    {
      if !hasWorker || !ready {
        return;
      }
      thinking := true;
      bestMove := None;
      sent := sent + SearchLines(settings, fen, moves);
    }

    /** `resetAI`: `ucinewgame` only when ready; the move and the thinking flag are always cleared. */
    method ResetAI()
      requires Valid()
      modifies this
      ensures Valid()
      ensures sent == old(sent) + (if hasWorker && ready then [NewGame] else [])
      ensures !thinking && bestMove.None?
      ensures tried == old(tried) && hasWorker == old(hasWorker) && ready == old(ready) && timeoutArmed == old(timeoutArmed)
      ensures uciOk == old(uciOk) && readyOk == old(readyOk) && anyMessage == old(anyMessage) && chainEnded == old(chainEnded)
    {
      if hasWorker && ready {
        sent := sent + [NewGame];
      }
      bestMove := None;
      thinking := false;
    }
  }
}
