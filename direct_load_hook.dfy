/**
 * src/useStockfishDirectLoad.js (which exports `useStockfishDirect`): runs
 * the engine in the page. It loads the engine script unless a `Stockfish`
 * constructor already exists, and in that case it creates an instance and
 * sends `uci` without installing an output handler.
 */
module DirectLoadHook {
  import opened Options
  import opened Strings
  import opened Uci
  import opened EngineHooks

  class Hook {
    const settings: Strength
    /** Whether `window.Stockfish` existed at mount. */
    const existing: bool
    /** Whether the script tag is still loading. */
    var scriptPending: bool
    var hasInstance: bool
    /** Whether `onmessage` was installed on the instance. */
    var handlerInstalled: bool
    var ready: bool
    var thinking: bool
    var bestMove: Option<string>
    var sent: seq<string>

    ghost predicate Valid()
      reads this
    {
      (handlerInstalled ==> hasInstance) && (ready ==> handlerInstalled)
      && (existing ==> !scriptPending && !handlerInstalled)
    }

    /**
     * Mount. With an existing constructor, `created` says whether calling it
     * returned; otherwise the script starts loading.
     */
    constructor(difficulty: string, existing: bool, created: bool)
      ensures Valid()
      ensures settings == StrengthFor(difficulty) && this.existing == existing
      ensures scriptPending == !existing && hasInstance == (existing && created) && !handlerInstalled
      ensures !ready && !thinking && bestMove.None?
      ensures sent == if existing && created then [Identify] else []
    {
      settings := StrengthFor(difficulty);
      this.existing := existing;
      scriptPending := !existing;
      hasInstance := existing && created;
      handlerInstalled := false;
      ready, thinking, bestMove := false, false, None;
      sent := if existing && created then [Identify] else [];
    }

    /**
     * `script.onload`: with a constructor that returns, the instance gets a
     * handler and `uci`. `isFunction` and `created` are what the page offers.
     */
    method OnScriptLoad(isFunction: bool, created: bool)
      requires Valid() && scriptPending
      modifies this
      ensures Valid()
      ensures !scriptPending
      ensures isFunction && created ==> hasInstance && handlerInstalled && sent == old(sent) + [Identify]
      ensures !(isFunction && created) ==> hasInstance == old(hasInstance) && handlerInstalled == old(handlerInstalled) && sent == old(sent)
      ensures ready == old(ready) && thinking == old(thinking) && bestMove == old(bestMove)
    {
      scriptPending := false;
      if isFunction && created {
        hasInstance := true;
        handlerInstalled := true;
        sent := sent + [Identify];
      }
    }

    /** An engine line: ignored without a handler; else `uciok` sends `isready`, `readyok` alone sets ready. */
    method OnLine(line: string)
      requires Valid() && hasInstance
      modifies this
      ensures Valid()
      ensures hasInstance && handlerInstalled == old(handlerInstalled) && scriptPending == old(scriptPending)
      ensures existing ==> !ready
      ensures !handlerInstalled ==> sent == old(sent) && ready == old(ready) && thinking == old(thinking) && bestMove == old(bestMove)
      ensures handlerInstalled && Contains(line, "uciok") ==>
        sent == old(sent) + [IsReady] && ready == old(ready) && thinking == old(thinking) && bestMove == old(bestMove)
      ensures handlerInstalled && !Contains(line, "uciok") && Contains(line, "readyok") ==>
        ready && sent == old(sent) && thinking == old(thinking) && bestMove == old(bestMove)
      ensures handlerInstalled && !Contains(line, "uciok") && !Contains(line, "readyok") && StartsWith(line, "bestmove") ==>
        ready == old(ready) && sent == old(sent) && !thinking
        && bestMove == (if MoveOf(line).Some? then MoveOf(line) else old(bestMove))
      ensures handlerInstalled && !Contains(line, "uciok") && !Contains(line, "readyok") && !StartsWith(line, "bestmove") ==>
        ready == old(ready) && sent == old(sent) && thinking == old(thinking) && bestMove == old(bestMove)
    {
      if !handlerInstalled {
        return;
      }
      if Contains(line, "uciok") {
        sent := sent + [IsReady];
      } else if Contains(line, "readyok") {
        ready := true;
      } else if StartsWith(line, "bestmove") {
        var m := MoveOf(line);
        if m.Some? {
          bestMove := m;
        }
        thinking := false;
      }
    }

    /** `getBestMove`: the same gate and lines as the Robust hook. */
    method GetBestMove(fen: string, moves: seq<string>)
      requires Valid()
      modifies this
      ensures Valid()
      ensures !old(ready) ==> sent == old(sent) && thinking == old(thinking) && bestMove == old(bestMove)
      ensures old(ready) ==> sent == old(sent) + SearchLines(settings, fen, moves) && thinking && bestMove.None?
      ensures hasInstance == old(hasInstance) && handlerInstalled == old(handlerInstalled) && ready == old(ready)
      ensures scriptPending == old(scriptPending)
    {
      if !hasInstance || !ready {
        return;
      }
      thinking := true;
      bestMove := None;
      sent := sent + SearchLines(settings, fen, moves);
    }

    /** `resetAI`: `ucinewgame` only when ready; always clears the move and the thinking flag. */
    method ResetAI()
      requires Valid()
      modifies this
      ensures Valid()
      ensures sent == old(sent) + (if ready then [NewGame] else [])
      ensures !thinking && bestMove.None?
      ensures hasInstance == old(hasInstance) && handlerInstalled == old(handlerInstalled) && ready == old(ready)
      ensures scriptPending == old(scriptPending)
    {
      if hasInstance && ready {
        sent := sent + [NewGame];
      }
      bestMove := None;
      thinking := false;
    }
  }
}
