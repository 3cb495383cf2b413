/**
 * src/useStockfishSimple.js: one CDN worker, `uci` and `isready` sent at
 * once, and the move read with `/bestmove (\w+)/` alone.
 */
module SimpleHook {
  import opened Options
  import opened Strings
  import opened Patterns
  import opened Uci
  import opened EngineHooks

  const SearchDepth := 8
  const EloRating := 2000

  class Hook {
    var hasWorker: bool
    var ready: bool
    var thinking: bool
    var bestMove: Option<string>
    var sent: seq<string>

    ghost predicate Valid()
      reads this
    {
      ready ==> hasWorker
    }

    constructor(created: bool)
      ensures Valid()
      ensures hasWorker == created && !ready && !thinking && bestMove.None?
      ensures sent == if created then [Identify, IsReady] else []
    {
      hasWorker := created;
      ready, thinking, bestMove := false, false, None;
      sent := if created then [Identify, IsReady] else [];
    }

    /** `onmessage`: `readyok` sets ready; a regex match sets the move; `bestmove (none)` changes nothing. */
    method OnMessage(line: string)
      requires Valid() && hasWorker
      modifies this
      ensures Valid()
      ensures hasWorker && sent == old(sent)
      ensures ready == (old(ready) || Contains(line, "readyok"))
      ensures !Contains(line, "readyok") && StartsWith(line, "bestmove") && Search(line, BestmovePattern).Some? ==>
        bestMove == Search(line, BestmovePattern) && !thinking
      ensures !(!Contains(line, "readyok") && StartsWith(line, "bestmove") && Search(line, BestmovePattern).Some?) ==>
        bestMove == old(bestMove) && thinking == old(thinking)
    {
      if Contains(line, "readyok") {
        ready := true;
      } else if StartsWith(line, "bestmove") {
        var m := Search(line, BestmovePattern);
        if m.Some? {
          bestMove := m;
          thinking := false;
        }
      }
    }

    method GetBestMove(fen: string)
      requires Valid()
      modifies this
      ensures Valid()
      ensures !old(ready) ==> sent == old(sent) && thinking == old(thinking) && bestMove == old(bestMove)
      ensures old(ready) ==> sent == old(sent) + FenSearchLines(fen, SearchDepth) && thinking && bestMove.None?
      ensures hasWorker == old(hasWorker) && ready == old(ready)
    {
      if hasWorker && ready {
        thinking := true;
        bestMove := None;
        sent := sent + FenSearchLines(fen, SearchDepth);
      }
    }

    /** `resetAI`: clears the move and the thinking flag only. */
    method ResetAI()
      requires Valid()
      modifies this
      ensures Valid()
      ensures !thinking && bestMove.None? && sent == old(sent) && hasWorker == old(hasWorker) && ready == old(ready)
    {
      bestMove := None;
      thinking := false;
    }
  }
}
