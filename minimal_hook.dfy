/**
 * src/useStockfishMinimal.js: an inline relay worker around the engine.
 * Only string messages are read; `uci` goes out one second after mount.
 */
module MinimalHook {
  import opened Options
  import opened Strings
  import opened Uci
  import opened EngineHooks

  /** `difficultySettings[difficulty] || difficultySettings.intermediate`, depths only. */
  function MinimalDepth(difficulty: string): (d: int)
    ensures difficulty == "beginner" ==> d == 3
    ensures difficulty == "easy" ==> d == 5
    ensures difficulty == "hard" ==> d == 12
    ensures difficulty == "expert" ==> d == 15
    ensures difficulty !in {"beginner", "easy", "hard", "expert"} ==> d == 8
  {
    match difficulty
    case "beginner" => 3
    case "easy" => 5
    case "intermediate" => 8
    case "hard" => 12
    case "expert" => 15
    case _ => 8
  }

  /** The rating this hook reports, whatever the difficulty. */
  const EloRating := 1600

  /** Each depth is the Robust table's depth for the same key. */
  lemma MinimalDepthIsRobustDepth(difficulty: string)
    ensures MinimalDepth(difficulty) == StrengthFor(difficulty).depth
  {
  }

  class Hook {
    const difficulty: string
    var hasWorker: bool
    /** Whether the one-second `uci` timer is pending. */
    var uciTimerPending: bool
    var ready: bool
    var thinking: bool
    var bestMove: Option<string>
    var sent: seq<string>

    ghost predicate Valid()
      reads this
    {
      uciTimerPending ==> hasWorker
    }

    constructor(difficulty: string, created: bool)
      ensures Valid()
      ensures this.difficulty == difficulty && hasWorker == created && uciTimerPending == created
      ensures !ready && !thinking && bestMove.None? && sent == []
    {
      this.difficulty := difficulty;
      hasWorker := created;
      uciTimerPending := created;
      ready, thinking, bestMove := false, false, None;
      sent := [];
    }

    /** The one-second timer: `uci`. */
    method OnUciTimer()
      requires Valid() && uciTimerPending
      modifies this
      ensures Valid()
      ensures !uciTimerPending && sent == old(sent) + [Identify]
      ensures hasWorker && ready == old(ready) && thinking == old(thinking) && bestMove == old(bestMove)
    {
      uciTimerPending := false;
      sent := sent + [Identify];
    }

    /** `onmessage`: anything but a string is ignored; `readyok` alone makes the hook ready. */
    method OnMessage(m: Incoming)
      requires Valid() && hasWorker
      modifies this
      ensures Valid()
      ensures hasWorker && uciTimerPending == old(uciTimerPending)
      ensures m.Obj? ==> sent == old(sent) && ready == old(ready) && thinking == old(thinking) && bestMove == old(bestMove)
      ensures m.Str? && Contains(m.text, "uciok") ==>
        sent == old(sent) + [IsReady] && ready == old(ready) && thinking == old(thinking) && bestMove == old(bestMove)
      ensures m.Str? && !Contains(m.text, "uciok") && Contains(m.text, "readyok") ==>
        ready && sent == old(sent) && thinking == old(thinking) && bestMove == old(bestMove)
      ensures m.Str? && !Contains(m.text, "uciok") && !Contains(m.text, "readyok") && StartsWith(m.text, "bestmove") ==>
        ready == old(ready) && sent == old(sent) && !thinking
        && bestMove == (if MoveOf(m.text).Some? then MoveOf(m.text) else old(bestMove))
      ensures m.Str? && !Contains(m.text, "uciok") && !Contains(m.text, "readyok") && !StartsWith(m.text, "bestmove") ==>
        ready == old(ready) && sent == old(sent) && thinking == old(thinking) && bestMove == old(bestMove)
    {
      if !m.Str? {
        return;
      }
      var line := m.text;
      if Contains(line, "uciok") {
        sent := sent + [IsReady];
      } else if Contains(line, "readyok") {
        ready := true;
      } else if StartsWith(line, "bestmove") {
        var mv := MoveOf(line);
        if mv.Some? {
          bestMove := mv;
        }
        thinking := false;
      }
    }

    /** `getBestMove(fen)`: nothing unless a worker exists and the hook is ready. */
    method GetBestMove(fen: string)
      requires Valid()
      modifies this
      ensures Valid()
      ensures !(old(hasWorker) && old(ready)) ==> sent == old(sent) && thinking == old(thinking) && bestMove == old(bestMove)
      ensures old(hasWorker) && old(ready) ==>
        sent == old(sent) + FenSearchLines(fen, MinimalDepth(difficulty)) && thinking && bestMove.None?
      ensures hasWorker == old(hasWorker) && ready == old(ready) && uciTimerPending == old(uciTimerPending)
    {
      if hasWorker && ready {
        thinking := true;
        bestMove := None;
        sent := sent + FenSearchLines(fen, MinimalDepth(difficulty));
      }
    }

    /** `resetAI`: clears the move and the thinking flag and sends nothing. */
    method ResetAI()
      requires Valid()
      modifies this
      ensures Valid()
      ensures !thinking && bestMove.None? && sent == old(sent)
      ensures hasWorker == old(hasWorker) && ready == old(ready) && uciTimerPending == old(uciTimerPending)
    {
      bestMove := None;
      thinking := false;
    }
  }
}
