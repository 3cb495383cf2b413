/**
 * src/useStockfishWorking.js: drives public/working-stockfish-worker.js and
 * understands both its typed replies and raw engine strings.
 */
module WorkingHook {
  import opened Options
  import opened Strings
  import opened Uci
  import opened EngineHooks

  /** Which branch of `onmessage` a message takes. */
  datatype Branch =
    | ReadyBranch
    | BestmoveBranch(line: Option<string>)  // None: `message.data || message` is the object itself
    | InfoBranch
    | UciokBranch
    | LateReadyBranch          // the string branch for `readyok`
    | LateBestmoveBranch       // the string branch for `bestmove`
    | NoBranch

  /** `message.data || message`: the text to match, or None when it is the message object. */
  function LineOf(m: Incoming): Option<string> {
    match m
    case Str(s) => Some(s)
    case Obj(_, data) => if data.Some? && data.value != "" then data else None
  }

  /**
   * The branch `onmessage` takes. The string branches for `readyok` and
   * `bestmove` are never taken: the first two conditions already capture
   * every string containing `readyok` or starting with `bestmove`.
   */
  function Dispatch(m: Incoming): (b: Branch)
    ensures !b.LateReadyBranch? && !b.LateBestmoveBranch?
    ensures b == ReadyBranch <==> (m.Obj? && m.kind == "ready") || (m.Str? && Contains(m.text, "readyok"))
    ensures b.BestmoveBranch? ==> b.line == LineOf(m)
    ensures b == UciokBranch ==> m.Str? && Contains(m.text, "uciok")
  {
    if (m.Obj? && m.kind == "ready") || (m.Str? && Contains(m.text, "readyok")) then ReadyBranch
    else if (m.Obj? && m.kind == "bestmove") || (m.Str? && StartsWith(m.text, "bestmove")) then BestmoveBranch(LineOf(m))
    else if (m.Obj? && m.kind == "info") || (m.Str? && Contains(m.text, "info depth")) then InfoBranch
    else if m.Str? then
      if Contains(m.text, "uciok") then UciokBranch
      else if Contains(m.text, "readyok") then LateReadyBranch
      else if StartsWith(m.text, "bestmove") then LateBestmoveBranch
      else NoBranch
    else NoBranch
  }

  /** The worker's typed bestmove reply carries the engine line, so the hook reads the move from it. */
  lemma TypedBestmoveUsesData(line: string)
    requires line != ""
    ensures Dispatch(Obj("bestmove", Some(line))) == BestmoveBranch(Some(line))
  {
  }

  class Hook {
    const settings: Strength
    var hasWorker: bool
    var ready: bool
    var thinking: bool
    var bestMove: Option<string>
    var sent: seq<string>

    ghost predicate Valid()
      reads this
    {
      ready ==> hasWorker
    }

    /** Mount: create the worker and send `uci`; `created` says whether `new Worker` returned. */
    constructor(difficulty: string, created: bool)
      ensures Valid()
      ensures settings == StrengthFor(difficulty) && hasWorker == created
      ensures !ready && !thinking && bestMove.None?
      ensures sent == if created then [Identify] else []
    {
      settings := StrengthFor(difficulty);
      hasWorker := created;
      ready, thinking, bestMove := false, false, None;
      sent := if created then [Identify] else [];
    }

    /**
     * `onmessage`. Ready needs no `uciok`. A bestmove reply whose text is the
     * object itself makes `line.match` throw, which leaves everything as it was.
     */
    method OnMessage(m: Incoming)
      requires Valid() && hasWorker
      modifies this
      ensures Valid()
      ensures hasWorker
      ensures Dispatch(m) == ReadyBranch ==> ready && sent == old(sent) && thinking == old(thinking) && bestMove == old(bestMove)
      ensures Dispatch(m).BestmoveBranch? && LineOf(m).Some? ==>
        ready == old(ready) && sent == old(sent) && !thinking
        && bestMove == (if MoveOf(LineOf(m).value).Some? then MoveOf(LineOf(m).value) else old(bestMove))
      ensures Dispatch(m) == UciokBranch ==>
        sent == old(sent) + [IsReady] && ready == old(ready) && thinking == old(thinking) && bestMove == old(bestMove)
      ensures Dispatch(m) in {InfoBranch, NoBranch, BestmoveBranch(None)} ==>
        sent == old(sent) && ready == old(ready) && thinking == old(thinking) && bestMove == old(bestMove)
    {
      var b := Dispatch(m);
      if b == ReadyBranch {
        ready := true;
      } else if b.BestmoveBranch? && b.line.Some? {
        var mv := MoveOf(b.line.value);
        if mv.Some? {
          bestMove := mv;
        }
        thinking := false;
      } else if b == UciokBranch {
        sent := sent + [IsReady];
      }
    }

    /** The worker's `onerror`: not ready any more. */
    method OnError()
      requires Valid() && hasWorker
      modifies this
      ensures Valid()
      ensures !ready && hasWorker && sent == old(sent) && thinking == old(thinking) && bestMove == old(bestMove)
    {
      ready := false;
    }

    /** `getBestMove`: the same gate and lines as the Robust hook. */
    method GetBestMove(fen: string, moves: seq<string>)
      requires Valid()
      modifies this
      ensures Valid()
      ensures !old(ready) ==> sent == old(sent) && thinking == old(thinking) && bestMove == old(bestMove)
      ensures old(ready) ==> sent == old(sent) + SearchLines(settings, fen, moves) && thinking && bestMove.None?
      ensures hasWorker == old(hasWorker) && ready == old(ready)
    {
      if !hasWorker || !ready {
        return;
      }
      thinking := true;
      bestMove := None;
      sent := sent + SearchLines(settings, fen, moves);
    }

    /** `resetAI`: `ucinewgame` only when ready; always clears the move and the thinking flag. */
    method ResetAI()
      requires Valid()
      modifies this
      ensures Valid()
      ensures sent == old(sent) + (if ready then [NewGame] else [])
      ensures !thinking && bestMove.None? && hasWorker == old(hasWorker) && ready == old(ready)
    {
      if hasWorker && ready {
        sent := sent + [NewGame];
      }
      bestMove := None;
      thinking := false;
    }
  }
}
