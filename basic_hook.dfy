/**
 * src/useStockfishBasic.js: one CDN worker, `uci` and `isready` sent at
 * once, and the move read as the second space-separated field of a
 * `bestmove` line.
 */
module BasicHook {
  import opened Options
  import opened Strings
  import opened Patterns
  import opened Uci
  import opened EngineHooks

  const SearchDepth := 8
  const EloRating := 1400

  /** `parts[1]` of `message.split(' ')`, when it is present, non-empty and not "(none)". */
  function SplitMove(message: string): (m: Option<string>)
    ensures m.Some? ==> m.value != "" && m.value != "(none)" && ' ' !in m.value
    ensures m.Some? ==> |Split(message, ' ')| > 1 && m.value == Split(message, ' ')[1]
  {
    var parts := Split(message, ' ');
    if |parts| > 1 && parts[1] != "" && parts[1] != "(none)" then Some(parts[1]) else None
  }

  /** A word has neither spaces nor the parenthesis of "(none)". */
  lemma WordShape(move: string)
    requires |move| > 0 && forall i :: 0 <= i < |move| ==> IsWordChar(move[i])
    ensures ' ' !in move && move != "(none)"
  {
    assert !IsWordChar(' ') && !IsWordChar('(');
    assert forall i :: 0 <= i < |move| ==> move[i] != ' ';
    assert move[0] != "(none)"[0];
  }

  /** The second space-separated field of `bestmove <w>`, followed by nothing or a space, is w. */
  lemma SecondField(w: string, tail: string)
    requires ' ' !in w
    requires tail == [] || tail[0] == ' '
    ensures var parts := Split("bestmove " + w + tail, ' '); |parts| > 1 && parts[1] == w
  {
    assert "bestmove " + w + tail == "bestmove" + [' '] + (w + tail);
    SplitCons("bestmove", w + tail, ' ');
    SplitHead(w, tail, ' ');
  }

  /** The second field of `bestmove <move>`, followed by nothing or by a space, is the move. */
  lemma SplitMoveOfWord(move: string, tail: string)
    requires |move| > 0 && forall i :: 0 <= i < |move| ==> IsWordChar(move[i])
    requires tail == [] || tail[0] == ' '
    ensures SplitMove("bestmove " + move + tail) == Some(move)
  {
    WordShape(move);
    SecondField(move, tail);
  }

  /**
   * On a well-formed `bestmove <move>` line, followed by nothing or by a
   * space, the split reading and the regex reading give the same move.
   */
  lemma SplitMoveAgreesWithRegex(move: string, tail: string)
    requires |move| > 0 && forall i :: 0 <= i < |move| ==> IsWordChar(move[i])
    requires tail == [] || tail[0] == ' '
    ensures SplitMove("bestmove " + move + tail) == MoveOf("bestmove " + move + tail) == Some(move)
  {
    SplitMoveOfWord(move, tail);
    WordShape(move);
    BestmoveToken(move, tail);
  }

  /** The second field of `bestmove (none)...` is "(none)". */
  lemma NoneField(tail: string)
    requires tail == [] || tail[0] == ' '
    ensures var parts := Split("bestmove (none)" + tail, ' '); |parts| > 1 && parts[1] == "(none)"
  {
    var none := "(none)";
    assert ' ' !in none;
    SecondField(none, tail);
    NoneLine(tail);
  }

  lemma NoneLine(tail: string)
    ensures "bestmove (none)" + tail == "bestmove " + "(none)" + tail
  {
    assert "bestmove (none)" == "bestmove " + "(none)";
  }

  /** `bestmove (none)`, alone or followed by more fields, yields no move. */
  lemma SplitMoveOfNone(tail: string)
    requires tail == [] || tail[0] == ' '
    ensures SplitMove("bestmove (none)" + tail) == None
  {
    NoneField(tail);
  }

  class Hook {
    var hasWorker: bool
    var ready: bool
    var thinking: bool
    var bestMove: Option<string>
    var sent: seq<string>

    ghost predicate Valid()
      reads this
    {
      ready ==> hasWorker
    }

    /** Mount: create the worker and send `uci` and `isready` back to back. */
    constructor(created: bool)
      ensures Valid()
      ensures hasWorker == created && !ready && !thinking && bestMove.None?
      ensures sent == if created then [Identify, IsReady] else []
    {
      hasWorker := created;
      ready, thinking, bestMove := false, false, None;
      sent := if created then [Identify, IsReady] else [];
    }

    /** `onmessage`: two independent tests; on `bestmove (none)` the thinking flag stays set. */
    method OnMessage(message: string)
      requires Valid() && hasWorker
      modifies this
      ensures Valid()
      ensures hasWorker && sent == old(sent)
      ensures ready == (old(ready) || Contains(message, "readyok"))
      ensures StartsWith(message, "bestmove") && SplitMove(message).Some? ==> bestMove == SplitMove(message) && !thinking
      ensures !(StartsWith(message, "bestmove") && SplitMove(message).Some?) ==> bestMove == old(bestMove) && thinking == old(thinking)
    {
      if Contains(message, "readyok") {
        ready := true;
      }
      if StartsWith(message, "bestmove") {
        var m := SplitMove(message);
        if m.Some? {
          bestMove := m;
          thinking := false;
        }
      }
    }

    /** `getBestMove(fen)`: refused without a worker or before readiness. */
    method GetBestMove(fen: string)
      requires Valid()
      modifies this
      ensures Valid()
      ensures !old(ready) ==> sent == old(sent) && thinking == old(thinking) && bestMove == old(bestMove)
      ensures old(ready) ==> sent == old(sent) + FenSearchLines(fen, SearchDepth) && thinking && bestMove.None?
      ensures hasWorker == old(hasWorker) && ready == old(ready)
    {
      if !hasWorker {
        return;
      }
      if !ready {
        return;
      }
      thinking := true;
      bestMove := None;
      sent := sent + FenSearchLines(fen, SearchDepth);
    }

    method ResetAI()
      requires Valid()
      modifies this
      ensures Valid()
      ensures !thinking && bestMove.None? && sent == old(sent) && hasWorker == old(hasWorker) && ready == old(ready)
    {
      bestMove := None;
      thinking := false;
    }
  }
}
