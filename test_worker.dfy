/**
 * public/test-stockfish-worker.js: creates the engine when the script
 * starts, fans every engine line out as `stockfish-output` (plus `ready` and
 * `bestmove` where they apply), and understands `'init'`, raw strings and a
 * `move` request.
 */
module TestWorker {
  import opened Options
  import opened Strings
  import opened Uci
  import opened WorkerProtocol

  const SearchDepth := 5

  /** The lines sent to the engine for a message from the main thread. */
  function Commands(m: Message): (lines: seq<string>)
    ensures m == InitMessage ==> lines == [Identify, IsReady]
    ensures m.Text? && m != InitMessage ==> lines == [m.text]
    ensures m.Structured? && m.request.kind != "move" ==> lines == []
  {
    match m
    case Text(s) => if s == "init" then [Identify, IsReady] else [s]
    case Structured(r) => if r.kind == "move" then [NewGame, PositionFen(r.fen), GoLine(Depth(SearchDepth))] else []
  }

  /** A `move` request resets the game, sets the position and searches to depth 5. */
  lemma MoveCommands(r: Request)
    requires r.kind == "move"
    ensures var lines := Commands(Structured(r));
      |lines| == 3 && lines[0] == NewGame && FenOf(lines[1]) == Some(r.fen)
      && GoCount(lines) == 1 && ParseGo(lines[2]) == Some(Depth(5))
  {
    var lines := Commands(Structured(r));
    FenOfPositionFen(r.fen);
    NewGameIsNotGo();
    PositionFenIsNotGo(r.fen);
    ParseGoLine(Depth(SearchDepth));
    GoCountOfThree(lines[0], lines[1], lines[2]);
  }

  /** The replies posted for one engine line. */
  function FanOut(line: string): (replies: seq<Reply>)
    ensures 1 <= |replies| <= 3
    ensures replies[0] == Typed(EngineOutput, line, None)
    ensures Typed(Ready, "Stockfish ready", None) in replies <==> Contains(line, "readyok")
    ensures Typed(BestMove, line, None) in replies <==> StartsWith(line, "bestmove")
    ensures |replies| == 1 + (if Contains(line, "readyok") then 1 else 0) + (if StartsWith(line, "bestmove") then 1 else 0)
    // the raw output first, then readiness, then the best move
    ensures Contains(line, "readyok") ==> replies[1] == Typed(Ready, "Stockfish ready", None)
    ensures StartsWith(line, "bestmove") ==> replies[|replies| - 1] == Typed(BestMove, line, None)
  {
    [Typed(EngineOutput, line, None)]
    + (if Contains(line, "readyok") then [Typed(Ready, "Stockfish ready", None)] else [])
    + (if StartsWith(line, "bestmove") then [Typed(BestMove, line, None)] else [])
  }

  class Worker {
    /** Whether creation succeeded; only then are the handlers installed. */
    var hasEngine: bool
    var toEngine: seq<string>
    var posted: seq<Reply>

    /** The script's top level: `created` says whether `new Worker` returned; `failure` is what it threw otherwise. */
    constructor(created: bool, failure: string)
      ensures hasEngine == created && toEngine == []
      ensures posted == if created then [] else [Typed(Error, "Failed to create Stockfish: " + failure, None)]
    {
      hasEngine := created;
      toEngine := [];
      posted := if created then [] else [Typed(Error, "Failed to create Stockfish: " + failure, None)];
    }

    /** `self.onmessage`, installed only when creation succeeded. */
    method OnMessage(m: Message)
      modifies this
      ensures hasEngine == old(hasEngine) && posted == old(posted)
      ensures toEngine == old(toEngine) + (if hasEngine then Commands(m) else [])
    {
      if hasEngine {
        toEngine := toEngine + Commands(m);
      }
    }

    method OnEngineLine(line: string)
      requires hasEngine
      modifies this
      ensures posted == old(posted) + FanOut(line)
      ensures hasEngine && toEngine == old(toEngine)
    {
      posted := posted + FanOut(line);
    }

    method OnEngineError(message: string)
      requires hasEngine
      modifies this
      ensures posted == old(posted) + [Typed(Error, message, None)]
      ensures hasEngine && toEngine == old(toEngine)
    {
      posted := posted + [Typed(Error, message, None)];
    }
  }
}
