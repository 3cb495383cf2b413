/**
 * src/components/StockfishDemo.jsx: a page that talks to
 * public/working-stockfish-worker.js and keeps a timestamped log of what it
 * sends and receives. The clock is a parameter: each event is given the
 * `toLocaleTimeString()` text it is stamped with.
 */
module StockfishDemo {
  import opened Options
  import opened Strings
  import opened Patterns
  import opened Uci
  import opened WorkerProtocol

  /** The position the page starts with, after 1. e4 e5. */
  const StartFen := "rnbqkbnr/pppp1ppp/8/4p3/4P3/8/PPPP1PPP/RNBQKBNR w KQkq e6 0 2"

  const SearchDepth := 10

  /** A log line: `[<timestamp>] <message>`. */
  function Stamp(timestamp: string, message: string): string {
    "[" + timestamp + "] " + message
  }

  /** Each log line gives back its timestamp and message, when the timestamp has no `]`. */
  lemma StampReadsBack(t1: string, m1: string, t2: string, m2: string)
    requires ']' !in t1 && ']' !in t2
    requires Stamp(t1, m1) == Stamp(t2, m2)
    ensures t1 == t2 && m1 == m2
  {
    var a, b := Stamp(t1, m1), Stamp(t2, m2);
    assert a[1..] == t1 + ("] " + m1) && b[1..] == t2 + ("] " + m2);
    IndexOfPast(t1, "] " + m1, ']');
    IndexOfPast(t2, "] " + m2, ']');
    assert |t1| == |t2|;
    assert t1 == a[1..1 + |t1|];
    assert m1 == a[3 + |t1|..] && m2 == b[3 + |t2|..];
  }

  /** "<whole>.<d><d>" for a non-negative number of hundredths. */
  function Fixed2Digits(m: nat): (t: string)
    ensures |t| >= 4 && t[|t| - 3] == '.' && IsDigit(t[0])
  {
    NatToString(m / 100) + "." + [DigitChar((m % 100) / 10), DigitChar(m % 10)]
  }

  /** `n.toFixed(2)` for `n = cents / 100`: the sign, the whole part, a point and two digits. */
  function Fixed2(cents: int): (s: string)
    ensures |s| >= 4 && s[|s| - 3] == '.'
  {
    var m: nat := if cents < 0 then -cents else cents;
    (if cents < 0 then "-" else "") + Fixed2Digits(m)
  }

  /** The value of "<digits>.<d><d>" in hundredths. */
  function Hundredths(t: string): int
    requires |t| >= 4 && AllDigits(t[..|t| - 3]) && IsDigit(t[|t| - 2]) && IsDigit(t[|t| - 1])
  {
    100 * DigitsValue(t[..|t| - 3]) + 10 * DigitValue(t[|t| - 2]) + DigitValue(t[|t| - 1])
  }

  lemma HundredthsOfFixed2(m: nat)
    ensures var t := Fixed2Digits(m);
      |t| >= 4 && AllDigits(t[..|t| - 3]) && IsDigit(t[|t| - 2]) && IsDigit(t[|t| - 1]) && Hundredths(t) == m
  {
    var w := NatToString(m / 100);
    var t := Fixed2Digits(m);
    assert t[..|t| - 3] == w;
    DigitsValueOfNatToString(m / 100);
    assert DigitValue(t[|t| - 2]) == (m % 100) / 10;
    assert DigitValue(t[|t| - 1]) == m % 10;
  }

  /** `toFixed(2)` loses nothing for a whole number of hundredths: the text gives the value back. */
  lemma Fixed2ReadsBack(cents: int)
    ensures var s := Fixed2(cents);
      if s[0] == '-' then cents < 0 && Hundredths(s[1..]) == -cents
      else cents >= 0 && Hundredths(s) == cents
  {
    var m: nat := if cents < 0 then -cents else cents;
    HundredthsOfFixed2(m);
    var t := Fixed2Digits(m);
    if cents < 0 {
      assert Fixed2(cents) == "-" + t;
      assert Fixed2(cents)[1..] == t;
    } else {
      assert Fixed2(cents) == "" + t;
      assert Fixed2(cents) == t;
    }
  }

  /** The log line for an `info` message: only when both a centipawn score and a depth match. */
  function InfoLine(data: string): (line: Option<string>)
    ensures line.Some? <==> Search(data, ScoreCpPattern).Some? && Search(data, DepthPattern).Some?
  {
    var score := Search(data, ScoreCpPattern);
    var depth := Search(data, DepthPattern);
    if score.Some? && depth.Some? then
      Some("📊 Depth " + IntToString(ParseInt(depth.value)) + ": " + Fixed2(ParseInt(score.value)) + " pawns")
    else None
  }

  /** The log line a reply from the worker adds. */
  function ReplyLine(r: Reply): Option<string> {
    match r
    case Plain(_) => Some("🧠 Stockfish: undefined")
    case Typed(kind, data, _) =>
      match kind
      case Ready => Some("✅ Stockfish is ready!")
      case BestMove =>
        var m := Search(data, BestmovePattern);
        if m.Some? then Some("🎯 Best move: " + m.value) else None
      case Info => InfoLine(data)
      case Output => Some("🧠 Stockfish: " + data)
      case Error => Some("❌ Error: " + data)
      case EngineOutput => Some("🧠 Stockfish: " + data)
  }

  /** The lines `getBestMove` sends: the position, then one search of depth 10. */
  function SearchLines(fen: string): seq<string> {
    [PositionFen(fen), GoLine(Depth(SearchDepth))]
  }

  /** The search lines set the page's position and start exactly one depth-10 search. */
  lemma SearchLinesMeaning(fen: string)
    ensures FenOf(SearchLines(fen)[0]) == Some(fen)
    ensures ParseGo(SearchLines(fen)[1]) == Some(Depth(10))
    ensures GoCount(SearchLines(fen)) == 1
  {
    FenOfPositionFen(fen);
    ParseGoLine(Depth(SearchDepth));
    PositionFenIsNotGo(fen);
    assert SearchLines(fen)[1..] == [GoLine(Depth(SearchDepth))];
  }

  const NotReadyLine := "⚠️ Stockfish not ready yet!"

  class Demo {
    /** The log, oldest first. */
    var output: seq<string>
    var ready: bool
    var fen: string
    var bestMove: Option<string>
    var thinking: bool
    var hasWorker: bool
    /** Every message posted to the worker, oldest first. */
    var posted: seq<Message>

    /** Mount: create the worker (or log why not), then post `'init'`. */
    constructor(timestamp: string, created: bool, failure: string)
      ensures !ready && fen == StartFen && bestMove.None? && !thinking && hasWorker == created
      ensures created ==> output == [Stamp(timestamp, "📦 Loading Stockfish worker...")] && posted == [InitMessage]
      ensures !created ==> output == [Stamp(timestamp, "❌ Failed to load worker: " + failure)] && posted == []
    {
      ready, fen, bestMove, thinking := false, StartFen, None, false;
      hasWorker := created;
      if created {
        output := [Stamp(timestamp, "📦 Loading Stockfish worker...")];
        posted := [InitMessage];
      } else {
        output := [Stamp(timestamp, "❌ Failed to load worker: " + failure)];
        posted := [];
      }
    }

    /** `addToOutput(message)`: one line appended, the earlier ones kept in order. */
    method AddToOutput(timestamp: string, message: string)
      modifies this
      ensures output == old(output) + [Stamp(timestamp, message)]
      ensures ready == old(ready) && fen == old(fen) && bestMove == old(bestMove) && thinking == old(thinking)
      ensures hasWorker == old(hasWorker) && posted == old(posted)
    {
      output := output + [Stamp(timestamp, message)];
    }

    method ClearOutput()
      modifies this
      ensures output == []
      ensures ready == old(ready) && fen == old(fen) && bestMove == old(bestMove) && thinking == old(thinking)
      ensures hasWorker == old(hasWorker) && posted == old(posted)
    {
      output := [];
    }

    /** The FEN input field. */
    method SetFen(text: string)
      modifies this
      ensures fen == text && output == old(output) && ready == old(ready) && posted == old(posted)
      ensures bestMove == old(bestMove) && thinking == old(thinking) && hasWorker == old(hasWorker)
    {
      fen := text;
    }

    /** The worker's `onmessage`, dispatching on the reply's type. */
    method OnMessage(timestamp: string, r: Reply)
      requires hasWorker
      modifies this
      ensures output == old(output) + (if ReplyLine(r).Some? then [Stamp(timestamp, ReplyLine(r).value)] else [])
      ensures ready == (old(ready) || (r.Typed? && r.kind == Ready))
      ensures r.Typed? && r.kind == BestMove && Search(r.data, BestmovePattern).Some? ==>
        bestMove == Search(r.data, BestmovePattern) && !thinking
      ensures !(r.Typed? && r.kind == BestMove && Search(r.data, BestmovePattern).Some?) ==>
        bestMove == old(bestMove) && thinking == old(thinking)
      ensures fen == old(fen) && hasWorker == old(hasWorker) && posted == old(posted)
    {
      if r.Typed? {
        match r.kind
        case Ready =>
          ready := true;
        case BestMove =>
          var m := Search(r.data, BestmovePattern);
          if m.Some? {
            bestMove := m;
            thinking := false;
          }
        case _ =>
      }
      var line := ReplyLine(r);
      if line.Some? {
        AddToOutput(timestamp, line.value);
      }
    }

    /** The worker's `onerror`. */
    method OnWorkerError(timestamp: string, message: string)
      requires hasWorker
      modifies this
      ensures output == old(output) + [Stamp(timestamp, "❌ Worker error: " + message)]
      ensures ready == old(ready) && bestMove == old(bestMove) && thinking == old(thinking) && posted == old(posted)
      ensures fen == old(fen) && hasWorker == old(hasWorker)
    {
      AddToOutput(timestamp, "❌ Worker error: " + message);
    }

    /** `setPosition`: a warning when not ready, else the position line. */
    method SetPosition(timestamp: string)
      modifies this
      ensures !old(ready) ==> posted == old(posted) && output == old(output) + [Stamp(timestamp, NotReadyLine)]
      ensures old(ready) ==> (posted == old(posted) + [Text(PositionFen(fen))]
        && output == old(output) + [Stamp(timestamp, "🎯 Setting position: " + fen)])
      ensures ready == old(ready) && fen == old(fen) && bestMove == old(bestMove) && thinking == old(thinking)
      ensures hasWorker == old(hasWorker)
    {
      if !ready {
        AddToOutput(timestamp, NotReadyLine);
        return;
      }
      AddToOutput(timestamp, "🎯 Setting position: " + fen);
      posted := posted + [Text(PositionFen(fen))];
    }

    /** `getBestMove`: a warning when not ready, else the position and a depth-10 search. */
    method GetBestMove(timestamp: string)
      modifies this
      ensures !old(ready) ==> (posted == old(posted) && output == old(output) + [Stamp(timestamp, NotReadyLine)]
        && thinking == old(thinking) && bestMove == old(bestMove))
      ensures old(ready) ==> (posted == old(posted) + [Text(SearchLines(fen)[0]), Text(SearchLines(fen)[1])]
        && thinking && bestMove.None?
        && output == old(output) + [Stamp(timestamp, "🤔 Asking Stockfish to think (depth 10)...")])
      ensures ready == old(ready) && fen == old(fen) && hasWorker == old(hasWorker)
    {
      if !ready {
        AddToOutput(timestamp, NotReadyLine);
        return;
      }
      thinking := true;
      bestMove := None;
      AddToOutput(timestamp, "🤔 Asking Stockfish to think (depth 10)...");
      posted := posted + [Text(PositionFen(fen)), Text(GoLine(Depth(SearchDepth)))];
    }

    /** `sendDirectCommand`: nothing when not ready, else `uci`, `isready`, `ucinewgame`. */
    method SendDirectCommand(timestamp: string)
      modifies this
      ensures !old(ready) ==> posted == old(posted) && output == old(output)
      ensures old(ready) ==> (posted == old(posted) + [Text(Identify), Text(IsReady), Text(NewGame)]
        && output == old(output) + [Stamp(timestamp, "📤 Sending UCI commands...")])
      ensures ready == old(ready) && fen == old(fen) && bestMove == old(bestMove) && thinking == old(thinking)
      ensures hasWorker == old(hasWorker)
    {
      if !ready {
        return;
      }
      AddToOutput(timestamp, "📤 Sending UCI commands...");
      posted := posted + [Text(Identify), Text(IsReady), Text(NewGame)];
    }
  }
}
