/**
 * src/useStockfish.js: drives public/real-stockfish-worker.js with
 * structured requests and reads its typed replies, keeping the latest
 * evaluation parsed from `info` lines.
 */
module StockfishHook {
  import opened Options
  import opened Strings
  import opened Patterns
  import opened Uci
  import opened WorkerProtocol

  /** A `difficultySettings` entry. */
  datatype Level = Level(depth: int, eloLimit: bool, eloRating: int, thinkTime: int)

  /** `difficultySettings[difficulty] || difficultySettings.grandmaster` */
  function LevelFor(difficulty: string): (l: Level)
    ensures difficulty == "beginner" ==> l == Level(5, true, 1000, 500)
    ensures difficulty == "intermediate" ==> l == Level(8, true, 1400, 1000)
    ensures difficulty == "advanced" ==> l == Level(12, true, 1800, 2000)
    ensures difficulty == "master" ==> l == Level(16, true, 2200, 3000)
    ensures difficulty !in {"beginner", "intermediate", "advanced", "master"} ==> l == Level(20, false, 3500, 5000)
  {
    match difficulty
    case "beginner" => Level(5, true, 1000, 500)
    case "intermediate" => Level(8, true, 1400, 1000)
    case "advanced" => Level(12, true, 1800, 2000)
    case "master" => Level(16, true, 2200, 3000)
    case "grandmaster" => Level(20, false, 3500, 5000)
    case _ => Level(20, false, 3500, 5000)
  }

  /** A request without a position or limits (`fen` is unused by these kinds). */
  function Bare(kind: string, settings: Option<Settings>): Request {
    Request(kind, "", None, None, false, settings)
  }

  function ConfigureRequest(difficulty: string): Request {
    var l := LevelFor(difficulty);
    Bare("configure", Some(Settings(l.eloLimit, Some(l.eloRating))))
  }

  /** The `position` request of `getBestMove`: table depth, `movetime = thinkTime`, useTime only for beginner. */
  function PositionRequest(difficulty: string, fen: string): Request {
    var l := LevelFor(difficulty);
    Request("position", fen, Some(l.depth), Some(l.thinkTime), difficulty == "beginner", None)
  }

  function AnalyzeRequest(fen: string): Request {
    Request("analyze", fen, None, None, false, None)
  }

  const StopRequest := Bare("stop", None)

  /** The limit the real worker picks for a `getBestMove` request. */
  lemma RealWorkerLimit(difficulty: string, fen: string)
    ensures GoFor(TimeFirst, 10, PositionRequest(difficulty, fen))
      == if difficulty == "beginner" then Movetime(500) else Depth(LevelFor(difficulty).depth)
  {
    var l := LevelFor(difficulty);
    assert l.depth > 0 && l.thinkTime > 0;
  }

  /**
   * Through the real worker, `getBestMove` searches by movetime 500 for
   * beginner and by the table depth for every other difficulty.
   */
  lemma RealWorkerSearch(difficulty: string, fen: string)
    ensures var lines := EncodeReal(PositionRequest(difficulty, fen));
      |lines| == 3 && lines[0] == NewGame && FenOf(lines[1]) == Some(fen)
      && ParseGo(lines[2]) == Some(if difficulty == "beginner" then Movetime(500) else Depth(LevelFor(difficulty).depth))
  {
    var r := PositionRequest(difficulty, fen);
    RealWorkerLimit(difficulty, fen);
    PositionEncoding(TimeFirst, 10, r);
  }

  /**
   * Through the real worker, `configure` limits the strength to the table
   * rating for every level but grandmaster (and unknown levels), which
   * switch the limit off.
   */
  lemma RealWorkerConfigure(difficulty: string)
    ensures var lines := EncodeReal(ConfigureRequest(difficulty));
      if LevelFor(difficulty).eloLimit then
        lines == [SetOption("UCI_LimitStrength", "true"), SetOption("UCI_Elo", IntToString(LevelFor(difficulty).eloRating))]
      else lines == [SetOption("UCI_LimitStrength", "false")]
  {
  }

  datatype ScoreKind = Centipawns | Mate

  /** `{type, value, depth}`: value in pawns for a centipawn score, moves for a mate score. */
  datatype Evaluation = Evaluation(kind: ScoreKind, value: real, depth: int)

  /**
   * The evaluation an `info` line sets, or None when it leaves the current
   * one alone: it needs a depth and a score, and a centipawn score wins.
   */
  function ParseInfo(data: string): (e: Option<Evaluation>)
    ensures e.None? <==> (Search(data, DepthPattern).None?
      || (Search(data, ScoreCpPattern).None? && Search(data, ScoreMatePattern).None?))
    ensures e.Some? ==> e.value.depth >= 0 && e.value.depth == ParseInt(Search(data, DepthPattern).value)
    ensures e.Some? && e.value.kind == Centipawns <==> e.Some? && Search(data, ScoreCpPattern).Some?
    ensures e.Some? && e.value.kind == Centipawns ==> e.value.value * 100.0 == ParseInt(Search(data, ScoreCpPattern).value) as real
    ensures e.Some? && e.value.kind == Mate ==> e.value.value == ParseInt(Search(data, ScoreMatePattern).value) as real
  {
    var cp := Search(data, ScoreCpPattern);
    var mate := Search(data, ScoreMatePattern);
    var depth := Search(data, DepthPattern);
    if cp.Some? && depth.Some? then
      Some(Evaluation(Centipawns, ParseInt(cp.value) as real / 100.0, ParseInt(depth.value)))
    else if mate.Some? && depth.Some? then
      Some(Evaluation(Mate, ParseInt(mate.value) as real, ParseInt(depth.value)))
    else None
  }

  /** `/depth (\d+)/` takes the depth of a line starting "info depth <d>". */
  lemma DepthOfInfo(d: string, rest: string)
    requires |d| > 0 && AllDigits(d)
    requires rest == [] || !IsDigit(rest[0])
    ensures Search("info depth " + d + rest, DepthPattern) == Some(d)
  {
    InfoDepthPrefix();
    SearchFinds("info ", d, rest, DepthPattern);
  }

  /** "info depth " is "info " followed by the depth pattern's literal, which "info " cannot start. */
  lemma InfoDepthPrefix()
    ensures "info " + DepthPattern.literal == "info depth "
    ensures DepthPattern.literal[0] !in "info "
  {
    assert "info depth " == "info " + "depth ";
  }

  /** After "info depth <d> ", a score pattern matches at its own literal. */
  lemma ScoreAfterDepth(d: string, p: Pattern, c: string, tail: string)
    requires AllDigits(d) && |p.literal| > 0 && p.literal[0] == 's'
    requires Captures(c, p.group) && (tail == [] || !InClass(tail[0], ClassOf(p.group)))
    ensures Search("info depth " + d + " " + p.literal + c + tail, p) == Some(c)
  {
    var pre := "info depth " + d + " ";
    assert forall i :: 0 <= i < |d| ==> d[i] != 's';
    assert 's' !in pre;
    SearchFinds(pre, c, tail, p);
  }

  /** "score mate <m>" holds no match of `/score cp (-?\d+)/`. */
  lemma NoCpInMate(m: string)
    requires IsIntLiteral(m)
    ensures Search("score mate " + m, ScoreCpPattern) == None
  {
    var s := "score mate " + m;
    assert !StartsWith(s, "score cp ") by { assert s[6] == 'm'; }
    assert forall i :: 0 <= i < |m| ==> m[i] != 's';
    assert 's' !in s[1..];
    SearchAbsent(s[1..], ScoreCpPattern);
  }

  /** The evaluation of a line from the matches of the three patterns in it. */
  lemma ParseInfoOfMatches(data: string, d: string, cp: Option<string>, mate: Option<string>)
    requires Search(data, DepthPattern) == Some(d)
    requires Search(data, ScoreCpPattern) == cp && Search(data, ScoreMatePattern) == mate
    ensures cp.Some? ==> ParseInfo(data) == Some(Evaluation(Centipawns, ParseInt(cp.value) as real / 100.0, ParseInt(d)))
    ensures cp.None? && mate.Some? ==> ParseInfo(data) == Some(Evaluation(Mate, ParseInt(mate.value) as real, ParseInt(d)))
  {
  }

  /** The depth of `info depth <d> score cp <c>...` is d. */
  lemma CpLineDepth(d: string, c: string, tail: string)
    requires |d| > 0 && AllDigits(d)
    ensures Search("info depth " + d + " score cp " + c + tail, DepthPattern) == Some(d)
  {
    var rest := " score cp " + c + tail;
    assert "info depth " + d + " score cp " + c + tail == "info depth " + d + rest;
    DepthOfInfo(d, rest);
  }

  /** The centipawn score of `info depth <d> score cp <c>...` is c. */
  lemma CpLineCp(d: string, c: string, tail: string)
    requires AllDigits(d) && IsIntLiteral(c)
    requires tail == [] || !IsDigit(tail[0])
    ensures Search("info depth " + d + " score cp " + c + tail, ScoreCpPattern) == Some(c)
  {
    var pre := "info depth " + d + " ";
    assert "info depth " + d + " score cp " + c + tail == pre + ScoreCpPattern.literal + c + tail;
    ScoreAfterDepth(d, ScoreCpPattern, c, tail);
  }

  /** A line whose depth and centipawn patterns match is scored in centipawns. */
  lemma CpEvaluation(line: string, d: string, c: string)
    requires Search(line, DepthPattern) == Some(d) && Search(line, ScoreCpPattern) == Some(c)
    ensures ParseInfo(line) == Some(Evaluation(Centipawns, ParseInt(c) as real / 100.0, ParseInt(d)))
  {
    ParseInfoOfMatches(line, d, Some(c), Search(line, ScoreMatePattern));
  }

  /**
   * `info depth <d> score cp <c>`: the evaluation is c/100 pawns at depth d,
   * whatever follows the score once it ends.
   */
  lemma ParseInfoCentipawns(d: string, c: string, tail: string)
    requires |d| > 0 && AllDigits(d) && IsIntLiteral(c)
    requires tail == [] || !IsDigit(tail[0])
    ensures ParseInfo("info depth " + d + " score cp " + c + tail)
      == Some(Evaluation(Centipawns, ParseInt(c) as real / 100.0, ParseInt(d)))
  {
    var line := "info depth " + d + " score cp " + c + tail;
    CpLineDepth(d, c, tail);
    CpLineCp(d, c, tail);
    CpEvaluation(line, d, c);
  }

  /** The depth of `info depth <d> score mate <m>` is d. */
  lemma MateLineDepth(d: string, m: string)
    requires |d| > 0 && AllDigits(d)
    ensures Search("info depth " + d + " score mate " + m, DepthPattern) == Some(d)
  {
    var rest := " score mate " + m;
    assert "info depth " + d + " score mate " + m == "info depth " + d + rest;
    DepthOfInfo(d, rest);
  }

  /** The mate score of `info depth <d> score mate <m>` is m. */
  lemma MateLineMate(d: string, m: string)
    requires AllDigits(d) && IsIntLiteral(m)
    ensures Search("info depth " + d + " score mate " + m, ScoreMatePattern) == Some(m)
  {
    var pre := "info depth " + d + " ";
    assert "info depth " + d + " score mate " + m == pre + ScoreMatePattern.literal + m + "";
    ScoreAfterDepth(d, ScoreMatePattern, m, "");
  }

  /** `info depth <d> score mate <m>` holds no centipawn score. */
  lemma MateLineNoCp(d: string, m: string)
    requires AllDigits(d) && IsIntLiteral(m)
    ensures Search("info depth " + d + " score mate " + m, ScoreCpPattern) == None
  {
    var pre := "info depth " + d + " ";
    assert forall i :: 0 <= i < |d| ==> d[i] != 's';
    assert 's' !in pre;
    assert "info depth " + d + " score mate " + m == pre + ("score mate " + m);
    SearchSkip(pre, "score mate " + m, ScoreCpPattern);
    NoCpInMate(m);
  }

  /** `info depth <d> score mate <m>`: a mate score of m at depth d, sign kept. */
  lemma ParseInfoMate(d: string, m: string)
    requires |d| > 0 && AllDigits(d) && IsIntLiteral(m)
    ensures ParseInfo("info depth " + d + " score mate " + m)
      == Some(Evaluation(Mate, ParseInt(m) as real, ParseInt(d)))
  {
    var line := "info depth " + d + " score mate " + m;
    MateLineDepth(d, m);
    MateLineMate(d, m);
    MateLineNoCp(d, m);
    ParseInfoOfMatches(line, d, None, Some(m));
  }

  /** An `info` line without a depth, such as `info string ...`, leaves the evaluation alone. */
  lemma ParseInfoNeedsDepth(data: string)
    requires 'd' !in data
    ensures ParseInfo(data).None?
  {
    SearchAbsent(data, DepthPattern);
  }

  class Hook {
    const difficulty: string
    var ready: bool
    var thinking: bool
    var bestMove: Option<string>
    var evaluation: Option<Evaluation>
    /** Every message posted to the worker, oldest first. */
    var posted: seq<Message>
    /** Whether the two-second configure timer is pending. */
    var configurePending: bool

    /** Mount: create the worker, post `'init'`, start the configure timer. */
    constructor(difficulty: string)
      ensures this.difficulty == difficulty && !ready && !thinking && bestMove.None? && evaluation.None?
      ensures posted == [InitMessage] && configurePending
    {
      this.difficulty := difficulty;
      ready, thinking, bestMove, evaluation := false, false, None, None;
      posted := [InitMessage];
      configurePending := true;
    }

    /** The configure timer: the level's strength settings. */
    method OnConfigureTimer()
      requires configurePending
      modifies this
      ensures !configurePending && posted == old(posted) + [Structured(ConfigureRequest(difficulty))]
      ensures ready == old(ready) && thinking == old(thinking) && bestMove == old(bestMove) && evaluation == old(evaluation)
    {
      configurePending := false;
      posted := posted + [Structured(ConfigureRequest(difficulty))];
    }

    /** `onmessage`, switching on the reply's type. */
    method OnReply(r: Reply)
      modifies this
      ensures posted == old(posted) && configurePending == old(configurePending)
      ensures ready == (old(ready) || (r.Typed? && r.kind == Ready))
      ensures r.Typed? && r.kind == BestMove && Search(r.data, BestmovePattern).Some? ==>
        bestMove == Search(r.data, BestmovePattern) && !thinking
      ensures !(r.Typed? && r.kind == BestMove && Search(r.data, BestmovePattern).Some?) ==>
        bestMove == old(bestMove) && thinking == old(thinking)
      ensures r.Typed? && r.kind == Info && ParseInfo(r.data).Some? ==> evaluation == ParseInfo(r.data)
      ensures !(r.Typed? && r.kind == Info && ParseInfo(r.data).Some?) ==> evaluation == old(evaluation)
    {
      if !r.Typed? {
        return;
      }
      match r.kind
      case Ready =>
        ready := true;
      case BestMove =>
        var m := Search(r.data, BestmovePattern);
        if m.Some? {
          bestMove := m;
          thinking := false;
        }
      case Info =>
        var e := ParseInfo(r.data);
        if e.Some? {
          evaluation := e;
        }
      case _ =>
    }

    /** The worker's `onerror`. */
    method OnError()
      modifies this
      ensures !ready && posted == old(posted) && configurePending == old(configurePending)
      ensures thinking == old(thinking) && bestMove == old(bestMove) && evaluation == old(evaluation)
    {
      ready := false;
    }

    /** `getBestMove(fen)`: one `position` request once ready. */
    method GetBestMove(fen: string)
      modifies this
      ensures !old(ready) ==> posted == old(posted) && thinking == old(thinking) && bestMove == old(bestMove)
      ensures old(ready) ==> posted == old(posted) + [Structured(PositionRequest(difficulty, fen))] && thinking && bestMove.None?
      ensures ready == old(ready) && evaluation == old(evaluation) && configurePending == old(configurePending)
    {
      if ready {
        thinking := true;
        bestMove := None;
        posted := posted + [Structured(PositionRequest(difficulty, fen))];
      }
    }

    /** `stopThinking`: a `stop` request, and thinking cleared at once, when ready. */
    method StopThinking()
      modifies this
      ensures !old(ready) ==> posted == old(posted) && thinking == old(thinking)
      ensures old(ready) ==> posted == old(posted) + [Structured(StopRequest)] && !thinking
      ensures ready == old(ready) && bestMove == old(bestMove) && evaluation == old(evaluation)
      ensures configurePending == old(configurePending)
    {
      if ready {
        posted := posted + [Structured(StopRequest)];
        thinking := false;
      }
    }

    /** `resetAI`: clears move, thinking and evaluation; re-posts `configure` when ready. */
    method ResetAI()
      modifies this
      ensures bestMove.None? && !thinking && evaluation.None?
      ensures posted == old(posted) + (if ready then [Structured(ConfigureRequest(difficulty))] else [])
      ensures ready == old(ready) && configurePending == old(configurePending)
    {
      bestMove, thinking, evaluation := None, false, None;
      if ready {
        posted := posted + [Structured(ConfigureRequest(difficulty))];
      }
    }

    /** `analyzePosition(fen)`: one `analyze` request once ready. */
    method AnalyzePosition(fen: string)
      modifies this
      ensures posted == old(posted) + (if ready then [Structured(AnalyzeRequest(fen))] else [])
      ensures ready == old(ready) && thinking == old(thinking) && bestMove == old(bestMove)
      ensures evaluation == old(evaluation) && configurePending == old(configurePending)
    {
      if ready {
        posted := posted + [Structured(AnalyzeRequest(fen))];
      }
    }
  }
}
