/**
 * What the React engine hooks share: the strength table of the three hooks
 * that search by depth and time together (useStockfishRobust,
 * useStockfishWorking, useStockfishDirectLoad), the Skill Level clamp, the
 * line sequence their `getBestMove` sends, and the reading of a move out of a
 * `bestmove` line.
 */
module EngineHooks {
  import opened Options
  import opened Strings
  import opened Patterns
  import opened Uci
  import opened WorkerProtocol

  /** A `{depth, time, elo}` entry of a strength table. */
  datatype Strength = Strength(depth: int, time: int, elo: int)

  /** `difficultySettings[difficulty] || difficultySettings.intermediate` */
  function StrengthFor(difficulty: string): (s: Strength)
    ensures difficulty == "beginner" ==> s == Strength(3, 1000, 800)
    ensures difficulty == "easy" ==> s == Strength(5, 2000, 1200)
    ensures difficulty == "hard" ==> s == Strength(12, 5000, 2000)
    ensures difficulty == "expert" ==> s == Strength(15, 8000, 2400)
    ensures difficulty !in {"beginner", "easy", "hard", "expert"} ==> s == Strength(8, 3000, 1600)
  {
    if difficulty == "beginner" then Strength(3, 1000, 800)
    else if difficulty == "easy" then Strength(5, 2000, 1200)
    else if difficulty == "hard" then Strength(12, 5000, 2000)
    else if difficulty == "expert" then Strength(15, 8000, 2400)
    else Strength(8, 3000, 1600)
  }

  /**
   * `Math.min(20, Math.max(0, Math.floor(elo / 120)))`: the level of the
   * largest multiple of 120 not above the rating, kept within 0..20.
   */
  function SkillLevel(elo: int): (level: int)
    ensures 0 <= level <= 20
    ensures elo < 0 ==> level == 0
    ensures elo >= 20 * 120 ==> level == 20
    ensures 0 <= elo < 21 * 120 ==> level * 120 <= elo < (level + 1) * 120
  {
    if elo / 120 < 0 then 0 else if elo / 120 > 20 then 20 else elo / 120
  }

  /** The table's ratings give Skill Levels 6, 10, 13, 16 and 20. */
  lemma TableSkillLevels()
    ensures SkillLevel(StrengthFor("beginner").elo) == 6
    ensures SkillLevel(StrengthFor("easy").elo) == 10
    ensures SkillLevel(StrengthFor("intermediate").elo) == 13
    ensures SkillLevel(StrengthFor("hard").elo) == 16
    ensures SkillLevel(StrengthFor("expert").elo) == 20
  {
  }

  /** The lines `getBestMove` sends once ready: new game, position, Skill Level, then one search. */
  function SearchLines(s: Strength, fen: string, moves: seq<string>): seq<string> {
    [NewGame,
     if |moves| > 0 then PositionStartpos(moves) else PositionFen(fen),
     SetOption("Skill Level", IntToString(SkillLevel(s.elo))),
     GoLine(DepthMovetime(s.depth, s.time))]
  }

  lemma GoCountOfFour(a: string, b: string, c: string, d: string)
    requires ParseGo(a).None? && ParseGo(b).None? && ParseGo(c).None? && ParseGo(d).Some?
    ensures GoCount([a, b, c, d]) == 1
  {
    assert [a, b, c, d][1..] == [b, c, d];
    GoCountOfThree(b, c, d);
  }

  /**
   * The search lines reset the game, set the position (the move list when
   * there is one, the FEN otherwise), set a Skill Level within 0..20, and
   * start exactly one search bounded by both the table depth and time.
   */
  lemma SearchLinesMeaning(s: Strength, fen: string, moves: seq<string>)
    ensures var lines := SearchLines(s, fen, moves);
      |lines| == 4 && lines[0] == NewGame
      && (|moves| == 0 ==> FenOf(lines[1]) == Some(fen))
      && ((|moves| > 0 && forall k :: 0 <= k < |moves| ==> ' ' !in moves[k]) ==> StartposMovesOf(lines[1]) == Some(moves))
      && (exists level :: 0 <= level <= 20 && lines[2] == SetOption("Skill Level", IntToString(level)))
      && GoCount(lines) == 1
      && ParseGo(lines[3]) == Some(DepthMovetime(s.depth, s.time))
  {
    var lines := SearchLines(s, fen, moves);
    NewGameIsNotGo();
    if |moves| > 0 {
      StartposIsNotGo(moves);
      if forall k :: 0 <= k < |moves| ==> ' ' !in moves[k] {
        StartposMovesRoundTrip(moves);
      }
    } else {
      PositionFenIsNotGo(fen);
      FenOfPositionFen(fen);
    }
    SetOptionIsNotGo("Skill Level", IntToString(SkillLevel(s.elo)));
    ParseGoLine(DepthMovetime(s.depth, s.time));
    GoCountOfFour(lines[0], lines[1], lines[2], lines[3]);
  }

  /** The lines the hooks that search by depth alone send: new game, position, one depth-bounded search. */
  function FenSearchLines(fen: string, depth: int): seq<string> {
    [NewGame, PositionFen(fen), GoLine(Depth(depth))]
  }

  lemma FenSearchLinesMeaning(fen: string, depth: int)
    ensures var lines := FenSearchLines(fen, depth);
      |lines| == 3 && lines[0] == NewGame && FenOf(lines[1]) == Some(fen)
      && GoCount(lines) == 1 && ParseGo(lines[2]) == Some(Depth(depth))
  {
    var lines := FenSearchLines(fen, depth);
    NewGameIsNotGo();
    PositionFenIsNotGo(fen);
    FenOfPositionFen(fen);
    ParseGoLine(Depth(depth));
    GoCountOfThree(lines[0], lines[1], lines[2]);
  }

  /** The move `line.match(/bestmove (\w+)/)` yields, unless the capture is "(none)". */
  function MoveOf(line: string): (m: Option<string>)
    ensures m.Some? ==> m.value != "(none)" && |m.value| > 0 && Contains(line, "bestmove " + m.value)
    ensures m.Some? ==> forall i :: 0 <= i < |m.value| ==> IsWordChar(m.value[i])
  {
    var c := Search(line, BestmovePattern);
    if c.Some? && c.value != "(none)" then c else None
  }

  lemma ExampleLine()
    ensures "bestmove " + "e2e4" + " ponder e7e5" == "bestmove e2e4 ponder e7e5"
  {
    assert "bestmove " + "e2e4" == "bestmove e2e4";
  }

  /** `bestmove e2e4 ponder e7e5` yields e2e4, and `bestmove (none)` yields no move. */
  lemma MoveOfExamples()
    ensures MoveOf("bestmove e2e4 ponder e7e5") == Some("e2e4")
    ensures MoveOf("bestmove (none)") == None
  {
    BestmoveToken("e2e4", " ponder e7e5");
    ExampleLine();
    BestmoveNoneNoMatch("");
    assert "bestmove (none)" + "" == "bestmove (none)";
  }

  /** The "(none)" test after the regex rejects nothing the regex alone would accept. */
  lemma MoveOfIsTheCapture(line: string)
    ensures MoveOf(line) == Search(line, BestmovePattern)
  {
    BestmoveCaptureIsNeverNone(line);
  }

  /** A message a hook's worker posts back: a string, or an object `{type, data}`. */
  datatype Incoming = Str(text: string) | Obj(kind: string, data: Option<string>)
}
