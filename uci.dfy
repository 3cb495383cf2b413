/**
 * The "GUI to engine" commands of the Universal Chess Interface (UCI) that
 * the workers, hooks and the demo component send, one text line each, and
 * readers for the ones whose arguments matter, so that every encoder can be
 * checked against what an engine would read back.
 */
module Uci {
  import opened Options
  import opened Strings

  const Identify := "uci"
  const IsReady := "isready"
  const NewGame := "ucinewgame"
  const Stop := "stop"

  /** `position fen <fen>`: the position is embedded verbatim. */
  function PositionFen(fen: string): string {
    "position fen " + fen
  }

  /** `position startpos moves <m1> <m2> ...` */
  function PositionStartpos(moves: seq<string>): string {
    "position startpos moves " + Join(moves, ' ')
  }

  /** `setoption name <name> value <value>` */
  function SetOption(name: string, value: string): string {
    "setoption name " + name + " value " + value
  }

  /** The search limit a `go` command carries. */
  datatype Go =
    | Depth(plies: int)
    | Movetime(ms: int)
    | Infinite
    | DepthMovetime(plies: int, ms: int)

  function GoLine(g: Go): string {
    match g
    case Depth(d) => "go depth " + IntToString(d)
    case Movetime(t) => "go movetime " + IntToString(t)
    case Infinite => "go infinite"
    case DepthMovetime(d, t) => "go depth " + IntToString(d) + " movetime " + IntToString(t)
  }

  /** How an engine reads a `go` line; None for a line that is not one. */
  function ParseGo(line: string): Option<Go> {
    var w := Split(line, ' ');
    if |w| == 2 && w[0] == "go" && w[1] == "infinite" then Some(Infinite)
    else if |w| == 3 && w[0] == "go" && w[1] == "depth" && IsIntLiteral(w[2]) then Some(Depth(ParseInt(w[2])))
    else if |w| == 3 && w[0] == "go" && w[1] == "movetime" && IsIntLiteral(w[2]) then Some(Movetime(ParseInt(w[2])))
    else if |w| == 5 && w[0] == "go" && w[1] == "depth" && IsIntLiteral(w[2]) && w[3] == "movetime" && IsIntLiteral(w[4])
    then Some(DepthMovetime(ParseInt(w[2]), ParseInt(w[4])))
    else None
  }

  /** The position a `position fen` line sets; None for any other line. */
  function FenOf(line: string): Option<string> {
    if StartsWith(line, "position fen ") then Some(line[|"position fen "|..]) else None
  }

  /** The moves a `position startpos moves` line plays; None for any other line. */
  function StartposMovesOf(line: string): Option<seq<string>> {
    var p := "position startpos moves ";
    if StartsWith(line, p) then Some(Split(line[|p|..], ' ')) else None
  }

  /** The words of a `go` line. */
  function GoWords(g: Go): seq<string> {
    match g
    case Depth(d) => ["go", "depth", IntToString(d)]
    case Movetime(t) => ["go", "movetime", IntToString(t)]
    case Infinite => ["go", "infinite"]
    case DepthMovetime(d, t) => ["go", "depth", IntToString(d), "movetime", IntToString(t)]
  }

  lemma Join2(a: string, b: string, sep: char)
    ensures Join([a, b], sep) == a + [sep] + b
  {
    JoinCons(a, [b], sep);
  }

  lemma Join3(a: string, b: string, c: string, sep: char)
    ensures Join([a, b, c], sep) == a + [sep] + b + [sep] + c
  {
    Join2(b, c, sep);
    JoinCons(a, [b, c], sep);
    assert [a] + [b, c] == [a, b, c];
  }

  lemma Join5(a: string, b: string, c: string, d: string, e: string, sep: char)
    ensures Join([a, b, c, d, e], sep) == a + [sep] + b + [sep] + c + [sep] + d + [sep] + e
  {
    Join2(d, e, sep);
    JoinCons(c, [d, e], sep);
    assert [c] + [d, e] == [c, d, e];
    JoinCons(b, [c, d, e], sep);
    assert [b] + [c, d, e] == [b, c, d, e];
    JoinCons(a, [b, c, d, e], sep);
    assert [a] + [b, c, d, e] == [a, b, c, d, e];
  }

  lemma DepthLineIsJoin(d: int)
    ensures GoLine(Depth(d)) == Join(GoWords(Depth(d)), ' ')
  {
    Join3("go", "depth", IntToString(d), ' ');
    assert "go depth " == "go" + [' '] + "depth" + [' '];
  }

  lemma MovetimeLineIsJoin(t: int)
    ensures GoLine(Movetime(t)) == Join(GoWords(Movetime(t)), ' ')
  {
    Join3("go", "movetime", IntToString(t), ' ');
    assert "go movetime " == "go" + [' '] + "movetime" + [' '];
  }

  lemma DepthMovetimeLineIsJoin(d: int, t: int)
    ensures GoLine(DepthMovetime(d, t)) == Join(GoWords(DepthMovetime(d, t)), ' ')
  {
    var sd, st := IntToString(d), IntToString(t);
    Join5("go", "depth", sd, "movetime", st, ' ');
    var head := "go" + [' '] + "depth" + [' '];
    assert head == "go depth ";
    var mid := [' '] + "movetime" + [' '];
    assert mid == " movetime ";
    assert "go" + [' '] + "depth" + [' '] + sd + [' '] + "movetime" + [' '] + st == head + sd + mid + st;
  }

  lemma GoLineIsJoin(g: Go)
    ensures GoLine(g) == Join(GoWords(g), ' ')
  {
    match g
    case Infinite => Join2("go", "infinite", ' ');
    case Depth(d) => DepthLineIsJoin(d);
    case Movetime(t) => MovetimeLineIsJoin(t);
    case DepthMovetime(d, t) => DepthMovetimeLineIsJoin(d, t);
  }

  lemma ParseGoWords(line: string, g: Go)
    requires Split(line, ' ') == GoWords(g)
    ensures ParseGo(line) == Some(g)
  {
    var w := Split(line, ' ');
    match g
    case Infinite =>
      assert |w| == 2 && w[0] == "go" && w[1] == "infinite";
    case Depth(d) =>
      ParseIntOfIntToString(d);
      assert |w| == 3 && w[0] == "go" && w[1] == "depth" && w[2] == IntToString(d);
    case Movetime(t) =>
      ParseIntOfIntToString(t);
      assert |w| == 3 && w[0] == "go" && w[1] == "movetime" && w[2] == IntToString(t);
      assert w[1] != "depth";
    case DepthMovetime(d, t) =>
      ParseIntOfIntToString(d);
      ParseIntOfIntToString(t);
      assert |w| == 5 && w[0] == "go" && w[1] == "depth" && w[2] == IntToString(d);
      assert w[3] == "movetime" && w[4] == IntToString(t);
  }

  /** A `go` line reads back as the limit it was written from. */
  lemma ParseGoLine(g: Go)
    ensures ParseGo(GoLine(g)) == Some(g)
  {
    var w := GoWords(g);
    GoLineIsJoin(g);
    assert forall k :: 0 <= k < |w| ==> ' ' !in w[k];
    SplitJoin(w, ' ');
    ParseGoWords(GoLine(g), g);
  }

  /** Different limits give different `go` lines. */
  lemma GoLineInjective(g: Go, h: Go)
    requires GoLine(g) == GoLine(h)
    ensures g == h
  {
    ParseGoLine(g);
    ParseGoLine(h);
  }

  /** The first word of a line that starts with a word other than "go" makes it no `go` line. */
  lemma NotGo(word: string, rest: string)
    requires ' ' !in word && word != "go"
    ensures ParseGo(word + " " + rest) == None
  {
    var line := word + " " + rest;
    assert line == word + ([' '] + rest);
    IndexOfPast(word, [' '] + rest, ' ');
    assert line[..|word|] == word;
  }

  /** A line without a space is not a `go` line. */
  lemma OneWordNotGo(line: string)
    requires ' ' !in line
    ensures ParseGo(line) == None
  {
    IndexOfPast(line, "", ' ');
    assert line + "" == line;
  }

  lemma NewGameIsNotGo()
    ensures ParseGo(NewGame) == None
  {
    assert ' ' !in NewGame;
    OneWordNotGo(NewGame);
  }

  lemma PositionFenIsNotGo(fen: string)
    ensures ParseGo(PositionFen(fen)) == None
  {
    assert PositionFen(fen) == "position" + " " + ("fen " + fen);
    NotGo("position", "fen " + fen);
  }

  lemma SetOptionIsNotGo(name: string, value: string)
    ensures ParseGo(SetOption(name, value)) == None
  {
    assert SetOption(name, value) == "setoption" + " " + ("name " + name + " value " + value);
    NotGo("setoption", "name " + name + " value " + value);
  }

  lemma StartposIsNotGo(moves: seq<string>)
    ensures ParseGo(PositionStartpos(moves)) == None
  {
    assert PositionStartpos(moves) == "position" + " " + ("startpos moves " + Join(moves, ' '));
    NotGo("position", "startpos moves " + Join(moves, ' '));
  }

  /** The position string comes back out of a `position fen` line unchanged. */
  lemma FenOfPositionFen(fen: string)
    ensures FenOf(PositionFen(fen)) == Some(fen)
  {
    assert PositionFen(fen)[..13] == "position fen ";
  }

  /** The move list comes back out of a `position startpos moves` line, when no move holds a space. */
  lemma StartposMovesRoundTrip(moves: seq<string>)
    requires |moves| > 0 && forall k :: 0 <= k < |moves| ==> ' ' !in moves[k]
    ensures StartposMovesOf(PositionStartpos(moves)) == Some(moves)
  {
    var line := PositionStartpos(moves);
    assert line[..24] == "position startpos moves ";
    assert line[24..] == Join(moves, ' ');
    SplitJoin(moves, ' ');
  }

  /** How many of the lines an engine reads as `go` commands. */
  function GoCount(lines: seq<string>): (n: nat)
    ensures n <= |lines|
  {
    if |lines| == 0 then 0 else (if ParseGo(lines[0]).Some? then 1 else 0) + GoCount(lines[1..])
  }

  lemma GoCountOfThree(a: string, b: string, c: string)
    requires ParseGo(a).None? && ParseGo(b).None? && ParseGo(c).Some?
    ensures GoCount([a, b, c]) == 1
  {
    assert [a, b, c][1..] == [b, c];
    assert [b, c][1..] == [c];
    assert [c][1..] == [];
    assert GoCount([c]) == 1;
    assert GoCount([b, c]) == 1;
  }

  lemma GoCountOfNone(lines: seq<string>)
    requires |lines| <= 2 && forall k :: 0 <= k < |lines| ==> ParseGo(lines[k]).None?
    ensures GoCount(lines) == 0
  {
    if |lines| > 0 {
      assert |lines[1..]| <= 1;
      if |lines| == 2 {
        assert lines[1..][1..] == [];
      }
    }
  }
}
