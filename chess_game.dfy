/**
 * src/components/ChessGame.jsx: the single-player board against the
 * useSimpleAI hook. chess.js is not modelled: its answers about a position
 * (whose turn, game over, check, the pieces, the FEN) arrive as a Position
 * value, and its answer to a move as a parameter.
 */
module ChessGame {
  import opened Options
  import opened Strings
  import opened SimpleAI

  /** The image table's keys: colour letter then piece letter, lower case. */
  const ImageKeys: set<string> := {"wp", "wr", "wn", "wb", "wq", "wk", "bp", "br", "bn", "bb", "bq", "bk"}

  /** The name of grid cell (i, j): file `'a' + j`, rank `8 - i`. */
  function SquareName(i: int, j: int): (s: string)
    requires 0 <= i < 8 && 0 <= j < 8
  {
    [('a' as int + j) as char] + IntToString(8 - i)
  }

  /** A square name: a file letter a-h then a rank digit 1-8. */
  predicate IsSquare(s: string) {
    |s| == 2 && 'a' <= s[0] <= 'h' && '1' <= s[1] <= '8'
  }

  /** The grid cell a square name denotes, row first. */
  function CellOf(s: string): (c: (int, int))
    requires IsSquare(s)
    ensures 0 <= c.0 < 8 && 0 <= c.1 < 8
  {
    (8 - DigitValue(s[1]), s[0] as int - 'a' as int)
  }

  lemma OneDigit(n: int)
    requires 1 <= n <= 8
    ensures IntToString(n) == [DigitChar(n)]
  {
  }

  /** Every cell has a square name, and the name gives the cell back. */
  lemma CellOfSquareName(i: int, j: int)
    requires 0 <= i < 8 && 0 <= j < 8
    ensures IsSquare(SquareName(i, j)) && CellOf(SquareName(i, j)) == (i, j)
  {
    OneDigit(8 - i);
  }

  /** Every square name is the name of its cell. */
  lemma SquareNameOfCell(s: string)
    requires IsSquare(s)
    ensures SquareName(CellOf(s).0, CellOf(s).1) == s
  {
    OneDigit(DigitValue(s[1]));
  }

  /** Different cells have different names. */
  lemma SquareNameInjective(i: int, j: int, k: int, l: int)
    requires 0 <= i < 8 && 0 <= j < 8 && 0 <= k < 8 && 0 <= l < 8
    requires SquareName(i, j) == SquareName(k, l)
    ensures i == k && j == l
  {
    CellOfSquareName(i, j);
    CellOfSquareName(k, l);
  }

  /** `(color === 'w' ? 'w' : 'b') + type.toUpperCase()` */
  function PieceCode(p: Piece): (code: string)
    ensures |code| == 2 && code[0] == (if p.color == White then 'w' else 'b')
  {
    [if p.color == White then 'w' else 'b', ToUpperAscii(p.kind)]
  }

  /** The lower-cased code of every chess piece is a key of the image table. */
  lemma PieceCodeHasImage(p: Piece)
    requires p.kind in "prnbqk"
    ensures ToLower(PieceCode(p)) in ImageKeys
  {
    var t := ToLower(PieceCode(p));
    assert t == [t[0], t[1]];
    assert t[1] == p.kind;
  }

  /** The name of rendered square `i` (row-major from the top left), board flipped or not. */
  function RenderedSquare(i: int, flipped: bool): (s: string)
    requires 0 <= i < 64
  {
    var file, rank := i % 8, i / 8;
    var actualFile := if flipped then 7 - file else file;
    var actualRank := if flipped then rank + 1 else 8 - rank;
    [('a' as int + actualFile) as char] + IntToString(actualRank)
  }

  /** Unflipped, rendered square `i` is grid cell (i / 8, i % 8). */
  lemma RenderedUnflipped(i: int)
    requires 0 <= i < 64
    ensures RenderedSquare(i, false) == SquareName(i / 8, i % 8)
  {
  }

  /** The flipped board is the half-turn of the normal one: flipped `i` is unflipped `63 - i`. */
  lemma FlipIsHalfTurn(i: int)
    requires 0 <= i < 64
    ensures RenderedSquare(i, true) == RenderedSquare(63 - i, false)
  {
    assert (63 - i) % 8 == 7 - i % 8 && (63 - i) / 8 == 7 - i / 8;
  }

  /** Rendered square `i` in either orientation is a square name. */
  lemma RenderedIsSquare(i: int, flipped: bool)
    requires 0 <= i < 64
    ensures IsSquare(RenderedSquare(i, flipped))
  {
    if flipped {
      FlipIsHalfTurn(i);
      RenderedUnflipped(63 - i);
      CellOfSquareName((63 - i) / 8, (63 - i) % 8);
    } else {
      RenderedUnflipped(i);
      CellOfSquareName(i / 8, i % 8);
    }
  }

  /** The index at which a square is drawn. */
  function RenderIndex(s: string, flipped: bool): (i: int)
    requires IsSquare(s)
    ensures 0 <= i < 64
  {
    var c := CellOf(s);
    if flipped then 63 - (8 * c.0 + c.1) else 8 * c.0 + c.1
  }

  /** A square is drawn at its render index. */
  lemma RenderIndexDraws(s: string, flipped: bool)
    requires IsSquare(s)
    ensures RenderedSquare(RenderIndex(s, flipped), flipped) == s
  {
    var c := CellOf(s);
    var u := 8 * c.0 + c.1;
    assert u / 8 == c.0 && u % 8 == c.1;
    RenderedUnflipped(u);
    SquareNameOfCell(s);
    if flipped {
      FlipIsHalfTurn(63 - u);
    }
  }

  /** Different indices draw different squares. */
  lemma RenderedInjective(i: int, k: int, flipped: bool)
    requires 0 <= i < 64 && 0 <= k < 64
    ensures RenderedSquare(i, flipped) == RenderedSquare(k, flipped) ==> i == k
  {
    if RenderedSquare(i, flipped) == RenderedSquare(k, flipped) {
      var i', k' := if flipped then 63 - i else i, if flipped then 63 - k else k;
      if flipped {
        FlipIsHalfTurn(i);
        FlipIsHalfTurn(k);
      }
      RenderedUnflipped(i');
      RenderedUnflipped(k');
      SquareNameInjective(i' / 8, i' % 8, k' / 8, k' % 8);
      assert i' == 8 * (i' / 8) + i' % 8 && k' == 8 * (k' / 8) + k' % 8;
    }
  }

  /**
   * The 64 rendered squares are the 64 square names, each drawn once:
   * every square is drawn at its index, and different indices draw different squares.
   */
  lemma RenderingIsBijection(s: string, i: int, k: int, flipped: bool)
    requires IsSquare(s) && 0 <= i < 64 && 0 <= k < 64
    ensures RenderedSquare(RenderIndex(s, flipped), flipped) == s
    ensures RenderedSquare(i, flipped) == RenderedSquare(k, flipped) ==> i == k
  {
    RenderIndexDraws(s, flipped);
    RenderedInjective(i, k, flipped);
  }

  /** The file letter of label column `i`, and the rank number of label row `i`. */
  function FileLabel(i: int, flipped: bool): char
    requires 0 <= i < 8
  {
    ('a' as int + (if flipped then 7 - i else i)) as char
  }

  function RankLabel(i: int, flipped: bool): int {
    if flipped then i + 1 else 8 - i
  }

  /** The labels name the squares drawn beside them: column c shows its file, row r its rank. */
  lemma LabelsMatchSquares(r: int, c: int, flipped: bool)
    requires 0 <= r < 8 && 0 <= c < 8
    ensures RenderedSquare(8 * r + c, flipped)[0] == FileLabel(c, flipped)
    ensures RenderedSquare(8 * r + c, flipped)[1..] == IntToString(RankLabel(r, flipped))
  {
    assert (8 * r + c) % 8 == c && (8 * r + c) / 8 == r;
  }

  /** The pieces of a position as drawn: square name to piece code, over the 8x8 grid. */
  method BoardPieces(occupant: map<string, Piece>) returns (pieces: map<string, string>)
    ensures forall s :: s in pieces <==> s in occupant && IsSquare(s)
    ensures forall s :: s in pieces ==> pieces[s] == PieceCode(occupant[s])
  {
    pieces := map[];
    var i := 0;
    while i < 8
      invariant 0 <= i <= 8
      invariant forall s :: s in pieces <==> s in occupant && IsSquare(s) && CellOf(s).0 < i
      invariant forall s :: s in pieces ==> pieces[s] == PieceCode(occupant[s])
    {
      var j := 0;
      while j < 8
        invariant 0 <= j <= 8
        invariant forall s :: s in pieces <==> (s in occupant && IsSquare(s)
          && (CellOf(s).0 < i || (CellOf(s).0 == i && CellOf(s).1 < j)))
        invariant forall s :: s in pieces ==> pieces[s] == PieceCode(occupant[s])
      {
        var square := SquareName(i, j);
        CellOfSquareName(i, j);
        forall s | IsSquare(s) && CellOf(s) == (i, j)
          ensures s == square
        {
          SquareNameOfCell(s);
        }
        if square in occupant {
          pieces := pieces[square := PieceCode(occupant[square])];
        }
        j := j + 1;
      }
      i := i + 1;
    }
  }

  /** What chess.js reports about a position. */
  datatype Position = Position(
    fen: string,
    whiteToMove: bool,
    gameOver: bool,
    checkmate: bool,
    draw: bool,
    stalemate: bool,
    repetition: bool,
    insufficient: bool,
    check: bool,
    occupant: map<string, Piece>,
    historyLength: nat)

  /** `game.turn()` */
  function Turn(p: Position): char {
    if p.whiteToMove then 'w' else 'b'
  }

  /** `playerColor` after the colour effect; None is undefined (no prop given). */
  type ColorProp = Option<string>

  /** The colour effect: `'random'` tosses `coin`, anything else is taken as given. */
  function ActualColor(prop: ColorProp, coin: real): (c: ColorProp)
    ensures prop == Some("random") ==> c == Some("white") || c == Some("black")
    ensures prop != Some("random") ==> c == prop
  {
    if prop == Some("random") then Some(if coin > 0.5 then "white" else "black") else prop
  }

  /** The player's colour letter: `'w'` only for `'white'`. */
  function PlayerCode(c: ColorProp): char {
    if c == Some("white") then 'w' else 'b'
  }

  /** The engine's colour letter. */
  function AiCode(c: ColorProp): char {
    if c == Some("white") then 'b' else 'w'
  }

  /** The player and the engine always play opposite colours. */
  lemma SidesDiffer(c: ColorProp)
    ensures PlayerCode(c) != AiCode(c) && {PlayerCode(c), AiCode(c)} == {'w', 'b'}
  {
  }

  /** The board is drawn flipped exactly for `'black'`. */
  predicate Flipped(c: ColorProp) {
    c == Some("black")
  }

  /** The side that wins by checkmate in a position: the side not to move. */
  function Winner(p: Position): string {
    if Turn(p) == 'w' then "Black" else "White"
  }

  /** How a finished game is recorded. */
  datatype Outcome = PlayerWin | AiWin | Draw | Unfinished

  function OutcomeOf(p: Position, c: ColorProp): (o: Outcome)
    ensures o == PlayerWin <==> p.gameOver && p.checkmate && Winner(p) == (if c == Some("white") then "White" else "Black")
    ensures o == AiWin <==> p.gameOver && p.checkmate && Winner(p) != (if c == Some("white") then "White" else "Black")
    ensures o == Draw <==> p.gameOver && !p.checkmate && p.draw
  {
    if !p.gameOver then Unfinished
    else if p.checkmate then
      if Winner(p) == (if c == Some("white") then "White" else "Black") then PlayerWin else AiWin
    else if p.draw then Draw
    else Unfinished
  }

  /** The status line `updateGameStatus` shows. */
  function StatusText(p: Position): string {
    if p.gameOver then
      if p.checkmate then "🎉 Checkmate! " + Winner(p) + " wins!"
      else if p.draw then
        if p.stalemate then "🤝 Draw by stalemate"
        else if p.repetition then "🤝 Draw by repetition"
        else if p.insufficient then "🤝 Draw by insufficient material"
        else "🤝 Draw"
      else ""
    else if p.check then "⚠️ " + (if Turn(p) == 'w' then "White" else "Black") + " is in check"
    else (if Turn(p) == 'w' then "White" else "Black") + " to move"
  }

  /** The win/draw record. */
  datatype Stats = Stats(playerWins: int, aiWins: int, draws: int, totalGames: int)

  const DefaultStats := Stats(0, 0, 0, 0)

  /** The total is the sum of its parts. */
  predicate Balanced(s: Stats) {
    s.totalGames == s.playerWins + s.aiWins + s.draws
  }

  /** Recording an outcome: one counter and the total go up together, or nothing changes. */
  function Record(s: Stats, o: Outcome): (t: Stats)
    ensures o == Unfinished ==> t == s
    ensures o != Unfinished ==> (t.totalGames == s.totalGames + 1
      && (t.playerWins - s.playerWins) + (t.aiWins - s.aiWins) + (t.draws - s.draws) == 1
      && t.playerWins >= s.playerWins && t.aiWins >= s.aiWins && t.draws >= s.draws)
  {
    match o
    case PlayerWin => s.(playerWins := s.playerWins + 1, totalGames := s.totalGames + 1)
    case AiWin => s.(aiWins := s.aiWins + 1, totalGames := s.totalGames + 1)
    case Draw => s.(draws := s.draws + 1, totalGames := s.totalGames + 1)
    case Unfinished => s
  }

  /** Recording keeps a balanced record balanced; the default record is balanced. */
  lemma RecordKeepsBalance(s: Stats, o: Outcome)
    ensures Balanced(s) ==> Balanced(Record(s, o))
    ensures Balanced(DefaultStats)
  {
  }

  /** `handleDragStart` and `handleDrop`: a piece of the player's colour, on the player's turn. */
  predicate MayMoveFrom(pieces: map<string, string>, square: string, c: ColorProp, p: Position) {
    square in pieces && |pieces[square]| > 0 && pieces[square][0] == PlayerCode(c) && Turn(p) == PlayerCode(c)
  }

  /** The drop guard also needs a non-empty source square. */
  predicate DropAllowed(pieces: map<string, string>, from: string, c: ColorProp, p: Position) {
    from != "" && MayMoveFrom(pieces, from, c, p)
  }

  /** Nothing can be moved when it is the engine's turn. */
  lemma NoMoveOnEngineTurn(pieces: map<string, string>, square: string, c: ColorProp, p: Position)
    requires Turn(p) == AiCode(c)
    ensures !MayMoveFrom(pieces, square, c, p) && !DropAllowed(pieces, square, c, p)
  {
  }

  /** A drawn piece of the board is draggable exactly when a drop from its square is allowed. */
  lemma DropGuardIsDragGuard(pieces: map<string, string>, s: string, c: ColorProp, p: Position)
    requires IsSquare(s)
    ensures DropAllowed(pieces, s, c, p) <==> MayMoveFrom(pieces, s, c, p)
  {
  }

  /** After a player move: ask the engine only on its turn, in a live game, when it is ready. */
  predicate ShouldRequestAI(after: Position, c: ColorProp, engineReady: bool) {
    Turn(after) == AiCode(c) && !after.gameOver && engineReady
  }

  /** The engine's move is applied only when there is one, on its turn, in a live game. */
  predicate AppliesAIMove(bestMove: Option<string>, p: Position, c: ColorProp) {
    bestMove.Some? && bestMove.value != "" && Turn(p) == AiCode(c) && !p.gameOver
  }

  /** `Math.ceil(n / 2)`: full move number after `n` half-moves. */
  function MoveNumber(n: nat): (m: nat)
    ensures 2 * m == n || 2 * m == n + 1
  {
    (n + 1) / 2
  }

  /** A move history entry. */
  datatype Entry = Entry(san: string, from: string, to: string, fen: string, moveNumber: nat, isAI: bool)

  /** chess.js's answer to a move: the move made, or nothing (an illegal move, returned null or thrown). */
  datatype Moved = Moved(san: string, from: string, to: string) | Refused | Threw

  /**
   * With the `playerColor` prop missing, as the app renders this component,
   * the player holds black and the engine white; at a position with White to
   * move the player can move nothing and the engine is not asked by a
   * player move, so the game cannot begin.
   */
  lemma MissingColorStalls(pieces: map<string, string>, square: string, p: Position)
    requires p.whiteToMove
    ensures PlayerCode(None) == 'b' && AiCode(None) == 'w' && !Flipped(None)
    ensures !MayMoveFrom(pieces, square, None, p)
  {
  }

  class Game {
    /** The hook this component uses. */
    const ai: SimpleAI.Hook
    /** The `playerColor` prop and the colour its effect resolved at mount; nothing else sets either. */
    const colorProp: ColorProp
    const actualColor: ColorProp
    /** What chess.js reports about the game shown. */
    var position: Position
    var pieces: map<string, string>
    var status: string
    var stats: Stats
    var history: seq<Entry>
    var lastMoveFrom: Option<string>
    var lastMoveTo: Option<string>
    var draggedFrom: Option<string>
    var showNewGameConfirm: bool
    /** The positions handed to `getBestMove` by a timer, oldest first. */
    var scheduled: seq<string>

    /** Mount: the saved record or the default one, and the colour effect's choice. */
    constructor(ai: SimpleAI.Hook, colorProp: ColorProp, coin: real, saved: Option<Stats>, start: Position)
      ensures this.ai == ai && this.colorProp == colorProp && actualColor == ActualColor(colorProp, coin)
      ensures position == start && pieces == map[] && status == "" && history == []
      ensures stats == (if saved.Some? then saved.value else DefaultStats)
      ensures lastMoveFrom.None? && lastMoveTo.None? && draggedFrom.None? && !showNewGameConfirm && scheduled == []
    {
      this.ai := ai;
      this.colorProp := colorProp;
      actualColor := ActualColor(colorProp, coin);
      position := start;
      pieces := map[];
      status := "";
      stats := if saved.Some? then saved.value else DefaultStats;
      history := [];
      lastMoveFrom, lastMoveTo, draggedFrom := None, None, None;
      showNewGameConfirm := false;
      scheduled := [];
    }

    /** The board and the status line draw position `p`. */
    ghost predicate Shows(p: Position)
      reads this
    {
      (forall s :: s in pieces <==> s in p.occupant && IsSquare(s))
      && (forall s :: s in pieces ==> pieces[s] == PieceCode(p.occupant[s]))
      && status == StatusText(p)
    }

    /** Nothing the board shows or records has changed. */
    twostate predicate BoardKept()
      reads this
    {
      position == old(position) && history == old(history) && scheduled == old(scheduled)
      && pieces == old(pieces) && status == old(status) && stats == old(stats)
      && lastMoveFrom == old(lastMoveFrom) && lastMoveTo == old(lastMoveTo)
    }

    /** A move (the engine's when `isAI`) was made, entered in the history, drawn and counted. */
    twostate predicate MoveRecorded(from: string, to: string, san: string, after: Position, isAI: bool)
      reads this
    {
      position == after && lastMoveFrom == Some(from) && lastMoveTo == Some(to)
      && history == old(history) + [Entry(san, from, to, after.fen, MoveNumber(after.historyLength), isAI)]
      && stats == Record(old(stats), OutcomeOf(after, actualColor)) && Shows(after)
    }

    /** `updateGameStatus(p)`: the status line, and the outcome recorded. */
    method UpdateGameStatus(p: Position)
      modifies this
      ensures status == StatusText(p) && stats == Record(old(stats), OutcomeOf(p, actualColor))
      ensures pieces == old(pieces) && position == old(position) && history == old(history)
      ensures lastMoveFrom == old(lastMoveFrom) && lastMoveTo == old(lastMoveTo) && draggedFrom == old(draggedFrom)
      ensures showNewGameConfirm == old(showNewGameConfirm) && scheduled == old(scheduled)
    {
      var outcome := OutcomeOf(p, actualColor);
      status := StatusText(p);
      stats := Record(stats, outcome);
    }

    /** `updateBoardState(p)`: the pieces of `p` by square name, then its status. */
    method UpdateBoardState(p: Position)
      modifies this
      ensures forall s :: s in pieces <==> s in p.occupant && IsSquare(s)
      ensures forall s :: s in pieces ==> pieces[s] == PieceCode(p.occupant[s])
      ensures status == StatusText(p) && stats == Record(old(stats), OutcomeOf(p, actualColor))
      ensures position == old(position) && history == old(history)
      ensures lastMoveFrom == old(lastMoveFrom) && lastMoveTo == old(lastMoveTo) && draggedFrom == old(draggedFrom)
      ensures showNewGameConfirm == old(showNewGameConfirm) && scheduled == old(scheduled)
    {
      var newPieces := BoardPieces(p.occupant);
      pieces := newPieces;
      UpdateGameStatus(p);
    }

    /** `handleDragStart(square)`: whether the drag starts. */
    method DragStart(square: string) returns (started: bool)
      modifies this
      ensures started == MayMoveFrom(pieces, square, actualColor, position)
      ensures draggedFrom == (if started then Some(square) else old(draggedFrom))
      ensures pieces == old(pieces) && position == old(position) && history == old(history) && stats == old(stats)
      ensures status == old(status) && lastMoveFrom == old(lastMoveFrom) && lastMoveTo == old(lastMoveTo)
      ensures showNewGameConfirm == old(showNewGameConfirm) && scheduled == old(scheduled)
    {
      started := MayMoveFrom(pieces, square, actualColor, position);
      if started {
        draggedFrom := Some(square);
      }
    }

    /**
     * `makeMove(from, to)`: with the move chess.js made and the position after
     * it, record the move, redraw, and schedule the engine's reply when due.
     */
    method MakeMove(from: string, to: string, result: Moved, after: Position)
      modifies this
      ensures !result.Moved? ==> BoardKept()
      ensures result.Moved? ==> (MoveRecorded(from, to, result.san, after, false)
        && scheduled == old(scheduled) + (if ShouldRequestAI(after, actualColor, ai.ready) then [after.fen] else []))
      ensures draggedFrom == old(draggedFrom) && showNewGameConfirm == old(showNewGameConfirm)
    {
      if !result.Moved? {
        return;
      }
      lastMoveFrom, lastMoveTo := Some(from), Some(to);
      position := after;
      history := history + [Entry(result.san, from, to, after.fen, MoveNumber(after.historyLength), false)];
      UpdateBoardState(after);
      if ShouldRequestAI(after, actualColor, ai.ready) {
        scheduled := scheduled + [after.fen];
      }
    }

    /** `handleDrop(toSquare)`: a guarded `makeMove` from the dragged square; the drag ends either way. */
    method Drop(from: string, to: string, result: Moved, after: Position)
      modifies this
      ensures !(DropAllowed(old(pieces), from, actualColor, old(position)) && result.Moved?) ==> BoardKept()
      ensures DropAllowed(old(pieces), from, actualColor, old(position)) && result.Moved? ==>
        (MoveRecorded(from, to, result.san, after, false)
        && scheduled == old(scheduled) + (if ShouldRequestAI(after, actualColor, ai.ready) then [after.fen] else []))
      ensures draggedFrom.None? && showNewGameConfirm == old(showNewGameConfirm)
    {
      if DropAllowed(pieces, from, actualColor, position) {
        MakeMove(from, to, result, after);
      }
      draggedFrom := None;
    }

    /**
     * The engine-move effect: when it applies, the hook's move is played
     * (with chess.js's answer `result` and the position after it), and the
     * hook's move is cleared whatever chess.js answered.
     */
    method ApplyAIMove(result: Moved, after: Position)
      modifies this, ai
      ensures !AppliesAIMove(old(ai.bestMove), old(position), actualColor) ==> ai.bestMove == old(ai.bestMove) && BoardKept()
      ensures AppliesAIMove(old(ai.bestMove), old(position), actualColor) ==> ai.bestMove.None?
      ensures AppliesAIMove(old(ai.bestMove), old(position), actualColor) && result.Moved? ==>
        MoveRecorded(result.from, result.to, result.san, after, true)
      ensures AppliesAIMove(old(ai.bestMove), old(position), actualColor) && !result.Moved? ==> BoardKept()
      ensures ai.ready == old(ai.ready) && ai.thinking == old(ai.thinking)
      ensures ai.requests == old(ai.requests) && ai.phase == old(ai.phase) && ai.readyTimerPending == old(ai.readyTimerPending)
      ensures scheduled == old(scheduled)
      ensures draggedFrom == old(draggedFrom) && showNewGameConfirm == old(showNewGameConfirm)
    {
      if !AppliesAIMove(ai.bestMove, position, actualColor) {
        return;
      }
      if result.Moved? {
        lastMoveFrom, lastMoveTo := Some(result.from), Some(result.to);
        history := history + [Entry(result.san, result.from, result.to, after.fen, MoveNumber(after.historyLength), true)];
        position := after;
        UpdateBoardState(after);
      }
      ai.SetBestMove(None);
    }

    /**
     * A new game from `start` began: drawn and scored, no history and no
     * last move, the hook reset, and the engine asked to open when the player
     * is black; the drag and the hook's readiness, requests and timer stay.
     */
    twostate predicate NewGameStarted(start: Position)
      reads this, ai
    {
      position == start && history == [] && lastMoveFrom.None? && lastMoveTo.None?
      && Shows(start) && stats == Record(old(stats), OutcomeOf(start, actualColor))
      && ai.bestMove.None? && !ai.thinking && ai.ready == old(ai.ready)
      && ai.requests == old(ai.requests) && ai.phase == old(ai.phase) && ai.readyTimerPending == old(ai.readyTimerPending)
      && scheduled == old(scheduled) + (if actualColor == Some("black") && ai.ready then [start.fen] else [])
      && draggedFrom == old(draggedFrom)
    }

    /** `startNewGame`: the start position, an empty history, the hook reset, and the engine asked to open as white. */
    method StartNewGame(start: Position)
      modifies this, ai
      ensures NewGameStarted(start)
      ensures showNewGameConfirm == old(showNewGameConfirm)
    {
      position := start;
      lastMoveFrom, lastMoveTo := None, None;
      history := [];
      UpdateBoardState(start);
      ai.ResetAI();
      if actualColor == Some("black") && ai.ready {
        scheduled := scheduled + [start.fen];
      }
    }

    /** New Game: straight away when no move was made, otherwise ask first. */
    method NewGameClick(start: Position)
      modifies this, ai
      ensures old(history) == [] ==> NewGameStarted(start) && showNewGameConfirm == old(showNewGameConfirm)
      ensures old(history) != [] ==> (showNewGameConfirm && BoardKept() && draggedFrom == old(draggedFrom)
        && ai.bestMove == old(ai.bestMove) && ai.thinking == old(ai.thinking) && ai.ready == old(ai.ready)
        && ai.requests == old(ai.requests) && ai.phase == old(ai.phase) && ai.readyTimerPending == old(ai.readyTimerPending))
    {
      if |history| == 0 {
        StartNewGame(start);
      } else {
        showNewGameConfirm := true;
      }
    }

    method ConfirmNewGame(start: Position)
      modifies this, ai
      ensures !showNewGameConfirm && NewGameStarted(start)
    {
      showNewGameConfirm := false;
      StartNewGame(start);
    }

    method CancelNewGame()
      modifies this
      ensures !showNewGameConfirm && BoardKept() && draggedFrom == old(draggedFrom)
    {
      showNewGameConfirm := false;
    }

    /** `resetGameStats`: back to the default record. */
    method ResetGameStats()
      modifies this
      ensures stats == DefaultStats && Balanced(stats)
      ensures position == old(position) && history == old(history) && pieces == old(pieces) && status == old(status)
      ensures lastMoveFrom == old(lastMoveFrom) && lastMoveTo == old(lastMoveTo) && scheduled == old(scheduled)
      ensures draggedFrom == old(draggedFrom) && showNewGameConfirm == old(showNewGameConfirm)
    {
      stats := DefaultStats;
    }
  }
}
