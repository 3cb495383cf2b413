/**
 * src/components/MultiplayerChess.jsx: two players on one board, White by
 * dragging pieces and Black by typing moves. chess.js is not modelled: its
 * answers arrive as parameters (see ChessGame.Position).
 */
module Multiplayer {
  import opened Options
  import opened Strings
  import ChessGame

  /** A move typed as "from-to", with the promotion piece chess.js is given. */
  datatype FromTo = FromTo(from: string, to: string, promotion: char)

  /** The promotion letters the pattern accepts. */
  predicate IsPromotionLetter(c: char) {
    c in "qrbnQRBN"
  }

  /**
   * `/^([a-h][1-8])-([a-h][1-8])([qrbnQRBN]?)$/`, with the promotion
   * lower-cased and `'q'` when none is given.
   */
  function ParseFromTo(s: string): (r: Option<FromTo>)
    ensures r.Some? ==> ChessGame.IsSquare(r.value.from) && ChessGame.IsSquare(r.value.to) && r.value.promotion in "qrbn"
  {
    if (|s| == 5 || (|s| == 6 && IsPromotionLetter(s[5]))) && ChessGame.IsSquare(s[..2]) && s[2] == '-' && ChessGame.IsSquare(s[3..5]) then
      Some(FromTo(s[..2], s[3..5], if |s| == 6 then ToLowerAscii(s[5]) else 'q'))
    else None
  }

  /** The text a player types for a from-to move, with an optional promotion letter. */
  function FromToText(from: string, to: string, promotion: Option<char>): string {
    from + "-" + to + (if promotion.Some? then [promotion.value] else "")
  }

  /** Every from-to text is read back: squares as typed, promotion lower-cased, queen by default. */
  lemma ParseFromToText(from: string, to: string, promotion: Option<char>)
    requires ChessGame.IsSquare(from) && ChessGame.IsSquare(to)
    requires promotion.Some? ==> IsPromotionLetter(promotion.value)
    ensures ParseFromTo(FromToText(from, to, promotion))
      == Some(FromTo(from, to, if promotion.Some? then ToLowerAscii(promotion.value) else 'q'))
  {
    var s := FromToText(from, to, promotion);
    assert s[..2] == from && s[3..5] == to;
  }

  /** Every accepted text is a from-to text: the pattern accepts nothing else. */
  lemma ParseFromToOnlyText(s: string)
    requires ParseFromTo(s).Some?
    ensures var m := ParseFromTo(s).value;
      exists p: Option<char> :: (p.Some? ==> IsPromotionLetter(p.value)) && s == FromToText(m.from, m.to, p)
  {
    var m := ParseFromTo(s).value;
    if |s| == 5 {
      assert s == FromToText(m.from, m.to, None);
    } else {
      assert s == FromToText(m.from, m.to, Some(s[5]));
    }
  }

  /** A move chess.js made: its SAN, colour letter and squares. */
  datatype Made = Made(san: string, color: char, from: string, to: string)

  /** chess.js's answer to `game.move(...)`: a move, null, or a thrown error. */
  datatype Answer = Played(move: Made) | Null | Thrown

  /** A move history entry. */
  datatype Entry = Entry(moveNumber: nat, san: string, color: char, from: string, to: string)

  /** The number shown before a history entry: only for White's moves. */
  function MoveLabel(e: Entry): (shown: string)
    ensures shown != "" <==> e.color == 'w'
  {
    if e.color == 'w' then IntToString(e.moveNumber) + "." else ""
  }

  /** `moveHistory.slice(-8)`: the last eight entries, or all of them. */
  function RecentMoves(history: seq<Entry>): (recent: seq<Entry>)
    ensures |recent| == if |history| < 8 then |history| else 8
    ensures recent == history[|history| - |recent|..]
  {
    if |history| < 8 then history else history[|history| - 8..]
  }

  /** The record of White/Black/draw results. */
  datatype Stats = Stats(whiteWins: int, blackWins: int, draws: int, totalGames: int)

  const DefaultStats := Stats(0, 0, 0, 0)

  predicate Balanced(s: Stats) {
    s.totalGames == s.whiteWins + s.blackWins + s.draws
  }

  /** `updateGameStatus`'s record update: the side not to move wins a checkmate. */
  function Record(s: Stats, p: ChessGame.Position): (t: Stats)
    ensures !p.gameOver || (!p.checkmate && !p.draw) ==> t == s
    ensures p.gameOver && p.checkmate && p.whiteToMove ==> t == s.(blackWins := s.blackWins + 1, totalGames := s.totalGames + 1)
    ensures p.gameOver && p.checkmate && !p.whiteToMove ==> t == s.(whiteWins := s.whiteWins + 1, totalGames := s.totalGames + 1)
    ensures p.gameOver && !p.checkmate && p.draw ==> t == s.(draws := s.draws + 1, totalGames := s.totalGames + 1)
  {
    if !p.gameOver then s
    else if p.checkmate then
      if ChessGame.Winner(p) == "White" then s.(whiteWins := s.whiteWins + 1, totalGames := s.totalGames + 1)
      else s.(blackWins := s.blackWins + 1, totalGames := s.totalGames + 1)
    else if p.draw then s.(draws := s.draws + 1, totalGames := s.totalGames + 1)
    else s
  }

  /** Recording keeps the total equal to the sum of the parts, from the default record on. */
  lemma RecordKeepsBalance(s: Stats, p: ChessGame.Position)
    ensures Balanced(s) ==> Balanced(Record(s, p))
    ensures Balanced(DefaultStats)
  {
  }

  /** `handleDragStart`: only a white piece, only on White's turn. */
  predicate MayDrag(pieces: map<string, string>, square: string, p: ChessGame.Position) {
    square in pieces && pieces[square] != "" && pieces[square][0] == 'w' && ChessGame.Turn(p) == 'w'
  }

  /** Black's pieces can never be dragged, and nothing can be dragged on Black's turn. */
  lemma DragIsWhiteOnly(pieces: map<string, string>, square: string, p: ChessGame.Position)
    ensures MayDrag(pieces, square, p) ==> pieces[square][0] == 'w' && p.whiteToMove
  {
  }

  class Game {
    var position: ChessGame.Position
    var pieces: map<string, string>
    var status: string
    var moveInput: string
    var history: seq<Entry>
    var stats: Stats
    var dragged: Option<string>
    var validMoves: seq<string>

    /** Mount: the start position drawn, an empty record. */
    constructor(start: ChessGame.Position)
      ensures position == start && moveInput == "" && history == [] && dragged.None? && validMoves == []
      ensures Shows(start) && stats == Record(DefaultStats, start)
    {
      position := start;
      pieces := map[];
      status := "";
      moveInput := "";
      history := [];
      stats := DefaultStats;
      dragged := None;
      validMoves := [];
      new;
      UpdateBoardState();
    }

    /** The board and the status line draw position `p`. */
    ghost predicate Shows(p: ChessGame.Position)
      reads this
    {
      (forall s :: s in pieces <==> s in p.occupant && ChessGame.IsSquare(s))
      && (forall s :: s in pieces ==> pieces[s] == ChessGame.PieceCode(p.occupant[s]))
      && status == ChessGame.StatusText(p)
    }

    /** Nothing the board shows or records has changed. */
    twostate predicate BoardKept()
      reads this
    {
      position == old(position) && pieces == old(pieces) && status == old(status)
      && stats == old(stats) && history == old(history)
    }

    /** Move `m` was made, leading to `after`: entered in the history, drawn and scored. */
    twostate predicate MoveRecorded(m: Made, after: ChessGame.Position)
      reads this
    {
      position == after && Shows(after) && stats == Record(old(stats), after)
      && history == old(history) + [Entry(ChessGame.MoveNumber(after.historyLength), m.san, m.color, m.from, m.to)]
    }

    /** `updateBoardState`: redraw and re-score the position chess.js holds. */
    method UpdateBoardState()
      modifies this
      ensures forall s :: s in pieces <==> s in position.occupant && ChessGame.IsSquare(s)
      ensures forall s :: s in pieces ==> pieces[s] == ChessGame.PieceCode(position.occupant[s])
      ensures status == ChessGame.StatusText(position) && stats == Record(old(stats), position)
      ensures position == old(position) && moveInput == old(moveInput) && history == old(history)
      ensures dragged == old(dragged) && validMoves == old(validMoves)
    {
      var newPieces := ChessGame.BoardPieces(position.occupant);
      pieces := newPieces;
      status := ChessGame.StatusText(position);
      stats := Record(stats, position);
    }

    /** A move chess.js made: the game moves on, is redrawn and the move is recorded. */
    method Played(m: Made, after: ChessGame.Position)
      modifies this
      ensures MoveRecorded(m, after)
      ensures moveInput == old(moveInput) && dragged == old(dragged) && validMoves == old(validMoves)
    {
      position := after;
      UpdateBoardState();
      history := history + [Entry(ChessGame.MoveNumber(after.historyLength), m.san, m.color, m.from, m.to)];
    }

    /**
     * `makeMove(text)`: SAN first; only when chess.js throws on it is the
     * text read as a from-to move, whose object `fromTo` answers.
     */
    method MakeMove(text: string, san: Answer, fromTo: Answer, after: ChessGame.Position) returns (ok: bool, tried: Option<FromTo>)
      modifies this
      ensures tried == (if san.Thrown? then ParseFromTo(text) else None)
      ensures ok <==> san.Played? || (tried.Some? && fromTo.Played?)
      ensures ok ==> MoveRecorded(if san.Played? then san.move else fromTo.move, after) && moveInput == ""
      ensures !ok ==> BoardKept() && moveInput == old(moveInput)
      ensures dragged == old(dragged) && validMoves == old(validMoves)
    {
      var answer := san;
      tried := None;
      if san.Thrown? {
        tried := ParseFromTo(text);
        if tried.None? {
          return false, tried;
        }
        answer := fromTo;
      }
      if answer.Played? {
        Played(answer.move, after);
        moveInput := "";
        return true, tried;
      }
      return false, tried;
    }

    /** Typing into the move field. */
    method SetMoveInput(text: string)
      modifies this
      ensures moveInput == text && position == old(position) && history == old(history) && stats == old(stats)
      ensures pieces == old(pieces) && status == old(status) && dragged == old(dragged) && validMoves == old(validMoves)
    {
      moveInput := text;
    }

    /** `handleMoveSubmit`: the trimmed input, only on Black's turn, only when non-empty. */
    method SubmitMove(san: Answer, fromTo: Answer, after: ChessGame.Position) returns (ok: bool)
      modifies this
      ensures ChessGame.Turn(old(position)) != 'b' || Trim(old(moveInput)) == "" ==> !ok
      ensures ChessGame.Turn(old(position)) == 'b' && Trim(old(moveInput)) != "" ==>
        (ok <==> san.Played? || (san.Thrown? && ParseFromTo(Trim(old(moveInput))).Some? && fromTo.Played?))
      ensures ok ==> MoveRecorded(if san.Played? then san.move else fromTo.move, after) && moveInput == ""
      ensures !ok ==> BoardKept() && moveInput == old(moveInput)
      ensures dragged == old(dragged) && validMoves == old(validMoves)
    {
      var move := Trim(moveInput);
      if ChessGame.Turn(position) != 'b' {
        return false;
      }
      ok := false;
      if move != "" {
        var tried;
        ok, tried := MakeMove(move, san, fromTo, after);
      }
    }

    /** `handleDragStart(square)`: chess.js's target squares for it become the valid moves. */
    method DragStart(square: string, targets: seq<string>) returns (started: bool)
      modifies this
      ensures started == MayDrag(pieces, square, position)
      ensures started ==> dragged == Some(square) && validMoves == targets
      ensures !started ==> dragged == old(dragged) && validMoves == old(validMoves)
      ensures position == old(position) && history == old(history) && stats == old(stats) && pieces == old(pieces)
      ensures status == old(status) && moveInput == old(moveInput)
    {
      started := MayDrag(pieces, square, position);
      if started {
        dragged := Some(square);
        validMoves := targets;
      }
    }

    /** `handleDrop(target)`: the dragged piece's move, if any; the drag ends. */
    method Drop(target: string, answer: Answer, after: ChessGame.Position)
      modifies this
      ensures old(dragged).None? ==> dragged.None? && validMoves == old(validMoves)
      ensures old(dragged).Some? ==> dragged.None? && validMoves == []
      ensures old(dragged).Some? && answer.Played? ==> MoveRecorded(answer.move, after)
      ensures !(old(dragged).Some? && answer.Played?) ==> BoardKept()
      ensures moveInput == old(moveInput)
    {
      if dragged.None? {
        return;
      }
      if answer.Played? {
        Played(answer.move, after);
      }
      dragged := None;
      validMoves := [];
    }

    method DragEnd()
      modifies this
      ensures dragged.None? && validMoves == []
      ensures position == old(position) && history == old(history) && stats == old(stats) && moveInput == old(moveInput)
      ensures pieces == old(pieces) && status == old(status)
    {
      dragged := None;
      validMoves := [];
    }

    /**
     * `startNewGame`: history and input cleared, and the game reset to
     * `start`; but the redraw reads the position of the closure, the one
     * before the reset, so the board and status still show the old game.
     */
    method StartNewGame(start: ChessGame.Position)
      modifies this
      ensures position == start && history == [] && moveInput == ""
      ensures Shows(old(position)) && stats == Record(old(stats), old(position))
      ensures dragged == old(dragged) && validMoves == old(validMoves)
    {
      history := [];
      moveInput := "";
      UpdateBoardState();
      position := start;
    }
  }

  /**
   * As written, New Game after a checkmate scores the finished game again:
   * the redraw of the old position records one more game.
   */
  lemma NewGameAfterMateCountsAgain(s: Stats, finished: ChessGame.Position)
    requires finished.gameOver && finished.checkmate
    ensures Record(s, finished).totalGames == s.totalGames + 1
  {
  }
}
