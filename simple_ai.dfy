/**
 * src/useSimpleAI.js: ask a backend service for a move, and fall back to a
 * material-counting search when it gives none.
 */
module SimpleAI {
  import opened Options

  datatype Color = White | Black

  /** A piece of `game.board()`: its type letter and colour. */
  datatype Piece = Piece(kind: char, color: Color)

  /** A board as `game.board()` returns it: rows of squares, empty squares None. */
  type Board = seq<seq<Option<Piece>>>

  /** `pieces[piece.type] || 0` */
  function PieceValue(kind: char): (v: int)
    ensures 0 <= v <= 9
    ensures kind !in {'p', 'r', 'n', 'b', 'q'} ==> v == 0
  {
    match kind
    case 'p' => 1
    case 'r' => 5
    case 'n' => 3
    case 'b' => 3
    case 'q' => 9
    case 'k' => 0
    case _ => 0
  }

  /** `board[i][j]`, which is undefined (no piece) outside the board. */
  function SquareAt(board: Board, i: int, j: int): Option<Piece> {
    if 0 <= i < |board| && 0 <= j < |board[i]| then board[i][j] else None
  }

  /** What one square adds to the score: its value for White, minus it for Black. */
  function Contribution(sq: Option<Piece>): int {
    match sq
    case None => 0
    case Some(p) => if p.color == White then PieceValue(p.kind) else -PieceValue(p.kind)
  }

  /** The contributions of the first `n` squares of row `i`. */
  function RowScore(board: Board, i: int, n: nat): int {
    if n == 0 then 0 else RowScore(board, i, n - 1) + Contribution(SquareAt(board, i, n - 1))
  }

  /** The contributions of the first `m` rows, eight squares each. */
  function RowsScore(board: Board, m: nat): int {
    if m == 0 then 0 else RowsScore(board, m - 1) + RowScore(board, m - 1, 8)
  }

  /** The material balance of the 8x8 board, White positive. */
  function MaterialScore(board: Board): int {
    RowsScore(board, 8)
  }

  /** `evaluatePosition`: the two nested loops over the 8x8 squares. */
  method EvaluatePosition(board: Board) returns (score: int)
    ensures score == MaterialScore(board)
  {
    score := 0;
    var i := 0;
    while i < 8
      invariant 0 <= i <= 8
      invariant score == RowsScore(board, i)
    {
      var j := 0;
      while j < 8
        invariant 0 <= j <= 8
        invariant score == RowsScore(board, i) + RowScore(board, i, j)
      {
        var piece := SquareAt(board, i, j);
        if piece.Some? {
          var value := PieceValue(piece.value.kind);
          score := score + (if piece.value.color == White then value else -value);
        }
        j := j + 1;
      }
      i := i + 1;
    }
  }

  /** The board with every piece's colour swapped. */
  function Swapped(board: Board): (b: Board)
    ensures |b| == |board| && forall i :: 0 <= i < |b| ==> |b[i]| == |board[i]|
  {
    seq(|board|, i requires 0 <= i < |board| =>
      seq(|board[i]|, j requires 0 <= j < |board[i]| =>
        match board[i][j]
        case None => None
        case Some(p) => Some(Piece(p.kind, if p.color == White then Black else White))))
  }

  lemma {:induction false} RowScoreSwapped(board: Board, i: int, n: nat)
    ensures RowScore(Swapped(board), i, n) == -RowScore(board, i, n)
  {
    if n > 0 {
      RowScoreSwapped(board, i, n - 1);
    }
  }

  lemma {:induction false} RowsScoreSwapped(board: Board, m: nat)
    ensures RowsScore(Swapped(board), m) == -RowsScore(board, m)
  {
    if m > 0 {
      RowsScoreSwapped(board, m - 1);
      RowScoreSwapped(board, m - 1, 8);
    }
  }

  /** The evaluation is antisymmetric: swapping the colours negates it. */
  lemma MaterialScoreSwapped(board: Board)
    ensures MaterialScore(Swapped(board)) == -MaterialScore(board)
  {
    RowsScoreSwapped(board, 8);
  }

  /** No square of the 8x8 board holds a piece. */
  predicate EmptyBoard(board: Board) {
    forall i, j :: 0 <= i < 8 && 0 <= j < 8 ==> SquareAt(board, i, j).None?
  }

  lemma {:induction false} RowScoreEmpty(board: Board, i: int, n: nat)
    requires EmptyBoard(board) && 0 <= i < 8 && n <= 8
    ensures RowScore(board, i, n) == 0
  {
    if n > 0 {
      RowScoreEmpty(board, i, n - 1);
    }
  }

  lemma {:induction false} RowsScoreEmpty(board: Board, m: nat)
    requires EmptyBoard(board) && m <= 8
    ensures RowsScore(board, m) == 0
  {
    if m > 0 {
      RowsScoreEmpty(board, m - 1);
      RowScoreEmpty(board, m - 1, 8);
    }
  }

  /** A board without pieces is level. */
  lemma MaterialScoreEmpty(board: Board)
    requires EmptyBoard(board)
    ensures MaterialScore(board) == 0
  {
    RowsScoreEmpty(board, 8);
  }

  lemma {:induction false} RowScoreBound(board: Board, i: int, n: nat)
    ensures -9 * n <= RowScore(board, i, n) <= 9 * n
  {
    if n > 0 {
      RowScoreBound(board, i, n - 1);
    }
  }

  lemma {:induction false} RowsScoreBound(board: Board, m: nat)
    ensures -72 * m <= RowsScore(board, m) <= 72 * m
  {
    if m > 0 {
      RowsScoreBound(board, m - 1);
      RowScoreBound(board, m - 1, 8);
    }
  }

  /** No position is worth more than 64 queens to either side. */
  lemma MaterialScoreBound(board: Board)
    ensures -576 <= MaterialScore(board) <= 576
  {
    RowsScoreBound(board, 8);
  }

  /** A score of the greedy search: a real number or one of the infinities. */
  datatype Score = NegInf | Finite(value: real) | PosInf

  /** `a > b` on scores. */
  predicate Above(a: Score, b: Score) {
    match (a, b)
    case (NegInf, _) => false
    case (Finite(x), NegInf) => true
    case (Finite(x), Finite(y)) => x > y
    case (Finite(_), PosInf) => false
    case (PosInf, y) => !y.PosInf?
  }

  /** `Math.min(a, b)` */
  function Min(a: Score, b: Score): (m: Score)
    ensures m == a || m == b
    ensures !Above(m, a) && !Above(m, b)
  {
    if Above(a, b) then b else a
  }

  /** `a + x` for a finite x. */
  function Plus(a: Score, x: real): Score {
    match a
    case Finite(v) => Finite(v + x)
    case _ => a
  }

  /** The least score of a list, Infinity for the empty list. */
  function Least(s: seq<int>): (m: Score)
    ensures !m.NegInf?
    ensures m.PosInf? <==> |s| == 0
    ensures forall k :: 0 <= k < |s| ==> !Above(m, Finite(s[k] as real))
    ensures |s| > 0 ==> exists k :: 0 <= k < |s| && m == Finite(s[k] as real)
  {
    if |s| == 0 then PosInf
    else
      var front := s[..|s| - 1];
      assert forall k :: 0 <= k < |front| ==> front[k] == s[k];
      Min(Least(front), Finite(s[|s| - 1] as real))
  }

  /**
   * What the search asks of chess.js, candidate by candidate: the moves in
   * order, the evaluation after each, the evaluations after the opponent's
   * replies to each (in chess.js's order) and the random noise added to each.
   */
  datatype Candidates = Candidates(moves: seq<string>, after: seq<int>, replies: seq<seq<int>>, noise: seq<real>)
  {
    ghost predicate Valid() {
      |after| == |moves| && |replies| == |moves| && |noise| == |moves|
    }
  }

  function MinNat(a: nat, b: nat): nat { if a < b then a else b }

  /** How many moves are looked at: `Math.min(moves.length, 10)`. */
  function Considered(c: Candidates): nat { MinNat(|c.moves|, 10) }

  /** Whether the opponent's replies are looked at. */
  predicate LooksAhead(c: Candidates, depth: int) { depth > 1 && |c.moves| < 20 }

  /** The score of candidate `k`: its own evaluation, or the worst of the first five replies, plus noise. */
  function ScoreOf(c: Candidates, depth: int, k: nat): (s: Score)
    requires c.Valid() && k < |c.moves|
    ensures !s.NegInf?
  {
    var base := if LooksAhead(c, depth) then Least(c.replies[k][..MinNat(|c.replies[k]|, 5)]) else Finite(c.after[k] as real);
    Plus(base, c.noise[k])
  }

  /** The index kept by a scan for a strictly better score, starting from scores[0]. */
  function FirstBest(scores: seq<Score>): (k: nat)
    requires |scores| > 0
    ensures k < |scores|
  {
    if |scores| == 1 then 0
    else
      var k := FirstBest(scores[..|scores| - 1]);
      if Above(scores[|scores| - 1], scores[k]) then |scores| - 1 else k
  }

  /** One step of the scan: index k replaces the kept index exactly when its score is strictly above. */
  lemma FirstBestStep(scores: seq<Score>, k: nat)
    requires k < |scores|
    ensures k == 0 ==> FirstBest(scores[..1]) == 0
    ensures k > 0 ==> (FirstBest(scores[..k + 1])
      == if Above(scores[k], scores[FirstBest(scores[..k])]) then k else FirstBest(scores[..k]))
  {
    if k > 0 {
      assert scores[..k + 1][..k] == scores[..k];
    }
  }

  lemma AboveTotal(a: Score, b: Score)
    ensures Above(a, b) || Above(b, a) || a == b
  {
  }

  lemma AboveTransitive(a: Score, b: Score, c: Score)
    requires Above(a, b) && Above(b, c)
    ensures Above(a, c)
  {
  }

  /** The scan keeps the first index of a maximal score: none above it, none before it as high. */
  lemma {:induction false} FirstBestIsFirstMaximum(scores: seq<Score>)
    requires |scores| > 0
    ensures forall j :: 0 <= j < |scores| ==> !Above(scores[j], scores[FirstBest(scores)])
    ensures forall j :: 0 <= j < FirstBest(scores) ==> Above(scores[FirstBest(scores)], scores[j])
  {
    if |scores| > 1 {
      var init := scores[..|scores| - 1];
      var k := FirstBest(init);
      var last := scores[|scores| - 1];
      FirstBestIsFirstMaximum(init);
      if Above(last, scores[k]) {
        forall j | 0 <= j < |scores| - 1
          ensures Above(last, scores[j])
        {
          AboveTotal(scores[k], scores[j]);
          if Above(scores[k], scores[j]) {
            AboveTransitive(last, scores[k], scores[j]);
          }
        }
      }
    }
  }

  /** The scores of the considered candidates. */
  function Scores(c: Candidates, depth: int): (s: seq<Score>)
    requires c.Valid()
    ensures |s| == Considered(c)
  {
    seq(Considered(c), k requires 0 <= k < Considered(c) => ScoreOf(c, depth, k))
  }

  /** The move the greedy search settles on. */
  function BestChoice(c: Candidates, depth: int): (m: Option<string>)
    requires c.Valid()
    ensures m.None? <==> |c.moves| == 0
    ensures m.Some? ==> m.value in c.moves[..Considered(c)]
  {
    if |c.moves| == 0 then None else Some(c.moves[FirstBest(Scores(c, depth))])
  }

  /** The inner loop of the lookahead: the lowest evaluation among the replies, Infinity when there are none. */
  method WorstReply(replies: seq<int>) returns (worst: Score)
    ensures worst == Least(replies)
  {
    worst := PosInf;
    var r := 0;
    while r < |replies|
      invariant 0 <= r <= |replies|
      invariant worst == Least(replies[..r])
    {
      assert replies[..r + 1][..r] == replies[..r];
      worst := Min(worst, Finite(replies[r] as real));
      r := r + 1;
    }
    assert replies[..r] == replies;
  }

  /** `getBestMoveSimple(game, depth)`, with chess.js's answers and the noise given in `c`. */
  method BestMoveSimple(c: Candidates, depth: int) returns (best: Option<string>)
    requires c.Valid()
    ensures best == BestChoice(c, depth)
  {
    if |c.moves| == 0 {
      return None;
    }
    var bestIndex := 0;
    var bestScore := NegInf;
    var n := Considered(c);
    ghost var scores := Scores(c, depth);
    var k := 0;
    while k < n
      invariant 0 <= k <= n
      invariant k == 0 ==> bestScore == NegInf && bestIndex == 0
      invariant k > 0 ==> bestIndex == FirstBest(scores[..k]) && bestScore == scores[bestIndex]
    {
      var score := Finite(c.after[k] as real);
      if LooksAhead(c, depth) {
        score := WorstReply(c.replies[k][..MinNat(|c.replies[k]|, 5)]);
      }
      score := Plus(score, c.noise[k]);
      assert score == ScoreOf(c, depth, k);
      assert scores[k] == ScoreOf(c, depth, k);
      FirstBestStep(scores, k);
      if Above(score, bestScore) {
        bestScore := score;
        bestIndex := k;
      }
      k := k + 1;
    }
    assert scores[..n] == scores;
    best := Some(c.moves[bestIndex]);
  }

  /** `getRandomMove`: the move at `floor(r * moves.length)` for `r = Math.random()`; undefined when there are none. */
  function RandomMove(moves: seq<string>, r: real): (m: Option<string>)
    requires 0.0 <= r < 1.0
    ensures m.None? <==> |moves| == 0
    ensures m.Some? ==> m.value in moves
  {
    if |moves| == 0 then None
    else
      var k := (r * |moves| as real).Floor;
      assert k < |moves| by {
        assert r * |moves| as real < |moves| as real;
      }
      Some(moves[k])
  }

  /** How the fallback picks a move. */
  datatype Strategy = Random | Greedy(depth: int)

  /** The fallback's `difficultySettings` table; `coin` is the `Math.random()` intermediate tosses. */
  function StrategyFor(difficulty: string, coin: real): (s: Strategy)
    ensures s == Random <==> difficulty == "beginner" || (difficulty == "intermediate" && coin <= 0.3)
    ensures s == Greedy(2) <==> difficulty in {"advanced", "master", "grandmaster"}
    ensures s == Greedy(1) <==> (difficulty !in {"beginner", "advanced", "master", "grandmaster"}
      && (difficulty == "intermediate" ==> coin > 0.3))
  {
    match difficulty
    case "beginner" => Random
    case "intermediate" => if coin > 0.3 then Greedy(1) else Random
    case "advanced" => Greedy(2)
    case "master" => Greedy(2)
    case "grandmaster" => Greedy(2)
    case _ => Greedy(1)
  }

  /**
   * The fallback's move for a position whose candidates are `c`: a random
   * move for the Random strategy (`r` is getRandomMove's `Math.random()`),
   * the greedy search's choice at the strategy's depth otherwise.
   */
  function FallbackMove(difficulty: string, c: Candidates, coin: real, r: real): (m: Option<string>)
    requires c.Valid() && 0.0 <= r < 1.0
  {
    match StrategyFor(difficulty, coin)
    case Random => RandomMove(c.moves, r)
    case Greedy(d) => BestChoice(c, d)
  }

  /**
   * The fallback finds a move exactly when the position has one, and the
   * move is one of the position's: a random one for beginner (and for
   * intermediate on a low coin), one of the first ten from the depth-2
   * search for the three strongest levels, from the depth-1 search otherwise.
   */
  lemma FallbackMoveIsLegal(difficulty: string, c: Candidates, coin: real, r: real)
    requires c.Valid() && 0.0 <= r < 1.0
    ensures var m := FallbackMove(difficulty, c, coin, r);
      (m.None? <==> |c.moves| == 0) && (m.Some? ==> m.value in c.moves)
    ensures difficulty == "beginner" ==> FallbackMove(difficulty, c, coin, r) == RandomMove(c.moves, r)
    ensures difficulty in {"advanced", "master", "grandmaster"} ==> FallbackMove(difficulty, c, coin, r) == BestChoice(c, 2)
    ensures difficulty == "intermediate" && coin > 0.3 ==> FallbackMove(difficulty, c, coin, r) == BestChoice(c, 1)
  {
    var m := FallbackMove(difficulty, c, coin, r);
    if m.Some? && StrategyFor(difficulty, coin).Greedy? {
      assert m.value in c.moves[..Considered(c)];
      assert forall x :: x in c.moves[..Considered(c)] ==> x in c.moves;
    }
  }

  /** The depth asked of the backend: `depthMap[difficulty] || 15`. */
  function BackendDepth(difficulty: string): int {
    match difficulty
    case "beginner" => 8
    case "intermediate" => 12
    case "advanced" => 15
    case "master" => 18
    case "grandmaster" => 20
    case _ => 15
  }

  /** The depth the hook reports in `currentSettings`. */
  function ReportedDepth(difficulty: string): int {
    if difficulty == "beginner" then 8
    else if difficulty == "intermediate" then 12
    else if difficulty == "advanced" then 15
    else if difficulty == "master" then 18
    else 20
  }

  /** The hook's `eloRating`. */
  function EloRating(difficulty: string): int {
    if difficulty == "beginner" then 1000
    else if difficulty == "intermediate" then 1400
    else if difficulty == "advanced" then 1800
    else if difficulty == "master" then 2200
    else 2600
  }

  /**
   * The depth reported and the depth asked of the backend agree exactly on
   * the five named levels: an unknown level reports 20 but asks for 15.
   */
  lemma ReportedDepthAgreesWithBackend(difficulty: string)
    ensures ReportedDepth(difficulty) == BackendDepth(difficulty)
      <==> difficulty in {"beginner", "intermediate", "advanced", "master", "grandmaster"}
  {
  }

  /** Both tables grow with the level. */
  lemma TablesGrow()
    ensures EloRating("beginner") < EloRating("intermediate") < EloRating("advanced") < EloRating("master") < EloRating("grandmaster")
    ensures BackendDepth("beginner") < BackendDepth("intermediate") < BackendDepth("advanced") < BackendDepth("master") < BackendDepth("grandmaster")
  {
  }

  /** The backend's answer: a JSON body with a `bestMove` field, or a failed request. */
  datatype Backend = Answered(bestMove: Option<string>) | Failed

  /** `getStockfishMove`: the backend's move unless it is missing, empty or "(none)". */
  function Accepted(b: Backend): (m: Option<string>)
    ensures m.Some? <==> b.Answered? && b.bestMove.Some? && b.bestMove.value != "" && b.bestMove.value != "(none)"
    ensures m.Some? ==> m.value == b.bestMove.value
  {
    if b.Answered? && b.bestMove.Some? && b.bestMove.value != "" && b.bestMove.value != "(none)" then b.bestMove else None
  }

  /** A `POST /getBestMove` body. */
  datatype BackendRequest = BackendRequest(fen: string, depth: int)

  /** Where the latest `getBestMove` call stands: awaiting the backend, or the fallback's delay. */
  datatype Phase = Idle | AwaitingBackend(fen: string) | AwaitingFallback(fen: string)

  class Hook {
    const difficulty: string
    var ready: bool
    var thinking: bool
    var bestMove: Option<string>
    /** Whether the 500 ms ready timer is pending. */
    var readyTimerPending: bool
    /** Every request sent to the backend, oldest first. */
    var requests: seq<BackendRequest>
    var phase: Phase

    constructor(difficulty: string)
      ensures this.difficulty == difficulty && !ready && !thinking && bestMove.None?
      ensures readyTimerPending && requests == [] && phase == Idle
    {
      this.difficulty := difficulty;
      ready, thinking, bestMove := false, false, None;
      readyTimerPending := true;
      requests := [];
      phase := Idle;
    }

    method OnReadyTimer()
      requires readyTimerPending
      modifies this
      ensures ready && !readyTimerPending
      ensures thinking == old(thinking) && bestMove == old(bestMove) && requests == old(requests) && phase == old(phase)
    {
      ready := true;
      readyTimerPending := false;
    }

    /**
     * `getBestMove(fen)` up to its first `await`: before readiness nothing
     * happens; otherwise thinking starts, the move is cleared, and the
     * backend is asked at the level's depth.
     */
    method GetBestMove(fen: string)
      modifies this
      ensures !old(ready) ==> (thinking == old(thinking) && bestMove == old(bestMove)
        && requests == old(requests) && phase == old(phase))
      ensures old(ready) ==> (thinking && bestMove.None? && phase == AwaitingBackend(fen)
        && requests == old(requests) + [BackendRequest(fen, BackendDepth(difficulty))])
      ensures ready == old(ready) && readyTimerPending == old(readyTimerPending)
    {
      if !ready {
        return;
      }
      thinking := true;
      bestMove := None;
      requests := requests + [BackendRequest(fen, BackendDepth(difficulty))];
      phase := AwaitingBackend(fen);
    }

    /**
     * The backend's answer arrives: an accepted move is taken and thinking
     * ends; anything else (no move, `(none)`, a failed request) starts the
     * fallback's delay with thinking still on.
     */
    method OnBackendAnswer(backend: Backend)
      requires phase.AwaitingBackend?
      modifies this
      ensures Accepted(backend).Some? ==> bestMove == Accepted(backend) && !thinking && phase == Idle
      ensures Accepted(backend).None? ==> (bestMove == old(bestMove) && thinking == old(thinking)
        && phase == AwaitingFallback(old(phase).fen))
      ensures ready == old(ready) && readyTimerPending == old(readyTimerPending) && requests == old(requests)
    {
      var move := Accepted(backend);
      if move.Some? {
        bestMove := move;
        thinking := false;
        phase := Idle;
      } else {
        phase := AwaitingFallback(phase.fen);
      }
    }

    /**
     * The fallback's delay ends. `position` is chess.js's view of the FEN,
     * None when `new Chess(fen)` throws (the catch only clears thinking);
     * `coin` is the intermediate level's toss and `r` getRandomMove's draw.
     * The move the strategy finds, if any, is taken; thinking always ends.
     */
    method OnFallbackTimer(position: Option<Candidates>, coin: real, r: real)
      requires phase.AwaitingFallback?
      requires position.Some? ==> position.value.Valid()
      requires 0.0 <= r < 1.0
      modifies this
      ensures position.None? ==> bestMove == old(bestMove)
      ensures position.Some? ==> (bestMove ==
        if |position.value.moves| > 0 then FallbackMove(difficulty, position.value, coin, r) else old(bestMove))
      ensures !thinking && phase == Idle
      ensures ready == old(ready) && readyTimerPending == old(readyTimerPending) && requests == old(requests)
    {
      phase := Idle;
      thinking := false;
      if position.None? {
        return;
      }
      var c := position.value;
      var move: Option<string>;
      match StrategyFor(difficulty, coin) {
        case Random =>
          move := RandomMove(c.moves, r);
        case Greedy(d) =>
          move := BestMoveSimple(c, d);
      }
      if move.Some? {
        bestMove := move;
      }
    }

    method ResetAI()
      modifies this
      ensures bestMove.None? && !thinking
      ensures ready == old(ready) && readyTimerPending == old(readyTimerPending) && requests == old(requests)
      ensures phase == old(phase)
    {
      bestMove := None;
      thinking := false;
    }

    /** `setBestMove`, which the hook hands out. */
    method SetBestMove(m: Option<string>)
      modifies this
      ensures bestMove == m
      ensures ready == old(ready) && thinking == old(thinking)
      ensures readyTimerPending == old(readyTimerPending) && requests == old(requests) && phase == old(phase)
    {
      bestMove := m;
    }
  }
}
