/**
 * src/App.jsx: the four views of the application and the handlers that move
 * between them.
 */
module App {
  import opened Options
  import ChessGame

  datatype View = Home | ModeSelection | SinglePlayer | Multiplayer

  /** What the user can do, and the view whose component offers it. */
  datatype Event =
    | PlayGame(difficulty: string)             // a level chosen on the home page
    | SelectMode(mode: string, color: string)  // "Start Game" in mode selection
    | BackToHome                               // Back in mode selection
    | BackToModeSelection                      // Back in either game

  /** The view the handler of `e` leads to from `v`. */
  function Next(v: View, e: Event): View {
    match e
    case PlayGame(_) => ModeSelection
    case SelectMode(mode, _) =>
      if mode == "single" then SinglePlayer else if mode == "multiplayer" then Multiplayer else v
    case BackToHome => Home
    case BackToModeSelection => ModeSelection
  }

  /** Whether view `v` renders the component that raises `e`. */
  predicate Offered(v: View, e: Event) {
    match e
    case PlayGame(_) => v == Home
    case SelectMode(_, _) => v == ModeSelection
    case BackToHome => v == ModeSelection
    case BackToModeSelection => v == SinglePlayer || v == Multiplayer
  }

  /** A game is entered only from mode selection, by choosing its mode. */
  lemma GamesEnteredFromModeSelection(v: View, e: Event)
    requires Offered(v, e) && v != Next(v, e)
    ensures Next(v, e) == SinglePlayer ==> v == ModeSelection && e == SelectMode("single", e.color)
    ensures Next(v, e) == Multiplayer ==> v == ModeSelection && e == SelectMode("multiplayer", e.color)
    ensures Next(v, e) == Home ==> v == ModeSelection
  {
  }

  /** The views visited by a run of offered events. */
  function Visit(v: View, events: seq<Event>): (w: View)
    decreases |events|
  {
    if |events| == 0 || !Offered(v, events[0]) then v else Visit(Next(v, events[0]), events[1..])
  }

  /** A run that starts outside the single-player game and ends in it chose the `single` mode on the way. */
  lemma {:induction false} SinglePlayerNeedsSingleMode(v: View, events: seq<Event>)
    requires v != SinglePlayer && Visit(v, events) == SinglePlayer
    ensures exists k :: 0 <= k < |events| && events[k].SelectMode? && events[k].mode == "single"
    decreases |events|
  {
    var e := events[0];
    if Next(v, e) == SinglePlayer {
      assert events[0].SelectMode? && events[0].mode == "single";
    } else {
      SinglePlayerNeedsSingleMode(Next(v, e), events[1..]);
      var k :| 0 <= k < |events[1..]| && events[1..][k].SelectMode? && events[1..][k].mode == "single";
      assert events[k + 1] == events[1..][k];
    }
  }

  class AppState {
    var view: View
    var selectedDifficulty: string

    constructor()
      ensures view == Home && selectedDifficulty == "intermediate"
    {
      view := Home;
      selectedDifficulty := "intermediate";
    }

    /** `handlePlayGame(difficulty)` */
    method HandlePlayGame(difficulty: string)
      modifies this
      ensures selectedDifficulty == difficulty && view == ModeSelection
    {
      selectedDifficulty := difficulty;
      view := ModeSelection;
    }

    /** `handleSelectMode(mode)`: the second argument, the colour, is not received. */
    method HandleSelectMode(mode: string, color: string)
      modifies this
      ensures view == Next(old(view), SelectMode(mode, color))
      ensures mode != "single" && mode != "multiplayer" ==> view == old(view)
      ensures selectedDifficulty == old(selectedDifficulty)
      ensures forall other: string :: view == Next(old(view), SelectMode(mode, other))
    {
      if mode == "single" {
        view := SinglePlayer;
      } else if mode == "multiplayer" {
        view := Multiplayer;
      }
    }

    method HandleBackToHome()
      modifies this
      ensures view == Home && selectedDifficulty == old(selectedDifficulty)
    {
      view := Home;
    }

    method HandleBackToModeSelection()
      modifies this
      ensures view == ModeSelection && selectedDifficulty == old(selectedDifficulty)
    {
      view := ModeSelection;
    }

    /**
     * The props the single-player game is rendered with: the chosen
     * difficulty, and no colour, so that whatever the coin the game gives the
     * player black, the engine white, and an unflipped board.
     */
    function SinglePlayerProps(): (props: (string, ChessGame.ColorProp))
      reads this
      ensures props.0 == selectedDifficulty
      ensures forall coin: real :: ChessGame.ActualColor(props.1, coin) == None
      ensures ChessGame.PlayerCode(props.1) == 'b' && ChessGame.AiCode(props.1) == 'w'
      ensures !ChessGame.Flipped(props.1)
    {
      (selectedDifficulty, None)
    }
  }

  /**
   * Whatever colour was chosen in mode selection, the game App renders
   * receives none: for every coin the player is black, the engine white, and
   * the board is not flipped.
   */
  lemma ChosenColorIsDropped(a: AppState, coin: real)
    ensures var c := ChessGame.ActualColor(a.SinglePlayerProps().1, coin);
      c == None && ChessGame.PlayerCode(c) == 'b' && ChessGame.AiCode(c) == 'w' && !ChessGame.Flipped(c)
  {
    assert a.SinglePlayerProps().1 == None;
  }
}
