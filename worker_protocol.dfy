/**
 * What the main thread posts to the Stockfish web workers, what the workers
 * post back, and the pure parts the workers share: the request encoders that
 * turn a structured request into UCI lines and the classifiers that turn an
 * engine line into one typed reply.
 */
module WorkerProtocol {
  import opened Options
  import opened Strings
  import opened Uci

  /**
   * A JavaScript number field of a message: None when the field is absent.
   * It is truthy exactly when present and non-zero (NaN is not modelled).
   */
  predicate Truthy(n: Option<int>) {
    n.Some? && n.value != 0
  }

  /** The `settings` object of a `configure` request. */
  datatype Settings = Settings(limitStrength: bool, elo: Option<int>)

  /** A structured request: `{type, fen, depth, movetime, useTime, settings}`. */
  datatype Request = Request(
    kind: string,
    fen: string,
    depth: Option<int>,
    movetime: Option<int>,
    useTime: bool,
    settings: Option<Settings>)

  /** A message posted to a worker: a string (among them `'init'`) or an object. */
  datatype Message = Text(text: string) | Structured(request: Request)

  const InitMessage := Text("init")

  /** The `type` of a reply a worker posts; EngineOutput is `'stockfish-output'`. */
  datatype Kind = Ready | BestMove | Info | Output | Error | EngineOutput

  /** A reply posted by a worker: an object `{type, data, engine?}` or a bare string. */
  datatype Reply = Typed(kind: Kind, data: string, engine: Option<string>) | Plain(text: string)

  /** Which field a `position` request's `go` line is chosen by first. */
  datatype GoPolicy =
    | DepthFirst  // depth, then movetime, then the default depth
    | TimeFirst   // movetime when useTime, then depth, then the default depth

  /** The search limit a `position` request asks for. */
  function GoFor(policy: GoPolicy, defaultDepth: int, r: Request): (g: Go)
    ensures g.Depth? || g.Movetime?
    ensures g.Movetime? ==> Truthy(r.movetime) && g.ms == r.movetime.value
    ensures g.Depth? ==> (Truthy(r.depth) && g.plies == r.depth.value) || g.plies == defaultDepth
    // DepthFirst: a truthy depth wins over any movetime
    ensures policy.DepthFirst? && Truthy(r.depth) ==> g == Depth(r.depth.value)
    ensures policy.DepthFirst? && !Truthy(r.depth) ==> g.Movetime? == Truthy(r.movetime)
    // TimeFirst: the movetime is used exactly when useTime is set and it is truthy
    ensures policy.TimeFirst? ==> (g.Movetime? <==> r.useTime && Truthy(r.movetime))
    ensures policy.TimeFirst? && g.Depth? && Truthy(r.depth) ==> g.plies == r.depth.value
    // the default depth only when neither field decides
    ensures g.Depth? && !Truthy(r.depth) ==> g.plies == defaultDepth
  {
    match policy
    case DepthFirst =>
      if Truthy(r.depth) then Depth(r.depth.value)
      else if Truthy(r.movetime) then Movetime(r.movetime.value)
      else Depth(defaultDepth)
    case TimeFirst =>
      if r.useTime && Truthy(r.movetime) then Movetime(r.movetime.value)
      else if Truthy(r.depth) then Depth(r.depth.value)
      else Depth(defaultDepth)
  }

  /** The lines of a `configure` request. */
  function ConfigureLines(settings: Option<Settings>): (lines: seq<string>)
    ensures |lines| <= 2
    ensures |lines| == 0 <==> settings.None?
    ensures |lines| == 2 <==> settings.Some? && settings.value.limitStrength && Truthy(settings.value.elo)
    ensures |lines| == 2 ==> lines[1] == SetOption("UCI_Elo", IntToString(settings.value.elo.value))
    ensures |lines| > 0 ==> lines[0] == SetOption("UCI_LimitStrength", if |lines| == 2 then "true" else "false")
  {
    match settings
    case None => []
    case Some(s) =>
      if s.limitStrength && Truthy(s.elo) then
        [SetOption("UCI_LimitStrength", "true"), SetOption("UCI_Elo", IntToString(s.elo.value))]
      else
        [SetOption("UCI_LimitStrength", "false")]
  }

  /** The lines a worker sends to the engine for a structured request, once it is ready. */
  function Encode(policy: GoPolicy, defaultDepth: int, r: Request): seq<string> {
    if r.kind == "position" then [NewGame, PositionFen(r.fen), GoLine(GoFor(policy, defaultDepth, r))]
    else if r.kind == "stop" then [Stop]
    else if r.kind == "configure" then ConfigureLines(r.settings)
    else if r.kind == "analyze" then [NewGame, PositionFen(r.fen), GoLine(Infinite)]
    else []
  }

  /** The working worker: depth first, default depth 10. */
  function EncodeWorking(r: Request): seq<string> { Encode(DepthFirst, 10, r) }
  /** The real (CDN) worker: movetime first when useTime, default depth 10. */
  function EncodeReal(r: Request): seq<string> { Encode(TimeFirst, 10, r) }
  /** The simple worker: movetime first when useTime, default depth 8. */
  function EncodeSimple(r: Request): seq<string> { Encode(TimeFirst, 8, r) }

  /**
   * A `position` request resets the game, sets the position read back
   * verbatim, and starts exactly one search, whose limit the engine reads as
   * the one the policy chose.
   */
  lemma PositionEncoding(policy: GoPolicy, defaultDepth: int, r: Request)
    requires r.kind == "position"
    ensures var lines := Encode(policy, defaultDepth, r);
      |lines| == 3 && lines[0] == NewGame && FenOf(lines[1]) == Some(r.fen)
      && GoCount(lines) == 1 && ParseGo(lines[2]) == Some(GoFor(policy, defaultDepth, r))
  {
    var lines := Encode(policy, defaultDepth, r);
    FenOfPositionFen(r.fen);
    NewGameIsNotGo();
    PositionFenIsNotGo(r.fen);
    ParseGoLine(GoFor(policy, defaultDepth, r));
    GoCountOfThree(lines[0], lines[1], lines[2]);
  }

  /** An `analyze` request resets the game, sets the position and starts one unbounded search. */
  lemma AnalyzeEncoding(policy: GoPolicy, defaultDepth: int, r: Request)
    requires r.kind == "analyze"
    ensures var lines := Encode(policy, defaultDepth, r);
      |lines| == 3 && lines[0] == NewGame && FenOf(lines[1]) == Some(r.fen)
      && GoCount(lines) == 1 && ParseGo(lines[2]) == Some(Infinite)
  {
    var lines := Encode(policy, defaultDepth, r);
    FenOfPositionFen(r.fen);
    NewGameIsNotGo();
    PositionFenIsNotGo(r.fen);
    ParseGoLine(Infinite);
    GoCountOfThree(lines[0], lines[1], lines[2]);
  }

  /** Two setoption lines are no search. */
  lemma OptionPairIsNotGo(a: string, b: string, c: string, d: string)
    ensures GoCount([SetOption(a, b), SetOption(c, d)]) == 0
  {
    SetOptionIsNotGo(a, b);
    SetOptionIsNotGo(c, d);
    GoCountOfNone([SetOption(a, b), SetOption(c, d)]);
  }

  /** One setoption line is no search. */
  lemma OptionIsNotGo(a: string, b: string)
    ensures GoCount([SetOption(a, b)]) == 0
  {
    SetOptionIsNotGo(a, b);
    GoCountOfNone([SetOption(a, b)]);
  }

  /** The lines of a `configure` request hold no `go` line. */
  lemma ConfigureIsNotGo(settings: Option<Settings>)
    ensures GoCount(ConfigureLines(settings)) == 0
  {
    if settings.Some? {
      var s := settings.value;
      if s.limitStrength && Truthy(s.elo) {
        OptionPairIsNotGo("UCI_LimitStrength", "true", "UCI_Elo", IntToString(s.elo.value));
      } else {
        OptionIsNotGo("UCI_LimitStrength", "false");
      }
    }
  }

  /** `stop` is one line, `configure` starts no search, and an unknown type sends nothing. */
  lemma OtherEncodings(policy: GoPolicy, defaultDepth: int, r: Request)
    ensures r.kind == "stop" ==> Encode(policy, defaultDepth, r) == [Stop]
    ensures r.kind == "configure" ==> GoCount(Encode(policy, defaultDepth, r)) == 0
    ensures r.kind !in {"position", "stop", "configure", "analyze"} ==> Encode(policy, defaultDepth, r) == []
  {
    if r.kind == "configure" {
      ConfigureIsNotGo(r.settings);
    }
  }

  /**
   * Depth-first and useTime-first selection send the same lines exactly when
   * no truthy movetime is given, or when depth is truthy just when useTime is
   * false.
   */
  lemma WorkingAgreesWithReal(r: Request)
    ensures EncodeWorking(r) == EncodeReal(r)
      <==> r.kind != "position" || !Truthy(r.movetime) || (Truthy(r.depth) <==> !r.useTime)
  {
    if r.kind == "position" && EncodeWorking(r) == EncodeReal(r) {
      assert GoLine(GoFor(DepthFirst, 10, r)) == GoLine(GoFor(TimeFirst, 10, r));
      GoLineInjective(GoFor(DepthFirst, 10, r), GoFor(TimeFirst, 10, r));
    }
  }

  /** The simple and real workers differ only where the default depth is used. */
  lemma SimpleAgreesWithReal(r: Request)
    ensures EncodeSimple(r) == EncodeReal(r)
      <==> r.kind != "position" || (r.useTime && Truthy(r.movetime)) || Truthy(r.depth)
  {
    if r.kind == "position" && EncodeSimple(r) == EncodeReal(r) {
      assert GoLine(GoFor(TimeFirst, 8, r)) == GoLine(GoFor(TimeFirst, 10, r));
      GoLineInjective(GoFor(TimeFirst, 8, r), GoFor(TimeFirst, 10, r));
    }
  }

  /**
   * The type of the one reply an engine line produces in the working and
   * real workers: readyok anywhere wins, then a bestmove prefix, then an info
   * prefix, and every other line is plain output.
   */
  function Classify(line: string): Kind {
    if Contains(line, "readyok") then Ready
    else if StartsWith(line, "bestmove") then BestMove
    else if StartsWith(line, "info") then Info
    else Output
  }

  /** A line without the letter `y` cannot hold `readyok`. */
  lemma NoReadyok(line: string)
    requires 'y' !in line
    ensures !Contains(line, "readyok")
  {
    assert "readyok"[4] == 'y';
    NotContainsWithout(line, "readyok", 4);
  }

  /**
   * The engine's own lines, as long as no `y` appears in them (which rules
   * out `readyok`): a `bestmove` line is a best move, an `info` line is
   * information, and a line starting with anything but `b` or `i` is plain
   * output.
   */
  lemma ClassifyEngineLines(rest: string)
    requires 'y' !in rest
    ensures Classify("bestmove " + rest) == BestMove
    ensures Classify("info " + rest) == Info
    ensures |rest| > 0 && rest[0] != 'b' && rest[0] != 'i' ==> Classify(rest) == Output
  {
    var b, i := "bestmove " + rest, "info " + rest;
    assert forall c :: c in b ==> c in "bestmove " || c in rest;
    assert forall c :: c in i ==> c in "info " || c in rest;
    NoReadyok(b);
    NoReadyok(i);
    NoReadyok(rest);
    assert b[..8] == "bestmove";
    assert i[..4] == "info";
    assert StartsWith(b, "bestmove");
    assert i[0] != "bestmove"[0];
    assert StartsWith(i, "info");
  }

  /** The simple worker's classifier, with its own `uciok` branch; it posts what Classify says. */
  function SimpleClassify(line: string): (k: Kind)
    ensures k == Classify(line)
  {
    if Contains(line, "readyok") then Ready
    else if StartsWith(line, "bestmove") then BestMove
    else if StartsWith(line, "info") then Info
    else if Contains(line, "uciok") then Output
    else Output
  }

  /** The engine's handshake reply `uciok` is plain output, not readiness. */
  lemma UciokIsOutput()
    ensures SimpleClassify("uciok") == Output
  {
    NotContainsWithoutHead("uciok", "readyok");
    assert "uciok"[..4][0] != "info"[0];
  }

  /** A line is classified as ready however much text surrounds `readyok`. */
  lemma ReadyokAnywhere(pre: string, post: string)
    ensures Classify(pre + "readyok" + post) == Ready
  {
    var tail := "readyok" + post;
    assert tail[..7] == "readyok";
    assert Contains(tail, "readyok");
    ContainsAppend(pre, tail, "readyok");
    assert pre + "readyok" + post == pre + tail;
    assert Contains(pre + "readyok" + post, "readyok");
  }
}
