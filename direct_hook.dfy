/**
 * src/useStockfishDirect.js: one CDN worker. `uci` is sent at once and
 * `isready` by a one-second timer; `readyok` makes the hook ready only after
 * `uciok`. Every failure schedules a retry two seconds later.
 */
module DirectHook {
  import opened Options
  import opened Strings
  import opened Uci
  import opened EngineHooks

  /** `getDifficultyDepth` */
  function DifficultyDepth(difficulty: string): (d: int)
    ensures difficulty == "beginner" ==> d == 5
    ensures difficulty == "advanced" ==> d == 12
    ensures difficulty == "master" ==> d == 15
    ensures difficulty == "grandmaster" ==> d == 18
    ensures difficulty !in {"beginner", "advanced", "master", "grandmaster"} ==> d == 8
  {
    match difficulty
    case "beginner" => 5
    case "intermediate" => 8
    case "advanced" => 12
    case "master" => 15
    case "grandmaster" => 18
    case _ => 8
  }

  /** `getDifficultyElo` */
  function DifficultyElo(difficulty: string): (elo: int)
    ensures difficulty == "beginner" ==> elo == 1000
    ensures difficulty == "advanced" ==> elo == 1800
    ensures difficulty == "master" ==> elo == 2200
    ensures difficulty == "grandmaster" ==> elo == 2600
    ensures difficulty !in {"beginner", "advanced", "master", "grandmaster"} ==> elo == 1400
  {
    match difficulty
    case "beginner" => 1000
    case "intermediate" => 1400
    case "advanced" => 1800
    case "master" => 2200
    case "grandmaster" => 2600
    case _ => 1400
  }

  /** Both tables rise strictly from beginner to grandmaster, and both default to the intermediate entry. */
  lemma TablesAreMonotone()
    ensures DifficultyDepth("beginner") < DifficultyDepth("intermediate") < DifficultyDepth("advanced")
      < DifficultyDepth("master") < DifficultyDepth("grandmaster")
    ensures DifficultyElo("beginner") < DifficultyElo("intermediate") < DifficultyElo("advanced")
      < DifficultyElo("master") < DifficultyElo("grandmaster")
    ensures DifficultyDepth("expert") == DifficultyDepth("intermediate") && DifficultyElo("expert") == DifficultyElo("intermediate")
  {
  }

  class Hook {
    const difficulty: string
    var hasWorker: bool
    var uciOk: bool
    var readyOk: bool
    var ready: bool
    var thinking: bool
    var bestMove: Option<string>
    var sent: seq<string>
    /** The `initializationAttempts` state, bumped on every failure. */
    var attempts: nat
    /** Pending one-second `isready` timers. */
    var pendingIsReady: nat
    /** Pending two-second retries scheduled by `onerror` (they clear the worker first) and by the catch block. */
    var pendingErrorRetries: nat
    var pendingCatchRetries: nat

    /** Mount: the first `initializeStockfish`; `created` says whether `new Worker` returned. */
    constructor(difficulty: string, created: bool)
      ensures this.difficulty == difficulty
      ensures hasWorker == created && !uciOk && !readyOk && !ready && !thinking && bestMove.None?
      ensures sent == (if created then [Identify] else []) && pendingIsReady == (if created then 1 else 0)
      ensures attempts == (if created then 0 else 1) && pendingErrorRetries == 0 && pendingCatchRetries == (if created then 0 else 1)
    {
      this.difficulty := difficulty;
      hasWorker := created;
      uciOk, readyOk, ready, thinking, bestMove := false, false, false, false, None;
      sent := if created then [Identify] else [];
      pendingIsReady := if created then 1 else 0;
      attempts := if created then 0 else 1;
      pendingErrorRetries := 0;
      pendingCatchRetries := if created then 0 else 1;
    }

    /**
     * `initializeStockfish`. A created worker gets `uci` and an `isready`
     * timer; a failure always schedules a retry, because the guard
     * `initializationAttempts < 3` reads the mount-time value 0.
     */
    method Initialize(created: bool)
      modifies this
      ensures created ==> (hasWorker && !uciOk && !readyOk && sent == old(sent) + [Identify]
        && pendingIsReady == old(pendingIsReady) + 1 && attempts == old(attempts) && pendingCatchRetries == old(pendingCatchRetries))
      ensures !created ==> (hasWorker == old(hasWorker) && uciOk == old(uciOk) && readyOk == old(readyOk) && sent == old(sent)
        && pendingIsReady == old(pendingIsReady) && attempts == old(attempts) + 1 && pendingCatchRetries == old(pendingCatchRetries) + 1)
      ensures ready == old(ready) && thinking == old(thinking) && bestMove == old(bestMove) && pendingErrorRetries == old(pendingErrorRetries)
    {
      if created {
        hasWorker := true;
        uciOk, readyOk := false, false;
        sent := sent + [Identify];
        pendingIsReady := pendingIsReady + 1;
      } else {
        attempts := attempts + 1;
        pendingCatchRetries := pendingCatchRetries + 1;
      }
    }

    /** The one-second timer: `isready`, if a worker is set. */
    method OnIsReadyTimer()
      requires pendingIsReady > 0
      modifies this
      ensures pendingIsReady == old(pendingIsReady) - 1
      ensures sent == old(sent) + (if hasWorker then [IsReady] else [])
      ensures hasWorker == old(hasWorker) && uciOk == old(uciOk) && readyOk == old(readyOk) && ready == old(ready)
      ensures thinking == old(thinking) && bestMove == old(bestMove) && attempts == old(attempts)
      ensures pendingErrorRetries == old(pendingErrorRetries) && pendingCatchRetries == old(pendingCatchRetries)
    {
      pendingIsReady := pendingIsReady - 1;
      if hasWorker {
        sent := sent + [IsReady];
      }
    }

    /** The worker's `onerror`: not ready any more, and a retry is scheduled whatever the attempt count. */
    method OnError()
      requires hasWorker
      modifies this
      ensures !ready && attempts == old(attempts) + 1 && pendingErrorRetries == old(pendingErrorRetries) + 1
      ensures hasWorker && uciOk == old(uciOk) && readyOk == old(readyOk) && sent == old(sent)
      ensures thinking == old(thinking) && bestMove == old(bestMove)
      ensures pendingIsReady == old(pendingIsReady) && pendingCatchRetries == old(pendingCatchRetries)
    {
      ready := false;
      attempts := attempts + 1;
      pendingErrorRetries := pendingErrorRetries + 1;
    }

    /** A retry scheduled by `onerror`: the worker reference is cleared, then `initializeStockfish` runs. */
    method OnErrorRetry(created: bool)
      requires pendingErrorRetries > 0
      modifies this
      ensures pendingErrorRetries == old(pendingErrorRetries) - 1
      ensures hasWorker == created
      ensures created ==> (!uciOk && !readyOk && sent == old(sent) + [Identify] && pendingIsReady == old(pendingIsReady) + 1
        && attempts == old(attempts) && pendingCatchRetries == old(pendingCatchRetries))
      ensures !created ==> (uciOk == old(uciOk) && readyOk == old(readyOk) && sent == old(sent) && pendingIsReady == old(pendingIsReady)
        && attempts == old(attempts) + 1 && pendingCatchRetries == old(pendingCatchRetries) + 1)
      ensures ready == old(ready) && thinking == old(thinking) && bestMove == old(bestMove)
    {
      pendingErrorRetries := pendingErrorRetries - 1;
      hasWorker := false;
      Initialize(created);
    }

    /** A retry scheduled by the catch block: `initializeStockfish` runs again. */
    method OnCatchRetry(created: bool)
      requires pendingCatchRetries > 0
      modifies this
      ensures pendingCatchRetries == (if created then old(pendingCatchRetries) - 1 else old(pendingCatchRetries))
      ensures hasWorker == (old(hasWorker) || created) && pendingErrorRetries == old(pendingErrorRetries)
      ensures created ==> (!uciOk && !readyOk && sent == old(sent) + [Identify] && pendingIsReady == old(pendingIsReady) + 1
        && attempts == old(attempts))
      ensures !created ==> (uciOk == old(uciOk) && readyOk == old(readyOk) && sent == old(sent) && pendingIsReady == old(pendingIsReady)
        && attempts == old(attempts) + 1)
      ensures ready == old(ready) && thinking == old(thinking) && bestMove == old(bestMove)
    {
      pendingCatchRetries := pendingCatchRetries - 1;
      Initialize(created);
    }

    /** The worker's `onmessage`: `uciok` only sets the flag; `readyok` counts after it; `bestmove` ends the search. */
    method OnLine(line: string)
      requires hasWorker
      modifies this
      ensures hasWorker && sent == old(sent) && attempts == old(attempts)
      ensures pendingIsReady == old(pendingIsReady) && pendingErrorRetries == old(pendingErrorRetries)
        && pendingCatchRetries == old(pendingCatchRetries)
      ensures Contains(line, "uciok") ==>
        uciOk && readyOk == old(readyOk) && ready == old(ready) && thinking == old(thinking) && bestMove == old(bestMove)
      ensures !Contains(line, "uciok") ==> uciOk == old(uciOk)
      ensures !Contains(line, "uciok") && Contains(line, "readyok") ==>
        readyOk && ready == (old(ready) || old(uciOk)) && thinking == old(thinking) && bestMove == old(bestMove)
      ensures !Contains(line, "uciok") && !Contains(line, "readyok") && StartsWith(line, "bestmove") ==>
        readyOk == old(readyOk) && ready == old(ready) && !thinking
        && bestMove == (if MoveOf(line).Some? then MoveOf(line) else old(bestMove))
      ensures !Contains(line, "uciok") && !Contains(line, "readyok") && !StartsWith(line, "bestmove") ==>
        readyOk == old(readyOk) && ready == old(ready) && thinking == old(thinking) && bestMove == old(bestMove)
    {
      if Contains(line, "uciok") {
        uciOk := true;
      } else if Contains(line, "readyok") {
        readyOk := true;
        if uciOk {
          ready := true;
        }
      } else if StartsWith(line, "bestmove") {
        var m := MoveOf(line);
        if m.Some? {
          bestMove := m;
        }
        thinking := false;
      }
    }

    /** `getBestMove(fen)`: nothing unless a worker exists and the hook is ready. */
    method GetBestMove(fen: string)
      modifies this
      ensures !(old(hasWorker) && old(ready)) ==> sent == old(sent) && thinking == old(thinking) && bestMove == old(bestMove)
      ensures old(hasWorker) && old(ready) ==> sent == old(sent) + FenSearchLines(fen, DifficultyDepth(difficulty)) && thinking && bestMove.None?
      ensures hasWorker == old(hasWorker) && ready == old(ready) && uciOk == old(uciOk) && readyOk == old(readyOk)
      ensures attempts == old(attempts) && pendingIsReady == old(pendingIsReady)
        && pendingErrorRetries == old(pendingErrorRetries) && pendingCatchRetries == old(pendingCatchRetries)
    {
      if hasWorker && ready {
        thinking := true;
        bestMove := None;
        sent := sent + FenSearchLines(fen, DifficultyDepth(difficulty));
      }
    }

    /** `resetAI`: clears the move and the thinking flag and sends nothing. */
    method ResetAI()
      modifies this
      ensures !thinking && bestMove.None? && sent == old(sent)
      ensures hasWorker == old(hasWorker) && ready == old(ready) && uciOk == old(uciOk) && readyOk == old(readyOk)
      ensures attempts == old(attempts) && pendingIsReady == old(pendingIsReady)
        && pendingErrorRetries == old(pendingErrorRetries) && pendingCatchRetries == old(pendingCatchRetries)
    {
      bestMove := None;
      thinking := false;
    }
  }
}
