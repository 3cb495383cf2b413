/**
 * public/working-stockfish-worker.js: loads a local engine script on
 * `'init'`, drops every other message until the engine has answered
 * `readyok`, then forwards strings verbatim and encodes structured requests
 * depth first with default depth 10.
 */
module WorkingWorker {
  import opened Options
  import opened Uci
  import opened WorkerProtocol

  /** What loading the engine finds: a script with a constructor, no script, or no constructor. */
  datatype Load = Loaded | NoScript | NoConstructor

  /** The message of the error a failed load posts. */
  function LoadError(load: Load): string
    requires !load.Loaded?
  {
    if load.NoScript? then "No Stockfish engine found" else "Stockfish constructor not found"
  }

  /** The lines a worker that is initialised sends to the engine for a non-`'init'` message. */
  function Forwarded(m: Message): seq<string> {
    match m
    case Text(s) => [s]
    case Structured(r) => EncodeWorking(r)
  }

  class Worker {
    /** Whether `stockfish` holds an engine instance. */
    var hasEngine: bool
    var isInitialized: bool
    /** Every line sent to the engine, oldest first. */
    var toEngine: seq<string>
    /** Every reply posted to the main thread, oldest first. */
    var posted: seq<Reply>

    ghost predicate Valid()
      reads this
    {
      isInitialized ==> hasEngine
    }

    constructor()
      ensures Valid()
      ensures !hasEngine && !isInitialized && toEngine == [] && posted == []
    {
      hasEngine := false;
      isInitialized := false;
      toEngine := [];
      posted := [];
    }

    /** `initializeStockfish`: on success the engine gets `uci` then `isready`; on failure one error is posted. */
    method Initialize(load: Load)
      requires Valid()
      modifies this
      ensures Valid()
      ensures hasEngine == (old(hasEngine) || load.Loaded?)
      ensures isInitialized == old(isInitialized)
      ensures load.Loaded? ==> toEngine == old(toEngine) + [Identify, IsReady] && posted == old(posted)
      ensures !load.Loaded? ==> toEngine == old(toEngine) && posted == old(posted) + [Typed(Error, LoadError(load), None)]
    {
      if load.Loaded? {
        hasEngine := true;
        toEngine := toEngine + [Identify, IsReady];
      } else {
        posted := posted + [Typed(Error, LoadError(load), None)];
      }
    }

    /**
     * `self.onmessage`. `load` is what loading finds, consulted only for
     * `'init'`. Before initialisation every other message is dropped without
     * a trace.
     */
    method OnMessage(m: Message, load: Load)
      requires Valid()
      modifies this
      ensures Valid()
      ensures m == InitMessage ==>
        hasEngine == (old(hasEngine) || load.Loaded?) && isInitialized == old(isInitialized)
        && (load.Loaded? ==> toEngine == old(toEngine) + [Identify, IsReady] && posted == old(posted))
        && (!load.Loaded? ==> toEngine == old(toEngine) && posted == old(posted) + [Typed(Error, LoadError(load), None)])
      ensures m != InitMessage && !old(isInitialized) ==>
        hasEngine == old(hasEngine) && !isInitialized && toEngine == old(toEngine) && posted == old(posted)
      ensures m != InitMessage && old(isInitialized) ==>
        hasEngine && isInitialized && toEngine == old(toEngine) + Forwarded(m) && posted == old(posted)
    {
      if m == InitMessage {
        Initialize(load);
        return;
      }
      if !isInitialized {
        return;
      }
      toEngine := toEngine + Forwarded(m);
    }

    /** The engine's line listener: exactly one reply per line; `readyok` also marks the worker initialised. */
    method OnEngineLine(line: string)
      requires Valid() && hasEngine
      modifies this
      ensures Valid()
      ensures posted == old(posted) + [Typed(Classify(line), line, None)]
      ensures isInitialized == (old(isInitialized) || Classify(line) == Ready)
      ensures hasEngine && toEngine == old(toEngine)
    {
      var kind := Classify(line);
      posted := posted + [Typed(kind, line, None)];
      if kind == Ready {
        isInitialized := true;
      }
    }
  }
}
