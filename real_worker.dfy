/**
 * public/real-stockfish-worker.js: starts the engine as a nested worker,
 * local script first and the CDN build when that throws, drops messages
 * until the engine is ready, and encodes `position` requests movetime first
 * when `useTime` is set.
 */
module RealWorker {
  import opened Options
  import opened Uci
  import opened WorkerProtocol

  const LocalUrl := "./stockfish.js"
  const CdnUrl := "https://cdn.jsdelivr.net/npm/stockfish@11/stockfish.js"
  const EngineName := "Stockfish 17"

  /** What creating the nested worker does: local succeeds, local throws and the CDN succeeds, or both throw. */
  datatype Create = Local | Cdn | Fails(message: string)

  function Forwarded(m: Message): seq<string> {
    match m
    case Text(s) => [s]
    case Structured(r) => EncodeReal(r)
  }

  class Worker {
    /** The script the current engine worker was created from, if any. */
    var source: Option<string>
    var isInitialized: bool
    var toEngine: seq<string>
    var posted: seq<Reply>

    ghost predicate Valid()
      reads this
    {
      isInitialized ==> source.Some?
    }

    constructor()
      ensures Valid()
      ensures source.None? && !isInitialized && toEngine == [] && posted == []
    {
      source := None;
      isInitialized := false;
      toEngine := [];
      posted := [];
    }

    /** `initializeStockfish`: a created engine gets `uci` then `isready`; if both creations throw, the error is posted. */
    method Initialize(create: Create)
      requires Valid()
      modifies this
      ensures Valid()
      ensures source == (if create.Local? then Some(LocalUrl) else if create.Cdn? then Some(CdnUrl) else old(source))
      ensures isInitialized == old(isInitialized)
      ensures !create.Fails? ==> toEngine == old(toEngine) + [Identify, IsReady] && posted == old(posted)
      ensures create.Fails? ==> toEngine == old(toEngine) && posted == old(posted) + [Typed(Error, create.message, None)]
    {
      match create
      case Local =>
        source := Some(LocalUrl);
        toEngine := toEngine + [Identify, IsReady];
      case Cdn =>
        source := Some(CdnUrl);
        toEngine := toEngine + [Identify, IsReady];
      case Fails(message) =>
        posted := posted + [Typed(Error, message, None)];
    }

    /** `self.onmessage`: `'init'` initialises; other messages are dropped while `!isInitialized || !stockfish`. */
    method OnMessage(m: Message, create: Create)
      requires Valid()
      modifies this
      ensures Valid()
      ensures m == InitMessage ==>
        source == (if create.Local? then Some(LocalUrl) else if create.Cdn? then Some(CdnUrl) else old(source))
        && isInitialized == old(isInitialized)
        && (!create.Fails? ==> toEngine == old(toEngine) + [Identify, IsReady] && posted == old(posted))
        && (create.Fails? ==> toEngine == old(toEngine) && posted == old(posted) + [Typed(Error, create.message, None)])
      ensures m != InitMessage && (!old(isInitialized) || old(source).None?) ==>
        source == old(source) && isInitialized == old(isInitialized) && toEngine == old(toEngine) && posted == old(posted)
      ensures m != InitMessage && old(isInitialized) && old(source).Some? ==>
        source == old(source) && isInitialized && toEngine == old(toEngine) + Forwarded(m) && posted == old(posted)
    {
      if m == InitMessage {
        Initialize(create);
        return;
      }
      if !isInitialized || source.None? {
        return;
      }
      toEngine := toEngine + Forwarded(m);
    }

    /** The engine's `onmessage`: one reply per line; readiness is tagged with the engine name. */
    method OnEngineLine(line: string)
      requires Valid() && source.Some?
      modifies this
      ensures Valid()
      ensures posted == old(posted) + [Typed(Classify(line), line, if Classify(line) == Ready then Some(EngineName) else None)]
      ensures isInitialized == (old(isInitialized) || Classify(line) == Ready)
      ensures source == old(source) && toEngine == old(toEngine)
    {
      var kind := Classify(line);
      if kind == Ready {
        posted := posted + [Typed(Ready, line, Some(EngineName))];
        isInitialized := true;
      } else {
        posted := posted + [Typed(kind, line, None)];
      }
    }

    /** The engine's `onerror`: the error's message is posted. */
    method OnEngineError(message: string)
      requires Valid() && source.Some?
      modifies this
      ensures Valid()
      ensures posted == old(posted) + [Typed(Error, message, None)]
      ensures source == old(source) && isInitialized == old(isInitialized) && toEngine == old(toEngine)
    {
      posted := posted + [Typed(Error, message, None)];
    }
  }
}
