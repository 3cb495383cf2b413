/**
 * public/simple-stockfish-worker.js: starts the CDN engine on `'init'`,
 * answers every other message with an error reply until the engine is
 * ready, and encodes `position` requests movetime first with default depth 8.
 */
module SimpleWorker {
  import opened Options
  import opened Uci
  import opened WorkerProtocol

  const CdnUrl := "https://cdn.jsdelivr.net/npm/stockfish@11/stockfish.js"
  const EngineName := "Stockfish 11"
  const NotReady := Typed(Error, "Stockfish not ready", None)

  function Forwarded(m: Message): seq<string> {
    match m
    case Text(s) => [s]
    case Structured(r) => EncodeSimple(r)
  }

  class Worker {
    var hasEngine: bool
    var isReady: bool
    var toEngine: seq<string>
    var posted: seq<Reply>

    ghost predicate Valid()
      reads this
    {
      isReady ==> hasEngine
    }

    constructor()
      ensures Valid()
      ensures !hasEngine && !isReady && toEngine == [] && posted == []
    {
      hasEngine := false;
      isReady := false;
      toEngine := [];
      posted := [];
    }

    /**
     * `initializeStockfish`. `created` says whether `new Worker` returned;
     * `failure` is the message of what it threw otherwise.
     */
    method Initialize(created: bool, failure: string)
      requires Valid()
      modifies this
      ensures Valid()
      ensures hasEngine == (old(hasEngine) || created) && isReady == old(isReady)
      ensures created ==> toEngine == old(toEngine) + [Identify, IsReady] && posted == old(posted)
      ensures !created ==> toEngine == old(toEngine) && posted == old(posted) + [Typed(Error, failure, None)]
    {
      if created {
        hasEngine := true;
        toEngine := toEngine + [Identify, IsReady];
      } else {
        posted := posted + [Typed(Error, failure, None)];
      }
    }

    /** `self.onmessage`: before readiness, exactly one error reply and nothing to the engine. */
    method OnMessage(m: Message, created: bool, failure: string)
      requires Valid()
      modifies this
      ensures Valid()
      ensures m == InitMessage ==>
        hasEngine == (old(hasEngine) || created) && isReady == old(isReady)
        && (created ==> toEngine == old(toEngine) + [Identify, IsReady] && posted == old(posted))
        && (!created ==> toEngine == old(toEngine) && posted == old(posted) + [Typed(Error, failure, None)])
      ensures m != InitMessage && !old(isReady) ==>
        hasEngine == old(hasEngine) && !isReady && toEngine == old(toEngine) && posted == old(posted) + [NotReady]
      ensures m != InitMessage && old(isReady) ==>
        hasEngine && isReady && toEngine == old(toEngine) + Forwarded(m) && posted == old(posted)
    {
      if m == InitMessage {
        Initialize(created, failure);
        return;
      }
      if !isReady || !hasEngine {
        posted := posted + [NotReady];
        return;
      }
      toEngine := toEngine + Forwarded(m);
    }

    /** The engine's `onmessage`: `readyok` sets `isReady` and posts ready; every line gives one reply. */
    method OnEngineLine(line: string)
      requires Valid() && hasEngine
      modifies this
      ensures Valid()
      ensures posted == old(posted) + [Typed(SimpleClassify(line), line, if SimpleClassify(line) == Ready then Some(EngineName) else None)]
      ensures isReady == (old(isReady) || SimpleClassify(line) == Ready)
      ensures hasEngine && toEngine == old(toEngine)
    {
      var kind := SimpleClassify(line);
      if kind == Ready {
        isReady := true;
        posted := posted + [Typed(Ready, line, Some(EngineName))];
      } else {
        posted := posted + [Typed(kind, line, None)];
      }
    }

    method OnEngineError(message: string)
      requires Valid() && hasEngine
      modifies this
      ensures Valid()
      ensures posted == old(posted) + [Typed(Error, message, None)]
      ensures hasEngine && isReady == old(isReady) && toEngine == old(toEngine)
    {
      posted := posted + [Typed(Error, message, None)];
    }
  }
}
