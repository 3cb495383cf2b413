/**
 * public/ultra-simple-stockfish-worker.js: imports the engine into the
 * worker itself, walks a fixed list of fallback builds when the primary one
 * yields no constructor, forwards every command to the engine it got, and
 * relays the engine's output only when an engine existed at setup.
 */
module UltraSimpleWorker {
  import opened WorkerProtocol

  const FallbackUrls := [
    "https://cdn.jsdelivr.net/npm/stockfish@15/stockfish.min.js",
    "https://cdn.jsdelivr.net/npm/stockfish@14/stockfish.min.js",
    "https://cdn.jsdelivr.net/npm/stockfish@11/stockfish.js"
  ]
  const AllFailed := "error: All Stockfish versions failed to load"
  const NotInitialized := "error: Stockfish not initialized"

  /**
   * The first index from `index` on whose build yields an engine, or
   * |loads| when none does; `loads[k]` says whether importing fallback k and
   * calling its constructor succeeds.
   */
  function FirstLoad(loads: seq<bool>, index: nat): (k: nat)
    requires index <= |loads|
    ensures index <= k <= |loads|
    ensures k < |loads| ==> loads[k]
    ensures forall j :: index <= j < k ==> !loads[j]
    decreases |loads| - index
  {
    if index == |loads| then index else if loads[index] then index else FirstLoad(loads, index + 1)
  }

  /** The URLs a walk from `index` imports: up to and including the first that loads. */
  function TriedFrom(loads: seq<bool>, index: nat): seq<string>
    requires |loads| == |FallbackUrls| && index <= |loads|
  {
    var k := FirstLoad(loads, index);
    FallbackUrls[index..if k < |loads| then k + 1 else k]
  }
  lemma SliceCons(urls: seq<string>, i: nat, j: nat)
    requires i < j <= |urls|
    ensures urls[i..j] == [urls[i]] + urls[i + 1..j]
  {
  }

  /** A URL that fails to load is followed by the walk from the next one. */
  lemma TriedFromSkip(loads: seq<bool>, index: nat)
    requires |loads| == |FallbackUrls| && index < |loads| && !loads[index]
    ensures TriedFrom(loads, index) == [FallbackUrls[index]] + TriedFrom(loads, index + 1)
  {
    var k := FirstLoad(loads, index);
    SliceCons(FallbackUrls, index, if k < |loads| then k + 1 else k);
  }


  /** No fallback URL appears twice, so a walk imports each at most once. */
  lemma FallbackUrlsDistinct()
    ensures forall i, j :: 0 <= i < j < |FallbackUrls| ==> FallbackUrls[i] != FallbackUrls[j]
  {
    assert FallbackUrls[0][40] == '5' && FallbackUrls[1][40] == '4' && FallbackUrls[2][40] == '1';
  }

  class Worker {
    /** False when the primary import threw and the script stopped before installing any handler. */
    var running: bool
    var hasEngine: bool
    /** Whether the engine's output handler was installed at setup. */
    var relaying: bool
    /** The fallback URLs imported, in order. */
    var tried: seq<string>
    var toEngine: seq<Message>
    var posted: seq<Reply>

    ghost predicate Valid()
      reads this
    {
      relaying == hasEngine && (hasEngine ==> running)
    }

    /**
     * The script's top level. `primaryImported` says whether the primary
     * import returned, `primaryLoads` whether it then yields an engine, and
     * `loads` the same for each fallback build.
     */
    constructor(primaryImported: bool, primaryLoads: bool, loads: seq<bool>)
      requires |loads| == |FallbackUrls|
      ensures Valid()
      ensures running == primaryImported && toEngine == []
      ensures !primaryImported ==> !hasEngine && tried == [] && posted == []
      ensures primaryImported && primaryLoads ==> hasEngine && tried == [] && posted == []
      ensures primaryImported && !primaryLoads ==>
        tried == TriedFrom(loads, 0)
        && hasEngine == (FirstLoad(loads, 0) < |loads|)
        && posted == (if hasEngine then [] else [Plain(AllFailed)])
    {
      running := primaryImported;
      hasEngine := primaryImported && primaryLoads;
      tried := [];
      toEngine := [];
      posted := [];
      relaying := false;
      new;
      if primaryImported && !primaryLoads {
        TryFallback(0, loads);
      }
      relaying := hasEngine;
    }

    /** `tryFallback(index)`: import fallback builds in order until one yields an engine. */
    method TryFallback(index: nat, loads: seq<bool>)
      requires |loads| == |FallbackUrls| && index <= |loads|
      modifies this
      ensures tried == old(tried) + TriedFrom(loads, index)
      ensures hasEngine == (old(hasEngine) || FirstLoad(loads, index) < |loads|)
      ensures posted == old(posted) + (if FirstLoad(loads, index) < |loads| then [] else [Plain(AllFailed)])
      ensures running == old(running) && relaying == old(relaying) && toEngine == old(toEngine)
      decreases |loads| - index
    {
      if index >= |FallbackUrls| {
        assert TriedFrom(loads, index) == [];
        posted := posted + [Plain(AllFailed)];
        return;
      }
      tried := tried + [FallbackUrls[index]];
      if loads[index] {
        assert TriedFrom(loads, index) == [FallbackUrls[index]];
        hasEngine := true;
      } else {
        TryFallback(index + 1, loads);
        TriedFromSkip(loads, index);
      }
    }

    /** `self.onmessage`: a command goes to the engine unchanged, or an error comes back when there is none. */
    method OnMessage(command: Message)
      requires Valid()
      modifies this
      ensures Valid()
      ensures running == old(running) && hasEngine == old(hasEngine) && relaying == old(relaying) && tried == old(tried)
      ensures !running ==> toEngine == old(toEngine) && posted == old(posted)
      ensures running && hasEngine ==> toEngine == old(toEngine) + [command] && posted == old(posted)
      ensures running && !hasEngine ==> toEngine == old(toEngine) && posted == old(posted) + [Plain(NotInitialized)]
    {
      if !running {
        return;
      }
      if hasEngine {
        toEngine := toEngine + [command];
      } else {
        posted := posted + [Plain(NotInitialized)];
      }
    }

    /** The engine's output, relayed verbatim when the handler was installed at setup. */
    method OnEngineOutput(output: string)
      requires Valid() && hasEngine
      modifies this
      ensures Valid()
      ensures posted == old(posted) + (if relaying then [Plain(output)] else [])
      ensures running == old(running) && hasEngine && relaying == old(relaying) && tried == old(tried) && toEngine == old(toEngine)
    {
      if relaying {
        posted := posted + [Plain(output)];
      }
    }
  }
}
