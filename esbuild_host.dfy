/**
 * The compiler-host bootstrapper (services/ui/src/hooks/useEsbuild.ts).
 *
 * A module-wide singleton made of a `ready` flag and a nullable in-flight
 * initialization promise. `ensureEsbuild` returns at once when ready, awaits
 * the recorded promise when there is one, and otherwise calls `initialize`
 * and records its promise. The promise's success sets `ready`; its failure
 * clears the record, so a later call starts over, and rejects every awaiter.
 *
 * Promises are named by the index of the `initialize` call that made them.
 * Their settling becomes the explicit event `Settle(success)`.
 */
module EsbuildHost {
  import opened Wrappers

  const DefaultWasmUrl: string := "https://unpkg.com/esbuild-wasm@0.23.1/esbuild.wasm"

  /** `useEsbuild(wasmURL = DEFAULT_WASM_URL)`: an absent URL means the default. */
  function ResolveUrl(wasmUrl: Option<string>): (url: string)
    ensures wasmUrl.Some? ==> url == wasmUrl.value
    ensures wasmUrl.None? ==> url == DefaultWasmUrl
  {
    match wasmUrl
    case Some(url) => url
    case None => DefaultWasmUrl
  }

  /** `esbuildReady`, `esbuildInitPromise` (the index of the `initialize` call
      whose promise is recorded) and the `wasmURL` handed to each `initialize`
      call so far, in order. */
  datatype Host = Host(ready: bool, inFlight: Option<nat>, initUrls: seq<string>)

  /** What a caller of `ensureEsbuild` gets: an immediate return, or the
      promise it awaits. */
  datatype Ensured = Resolved | Await(promise: nat)

  datatype HostEvent = Ensure(wasmUrl: Option<string>) | Settle(success: bool)

  function Initial(): Host {
    Host(false, None, [])
  }

  /** Every reachable host keeps these: a recorded promise is the latest
      `initialize` call's, and a ready host keeps its promise recorded. */
  ghost predicate Valid(h: Host) {
    && (h.inFlight.Some? ==> h.inFlight.value == |h.initUrls| - 1)
    && (h.ready ==> h.inFlight.Some?)
  }

  /** An initialization has been started and has not settled yet. */
  predicate Pending(h: Host) {
    h.inFlight.Some? && !h.ready
  }

  /** Number of promises recorded (0 or 1). */
  function InFlightCount(h: Host): nat {
    if h.inFlight.Some? then 1 else 0
  }

  /** `ensureEsbuild()` called from an editor created with `wasmUrl`. */
  function EnsureReady(h: Host, wasmUrl: Option<string>): (r: (Host, Ensured))
    ensures r.0.ready == h.ready
    ensures h.ready <==> r.1 == Resolved
    ensures r.1.Await? ==> r.0.inFlight == Some(r.1.promise)
    ensures h.inFlight.Some? ==> r.0 == h
    ensures h.inFlight.None? && !h.ready ==> r.0.initUrls == h.initUrls + [ResolveUrl(wasmUrl)]
    ensures h.inFlight.None? && h.ready ==> r.0 == h
  {
    if h.ready then
      (h, Resolved)
    else if h.inFlight.None? then
      var promise := |h.initUrls|;
      (h.(inFlight := Some(promise), initUrls := h.initUrls + [ResolveUrl(wasmUrl)]), Await(promise))
    else
      (h, Await(h.inFlight.value))
  }

  /** The recorded promise settles: `.then` sets ready, `.catch` clears the
      record (and rethrows to the awaiters). Nothing happens when nothing is
      pending. */
  function SettleInit(h: Host, success: bool): (r: Host)
    ensures r.initUrls == h.initUrls
    ensures r.ready <==> h.ready || (Pending(h) && success)
    ensures Pending(h) && !success ==> r.inFlight.None?
    ensures r.inFlight.Some? ==> r.inFlight == h.inFlight
    ensures !Pending(h) ==> r == h
  {
    if !Pending(h) then h
    else if success then h.(ready := true)
    else h.(inFlight := None)
  }

  function Step(h: Host, ev: HostEvent): Host {
    match ev
    case Ensure(wasmUrl) => EnsureReady(h, wasmUrl).0
    case Settle(success) => SettleInit(h, success)
  }

  function Run(h: Host, evs: seq<HostEvent>): Host
    decreases |evs|
  {
    if evs == [] then h else Step(Run(h, evs[..|evs| - 1]), evs[|evs| - 1])
  }

  /** The settles in `evs` that reject a pending initialization. */
  function Failures(h: Host, evs: seq<HostEvent>): nat
    decreases |evs|
  {
    if evs == [] then 0
    else
      var before := Run(h, evs[..|evs| - 1]);
      Failures(h, evs[..|evs| - 1])
        + (if evs[|evs| - 1] == Settle(false) && Pending(before) then 1 else 0)
  }

  // ---------------------------------------------------------------------
  // Properties of one call
  // ---------------------------------------------------------------------

  lemma StepValid(h: Host, ev: HostEvent)
    requires Valid(h)
    ensures Valid(Step(h, ev))
  {
  }

  /** When ready, `ensureEsbuild` returns without calling `initialize` and
      changes nothing. */
  lemma ReadyReturnsAtOnce(h: Host, wasmUrl: Option<string>)
    requires h.ready
    ensures EnsureReady(h, wasmUrl) == (h, Resolved)
  {
  }

  /** `initialize` is called exactly when no promise is recorded (and the
      host is not ready), with this caller's URL; otherwise the caller awaits
      the recorded promise. */
  lemma InitializeOnlyWithoutPromise(h: Host, wasmUrl: Option<string>)
    requires Valid(h)
    ensures var (h', r) := EnsureReady(h, wasmUrl);
      && h'.ready == h.ready
      && (h.inFlight.None? && !h.ready <==> |h'.initUrls| == |h.initUrls| + 1)
      && (h.inFlight.None? && !h.ready ==> h'.initUrls[|h.initUrls|] == ResolveUrl(wasmUrl))
      && (!h.ready ==> r.Await? && h'.inFlight == Some(r.promise) && r.promise == |h'.initUrls| - 1)
      && h'.initUrls[..|h.initUrls|] == h.initUrls
    ensures h.inFlight.Some? && !h.ready ==> EnsureReady(h, wasmUrl) == (h, Await(h.inFlight.value))
  {
  }

  /** Two callers that arrive before the host is ready await one and the same
      promise, and at most one `initialize` call is made between them: the
      first caller's URL is the one used. */
  lemma ConcurrentCallersShare(h: Host, u1: Option<string>, u2: Option<string>)
    requires Valid(h) && !h.ready
    ensures var (h1, r1) := EnsureReady(h, u1);
      var (h2, r2) := EnsureReady(h1, u2);
      && r1 == r2 && r1.Await?
      && h2 == h1
      && (h.inFlight.None? ==> h2.initUrls == h.initUrls + [ResolveUrl(u1)])
      && (h.inFlight.Some? ==> h2.initUrls == h.initUrls)
  {
  }

  /** After a failure the record is cleared, and the next caller starts a
      fresh `initialize` with its own URL and a new promise. */
  lemma FailureAllowsRetry(h: Host, wasmUrl: Option<string>)
    requires Valid(h) && Pending(h)
    ensures var failed := SettleInit(h, false);
      var (h', r) := EnsureReady(failed, wasmUrl);
      && failed.inFlight.None? && !failed.ready
      && h'.initUrls == h.initUrls + [ResolveUrl(wasmUrl)]
      && r == Await(|h.initUrls|) && r != Await(h.inFlight.value)
  {
  }

  // ---------------------------------------------------------------------
  // Properties of every trace
  // ---------------------------------------------------------------------

  lemma {:induction false} RunValid(h: Host, evs: seq<HostEvent>)
    requires Valid(h)
    ensures Valid(Run(h, evs))
    decreases |evs|
  {
    if evs != [] {
      RunValid(h, evs[..|evs| - 1]);
      StepValid(Run(h, evs[..|evs| - 1]), evs[|evs| - 1]);
    }
  }

  /** Success is permanent: a ready host stays ready and `initialize` is never
      called again. */
  lemma {:induction false} ReadyIsPermanent(h: Host, evs: seq<HostEvent>)
    requires h.ready
    ensures Run(h, evs) == h
    decreases |evs|
  {
    if evs != [] {
      ReadyIsPermanent(h, evs[..|evs| - 1]);
    }
  }

  /** `initialize` runs once per rejected attempt plus the one currently
      recorded: between two failures it is called at most once. */
  lemma {:induction false} InitCallsMatchFailures(h: Host, evs: seq<HostEvent>)
    requires Valid(h)
    ensures var r := Run(h, evs);
      |r.initUrls| + InFlightCount(h) == |h.initUrls| + Failures(h, evs) + InFlightCount(r)
    decreases |evs|
  {
    if evs != [] {
      var init := evs[..|evs| - 1];
      InitCallsMatchFailures(h, init);
      RunValid(h, init);
    }
  }

  /** "Boots esbuild-wasm once": from page load, `initialize` has been called
      at most once more than the number of failed attempts, and exactly once
      when none failed and one has started. */
  lemma BootsOncePerFailure(evs: seq<HostEvent>)
    ensures |Run(Initial(), evs).initUrls| <= Failures(Initial(), evs) + 1
    ensures Failures(Initial(), evs) == 0 && Run(Initial(), evs).inFlight.Some? ==>
      |Run(Initial(), evs).initUrls| == 1
  {
    InitCallsMatchFailures(Initial(), evs);
  }

  // ---------------------------------------------------------------------
  // The singleton
  // ---------------------------------------------------------------------

  /** The module-level variables of useEsbuild.ts, updated in place. */
  class Bootstrapper {
    var ready: bool
    var inFlight: Option<nat>
    var initUrls: seq<string>

    function Model(): Host
      reads this
    {
      Host(ready, inFlight, initUrls)
    }

    /** The number of `initialize` calls so far. */
    function InitCalls(): nat
      reads this
    {
      |initUrls|
    }

    constructor()
      ensures Model() == Initial()
    {
      ready := false;
      inFlight := None;
      initUrls := [];
    }

    method Ensure(wasmUrl: Option<string>) returns (r: Ensured)
      modifies this
      ensures (Model(), r) == EnsureReady(old(Model()), wasmUrl)
      ensures old(ready) ==> r == Resolved && InitCalls() == old(InitCalls())
      ensures !old(ready) ==> r.Await? && inFlight == Some(r.promise)
    {
      if ready {
        return Resolved;
      }
      if inFlight.None? {
        inFlight := Some(|initUrls|);
        initUrls := initUrls + [ResolveUrl(wasmUrl)];
      }
      r := Await(inFlight.value);
    }

    /** The recorded, still pending promise settles. */
    method Settle(success: bool)
      requires inFlight.Some? && !ready
      modifies this
      ensures Model() == SettleInit(old(Model()), success)
      ensures success ==> ready && inFlight == old(inFlight)
      ensures !success ==> !ready && inFlight == None
      ensures initUrls == old(initUrls)
    {
      if success {
        ready := true;
      } else {
        inFlight := None;
      }
    }
  }
}
