/**
 * The client that `initialize(apiKey, target, options)` builds: the cache,
 * the subscriber registry, the event stream handle and the promise chains
 * that drive them, as one object.  Each asynchronous step of those chains is
 * a method, called when the network result it waits for has arrived; the
 * order in which a caller invokes them is the order in which, at run time,
 * the responses happen to settle.
 */
module FeatureFlagClient {
  import opened Wrappers
  import opened Values
  import opened FlagCache
  import opened Events
  import opened StreamMessages

  /** `streamEnabled` of `defaultOptions`. */
  const DefaultStreamEnabled: bool := true

  /** The one option the model uses; `None` means the caller's object has no such property. */
  datatype Options = Options(streamEnabled: Option<Value>)

  /**
   * `{ ...defaultOptions, ...options }.streamEnabled`, read through `!`:
   * the default applies only when the property is absent, and a present
   * value, even `undefined`, is judged by its truthiness.
   */
  function StreamEnabled(options: Options): bool
  {
    match options.streamEnabled
    case None => DefaultStreamEnabled
    case Some(v) => Truthy(v)
  }

  /** The bearer token and the environment identifier decoded from it. */
  datatype Session = Session(token: string, environment: string)

  /** How authentication settled: a token whose payload names the environment, or a failure. */
  datatype AuthOutcome = Authenticated(token: string, environment: string) | AuthRejected(reason: string)

  /** Where the start-up chain is. */
  datatype Phase =
    | Authenticating     // the auth request is out
    | FetchingAll        // authenticated; the bulk fetch is out
    | Running            // bulk fetch settled, stream started (if enabled), READY emitted
    | Unauthenticated    // authentication failed; nothing more happens

  /** The `eventSource` variable: never assigned, an open stream, or a closed one. */
  datatype StreamState = NoStream | Open | Closed

  /** The ERROR event a failed bulk fetch emits, if it failed. */
  function BulkFailure(response: BulkResponse): Option<ErrorDetail>
  {
    match response
    case FetchFailed(reason) => Some(BulkFetchFailure(reason))
    case Fetched(items) =>
      var n := |ReadPrefix(items)|;
      if n < |items| then Some(MalformedEvaluation(n)) else None
  }

  /**
   * A bulk fetch reports an error exactly when it does not write every
   * element: the request failed (and nothing is written), or an element is
   * malformed, and then the error names the first such element and the
   * writes stop there.
   */
  lemma BulkErrorUnlessAllWritten(response: BulkResponse)
    ensures BulkFailure(response).None? <==>
      response.Fetched? && forall i :: 0 <= i < |response.items| ==> response.items[i].Entry?
    ensures BulkFailure(response).None? ==>
      forall i :: 0 <= i < |response.items| ==> BulkWrites(response)[i] == response.items[i].eval
    ensures response.FetchFailed? ==>
      BulkWrites(response) == [] && BulkFailure(response) == Some(BulkFetchFailure(response.reason))
    ensures response.Fetched? && BulkFailure(response).Some? ==>
      var n := |BulkWrites(response)|;
      && BulkFailure(response) == Some(MalformedEvaluation(n))
      && n < |response.items| && response.items[n].Malformed?
      && forall i :: 0 <= i < n ==> response.items[i].Entry?
  {
  }

  /** The ERROR emission for a bulk failure, made before any stream exists; nothing when there is none. */
  function FailureEntries(e: Option<ErrorDetail>, reg: Registry, cache: Storage): seq<Emitted>
  {
    match e
    case None => []
    case Some(detail) => [Emitted(Error, Failure(detail), Handlers(reg, Error), cache, false)]
  }

  class Client {
    const streamEnabled: bool
    var phase: Phase
    var session: Option<Session>
    var storage: Storage
    var registry: Registry
    var log: seq<Emitted>
    var stream: StreamState
    var deferred: seq<string>   // pending `create` timers, in the order they were set
    var inFlight: seq<string>   // point fetches issued and not yet settled

    /**
     * The start-up order, as an invariant: nothing is emitted before
     * authentication settles, READY is emitted exactly once and only once
     * the bulk fetch has settled, a stream exists only after that and only
     * when enabled, and point fetches come only from stream messages.
     */
    ghost predicate Valid()
      reads this`phase, this`session, this`log, this`stream, this`deferred, this`inFlight
    {
      && (phase == Authenticating ==> log == [] && session == None)
      && (phase == Unauthenticated ==> session == None)
      && (phase == FetchingAll || phase == Running ==> session.Some?)
      && CountKind(log, Ready) == (if phase == Running then 1 else 0)
      && (stream != NoStream ==> phase == Running && streamEnabled)
      && (deferred != [] || inFlight != [] ==> stream != NoStream)
    }

    /** `initialize`: the options are merged, the cache and registry are empty and authentication starts. */
    constructor (options: Options)
      ensures Valid()
      ensures streamEnabled == StreamEnabled(options)
      ensures options.streamEnabled.None? ==> streamEnabled == DefaultStreamEnabled
      ensures options.streamEnabled.Some? ==> (streamEnabled <==> Truthy(options.streamEnabled.value))
      ensures phase == Authenticating && session == None
      ensures storage == map[] && registry == map[] && log == []
      ensures stream == NoStream && deferred == [] && inFlight == []
    {
      streamEnabled := StreamEnabled(options);
      phase := Authenticating;
      session := None;
      storage := map[];
      registry := map[];
      log := [];
      stream := NoStream;
      deferred := [];
      inFlight := [];
    }

    /**
     * `eventBus.emit(kind, payload)`: the callbacks registered for `kind` are
     * called in registration order, and find the cache and the stream as
     * they are at this moment.
     */
    method Emit(kind: EventKind, payload: Payload)
      modifies this`log
      ensures log == old(log) + [Emitted(kind, payload, Handlers(registry, kind), storage, stream == Open)]
    {
      log := log + [Emitted(kind, payload, Handlers(registry, kind), storage, stream == Open)];
    }

    /** Authentication settles: on success the session is kept and the bulk fetch starts; on failure one ERROR. */
    method AuthSettled(outcome: AuthOutcome)
      requires Valid() && phase == Authenticating
      modifies this
      ensures Valid()
      ensures storage == old(storage) && registry == old(registry) && stream == old(stream)
      ensures deferred == old(deferred) && inFlight == old(inFlight)
      ensures outcome.Authenticated? ==>
        && phase == FetchingAll
        && session == Some(Session(outcome.token, outcome.environment))
        && log == old(log)
      ensures outcome.AuthRejected? ==>
        && phase == Unauthenticated
        && session == None
        && log == old(log) + [Emitted(Error, Failure(AuthFailure(outcome.reason)), Handlers(registry, Error), storage, false)]
    {
      match outcome
      case Authenticated(token, environment) =>
        session := Some(Session(token, environment));
        phase := FetchingAll;
      case AuthRejected(reason) =>
        Emit(Error, Failure(AuthFailure(reason)));
        phase := Unauthenticated;
    }

    /**
     * The `forEach` of `fetchFlags`: `storage[elem.flag] = elem.value` for
     * each element in turn, stopping where an element is malformed; `n` is
     * the number of elements written.
     */
    method WriteEvaluations(items: seq<BulkItem>) returns (n: nat)
      modifies this`storage
      ensures n == |ReadPrefix(items)|
      ensures storage == MergeAll(old(storage), ReadPrefix(items))
    {
      ghost var writes := ReadPrefix(items);
      n := 0;
      while n < |items| && items[n].Entry?
        invariant 0 <= n <= |writes|
        invariant storage == MergeAll(old(storage), writes[..n])
      {
        assert writes[..n + 1][..n] == writes[..n];
        var e := items[n].eval;
        storage := storage[e.flag := e.value];
        n := n + 1;
      }
      assert writes[..n] == writes;
    }

    /** `fetchFlags`: the evaluations are written, and a failure is reported as one ERROR and swallowed. */
    method FetchFlagsSettled(response: BulkResponse)
      requires stream == NoStream
      modifies this`storage, this`log
      ensures storage == MergeAll(old(storage), BulkWrites(response))
      ensures log == old(log) + FailureEntries(BulkFailure(response), registry, storage)
    {
      match response {
        case FetchFailed(reason) =>
          Emit(Error, Failure(BulkFetchFailure(reason)));
        case Fetched(items) =>
          var n := WriteEvaluations(items);
          if n < |items| {
            Emit(Error, Failure(MalformedEvaluation(n)));
          }
      }
    }

    /**
     * The bulk fetch settles, and the chain runs on: `fetchFlags` updates
     * the cache (reporting but swallowing a failure), the stream is started
     * when enabled, and READY is emitted with the cache.
     */
    method BulkSettled(response: BulkResponse)
      requires Valid() && phase == FetchingAll
      modifies this`storage, this`log, this`stream, this`phase
      ensures Valid()
      ensures storage == MergeAll(old(storage), BulkWrites(response))
      ensures stream == (if streamEnabled then Open else NoStream)
      ensures phase == Running
      ensures log == old(log) + FailureEntries(BulkFailure(response), registry, storage)
        + [Emitted(Ready, Snapshot(storage), Handlers(registry, Ready), storage, streamEnabled)]
    {
      FetchFlagsSettled(response);
      CountKindAppend(old(log), FailureEntries(BulkFailure(response), registry, storage), Ready);
      StartRunning();
    }

    /** After `fetchFlags`: the stream is started when enabled, and READY is emitted with the cache. */
    method StartRunning()
      requires phase == FetchingAll && session.Some? && CountKind(log, Ready) == 0
      requires stream == NoStream && deferred == [] && inFlight == []
      modifies this`log, this`stream, this`phase
      ensures Valid()
      ensures stream == (if streamEnabled then Open else NoStream)
      ensures phase == Running
      ensures log == old(log) + [Emitted(Ready, Snapshot(storage), Handlers(registry, Ready), storage, streamEnabled)]
    {
      stream := if streamEnabled then Open else NoStream;
      phase := Running;
      ghost var ready := Emitted(Ready, Snapshot(storage), Handlers(registry, Ready), storage, streamEnabled);
      CountKindAppend(log, [ready], Ready);
      Emit(Ready, Snapshot(storage));
    }

    /** `onopen`: one CONNECTED event. */
    method OnStreamOpen()
      requires Valid() && stream == Open
      modifies this`log
      ensures Valid()
      ensures log == old(log) + [Emitted(Connected, NoPayload, Handlers(registry, Connected), storage, true)]
    {
      Emit(Connected, NoPayload);
      CountKindAppend(old(log), [log[|log| - 1]], Ready);
    }

    /** `onclose`: one DISCONNECTED event. */
    method OnStreamClosed()
      requires Valid() && stream == Open
      modifies this`log
      ensures Valid()
      ensures log == old(log) + [Emitted(Disconnected, NoPayload, Handlers(registry, Disconnected), storage, true)]
    {
      Emit(Disconnected, NoPayload);
      CountKindAppend(old(log), [log[|log| - 1]], Ready);
    }

    /** `onerror`: one ERROR event; the cache is not touched. */
    method OnStreamError(reason: string)
      requires Valid() && stream == Open
      modifies this`log
      ensures Valid()
      ensures log == old(log) + [Emitted(Error, Failure(StreamFailure(reason)), Handlers(registry, Error), storage, true)]
    {
      Emit(Error, Failure(StreamFailure(reason)));
      CountKindAppend(old(log), [log[|log| - 1]], Ready);
    }

    /**
     * The stream listener: `create` sets a timer for a point fetch, `patch`
     * issues one at once, `delete` drops the entry and emits CHANGED with
     * the deletion marker, any other event name does nothing.
     */
    method OnStreamMessage(msg: StreamMessage)
      requires Valid() && stream == Open
      modifies this`storage, this`log, this`deferred, this`inFlight
      ensures Valid()
      ensures msg.event == "create" ==>
        && deferred == old(deferred) + [msg.identifier] && inFlight == old(inFlight)
        && storage == old(storage) && log == old(log)
      ensures msg.event == "patch" ==>
        && inFlight == old(inFlight) + [msg.identifier] && deferred == old(deferred)
        && storage == old(storage) && log == old(log)
      ensures msg.event == "delete" ==>
        && storage == Remove(old(storage), msg.identifier)
        && log == old(log) + [Emitted(Changed, Deleted(msg.identifier), Handlers(registry, Changed), storage, true)]
        && deferred == old(deferred) && inFlight == old(inFlight)
      ensures msg.event != "create" && msg.event != "patch" && msg.event != "delete" ==>
        && storage == old(storage) && log == old(log)
        && deferred == old(deferred) && inFlight == old(inFlight)
    {
      match msg.event
      case "create" =>
        deferred := deferred + [msg.identifier];
      case "patch" =>
        inFlight := inFlight + [msg.identifier];
      case "delete" =>
        storage := Remove(storage, msg.identifier);
        Emit(Changed, Deleted(msg.identifier));
        CountKindAppend(old(log), [log[|log| - 1]], Ready);
      case _ =>
    }

    /** The oldest `create` timer fires and issues its point fetch; closing the client does not cancel it. */
    method FireDeferred()
      requires Valid() && deferred != []
      modifies this`deferred, this`inFlight
      ensures Valid()
      ensures deferred == old(deferred)[1..]
      ensures inFlight == old(inFlight) + [old(deferred)[0]]
    {
      inFlight := inFlight + [deferred[0]];
      deferred := deferred[1..];
    }

    /**
     * The `i`-th outstanding point fetch settles, in whatever order the
     * network delivers: the cache is reconciled under the identifier the
     * fetch was issued for, then one event is emitted, CHANGED with the
     * body when the response is OK and ERROR otherwise.
     */
    method CompleteFetch(i: nat, outcome: PointOutcome)
      requires Valid() && i < |inFlight|
      modifies this`storage, this`log, this`inFlight
      ensures Valid()
      ensures storage == Reconcile(old(storage), old(inFlight)[i], outcome)
      ensures inFlight == old(inFlight)[..i] + old(inFlight)[i + 1..]
      ensures outcome.Ok? ==>
        log == old(log) + [Emitted(Changed, Evaluated(outcome.eval), Handlers(registry, Changed), storage, stream == Open)]
      ensures outcome.NotOk? ==>
        log == old(log) + [Emitted(Error, Failure(PointFetchNotOk(outcome.status)), Handlers(registry, Error), storage, stream == Open)]
      ensures outcome.Threw? ==>
        log == old(log) + [Emitted(Error, Failure(PointFetchFailure(outcome.reason)), Handlers(registry, Error), storage, stream == Open)]
    {
      var id := inFlight[i];
      inFlight := inFlight[..i] + inFlight[i + 1..];
      storage := Reconcile(storage, id, outcome);
      match outcome {
        case Ok(flagInfo) => Emit(Changed, Evaluated(flagInfo));
        case NotOk(status) => Emit(Error, Failure(PointFetchNotOk(status)));
        case Threw(reason) => Emit(Error, Failure(PointFetchFailure(reason)));
      }
      CountKindAppend(old(log), [log[|log| - 1]], Ready);
    }

    /** `on(kind, cb)`. */
    method On(kind: EventKind, cb: Callback)
      requires Valid()
      modifies this`registry
      ensures Valid()
      ensures registry == Subscribe(old(registry), kind, cb)
    {
      registry := Subscribe(registry, kind, cb);
    }

    /**
     * `close()`: the cache and every subscription are cleared, then the
     * stream is closed; when no stream was ever opened, `eventSource.close()`
     * throws after the clearing (`threw`).
     */
    method Close() returns (threw: bool)
      requires Valid()
      modifies this`storage, this`registry, this`stream
      ensures Valid()
      ensures storage == map[] && registry == map[]
      ensures threw <==> old(stream) == NoStream
      ensures stream == if threw then NoStream else Closed
    {
      storage := map[];
      registry := map[];
      threw := stream == NoStream;
      if !threw {
        stream := Closed;
      }
    }

    /**
     * `off(kind?, cb?)`: without a kind it is `close()`; with a kind it goes
     * to the event bus, and with a callback as well one registration of that
     * callback for that kind is removed.
     */
    method Off(kind: Option<EventKind>, cb: Option<Callback>) returns (threw: bool)
      requires Valid()
      modifies this`storage, this`registry, this`stream
      ensures Valid()
      ensures kind.None? ==>
        && storage == map[] && registry == map[]
        && (threw <==> old(stream) == NoStream)
        && stream == (if threw then NoStream else Closed)
      ensures kind.Some? ==>
        && !threw && storage == old(storage) && stream == old(stream)
        && SameExcept(registry, old(registry), kind.value)
      ensures kind.Some? && cb.Some? ==> registry == Unsubscribe(old(registry), kind.value, cb.value)
    {
      if kind.None? {
        threw := Close();
      } else {
        OffKind(kind.value, cb);
        threw := false;
      }
    }

    /** `eventBus.off(kind, cb)`: only the list for `kind` can change. */
    method OffKind(kind: EventKind, cb: Option<Callback>)
      modifies this`registry
      ensures SameExcept(registry, old(registry), kind)
      ensures cb.Some? ==> registry == Unsubscribe(old(registry), kind, cb.value)
    {
      match cb
      case Some(f) => registry := Unsubscribe(registry, kind, f);
      // mitt 3 empties the list here; mitt 2 leaves it as it is
      case None => registry := ClearKind(registry, kind);
    }

    /** `variation(flag, fallback)` as written: `storage[flag] || fallback`. */
    function Variation(flag: string, fallback: Value): (r: Value)
      reads this
      ensures flag in storage && Truthy(storage[flag]) ==> r == storage[flag]
      ensures flag !in storage || !Truthy(storage[flag]) ==> r == fallback
    {
      Or(Lookup(storage, flag), fallback)
    }

    /** A lookup that falls back only for a missing flag: the cached value whenever there is one. */
    function IntendedVariation(flag: string, fallback: Value): (r: Value)
      reads this
      ensures flag in storage ==> r == storage[flag]
      ensures flag !in storage ==> r == fallback
    {
      if flag in storage then storage[flag] else fallback
    }
  }

  /** A cached `false` (or 0, or "") is hidden by `variation`: the fallback comes back instead. */
  lemma VariationHidesFalsyValue(c: Client, flag: string, fallback: Value)
    requires flag in c.storage && !Truthy(c.storage[flag]) && fallback != c.storage[flag]
    ensures c.Variation(flag, fallback) == fallback
    ensures c.Variation(flag, fallback) != c.IntendedVariation(flag, fallback)
  {
  }

  /** Where the cached value is truthy, both lookups agree. */
  lemma VariationAgreesOnTruthy(c: Client, flag: string, fallback: Value)
    requires flag !in c.storage || Truthy(c.storage[flag])
    ensures c.Variation(flag, fallback) == c.IntendedVariation(flag, fallback)
  {
  }
}
