# Feature-flag client: evaluation cache, push reconciliation and start-up order

This project is a Dafny model of the browser/Node client that `initialize(apiKey, target, options)` in
`src/index.ts` builds. It covers:

- **The evaluation cache (`storage`).** A map from flag identifier to value. Four code paths rewrite it:
  - the bulk evaluation fetch (`fetchFlags`);
  - the single-flag fetch (`fetchFlag`);
  - the `delete` push message;
  - `close()`, which replaces it with an empty object.
- **The push-message dispatcher.** `create` defers a point fetch behind a timer, `patch` fetches at once,
  `delete` drops the entry, and any other event name does nothing.
- **The subscriber registry and the event log.** `on` appends a callback to its kind's list. `off` removes
  the first registration of a callback. Every emission is recorded with the callbacks it reached, the
  cache as those callbacks find it, and whether the event stream was open at that moment.
- **The public facade.** `variation`, `close`, and `off` with and without arguments.
- **The start-up chain.** Authentication, then the bulk fetch, then `startStream`, then READY. A failed
  bulk fetch reports ERROR but does not stop the chain.

Each asynchronous step of the promise chains is a method of the class `FeatureFlagClient.Client`. A caller
invokes the step when the network result it waits for has arrived, so the order of the calls is the order
in which responses settle at run time. Several point fetches may be outstanding at once (`inFlight`), and
`CompleteFetch(i, …)` settles any one of them. An invariant, `Client.Valid`, states the start-up order:

- nothing is emitted before authentication settles;
- READY is emitted exactly once, and only after the bulk fetch;
- a stream exists only once the client is running, and only when streaming is enabled;
- point fetches and pending timers exist only once a stream has been opened.

Modules:

- `Wrappers`: `Option`.
- `Values`: JavaScript values, truthiness and `||`.
- `FlagCache`: the cache as a value, and the bulk merge, point reconcile, delete and completion-replay
  functions with their lemmas.
- `Events`: event kinds, payloads, the registry and the log.
- `StreamMessages`: the parsed push message.
- `FeatureFlagClient`: options, session, and the `Client` class.
- `Scenarios`: whole runs proved from the method contracts alone.

Two behaviours of the code are worth calling out, and the model follows the code in both:

- **A failed bulk fetch does not stop start-up.** `fetchFlags` catches its own errors
  (`src/index.ts:80-84`): it emits one ERROR and resolves normally. So the chain goes on: `startStream` runs
  (`src/index.ts:55`) and READY is emitted (`src/index.ts:59`). A `null` element in the response array
  makes `forEach` throw, and the elements before it stay written. The model writes that prefix and then
  emits one ERROR (`FlagCache.ReadPrefix`, `Client.FetchFlagsSettled`, `Scenarios.FailedBulkFetch`).
- **`variation` on a falsy value.** The code returns the fallback for every falsy cached value, so a cached
  `false` comes back as the fallback (see Findings and `Scenarios.PatchToFalsy`).

## Model

| member | source | states |
|---|---|---|
| FlagCache.ReadPrefix | src/index.ts:77-79 | `forEach` writes the elements before the first malformed one, in order, each equal to its response element; when it stops early, the element at the stop is malformed |
| FlagCache.MergeAllLastEntryWins | src/index.ts:77-79 | after the bulk merge, each returned flag holds the value of its LAST entry in the response |
| FlagCache.MergeAllKeepsOthers | src/index.ts:77-79 | a flag absent from the response keeps its presence and value (the merge is additive) |
| FlagCache.Reconcile | src/index.ts:98-108 | an OK point fetch stores the body's value under the requested identifier and adds no other key; a non-OK response or an exception leaves the cache exactly as it was; other keys never change |
| FlagCache.ReconcileIgnoresBodyFlag | src/index.ts:99-100 | the flag named in the response body does not affect where the value is stored |
| FlagCache.Remove | src/index.ts:152 | after `delete storage[id]` the key is absent, and every other key is present with the same value |
| FlagCache.ReplayLastCompletionWins | src/index.ts:87-109 | over any completion order, a flag holds the value of the last OK completion for it ("last to complete wins") |
| FlagCache.ReplayKeepsBaseline | src/index.ts:102-108 | a flag no OK completion wrote keeps its baseline presence and value, so failed fetches leave stale values |
| FlagCache.ReplaySwapDistinct | src/index.ts:98-101 | two adjacent completions for different flags give the same cache in either order |
| FeatureFlagClient.BulkErrorUnlessAllWritten | src/index.ts:77-84 | a bulk fetch reports an ERROR exactly when it does not write every element: a failed request writes nothing and reports its reason; otherwise the error names the first malformed element, all elements before it are well formed, and writing stops there |
| Events.Subscribe | src/index.ts:161 | `on(kind, cb)` appends `cb` to that kind's list and changes no other list |
| Events.IndexOf | src/index.ts:165 | `indexOf` gives a position holding `cb` before which `cb` does not occur |
| Events.RemoveFirst | src/index.ts:165 | `splice(indexOf(cb) >>> 0, 1)` deletes the first occurrence of `cb`, and nothing when `cb` is absent |
| Events.RemoveFirstRemovesOne | src/index.ts:165 | as a multiset, removing a callback takes away exactly one registration of it when one exists; the length drops by one exactly then |
| Events.Unsubscribe | src/index.ts:163-165 | `off(kind, cb)` rewrites only that kind's list, by removing the first registration of `cb` |
| Events.ClearKind | src/index.ts:165 | the list for one kind is emptied and the others are untouched |
| FeatureFlagClient.Client.constructor | src/index.ts:13-16 | a fresh client has an empty cache and registry, no stream, and is authenticating. The stream option follows the `{...defaultOptions, ...options}` merge: an absent `streamEnabled` means the default `true`, and a present one counts by truthiness, so even an explicit `undefined` disables the stream (`src/index.ts:113`) |
| FeatureFlagClient.Client.Emit | src/index.ts:101 | `eventBus.emit` appends one entry: the kind and payload, the callbacks registered for that kind in registration order, and the cache and stream state those callbacks see (the same holds at lines 59, 67, 82, 103, 107, 126, 131, 136 and 153; the emission at line 62 is not modelled, because that `.catch` is reached only through a throwing stream constructor or subscriber) |
| FeatureFlagClient.Client.AuthSettled | src/index.ts:40-68 | success keeps the session and starts the bulk fetch without emitting; failure emits one ERROR and ends the chain; the cache, registry and stream stay untouched |
| FeatureFlagClient.Client.WriteEvaluations | src/index.ts:77-79 | the `forEach` loop leaves the cache equal to the merge of the well-formed prefix, and returns the prefix length |
| FeatureFlagClient.Client.FetchFlagsSettled | src/index.ts:70-85 | `fetchFlags` merges what it read, then appends the one ERROR that `BulkErrorUnlessAllWritten` characterises when it failed, otherwise nothing; that ERROR is emitted before any stream exists |
| FeatureFlagClient.Client.BulkSettled | src/index.ts:50-60 | after the bulk fetch settles, whether it failed or not: the cache is the merge and the optional ERROR comes first. Exactly one READY follows, carrying the cache, and it is emitted with the stream already open exactly when streaming is enabled; `Valid` holds |
| FeatureFlagClient.Client.StartRunning | src/index.ts:54-60 | `startStream` opens the stream only when enabled. READY is emitted after it returns: the READY entry records the stream as open exactly when streaming is enabled, and it reaches the READY subscribers with the current cache |
| FeatureFlagClient.Client.OnStreamOpen | src/index.ts:124-127 | one CONNECTED is emitted and nothing else changes |
| FeatureFlagClient.Client.OnStreamClosed | src/index.ts:129-132 | one DISCONNECTED is emitted and nothing else changes |
| FeatureFlagClient.Client.OnStreamError | src/index.ts:134-137 | one ERROR is emitted and the cache is untouched |
| FeatureFlagClient.Client.OnStreamMessage | src/index.ts:139-158 | by the message's `event` name: `"create"` queues one timer for its identifier and nothing else; `"patch"` issues exactly one point fetch for its identifier and nothing else; `"delete"` removes the key, issues no fetch and appends one CHANGED with the deletion marker, whose subscribers see the key gone; any other name changes nothing |
| FeatureFlagClient.Client.FireDeferred | src/index.ts:146 | the oldest timer fires and issues exactly one point fetch for its identifier |
| FeatureFlagClient.Client.CompleteFetch | src/index.ts:87-109 | any outstanding fetch may settle. The cache becomes `Reconcile` under the identifier the fetch was issued for. Exactly one event is appended: CHANGED with the body when OK, ERROR with the status when not OK, ERROR with the exception when the fetch threw. Its subscribers see the updated cache (write before emit) |
| FeatureFlagClient.Client.On | src/index.ts:161 | the registry becomes `Subscribe` of the old one |
| FeatureFlagClient.Client.Off | src/index.ts:163-169 | with no kind, it does what `close()` does; with a kind, only that kind's list may change, and the cache and stream stay as they were; with a kind and a callback, it is `Unsubscribe` |
| FeatureFlagClient.Client.OffKind | src/index.ts:165 | `eventBus.off(kind, cb)` changes only that kind's list; with a callback it is `Unsubscribe` |
| FeatureFlagClient.Client.Close | src/index.ts:173-178 | the cache and all subscriptions are cleared. The stream is then closed, or `close()` throws (after the clearing) exactly when no stream was ever opened |
| FeatureFlagClient.Client.Variation | src/index.ts:171 | `variation` as written: the cached value when it is present and truthy, the fallback otherwise (also for a cached `false`, `0`, `""`, `null` or `NaN`) |
| FeatureFlagClient.Client.IntendedVariation | src/index.ts:171 | the corrected lookup: the cached value whenever the key is present, the fallback when it is absent |
| FeatureFlagClient.VariationHidesFalsyValue | src/index.ts:171 | for a cached falsy value and a different fallback, `variation` returns the fallback and disagrees with the corrected lookup |
| FeatureFlagClient.VariationAgreesOnTruthy | src/index.ts:171 | when the key is absent or its value is truthy, both lookups agree |
| Scenarios.Started | src/index.ts:40-60 | initialisation with a successful authentication reaches Running with a valid state and the merged cache. The log is the optional ERROR, then READY emitted after the stream was opened (exactly when enabled) |
| Scenarios.StartedEmpty | src/index.ts:40-60 | with default options and an empty evaluation list, the client runs with an open stream, an empty cache and no subscribers |
| Scenarios.PatchToFalsy | src/index.ts:139-171 | READY carries `{a: true}`; after `patch a` answered `false`, CHANGED carries the evaluation and its subscribers see `false` cached, yet `variation("a", null)` gives `null` |
| Scenarios.DeleteAfterLoad | src/index.ts:151-153 | after `delete a`, CHANGED carries the deletion marker, its subscribers see no key, and `variation("a", "fallback")` is `"fallback"` |
| Scenarios.OverlappingFetches | src/index.ts:144-150 | a `create` followed by a `patch` issues only the patch's fetch before the timer fires; when both settle out of order, the one that settles last decides the cached value |
| Scenarios.FailedBulkFetch | src/index.ts:50-85 | a failed bulk fetch emits ERROR and then READY with an empty cache; the stream is still opened, before READY |
| Scenarios.StreamDisabled | src/index.ts:113-116 | with `streamEnabled: false` no stream is opened; READY is emitted exactly once and is the only event; a later `close()` throws after clearing the cache and registry |
| Scenarios.PatchOutstanding | src/index.ts:148-150 | one subscriber and one `patch` fetch outstanding on an open stream |
| Scenarios.FetchAfterClose | src/index.ts:173-178 | `close()` does not cancel an outstanding fetch: it later writes into the emptied cache, and its CHANGED reaches no subscriber, the one registered before the close included |
| Scenarios.SettleOldestFirst | src/index.ts:87-109 | settling the oldest outstanding fetches one after another leaves the cache equal to `Replay` of those completions, so the `Replay` lemmas (last completion wins, failed fetches keep the baseline, distinct flags commute) hold of the client |
| Scenarios.Subscriptions | src/index.ts:161-165 | a callback registered twice appears twice in registration order; `off(kind, cb)` removes its first registration only |

## Left out

- **Network I/O.** The HTTP requests, the authentication POST and the URL construction are left out. Their results enter the model as
  `AuthOutcome`, `BulkResponse` and `PointOutcome` values.
- **Token decoding.** `jwt_decode` is a foreign library. An authentication outcome carries the token and the environment it decodes to;
  a token that fails to decode is an `AuthRejected` outcome.
- **The stream transport.** The choice between `EventSource` and `EventSourcePolyfill`, the connection itself and its request headers
  are left out. The `onopen`, `onclose` and `onerror` hooks are modelled only as "emit one event".
- **The stream constructor.** `new EventSource(...)` throwing inside `startStream`, which the chain's `.catch` would turn into ERROR
  instead of READY, is left out. The model treats the constructor as total.
- **`JSON.parse` of a push message.** Messages arrive already parsed as `{event, identifier}`. A malformed message, which throws inside
  the listener, is left out.
- **Timing.** The 1000 ms `setTimeout` delay is a FIFO queue (`deferred`) that `FireDeferred` drains explicitly.
- **Interleaving.** Promise scheduling is represented only by the order in which the step methods are called. Before READY the chain is
  modelled as one step (`BulkSettled`), because no stream exists to deliver messages before it.
- **mitt internals.** Wildcard `*` handlers, the `all` map itself, and exceptions thrown and re-entrant calls made by subscriber
  callbacks are left out. A callback is known only by its identity.
- **Logging.** `logDebug` / `logError`, and the `debug` option behind them, are left out.
- **Prototype keys.** In the plain object that stores the cache, keys such as `__proto__` or `constructor` behave specially. The model
  treats every identifier as an ordinary key.
- **The READY payload.** READY passes the live `storage` object, which later writes mutate. The model records a snapshot of it at
  emission time.
- **Evaluation fields.** An evaluation's fields other than `flag` and `value` (kind, identifier, metadata) are left out. They are carried
  through untouched in the code.
- **The `'error'` literal.** `onerror` emits the literal `'error'`. The model takes it to be the ERROR kind; `src/types.ts` is not part of
  this model.
- FeatureFlagClient.Client.Off: for a kind given without a callback, the contract states only that other kinds, the cache and the stream
  are untouched. What mitt then does to that kind's own list depends on its version: version 3 empties it, version 2 leaves it alone.
- FeatureFlagClient.Client.OffKind: without a callback the body empties the list, as mitt version 3 does. The contract does not promise
  this, for the same version dependence.

## Findings

| source | as written | input that shows it | evidently intended | confidence | as-written member | corrected member |
|---|---|---|---|---|---|---|
| src/index.ts:171 | `storage[flag]` OR `defaultValue` (JavaScript logical OR) returns the fallback for every falsy cached value | cache `{a: false}`, `variation("a", true)` returns `true` instead of the cached `false` | return the cached value whenever the flag is present, and the fallback only when it is absent | high for the input shown; medium that it is unintended; not executed | FeatureFlagClient.Client.Variation (witness lemma FeatureFlagClient.VariationHidesFalsyValue) | FeatureFlagClient.Client.IntendedVariation |
