/**
 * The in-process event bus: the kinds of event the client emits, their
 * payloads, the per-kind ordered subscriber lists, and the entries of the
 * append-only log that records every emission together with the callbacks
 * it reached, in the order they are called.
 */
module Events {
  import opened Values
  import FlagCache

  /** A subscriber's callback, known only by its identity. */
  type Callback = nat

  datatype EventKind = Ready | Changed | Error | Connected | Disconnected

  /** The error detail carried by an ERROR event. */
  datatype ErrorDetail =
    | AuthFailure(reason: string)
    | BulkFetchFailure(reason: string)
    | MalformedEvaluation(index: nat)
    | PointFetchNotOk(status: int)
    | PointFetchFailure(reason: string)
    | StreamFailure(reason: string)

  datatype Payload =
    | Snapshot(flags: FlagCache.Storage)     // READY: the cache
    | Evaluated(eval: Evaluation)            // CHANGED: the evaluation a point fetch returned
    | Deleted(flag: string)                  // CHANGED: { flag, value: undefined, deleted: true }
    | Failure(error: ErrorDetail)            // ERROR
    | NoPayload                              // CONNECTED, DISCONNECTED

  /**
   * One emission: its kind, its payload, the callbacks it was delivered to
   * in call order, and the state those callbacks find: the cache, and
   * whether the event stream is open.
   */
  datatype Emitted = Emitted(kind: EventKind, payload: Payload, notified: seq<Callback>, cache: FlagCache.Storage, streamOpen: bool)

  type Registry = map<EventKind, seq<Callback>>

  /** The callbacks registered for `kind`, in registration order. */
  function Handlers(reg: Registry, kind: EventKind): seq<Callback>
  {
    if kind in reg then reg[kind] else []
  }

  /** Every list except the one for `kind` is the same in both registries. */
  predicate SameExcept(a: Registry, b: Registry, kind: EventKind)
  {
    forall k :: k != kind ==> Handlers(a, k) == Handlers(b, k)
  }

  /** `on(kind, cb)`: the callback is appended to that kind's list; no other list changes. */
  function Subscribe(reg: Registry, kind: EventKind, cb: Callback): (r: Registry)
    ensures Handlers(r, kind) == Handlers(reg, kind) + [cb]
    ensures SameExcept(r, reg, kind)
  {
    reg[kind := Handlers(reg, kind) + [cb]]
  }

  /** `indexOf`: the position of the first occurrence of `cb`. */
  function IndexOf(s: seq<Callback>, cb: Callback): (i: nat)
    requires cb in s
    ensures i < |s| && s[i] == cb && cb !in s[..i]
  {
    if s[0] == cb then 0
    else
      var j := IndexOf(s[1..], cb);
      assert s[..j + 1] == [s[0]] + s[1..][..j];
      j + 1
  }

  /**
   * `splice(indexOf(cb) >>> 0, 1)`: the first occurrence of `cb` is cut out;
   * when `cb` is absent, `indexOf` gives -1, `>>> 0` turns it into 2^32 - 1
   * and the splice removes nothing.
   */
  function RemoveFirst(s: seq<Callback>, cb: Callback): (r: seq<Callback>)
    ensures cb !in s ==> r == s
    ensures cb in s ==> r == s[..IndexOf(s, cb)] + s[IndexOf(s, cb) + 1..]
  {
    if cb in s then
      var i := IndexOf(s, cb);
      s[..i] + s[i + 1..]
    else
      s
  }

  /** Exactly one registration of `cb` goes, when there is one; every other registration stays. */
  lemma RemoveFirstRemovesOne(s: seq<Callback>, cb: Callback)
    ensures multiset(RemoveFirst(s, cb)) == multiset(s) - multiset{cb}
    ensures |RemoveFirst(s, cb)| == if cb in s then |s| - 1 else |s|
  {
    if cb in s {
      var i := IndexOf(s, cb);
      var before, after := s[..i], s[i + 1..];
      assert RemoveFirst(s, cb) == before + after;
      assert s == before + [cb] + after;
      assert multiset(s) == multiset(before) + multiset{cb} + multiset(after);
    }
  }

  /** `off(kind, cb)`: one registration of `cb` for `kind` is removed; no other list changes. */
  function Unsubscribe(reg: Registry, kind: EventKind, cb: Callback): (r: Registry)
    ensures Handlers(r, kind) == RemoveFirst(Handlers(reg, kind), cb)
    ensures SameExcept(r, reg, kind)
  {
    if kind in reg then reg[kind := RemoveFirst(reg[kind], cb)] else reg
  }

  /** The list for `kind` emptied, as mitt 3 does for `off(kind)` without a callback. */
  function ClearKind(reg: Registry, kind: EventKind): (r: Registry)
    ensures Handlers(r, kind) == []
    ensures SameExcept(r, reg, kind)
  {
    reg[kind := []]
  }

  /** The number of log entries of the given kind. */
  function CountKind(log: seq<Emitted>, kind: EventKind): (n: nat)
    ensures n <= |log|
  {
    if log == [] then 0
    else CountKind(log[..|log| - 1], kind) + (if log[|log| - 1].kind == kind then 1 else 0)
  }

  /** Counting distributes over appending to the log. */
  lemma {:induction false} CountKindAppend(a: seq<Emitted>, b: seq<Emitted>, kind: EventKind)
    ensures CountKind(a + b, kind) == CountKind(a, kind) + CountKind(b, kind)
  {
    if b != [] {
      assert (a + b)[..|a + b| - 1] == a + b[..|b| - 1];
      CountKindAppend(a, b[..|b| - 1], kind);
    } else {
      assert a + b == a;
    }
  }
}
