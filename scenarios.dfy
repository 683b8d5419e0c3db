/**
 * Whole runs of the client, driven step by step through its methods and
 * proved from their contracts alone: start-up, a patch, a delete, two
 * overlapping fetches, a failed bulk fetch, a disabled stream, a fetch that
 * outlives `close()` and repeated subscriptions.
 */
module Scenarios {
  import opened Wrappers
  import opened Values
  import opened FlagCache
  import opened Events
  import opened StreamMessages
  import opened FeatureFlagClient

  /**
   * `initialize` up to READY: authentication succeeds and the bulk fetch
   * settles with `response`; nobody has subscribed yet.
   */
  method Started(options: Options, response: BulkResponse) returns (c: Client)
    ensures fresh(c) && c.Valid()
    ensures c.phase == Running && c.registry == map[]
    ensures c.stream == (if StreamEnabled(options) then Open else NoStream)
    ensures c.storage == MergeAll(map[], BulkWrites(response))
    ensures c.deferred == [] && c.inFlight == []
    ensures c.log == FailureEntries(BulkFailure(response), map[], c.storage) + [Emitted(Ready, Snapshot(c.storage), [], c.storage, StreamEnabled(options))]
  {
    c := new Client(options);
    c.AuthSettled(Authenticated("token", "env"));
    c.BulkSettled(response);
  }

  /** Start-up with default options and an empty evaluation list: a running client with an open stream. */
  method StartedEmpty() returns (c: Client)
    ensures fresh(c) && c.Valid()
    ensures c.stream == Open && c.registry == map[] && c.storage == map[]
    ensures c.deferred == [] && c.inFlight == []
  {
    c := Started(Options(None), Fetched([]));
  }

  /**
   * Start-up with `[{flag: "a", value: true}]`, then `patch a` answered with
   * `false`.  Subscribers of the CHANGED find the cache already rewritten;
   * because `variation` uses `||`, the lookup then gives the fallback, not
   * the cached `false`.
   */
  method PatchToFalsy() returns (ready: Payload, changed: Payload, seenOnChange: Value, afterPatch: Value)
    ensures ready == Snapshot(map["a" := Bool(true)])
    ensures changed == Evaluated(Evaluation("a", Bool(false))) && seenOnChange == Bool(false)
    ensures afterPatch == Null
  {
    var c := Started(Options(None), Fetched([Entry(Evaluation("a", Bool(true)))]));
    assert ReadPrefix([Entry(Evaluation("a", Bool(true)))]) == [Evaluation("a", Bool(true))];
    ready := c.log[|c.log| - 1].payload;
    c.OnStreamMessage(StreamMessage("patch", "a"));
    assert c.inFlight == ["a"];
    c.CompleteFetch(0, Ok(Evaluation("a", Bool(false))));
    changed := c.log[|c.log| - 1].payload;
    seenOnChange := Lookup(c.log[|c.log| - 1].cache, "a");
    assert "a" in c.storage && !Truthy(c.storage["a"]);
    afterPatch := c.Variation("a", Null);
  }

  /**
   * Start-up with `[{flag: "a", value: true}]`, then `delete a`: the CHANGED
   * carries the deletion marker, its subscribers find the key gone, and the
   * lookup falls back.
   */
  method DeleteAfterLoad() returns (deleted: Payload, seenOnDelete: Value, afterDelete: Value)
    ensures deleted == Deleted("a") && seenOnDelete == Undefined
    ensures afterDelete == Str("fallback")
  {
    var c := Started(Options(None), Fetched([Entry(Evaluation("a", Bool(true)))]));
    c.OnStreamMessage(StreamMessage("delete", "a"));
    deleted := c.log[|c.log| - 1].payload;
    seenOnDelete := Lookup(c.log[|c.log| - 1].cache, "a");
    afterDelete := c.Variation("a", Str("fallback"));
  }

  /**
   * A `create` and then a `patch` for the same flag: the patch fetch is issued
   * first, the deferred one when its timer fires; the fetches then settle in
   * the opposite order to their issue, and the one that settles last wins.
   */
  method OverlappingFetches() returns (beforeTimer: nat, cached: Value)
    ensures beforeTimer == 1
    ensures cached == Str("from-patch")
  {
    var c := StartedEmpty();
    c.OnStreamMessage(StreamMessage("create", "f"));
    assert c.deferred == ["f"] && c.inFlight == [];
    c.OnStreamMessage(StreamMessage("patch", "f"));
    assert c.deferred == ["f"] && c.inFlight == ["f"];
    beforeTimer := |c.inFlight|;
    c.FireDeferred();
    assert c.inFlight == ["f", "f"];
    // the create's fetch (issued second) settles first, the patch's last
    c.CompleteFetch(1, Ok(Evaluation("f", Str("from-create"))));
    assert c.inFlight == ["f"];
    c.CompleteFetch(0, Ok(Evaluation("f", Str("from-patch"))));
    assert "f" in c.storage && c.storage["f"] == Str("from-patch");
    assert Truthy(c.storage["f"]);
    cached := c.Variation("f", Null);
  }

  /**
   * The bulk fetch fails: ERROR is emitted, and because `fetchFlags` swallows
   * its error the stream is still opened and READY still follows it, with
   * the cache as it was.
   */
  method FailedBulkFetch() returns (kinds: seq<EventKind>, streamStarted: bool, readyAfterStream: bool, snapshot: Payload)
    ensures kinds == [Error, Ready]
    ensures streamStarted && readyAfterStream
    ensures snapshot == Snapshot(map[])
  {
    var c := Started(Options(None), FetchFailed("network"));
    kinds := [c.log[0].kind, c.log[1].kind];
    streamStarted := c.stream == Open;
    readyAfterStream := c.log[1].streamOpen;
    snapshot := c.log[1].payload;
  }

  /**
   * With `streamEnabled: false` no stream is opened, READY is still emitted
   * and is the only event, and `close()` throws.
   */
  method StreamDisabled() returns (streamStarted: bool, readyCount: nat, events: nat, threw: bool, emptied: bool)
    ensures !streamStarted && readyCount == 1 && events == 1 && threw && emptied
  {
    var c := Started(Options(Some(Bool(false))), Fetched([Entry(Evaluation("a", Str("on")))]));
    streamStarted := c.stream != NoStream;
    readyCount := CountKind(c.log, Ready);
    events := |c.log|;
    threw := c.Close();
    emptied := c.storage == map[] && c.registry == map[];
  }

  /** A started client with one CHANGED subscriber `cb` and one `patch f` fetch outstanding. */
  method PatchOutstanding(cb: Callback) returns (c: Client)
    ensures fresh(c) && c.Valid()
    ensures c.stream == Open && c.inFlight == ["f"]
    ensures Handlers(c.registry, Changed) == [cb]
  {
    c := StartedEmpty();
    c.On(Changed, cb);
    assert Handlers(c.registry, Changed) == [cb];
    c.OnStreamMessage(StreamMessage("patch", "f"));
    assert c.inFlight == [] + ["f"];
  }

  /**
   * `close()` while a point fetch is out: nothing cancels the fetch, so when
   * it settles it writes into the emptied cache and its CHANGED reaches no
   * subscriber, not even the one registered before the close.
   */
  method FetchAfterClose() returns (before: seq<Callback>, threw: bool, cached: Value, reached: seq<Callback>)
    ensures before == [1]
    ensures !threw
    ensures cached == Str("late")
    ensures reached == []
  {
    var c := PatchOutstanding(1);
    before := Handlers(c.registry, Changed);
    threw := c.Close();
    c.CompleteFetch(0, Ok(Evaluation("f", Str("late"))));
    assert Handlers(c.registry, Changed) == [];
    assert "f" in c.storage && Truthy(c.storage["f"]);
    cached := c.Variation("f", Null);
    reached := c.log[|c.log| - 1].notified;
  }

  /**
   * The oldest outstanding point fetches settle one after another, with
   * nothing in between: the cache becomes the replay of those completions,
   * so the lemmas about `Replay` hold of the client.
   */
  method SettleOldestFirst(c: Client, outcomes: seq<PointOutcome>)
    requires c.Valid() && |outcomes| <= |c.inFlight|
    modifies c`storage, c`log, c`inFlight
    ensures c.Valid()
    ensures c.inFlight == old(c.inFlight)[|outcomes|..]
    ensures c.storage == Replay(old(c.storage), Completions(old(c.inFlight)[..|outcomes|], outcomes))
  {
    ghost var ids := c.inFlight[..|outcomes|];
    ghost var base := c.storage;
    var k := 0;
    while k < |outcomes|
      invariant k <= |outcomes|
      invariant c.Valid()
      invariant c.inFlight == old(c.inFlight)[k..]
      invariant c.storage == Replay(base, Completions(ids[..k], outcomes[..k]))
    {
      ReplayOneMore(base, ids, outcomes, k);
      c.CompleteFetch(0, outcomes[k]);
      k := k + 1;
    }
    assert ids[..k] == ids && outcomes[..k] == outcomes;
  }

  /** A callback registered twice is in the list twice, in order; `off(kind, cb)` removes its first registration. */
  method Subscriptions() returns (first: seq<Callback>, second: seq<Callback>)
    ensures first == [7, 8, 7]
    ensures second == [8, 7]
  {
    var c := new Client(Options(None));
    c.On(Changed, 7);
    c.On(Changed, 8);
    c.On(Changed, 7);
    first := Handlers(c.registry, Changed);
    assert first == [7, 8, 7];
    c.OffKind(Changed, Some(7));
    assert IndexOf(first, 7) == 0;
    second := Handlers(c.registry, Changed);
  }
}
