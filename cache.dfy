/**
 * The evaluation cache (`storage`): a map from flag identifier to the value
 * the client last learned for it, and the three ways a fetch or a push
 * message rewrites it.  Everything here is a value-level description; the
 * client class in client.dfy applies these functions to its `storage` field.
 */
module FlagCache {
  import opened Values

  type Storage = map<string, Value>

  /** `storage[flag]`: the cached value, or `undefined` for a missing key. */
  function Lookup(m: Storage, flag: string): Value
  {
    if flag in m then m[flag] else Undefined
  }

  // ---------------------------------------------------------------------
  // Bulk load
  // ---------------------------------------------------------------------

  /** An element of the bulk response array: an evaluation, or a null entry whose `.flag` throws. */
  datatype BulkItem = Entry(eval: Evaluation) | Malformed

  /** How the bulk fetch settled: a parsed array, or a transport / JSON failure before any write. */
  datatype BulkResponse = Fetched(items: seq<BulkItem>) | FetchFailed(reason: string)

  /**
   * The evaluations `forEach` writes before it stops: every element up to,
   * and not including, the first malformed one.
   */
  function ReadPrefix(items: seq<BulkItem>): (evals: seq<Evaluation>)
    ensures |evals| <= |items|
    ensures forall i :: 0 <= i < |evals| ==> items[i] == Entry(evals[i])
    ensures |evals| < |items| ==> items[|evals|].Malformed?
  {
    if items == [] || items[0].Malformed? then []
    else [items[0].eval] + ReadPrefix(items[1..])
  }

  /** The evaluations a settled bulk fetch writes into the cache, in order. */
  function BulkWrites(response: BulkResponse): seq<Evaluation>
  {
    match response
    case FetchFailed(_) => []
    case Fetched(items) => ReadPrefix(items)
  }

  /** The cache after writing `storage[e.flag] = e.value` for each evaluation in turn. */
  function MergeAll(m: Storage, evals: seq<Evaluation>): Storage
  {
    if evals == [] then m
    else
      var last := evals[|evals| - 1];
      MergeAll(m, evals[..|evals| - 1])[last.flag := last.value]
  }

  /** A flag the response returns holds the value of its LAST entry in the response. */
  lemma {:induction false} MergeAllLastEntryWins(m: Storage, evals: seq<Evaluation>, i: nat)
    requires i < |evals|
    requires forall j :: i < j < |evals| ==> evals[j].flag != evals[i].flag
    ensures evals[i].flag in MergeAll(m, evals)
    ensures MergeAll(m, evals)[evals[i].flag] == evals[i].value
  {
    var init := evals[..|evals| - 1];
    if i < |evals| - 1 {
      MergeAllLastEntryWins(m, init, i);
    }
  }

  /** A flag the response does not return keeps its cached state: the bulk load is an additive merge. */
  lemma {:induction false} MergeAllKeepsOthers(m: Storage, evals: seq<Evaluation>, k: string)
    requires forall j :: 0 <= j < |evals| ==> evals[j].flag != k
    ensures k in MergeAll(m, evals) <==> k in m
    ensures k in m ==> MergeAll(m, evals)[k] == m[k]
  {
    if evals != [] {
      MergeAllKeepsOthers(m, evals[..|evals| - 1], k);
    }
  }

  // ---------------------------------------------------------------------
  // Point reconcile and delete
  // ---------------------------------------------------------------------

  /** How one point fetch settled: an OK response with its body, a non-OK status, or an exception. */
  datatype PointOutcome = Ok(eval: Evaluation) | NotOk(status: int) | Threw(reason: string)

  /**
   * The cache after a point fetch for `identifier` settles.  An OK response
   * writes the returned value under the REQUESTED identifier, whatever flag
   * the body names; any other outcome leaves the cache as it was.
   */
  function Reconcile(m: Storage, identifier: string, outcome: PointOutcome): (r: Storage)
    ensures outcome.Ok? ==> identifier in r && r[identifier] == outcome.eval.value
    ensures !outcome.Ok? ==> r == m
    ensures r.Keys == if outcome.Ok? then m.Keys + {identifier} else m.Keys
    ensures forall k :: k in m && k != identifier ==> r[k] == m[k]
  {
    match outcome
    case Ok(eval) => m[identifier := eval.value]
    case _ => m
  }

  /** The flag named in the response body plays no part in where the value is stored. */
  lemma ReconcileIgnoresBodyFlag(m: Storage, identifier: string, a: Evaluation, b: Evaluation)
    requires a.value == b.value
    ensures Reconcile(m, identifier, Ok(a)) == Reconcile(m, identifier, Ok(b))
  {
  }

  /** `delete storage[identifier]`: the key is gone and no other key changes. */
  function Remove(m: Storage, identifier: string): (r: Storage)
    ensures identifier !in r
    ensures r.Keys == m.Keys - {identifier}
    ensures forall k :: k in r ==> r[k] == m[k]
  {
    m - {identifier}
  }

  // ---------------------------------------------------------------------
  // A run of point-fetch completions
  // ---------------------------------------------------------------------

  /** One completed point fetch: the identifier it was issued for and how it settled. */
  datatype Completion = Completion(identifier: string, outcome: PointOutcome)

  /** True when the completion writes flag `k`. */
  predicate WritesAt(c: Completion, k: string)
  {
    c.identifier == k && c.outcome.Ok?
  }

  /** The cache after the completions are applied in the order they completed. */
  function Replay(m: Storage, cs: seq<Completion>): Storage
  {
    if cs == [] then m
    else
      var last := cs[|cs| - 1];
      Reconcile(Replay(m, cs[..|cs| - 1]), last.identifier, last.outcome)
  }

  /** The completions of fetches issued for `ids`, the `j`-th settling with `outcomes[j]`, in that order. */
  function Completions(ids: seq<string>, outcomes: seq<PointOutcome>): seq<Completion>
    requires |ids| == |outcomes|
  {
    if ids == [] then []
    else Completions(ids[..|ids| - 1], outcomes[..|ids| - 1]) + [Completion(ids[|ids| - 1], outcomes[|ids| - 1])]
  }

  /** Settling one more fetch replays one more completion. */
  lemma ReplayOneMore(m: Storage, ids: seq<string>, outcomes: seq<PointOutcome>, k: nat)
    requires |ids| == |outcomes| && k < |ids|
    ensures Replay(m, Completions(ids[..k + 1], outcomes[..k + 1]))
         == Reconcile(Replay(m, Completions(ids[..k], outcomes[..k])), ids[k], outcomes[k])
  {
    assert ids[..k + 1][..k] == ids[..k];
    assert outcomes[..k + 1][..k] == outcomes[..k];
    var cs := Completions(ids[..k], outcomes[..k]);
    assert Completions(ids[..k + 1], outcomes[..k + 1]) == cs + [Completion(ids[k], outcomes[k])];
    ReplaySnoc(m, cs, Completion(ids[k], outcomes[k]));
  }

  /** Last completed fetch wins: a flag holds the value of the last OK completion for it. */
  lemma {:induction false} ReplayLastCompletionWins(m: Storage, cs: seq<Completion>, i: nat, k: string)
    requires i < |cs| && WritesAt(cs[i], k)
    requires forall j :: i < j < |cs| ==> !WritesAt(cs[j], k)
    ensures k in Replay(m, cs) && Replay(m, cs)[k] == cs[i].outcome.eval.value
  {
    if i < |cs| - 1 {
      ReplayLastCompletionWins(m, cs[..|cs| - 1], i, k);
    }
  }

  /** A flag no OK completion wrote keeps its baseline state (failed fetches leave stale values). */
  lemma {:induction false} ReplayKeepsBaseline(m: Storage, cs: seq<Completion>, k: string)
    requires forall j :: 0 <= j < |cs| ==> !WritesAt(cs[j], k)
    ensures k in Replay(m, cs) <==> k in m
    ensures k in m ==> Replay(m, cs)[k] == m[k]
  {
    if cs != [] {
      ReplayKeepsBaseline(m, cs[..|cs| - 1], k);
    }
  }

  /** Replaying one more completion reconciles the replayed cache once more. */
  lemma ReplaySnoc(m: Storage, cs: seq<Completion>, c: Completion)
    ensures Replay(m, cs + [c]) == Reconcile(Replay(m, cs), c.identifier, c.outcome)
  {
    assert (cs + [c])[..|cs|] == cs;
  }

  /** Completions for different flags do not interfere: their completion order is irrelevant. */
  lemma {:induction false} ReplaySwapDistinct(m: Storage, p: seq<Completion>, a: Completion, b: Completion, s: seq<Completion>)
    requires a.identifier != b.identifier
    ensures Replay(m, p + [a, b] + s) == Replay(m, p + [b, a] + s)
  {
    if s == [] {
      assert (p + [a, b] + s)[..|p| + 1] == p + [a];
      assert (p + [b, a] + s)[..|p| + 1] == p + [b];
      assert (p + [a])[..|p|] == p && (p + [b])[..|p|] == p;
    } else {
      var s', last := s[..|s| - 1], s[|s| - 1];
      assert p + [a, b] + s == (p + [a, b] + s') + [last];
      assert p + [b, a] + s == (p + [b, a] + s') + [last];
      ReplaySnoc(m, p + [a, b] + s', last);
      ReplaySnoc(m, p + [b, a] + s', last);
      ReplaySwapDistinct(m, p, a, b, s');
    }
  }
}
