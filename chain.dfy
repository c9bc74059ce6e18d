/**
 * The promise chain that `Axios.prototype.request` threads a request through
 * (lib/core/Axios.js, lines 42-96), with asynchrony taken out: a promise is
 * modelled by the outcome it settles to, and `promise.then(f, r)` by one
 * synchronous step on that outcome.
 */
module Chain {
  import opened Wrappers

  /** What a promise settles to. In JavaScript fulfilment values and rejection
      reasons range over the same values, hence one type parameter. */
  type Settled<V> = Result<V, V>

  /** A callable handler: returning a value fulfils, throwing (or returning a
      rejected promise) rejects. */
  type Handler<!V> = V -> Settled<V>

  /** One entry of the flat `chain` array: a handler, or `undefined`. */
  type Slot<!V> = Option<Handler<V>>

  /** A `(fulfilled, rejected)` pair: an interceptor entry as the registries
      visit it, and the two arguments of one `then` call. */
  datatype Stage<!V> = Stage(fulfilled: Slot<V>, rejected: Slot<V>)

  /** `p.then(s.fulfilled, s.rejected)` once `p` has settled: the handler for
      the channel `p` settled on runs; a missing handler passes the value or the
      reason on unchanged (ECMA-262, sections 27.2.5.4 and 27.2.2.1). */
  function Then<V>(p: Settled<V>, s: Stage<V>): (q: Settled<V>)
    ensures p.Ok? && s.fulfilled.Some? ==> q == s.fulfilled.value(p.value)
    ensures p.Err? && s.rejected.Some? ==> q == s.rejected.value(p.error)
    ensures p.Ok? && s.fulfilled.None? ==> q == p
    ensures p.Err? && s.rejected.None? ==> q == p
  {
    match p
    case Ok(v) => if s.fulfilled.Some? then s.fulfilled.value(v) else p
    case Err(e) => if s.rejected.Some? then s.rejected.value(e) else p
  }

  /** The outcome of attaching `stages` one after another to a promise settled to `p`. */
  function Run<V>(p: Settled<V>, stages: seq<Stage<V>>): Settled<V>
    decreases |stages|
  {
    if stages == [] then p else Run(Then(p, stages[0]), stages[1..])
  }

  /** `Array.prototype.shift`: the first entry and the rest; `undefined` and
      the empty array when there is no entry. */
  function Shift<V>(chain: seq<Slot<V>>): (r: (Slot<V>, seq<Slot<V>>))
    ensures chain != [] ==> chain == [r.0] + r.1
    ensures chain == [] ==> r.0 == None && r.1 == []
  {
    if chain == [] then (None, []) else (chain[0], chain[1..])
  }

  /** The stages the `while (chain.length)` loop forms by shifting two entries
      at a time; an odd last entry is paired with `undefined`. */
  function Pairs<V>(chain: seq<Slot<V>>): (stages: seq<Stage<V>>)
    ensures |stages| == (|chain| + 1) / 2
    ensures forall k :: 0 <= k < |stages| ==> stages[k].fulfilled == chain[2 * k]
    ensures forall k :: 0 <= k < |stages| ==>
      stages[k].rejected == if 2 * k + 1 < |chain| then chain[2 * k + 1] else None
    decreases |chain|
  {
    if |chain| == 0 then []
    else if |chain| == 1 then [Stage(chain[0], None)]
    else [Stage(chain[0], chain[1])] + Pairs(chain[2..])
  }

  /** The flat array laid out by `unshift(f, r)` / `push(f, r)`: each stage's
      two handlers side by side. */
  function Flatten<V>(stages: seq<Stage<V>>): (chain: seq<Slot<V>>)
    ensures |chain| == 2 * |stages|
    decreases |stages|
  {
    if stages == [] then [] else [stages[0].fulfilled, stages[0].rejected] + Flatten(stages[1..])
  }

  /** `stages` last first. */
  function Reverse<T>(s: seq<T>): (r: seq<T>)
    ensures |r| == |s|
    decreases |s|
  {
    if s == [] then [] else [s[|s| - 1]] + Reverse(s[..|s| - 1])
  }

  /** The stage that performs the request: `(dispatchRequest, undefined)`. */
  function DispatchStage<V>(dispatch: Handler<V>): Stage<V> {
    Stage(Some(dispatch), None)
  }

  /** The order in which the stages run: request interceptors last-registered
      first, then the dispatch stage, then response interceptors in
      registration order. */
  function Pipeline<V>(requests: seq<Stage<V>>, dispatch: Handler<V>, responses: seq<Stage<V>>): seq<Stage<V>> {
    Reverse(requests) + [DispatchStage(dispatch)] + responses
  }

  // ---------------------------------------------------------------------------
  // Layout of the flat chain

  /** Stage `k` occupies entries `2k` (fulfilled) and `2k + 1` (rejected). */
  lemma {:induction false} FlattenAt<V>(stages: seq<Stage<V>>, k: nat)
    requires k < |stages|
    ensures Flatten(stages)[2 * k] == stages[k].fulfilled
    ensures Flatten(stages)[2 * k + 1] == stages[k].rejected
    decreases |stages|
  {
    if k > 0 { FlattenAt(stages[1..], k - 1); }
  }

  lemma {:induction false} FlattenConcat<V>(a: seq<Stage<V>>, b: seq<Stage<V>>)
    ensures Flatten(a + b) == Flatten(a) + Flatten(b)
    decreases |a|
  {
    if a == [] {
      assert a + b == b;
    } else {
      assert (a + b)[1..] == a[1..] + b;
      FlattenConcat(a[1..], b);
    }
  }

  /** Pairing up a flattened chain gives back its stages: the loop's
      two-at-a-time `shift` undoes the `(fulfilled, rejected)` layout. */
  lemma {:induction false} PairsOfFlatten<V>(stages: seq<Stage<V>>)
    ensures Pairs(Flatten(stages)) == stages
    decreases |stages|
  {
    if stages != [] {
      var f := Flatten(stages);
      assert f[2..] == Flatten(stages[1..]);
      PairsOfFlatten(stages[1..]);
      assert Pairs(f) == [Stage(f[0], f[1])] + stages[1..];
    }
  }

  lemma {:induction false} ReverseAt<T>(s: seq<T>, k: nat)
    requires k < |s|
    ensures Reverse(s)[k] == s[|s| - 1 - k]
    decreases |s|
  {
    if k > 0 { ReverseAt(s[..|s| - 1], k - 1); }
  }

  /** The chain holds two entries per interceptor plus the dispatch pair, so
      its length is even. */
  lemma ChainLength<V>(requests: seq<Stage<V>>, dispatch: Handler<V>, responses: seq<Stage<V>>)
    ensures |Flatten(Pipeline(requests, dispatch, responses))| == 2 + 2 * (|requests| + |responses|)
    ensures |Flatten(Pipeline(requests, dispatch, responses))| % 2 == 0
  {
  }

  /** Request interceptor pairs come first, the last registered at the front,
      each pair kept in `(fulfilled, rejected)` order. */
  lemma RequestOrder<V>(requests: seq<Stage<V>>, dispatch: Handler<V>, responses: seq<Stage<V>>, i: nat)
    requires i < |requests|
    ensures Flatten(Pipeline(requests, dispatch, responses))[2 * i] == requests[|requests| - 1 - i].fulfilled
    ensures Flatten(Pipeline(requests, dispatch, responses))[2 * i + 1] == requests[|requests| - 1 - i].rejected
  {
    var p := Pipeline(requests, dispatch, responses);
    ReverseAt(requests, i);
    assert p[i] == Reverse(requests)[i];
    FlattenAt(p, i);
  }

  /** `(dispatchRequest, undefined)` sits at index `2 * |requests|`, right after
      every request pair and before every response pair. */
  lemma DispatchPosition<V>(requests: seq<Stage<V>>, dispatch: Handler<V>, responses: seq<Stage<V>>)
    ensures Flatten(Pipeline(requests, dispatch, responses))[2 * |requests|] == Some(dispatch)
    ensures Flatten(Pipeline(requests, dispatch, responses))[2 * |requests| + 1] == None
  {
    var p := Pipeline(requests, dispatch, responses);
    assert p[|requests|] == DispatchStage(dispatch);
    FlattenAt(p, |requests|);
  }

  /** Response interceptor pairs follow the dispatch pair in registration order. */
  lemma ResponseOrder<V>(requests: seq<Stage<V>>, dispatch: Handler<V>, responses: seq<Stage<V>>, j: nat)
    requires j < |responses|
    ensures Flatten(Pipeline(requests, dispatch, responses))[2 * |requests| + 2 + 2 * j] == responses[j].fulfilled
    ensures Flatten(Pipeline(requests, dispatch, responses))[2 * |requests| + 3 + 2 * j] == responses[j].rejected
  {
    var p := Pipeline(requests, dispatch, responses);
    assert p[|requests| + 1 + j] == responses[j];
    FlattenAt(p, |requests| + 1 + j);
  }

  // ---------------------------------------------------------------------------
  // Running the stages

  /** Attaching stages in two batches is attaching them all in order. */
  lemma {:induction false} RunConcat<V>(p: Settled<V>, a: seq<Stage<V>>, b: seq<Stage<V>>)
    ensures Run(p, a + b) == Run(Run(p, a), b)
    decreases |a|
  {
    if a == [] {
      assert a + b == b;
    } else {
      assert (a + b)[1..] == a[1..] + b;
      RunConcat(Then(p, a[0]), a[1..], b);
    }
  }

  /** A stage without a handler for the channel it receives forwards the very
      same value or reason; in particular the dispatch stage forwards a
      rejection untouched. */
  lemma PassThrough<V>(p: Settled<V>, s: Stage<V>, dispatch: Handler<V>)
    ensures p.Ok? && s.fulfilled.None? ==> Then(p, s) == p
    ensures p.Err? && s.rejected.None? ==> Then(p, s) == p
    ensures p.Err? ==> Then(p, DispatchStage(dispatch)) == p
  {
  }

  /** A rejection travels through stages that have no `rejected` handler
      without being changed. */
  lemma {:induction false} RejectionPassesThrough<V>(e: V, stages: seq<Stage<V>>)
    requires forall k :: 0 <= k < |stages| ==> stages[k].rejected.None?
    ensures Run(Err(e), stages) == Err(e)
    decreases |stages|
  {
    if stages != [] {
      assert Then(Err(e), stages[0]) == Err(e);
      RejectionPassesThrough(e, stages[1..]);
    }
  }

  /** When the request interceptors deliver `v` to dispatch, dispatch rejects it
      with `e`, and no response interceptor has a `rejected` handler, the
      caller receives exactly `e`. */
  lemma DispatchFailureReachesCaller<V>(start: Settled<V>, requests: seq<Stage<V>>, dispatch: Handler<V>,
                                        responses: seq<Stage<V>>, v: V, e: V)
    requires Run(start, Reverse(requests)) == Ok(v)
    requires dispatch(v) == Err(e)
    requires forall k :: 0 <= k < |responses| ==> responses[k].rejected.None?
    ensures Run(start, Pipeline(requests, dispatch, responses)) == Err(e)
  {
    var rev := Reverse(requests);
    RunConcat(start, rev + [DispatchStage(dispatch)], responses);
    RunConcat(start, rev, [DispatchStage(dispatch)]);
    assert Run(Ok(v), [DispatchStage(dispatch)]) == Err(e);
    RejectionPassesThrough(e, responses);
  }

  /** A `rejected` handler recovers the chain: when the stages before it
      reject with `e`, the caller receives whatever the last stage's
      `rejected` handler makes of `e`, whatever its `fulfilled` handler is. */
  lemma RecoveryAtLastStage<V>(p: Settled<V>, stages: seq<Stage<V>>, last: Stage<V>, e: V)
    requires Run(p, stages) == Err(e) && last.rejected.Some?
    ensures Run(p, stages + [last]) == last.rejected.value(e)
  {
    RunConcat(p, stages, [last]);
  }
}
