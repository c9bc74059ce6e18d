/**
 * `CancelToken` (lib/cancel/CancelToken.js): a one-shot cancellation signal.
 * Its `reason` goes from absent to `Cancel(message)` once; its `promise` is a
 * write-once cell resolved with that same reason.
 */
module CancelTokens {
  import opened Wrappers

  /** The `Cancel` object a cancellation records; `message` may be `undefined`. */
  datatype Cancel = Cancel(message: Option<string>)

  /** The token's `promise`: pending, or resolved with a value. */
  datatype Signal = Pending | Resolved(value: Cancel)

  /** The `TypeError` the constructor throws. */
  datatype TypeError = TypeError(message: string)

  /** The observable state of a token, with the number of times its
      `resolvePromise` has been called. */
  datatype TokenState = TokenState(reason: Option<Cancel>, promise: Signal, resolutions: nat)

  /** A token as the constructor leaves it before running the executor. */
  const Initial: TokenState := TokenState(None, Pending, 0)

  /** The token invariant: the promise is resolved, exactly once, precisely
      when a reason is set, and it is resolved with that reason. */
  predicate Consistent(s: TokenState) {
    if s.reason.None? then s.promise == Pending && s.resolutions == 0
    else s.promise == Resolved(s.reason.value) && s.resolutions == 1
  }

  /** One call of the `cancel` closure (lines 25-33). */
  function AfterCancel(s: TokenState, message: Option<string>): (t: TokenState)
    ensures Consistent(s) ==> Consistent(t)
  {
    if s.reason.Some? then s
    else TokenState(Some(Cancel(message)), Resolved(Cancel(message)), s.resolutions + 1)
  }

  /** Successive calls of `cancel`, first to last. */
  function AfterCancels(s: TokenState, messages: seq<Option<string>>): TokenState
    decreases |messages|
  {
    if messages == [] then s
    else AfterCancel(AfterCancels(s, messages[..|messages| - 1]), messages[|messages| - 1])
  }

  /** The first `cancel(m)` on a fresh token records `Cancel(m)` and resolves
      the promise with it. */
  lemma FirstCancel(message: Option<string>)
    ensures AfterCancel(Initial, message).reason == Some(Cancel(message))
    ensures AfterCancel(Initial, message).promise == Resolved(Cancel(message))
    ensures AfterCancel(Initial, message).resolutions == 1
  {
  }

  /** Once a reason is set, `cancel` changes nothing: `cancel(m1); cancel(m2)`
      leaves the token as `cancel(m1)` alone does. */
  lemma CancelIdempotent(s: TokenState, m1: Option<string>, m2: Option<string>)
    ensures AfterCancel(AfterCancel(s, m1), m2) == AfterCancel(s, m1)
  {
  }

  /** However many times `cancel` is called on a fresh token, the first call's
      message is the reason and the promise was resolved exactly once, with it. */
  lemma {:induction false} FirstCancelWins(messages: seq<Option<string>>)
    requires messages != []
    ensures AfterCancels(Initial, messages) == TokenState(Some(Cancel(messages[0])), Resolved(Cancel(messages[0])), 1)
    decreases |messages|
  {
    var init := messages[..|messages| - 1];
    if init == [] {
      assert AfterCancels(Initial, init) == Initial;
    } else {
      assert init[0] == messages[0];
      FirstCancelWins(init);
    }
  }

  /** No sequence of calls breaks the token invariant. */
  lemma {:induction false} CancelsKeepConsistent(s: TokenState, messages: seq<Option<string>>)
    requires Consistent(s)
    ensures Consistent(AfterCancels(s, messages))
    decreases |messages|
  {
    if messages != [] {
      CancelsKeepConsistent(s, messages[..|messages| - 1]);
    }
  }

  class CancelToken {
    /** `token.reason`: absent until the first cancellation. */
    var reason: Option<Cancel>
    /** `token.promise`, as the value it has settled to. */
    var promise: Signal
    /** How many times `resolvePromise` has been called. */
    ghost var resolutions: nat

    ghost function State(): TokenState
      reads this
    {
      TokenState(reason, promise, resolutions)
    }

    ghost predicate Valid()
      reads this
    {
      Consistent(State())
    }

    /** Lines 16-22: no reason yet, and a pending promise. */
    constructor ()
      ensures Valid() && State() == Initial
    {
      reason := None;
      promise := Pending;
      resolutions := 0;
    }

    /** Lines 39-43: fails with exactly `reason` when one is set, returns
        normally otherwise; the token is left as it is either way. */
    method ThrowIfRequested() returns (outcome: Result<(), Cancel>)
      ensures outcome.Err? <==> reason.Some?
      ensures outcome.Err? ==> Some(outcome.error) == reason
    {
      if reason.Some? {
        outcome := Err(reason.value);
      } else {
        outcome := Ok(());
      }
    }
  }

  /** The `cancel` closure the constructor hands to its executor, bound to
      the token under construction. */
  datatype CancelFn = CancelFn(token: CancelToken) {
    /** Lines 25-33: ignored once a reason is set; otherwise records
        `Cancel(message)` and resolves the promise with that same reason. */
    method Call(message: Option<string>)
      requires token.Valid()
      modifies token
      ensures token.Valid()
      ensures token.State() == AfterCancel(old(token.State()), message)
    {
      if token.reason.Some? {
        return;
      }
      token.reason := Some(Cancel(message));
      token.promise := Resolved(token.reason.value);
      token.resolutions := token.resolutions + 1;
    }
  }

  /** The constructor's argument: something that is not a function, or a
      function that, invoked with `cancel`, calls it with the listed messages
      before returning (and may keep it for later). */
  datatype Executor = NotCallable | Callable(cancels: seq<Option<string>>)

  /** `new CancelToken(executor)` (lines 11-34): a `TypeError` and no token
      when `executor` is not a function; otherwise a fresh token on which the
      executor has been run exactly once with that token's `cancel`. */
  method NewCancelToken(executor: Executor) returns (r: Result<CancelToken, TypeError>)
    ensures executor.NotCallable? <==> r.Err?
    ensures r.Err? ==> r.error == TypeError("executor must be a function.")
    ensures r.Ok? ==> fresh(r.value) && r.value.Valid()
    ensures r.Ok? ==> r.value.State() == AfterCancels(Initial, executor.cancels)
  {
    if executor.NotCallable? {
      return Err(TypeError("executor must be a function."));
    }
    var token := new CancelToken();
    var cancel := CancelFn(token);
    var messages := executor.cancels;
    for i := 0 to |messages|
      invariant token.Valid()
      invariant token.State() == AfterCancels(Initial, messages[..i])
    {
      assert messages[..i + 1][..i] == messages[..i];
      cancel.Call(messages[i]);
    }
    assert messages[..|messages|] == messages;
    return Ok(token);
  }

  /** What `CancelToken.source()` returns. */
  datatype CancelSource = CancelSource(token: CancelToken, cancel: CancelFn)

  /** Lines 73-82: a fresh, uncancelled token paired with the `cancel`
      function bound to that very token. */
  method Source() returns (s: CancelSource)
    ensures fresh(s.token) && s.token.Valid() && s.token.State() == Initial
    ensures s.cancel.token == s.token
  {
    var r := NewCancelToken(Callable([]));
    var token := r.value;
    s := CancelSource(token, CancelFn(token));
  }

  /** Two sources are independent: cancelling through one source's `cancel`
      sets that source's reason and leaves the other token uncancelled. */
  method CancelOneOfTwoSources(message: Option<string>) returns (cancelled: Option<Cancel>, untouched: Option<Cancel>)
    ensures cancelled == Some(Cancel(message))
    ensures untouched == None
  {
    var a := Source();
    var b := Source();
    a.cancel.Call(message);
    cancelled, untouched := a.token.reason, b.token.reason;
  }
}
