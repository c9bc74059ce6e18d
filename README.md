# axios request core, modelled in Dafny

This project models the request-dispatch core of the axios HTTP client as it
appears in `lib/core/Axios.js` and `lib/cancel/CancelToken.js`.

- `Axios.prototype.request` normalises its arguments. It merges the per-call
  config over the instance defaults and lower-cases the method, with `"get"`
  as the default. It then builds a flat `chain` array. The array starts as
  `[dispatchRequest, undefined]`. Each request interceptor's pair is
  `unshift`ed to the front and each response interceptor's pair is `push`ed
  to the back. A `while` loop then shifts two entries at a time and attaches
  them to the running promise with `then(fulfilled, rejected)`.
- `Axios.prototype.getUri` serialises the merged config's URL and drops one
  leading `?`.
- `CancelToken` is a one-shot signal. Its `cancel` closure records
  `Cancel(message)` as the `reason` the first time it is called and resolves
  the token's promise with that reason. Later calls do nothing.
  `throwIfRequested` throws the reason when one is set. `CancelToken.source()`
  pairs a fresh token with its `cancel` function.

Files:

- `wrappers.dfy`: `Option` and `Result`.
- `chain.dfy`, module `Chain`: promises as settled outcomes, `then` as one
  step, the fold over stages, the flat layout of the chain, and the lemmas
  about ordering and pass-through.
- `axios.dfy`, module `Axios`: argument and method normalisation, `getUri`,
  the imperative chain build (`BuildChain`), the threading loop (`Execute`)
  and `Request`.
- `cancel_token.dfy`, module `CancelTokens`: the token's state machine as a
  specification function, the `CancelToken` class, the `cancel` closure,
  the constructor with its executor, and `source()`.

A promise is modelled by the outcome it settles to: `Ok(value)` or
`Err(reason)`. `p.then(f, r)` is `Chain.Then`. The handler for the channel
`p` settled on runs, and an absent handler (`undefined`) forwards the value
or the reason unchanged. This is the behaviour of `Promise.prototype.then` in
ECMA-262, sections 27.2.5.4 and 27.2.2.1. The collaborators
`dispatchRequest`, `mergeConfig` and `buildURL` are parameters of the
operations that call them. Interceptor handlers are arbitrary functions from
a value to an outcome. The two interceptor registries are given as the
sequences of `(fulfilled, rejected)` entries that their `forEach` visits.

Behaviour of the code worth noting:

- The constructor's failure for a non-function executor is a `TypeError`
  with the message `executor must be a function.`.
- `getUri` removes only one leading `?`: `"??a"` becomes `"?a"`
  (`Axios.StripRemovesOnlyOne`).
- A string first argument is taken as the URL even when it is empty, since
  the test is `typeof config === 'string'`, not truthiness.

## Model

| member | source | states |
|---|---|---|
| `Axios.NormalizeArgs` | lib/core/Axios.js:31-36 | a string first argument becomes the `url` of the second argument, or of `{}` when that is falsy, whose other properties are kept; a config argument is used as is; a falsy non-string becomes `{}` |
| `Axios.LowerCase` | lib/core/Axios.js:39 | `toLowerCase` keeps the length, leaves no upper-case letter, keeps every other character and shifts each upper-case letter to its lower-case form |
| `Axios.NormalizeMethod` | lib/core/Axios.js:39 | the method becomes a non-empty lower-case string: the lower-cased input when the input is truthy, exactly `"get"` otherwise |
| `Axios.NormalizeMethodIdempotent` | lib/core/Axios.js:39 | normalising an already normalised method changes nothing |
| `Axios.RequestConfig` | lib/core/Axios.js:38-39 | the request config is the merge of the normalised arguments over the defaults, with the same `url` and other properties, and a truthy lower-case method |
| `Axios.StripLeadingQuery` | lib/core/Axios.js:103 | the result is a suffix of the input at most one character shorter, and it is shorter exactly when the input starts with `?` |
| `Axios.StripRemovesOnlyOne` | lib/core/Axios.js:103 | only the first of two leading `?` is removed |
| `Axios.GetUri` | lib/core/Axios.js:101-104 | the URI is what `buildURL` produced from the merged config, or that string without its leading `?` when it has one |
| `Axios.BuildChain` | lib/core/Axios.js:42-87 | the `unshift`/`push` loops produce the flattened pipeline: request pairs last-registered first, then `(dispatchRequest, undefined)`, then response pairs in registration order |
| `Axios.Execute` | lib/core/Axios.js:94-96 | the two-at-a-time `shift` loop yields the left fold of the paired stages over the starting outcome, after one iteration per pair |
| `Axios.Request` | lib/core/Axios.js:28-99 | `request` returns the normalised config and the outcome of running it through the request interceptors last-registered first, dispatch, and the response interceptors in registration order |
| `Chain.PairsOfFlatten` | lib/core/Axios.js:94-96 | shifting two entries at a time recovers exactly the `(fulfilled, rejected)` pairs that `unshift(f, r)` and `push(f, r)` laid out |
| `Chain.Then` | lib/core/Axios.js:95 | `then` runs the handler for the channel the promise settled on, on its value or reason; an absent handler forwards the same outcome |
| `Chain.Shift` | lib/core/Axios.js:95 | `chain.shift()` splits a non-empty chain into its first entry and the rest, and gives `undefined` and an empty chain when there is no entry |
| `Chain.Pairs` | lib/core/Axios.js:94-96 | the loop forms `chain.length / 2` stages, rounded up; stage `k` takes entries `2k` and `2k + 1`, with `undefined` for a missing odd last entry |
| `Chain.ChainLength` | lib/core/Axios.js:42-87 | the built chain has `2 + 2 * (#request + #response interceptors)` entries, an even number |
| `Chain.RequestOrder` | lib/core/Axios.js:81-83 | entries `2i` and `2i + 1` of the chain are the fulfilled and rejected handlers of the `i`-th request interceptor counted from the last registered |
| `Chain.DispatchPosition` | lib/core/Axios.js:42-87 | `dispatchRequest` sits at index `2 * #request interceptors`, followed by `undefined` |
| `Chain.ResponseOrder` | lib/core/Axios.js:85-87 | the `j`-th response interceptor's pair follows the dispatch pair at offset `2j`, in registration order |
| `Chain.RunConcat` | lib/core/Axios.js:94-96 | threading through two stage sequences one after the other is threading through their concatenation |
| `Chain.PassThrough` | lib/core/Axios.js:95 | a stage without a handler for the incoming channel forwards the same value or reason; the dispatch stage forwards a rejection untouched |
| `Chain.RejectionPassesThrough` | lib/core/Axios.js:95 | a rejection passes unchanged through any number of stages that have no `rejected` handler |
| `Chain.DispatchFailureReachesCaller` | lib/core/Axios.js:42-96 | when dispatch rejects with `e` and no response interceptor has a `rejected` handler, the request's outcome is exactly `Err(e)` |
| `Chain.RecoveryAtLastStage` | lib/core/Axios.js:95 | when the stages before a last stage reject with `e` and that stage has a `rejected` handler, the caller receives exactly what that handler makes of `e`, whether a fallback value or a new rejection |
| `CancelTokens.AfterCancel` | lib/cancel/CancelToken.js:25-33 | a `cancel` call keeps the token invariant: the promise is resolved, once, exactly when a reason is set, and with that reason |
| `CancelTokens.FirstCancel` | lib/cancel/CancelToken.js:31-32 | the first `cancel(m)` sets the reason to `Cancel(m)` and resolves the promise with that same reason, once |
| `CancelTokens.CancelIdempotent` | lib/cancel/CancelToken.js:26-29 | once a reason is set, a further `cancel(m2)` changes nothing |
| `CancelTokens.FirstCancelWins` | lib/cancel/CancelToken.js:25-33 | after any non-empty series of `cancel` calls on a fresh token, the reason is the first call's, and the promise was resolved exactly once, with it |
| `CancelTokens.CancelsKeepConsistent` | lib/cancel/CancelToken.js:20-33 | no series of `cancel` calls breaks the token invariant |
| `CancelTokens.CancelToken.constructor` | lib/cancel/CancelToken.js:16-22 | a token starts with no reason and a pending promise |
| `CancelTokens.CancelToken.ThrowIfRequested` | lib/cancel/CancelToken.js:39-43 | fails exactly when a reason is set, and then with exactly that reason; never changes the token |
| `CancelTokens.CancelFn.Call` | lib/cancel/CancelToken.js:25-33 | the `cancel` closure moves the token to the state `AfterCancel` gives, keeping it valid |
| `CancelTokens.NewCancelToken` | lib/cancel/CancelToken.js:11-34 | a non-function executor gives a `TypeError` and no token; otherwise a fresh token on which the executor has run once with that token's `cancel` |
| `CancelTokens.Source` | lib/cancel/CancelToken.js:73-82 | `source()` returns a fresh uncancelled token and a `cancel` bound to that same token |
| `CancelTokens.CancelOneOfTwoSources` | lib/cancel/CancelToken.js:73-82 | cancelling through one source sets that source's reason to `Cancel(m)` and leaves another source's token uncancelled |

## Left out

- The logging block of `request` (lib/core/Axios.js:45-78) registers four logging interceptors on a global `axios` on every call and writes to the console. It is not part of the algorithm.
- The `Axios` constructor (lib/core/Axios.js:14-21): the instance defaults and the two registries are parameters of `Request` and `GetUri`.
- `InterceptorManager` (`use`, `eject`, `forEach`) is not part of this model. Each registry is given as the sequence of entries its `forEach` visits, so ejected entries are simply absent.
- `dispatchRequest`, `mergeConfig` and `buildURL` are not part of this model. They are parameters: dispatch is a handler, merge a function of two configs, and `buildURL` a function of the URL and the other config properties.
- The method aliases (lib/core/Axios.js:106-126) are not modelled. They build their config with `utils.merge`, whose precedence is not part of this model.
- lib/helpers/bind.js is not modelled. It only forwards its arguments through `fn.apply`.
- Asynchrony is not modelled. A promise is the outcome it settles to, so microtask scheduling, handlers that return pending promises, thenables and concurrent cancellation races are absent.
- `Axios.Request`: the config argument is a value. In the source, `config.url = arguments[0]` writes into the caller's second-argument object; that aliasing is not captured.
- `Axios.LowerCase`: lower-cases ASCII letters only. Unicode case mapping is not modelled.
- `Axios.Config`: property values other than `url` and `method` are strings, and `method` is a string. A truthy non-string method, on which `toLowerCase` would throw, is not modelled.
- `Axios.NormalizeArgs`: a truthy first argument that is neither a string nor an object is not modelled. Neither is a truthy second argument that is not an object: with a string first argument, `config.url = arguments[0]` then throws a `TypeError` in strict mode, and `second: Option<Config>` cannot express that input.
- `CancelTokens.NewCancelToken`: the executor is described by the `cancel` calls it makes while it runs. An executor that throws is not modelled. A `cancel` kept for later is observable only through `CancelTokens.Source`.
- The `Cancel` class (lib/cancel/Cancel.js) is not part of this model. It is a record holding the message.
