/**
 * `Axios.prototype.request` and `Axios.prototype.getUri` (lib/core/Axios.js):
 * argument and method normalisation, the build of the flat interceptor chain
 * by `unshift`/`push`, and the loop that threads the request through it.
 */
module Axios {
  import opened Wrappers
  import opened Chain

  /** A request config object. `url` and `method` (named `httpMethod` here,
      `method` being a Dafny keyword) are the properties the core itself reads
      or writes; `other` stands for every other property (`params`,
      `paramsSerializer`, `headers`, `data`, `baseURL`, ...). */
  datatype Config = Config(url: Option<string>, httpMethod: Option<string>, other: map<string, string>)

  /** The object literal `{}`. */
  const EmptyConfig: Config := Config(None, None, map[])

  /** The first argument of `request`: a string (including `""`), a config
      object, or a falsy non-string (`undefined`, `null`, ...). */
  datatype Arg = UrlArg(url: string) | ConfigArg(config: Config) | Falsy

  /** A value travelling down the chain: the request config, or whatever else
      a handler produced (a response, an error object, ...). */
  datatype Value<R> = ConfigValue(config: Config) | OtherValue(other: R)

  /** The config `request` works on before merging (lines 31-36). With a
      string first argument the second argument, or `{}` when it is falsy,
      receives that string as its `url`; otherwise the first argument is the
      config, with `{}` in place of a falsy one. */
  function NormalizeArgs(first: Arg, second: Option<Config>): (c: Config)
    ensures first.UrlArg? ==> c.url == Some(first.url)
    ensures first.UrlArg? && second.Some? ==> c.httpMethod == second.value.httpMethod && c.other == second.value.other
    ensures first.UrlArg? && second.None? ==> c.httpMethod == None && c.other == map[]
    ensures first.ConfigArg? ==> c == first.config
    ensures first.Falsy? ==> c == EmptyConfig
  {
    match first
    case UrlArg(url) => second.GetOr(EmptyConfig).(url := Some(url))
    case ConfigArg(config) => config
    case Falsy => EmptyConfig
  }

  /** ASCII `toLowerCase` on one character. */
  function LowerChar(c: char): char {
    if 'A' <= c <= 'Z' then (c as int - 'A' as int + 'a' as int) as char else c
  }

  predicate IsLowerCase(s: string) {
    forall i :: 0 <= i < |s| ==> !('A' <= s[i] <= 'Z')
  }

  /** `String.prototype.toLowerCase`, restricted to ASCII letters. */
  function LowerCase(s: string): (r: string)
    ensures |r| == |s|
    ensures IsLowerCase(r)
    ensures forall i :: 0 <= i < |s| && !('A' <= s[i] <= 'Z') ==> r[i] == s[i]
    ensures forall i :: 0 <= i < |s| && 'A' <= s[i] <= 'Z' ==> r[i] as int == s[i] as int + 32
  {
    seq(|s|, i requires 0 <= i < |s| => LowerChar(s[i]))
  }

  /** A string is truthy when it is present and not empty. */
  predicate Truthy(s: Option<string>) {
    s.Some? && s.value != ""
  }

  /** Line 39: the lower-cased method when it is truthy, `"get"` otherwise. */
  function NormalizeMethod(httpMethod: Option<string>): (r: string)
    ensures Truthy(Some(r)) && IsLowerCase(r)
    ensures Truthy(httpMethod) ==> r == LowerCase(httpMethod.value)
    ensures !Truthy(httpMethod) ==> r == "get"
  {
    if Truthy(httpMethod) then LowerCase(httpMethod.value) else "get"
  }

  /** Normalising a normalised method changes nothing, so a config that has
      already been through `request` keeps its method. */
  lemma NormalizeMethodIdempotent(httpMethod: Option<string>)
    ensures NormalizeMethod(Some(NormalizeMethod(httpMethod))) == NormalizeMethod(httpMethod)
  {
  }

  /** Lines 38-39: the per-call config merged over the defaults by the
      config merge policy `merge`, with its method normalised. */
  function RequestConfig(defaults: Config, first: Arg, second: Option<Config>,
                         merge: (Config, Config) -> Config): (c: Config)
    ensures var merged := merge(defaults, NormalizeArgs(first, second));
      c.url == merged.url && c.other == merged.other && c.httpMethod == Some(NormalizeMethod(merged.httpMethod))
    ensures Truthy(c.httpMethod) && IsLowerCase(c.httpMethod.value)
  {
    var merged := merge(defaults, NormalizeArgs(first, second));
    merged.(httpMethod := Some(NormalizeMethod(merged.httpMethod)))
  }

  /** `.replace(/^\?/, '')`: drops one leading `?`, if there is one, and
      nothing else. */
  function StripLeadingQuery(s: string): (r: string)
    ensures |s| - 1 <= |r| <= |s|
    ensures r == s[|s| - |r|..]
    ensures |r| < |s| <==> (|s| > 0 && s[0] == '?')
  {
    if |s| > 0 && s[0] == '?' then s[1..] else s
  }

  /** Only the first `?` goes: `"??a"` becomes `"?a"`. */
  lemma StripRemovesOnlyOne(t: string)
    ensures StripLeadingQuery("??" + t) == "?" + t
  {
  }

  /** Lines 101-104: the URL that `buildURL` serialises from the merged
      config's `url` and remaining properties (among them `params` and
      `paramsSerializer`), without a leading `?`. */
  function GetUri(defaults: Config, config: Config, merge: (Config, Config) -> Config,
                  buildURL: (Option<string>, map<string, string>) -> string): (uri: string)
    ensures var built := buildURL(merge(defaults, config).url, merge(defaults, config).other);
      built == uri || built == "?" + uri
    ensures var built := buildURL(merge(defaults, config).url, merge(defaults, config).other);
      built != [] && built[0] == '?' ==> uri == built[1..]
  {
    var merged := merge(defaults, config);
    var built := buildURL(merged.url, merged.other);
    var uri := StripLeadingQuery(built);
    assert built != [] && built[0] == '?' ==> built == "?" + uri;
    uri
  }

  /** Lines 42 and 81-87: `chain` starts as `[dispatchRequest, undefined]`,
      each request interceptor visited is `unshift`ed to the front and each
      response interceptor visited is `push`ed to the back. */
  method BuildChain<V>(requests: seq<Stage<V>>, dispatch: Handler<V>, responses: seq<Stage<V>>)
    returns (chain: seq<Slot<V>>)
    ensures chain == Flatten(Pipeline(requests, dispatch, responses))
  {
    chain := [Some(dispatch), None];
    for i := 0 to |requests|
      invariant chain == Flatten(Reverse(requests[..i])) + [Some(dispatch), None]
    {
      chain := [requests[i].fulfilled, requests[i].rejected] + chain;
      assert requests[..i + 1][..i] == requests[..i];
    }
    assert requests[..|requests|] == requests;
    ghost var front := chain;
    for j := 0 to |responses|
      invariant chain == front + Flatten(responses[..j])
    {
      FlattenConcat(responses[..j], [responses[j]]);
      assert responses[..j + 1] == responses[..j] + [responses[j]];
      chain := chain + [responses[j].fulfilled, responses[j].rejected];
    }
    assert responses[..|responses|] == responses;
    FlattenConcat(Reverse(requests), [DispatchStage(dispatch)]);
    FlattenConcat(Reverse(requests) + [DispatchStage(dispatch)], responses);
  }

  /** Lines 94-96: `while (chain.length)` shifts two entries and attaches them
      as `then(fulfilled, rejected)`. The result is the fold of the paired
      stages over the starting outcome, the chain ends empty, and the loop
      runs once per pair. */
  method Execute<V>(start: Settled<V>, chain: seq<Slot<V>>) returns (promise: Settled<V>, ghost rounds: nat)
    ensures promise == Run(start, Pairs(chain))
    ensures rounds == |Pairs(chain)| == (|chain| + 1) / 2
  {
    var rest := chain;
    promise, rounds := start, 0;
    while |rest| > 0
      invariant Run(promise, Pairs(rest)) == Run(start, Pairs(chain))
      invariant rounds + (|rest| + 1) / 2 == (|chain| + 1) / 2
      decreases |rest|
    {
      var fulfilled, rejected;
      var shifted := Shift(rest);
      fulfilled, rest := shifted.0, shifted.1;
      shifted := Shift(rest);
      rejected, rest := shifted.0, shifted.1;
      promise := Then(promise, Stage(fulfilled, rejected));
      rounds := rounds + 1;
    }
  }

  /** Lines 28-99 without the logging block: normalise the arguments, merge
      and normalise the method, build the chain from the interceptors the two
      registries visit, and thread the config through it. The outcome is that
      of running request interceptors last-registered first, then dispatch,
      then response interceptors in registration order. */
  method Request<R>(defaults: Config, first: Arg, second: Option<Config>, merge: (Config, Config) -> Config,
                    requests: seq<Stage<Value<R>>>, dispatch: Handler<Value<R>>, responses: seq<Stage<Value<R>>>)
    returns (config: Config, promise: Settled<Value<R>>)
    ensures config == RequestConfig(defaults, first, second, merge)
    ensures promise == Run(Ok(ConfigValue(config)), Pipeline(requests, dispatch, responses))
  {
    config := NormalizeArgs(first, second);
    config := merge(defaults, config);
    config := config.(httpMethod := Some(NormalizeMethod(config.httpMethod)));
    var chain := BuildChain(requests, dispatch, responses);
    ghost var rounds;
    promise, rounds := Execute(Ok(ConfigValue(config)), chain);
    PairsOfFlatten(Pipeline(requests, dispatch, responses));
  }
}
