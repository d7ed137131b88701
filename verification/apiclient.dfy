/** The cache-aside fetch of the API client: a cache hit answers from the
    cache; a miss runs the rate limiter, dispatches one request, caches a
    successful body and turns every failure into `{"error": message}`. */
module ApiClient {
  import opened Base
  import opened CacheKeys
  import opened RateLimiter

  const BaseUrl := "https://fortnite-api.com"

  /** A decoded JSON document. Numbers keep their literal text. */
  datatype Json =
    | JNull
    | JBool(b: bool)
    | JNumber(literal: string)
    | JString(s: string)
    | JArray(items: seq<Json>)
    | JObject(members: map<string, Json>)

  /** The error shape every failed fetch returns. */
  function ErrorBody(message: string): Json {
    JObject(map["error" := JString(message)])
  }

  /** What the HTTP layer gives back for one dispatch: an exception before
      any response (DNS, connection, timeout), or a response with its status,
      the text `raise_for_status` would raise with, and its body as parsed. */
  datatype Reply =
    | TransportError(reason: string)
    | Response(status: int, statusError: string, body: Body)

  datatype Body = Decoded(value: Json) | Malformed(reason: string)

  /** `raise_for_status` raises for client and server error statuses. */
  predicate IsErrorStatus(status: int) {
    400 <= status < 600
  }

  /** The outcome of lines that call the transport, check the status and
      decode the body: the decoded document, or the message of the first
      exception raised. */
  function Fetched(reply: Reply): (r: Result<Json, string>)
    ensures r.Success? <==> reply.Response? && !IsErrorStatus(reply.status) && reply.body.Decoded?
    ensures r.Success? ==> r.value == reply.body.value
  {
    match reply
    case TransportError(reason) => Failure(reason)
    case Response(status, statusError, body) =>
      if IsErrorStatus(status) then Failure(statusError)
      else match body
        case Decoded(v) => Success(v)
        case Malformed(reason) => Failure(reason)
  }

  /** The client: its response cache and the time of its last dispatch. */
  datatype Client = Client(cache: map<string, Json>, lastCall: int)

  /** A fresh client over a cache loaded from disk. Its last call is at time
      zero, so the first dispatch at any time past the limit does not wait. */
  function NewClient(loaded: map<string, Json>): (c: Client)
    ensures c.cache == loaded
    ensures forall now :: now >= RateLimitMs ==> RateLimit(now, c.lastCall).clock == now
  {
    Client(loaded, 0)
  }

  /** One request put on the wire. */
  datatype Dispatch = Dispatch(at: int, url: string, params: Params)

  /** The client after a fetch, the clock when the fetch returned its value,
      the value returned, and the request sent, if one was. */
  datatype Fetch = Fetch(client: Client, clock: int, value: Json, sent: Option<Dispatch>)

  /** `get(path, params)` called at time `now`: the lookup under the key
      `path + " " + str(params)`. */
  function Get(c: Client, now: int, path: string, params: Params, reply: Reply, saveFault: Option<string>): (f: Fetch)
    // a request goes out exactly when the key is not cached
    ensures f.sent.None? <==> CacheKey(path, params) in c.cache
    // a decoded body stays cached for every later identical `get`
    ensures Fetched(reply).Success? ==> CacheKey(path, params) in f.client.cache
    // nothing cached is lost
    ensures c.cache.Keys <= f.client.cache.Keys
  {
    Lookup(c, now, CacheKey(path, params), path, params, reply, saveFault)
  }

  /** The body of `get` once the key is computed. `reply` is what the network
      answers if a request is sent; `saveFault` is the exception writing the
      cache file raises, if it raises one. */
  function Lookup(c: Client, now: int, key: string, path: string, params: Params, reply: Reply, saveFault: Option<string>): (f: Fetch)
    // a hit: the stored value, no dispatch, no wait, no change
    ensures key in c.cache ==> f == Fetch(c, now, c.cache[key], None)
    // a miss: exactly one dispatch to the base URL, spaced from the last one
    ensures key !in c.cache ==>
      && f.sent == Some(Dispatch(f.clock, BaseUrl + path, params))
      && f.clock >= now
      && f.clock >= c.lastCall + RateLimitMs
      && f.client.lastCall == f.clock
    // a failed miss: the error shape, and the cache untouched
    ensures key !in c.cache && Fetched(reply).Failure? ==>
      f.value == ErrorBody(Fetched(reply).error) && f.client.cache == c.cache
    // a successful miss: the body is cached under the key, nothing else changes
    ensures key !in c.cache && Fetched(reply).Success? ==>
      && f.client.cache.Keys == c.cache.Keys + {key}
      && f.client.cache[key] == Fetched(reply).value
      && (saveFault.None? ==> f.value == Fetched(reply).value)
      && (saveFault.Some? ==> f.value == ErrorBody(saveFault.value))
    // entries are never removed or overwritten
    ensures forall k :: k in c.cache ==> k in f.client.cache && f.client.cache[k] == c.cache[k]
  {
    if key in c.cache then
      Fetch(c, now, c.cache[key], None)
    else
      var limited := RateLimit(now, c.lastCall);
      var waited := c.(lastCall := limited.lastCall);
      var sent := Some(Dispatch(limited.clock, BaseUrl + path, params));
      match Fetched(reply)
      case Failure(message) =>
        Fetch(waited, limited.clock, ErrorBody(message), sent)
      case Success(data) =>
        var stored := waited.(cache := waited.cache[key := data]);
        match saveFault
        case None => Fetch(stored, limited.clock, data, sent)
        case Some(message) => Fetch(stored, limited.clock, ErrorBody(message), sent)
  }

  /** A second identical `get` after one whose body was decoded is a hit that
      returns the cached body and sends nothing, whatever the network would
      have answered and however soon it comes. */
  lemma SecondFetchHits(c: Client, now: int, path: string, params: Params, reply: Reply, saveFault: Option<string>,
                        later: nat, reply2: Reply, saveFault2: Option<string>)
    requires Fetched(reply).Success? || CacheKey(path, params) in c.cache
    ensures var f1 := Get(c, now, path, params, reply, saveFault);
      var f2 := Get(f1.client, f1.clock + later, path, params, reply2, saveFault2);
      && f2.sent.None?
      && f2.client == f1.client
      && f2.value == f1.client.cache[CacheKey(path, params)]
  {
  }

  /** When writing the cache file fails, `get` returns the error, yet the
      body is already in the cache, so the identical `get` that follows is a
      hit returning the body. */
  lemma SaveFaultKeepsBody(c: Client, now: int, path: string, params: Params, reply: Reply, message: string,
                           later: nat, reply2: Reply, saveFault2: Option<string>)
    requires CacheKey(path, params) !in c.cache
    requires Fetched(reply).Success?
    ensures var f1 := Get(c, now, path, params, reply, Some(message));
      var f2 := Get(f1.client, f1.clock + later, path, params, reply2, saveFault2);
      && f1.value == ErrorBody(message)
      && f2.sent.None?
      && f2.value == Fetched(reply).value
  {
  }

  /** A failed `get` leaves nothing cached, so the identical `get` that
      follows goes to the network again, one rate limit later. */
  lemma FailedFetchRetries(c: Client, now: int, path: string, params: Params, reply: Reply, saveFault: Option<string>,
                           later: nat, reply2: Reply, saveFault2: Option<string>)
    requires CacheKey(path, params) !in c.cache
    requires Fetched(reply).Failure?
    ensures var f1 := Get(c, now, path, params, reply, saveFault);
      var f2 := Get(f1.client, f1.clock + later, path, params, reply2, saveFault2);
      && f1.sent.Some? && f2.sent.Some?
      && f2.sent.value.at >= f1.sent.value.at + RateLimitMs
  {
  }

  /** One call of a sequence of fetches: the idle time before it, the key the
      caller computed for it, the request, and what the network and the disk
      would do. A `get` call has `key == CacheKey(path, params)`. */
  datatype Call = Call(gap: nat, key: string, path: string, params: Params, reply: Reply, saveFault: Option<string>)

  /** The call `get(path, params)` makes. */
  function GetCall(gap: nat, path: string, params: Params, reply: Reply, saveFault: Option<string>): Call {
    Call(gap, CacheKey(path, params), path, params, reply, saveFault)
  }

  /** A `get` call in a run is `get` at the time it arrives. */
  lemma GetCallSteps(c: Client, now: int, gap: nat, path: string, params: Params, reply: Reply, saveFault: Option<string>)
    ensures Step(c, now, GetCall(gap, path, params, reply, saveFault)) == Get(c, now + gap, path, params, reply, saveFault)
  {
  }

  function Step(c: Client, now: int, call: Call): Fetch {
    Lookup(c, now + call.gap, call.key, call.path, call.params, call.reply, call.saveFault)
  }

  /** Runs the calls one after another from time `now`, each starting `gap`
      after the previous one returned. */
  function Run(c: Client, now: int, calls: seq<Call>): (trace: seq<Fetch>)
    ensures |trace| == |calls|
    decreases |calls|
  {
    if calls == [] then []
    else
      var f := Step(c, now, calls[0]);
      [f] + Run(f.client, f.clock, calls[1..])
  }

  /** The times at which requests went out, in order. */
  function DispatchTimes(trace: seq<Fetch>): seq<int> {
    if trace == [] then []
    else (if trace[0].sent.Some? then [trace[0].sent.value.at] else []) + DispatchTimes(trace[1..])
  }

  /** The first call of a run, and the run of the remaining calls. */
  lemma RunUnfold(c: Client, now: int, calls: seq<Call>)
    requires calls != []
    ensures var f := Step(c, now, calls[0]);
      && Run(c, now, calls)[0] == f
      && Run(c, now, calls)[1..] == Run(f.client, f.clock, calls[1..])
  {
  }

  /** A key cached before a run is still cached when each of its calls
      returns, and every call with that key is answered from the cache. */
  lemma {:induction false} CacheKeptAlongRun(c: Client, now: int, calls: seq<Call>, j: nat, key: string)
    requires j < |calls|
    requires key in c.cache
    ensures key in Run(c, now, calls)[j].client.cache
    ensures calls[j].key == key ==> Run(c, now, calls)[j].sent.None?
    decreases |calls|
  {
    var f := Step(c, now, calls[0]);
    RunUnfold(c, now, calls);
    if j > 0 {
      var rest := Run(f.client, f.clock, calls[1..]);
      CacheKeptAlongRun(f.client, f.clock, calls[1..], j - 1, key);
      assert Run(c, now, calls)[j] == rest[j - 1];
    }
  }

  /** However the calls are spread out and whatever the network answers,
      consecutive dispatches are at least the rate limit apart, and the first
      is at least the limit after the client's last recorded call. */
  lemma {:induction false} DispatchesSpaced(c: Client, now: int, calls: seq<Call>)
    ensures var ts := DispatchTimes(Run(c, now, calls));
      && (|ts| > 0 ==> ts[0] >= c.lastCall + RateLimitMs)
      && forall i :: 0 <= i < |ts| - 1 ==> ts[i] + RateLimitMs <= ts[i + 1]
    decreases |calls|
  {
    if calls != [] {
      var f := Step(c, now, calls[0]);
      var trace := Run(c, now, calls);
      RunUnfold(c, now, calls);
      DispatchesSpaced(f.client, f.clock, calls[1..]);
      var rest := DispatchTimes(trace[1..]);
      assert DispatchTimes(trace) == (if f.sent.Some? then [f.sent.value.at] else []) + rest;
      if f.sent.Some? {
        assert f.client.lastCall == f.sent.value.at;
      } else {
        assert f.client == c;
      }
    }
  }

  /** Over any sequence of calls, once a call has left its key in the cache,
      every later call with the same key is answered without a dispatch. */
  lemma {:induction false} CachedKeysNeverRefetched(c: Client, now: int, calls: seq<Call>, i: nat, j: nat)
    requires i < j < |calls|
    requires calls[j].key == calls[i].key
    requires calls[i].key in Run(c, now, calls)[i].client.cache
    ensures Run(c, now, calls)[j].sent.None?
    decreases |calls|
  {
    var f := Step(c, now, calls[0]);
    var rest := Run(f.client, f.clock, calls[1..]);
    RunUnfold(c, now, calls);
    assert Run(c, now, calls)[j] == rest[j - 1];
    assert calls[1..][j - 1] == calls[j];
    if i == 0 {
      CacheKeptAlongRun(f.client, f.clock, calls[1..], j - 1, calls[0].key);
    } else {
      assert Run(c, now, calls)[i] == rest[i - 1];
      assert calls[1..][i - 1] == calls[i];
      CachedKeysNeverRefetched(f.client, f.clock, calls[1..], i - 1, j - 1);
    }
  }

  /** A run of `get` calls: once one of them has left the response to
      `get(path, params)` in the cache, no later `get(path, params)` goes to
      the network. */
  lemma GetsNeverRefetched(c: Client, now: int, calls: seq<Call>, i: nat, j: nat)
    requires i < j < |calls|
    requires calls[i] == GetCall(calls[i].gap, calls[i].path, calls[i].params, calls[i].reply, calls[i].saveFault)
    requires calls[j] == GetCall(calls[j].gap, calls[i].path, calls[i].params, calls[j].reply, calls[j].saveFault)
    requires calls[i].key in Run(c, now, calls)[i].client.cache
    ensures Run(c, now, calls)[j].sent.None?
  {
    CachedKeysNeverRefetched(c, now, calls, i, j);
  }
}
