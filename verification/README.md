# fortnite-api-gui core, modelled in Dafny

The application is a desktop client for the fortnite-api.com web API. Its
core is the `FortniteAPI` client and a few pieces of the `FortniteApp`
window that hold logic of their own. This project models that core as
immutable data and pure functions, and proves properties about it:

- **Cache keys** (`PyRepr`, `CacheKeys`). `get` caches under the key
  `f"{path} {params}"`. `params` is either `None` or a dict of strings. The
  model writes Python's `repr` of a string and of a dict, and gives a
  decoder that inverts the string form. So two different strings never
  share a key.
- **Named methods** (`Endpoints`). The twelve `get_*` methods each map to a
  path and parameters. `get_cosmetics("")` sends no parameters. A creator
  code is spliced into the path. A parser reads the method and its
  argument back out of the cache key it produces. So no two calls of the
  named methods share a cache entry unless they are the same call.
- **Rate limiter** (`RateLimiter`). The clock is in integer milliseconds
  and the limit is 1500 ms. If less than the limit has passed since the
  last call, the limiter sleeps out the remainder. It then records the
  current time.
- **Cache-aside fetch** (`ApiClient`). This covers `get` with its four
  outcomes:
  - a hit returns the stored value and touches nothing;
  - a successful miss caches the decoded body;
  - a miss that fails in transport, status or JSON decoding returns
    `{"error": message}` and caches nothing;
  - a miss whose body decoded but whose cache file could not be written
    returns `{"error": message}`, yet the body stays cached.

  The network is an oracle value per call: a transport exception, or a
  status with a body that decodes or not. An exception from writing the
  cache file is a second oracle value. `Run` executes any sequence of
  calls. Over a run, dispatches are spaced by at least the limit, and a
  key that is cached is never fetched again.
- **History** (`History`). `add_history` appends to a category, creating
  it if needed, and keeps only the 25 newest records.
- **Decryption utility** (`Padding`, `Decrypt`). This is the PKCS#7
  padding strip exactly as written: `d[:-d[-1]]` with Python slice
  semantics. Around it sits the pipeline of the utility: base64, the key's
  UTF-8 length check, ECB block alignment, the strip, and UTF-8 decoding.
  Base64, the AES block function and the UTF-8 decoder are parameters.
- **Stat formatting** (`StatFormat`). `format_stat_category` writes a
  header line, then one `label: value` line per known statistic present,
  in the fixed order of its key list, then a blank line, all joined with
  newlines.

Two behaviours of the code are easy to miss, and the model states both:

- The strip never rejects bad padding. A pad byte longer than the buffer
  gives an empty result, not an error (`Padding.StripIsPythonSlice`,
  `Padding.OverlongPadAccepted`).
- A `get` that fails in transport, status or JSON decoding caches
  nothing, so the identical `get` is dispatched again
  (`ApiClient.FailedFetchRetries`). A `get` whose body decoded leaves it
  cached even when writing the cache file fails and the `get` returns the
  error, so the next identical `get` is a cache hit
  (`ApiClient.SecondFetchHits`, `ApiClient.SaveFaultKeepsBody`).

## Model

| member | source | states |
|---|---|---|
| `PyRepr.QuoteFor` | fortnite_api.py:47 | `repr` uses double quotes if and only if the text holds a single quote and no double quote; otherwise single quotes |
| `PyRepr.ReprStr` | fortnite_api.py:47 | a string's `repr` is enclosed in one matching quote character, the one `QuoteFor` picks |
| `PyRepr.UnescapeEscapeChar` | fortnite_api.py:47 | every escape `repr` writes for a character (backslash, quote, tab, newline, return, and `\xhh` for the characters up to 0xff that Python does not print) reads back as that character |
| `PyRepr.UnescapeEscape` | fortnite_api.py:47 | decoding the escaped body of a `repr` gives back the whole string |
| `PyRepr.ReprRoundTrip` | fortnite_api.py:47 | decoding `repr(s)` gives `s` back |
| `PyRepr.ReprInjective` | fortnite_api.py:47 | two strings with the same `repr` are equal |
| `PyRepr.ReprDictBraces` | fortnite_api.py:47 | a dict's `repr` starts with `{` and ends with `}` |
| `PyRepr.ReprDict` | fortnite_api.py:47 | `str(params)` for a dict of strings: `{`, the `repr` of each key and value as `k: v` separated by `, `, then `}`. `ReprDictBraces` and `Endpoints.NameQueryKey` state its shape |
| `CacheKeys.CacheKey` | fortnite_api.py:47 | the key `f"{path} {params}"`. `CacheKeyShape` states its shape; with `ReprRoundTrip` no two different parameter strings share a key |
| `CacheKeys.CacheKeyShape` | fortnite_api.py:47 | a key starts with the path and a space, and it ends in ` None` exactly when no parameters were given, so no parameters and an empty dict never share a key |
| `Endpoints.RequestFor` | fortnite_api.py:62-96 | `get_cosmetics` sends no parameters exactly when the search is empty, and `{"name": search}` otherwise; `get_stats` sends `{"name": username}` to `/v2/stats/br/v2`; each method that takes no argument uses its own fixed path; a creator code is appended to `/v2/creatorcode/` with no parameters; every other method sends none |
| `Endpoints.EndpointKey` | fortnite_api.py:46-96 | the cache key a named method's `get` uses. `ParseKeyInverts` reads the call back from it, and `EndpointKeyInjective` shows no two calls share it |
| `Endpoints.NameQueryKey` | fortnite_api.py:47 | the key of a `{"name": v}` request is the path, ` {'name': `, `repr(v)` and `}` |
| `Endpoints.FixedKeyParses` | fortnite_api.py:62-93 | the constant key of each method that takes no argument is read back as that method |
| `Endpoints.CreatorCodeKeyParses` | fortnite_api.py:95-96 | the key of `get_creator_code(c)` is read back as that call, with `c` recovered |
| `Endpoints.CosmeticsKeyParses` | fortnite_api.py:62-63 | the key of `get_cosmetics(s)` is read back as that call, with `s` recovered, for empty and non-empty `s` alike (the empty search through its constant key) |
| `Endpoints.StatsKeyParses` | fortnite_api.py:68-69 | the key of `get_stats(u)` is read back as that call, with `u` recovered |
| `Endpoints.ParseKeyInverts` | fortnite_api.py:46-96 | the parser inverts the key of every named method call |
| `Endpoints.EndpointKeyInjective` | fortnite_api.py:46-96 | two named method calls share a cache key if and only if they are the same call |
| `RateLimiter.RateLimit` | fortnite_api.py:40-44 | after the limiter the recorded last call is the current clock; the clock has not gone back and is at least the old last call plus 1500 ms; it is either the arrival time or exactly the end of the limit |
| `RateLimiter.NoNeedlessWait` | fortnite_api.py:41-43 | the limiter returns at once if and only if the limit had already passed |
| `ApiClient.Fetched` | fortnite_api.py:53-55 | a fetch yields data if and only if the transport answered, the status is not a 4xx or 5xx error, and the body decoded; the data is the decoded body |
| `ApiClient.NewClient` | fortnite_api.py:21-26 | a new client holds the loaded cache, and its last call is at time zero, so its first dispatch at any time past 1500 ms does not wait |
| `ApiClient.Get` | fortnite_api.py:46-60 | `get(path, params)` under the key `path + " " + str(params)`: a request goes out exactly when that key is not cached, a decoded body leaves the key cached, and nothing cached is lost. `Lookup` states each outcome in full |
| `ApiClient.Lookup` | fortnite_api.py:48-60 | a hit returns the stored value with no dispatch and no change. A miss dispatches once to the base URL plus the path, after the limiter. A miss that fails in transport, status or JSON decoding returns `{"error": message}` and leaves the cache alone. A miss whose body decoded caches it under the key, adding only that key, and returns it, or returns the save error, with the body still cached, if writing the cache file fails. No entry is ever removed or overwritten |
| `ApiClient.SecondFetchHits` | fortnite_api.py:47-58 | after a `get` whose response passed the status check and decoded, whether or not writing the cache file then failed, the identical `get` sends nothing, changes nothing and returns the cached body, whatever the network would say and however soon it comes |
| `ApiClient.SaveFaultKeepsBody` | fortnite_api.py:47-60 | when the body decoded but writing the cache file fails, `get` returns `{"error": message}`, yet the identical `get` that follows sends nothing and returns the body |
| `ApiClient.FailedFetchRetries` | fortnite_api.py:50-60 | after a `get` that failed in transport, status or JSON decoding, the identical `get` dispatches again, at least 1500 ms after the first dispatch |
| `ApiClient.GetCallSteps` | fortnite_api.py:46-47 | a `get` call in a run is `get` itself at the time the call arrives, under the key line 47 builds |
| `ApiClient.CacheKeptAlongRun` | fortnite_api.py:48-56 | a key cached before a run stays cached through every call of it, and every call with that key is answered without a dispatch |
| `ApiClient.DispatchesSpaced` | fortnite_api.py:40-53 | over any run, consecutive dispatches are at least 1500 ms apart, and the first is at least 1500 ms after the client's last recorded call |
| `ApiClient.CachedKeysNeverRefetched` | fortnite_api.py:47-58 | once a call has left its key cached, every later call with the same key in the run is answered without a dispatch |
| `ApiClient.GetsNeverRefetched` | fortnite_api.py:46-58 | in any run, once a `get(path, params)` call has left its response cached, no later `get(path, params)` call is dispatched |
| `History.Recent` | fortnite_api.py:142-143 | trimming keeps `min(n, 25)` records |
| `History.RecentIsNewest` | fortnite_api.py:142-143 | the records kept are the newest ones, in their original order |
| `History.AddHistory` | fortnite_api.py:137-143 | `add_history(category, entry)`: append a time-stamped record and keep the last 25. `AddHistorySpec` states its effect and `AddAllKeepsRecent` the effect of a series |
| `History.AppendRecent` | fortnite_api.py:140-143 | after an append and trim, the list holds `min(n + 1, 25)` records, the newest of them the one just added, and it is the tail of the old list plus the new record |
| `History.AddHistorySpec` | fortnite_api.py:137-143 | after `add_history` the category exists (created if missing) with the bounded tail of its old records plus the new one, the new one last; every other category is unchanged |
| `History.RecentOfRecent` | fortnite_api.py:140-143 | trimming after every append keeps the same records as trimming once at the end |
| `History.AddAllKeepsRecent` | fortnite_api.py:137-143 | after one or more additions to one category, it holds exactly the 25 newest of its old and new records, and no other category changed |
| `Padding.PySliceTo` | fortnite_api.py:601 | Python's `d[:stop]` is a prefix of `d`. A negative stop counts from the end, and a stop past either end is clamped |
| `Padding.StripPadding` | fortnite_api.py:600-601 | the strip fails (an `IndexError`) exactly on an empty buffer; otherwise it returns a prefix of the buffer |
| `Padding.StripIsPythonSlice` | fortnite_api.py:600-601 | the strip is Python's `d[:-p]` for the last byte `p`. A zero pad byte or one longer than the buffer gives an empty result; otherwise exactly `p` bytes go |
| `Padding.Pad` | fortnite_api.py:600-601 | padding under section 6.3 of RFC 5652 keeps the plaintext as a prefix and brings the length to the next multiple of 16, adding 1 to 16 bytes |
| `Padding.StripPad` | fortnite_api.py:600-601 | padded text is well padded, and stripping it returns the plaintext |
| `Padding.PadStrip` | fortnite_api.py:600-601 | on well-padded input the loose strip succeeds, and padding its result rebuilds the input |
| `Padding.ZeroPadAccepted` | fortnite_api.py:600-601 | a zero pad byte is invalid padding, yet the strip accepts it and returns nothing |
| `Padding.OverlongPadAccepted` | fortnite_api.py:600-601 | a pad byte longer than the buffer is invalid, yet the strip returns an empty result rather than failing |
| `Padding.MixedPadAccepted` | fortnite_api.py:600-601 | pad bytes that differ from the pad length are not checked |
| `Decrypt.Utf8Width` | fortnite_api.py:597 | UTF-8 writes 1 to 4 bytes per character, and 1 exactly for ASCII |
| `Decrypt.Utf8Length` | fortnite_api.py:597 | a key of `n` characters encodes to between `n` and `4n` bytes |
| `Decrypt.Utf8LengthAscii` | fortnite_api.py:597 | the key's byte length equals its character count if and only if it is ASCII |
| `Decrypt.Utf8Encode` | fortnite_api.py:597 | the key bytes handed to the cipher are `Utf8Length` long |
| `Decrypt.DecryptText` | fortnite_api.py:588-605 | empty text or an empty key is an input error. A base64 failure is reported as such. A key whose UTF-8 length is not 16, 24 or 32 is rejected with that length. Success needs decodable base64, a valid key length and block-aligned ciphertext |
| `Decrypt.DecryptRoundTrip` | fortnite_api.py:595-603 | text whose UTF-8 bytes were padded and encrypted in ECB mode under a valid key decrypts back to that text |
| `Decrypt.EmptyCiphertextFails` | fortnite_api.py:598-600 | ciphertext that decodes to no bytes fails at the strip's `IndexError` |
| `StatFormat.Picks` | fortnite_api.py:307-308 | the positions picked lie in the key list, and a position is picked if and only if the category has that key |
| `StatFormat.PicksIncreasing` | fortnite_api.py:307 | the picked positions are strictly increasing, so they follow key-list order with no repeats |
| `StatFormat.BodyLinesFollowPicks` | fortnite_api.py:307-313 | the loop writes one line per picked key, and line `i` is the label and value of the `i`-th picked key |
| `StatFormat.FormatLinesShape` | fortnite_api.py:282-314 | the lines are the header `=== name Stats ===`, then exactly one `label: value` line per present statistic in key-list order, then an empty line |
| `StatFormat.Join` | fortnite_api.py:315 | `"\n".join(lines)`. `SplitJoin` shows splitting at newlines inverts it on lines without a newline |
| `StatFormat.FormatStatCategory` | fortnite_api.py:280-315 | `format_stat_category(name, stats)`. `FormatLinesShape` states its lines and `FormatStatCategorySplits` that the text is exactly those lines joined |
| `StatFormat.BodyLinesIgnoreOthers` | fortnite_api.py:307-308 | two categories that agree on the listed keys give the same lines |
| `StatFormat.FormatIgnoresOthers` | fortnite_api.py:284-315 | a key outside the key list does not change the block |
| `StatFormat.SplitNoNewline` | fortnite_api.py:315 | splitting text whose first part has no newline keeps that part at the front of the first piece |
| `StatFormat.SplitJoin` | fortnite_api.py:315 | joining lines without newlines by `"\n"` and splitting again gives back the lines |
| `StatFormat.FormatSplits` | fortnite_api.py:280-315 | for any key list with plain labels, when the name and values hold no newline, the joined block splits back into exactly its lines |
| `StatFormat.StatKeysPlain` | fortnite_api.py:284-305 | none of the twenty labels holds a newline |
| `StatFormat.FormatStatCategorySplits` | fortnite_api.py:280-315 | the text `format_stat_category` returns splits back into its header, statistic lines and blank line |

## Left out

- HTTP transport, JSON decoding and the `requests` session
  (fortnite_api.py:21-25, 53-55). They are an oracle value per call: a
  transport exception, or a response with a status, the message
  `raise_for_status` would raise with, and a body that decoded or did not.
  The request's timeout, headers and query encoding on the wire are not
  modelled.
- Loading and saving the cache, history and config files
  (fortnite_api.py:28-38, 110-135, 144). A cache loaded from disk is the
  initial map given to `NewClient`. A failing `save_cache` is an optional
  message per call. Saving the history is not modelled.
- Wall-clock time. `time.time()`, `time.sleep` and seconds as floats
  become an integer clock in milliseconds. The current time is a
  parameter, and each call of a run arrives a given gap after the
  previous one returned. The first call's `last_call_time` of 0 is
  `NewClient`'s `lastCall`.
- `ApiClient.Run`: each call carries its key already computed. A `get`
  call's key is `CacheKey(path, params)` (see `ApiClient.GetCall` and
  `ApiClient.GetCallSteps`). The run lemmas hold for any keys, and
  `ApiClient.GetsNeverRefetched` restates the main one for `get` calls.
- `RateLimiter.RateLimit`: the clause that the clock is either the arrival
  time or exactly the end of the limit holds only because `time.sleep` is
  taken as exact and no time passes between the clock reads at lines 41
  and 44. The spacing bounds do not depend on it.
- Threads (fortnite_api.py:669-672). The unguarded `last_call_time`
  shared between worker threads is not modelled; calls are sequential.
- `PyRepr.ReprStr`: up to 0xff the model escapes what Python escapes: the
  characters below 0x20, 0x7f to 0xa0 and 0xad as `\xhh` (tab, newline
  and return by name). Above 0xff Python writes non-printable characters
  as `\uXXXX` or `\UXXXXXXXX`, which needs Python's character database;
  the model passes every character above 0xff through unescaped. The
  injectivity proofs do not depend on this choice.
- `Params` holds only dicts of strings, which is all the named methods
  pass.
- `History.AddHistory`: the time stamp from `time.strftime` is a string
  parameter, and the entry is the looked-up text.
- The AES block cipher, base64 decoding and strict UTF-8 decoding
  (fortnite_api.py:596-598, 603) are functions given in `Decrypt.Ops`.
  Whether `AES.new` and ECB decryption reject other inputs beyond the key
  length and block alignment is not modelled. `str.strip()` on the
  ciphertext text is taken as already applied.
- `StatFormat`: values are taken as already rendered to text. The
  `f"{value:.3f}"` rendering of floats (fortnite_api.py:310-312) is
  floating point and is not modelled.
- The Tkinter window, tabs, dialogs and all `do_*` display code
  (fortnite_api.py:99-108, 146-666). These call the modelled operations
  and show the results. `do_stats_lookup` (fortnite_api.py:317-351) also
  picks the `overall`, `solo`, `duo`, `squad` and `ltm` categories,
  skips empty ones, names each section with `cat.capitalize()`, joins
  the sections with `"\n"` and records the lookup with `add_history`.
  That selection is display code and is not modelled.
