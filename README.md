# YouTube keyword-analysis service: quota record, key rotation and response cache

This project models, in Dafny, the three pieces of logic in the service that
make decisions of their own:

- **The per-member quota record** (`ActionLogModel.py`). A user's stored action
  log holds a member type and, for module 1, a call counter `countCallAPI` and
  a limit `countCallAPIConfig` (default 3). From them it decides whether cached
  or stored results may be read (`allowSearchDB`) and whether the external API
  may be called (`allowSearchAPI`). The counter is bumped in place
  (`increaseCountCallAPI`), and the record is written back as JSON (`toJson`).
  Module `ActionLog`: the state is the value `Quota`, the object the source
  mutates is the class `DataModule1Config`, and `ActionLogModel` is a value.
- **API-key rotation in the YouTube client** (`main_window.py`, `ApiManager`).
  Every request goes out with the current key. An HTTP 403 moves the index to
  `(index + 1) % len(keys)` and retries, and gives up with `[]` once the index
  wraps to 0. Module `YoutubeApi`: the class `ApiManager` with a bounded retry
  loop, proved against the recursive function `Retry`, which follows the
  source's self-recursion.
- **Cache keys, cache-aside handlers and key loading** (`api_server.py`). Each
  analysis endpoint builds a pre-hash key with chained Python `str.join`. The
  key is `md5(json.dumps(preKey))`. The endpoint then serves the cached value,
  or calls the analysis engine and stores its answer for 900 seconds.
  `_load_api_keys` keeps the stripped, non-empty contents of the key files.
  Module `ApiServer`, with Python's `str.join` and `str.strip` in module
  `PyStr` and JSON values in module `JsonModel`.

`json.dumps`, `json.loads` and MD5 are opaque. They are the fields of a
`Codec` value, and nothing is assumed about them except where a lemma states
it as a precondition: `loads(dumps(v)) == v` for the value concerned, and
`dumps(v) != ""`. The analysis engine (`AnalysisEngineAPI`) and the Google
client's `execute` are oracles: fixed functions from the call to its answer.
A ghost log records which calls were made and with which key.

Two things in `"discoverKeywords".join(keyword)` are easy to miss.
`str.join` over a string puts the separator *between the characters* of the
string, and the chain is evaluated left to right. The key is therefore built
mostly from its last field. `ShortLastFieldIsTheKey`,
`EmptyLastFieldSharesSlot` and `DiscoverIgnoresKeywordWithoutRegion` state
the collisions exactly. `DiscoverServesFullAnalysisResult` shows what follows
from them: a `/discoverKeywords` request with an empty radar is answered with
a stored `/fullAnalysisForKeyword` result.

A normal member may never call the API (`ActionLogModel.py:16-17`), and the
handlers read and write one backend.

`saveCache` returns the backend's asynchronous `set` without awaiting it,
and `/time` drops what it gets back, so `/time` stores nothing. `GetTime`
models that, and `GetTimeAwaited` models the write the analysis handlers
perform (see "## Findings").

## Model

| member | source | states |
|---|---|---|
| `ActionLog.ConfigFromJson` | ActionLogModel.py:10-13 | a missing counter reads as 0 and a missing limit as 3; present integer values are taken as stored; the member type is kept; a module record that is not a dict raises AttributeError |
| `ActionLog.DataModule1Config.constructor` | ActionLogModel.py:10-13 | the new object's state is the one `ConfigFromJson` reads from the record |
| `ActionLog.AllowSearchDB` | ActionLogModel.py:21-22 | reading is allowed while counter <= limit, and a refusal survives one more call |
| `ActionLog.AllowSearchAPI` | ActionLogModel.py:15-22 | false for member type "normal" whatever the counts; for every other member type, unknown ones included, true exactly when counter <= limit; so it implies `AllowSearchDB` |
| `ActionLog.DataModule1Config.IncreaseCountCallAPI` | ActionLogModel.py:24-26 | the counter rises by exactly 1 and the new value is returned; member type and limit are unchanged |
| `ActionLog.Increased` | ActionLogModel.py:24-26 | one increment adds exactly 1 to the counter, keeps member type and limit, and never turns a refusal of reading or of API calls into a permission |
| `ActionLog.IncreasedBy` | ActionLogModel.py:24-26 | k increments leave member type and limit alone and add exactly k to the counter |
| `ActionLog.StaysExhausted` | ActionLogModel.py:15-25 | once reading is refused, every further increment keeps both reading and API calls refused |
| `ActionLog.SuccessfulChecksCount` | ActionLogModel.py:21-26 | from counter c and limit L, exactly L - c + 1 successive states allow reading (none if c > L), however many increments follow |
| `ActionLog.DefaultRecordAllowsFourReads` | ActionLogModel.py:12-22 | a record with no stored counts (counter 0, limit 3) allows exactly four reads |
| `ActionLog.ToString` | ActionLogModel.py:28-32 | the module record has exactly the two count fields and reads back as the same counter and limit |
| `ActionLog.ToStringRoundTrip` | ActionLogModel.py:10-32 | reading back the module record `toString` writes gives the same counter and limit |
| `ActionLog.NewActionLogModel` | ActionLogModel.py:35-37 | a record that is not a dict raises AttributeError, and only such a record; a record without "memberType" belongs to a "normal" member; otherwise the stored value is kept, and the record is kept whole |
| `ActionLog.GetDataModule1` | ActionLogModel.py:39-40 | a record without "module1" yields counter 0 and limit 3; the config carries the model's member type |
| `ActionLog.ActionLogRecord` | ActionLogModel.py:43-46 | the written dict has exactly "memberType" and "module1"; read back as an action log it gives the model's member type with module 1's counter and limit |
| `ActionLog.ToJson` | ActionLogModel.py:42-46 | fails with AttributeError exactly when no config is passed |
| `ActionLog.ToJsonRoundTrip` | ActionLogModel.py:10-46 | rebuilding a model from the JSON `toJson` writes and asking for module 1 gives back the counter and the limit under the model's member type, so a config taken from the same model comes back unchanged |
| `YoutubeApi.BuildService` | main_window.py:19-20 | the client is the YouTube Data API v3 bound to the given developer key |
| `YoutubeApi.NewApiManager` | main_window.py:16-18 | an empty key list raises ValueError; any other list gives a valid client at key index 0 |
| `YoutubeApi.ApiManager.constructor` | main_window.py:16-20 | starts at index 0 with the service built from the first key, and the index is in range |
| `YoutubeApi.NextIndex` | main_window.py:22 | the next index is (k + 1) mod len, and it is 0 exactly when k was the last index |
| `YoutubeApi.ApiManager.RotateKeyAndRetry` | main_window.py:21-24 | sets the index to (old + 1) mod len, rebuilds the service with that key, keeps 0 <= index < len, and returns false exactly when the new index is 0 |
| `YoutubeApi.ItemsOf` | main_window.py:27 | a response yields its "items" field, or `[]` when it has none |
| `YoutubeApi.Retry` | main_window.py:21-31 | the keys tried are consecutive from the starting index k, at most len - k of them; at most len - k rotations, and a rotation after the last try only when the index wrapped to 0; the final index is in range |
| `YoutubeApi.RetryCharacterized` | main_window.py:21-31 | every key tried before the last answered 403; the result is the last answer's items if it succeeded and `[]` otherwise; the index ends on the last key tried, or on the next one (wrapped) after a 403 |
| `YoutubeApi.AllForbidden` | main_window.py:21-31 | if every key from k on answers 403, each is tried once, there are len - k rotations, and the call returns `[]` with the index at 0 |
| `YoutubeApi.SingleKeyNoRetry` | main_window.py:22-31 | with one key a 403 is not retried: one request, `[]`, index 0 |
| `YoutubeApi.OtherErrorNoRotation` | main_window.py:28-31 | any other HTTP error returns `[]` at once without rotating |
| `YoutubeApi.ApiManager.Attempt1` | main_window.py:25-31 | one pass sends one request with the current key and either finishes with what `Retry` returns or moves to the next key to retry |
| `YoutubeApi.ApiManager.Fetch` | main_window.py:25-31 | the retry loop returns what `Retry` from the current index returns, leaves the index where it ends, and issues exactly the requests it lists |
| `YoutubeApi.ApiManager.Search` | main_window.py:25-31 | `search` is one fetch of the search request |
| `YoutubeApi.ApiManager.GetVideoDetails` | main_window.py:32-39 | an empty id list returns `[]` with no request and no state change; otherwise one fetch of the comma-joined ids |
| `YoutubeApi.ApiManager.GetChannelDetails` | main_window.py:40-47 | as for videos, with the channel request |
| `PyStr.Join` | api_server.py:177 | `sep.join(parts)` is empty for no parts, and otherwise has the parts' total length plus one separator between each neighbouring pair |
| `PyStr.JoinSnoc` | api_server.py:177 | the join built from the right end agrees with the one built from the left |
| `PyStr.JoinChars` | api_server.py:131 | `sep.join(t)` over a string of n > 0 characters has length n + (n - 1) * len(sep); an empty string gives "" |
| `PyStr.JoinCharsShort` | api_server.py:131 | a string of at most one character comes back unchanged, without the separator |
| `PyStr.JoinCharsEmptySeparator` | api_server.py:131 | joining with "" gives the string back |
| `PyStr.JoinCharsRoundTrip` | api_server.py:131 | every (len(sep) + 1)-th character of `sep.join(t)` spells `t` again |
| `PyStr.JoinCharsInjective` | api_server.py:131 | for a fixed separator, equal joins come from equal strings |
| `PyStr.Strip` | api_server.py:41 | the stripped string is never longer and neither starts nor ends with whitespace |
| `PyStr.StripLeftSpec` | api_server.py:41 | lstrip keeps a suffix that does not start with whitespace and drops only whitespace |
| `PyStr.StripRightSpec` | api_server.py:41 | rstrip keeps a prefix that does not end with whitespace and drops only whitespace |
| `PyStr.StripSlice` | api_server.py:41 | strip keeps a middle slice with no whitespace at either end and drops only whitespace |
| `PyStr.StripEmptyIffAllSpace` | api_server.py:41-42 | strip gives "" exactly when every character is whitespace |
| `PyStr.StripIdempotent` | api_server.py:41 | stripping twice is stripping once |
| `ApiServer.DiscoverPreKey` | api_server.py:131 | the discover pre-key's length is the one the three nested character joins give |
| `ApiServer.FullAnalysisPreKey` | api_server.py:154 | the full-analysis pre-key's length is the one the two nested character joins give |
| `ApiServer.ChannelPreKey` | api_server.py:177 | an empty keyword list gives ""; otherwise the keywords' total length plus one joined channel id between each neighbouring pair |
| `ApiServer.CacheKey` | api_server.py:103-177 | the cache key is the MD5 hex digest of the JSON encoding of the pre-key string |
| `ApiServer.ShortLastFieldIsTheKey` | api_server.py:131-177 | each endpoint's pre-key is its last joined field alone whenever that field has at most one element (a radar or region code of at most one character, a single market keyword), with no endpoint name and no other field |
| `ApiServer.EmptyLastFieldSharesSlot` | api_server.py:103-177 | an empty radar, region code or keyword list makes the pre-key "", so the three endpoints share one cache key with each other and with the key `/time` derives for an empty keyword, whatever the other fields |
| `ApiServer.DiscoverIgnoresKeywordWithoutRegion` | api_server.py:131 | with an empty region code the discover pre-key is the radar, whatever the keyword |
| `ApiServer.DiscoverRadarDistinguishes` | api_server.py:131 | with keyword and region code fixed, different radars give different pre-keys |
| `ApiServer.CacheAside` | api_server.py:131-143 | the engine is asked exactly when the key holds no truthy text, and no key other than the request's is ever added |
| `ApiServer.CacheHit` | api_server.py:134-137 | a truthy cached text is decoded and returned as `{"result": ...}`; the engine is not called and the backend is not written |
| `ApiServer.CacheMiss` | api_server.py:140-143 | on a miss the engine is called, its answer is returned and stored serialised under the same key with expire 900, and no other entry changes |
| `ApiServer.RepeatAfterMissIsHit` | api_server.py:131-143 | after a miss, the same request again is a hit returning the first response, whatever the engine would now answer |
| `ApiServer.DiscoverServesFullAnalysisResult` | api_server.py:131-166 | after `/fullAnalysisForKeyword` stores a result for an empty region code, `/discoverKeywords` with an empty radar returns that result without calling the engine |
| `ApiServer.Handle` | api_server.py:131-143 | one handler run returns, stores and calls the engine exactly as `CacheAside` says: at most one engine call, only on a miss |
| `ApiServer.DiscoverKeywords` | api_server.py:128-143 | the endpoint runs the cache-aside flow under the key of its three fields |
| `ApiServer.FullAnalysisForKeyword` | api_server.py:146-166 | the endpoint runs the cache-aside flow under the key of its two fields |
| `ApiServer.FullAnalysisByChannelId` | api_server.py:169-189 | the endpoint runs the cache-aside flow under the key of the channel id joined with the keyword list |
| `ApiServer.SaveCache` | api_server.py:62-64 | hands back the un-awaited write of `json.dumps(value)` under the key, with expiry 900 unless given, which decodes back to the value under the JSON round trip; the call itself stores nothing |
| `ApiServer.GetTime` | api_server.py:102-119 | returns the fixed body and leaves the backend as it was, because the write `saveCache` hands back is dropped |
| `ApiServer.TimeLeavesSlotEmpty` | api_server.py:117 | after `/time` on an empty backend, the keyword's key holds nothing |
| `ApiServer.GetTimeAwaited` | api_server.py:102-119 | with the write awaited, returns the fixed body and stores it serialised under the keyword's key for 900 seconds, changing nothing else |
| `ApiServer.TimeAwaitedFillsSlot` | api_server.py:117 | with the write awaited, `/time` on an empty backend leaves the keyword's key holding text that decodes to the body returned |
| `ApiServer.Kept` | api_server.py:39-46 | one file yields at most one key, which is non-empty and already stripped |
| `ApiServer.ValidKeys` | api_server.py:38-49 | at most one key per file, each non-empty and already stripped |
| `ApiServer.ValidKeysSound` | api_server.py:38-49 | every loaded key is the stripped text of some readable file |
| `ApiServer.ValidKeysComplete` | api_server.py:38-49 | every readable file whose stripped text is not empty yields that key |
| `ApiServer.ValidKeysMembership` | api_server.py:38-49 | a key is loaded exactly when it is non-empty and some readable file strips to it |
| `ApiServer.ValidKeysAppend` | api_server.py:35-43 | files are taken in order: the keys of two runs of files are the first run's keys followed by the second's |
| `ApiServer.LoadApiKeys` | api_server.py:33-54 | returns the keys `ValidKeys` collects, in file order, and raises RuntimeError exactly when there are none |

## Findings

| source | as written | input that shows it | evidently intended | confidence | as-written member | corrected member |
|---|---|---|---|---|---|---|
| api_server.py:62-64 | `saveCache` returns `backend.set(...)` without awaiting it, and `get_time` (api_server.py:117) discards the result, so the write never runs | POST `/time` with keyword "x" on an empty backend: the key of "x" is still empty afterwards | `{"data": "real result"}` stored under that key for 900 seconds, as the awaited writes at api_server.py:142, 165 and 188 do | high; not executed | `ApiServer.TimeLeavesSlotEmpty` | `ApiServer.TimeAwaitedFillsSlot` |

## Left out

- ActionLog.ConfigFromJson: a stored count that is not a JSON integer is refused at construction with TypeError. The source stores any value and fails only later, when it compares or increments it (and Python would accept booleans there).
- JSON numbers are integers only; floating point is not modelled.
- The internals of MD5 and of `json.dumps` / `json.loads` are not modelled. They are opaque functions, and their round trip is assumed only where a lemma says so.
- The analysis engine (`AnalysisEngineAPI`), `GeminiManager` and the Google API client (`build`, `execute`) are foreign code. They are fixed functions of their input. An engine whose answers change over time, and exceptions from the Google client other than `HttpError`, are not modelled.
- AnalysisEngine.Run: it always answers. An engine call that raises (api_server.py:141, 164, 187) makes the handler raise with nothing stored; that path is not modelled.
- `glob` directory traversal and file reading are not modelled. `LoadApiKeys` receives the files in glob order, each as its text or as unreadable.
- `SomeClass.__init__`, `get_gemini_manager`, the `/aiSuggestion` and health-check endpoints, and the module-level wiring (api_server.py:70-74) are not modelled: they are composition and I/O only.
- The `@cache` decorator, FastAPI routing, pydantic validation and the CORS middleware are library behaviour and are not modelled.
- The backend's expiry is recorded with each entry but never enforced. There is no clock, so entries do not lapse.
- Logging, `print`, `time.sleep`, the log-file deletion at import (main_window.py:9-11), `db.py`, `manage_cache.py` and `util.py` are I/O only.
- Concurrency is not modelled: handlers run one at a time, with no interleaving on the shared backend or on quota counters.
- `allowSearchAPI`, `allowSearchDB` and `toString` are functions of the config's state value, not members of the class. Callers evaluate them on `State()`.
- ApiManager.constructor: it requires a non-empty key list. `NewApiManager` models the `ValueError` path.
- The key list given to `ApiManager` is copied into the object. Aliasing with the caller's list is not modelled.
