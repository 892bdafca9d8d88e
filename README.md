# Quota-gated Places cache, modelled in Dafny

The server answers `/search` and `/details/:placeId` by calling the paid
Google Places API. Three things stand in front of each paid call:

- a Redis response cache whose keys are canonical strings;
- a usage ledger (`data/usage.json`) that counts calls per day and per endpoint;
- a daily quota gate over that ledger.

The search route also has a request validator. This project models those
parts and the two handlers that compose them. It proves what each part
promises and the order in which the handlers use them.

Files and modules:

- `wrappers.dfy` (`Wrappers`): `Option` and `Result`.
- `jsbuiltins.dfy` (`JsBuiltins`): the JavaScript built-ins the core leans on:
  - `Array.prototype.sort` on strings (code-unit order);
  - `join`, `trim`, `toLowerCase`;
  - string `length` in UTF-16 code units;
  - `parseInt`;
  - `slice(0, n)`.
- `dict.dfy` (`Dict`): a plain JavaScript object with string keys. It is an
  insertion-ordered list of pairs, so that `Object.keys` order is real.
- `calendar.dfy` (`Calendar`): calendar dates, the `YYYY-MM-DD` key that
  `toISOString().split('T')[0]` yields, and the date 30 days back. The lemma
  `FormatOrder` proves that string `<` on keys is chronological order.
- `cache.dfy` (`Cache`), services/cache.js:
  - `generateCacheKey`;
  - `retryStrategy`;
  - the Redis store as a class. It holds its entries with expiry times, an
    abstract server clock and the `redisConnected` flag. Its methods are the
    event handlers, `connectRedis`, `getCache`, `setCache` and `clearCache`.
- `security.dfy` (`Security`), middleware/security.js:
  - `readUsage`;
  - `trackUsage`, as a class over the stored ledger document, with the
    date-pruning loop kept as a loop;
  - `checkDailyLimit`;
  - `getUsageStats`.
- `validation.dfy` (`Validation`), middleware/validation.js:
  `validatePlaceSearch`, including the location regular expression as a
  grammar.
- `places.dfy` (`Places`), routes/places.js: the cache keys of both routes,
  the result mapping, and the handlers.
  - Each handler returns its HTTP outcome and the ordered list of core calls
    it made.
  - The common body is proved once, as `Serve`.

Inputs the model takes as parameters:

- The wall clock is the `today` parameter. It becomes the day key through
  `Format`.
- The Redis server clock is the store's `now` field, moved by `Advance`.
- The upstream HTTP answer is a parameter. It is a failure, or an answer with
  or without the expected data.
- Failures of Redis commands are boolean fault parameters.
- Failures of the ledger's file operations are `LedgerIo` flags. `initOk`
  covers `ensureDataDir` and `initUsageTracking`, `readOk` covers reading and
  parsing, and `writeOk` covers writing.
- `DAILY_LIMIT` is the ledger's `limit`.

## Model

| member | source | states |
|---|---|---|
| JsBuiltins.SortStrings | services/cache.js:92-93 | `sort()` on strings yields an ascending (code-unit order) permutation of its input |
| JsBuiltins.SortedUnique | services/cache.js:92-93 | two ascending orderings of the same multiset of names are equal, so the sorted key order is canonical |
| JsBuiltins.LexLessTotal | middleware/security.js:81 | string `<` is a total order: any two distinct strings are ordered one way |
| JsBuiltins.LexLessTransitive | middleware/security.js:81 | string `<` is transitive |
| JsBuiltins.TrimEmptyIffAllSpace | middleware/validation.js:4 | `trim()` is empty exactly when the string is all white space |
| JsBuiltins.TrimIgnoresPadding | routes/places.js:17 | white space added on either side does not change `trim()` |
| JsBuiltins.LowerCaseSpacePadding | routes/places.js:17 | `toLowerCase()` leaves surrounding white space in place and maps the rest character by character |
| JsBuiltins.ParseIntDecimalString | middleware/validation.js:29 | `parseInt` reads any integer written in decimal back as itself |
| JsBuiltins.SliceTo | routes/places.js:66 | `slice(0, n)` is a prefix: `n` elements (capped at the length) for `n >= 0`, `n` fewer than the length for negative `n`, none for NaN |
| Dict.GetPut | middleware/security.js:67-72 | assigning a property changes that property and no other |
| Dict.PutUnique | middleware/security.js:67-72 | assigning a property keeps the object's keys distinct |
| Dict.GetRemove | middleware/security.js:80-84 | `delete` removes that property and no other |
| Calendar.PrevDay | middleware/security.js:76-77 | the day before a date is a valid, earlier date |
| Calendar.PrevDayImmediate | middleware/security.js:76-77 | no valid date lies strictly between `PrevDay(d)` and `d` |
| Calendar.Cutoff | middleware/security.js:76-77 | the cutoff (30 days back) is a valid date before today |
| Calendar.Format | middleware/security.js:32-34 | the day key is ten characters, `YYYY-MM-DD`: zero-padded year, month and day digits separated by dashes at positions 4 and 7 |
| Calendar.FormatOrder | middleware/security.js:78-81 | comparing two `YYYY-MM-DD` keys with `<` orders them as their dates are ordered |
| Calendar.FormatInjective | middleware/security.js:65-68 | distinct dates have distinct keys |
| Calendar.CutoffKeyBeforeTodayKey | middleware/security.js:76-81 | the cutoff key sorts strictly before today's key |
| Calendar.TodayKeyOfTimestamp | middleware/security.js:32-34 | the text before the first `T` of an ISO timestamp is the date's `YYYY-MM-DD` key |
| Cache.GenerateCacheKey | services/cache.js:91-97 | a key starts with `heypico:<prefix>:`; with no parameters it is exactly that prefix |
| Cache.KeyFromSortedNames | services/cache.js:91-97 | a key is `heypico:<prefix>:` and then `name:value` for every parameter in ascending name order, joined by `\|` |
| Cache.KeyIgnoresInsertionOrder | services/cache.js:92-94 | two parameter objects with the same name/value pairs give the same key, whatever order the names were inserted in |
| Cache.RetryDelay | services/cache.js:9-12 | the reconnect delay never exceeds 2000 ms, is `50 * times` up to 40 attempts, and is 2000 ms from then on |
| Cache.RetryDelayMonotone | services/cache.js:9-12 | later attempts never wait less |
| Cache.Lookup | services/cache.js:67-68 | GET at a given server time finds a value exactly when the key is stored and its expiry time has not been reached, and then it is the stored value |
| Cache.Stored | services/cache.js:84 | SETEX stores the key with expiry `now + ttl`, adds it to the key set, and leaves every other entry as it was |
| Cache.Purged | services/cache.js:108-112 | KEYS followed by DEL keeps exactly the keys the pattern does not match, with their entries unchanged |
| Cache.StoredThenLookup | services/cache.js:67-68 | SETEX then GET returns the value until its TTL runs out, and nothing after that |
| Cache.StoredOtherKey | services/cache.js:84 | SETEX of one key leaves every other key's reads unchanged |
| Cache.PurgedExactly | services/cache.js:108-112 | clearing deletes exactly the keys the pattern matches, and changes nothing when none match |
| Cache.CacheStore.constructor | services/cache.js:4-16 | creating the lazily connecting client leaves the flag down; the server keeps the entries it already holds, at its own clock |
| Cache.CacheStore.IsConnected | services/cache.js:118-120 | `isRedisConnected()` is true exactly when the flag is up and a client exists |
| Cache.CacheStore.OnConnect | services/cache.js:24-27 | 'connect' raises the flag |
| Cache.CacheStore.OnReady | services/cache.js:29-32 | 'ready' raises the flag |
| Cache.CacheStore.OnError | services/cache.js:18-22 | 'error' lowers the flag |
| Cache.CacheStore.OnClose | services/cache.js:34-37 | 'close' lowers the flag |
| Cache.CacheStore.Connect | services/cache.js:43-55 | `connectRedis` fails without a client or when the connection is refused; when it succeeds it raises the flag |
| Cache.CacheStore.Get | services/cache.js:57-72 | `getCache` throws without a client or with the flag down; when it succeeds it returns the live value or null |
| Cache.CacheStore.Set | services/cache.js:74-89 | `setCache` throws without a client or with the flag down and then changes nothing; when it succeeds it replaces the entry and restarts its TTL |
| Cache.CacheStore.SetWithDefaultTtl | services/cache.js:74 | `setCache` without a TTL keeps the entry for 86400 seconds: on success it expires at `now + 86400` |
| Cache.CacheStore.Clear | services/cache.js:99-116 | `clearCache` throws without a client or with the flag down and then changes nothing; when it succeeds it purges the matching keys |
| Cache.SetThenGet | services/cache.js:74-89 | a set followed by a get before the TTL has run out returns the value that was set |
| Cache.SetThenExpire | services/cache.js:74-89 | once the TTL has run out, the same get misses |
| Cache.DisconnectedFailsClosed | services/cache.js:62-64 | after 'close', get, set and clear all throw "not connected" and the store is unchanged |
| Security.ReadUsage | middleware/security.js:36-44 | `readUsage` returns the stored document when the file reads and parses, and `{daily: {}, total: 0}` otherwise; a well-formed stored document reads as a well-formed one |
| Security.Bump | middleware/security.js:67-72 | today's bucket after the two `+=` lines: its count rises by `count`, the endpoint's counter (0 when missing) rises by `count`, every other endpoint is unchanged, and a count that equalled the sum over endpoints still does |
| Security.Record | middleware/security.js:64-84 | the document `trackUsage` writes: the total rises by `count`, no date key below the cutoff remains, and every date key not below the cutoff is kept |
| Security.Tracked | middleware/security.js:61-90 | after `trackUsage` with initialisation and write succeeding, the stored total and today's count each rise by `count` over what was read and no date below the cutoff remains; otherwise the stored document is unchanged |
| Security.PruneBeforeKeys | middleware/security.js:80-84 | pruning keeps exactly the date keys not less than the cutoff key |
| Security.GetPruneBefore | middleware/security.js:80-84 | after pruning, a date below the cutoff has no bucket and every other date keeps its bucket |
| Security.PruneBeforeUnique | middleware/security.js:80-84 | pruning keeps the date keys distinct |
| Security.PruneStale | middleware/security.js:80-84 | the `forEach`/`delete` loop leaves exactly the pruned object, in its original order |
| Security.TodaySurvivesCutoff | middleware/security.js:65-84 | today's key is never below the cutoff, so pruning never deletes today's bucket |
| Security.RecordCounters | middleware/security.js:67-73 | after a record, today's count, the endpoint's count and the total each rise by exactly `count`; a missing bucket or endpoint counts as 0 |
| Security.SumValuesPut | middleware/security.js:72 | assigning one endpoint's count changes the sum of counts by the difference |
| Security.RecordKeepsConsistent | middleware/security.js:67-72 | if today's count equalled the sum of its endpoint counts before a record, it still does after |
| Security.RecordOtherDates | middleware/security.js:67-84 | every other date's bucket is deleted (below the cutoff) or left exactly as it was |
| Security.RecordRetention | middleware/security.js:75-84 | in calendar terms, a date's bucket is deleted exactly when the date is before today minus 30 days |
| Security.RecordWellFormed | middleware/security.js:61-86 | a record keeps the document's keys distinct |
| Security.UsageLedger.constructor | middleware/security.js:20-30 | the ledger starts from a well-formed stored document |
| Security.UsageLedger.TrackUsage | middleware/security.js:61-90 | `trackUsage` stores the recorded and pruned document only when initialisation and the write succeed; when either fails the stored document stays as it was, and no error is reported |
| Security.CheckDailyLimit | middleware/security.js:92-116 | denied exactly when today's count (0 without a bucket) reaches the limit, with the limit message; otherwise `used + remaining == limit` and `remaining >= 1`; it fails open on error |
| Security.LimitMessageReportsUsage | middleware/security.js:102 | the denial message starts with `Daily API limit of ` followed by the limit, which `parseInt` reads back, and ends with the current usage, which `parseInt` also reads back |
| Security.UnreadableLedgerFailsOpen | middleware/security.js:36-44 | an unreadable ledger reads as `{daily: {}, total: 0}`, so the gate allows the full limit |
| Security.GateStaysClosed | middleware/security.js:67-73 | once the gate denies, recording more usage on the same day keeps it denied |
| Security.RecordOneUsesOneUnit | middleware/security.js:67-73 | recording one unit lowers `remaining` by exactly one, or closes the gate at the last unit |
| Security.NewDayOpensGate | middleware/security.js:97 | a day without a bucket is allowed the full limit |
| Security.QuotaBoundaryExample | middleware/security.js:97-111 | with a limit of 5 and 4 used, the gate allows 1 more, and after one record it denies |
| Security.AdditivityExample | middleware/security.js:67-73 | recording 3 on one endpoint and then 2 on another gives a bucket of 5 with both endpoints, and the total rises by 5 |
| Security.GetUsageStats | middleware/security.js:118-150 | the snapshot reports today's key, count (0 without a bucket), endpoints (none without a bucket), `remaining` as `max(0, limit - count)` and the limit, the ledger's total and the history; on error it reports the fixed fallback |
| Security.StatsRemainingClamped | middleware/security.js:123-130 | `remaining` is `max(0, limit - count)`, and a day without a bucket reports count 0 and no endpoints |
| Security.LastAtMost | middleware/security.js:136 | `slice(-7)` keeps the last `min(7, n)` elements |
| Security.History | middleware/security.js:134-140 | the history has `min(7, n)` entries for `n` dates, in ascending date order; each entry is a ledger date with the count of its bucket, and every ledger date left out sorts no later than each listed one |
| Security.SortedDates | middleware/security.js:134-135 | the sorted date keys are strictly ascending and are exactly the ledger's dates |
| Security.HistoryIsLatestWeek | middleware/security.js:134-140 | the history lists at most 7 dates, ascending, all from the ledger, and every date it leaves out is older than each date it lists |
| Validation.CoordinateTextMatches | middleware/validation.js:19 | the text of a well-formed coordinate matches the coordinate pattern |
| Validation.CoordinateTextCommaFree | middleware/validation.js:19 | the text of a well-formed coordinate contains no comma, so the first comma of a location separates its two coordinates |
| Validation.CoordinateParses | middleware/validation.js:19 | every string the coordinate pattern matches is the text of a well-formed coordinate |
| Validation.LocationGrammar | middleware/validation.js:18-26 | the location check accepts exactly the strings `lat,lng` made of two well-formed coordinates |
| Validation.RadiusDecimal | middleware/validation.js:28-36 | a radius written as a decimal integer passes exactly when it lies in `[0, 50000]`, both ends included |
| Validation.ValidatePlaceSearch | middleware/validation.js:1-39 | the checks run in order and the first failure decides the message; the request passes exactly when every check holds; an absent location or radius is not checked |
| Places.SearchKeyForm | routes/places.js:13-21 | the search key is `heypico:places:search:` and then location, maxResults, the trimmed lower-cased query and radius, in that order, with the defaults `''`, `5` and `5000` |
| Places.SearchKeyDefaults | routes/places.js:13-21 | an absent radius or maxResults hits the same entry as sending its default, and an absent location the same entry as an empty one |
| Places.SearchKeyIgnoresPadding | routes/places.js:17 | white space around the query does not change the key |
| Places.SearchBagShift | routes/places.js:16-21 | values are not escaped, so `\|radius:` moved from the radius into the query leaves the key unchanged |
| Places.SearchKeyCollision | routes/places.js:16-21 | two requests that both pass validation and ask different queries share one cache entry |
| Places.SearchKey | routes/places.js:16-21 | the search key lies under `heypico:places:search:` |
| Places.DetailsKey | routes/places.js:109 | the details key lies under `heypico:places:details:` |
| Places.KeyspacesDisjoint | routes/places.js:16-21 | no search key is ever a details key, so the two routes never read or overwrite each other's entries |
| Places.DetailsKeyForm | routes/places.js:109 | the details key is `heypico:places:details:placeId:` and then the id, so distinct ids never share an entry |
| Places.SearchResults | routes/places.js:66-85 | the results are the first places, each mapped to its id and Maps URL; there are at most `maxResults` of them, or `maxResults` fewer than all for a negative value, and none when it is not a number |
| Places.Serve | routes/places.js:23-97 | the calls made are always a prefix of: cache read, gate, upstream call, cache write, usage record. A hit returns the cached body with nothing else. A denial returns 429 with the gate's message. A failed cache read or write, or upstream call, is passed on as an error. The cache and ledger change only on the full path, by the write and the record |
| Places.Search | routes/places.js:11-102 | a request the validator rejects gets its 400 message and makes no call; any other request is served under its normalised key with TTL 86400 and endpoint `places_search` |
| Places.Details | routes/places.js:104-187 | a details request is served under its id's key with TTL 604800 and endpoint `places_details` |
| Places.RepeatIsFree | routes/places.js:23-27 | right after a request is answered from upstream, the same request is answered from the cache with the same body and only a cache read |

## Left out

- `toLowerCase` folds only ASCII letters. JavaScript folds all of Unicode.
- Strings are sequences of code points. JavaScript's `sort` and `<` compare UTF-16 code units, and the two orders differ only outside the Basic Multilingual Plane. `Utf16Length` does count surrogate pairs as two.
- `Object.keys` lists integer-like keys first, in numeric order. The model keeps plain insertion order. No date key or parameter name in this core is integer-like.
- The 'error' event handler's rethrow is left out. Only its effect on the flag is modelled.
- `getTodayKey` uses UTC, but the cutoff is computed with local-time `setDate`. The model uses one calendar date for both, so it does not show the day of drift this can cause near midnight.
- Dates before year 1 or after 9999 are left out (`ClockDate`). Beyond those years `toISOString` writes six-digit years and string order stops being date order.
- Concurrent `trackUsage` calls can lose updates through async interleaving. The model is sequential.
- The upstream HTTP calls (axios, field masks, timeouts) and the API key are left out. The answer is a parameter.
- Only `place_id` and `maps_url` of each result are modelled. The other fields of the result objects are plain copies of the upstream JSON.
- `validateApiKey`, a check that an environment variable is set, runs before both handlers and is left out.
- Parsing `DAILY_LIMIT` from the environment is left out. The limit is a parameter.
- `Cache.CacheStore.Clear`: like `clearCache`, it returns nothing on success, not a count of deleted keys.
- Query parameters that Express parses into arrays or objects are left out. Every parameter is a string or absent.
- Security.UsageLedger.TrackUsage: `initOk` stands for the whole of `initUsageTracking`, including its write of a fresh ledger when the file is missing, and `writeOk` for the final `writeUsage` alone. A missing file is not a separate state: it reads like the empty ledger.
- Security.UsageLedger.TrackUsage: writes are modelled as atomic. `fs.writeFile` truncates the file before writing, so a write that fails part-way can leave an empty or partial file, which the next `readUsage` reads as the empty ledger, losing the history. The model keeps the old document instead.
- A ledger file whose JSON parses but lacks `daily` makes the source throw a `TypeError` and fall into its catch branches. A missing `total` does not throw: `usage.total += count` makes it NaN, `writeUsage` stores that as `null`, the next record restarts the total at `count`, and `getUsageStats` reports it as `undefined`. The model's stored document always has both fields.
- JavaScript numbers are doubles. The counters, the limit and `parseInt` are exact only below 2^53, and `${n}` writes plain decimal only below 10^21 (from there on it uses exponent form, which `parseInt` reads back as its leading digit). The model's integers are unbounded, so `JsBuiltins.ParseIntDecimalString` and `Security.LimitMessageReportsUsage` hold for every integer, while the source's read-back holds only below those bounds.
- A request sees one connection state and one Redis server time. `Places.Serve` changes only the entries and the ledger, so a 'close' or 'error' event that fires while the upstream call is awaited is not modelled. In the source it would make the following `setCache` throw "Redis is not connected" where the model reports a failed write.
- Cached values are kept as values. The `JSON.stringify`/`JSON.parse` round trip is not modelled.
- Within one request, the date is read once (`today`). A request that crosses midnight between the gate and the usage record is not modelled.
- The Redis glob matcher behind `clearCache` is an abstract predicate `matches`.
- What Express does with the error passed to `next(error)` is left out. The handler reports it as `Failed`.
- Places.Search: a request whose `query` is absent cannot reach the handler, because the validator runs first. So the model does not show the handler's own `TypeError` on `query.toLowerCase()`.
