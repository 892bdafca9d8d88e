/**
 * routes/places.js: the metered `/search` and `/details/:placeId` handlers.
 *
 * Each handler derives a cache key, answers from the cache when it can,
 * otherwise asks the quota gate, makes the paid upstream call, caches the
 * response and records one unit of usage, in that order. The upstream call
 * is a parameter (its answer, or its failure); so are the cache and ledger
 * faults of the call. Each handler also returns the calls it made, in order,
 * so that the ordering of the composition can be stated.
 */
module Places {
  import opened Wrappers
  import opened JsBuiltins
  import opened Dict
  import opened Calendar
  import opened Cache
  import opened Security
  import opened Validation

  const SearchPrefix: string := "places:search"
  const DetailsPrefix: string := "places:details"
  const SearchEndpoint: string := "places_search"
  const DetailsEndpoint: string := "places_details"

  /** Seconds a search answer and a details answer stay cached. */
  const SearchTtl: int := 86400
  const DetailsTtl: int := 604800

  /** The destructuring defaults of `radius` and `maxResults`, as they render. */
  const DefaultRadius: string := "5000"
  const DefaultMaxResults: string := "5"

  const MapsUrlPrefix: string := "https://www.google.com/maps/place/?q=place_id:"

  /** A place as the upstream API returns it; only its id is modelled. */
  datatype Place = Place(id: string)

  /** A place as the handlers report it: its id and its Maps link. */
  datatype PlaceResult = PlaceResult(placeId: string, mapsUrl: string)

  /** The JSON body a handler sends and caches. */
  datatype Payload =
    | SearchPayload(status: string, query: string, resultsCount: int, results: seq<PlaceResult>)
    | DetailsPayload(status: string, result: PlaceResult)

  /** What the upstream call did: it failed (network, HTTP error, timeout),
      or it answered with a body that may lack the expected data. */
  datatype Upstream<T> = UpstreamError | Answered(data: Option<T>)

  /** Why a handler passed an error to `next(error)`. */
  datatype Failure =
    | CacheFailure(error: CacheError)
    | UpstreamFailure
    | InvalidUpstreamResponse

  datatype Reply =
    | Json(body: Payload)
    | BadRequest(message: string)
    | LimitReached(message: string)
    | Failed(failure: Failure)

  /** A call a handler made into the core or upstream. */
  datatype Effect =
    | CacheRead(key: string)
    | LimitChecked
    | UpstreamCalled
    | CacheWritten(key: string, ttl: int)
    | UsageTracked(endpoint: string, count: int)

  /** Which cache and ledger operations fail during one request. */
  datatype Faults = Faults(getFault: bool, setFault: bool, checkIo: LedgerIo, trackIo: LedgerIo)

  /** Every call a metered handler can make, in the order it makes them. */
  function Pipeline(key: string, ttl: int, endpoint: string): (p: seq<Effect>)
    ensures |p| == 5
  {
    [CacheRead(key), LimitChecked, UpstreamCalled, CacheWritten(key, ttl), UsageTracked(endpoint, 1)]
  }

  // ---------------------------------------------------------------------
  // Cache keys.
  // ---------------------------------------------------------------------

  /** A destructuring default: it applies only when the parameter is absent. */
  function OrDefault(v: Option<string>, dflt: string): string {
    if v.Some? then v.value else dflt
  }

  /** The parameter bag `/search` hashes, in the order the handler builds it. */
  function SearchParams(q: SearchQuery): Dict<string> {
    SearchBag(Trim(ToLowerCase(OrDefault(q.query, ""))),
              if Truthy(q.location) then q.location.value else "",
              OrDefault(q.radius, DefaultRadius),
              OrDefault(q.maxResults, DefaultMaxResults))
  }

  /** The search route's cache key; `SearchKeyForm` spells it out. */
  function SearchKey(q: SearchQuery): (key: string)
    ensures AppTag + ":" + SearchPrefix + ":" <= key
  {
    GenerateCacheKey(SearchPrefix, SearchParams(q))
  }

  /** The details route's cache key; `DetailsKeyForm` spells it out. */
  function DetailsKey(placeId: string): (key: string)
    ensures AppTag + ":" + DetailsPrefix + ":" <= key
  {
    GenerateCacheKey(DetailsPrefix, [("placeId", placeId)])
  }

  /** The two routes write to disjoint parts of the cache: no search key is
      ever a details key. */
  lemma KeyspacesDisjoint(q: SearchQuery, placeId: string)
    ensures SearchKey(q) != DetailsKey(placeId)
  {
    var lead := AppTag + ":";
    assert SearchPrefix[7] == 's' && DetailsPrefix[7] == 'd';
    PrefixedAt(lead, SearchPrefix, ":", SearchKey(q), 7);
    PrefixedAt(lead, DetailsPrefix, ":", DetailsKey(placeId), 7);
  }

  /** A string that starts with `lead + p + tail` holds `p[i]` at `|lead| + i`. */
  lemma PrefixedAt(lead: string, p: string, tail: string, s: string, i: nat)
    requires lead + p + tail <= s && i < |p|
    ensures |lead| + i < |s| && s[|lead| + i] == p[i]
  {
    assert (lead + p + tail)[|lead| + i] == p[i];
  }

  lemma Join4(sep: string, a: string, b: string, c: string, d: string)
    ensures Join(sep, [a, b, c, d]) == a + sep + b + sep + c + sep + d
  {
    assert [c, d][1..] == [d];
    assert Join(sep, [c, d]) == c + sep + d;
    assert [b, c, d][1..] == [c, d];
    assert Join(sep, [b, c, d]) == b + sep + (c + sep + d);
    assert [a, b, c, d][1..] == [b, c, d];
    assert Join(sep, [a, b, c, d]) == a + sep + (b + sep + (c + sep + d));
  }

  lemma SearchNamesSorted()
    ensures Sorted(["location", "maxResults", "query", "radius"])
  {
    var names := ["location", "maxResults", "query", "radius"];
    assert LexLess("location", "maxResults");
    assert LexLess("maxResults", "query");
    assert LexLess("query", "radius");
    LexLessTransitive("location", "maxResults", "query");
    LexLessTransitive("maxResults", "query", "radius");
    LexLessTransitive("location", "query", "radius");
  }

  /** The four parameters a search renders into its key. */
  function SearchBag(query: string, location: string, radius: string, maxResults: string): Dict<string> {
    [("query", query), ("location", location), ("radius", radius), ("maxResults", maxResults)]
  }

  lemma SearchBagLookups(query: string, location: string, radius: string, maxResults: string)
    ensures var p := SearchBag(query, location, radius, maxResults);
      && GetOr(p, "query", "") == query && GetOr(p, "location", "") == location
      && GetOr(p, "radius", "") == radius && GetOr(p, "maxResults", "") == maxResults
  {
    var p := SearchBag(query, location, radius, maxResults);
    var p1 := [("location", location), ("radius", radius), ("maxResults", maxResults)];
    var p2 := [("radius", radius), ("maxResults", maxResults)];
    var p3 := [("maxResults", maxResults)];
    assert p[1..] == p1 && p1[1..] == p2 && p2[1..] == p3;
    assert Get(p, "query") == Some(query);
    assert Get(p, "location") == Get(p1, "location") == Some(location);
    assert Get(p, "radius") == Get(p1, "radius");
    assert Get(p1, "radius") == Get(p2, "radius") == Some(radius);
    assert Get(p, "maxResults") == Get(p1, "maxResults");
    assert Get(p1, "maxResults") == Get(p2, "maxResults");
    assert Get(p2, "maxResults") == Get(p3, "maxResults") == Some(maxResults);
  }

  lemma SearchBagNames(query: string, location: string, radius: string, maxResults: string)
    ensures multiset(Keys(SearchBag(query, location, radius, maxResults)))
            == multiset(["location", "maxResults", "query", "radius"])
  {
    assert Keys(SearchBag(query, location, radius, maxResults)) == ["query", "location", "radius", "maxResults"];
    Reorder4("query", "location", "radius", "maxResults");
  }

  lemma Reorder4<T>(a: T, b: T, c: T, d: T)
    ensures multiset([a, b, c, d]) == multiset([b, d, a, c])
  {
    MultisetOfFour(a, b, c, d);
    MultisetOfFour(b, d, a, c);
    MultisetFourReordered(a, b, c, d);
  }

  lemma MultisetOfFour<T>(a: T, b: T, c: T, d: T)
    ensures multiset([a, b, c, d]) == multiset{a, b, c, d}
  {
  }

  lemma MultisetFourReordered<T>(a: T, b: T, c: T, d: T)
    ensures multiset{a, b, c, d} == multiset{b, d, a, c}
  {
  }

  lemma SearchBagPairs(query: string, location: string, radius: string, maxResults: string)
    ensures RenderPairs(SearchBag(query, location, radius, maxResults), ["location", "maxResults", "query", "radius"])
            == ["location:" + location, "maxResults:" + maxResults, "query:" + query, "radius:" + radius]
  {
    var p := SearchBag(query, location, radius, maxResults);
    SearchBagLookups(query, location, radius, maxResults);
    var pairs := RenderPairs(p, ["location", "maxResults", "query", "radius"]);
    assert pairs[0] == "location:" + location by { assert "location" + ":" == "location:"; }
    assert pairs[1] == "maxResults:" + maxResults by { assert "maxResults" + ":" == "maxResults:"; }
    assert pairs[2] == "query:" + query by { assert "query" + ":" == "query:"; }
    assert pairs[3] == "radius:" + radius by { assert "radius" + ":" == "radius:"; }
  }

  lemma SearchBagKey(query: string, location: string, radius: string, maxResults: string)
    ensures GenerateCacheKey(SearchPrefix, SearchBag(query, location, radius, maxResults))
            == "heypico:places:search:location:" + location + "|maxResults:" + maxResults
               + "|query:" + query + "|radius:" + radius
  {
    var names := ["location", "maxResults", "query", "radius"];
    SearchNamesSorted();
    SearchBagNames(query, location, radius, maxResults);
    SearchBagPairs(query, location, radius, maxResults);
    KeyFromSortedNames(SearchPrefix, SearchBag(query, location, radius, maxResults), names);
    Join4("|", "location:" + location, "maxResults:" + maxResults, "query:" + query, "radius:" + radius);
    Concat8(AppTag + ":" + SearchPrefix + ":", "location:", location, "|", "maxResults:", maxResults, "query:", query, "radius:", radius);
    Literals();
  }

  lemma Literals()
    ensures AppTag + ":" + SearchPrefix + ":" + "location:" == "heypico:places:search:location:"
    ensures "|" + "maxResults:" == "|maxResults:"
    ensures "|" + "query:" == "|query:"
    ensures "|" + "radius:" == "|radius:"
  {
  }

  /** Regrouping the pieces of a key. */
  lemma Concat8(p: string, l: string, loc: string, bar: string, mr: string, m: string, qr: string, q: string, rr: string, r: string)
    ensures p + (l + loc + bar + (mr + m) + bar + (qr + q) + bar + (rr + r))
            == p + l + loc + (bar + mr) + m + (bar + qr) + q + (bar + rr) + r
  {
  }

  /** The search key lists location, maxResults, query and radius, in that
      order: the query lower-cased and trimmed, an absent or empty location
      as the empty string, and absent radius and maxResults as their defaults. */
  lemma SearchKeyForm(q: SearchQuery)
    ensures SearchKey(q)
            == "heypico:places:search:location:" + (if Truthy(q.location) then q.location.value else "")
               + "|maxResults:" + OrDefault(q.maxResults, DefaultMaxResults)
               + "|query:" + Trim(ToLowerCase(OrDefault(q.query, "")))
               + "|radius:" + OrDefault(q.radius, DefaultRadius)
  {
    SearchBagKey(Trim(ToLowerCase(OrDefault(q.query, ""))), if Truthy(q.location) then q.location.value else "",
                 OrDefault(q.radius, DefaultRadius), OrDefault(q.maxResults, DefaultMaxResults));
  }

  /** Leaving out `radius` or `maxResults` hits the same entry as sending
      their defaults, and an absent location the same as an empty one. */
  lemma SearchKeyDefaults(q: SearchQuery)
    ensures SearchKey(q.(radius := None)) == SearchKey(q.(radius := Some(DefaultRadius)))
    ensures SearchKey(q.(maxResults := None)) == SearchKey(q.(maxResults := Some(DefaultMaxResults)))
    ensures SearchKey(q.(location := None)) == SearchKey(q.(location := Some("")))
  {
  }

  /** White space around the query does not change the key. */
  lemma SearchKeyIgnoresPadding(q: SearchQuery, s: string, w1: string, w2: string)
    requires AllSpace(w1) && AllSpace(w2)
    ensures SearchKey(q.(query := Some(w1 + s + w2))) == SearchKey(q.(query := Some(s)))
  {
    LowerCaseSpacePadding(w1, s, w2);
    TrimIgnoresPadding(w1, ToLowerCase(s), w2);
    assert SearchParams(q.(query := Some(w1 + s + w2))) == SearchParams(q.(query := Some(s)));
  }

  /** Parameter values are not escaped, so a `|radius:` inside the radius
      can be moved into the query without changing the key. */
  lemma SearchBagShift(x: string, loc: string, y: string, z: string, m: string)
    ensures GenerateCacheKey(SearchPrefix, SearchBag(x, loc, y + "|radius:" + z, m))
            == GenerateCacheKey(SearchPrefix, SearchBag(x + "|radius:" + y, loc, z, m))
  {
    SearchBagKey(x, loc, y + "|radius:" + z, m);
    SearchBagKey(x + "|radius:" + y, loc, z, m);
    Regroup("heypico:places:search:location:" + loc + "|maxResults:" + m + "|query:", x, "|radius:", y, z);
  }

  lemma Regroup(a: string, x: string, t: string, y: string, z: string)
    ensures a + x + t + (y + t + z) == a + (x + t + y) + t + z
  {
  }

  lemma CollisionRadiusParses()
    ensures ParseInt("2|radius:3") == Some(2) && ParseInt("3") == Some(3)
  {
    var s := "2|radius:3";
    assert s[1..][0] == '|' && DigitValue('|') == 36;
    assert DigitPrefix(s[1..], 10) == [];
    assert DigitPrefix(s, 10) == "2";
    assert DigitsValue("2", 10) == 2 by {
      assert "2"[..0] == [];
    }
    assert ParseMagnitude(s) == Some(2);
    ParseIntUnsigned(s, 2);
    assert DigitPrefix("3", 10) == "3";
    assert DigitsValue("3", 10) == 3 by {
      assert "3"[..0] == [];
    }
    assert ParseMagnitude("3") == Some(3);
    ParseIntUnsigned("3", 3);
  }

  lemma CollisionQueriesNormal()
    ensures Trim(ToLowerCase("a")) == "a" && Trim(ToLowerCase("a|radius:2")) == "a|radius:2"
    ensures !AllSpace("a") && !AllSpace("a|radius:2")
  {
    assert ToLowerCase("a") == "a";
    assert ToLowerCase("a|radius:2") == "a|radius:2";
    assert TrimStart("a|radius:2") == "a|radius:2";
    assert TrimEnd("a|radius:2") == "a|radius:2";
  }

  lemma CollisionKeys()
    ensures SearchKey(SearchQuery(Some("a"), None, Some("2|radius:3"), None))
            == SearchKey(SearchQuery(Some("a|radius:2"), None, Some("3"), None))
  {
    CollisionQueriesNormal();
    var q1 := SearchQuery(Some("a"), None, Some("2|radius:3"), None);
    var q2 := SearchQuery(Some("a|radius:2"), None, Some("3"), None);
    assert "2" + "|radius:" + "3" == "2|radius:3";
    assert "a" + "|radius:" + "2" == "a|radius:2";
    assert SearchParams(q1) == SearchBag("a", "", "2" + "|radius:" + "3", "5");
    assert SearchParams(q2) == SearchBag("a" + "|radius:" + "2", "", "3", "5");
    SearchBagShift("a", "", "2", "3", "5");
  }

  /** Two requests that both pass validation and ask different queries,
      yet share one cache entry. */
  lemma SearchKeyCollision()
    ensures var q1 := SearchQuery(Some("a"), None, Some("2|radius:3"), None);
      var q2 := SearchQuery(Some("a|radius:2"), None, Some("3"), None);
      && ValidatePlaceSearch(q1) == Pass && ValidatePlaceSearch(q2) == Pass
      && Trim(ToLowerCase(q1.query.value)) != Trim(ToLowerCase(q2.query.value))
      && SearchKey(q1) == SearchKey(q2)
  {
    var q1 := SearchQuery(Some("a"), None, Some("2|radius:3"), None);
    var q2 := SearchQuery(Some("a|radius:2"), None, Some("3"), None);
    CollisionRadiusParses();
    CollisionQueriesNormal();
    assert ValidatePlaceSearch(q1) == Pass && ValidatePlaceSearch(q2) == Pass;
    CollisionKeys();
  }

  /** The details key is the place id behind a fixed prefix, so distinct
      places never share an entry. */
  lemma DetailsKeyForm(placeId: string, other: string)
    ensures DetailsKey(placeId) == AppTag + ":" + DetailsPrefix + ":" + "placeId:" + placeId
    ensures DetailsKey(placeId) == DetailsKey(other) <==> placeId == other
  {
    var p := [("placeId", placeId)];
    assert Keys(p) == ["placeId"];
    KeyFromSortedNames(DetailsPrefix, p, ["placeId"]);
    KeyFromSortedNames(DetailsPrefix, [("placeId", other)], ["placeId"]);
    var prefix := AppTag + ":" + DetailsPrefix + ":" + "placeId:";
    assert DetailsKey(placeId) == prefix + placeId;
    assert DetailsKey(other) == prefix + other;
    if DetailsKey(placeId) == DetailsKey(other) {
      assert (prefix + placeId)[|prefix|..] == placeId;
      assert (prefix + other)[|prefix|..] == other;
    }
  }

  // ---------------------------------------------------------------------
  // Responses.
  // ---------------------------------------------------------------------

  function ToResult(p: Place): PlaceResult {
    PlaceResult(p.id, MapsUrlPrefix + p.id)
  }

  /** `places.slice(0, parseInt(maxResults)).map(...)`. */
  function SearchResults(places: seq<Place>, maxResults: string): (r: seq<PlaceResult>)
    ensures |r| <= |places|
    ensures forall i :: 0 <= i < |r| ==> r[i] == ToResult(places[i])
    ensures ParseInt(maxResults).None? ==> r == []
    ensures forall n :: ParseInt(maxResults) == Some(n) && n >= 0 ==> |r| == if n < |places| then n else |places|
    ensures forall n :: ParseInt(maxResults) == Some(n) && n < 0 ==> |r| == if |places| + n < 0 then 0 else |places| + n
  {
    var kept := SliceTo(places, ParseInt(maxResults));
    seq(|kept|, i requires 0 <= i < |kept| => ToResult(kept[i]))
  }

  function SearchPayloadOf(query: string, places: seq<Place>, maxResults: string): Payload {
    var results := SearchResults(places, maxResults);
    SearchPayload("success", query, |results|, results)
  }

  // ---------------------------------------------------------------------
  // The handlers.
  // ---------------------------------------------------------------------

  /** The upstream answer of a search, rendered into the body it yields. */
  function SearchAnswer(q: SearchQuery, upstream: Upstream<seq<Place>>): Upstream<Payload>
    requires q.query.Some?
  {
    match upstream
    case UpstreamError => UpstreamError
    case Answered(None) => Answered(None)
    case Answered(Some(places)) =>
      Answered(Some(SearchPayloadOf(q.query.value, places, OrDefault(q.maxResults, DefaultMaxResults))))
  }

  /** The upstream answer of a details request, rendered into its body. */
  function DetailsAnswer(upstream: Upstream<Place>): Upstream<Payload> {
    match upstream
    case UpstreamError => UpstreamError
    case Answered(None) => Answered(None)
    case Answered(Some(place)) => Answered(Some(DetailsPayload("success", ToResult(place))))
  }

  /** What serving one metered request under `key` did, between the state
      before it and the state after it: which calls it made (always a prefix
      of the pipeline), why it stopped where it did, what it answered, and
      that the cache and the ledger changed only on the full path. */
  twostate predicate Served(cache: CacheStore<Payload>, ledger: UsageLedger, key: string, ttl: int,
                            endpoint: string, today: Date, answer: Upstream<Payload>, faults: Faults,
                            reply: Reply, effects: seq<Effect>)
    requires ClockDate(today)
    reads cache, ledger
  {
    var readOk := cache.IsConnected() && !faults.getFault;
    var cached := Lookup(old(cache.entries), cache.now, key);
    var gate := CheckDailyLimit(old(ledger.stored), Format(today), ledger.limit, faults.checkIo);
    && 1 <= |effects| <= 5
    && effects == Pipeline(key, ttl, endpoint)[..|effects|]
    // the cache read failed: fail closed
    && (!readOk ==> |effects| == 1 && reply == Failed(CacheFailure(
          if !cache.hasClient then Unavailable else if !cache.connected then NotConnected else GetFailed)))
    // a hit answers from the cache, without the gate, upstream or metering
    && (readOk && cached.Some? ==> |effects| == 1 && reply == Json(cached.value))
    && (|effects| >= 2 <==> readOk && cached.None?)
    // the gate
    && (|effects| >= 2 ==> (|effects| == 2 <==> gate.Denied?))
    && (|effects| == 2 ==> reply == LimitReached(gate.message))
    // the paid call
    && (|effects| >= 4 <==> |effects| >= 3 && answer.Answered? && answer.data.Some?)
    && (|effects| == 3 ==> reply == Failed(if answer.UpstreamError? then UpstreamFailure else InvalidUpstreamResponse))
    // the cache write, then the usage record
    && (|effects| == 5 <==> |effects| >= 4 && !faults.setFault)
    && (|effects| == 4 ==> reply == Failed(CacheFailure(SetFailed)))
    && (|effects| == 5 ==> reply == Json(answer.data.value))
    && cache.entries == (if |effects| == 5 then Stored(old(cache.entries), cache.now, key, answer.data.value, ttl)
                         else old(cache.entries))
    && ledger.stored == (if |effects| == 5 then Tracked(old(ledger.stored), endpoint, 1, today, faults.trackIo)
                         else old(ledger.stored))
  }

  /** The body both handlers share: read the cache, ask the gate, call
      upstream, write the cache, record one unit, in that order. */
  method Serve(cache: CacheStore<Payload>, ledger: UsageLedger, key: string, ttl: int, endpoint: string,
               today: Date, answer: Upstream<Payload>, faults: Faults)
    returns (reply: Reply, effects: seq<Effect>)
    requires ledger.Valid() && ClockDate(today) && ttl > 0
    modifies cache`entries, ledger`stored
    ensures ledger.Valid()
    ensures Served(cache, ledger, key, ttl, endpoint, today, answer, faults, reply, effects)
  {
    var pipeline := Pipeline(key, ttl, endpoint);
    effects := pipeline[..1];
    var cached := cache.Get(key, faults.getFault);
    if cached.Err? {
      return Failed(CacheFailure(cached.error)), effects;
    }
    if cached.value.Some? {
      return Json(cached.value.value), effects;
    }
    var limitCheck := CheckDailyLimit(ledger.stored, Format(today), ledger.limit, faults.checkIo);
    effects := pipeline[..2];
    if limitCheck.Denied? {
      return LimitReached(limitCheck.message), effects;
    }
    effects := pipeline[..3];
    if answer.UpstreamError? {
      return Failed(UpstreamFailure), effects;
    }
    if answer.data.None? {
      return Failed(InvalidUpstreamResponse), effects;
    }
    var responseData := answer.data.value;
    effects := pipeline[..4];
    var written := cache.Set(key, responseData, ttl, faults.setFault);
    if written.Err? {
      return Failed(CacheFailure(written.error)), effects;
    }
    effects := pipeline;
    ledger.TrackUsage(endpoint, 1, today, faults.trackIo);
    reply := Json(responseData);
  }

  /** `GET /search`: `validatePlaceSearch`, then the handler. A rejected
      request makes no call at all. */
  method Search(cache: CacheStore<Payload>, ledger: UsageLedger, q: SearchQuery, today: Date,
                upstream: Upstream<seq<Place>>, faults: Faults)
    returns (reply: Reply, effects: seq<Effect>)
    requires ledger.Valid() && ClockDate(today)
    modifies cache`entries, ledger`stored
    ensures ledger.Valid()
    ensures ValidatePlaceSearch(q).Reject? ==>
      reply == BadRequest(ValidatePlaceSearch(q).message) && effects == []
      && cache.entries == old(cache.entries) && ledger.stored == old(ledger.stored)
    ensures ValidatePlaceSearch(q) == Pass ==>
      Served(cache, ledger, SearchKey(q), SearchTtl, SearchEndpoint, today, SearchAnswer(q, upstream), faults, reply, effects)
  {
    var verdict := ValidatePlaceSearch(q);
    if verdict.Reject? {
      return BadRequest(verdict.message), [];
    }
    reply, effects := Serve(cache, ledger, SearchKey(q), SearchTtl, SearchEndpoint, today, SearchAnswer(q, upstream), faults);
  }

  /** `GET /details/:placeId`. */
  method Details(cache: CacheStore<Payload>, ledger: UsageLedger, placeId: string, today: Date,
                 upstream: Upstream<Place>, faults: Faults)
    returns (reply: Reply, effects: seq<Effect>)
    requires ledger.Valid() && ClockDate(today)
    modifies cache`entries, ledger`stored
    ensures ledger.Valid()
    ensures Served(cache, ledger, DetailsKey(placeId), DetailsTtl, DetailsEndpoint, today, DetailsAnswer(upstream), faults, reply, effects)
  {
    reply, effects := Serve(cache, ledger, DetailsKey(placeId), DetailsTtl, DetailsEndpoint, today, DetailsAnswer(upstream), faults);
  }

  /** Memoisation: right after a request is answered from upstream, the
      same request is answered from the cache with the same body, without
      asking the gate, calling upstream or recording usage. */
  method RepeatIsFree(cache: CacheStore<Payload>, ledger: UsageLedger, key: string, ttl: int, endpoint: string,
                      today: Date, body: Payload, faults: Faults)
    returns (first: Reply, second: Reply, effects: seq<Effect>)
    requires ledger.Valid() && ClockDate(today) && ttl > 0 && cache.IsConnected()
    requires !faults.getFault && !faults.setFault
    requires Lookup(cache.entries, cache.now, key).None?
    requires !CheckDailyLimit(ledger.stored, Format(today), ledger.limit, faults.checkIo).Denied?
    modifies cache`entries, ledger`stored
    ensures first == Json(body) && second == first
    ensures effects == [CacheRead(key)]
  {
    var firstEffects;
    first, firstEffects := Serve(cache, ledger, key, ttl, endpoint, today, Answered(Some(body)), faults);
    assert |firstEffects| == 5;
    StoredThenLookup(old(cache.entries), cache.now, key, body, ttl, cache.now);
    second, effects := Serve(cache, ledger, key, ttl, endpoint, today, UpstreamError, faults);
  }
}
