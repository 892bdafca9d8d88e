/**
 * middleware/security.js: the usage ledger and the daily quota gate.
 *
 * The ledger is one JSON document `{daily, total}`: `daily` maps a
 * full-date key to that day's bucket `{count, endpoints}`, `total` counts
 * every recorded call since the document was created. `trackUsage` reads it,
 * bumps three counters, prunes days older than the 30-day cutoff and writes
 * it back, swallowing every failure; `checkDailyLimit` and `getUsageStats`
 * compute their answers from a fresh read. The file is modelled as the
 * document it holds; whether each file operation succeeds is a parameter.
 */
module Security {
  import opened Wrappers
  import opened JsBuiltins
  import opened Dict
  import opened Calendar

  datatype Bucket = Bucket(count: int, endpoints: Dict<int>)

  datatype UsageDoc = UsageDoc(daily: Dict<Bucket>, total: int)

  /** What `readUsage` falls back to, and what a fresh ledger holds. */
  const EmptyDoc: UsageDoc := UsageDoc([], 0)

  /** The bucket `trackUsage` creates for a day it has not seen. */
  const EmptyBucket: Bucket := Bucket(0, [])

  /** Which file operations succeed during one call: `initUsageTracking`
      (directory and file creation), the read, and the write-back. */
  datatype LedgerIo = LedgerIo(initOk: bool, readOk: bool, writeOk: bool)

  /** Every object in the document has each key once. */
  predicate WellFormed(doc: UsageDoc) {
    UniqueKeys(doc.daily)
    && forall i :: 0 <= i < |doc.daily| ==> UniqueKeys(doc.daily[i].1.endpoints)
  }

  /** `readUsage()`: the stored document, or the empty one when the file
      cannot be read or parsed. */
  function ReadUsage(stored: UsageDoc, readOk: bool): (doc: UsageDoc)
    ensures readOk ==> doc == stored
    ensures !readOk ==> doc.daily == [] && doc.total == 0
    ensures WellFormed(stored) ==> WellFormed(doc)
  {
    if readOk then stored else EmptyDoc
  }

  /** `usage.daily[key]?.count || 0`. */
  function CountOn(daily: Dict<Bucket>, key: string): int {
    match Get(daily, key)
    case Some(b) => b.count
    case None => 0
  }

  function SumValues(d: Dict<int>): int {
    if d == [] then 0 else d[0].1 + SumValues(d[1..])
  }

  /** The design invariant of a bucket: its count is the sum over its endpoints. */
  predicate Consistent(b: Bucket) {
    b.count == SumValues(b.endpoints)
  }

  // ---------------------------------------------------------------------
  // Pruning: the `forEach` over `Object.keys(usage.daily)`.
  // ---------------------------------------------------------------------

  /** `daily` without the dates that sort strictly before `cutoffKey`. */
  function PruneBefore<V>(daily: Dict<V>, cutoffKey: string): Dict<V> {
    if daily == [] then []
    else (if LexLess(daily[0].0, cutoffKey) then [] else [daily[0]]) + PruneBefore(daily[1..], cutoffKey)
  }

  lemma {:induction false} PruneBeforeAppend<V>(a: Dict<V>, b: Dict<V>, cutoffKey: string)
    ensures PruneBefore(a + b, cutoffKey) == PruneBefore(a, cutoffKey) + PruneBefore(b, cutoffKey)
  {
    if a == [] {
      assert a + b == b;
    } else {
      assert (a + b)[0] == a[0] && (a + b)[1..] == a[1..] + b;
      PruneBeforeAppend(a[1..], b, cutoffKey);
    }
  }

  /** The dates that survive are exactly those not before the cutoff. */
  lemma {:induction false} PruneBeforeKeys<V>(daily: Dict<V>, cutoffKey: string)
    ensures forall x :: x in Keys(PruneBefore(daily, cutoffKey)) <==> x in Keys(daily) && !LexLess(x, cutoffKey)
    ensures forall e :: e in PruneBefore(daily, cutoffKey) ==> e in daily
  {
    if daily != [] {
      PruneBeforeKeys(daily[1..], cutoffKey);
      assert Keys(daily) == [daily[0].0] + Keys(daily[1..]);
      var head := if LexLess(daily[0].0, cutoffKey) then [] else [daily[0]];
      assert Keys(PruneBefore(daily, cutoffKey)) == Keys(head) + Keys(PruneBefore(daily[1..], cutoffKey));
    }
  }

  /** Reading a pruned object: dates before the cutoff are gone, the rest read as before. */
  lemma {:induction false} GetPruneBefore<V>(daily: Dict<V>, cutoffKey: string, k: string)
    ensures Get(PruneBefore(daily, cutoffKey), k) == if LexLess(k, cutoffKey) then None else Get(daily, k)
  {
    if daily != [] {
      GetPruneBefore(daily[1..], cutoffKey, k);
      var rest := PruneBefore(daily[1..], cutoffKey);
      if !LexLess(daily[0].0, cutoffKey) {
        assert PruneBefore(daily, cutoffKey) == [daily[0]] + rest;
        assert ([daily[0]] + rest)[1..] == rest;
      } else {
        assert PruneBefore(daily, cutoffKey) == rest;
      }
    }
  }

  lemma {:induction false} PruneBeforeUnique<V>(daily: Dict<V>, cutoffKey: string)
    requires UniqueKeys(daily)
    ensures UniqueKeys(PruneBefore(daily, cutoffKey))
  {
    if daily != [] {
      PruneBeforeUnique(daily[1..], cutoffKey);
      PruneBeforeKeys(daily[1..], cutoffKey);
      var rest := PruneBefore(daily[1..], cutoffKey);
      if !LexLess(daily[0].0, cutoffKey) {
        var r := PruneBefore(daily, cutoffKey);
        assert r == [daily[0]] + rest;
        forall j | 0 < j < |r| ensures r[0].0 != r[j].0 {
          assert r[j].0 in Keys(rest);
          assert r[j].0 in Keys(daily[1..]);
        }
      }
    }
  }

  /** In an object with unique keys, the key at `i` occurs neither before nor after `i`. */
  lemma KeyOnlyAt<V>(daily: Dict<V>, i: nat)
    requires UniqueKeys(daily) && i < |daily|
    ensures daily[i].0 !in Keys(daily[..i]) && daily[i].0 !in Keys(daily[i + 1..])
  {
    forall j | 0 <= j < i ensures Keys(daily[..i])[j] != daily[i].0 {
      assert daily[..i][j] == daily[j];
    }
  }

  lemma PrefixExtends<V>(daily: Dict<V>, cutoffKey: string, i: nat)
    requires i < |daily|
    ensures PruneBefore(daily[..i + 1], cutoffKey)
            == PruneBefore(daily[..i], cutoffKey) + (if LexLess(daily[i].0, cutoffKey) then [] else [daily[i]])
  {
    assert daily[..i + 1] == daily[..i] + [daily[i]];
    PruneBeforeAppend(daily[..i], [daily[i]], cutoffKey);
  }

  /** Deleting the stale date `i` from the loop's current object. */
  lemma RemoveStale<V>(daily: Dict<V>, done: Dict<V>, i: nat)
    requires UniqueKeys(daily) && i < |daily|
    requires daily[i].0 !in Keys(done)
    ensures Remove(done + daily[i..], daily[i].0) == done + daily[i + 1..]
  {
    var k := daily[i].0;
    KeyOnlyAt(daily, i);
    RemoveAppend(done, daily[i..], k);
    RemoveAbsent(done, k);
    var tail := daily[i..];
    assert tail[0].0 == k && tail[1..] == daily[i + 1..];
    assert Remove(tail, k) == Remove(daily[i + 1..], k);
    RemoveAbsent(daily[i + 1..], k);
  }

  /** One turn of the pruning loop: deleting date `i` when it is stale
      extends the pruned prefix by one entry. */
  lemma PruneStep<V>(daily: Dict<V>, cutoffKey: string, i: nat)
    requires UniqueKeys(daily) && i < |daily|
    ensures var next := PruneBefore(daily[..i + 1], cutoffKey) + daily[i + 1..];
      var current := PruneBefore(daily[..i], cutoffKey) + daily[i..];
      (if LexLess(daily[i].0, cutoffKey) then Remove(current, daily[i].0) else current) == next
  {
    var done := PruneBefore(daily[..i], cutoffKey);
    PrefixExtends(daily, cutoffKey, i);
    if LexLess(daily[i].0, cutoffKey) {
      KeyOnlyAt(daily, i);
      PruneBeforeKeys(daily[..i], cutoffKey);
      RemoveStale(daily, done, i);
      assert done + [] == done;
    } else {
      assert daily[i..] == [daily[i]] + daily[i + 1..];
      assert done + daily[i..] == (done + [daily[i]]) + daily[i + 1..];
    }
  }

  /** The pruning loop: walk a snapshot of the dates and delete each one
      that sorts before the cutoff. */
  method PruneStale<V>(daily: Dict<V>, cutoffKey: string) returns (kept: Dict<V>)
    requires UniqueKeys(daily)
    ensures kept == PruneBefore(daily, cutoffKey)
  {
    var dates := Keys(daily);
    kept := daily;
    var i := 0;
    while i < |dates|
      invariant 0 <= i <= |dates|
      invariant kept == PruneBefore(daily[..i], cutoffKey) + daily[i..]
    {
      PruneStep(daily, cutoffKey, i);
      if LexLess(dates[i], cutoffKey) {
        kept := Remove(kept, dates[i]);
      }
      i := i + 1;
    }
    assert daily[..i] == daily;
  }

  // ---------------------------------------------------------------------
  // `trackUsage(endpoint, count)`.
  // ---------------------------------------------------------------------

  /** Today's bucket after the two `+=` lines. */
  function Bump(b: Bucket, endpoint: string, count: int): (r: Bucket)
    ensures r.count == b.count + count
    ensures Get(r.endpoints, endpoint) == Some(GetOr(b.endpoints, endpoint, 0) + count)
    ensures forall e :: e != endpoint ==> Get(r.endpoints, e) == Get(b.endpoints, e)
    ensures Consistent(b) ==> Consistent(r)
  {
    var n := GetOr(b.endpoints, endpoint, 0) + count;
    GetPutEverywhere(b.endpoints, endpoint, n);
    SumValuesPut(b.endpoints, endpoint, n);
    Bucket(b.count + count, Put(b.endpoints, endpoint, n))
  }

  /** The document `trackUsage` writes back, given the one it read, today's
      key and the cutoff key. */
  function Record(doc: UsageDoc, endpoint: string, count: int, todayKey: string, cutoffKey: string): (r: UsageDoc)
    ensures r.total == doc.total + count
    ensures forall k :: k in Keys(r.daily) ==> !LexLess(k, cutoffKey)
    ensures forall k :: k in Keys(doc.daily) && !LexLess(k, cutoffKey) ==> k in Keys(r.daily)
  {
    var daily := Put(doc.daily, todayKey, Bump(GetOr(doc.daily, todayKey, EmptyBucket), endpoint, count));
    PruneBeforeKeys(daily, cutoffKey);
    PutKeys(doc.daily, todayKey, Bump(GetOr(doc.daily, todayKey, EmptyBucket), endpoint, count));
    UsageDoc(PruneBefore(daily, cutoffKey), doc.total + count)
  }

  /** The stored document after a `trackUsage` call: unchanged when
      initialisation or the write fails (the error is swallowed), otherwise
      the record applied to what was read. */
  function Tracked(stored: UsageDoc, endpoint: string, count: int, today: Date, io: LedgerIo): (r: UsageDoc)
    requires ClockDate(today)
    ensures !(io.initOk && io.writeOk) ==> r == stored
    ensures io.initOk && io.writeOk ==>
      && r.total == ReadUsage(stored, io.readOk).total + count
      && CountOn(r.daily, Format(today)) == CountOn(ReadUsage(stored, io.readOk).daily, Format(today)) + count
      && forall k :: k in Keys(r.daily) ==> !LexLess(k, Format(Cutoff(today)))
  {
    if io.initOk && io.writeOk then
      TodaySurvivesCutoff(today);
      RecordCounters(ReadUsage(stored, io.readOk), endpoint, count, Format(today), Format(Cutoff(today)));
      Record(ReadUsage(stored, io.readOk), endpoint, count, Format(today), Format(Cutoff(today)))
    else stored
  }

  lemma TodaySurvivesCutoff(today: Date)
    requires ClockDate(today)
    ensures !LexLess(Format(today), Format(Cutoff(today)))
    ensures Format(today) != Format(Cutoff(today))
  {
    CutoffKeyBeforeTodayKey(today);
    LexLessAsymmetric(Format(Cutoff(today)), Format(today));
    LexLessIrreflexive(Format(today));
  }

  /** The three counters each grow by exactly `count`; a missing bucket or
      endpoint counts as 0. Today's key must not sort before the cutoff,
      which `TodaySurvivesCutoff` establishes for the real clock. */
  lemma RecordCounters(doc: UsageDoc, endpoint: string, count: int, todayKey: string, cutoffKey: string)
    requires !LexLess(todayKey, cutoffKey)
    ensures var after := Record(doc, endpoint, count, todayKey, cutoffKey);
      && Get(after.daily, todayKey).Some?
      && CountOn(after.daily, todayKey) == CountOn(doc.daily, todayKey) + count
      && GetOr(Get(after.daily, todayKey).value.endpoints, endpoint, 0)
         == GetOr(GetOr(doc.daily, todayKey, EmptyBucket).endpoints, endpoint, 0) + count
      && after.total == doc.total + count
  {
    var old_ := GetOr(doc.daily, todayKey, EmptyBucket);
    var daily := Put(doc.daily, todayKey, Bump(old_, endpoint, count));
    GetPruneBefore(daily, cutoffKey, todayKey);
    GetPut(doc.daily, todayKey, Bump(old_, endpoint, count), todayKey);
    GetPut(old_.endpoints, endpoint, GetOr(old_.endpoints, endpoint, 0) + count, endpoint);
  }

  lemma {:induction false} SumValuesPut(d: Dict<int>, k: string, v: int)
    ensures SumValues(Put(d, k, v)) == SumValues(d) - GetOr(d, k, 0) + v
  {
    if d != [] && d[0].0 != k {
      SumValuesPut(d[1..], k, v);
    }
  }

  /** A consistent bucket stays consistent after a record; a new bucket
      starts consistent. */
  lemma RecordKeepsConsistent(doc: UsageDoc, endpoint: string, count: int, todayKey: string, cutoffKey: string)
    requires !LexLess(todayKey, cutoffKey)
    requires forall b :: Get(doc.daily, todayKey) == Some(b) ==> Consistent(b)
    ensures forall b :: Get(Record(doc, endpoint, count, todayKey, cutoffKey).daily, todayKey) == Some(b) ==> Consistent(b)
  {
    var old_ := GetOr(doc.daily, todayKey, EmptyBucket);
    assert Consistent(old_);
    var bumped := Bump(old_, endpoint, count);
    var daily := Put(doc.daily, todayKey, bumped);
    GetPruneBefore(daily, cutoffKey, todayKey);
    GetPut(doc.daily, todayKey, bumped, todayKey);
    SumValuesPut(old_.endpoints, endpoint, GetOr(old_.endpoints, endpoint, 0) + count);
    assert Consistent(bumped);
  }

  /** Every other date is either pruned (strictly before the cutoff) or left
      exactly as it was. */
  lemma RecordOtherDates(doc: UsageDoc, endpoint: string, count: int, todayKey: string, cutoffKey: string, key: string)
    requires key != todayKey
    ensures Get(Record(doc, endpoint, count, todayKey, cutoffKey).daily, key)
            == if LexLess(key, cutoffKey) then None else Get(doc.daily, key)
  {
    var bumped := Bump(GetOr(doc.daily, todayKey, EmptyBucket), endpoint, count);
    GetPruneBefore(Put(doc.daily, todayKey, bumped), cutoffKey, key);
    GetPut(doc.daily, todayKey, bumped, key);
  }

  /** Retention in calendar terms: after `trackUsage` on `today`, a date's
      bucket is gone exactly when the date is strictly before the cutoff
      (today minus 30 days); from the cutoff date on, buckets are kept as
      they were. */
  lemma RecordRetention(doc: UsageDoc, endpoint: string, count: int, today: Date, d: Date)
    requires ClockDate(today) && Valid(d) && d != today
    ensures var after := Record(doc, endpoint, count, Format(today), Format(Cutoff(today)));
      && (Before(d, Cutoff(today)) ==> Get(after.daily, Format(d)) == None)
      && (!Before(d, Cutoff(today)) ==> Get(after.daily, Format(d)) == Get(doc.daily, Format(d)))
  {
    FormatInjective(d, today);
    FormatOrder(d, Cutoff(today));
    RecordOtherDates(doc, endpoint, count, Format(today), Format(Cutoff(today)), Format(d));
  }

  lemma RecordWellFormed(doc: UsageDoc, endpoint: string, count: int, todayKey: string, cutoffKey: string)
    requires WellFormed(doc)
    ensures WellFormed(Record(doc, endpoint, count, todayKey, cutoffKey))
  {
    var old_ := GetOr(doc.daily, todayKey, EmptyBucket);
    var bumped := Bump(old_, endpoint, count);
    var daily := Put(doc.daily, todayKey, bumped);
    assert UniqueKeys(old_.endpoints) by {
      if Get(doc.daily, todayKey).Some? {
        GetFindsKey(doc.daily, todayKey);
      }
    }
    PutUnique(old_.endpoints, endpoint, GetOr(old_.endpoints, endpoint, 0) + count);
    PutUnique(doc.daily, todayKey, bumped);
    PutElements(doc.daily, todayKey, bumped);
    PruneBeforeUnique(daily, cutoffKey);
    PruneBeforeKeys(daily, cutoffKey);
    var pruned := PruneBefore(daily, cutoffKey);
    forall i | 0 <= i < |pruned| ensures UniqueKeys(pruned[i].1.endpoints) {
      assert pruned[i] in daily;
      assert pruned[i] in doc.daily || pruned[i] == (todayKey, bumped);
    }
  }

  // ---------------------------------------------------------------------
  // `checkDailyLimit()`.
  // ---------------------------------------------------------------------

  /** The gate's answer: `Allowed` carries `remaining`, `used` and `limit`;
      `AllowedUnmetered` is the bare `{allowed: true}` of the fail-open path. */
  datatype LimitCheck =
    | Allowed(remaining: int, used: int, limit: int)
    | Denied(message: string)
    | AllowedUnmetered

  const LimitLead: string := "Daily API limit of "
  const LimitMiddle: string := " requests reached. Current usage: "

  function LimitMessage(limit: int, used: int): string {
    LimitLead + DecimalString(limit) + LimitMiddle + DecimalString(used)
  }

  /** `checkDailyLimit()` against the stored document, with today's key and
      the configured limit. */
  function CheckDailyLimit(stored: UsageDoc, todayKey: string, limit: int, io: LedgerIo): (r: LimitCheck)
    ensures !io.initOk ==> r == AllowedUnmetered
    ensures var used := CountOn(ReadUsage(stored, io.readOk).daily, todayKey);
      && (r.Denied? <==> io.initOk && used >= limit)
      && (r.Denied? ==> r.message == LimitMessage(limit, used))
      && (r.Allowed? <==> io.initOk && used < limit)
      && (r.Allowed? ==> r.used == used && r.limit == limit && r.used + r.remaining == r.limit && r.remaining >= 1)
  {
    if !io.initOk then AllowedUnmetered
    else
      var todayUsage := CountOn(ReadUsage(stored, io.readOk).daily, todayKey);
      if todayUsage >= limit then Denied(LimitMessage(limit, todayUsage))
      else Allowed(limit - todayUsage, todayUsage, limit)
  }

  /** The denial message names the limit right after its opening words and
      the usage at its end; `parseInt` reads both back. */
  lemma LimitMessageReportsUsage(limit: int, used: int)
    ensures var m := LimitMessage(limit, used);
      var n, w := |LimitLead|, |DecimalString(limit)|;
      && n + w <= |m| && m[..n] == LimitLead && ParseInt(m[n..n + w]) == Some(limit)
      && |m| >= |DecimalString(used)| && ParseInt(m[|m| - |DecimalString(used)|..]) == Some(used)
  {
    FourParts(LimitLead, DecimalString(limit), LimitMiddle, DecimalString(used));
    ParseIntDecimalString(limit);
    ParseIntDecimalString(used);
  }

  lemma FourParts(a: string, b: string, c: string, d: string)
    ensures var m := a + b + c + d;
      && m[..|a|] == a && m[|a|..|a| + |b|] == b && m[|m| - |d|..] == d
  {
  }

  /** With the ledger unreadable the gate never blocks a positive limit. */
  lemma UnreadableLedgerFailsOpen(stored: UsageDoc, todayKey: string, limit: int, io: LedgerIo)
    requires !io.readOk && limit > 0
    ensures io.initOk ==> CheckDailyLimit(stored, todayKey, limit, io) == Allowed(limit, 0, limit)
    ensures !io.initOk ==> CheckDailyLimit(stored, todayKey, limit, io) == AllowedUnmetered
  {
  }

  /** Once closed, the gate stays closed for the rest of the day whatever is recorded. */
  lemma GateStaysClosed(doc: UsageDoc, endpoint: string, count: int, todayKey: string, cutoffKey: string,
                        limit: int, io: LedgerIo)
    requires !LexLess(todayKey, cutoffKey) && count >= 0 && io.readOk
    requires CheckDailyLimit(doc, todayKey, limit, io).Denied?
    ensures CheckDailyLimit(Record(doc, endpoint, count, todayKey, cutoffKey), todayKey, limit, io).Denied?
  {
    RecordCounters(doc, endpoint, count, todayKey, cutoffKey);
  }

  /** Recording one call uses one unit of budget: `used` goes up by one and
      `remaining` down by one, or the gate closes on the last unit. */
  lemma RecordOneUsesOneUnit(doc: UsageDoc, endpoint: string, todayKey: string, cutoffKey: string,
                             limit: int, io: LedgerIo)
    requires !LexLess(todayKey, cutoffKey) && io.readOk
    requires CheckDailyLimit(doc, todayKey, limit, io).Allowed?
    ensures var before := CheckDailyLimit(doc, todayKey, limit, io);
      var after := CheckDailyLimit(Record(doc, endpoint, 1, todayKey, cutoffKey), todayKey, limit, io);
      if before.remaining == 1 then after.Denied?
      else after == Allowed(before.remaining - 1, before.used + 1, limit)
  {
    RecordCounters(doc, endpoint, 1, todayKey, cutoffKey);
  }

  /** The gate reopens on a new day: a date with no bucket has used nothing. */
  lemma NewDayOpensGate(doc: UsageDoc, todayKey: string, limit: int, io: LedgerIo)
    requires io.initOk && limit > 0
    requires todayKey !in Keys(doc.daily)
    ensures CheckDailyLimit(doc, todayKey, limit, io) == Allowed(limit, 0, limit)
  {
    GetFindsKey(doc.daily, todayKey);
  }

  // ---------------------------------------------------------------------
  // `getUsageStats()`.
  // ---------------------------------------------------------------------

  /** The `today` part: the full report, or the reduced one of the error path. */
  datatype TodayUsage =
    | TodayUsage(date: string, count: int, endpoints: Dict<int>, remaining: int, limit: int)
    | TodayFallback(count: int, remaining: int, limit: int)

  datatype UsageStats = UsageStats(today: TodayUsage, total: int, history: seq<(string, int)>)

  /** `a.slice(-n)` for `n > 0`: the last `n` elements, or all of them. */
  function LastAtMost<T>(s: seq<T>, n: nat): (r: seq<T>)
    ensures |r| == if |s| <= n then |s| else n
    ensures r == s[|s| - |r|..]
  {
    if |s| <= n then s else s[|s| - n..]
  }

  /** The dates `daily_history` reports. */
  function RecentDates(daily: Dict<Bucket>): seq<string> {
    LastAtMost(SortStrings(Keys(daily)), 7)
  }

  /** `daily_history`: at most seven of the ledger's dates, ascending, none
      older than a date left out, each with the count of its bucket. */
  function History(daily: Dict<Bucket>): (h: seq<(string, int)>)
    ensures |h| == if |daily| <= 7 then |daily| else 7
    ensures forall i, j :: 0 <= i < j < |h| ==> LexLe(h[i].0, h[j].0)
    ensures forall i :: 0 <= i < |h| ==> Get(daily, h[i].0).Some? && h[i].1 == Get(daily, h[i].0).value.count
    ensures forall k, i :: k in Keys(daily) && (forall j :: 0 <= j < |h| ==> h[j].0 != k) && 0 <= i < |h|
                           ==> LexLe(k, h[i].0)
  {
    var dates := RecentDates(daily);
    RecentDatesFacts(daily);
    var h := seq(|dates|, i requires 0 <= i < |dates| => (dates[i], CountOn(daily, dates[i])));
    assert forall j :: 0 <= j < |h| ==> h[j].0 == dates[j];
    h
  }

  lemma RecentDatesFacts(daily: Dict<Bucket>)
    ensures var h := RecentDates(daily);
      && |h| == (if |daily| <= 7 then |daily| else 7)
      && (forall i, j :: 0 <= i < j < |h| ==> LexLe(h[i], h[j]))
      && (forall i :: 0 <= i < |h| ==> Get(daily, h[i]).Some?)
      && (forall k, i :: k in Keys(daily) && (forall j :: 0 <= j < |h| ==> h[j] != k) && 0 <= i < |h|
                         ==> LexLe(k, h[i]))
  {
    var r := SortStrings(Keys(daily));
    assert |r| == |multiset(r)| == |multiset(Keys(daily))| == |Keys(daily)|;
    var h := RecentDates(daily);
    var start := |r| - |h|;
    assert forall i :: 0 <= i < |h| ==> h[i] == r[start + i];
    forall i | 0 <= i < |h|
      ensures Get(daily, h[i]).Some?
    {
      assert h[i] in multiset(r);
      assert h[i] in multiset(Keys(daily));
      GetFindsKey(daily, h[i]);
    }
    forall k, i | k in Keys(daily) && (forall j :: 0 <= j < |h| ==> h[j] != k) && 0 <= i < |h|
      ensures LexLe(k, h[i])
    {
      assert k in multiset(Keys(daily));
      assert k in multiset(r);
      var p :| 0 <= p < |r| && r[p] == k;
    }
  }

  /** `getUsageStats()` against the stored document. */
  function GetUsageStats(stored: UsageDoc, todayKey: string, limit: int, io: LedgerIo): (r: UsageStats)
    ensures !io.initOk ==> r == UsageStats(TodayFallback(0, limit, limit), 0, [])
    ensures io.initOk ==> var doc := ReadUsage(stored, io.readOk);
      && r.today.TodayUsage? && r.today.date == todayKey && r.today.limit == limit
      && r.today.count == CountOn(doc.daily, todayKey)
      && r.today.endpoints == GetOr(doc.daily, todayKey, EmptyBucket).endpoints
      && r.today.remaining == (if limit - r.today.count > 0 then limit - r.today.count else 0)
      && r.total == doc.total
      && r.history == History(doc.daily)
  {
    if !io.initOk then UsageStats(TodayFallback(0, limit, limit), 0, [])
    else
      var usage := ReadUsage(stored, io.readOk);
      var bucket := GetOr(usage.daily, todayKey, EmptyBucket);
      var remaining := if limit - bucket.count > 0 then limit - bucket.count else 0;
      UsageStats(TodayUsage(todayKey, bucket.count, bucket.endpoints, remaining, limit), usage.total, History(usage.daily))
  }

  /** `remaining` is `max(0, limit - count)`, and a day without a bucket
      reports a zero count and no endpoints. */
  lemma StatsRemainingClamped(stored: UsageDoc, todayKey: string, limit: int, io: LedgerIo)
    requires io.initOk
    ensures var t := GetUsageStats(stored, todayKey, limit, io).today;
      && t.remaining >= 0 && t.remaining >= t.limit - t.count
      && (t.remaining == 0 || t.remaining == t.limit - t.count)
      && (Get(ReadUsage(stored, io.readOk).daily, todayKey).None? ==> t.count == 0 && t.endpoints == [])
  {
  }

  lemma TwoOccurrences(s: seq<string>, i: int, j: int)
    requires 0 <= i < j < |s| && s[i] == s[j]
    ensures multiset(s)[s[i]] >= 2
  {
    assert s == s[..j] + s[j..];
    assert s[i] in multiset(s[..j]);
    assert s[j] in multiset(s[j..]);
  }

  /** The sorted dates of a well-formed `daily` strictly ascend, and they are its keys. */
  lemma SortedDates(daily: Dict<Bucket>)
    requires UniqueKeys(daily)
    ensures var r := SortStrings(Keys(daily));
      && (forall i, j :: 0 <= i < j < |r| ==> LexLess(r[i], r[j]))
      && (forall x :: x in r <==> x in Keys(daily))
      && |r| == |daily|
  {
    var r := SortStrings(Keys(daily));
    assert |r| == |multiset(r)| == |multiset(Keys(daily))| == |Keys(daily)|;
    forall i, j | 0 <= i < j < |r| ensures LexLess(r[i], r[j]) {
      if r[i] == r[j] {
        TwoOccurrences(r, i, j);
        UniqueKeysMultiset(daily, r[i]);
      }
      LexLessTotal(r[i], r[j]);
    }
    forall x ensures x in r <==> x in Keys(daily) {
      assert x in r <==> x in multiset(r);
      assert x in Keys(daily) <==> x in multiset(Keys(daily));
    }
  }

  /** The tail of a strictly ascending sequence ascends and holds its greatest elements. */
  lemma LastOfAscending(r: seq<string>, n: nat)
    requires forall i, j :: 0 <= i < j < |r| ==> LexLess(r[i], r[j])
    ensures var h := LastAtMost(r, n);
      && (forall i, j :: 0 <= i < j < |h| ==> LexLess(h[i], h[j]))
      && (forall i :: 0 <= i < |h| ==> h[i] in r)
      && (forall k, i :: k in r && k !in h && 0 <= i < |h| ==> LexLess(k, h[i]))
  {
    var h := LastAtMost(r, n);
    var start := |r| - |h|;
    assert forall i :: 0 <= i < |h| ==> h[i] == r[start + i];
    forall k, i | k in r && k !in h && 0 <= i < |h| ensures LexLess(k, h[i]) {
      var p :| 0 <= p < |r| && r[p] == k;
    }
  }

  /** `daily_history` holds at most seven dates of the ledger, strictly
      ascending, and they are its latest: every other date sorts before all
      of them. */
  lemma HistoryIsLatestWeek(daily: Dict<Bucket>)
    requires UniqueKeys(daily)
    ensures var h := RecentDates(daily);
      && |h| == (if |daily| <= 7 then |daily| else 7)
      && (forall i, j :: 0 <= i < j < |h| ==> LexLess(h[i], h[j]))
      && (forall i :: 0 <= i < |h| ==> h[i] in Keys(daily))
      && (forall k, i :: k in Keys(daily) && k !in h && 0 <= i < |h| ==> LexLess(k, h[i]))
  {
    SortedDates(daily);
    LastOfAscending(SortStrings(Keys(daily)), 7);
  }

  // ---------------------------------------------------------------------
  // The ledger file, and `trackUsage` on it.
  // ---------------------------------------------------------------------

  /** The ledger file `data/usage.json` and the limit the process was started with. */
  class UsageLedger {
    var stored: UsageDoc
    const limit: int

    predicate Valid()
      reads this
    {
      WellFormed(stored)
    }

    constructor (limit: int, stored: UsageDoc)
      requires WellFormed(stored)
      ensures this.limit == limit && this.stored == stored && Valid()
    {
      this.limit := limit;
      this.stored := stored;
    }

    /** `trackUsage(endpoint, count)` on `today`: read, create today's
        bucket, add `count` to three counters, prune, write back. A failure
        of initialisation or of the write leaves the file as it was. A failed
        read records onto the empty ledger and overwrites the file. Nothing
        is reported. */
    method TrackUsage(endpoint: string, count: int, today: Date, io: LedgerIo)
      requires Valid() && ClockDate(today)
      modifies this`stored
      ensures Valid()
      ensures stored == Tracked(old(stored), endpoint, count, today, io)
    {
      if !io.initOk {
        return;
      }
      var usage := ReadUsage(stored, io.readOk);
      var todayKey := Format(today);
      var daily := usage.daily;
      var bucket := GetOr(daily, todayKey, EmptyBucket);
      daily := Put(daily, todayKey, Bump(bucket, endpoint, count));
      var total := usage.total + count;
      var cutoffKey := Format(Cutoff(today));
      assert WellFormed(usage) && UniqueKeys(daily) by {
        PutUnique(usage.daily, todayKey, Bump(bucket, endpoint, count));
      }
      daily := PruneStale(daily, cutoffKey);
      if io.writeOk {
        RecordWellFormed(usage, endpoint, count, todayKey, cutoffKey);
        stored := UsageDoc(daily, total);
      }
    }
  }

  // ---------------------------------------------------------------------
  // Worked cases.
  // ---------------------------------------------------------------------

  /** Recording `e1` with count 3 and then `e2` with count 2 on a fresh day
      gives a bucket of 5 split as `{e1: 3, e2: 2}`, and the total grows by 5. */
  lemma AdditivityExample(doc: UsageDoc, todayKey: string, cutoffKey: string)
    requires !LexLess(todayKey, cutoffKey) && todayKey !in Keys(doc.daily)
    ensures var after := Record(Record(doc, "e1", 3, todayKey, cutoffKey), "e2", 2, todayKey, cutoffKey);
      && Get(after.daily, todayKey) == Some(Bucket(5, [("e1", 3), ("e2", 2)]))
      && after.total == doc.total + 5
  {
    GetFindsKey(doc.daily, todayKey);
    var once := Record(doc, "e1", 3, todayKey, cutoffKey);
    var b1 := Bump(EmptyBucket, "e1", 3);
    assert b1 == Bucket(3, [("e1", 3)]);
    var d1 := Put(doc.daily, todayKey, b1);
    GetPruneBefore(d1, cutoffKey, todayKey);
    GetPut(doc.daily, todayKey, b1, todayKey);
    assert Get(once.daily, todayKey) == Some(b1);
    var b2 := Bump(b1, "e2", 2);
    assert "e1" != "e2";
    assert b2 == Bucket(5, [("e1", 3), ("e2", 2)]);
    var d2 := Put(once.daily, todayKey, b2);
    GetPruneBefore(d2, cutoffKey, todayKey);
    GetPut(once.daily, todayKey, b2, todayKey);
  }

  /** With limit 5, four recorded calls leave one unit; the fifth closes the gate. */
  lemma QuotaBoundaryExample(doc: UsageDoc, todayKey: string, cutoffKey: string, io: LedgerIo)
    requires !LexLess(todayKey, cutoffKey) && io.initOk && io.readOk
    requires CountOn(doc.daily, todayKey) == 4
    ensures CheckDailyLimit(doc, todayKey, 5, io) == Allowed(1, 4, 5)
    ensures CheckDailyLimit(Record(doc, "places_search", 1, todayKey, cutoffKey), todayKey, 5, io).Denied?
  {
    RecordOneUsesOneUnit(doc, "places_search", todayKey, cutoffKey, 5, io);
  }
}
