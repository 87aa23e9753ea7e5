/**
 * The chart aggregation that both analytics pages perform on a batch of
 * execution logs: keep the logs of the chosen time window, count them into
 * zero-initialised per-day buckets (one per calendar-day key, oldest first),
 * count statuses into a pie-chart breakdown that omits empty slices, and
 * count them into a 24-slot hour-of-day histogram.
 *
 * Timestamps are milliseconds since the epoch; the locale calendar
 * (`toLocaleDateString`, `getHours`) is the parameter `dayKey`, and
 * `hourOf`, whose results are hours 0..23.
 */
module ExecutionCharts {
  import opened Common

  /** 24 * 60 * 60 * 1000 */
  const DayMs: int := 86_400_000

  type Hour = h: int | 0 <= h < 24

  /** The fields of an execution log the charts read. */
  datatype Log = Log(startedAt: int, status: string)

  datatype DayBucket = DayBucket(date: string, success: nat, failed: nat, total: nat)

  /** One slice of a pie chart. */
  datatype Slice = Slice(name: string, value: nat, color: string)

  datatype HourCount = HourCount(hour: string, executions: nat)

  /** The `successRate` field of a stats response: a number, a string, or absent. */
  datatype RateField = NumberRate(value: real) | TextRate(text: string) | NoRate

  const SuccessColor := "#22c55e"
  const FailedColor := "#ef4444"
  const RunningColor := "#f59e0b"

  // ---------------------------------------------------------------------------
  // Time window

  /** `now - timeRange * 24 * 60 * 60 * 1000` */
  function WindowStart(now: int, timeRange: nat): int {
    now - timeRange * DayMs
  }

  /** The logs started at or after `since`, in their original order. */
  function FilterWindow(logs: seq<Log>, since: int): (r: seq<Log>)
    ensures forall l :: l in r <==> l in logs && l.startedAt >= since
    ensures forall l :: multiset(r)[l] == if l.startedAt >= since then multiset(logs)[l] else 0
    ensures IsSubsequence(r, logs)
  {
    FilterCounts(logs, (l: Log) => l.startedAt >= since);
    Filter(logs, (l: Log) => l.startedAt >= since)
  }

  // ---------------------------------------------------------------------------
  // Daily buckets

  /** The day keys of `now`, `now` minus one day, ..., in the order the page
      inserts them into its map. */
  function DayCandidates(now: int, timeRange: nat, dayKey: int -> string): seq<string> {
    seq(timeRange, i => dayKey(now - i * DayMs))
  }

  /** The key order of a JavaScript `Map` after `set` of each key of `s` in turn:
      a key already present keeps its first position. */
  function KeyOrder(s: seq<string>): (r: seq<string>)
    ensures Distinct(r)
    ensures forall k :: k in r <==> k in s
    ensures |r| <= |s|
    ensures s != [] ==> r != [] && r[0] == s[0]
  {
    if s == [] then []
    else
      var r := KeyOrder(s[..|s| - 1]);
      if s[|s| - 1] in r then r else r + [s[|s| - 1]]
  }

  /** The keys of the page's `dailyMap`, newest day first. */
  function DayKeys(now: int, timeRange: nat, dayKey: int -> string): seq<string> {
    KeyOrder(DayCandidates(now, timeRange, dayKey))
  }

  /** The bucket for day `key` after counting `logs`: every log of that day
      raises `total`; a success or a failure also raises its own count. */
  function BucketOf(logs: seq<Log>, key: string, dayKey: int -> string): (b: DayBucket)
    ensures b.date == key
    ensures b.success + b.failed <= b.total <= |logs|
    decreases |logs|
  {
    if logs == [] then DayBucket(key, 0, 0, 0)
    else
      var b := BucketOf(logs[..|logs| - 1], key, dayKey);
      var l := logs[|logs| - 1];
      if dayKey(l.startedAt) != key then b
      else match ClassifyStatus(l.status)
        case Succeeded => b.(success := b.success + 1, total := b.total + 1)
        case Failed => b.(failed := b.failed + 1, total := b.total + 1)
        case Running => b.(total := b.total + 1)
  }

  /** One bucket per key, in key order. */
  function Buckets(logs: seq<Log>, keys: seq<string>, dayKey: int -> string): (r: seq<DayBucket>)
    ensures |r| == |keys|
    ensures forall j :: 0 <= j < |keys| ==> r[j] == BucketOf(logs, keys[j], dayKey)
  {
    if keys == [] then [] else [BucketOf(logs, keys[0], dayKey)] + Buckets(logs, keys[1..], dayKey)
  }

  /** The daily series: the map's values reversed, so the oldest day comes first. */
  function DailySeries(logs: seq<Log>, keys: seq<string>, dayKey: int -> string): seq<DayBucket> {
    Reverse(Buckets(logs, keys, dayKey))
  }

  /** Setting one more key: a new key goes to the end, a known one stays put. */
  lemma KeyOrderStep(s: seq<string>, i: nat)
    requires i < |s|
    ensures KeyOrder(s[..i + 1]) == if s[i] in KeyOrder(s[..i]) then KeyOrder(s[..i]) else KeyOrder(s[..i]) + [s[i]]
  {
    assert s[..i + 1][..i] == s[..i];
  }

  /** `set(key, zero)` on a map whose keys are `keys` and whose entries are zero. */
  /** `m` holds a zero bucket for exactly the keys of `keys`. */
  ghost predicate ZeroEntries(keys: seq<string>, m: map<string, DayBucket>) {
    && m.Keys == (set k | k in keys)
    && forall k :: k in m ==> m[k] == DayBucket(k, 0, 0, 0)
  }

  lemma ZeroEntryStep(keys: seq<string>, dailyMap: map<string, DayBucket>, key: string)
    requires ZeroEntries(keys, dailyMap)
    ensures ZeroEntries(if key in dailyMap then keys else keys + [key], dailyMap[key := DayBucket(key, 0, 0, 0)])
  {
  }

  /** The page's first loop: a zero entry for each day of the window. */
  method InitDailyMap(now: int, timeRange: nat, dayKey: int -> string)
    returns (keys: seq<string>, dailyMap: map<string, DayBucket>)
    ensures keys == DayKeys(now, timeRange, dayKey)
    ensures forall k :: k in dailyMap <==> k in keys
    ensures forall k :: k in dailyMap ==> dailyMap[k] == DayBucket(k, 0, 0, 0)
  {
    ghost var candidates := DayCandidates(now, timeRange, dayKey);
    keys, dailyMap := [], map[];
    for i := 0 to timeRange
      invariant keys == KeyOrder(candidates[..i])
      invariant ZeroEntries(keys, dailyMap)
    {
      var dateStr := dayKey(now - i * DayMs);
      assert candidates[i] == dateStr;
      KeyOrderStep(candidates, i);
      ZeroEntryStep(keys, dailyMap, dateStr);
      if dateStr !in dailyMap {
        keys := keys + [dateStr];
      }
      dailyMap := dailyMap[dateStr := DayBucket(dateStr, 0, 0, 0)];
    }
    assert candidates[..timeRange] == candidates;
  }

  /** The page's second loop: each log whose day has an entry raises that entry. */
  method CountDaily(filtered: seq<Log>, zeroMap: map<string, DayBucket>, dayKey: int -> string)
    returns (dailyMap: map<string, DayBucket>)
    requires forall k :: k in zeroMap ==> zeroMap[k] == DayBucket(k, 0, 0, 0)
    ensures dailyMap.Keys == zeroMap.Keys
    ensures forall k :: k in dailyMap ==> dailyMap[k] == BucketOf(filtered, k, dayKey)
  {
    dailyMap := zeroMap;
    for n := 0 to |filtered|
      invariant dailyMap.Keys == zeroMap.Keys
      invariant forall k :: k in dailyMap ==> dailyMap[k] == BucketOf(filtered[..n], k, dayKey)
    {
      var log := filtered[n];
      var dateStr := dayKey(log.startedAt);
      assert filtered[..n + 1][..n] == filtered[..n];
      if dateStr in dailyMap {
        var entry := dailyMap[dateStr];
        entry := entry.(total := entry.total + 1);
        var status := Lower(log.status);
        if status == "success" {
          entry := entry.(success := entry.success + 1);
        } else if status == "failed" {
          entry := entry.(failed := entry.failed + 1);
        }
        dailyMap := dailyMap[dateStr := entry];
      }
    }
    assert filtered[..|filtered|] == filtered;
  }

  /** The daily series as the page computes it: the map's values, reversed. */
  method BuildDaily(filtered: seq<Log>, now: int, timeRange: nat, dayKey: int -> string)
    returns (daily: seq<DayBucket>)
    ensures daily == DailySeries(filtered, DayKeys(now, timeRange, dayKey), dayKey)
  {
    var keys, zeroMap := InitDailyMap(now, timeRange, dayKey);
    var dailyMap := CountDaily(filtered, zeroMap, dayKey);
    var values := seq(|keys|, j requires 0 <= j < |keys| => dailyMap[keys[j]]);
    assert values == Buckets(filtered, keys, dayKey);
    daily := Reverse(values);
  }

  /** The series has one bucket per distinct day key of the window, today's
      last; bucket `j` belongs to the `j`-th key counted from the oldest. */
  lemma DailyShape(logs: seq<Log>, now: int, timeRange: nat, dayKey: int -> string)
    ensures var keys := DayKeys(now, timeRange, dayKey);
      var daily := DailySeries(logs, keys, dayKey);
      && |daily| == |keys| <= timeRange
      && Distinct(keys)
      && (forall j :: 0 <= j < |daily| ==> daily[j].date == keys[|keys| - 1 - j])
      && (forall d :: d in keys <==> exists i :: 0 <= i < timeRange && d == dayKey(now - i * DayMs))
      && (timeRange > 0 ==> daily[|daily| - 1].date == dayKey(now))
  {
    var candidates := DayCandidates(now, timeRange, dayKey);
    var keys := DayKeys(now, timeRange, dayKey);
    forall d
      ensures d in keys <==> exists i :: 0 <= i < timeRange && d == dayKey(now - i * DayMs)
    {
      if d in keys {
        assert d in candidates;
        var i :| 0 <= i < |candidates| && candidates[i] == d;
      }
      if exists i :: 0 <= i < timeRange && d == dayKey(now - i * DayMs) {
        var i :| 0 <= i < timeRange && d == dayKey(now - i * DayMs);
        assert candidates[i] == d;
      }
    }
    if timeRange > 0 {
      assert candidates[0] == dayKey(now);
    }
  }

  /** A day no log falls on keeps its zero bucket. */
  lemma {:induction false} BucketZeroWithoutLogs(logs: seq<Log>, key: string, dayKey: int -> string)
    requires forall l :: l in logs ==> dayKey(l.startedAt) != key
    ensures BucketOf(logs, key, dayKey) == DayBucket(key, 0, 0, 0)
    decreases |logs|
  {
    if logs != [] {
      BucketZeroWithoutLogs(logs[..|logs| - 1], key, dayKey);
    }
  }

  /** A bucket's total is the number of logs that fall on its day. */
  lemma {:induction false} BucketTotalCountsDay(logs: seq<Log>, key: string, dayKey: int -> string)
    ensures BucketOf(logs, key, dayKey).total == |Filter(logs, (l: Log) => dayKey(l.startedAt) == key)|
    decreases |logs|
  {
    if logs != [] {
      var init := logs[..|logs| - 1];
      BucketTotalCountsDay(init, key, dayKey);
      assert init + [logs[|logs| - 1]] == logs;
      FilterSnoc(init, logs[|logs| - 1], (l: Log) => dayKey(l.startedAt) == key);
    }
  }

  /** A bucket's `success` counts that day's successful logs and its
      `failed` that day's failed ones. */
  lemma {:induction false} BucketKindsCountDay(logs: seq<Log>, key: string, dayKey: int -> string)
    ensures BucketOf(logs, key, dayKey).success ==
      |Filter(logs, (l: Log) => dayKey(l.startedAt) == key && ClassifyStatus(l.status) == Succeeded)|
    ensures BucketOf(logs, key, dayKey).failed ==
      |Filter(logs, (l: Log) => dayKey(l.startedAt) == key && ClassifyStatus(l.status) == Failed)|
    decreases |logs|
  {
    if logs != [] {
      var init, l := logs[..|logs| - 1], logs[|logs| - 1];
      BucketKindsCountDay(init, key, dayKey);
      assert init + [l] == logs;
      FilterSnocLength(init, l, (l: Log) => dayKey(l.startedAt) == key && ClassifyStatus(l.status) == Succeeded);
      FilterSnocLength(init, l, (l: Log) => dayKey(l.startedAt) == key && ClassifyStatus(l.status) == Failed);
    }
  }

  function SumTotals(bs: seq<DayBucket>): nat {
    if bs == [] then 0 else bs[0].total + SumTotals(bs[1..])
  }

  lemma {:induction false} SumTotalsReverse(bs: seq<DayBucket>)
    ensures SumTotals(Reverse(bs)) == SumTotals(bs)
  {
    if bs != [] {
      SumTotalsReverse(bs[1..]);
      SumTotalsAppend(Reverse(bs[1..]), [bs[0]]);
    }
  }

  lemma {:induction false} SumTotalsAppend(a: seq<DayBucket>, b: seq<DayBucket>)
    ensures SumTotals(a + b) == SumTotals(a) + SumTotals(b)
  {
    if a != [] {
      assert (a + b)[1..] == a[1..] + b;
      SumTotalsAppend(a[1..], b);
    } else {
      assert a + b == b;
    }
  }

  /** Counting one more log raises the total of exactly the bucket of its day,
      if the (distinct) keys have one. */
  lemma {:induction false} SumTotalsStep(logs: seq<Log>, l: Log, keys: seq<string>, dayKey: int -> string)
    requires Distinct(keys)
    ensures SumTotals(Buckets(logs + [l], keys, dayKey))
         == SumTotals(Buckets(logs, keys, dayKey)) + (if dayKey(l.startedAt) in keys then 1 else 0)
  {
    if keys != [] {
      assert Distinct(keys[1..]) by {
        forall i, j | 0 <= i < j < |keys[1..]| ensures keys[1..][i] != keys[1..][j] {
          assert keys[1..][i] == keys[i + 1] && keys[1..][j] == keys[j + 1];
        }
      }
      SumTotalsStep(logs, l, keys[1..], dayKey);
      assert (logs + [l])[..|logs + [l]| - 1] == logs;
      assert keys[0] !in keys[1..] by {
        forall j | 0 <= j < |keys[1..]| ensures keys[1..][j] != keys[0] {
          assert keys[1..][j] == keys[j + 1];
        }
      }
      assert dayKey(l.startedAt) in keys <==> dayKey(l.startedAt) == keys[0] || dayKey(l.startedAt) in keys[1..] by {
        assert keys == [keys[0]] + keys[1..];
      }
    }
  }

  /** The daily totals add up to the number of logs whose day has a bucket:
      a log on any other day is dropped, none is counted twice. */
  lemma {:induction false} DailyTotalsCountMatchedLogs(logs: seq<Log>, keys: seq<string>, dayKey: int -> string)
    requires Distinct(keys)
    ensures SumTotals(DailySeries(logs, keys, dayKey))
         == |Filter(logs, (l: Log) => dayKey(l.startedAt) in keys)|
    decreases |logs|
  {
    SumTotalsReverse(Buckets(logs, keys, dayKey));
    if logs == [] {
      BucketsEmptySum(keys, dayKey);
    } else {
      var init := logs[..|logs| - 1];
      var l := logs[|logs| - 1];
      assert init + [l] == logs;
      DailyTotalsCountMatchedLogs(init, keys, dayKey);
      SumTotalsReverse(Buckets(init, keys, dayKey));
      SumTotalsStep(init, l, keys, dayKey);
      FilterSnoc(init, l, (l: Log) => dayKey(l.startedAt) in keys);
    }
  }

  lemma {:induction false} BucketsEmptySum(keys: seq<string>, dayKey: int -> string)
    ensures SumTotals(Buckets([], keys, dayKey)) == 0
  {
    if keys != [] {
      BucketsEmptySum(keys[1..], dayKey);
    }
  }

  // ---------------------------------------------------------------------------
  // Status breakdown

  /** The number of logs whose status falls into class `k`. */
  function CountKind(logs: seq<Log>, k: StatusKind): (n: nat)
    ensures n <= |logs|
    decreases |logs|
  {
    if logs == [] then 0
    else CountKind(logs[..|logs| - 1], k) + (if ClassifyStatus(logs[|logs| - 1].status) == k then 1 else 0)
  }

  /** Every log falls into exactly one of the three classes. */
  lemma {:induction false} KindsPartitionLogs(logs: seq<Log>)
    ensures CountKind(logs, Succeeded) + CountKind(logs, Failed) + CountKind(logs, Running) == |logs|
    decreases |logs|
  {
    if logs != [] {
      KindsPartitionLogs(logs[..|logs| - 1]);
    }
  }

  function SumValues(slices: seq<Slice>): nat {
    if slices == [] then 0 else slices[0].value + SumValues(slices[1..])
  }

  /** `.filter(item => item.value > 0)` */
  function NonZero(slices: seq<Slice>): (r: seq<Slice>)
    ensures forall x :: x in r <==> x in slices && x.value > 0
    ensures forall x :: multiset(r)[x] == if x.value > 0 then multiset(slices)[x] else 0
    ensures IsSubsequence(r, slices)
  {
    FilterCounts(slices, (x: Slice) => x.value > 0);
    Filter(slices, (x: Slice) => x.value > 0)
  }

  /** Dropping empty slices does not change the sum. */
  lemma {:induction false} NonZeroKeepsSum(slices: seq<Slice>)
    ensures SumValues(NonZero(slices)) == SumValues(slices)
  {
    if slices != [] {
      NonZeroKeepsSum(slices[1..]);
    }
  }

  /** The Success, Failed and Running slices, in that order, without empty ones. */
  function StatusSlices(logs: seq<Log>): seq<Slice> {
    NonZero([
      Slice("Success", CountKind(logs, Succeeded), SuccessColor),
      Slice("Failed", CountKind(logs, Failed), FailedColor),
      Slice("Running", CountKind(logs, Running), RunningColor)])
  }

  /** The breakdown accounts for every log once, and has no empty slice. */
  lemma StatusSlicesSum(logs: seq<Log>)
    ensures SumValues(StatusSlices(logs)) == |logs|
    ensures forall x :: x in StatusSlices(logs) ==> x.value > 0
  {
    var full := [
      Slice("Success", CountKind(logs, Succeeded), SuccessColor),
      Slice("Failed", CountKind(logs, Failed), FailedColor),
      Slice("Running", CountKind(logs, Running), RunningColor)];
    NonZeroKeepsSum(full);
    KindsPartitionLogs(logs);
    assert SumValues(full[1..][1..][1..]) == 0;
    assert SumValues(full[1..][1..]) == CountKind(logs, Running);
    assert SumValues(full[1..]) == CountKind(logs, Failed) + CountKind(logs, Running);
  }

  /** Counts statuses into three counters as the page does. */
  method BuildStatusBreakdown(filtered: seq<Log>) returns (breakdown: seq<Slice>)
    ensures breakdown == StatusSlices(filtered)
  {
    var success, failed, running := 0, 0, 0;
    for n := 0 to |filtered|
      invariant success == CountKind(filtered[..n], Succeeded)
      invariant failed == CountKind(filtered[..n], Failed)
      invariant running == CountKind(filtered[..n], Running)
    {
      assert filtered[..n + 1][..n] == filtered[..n];
      var status := Lower(filtered[n].status);
      if status == "success" {
        success := success + 1;
      } else if status == "failed" {
        failed := failed + 1;
      } else {
        running := running + 1;
      }
    }
    assert filtered[..|filtered|] == filtered;
    breakdown := NonZero([
      Slice("Success", success, SuccessColor),
      Slice("Failed", failed, FailedColor),
      Slice("Running", running, RunningColor)]);
  }

  // ---------------------------------------------------------------------------
  // Hourly histogram

  function DigitChar(d: int): char
    requires 0 <= d < 10
  {
    ('0' as int + d) as char
  }

  /** `${hour}:00` */
  function HourLabel(h: Hour): (s: string)
    ensures 4 <= |s| <= 5 && s[|s| - 3..] == ":00"
  {
    (if h < 10 then [DigitChar(h)] else [DigitChar(h / 10), DigitChar(h % 10)]) + ":00"
  }

  lemma HourLabelInjective(a: Hour, b: Hour)
    requires HourLabel(a) == HourLabel(b)
    ensures a == b
  {
    var s := HourLabel(a);
    if a < 10 && b < 10 {
      assert s[0] == DigitChar(a) && s[0] == DigitChar(b);
    } else if a >= 10 && b >= 10 {
      assert s[0] == DigitChar(a / 10) && s[0] == DigitChar(b / 10);
      assert s[1] == DigitChar(a % 10) && s[1] == DigitChar(b % 10);
    }
  }

  /** The number of logs started in hour `h`. */
  function HourTally(logs: seq<Log>, h: int, hourOf: int -> Hour): (n: nat)
    ensures n <= |logs|
    decreases |logs|
  {
    if logs == [] then 0
    else HourTally(logs[..|logs| - 1], h, hourOf) + (if hourOf(logs[|logs| - 1].startedAt) == h then 1 else 0)
  }

  /** Hours 0..23 in order, each with its count. */
  function HourlySeries(logs: seq<Log>, hourOf: int -> Hour): (r: seq<HourCount>)
    ensures |r| == 24
  {
    seq(24, h requires 0 <= h < 24 => HourCount(HourLabel(h), HourTally(logs, h, hourOf)))
  }

  function SumExecutions(hs: seq<HourCount>): nat {
    if hs == [] then 0 else hs[0].executions + SumExecutions(hs[1..])
  }

  /** Incrementing one entry raises the sum by one. */
  lemma {:induction false} SumExecutionsBump(hs: seq<HourCount>, ks: seq<HourCount>, h: nat)
    requires |hs| == |ks| && h < |hs|
    requires ks[h].executions == hs[h].executions + 1
    requires forall i :: 0 <= i < |hs| && i != h ==> ks[i].executions == hs[i].executions
    ensures SumExecutions(ks) == SumExecutions(hs) + 1
  {
    if h == 0 {
      SumExecutionsSame(hs[1..], ks[1..]);
    } else {
      SumExecutionsBump(hs[1..], ks[1..], h - 1);
    }
  }

  lemma {:induction false} SumExecutionsSame(hs: seq<HourCount>, ks: seq<HourCount>)
    requires |hs| == |ks|
    requires forall i :: 0 <= i < |hs| ==> ks[i].executions == hs[i].executions
    ensures SumExecutions(ks) == SumExecutions(hs)
  {
    if hs != [] {
      SumExecutionsSame(hs[1..], ks[1..]);
    }
  }

  /** The histogram accounts for every log exactly once. */
  lemma {:induction false} HourlySumsToCount(logs: seq<Log>, hourOf: int -> Hour)
    ensures SumExecutions(HourlySeries(logs, hourOf)) == |logs|
    decreases |logs|
  {
    if logs == [] {
      SumExecutionsZero(HourlySeries(logs, hourOf));
    } else {
      var init := logs[..|logs| - 1];
      HourlySumsToCount(init, hourOf);
      SumExecutionsBump(HourlySeries(init, hourOf), HourlySeries(logs, hourOf), hourOf(logs[|logs| - 1].startedAt));
    }
  }

  lemma {:induction false} SumExecutionsZero(hs: seq<HourCount>)
    requires forall i :: 0 <= i < |hs| ==> hs[i].executions == 0
    ensures SumExecutions(hs) == 0
  {
    if hs != [] {
      SumExecutionsZero(hs[1..]);
    }
  }

  /** Fills the hourly map as the page does: keys 0..23 set to zero, then one
      increment per log at its hour (`|| 0` covers an hour without an entry). */
  method BuildHourly(filtered: seq<Log>, hourOf: int -> Hour) returns (hourly: seq<HourCount>)
    ensures hourly == HourlySeries(filtered, hourOf)
    ensures forall h :: 0 <= h < 24 ==> hourly[h].hour == HourLabel(h)
  {
    var hourlyMap: map<int, nat> := map[];
    for i := 0 to 24
      invariant forall h :: h in hourlyMap <==> 0 <= h < i
      invariant forall h :: h in hourlyMap ==> hourlyMap[h] == 0
    {
      hourlyMap := hourlyMap[i := 0];
    }
    for n := 0 to |filtered|
      invariant forall h :: h in hourlyMap <==> 0 <= h < 24
      invariant forall h :: 0 <= h < 24 ==> hourlyMap[h] == HourTally(filtered[..n], h, hourOf)
    {
      assert filtered[..n + 1][..n] == filtered[..n];
      var hour := hourOf(filtered[n].startedAt);
      var previous := if hour in hourlyMap then hourlyMap[hour] else 0;
      hourlyMap := hourlyMap[hour := previous + 1];
    }
    assert filtered[..|filtered|] == filtered;
    hourly := seq(24, h requires 0 <= h < 24 => HourCount(HourLabel(h), hourlyMap[h]));
  }
}
