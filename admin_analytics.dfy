/**
 * The admin analytics page: the execution charts of the shared aggregation,
 * plus the distribution of users over plans and a cumulative user-growth
 * series over the same days, and the choice of the success rate shown.
 */
module AdminAnalytics {
  import opened Common
  import opened ExecutionCharts

  const FreeColor := "#6b7280"
  const PremiumColor := "#8b5cf6"
  const ProColor := "#f59e0b"

  datatype GrowthPoint = GrowthPoint(date: string, users: nat)

  datatype AdminCharts = AdminCharts(
    daily: seq<DayBucket>,
    statusBreakdown: seq<Slice>,
    hourly: seq<HourCount>,
    planDistribution: seq<Slice>,
    userGrowth: seq<GrowthPoint>)

  // ---------------------------------------------------------------------------
  // Plan distribution

  /** `u.plan || "FREE"`: a missing or empty plan counts as FREE. */
  function EffectivePlan(u: UserRecord): (p: string)
    ensures p == "FREE" <==> u.plan == None || u.plan == Some("") || u.plan == Some("FREE")
    ensures p != "FREE" ==> u.plan == Some(p)
  {
    if u.plan.Some? && u.plan.value != "" then u.plan.value else "FREE"
  }

  function CountPlan(users: seq<UserRecord>, plan: string): (n: nat)
    ensures n <= |users|
    decreases |users|
  {
    if users == [] then 0
    else CountPlan(users[..|users| - 1], plan) + (if EffectivePlan(users[|users| - 1]) == plan then 1 else 0)
  }

  predicate KnownPlan(p: string) {
    p == "FREE" || p == "PREMIUM" || p == "PRO"
  }

  /** The Free, Premium and Pro slices, in that order, without empty ones. */
  function PlanSlices(users: seq<UserRecord>): seq<Slice> {
    NonZero([
      Slice("Free", CountPlan(users, "FREE"), FreeColor),
      Slice("Premium", CountPlan(users, "PREMIUM"), PremiumColor),
      Slice("Pro", CountPlan(users, "PRO"), ProColor)])
  }

  lemma {:induction false} KnownPlansPartition(users: seq<UserRecord>)
    ensures CountPlan(users, "FREE") + CountPlan(users, "PREMIUM") + CountPlan(users, "PRO")
         == |Filter(users, (u: UserRecord) => KnownPlan(EffectivePlan(u)))|
    decreases |users|
  {
    if users != [] {
      var init, u := users[..|users| - 1], users[|users| - 1];
      KnownPlansPartition(init);
      assert init + [u] == users;
      FilterSnocLength(init, u, (u: UserRecord) => KnownPlan(EffectivePlan(u)));
    }
  }

  /** Every user with a FREE, PREMIUM or PRO plan (a missing plan being FREE)
      is counted once; users with any other plan are ignored; no slice is empty. */
  lemma PlanSlicesCountKnownPlans(users: seq<UserRecord>)
    ensures SumValues(PlanSlices(users)) == |Filter(users, (u: UserRecord) => KnownPlan(EffectivePlan(u)))|
    ensures forall x :: x in PlanSlices(users) ==> x.value > 0
  {
    var full := [
      Slice("Free", CountPlan(users, "FREE"), FreeColor),
      Slice("Premium", CountPlan(users, "PREMIUM"), PremiumColor),
      Slice("Pro", CountPlan(users, "PRO"), ProColor)];
    NonZeroKeepsSum(full);
    KnownPlansPartition(users);
    assert SumValues(full[1..][1..][1..]) == 0;
    assert SumValues(full[1..][1..]) == CountPlan(users, "PRO");
    assert SumValues(full[1..]) == CountPlan(users, "PREMIUM") + CountPlan(users, "PRO");
  }

  /** The three counters hold the plan counts of `users`. */
  ghost predicate Tallied(planCounts: map<string, nat>, users: seq<UserRecord>) {
    && planCounts.Keys == {"FREE", "PREMIUM", "PRO"}
    && forall p :: p in planCounts ==> planCounts[p] == CountPlan(users, p)
  }

  lemma TallyNext(planCounts: map<string, nat>, users: seq<UserRecord>, n: nat)
    requires n < |users| && Tallied(planCounts, users[..n])
    ensures var plan := EffectivePlan(users[n]);
      Tallied(if plan in planCounts then planCounts[plan := planCounts[plan] + 1] else planCounts, users[..n + 1])
  {
    assert users[..n + 1][..n] == users[..n];
  }

  /** Counts plans into the page's three counters. */
  method BuildPlanDistribution(users: seq<UserRecord>) returns (distribution: seq<Slice>)
    ensures distribution == PlanSlices(users)
  {
    var planCounts: map<string, nat> := map["FREE" := 0, "PREMIUM" := 0, "PRO" := 0];
    for n := 0 to |users|
      invariant Tallied(planCounts, users[..n])
    {
      TallyNext(planCounts, users, n);
      var u := users[n];
      var plan := if u.plan.Some? && u.plan.value != "" then u.plan.value else "FREE";
      assert plan == EffectivePlan(u);
      if plan in planCounts {
        planCounts := planCounts[plan := planCounts[plan] + 1];
      }
    }
    assert users[..|users|] == users;
    assert "FREE" in planCounts && "PREMIUM" in planCounts && "PRO" in planCounts;
    distribution := NonZero([
      Slice("Free", planCounts["FREE"], FreeColor),
      Slice("Premium", planCounts["PREMIUM"], PremiumColor),
      Slice("Pro", planCounts["PRO"], ProColor)]);
  }

  // ---------------------------------------------------------------------------
  // User growth

  function CreatedBefore(users: seq<UserRecord>, since: int): (n: nat)
    ensures n <= |users|
    decreases |users|
  {
    if users == [] then 0
    else CreatedBefore(users[..|users| - 1], since) + (if users[|users| - 1].createdAt < since then 1 else 0)
  }

  function CreatedOn(users: seq<UserRecord>, date: string, dayKey: int -> string): (n: nat)
    ensures n <= |users|
    decreases |users|
  {
    if users == [] then 0
    else CreatedOn(users[..|users| - 1], date, dayKey) + (if dayKey(users[|users| - 1].createdAt) == date then 1 else 0)
  }

  /** The users created on the first `j` dates. */
  function CreatedOnFirst(users: seq<UserRecord>, dates: seq<string>, j: nat, dayKey: int -> string): nat
    requires j <= |dates|
  {
    if j == 0 then 0 else CreatedOnFirst(users, dates, j - 1, dayKey) + CreatedOn(users, dates[j - 1], dayKey)
  }

  /** Point `j`: the users created before the window plus those created on
      the dates up to and including `dates[j]`. */
  function GrowthSeries(users: seq<UserRecord>, dates: seq<string>, base: nat, dayKey: int -> string)
    : (r: seq<GrowthPoint>)
    ensures |r| == |dates|
  {
    seq(|dates|, j requires 0 <= j < |dates| => GrowthPoint(dates[j], base + CreatedOnFirst(users, dates, j + 1, dayKey)))
  }

  lemma GrowthSeriesAt(users: seq<UserRecord>, dates: seq<string>, base: nat, dayKey: int -> string, j: nat)
    requires j < |dates|
    ensures GrowthSeries(users, dates, base, dayKey)[j] == GrowthPoint(dates[j], base + CreatedOnFirst(users, dates, j + 1, dayKey))
  {
  }

  /** The growth series of the page: the window's day keys oldest first,
      starting from the users created before the window. */
  function UserGrowth(users: seq<UserRecord>, now: int, timeRange: nat, dayKey: int -> string): seq<GrowthPoint> {
    GrowthSeries(users, Reverse(DayKeys(now, timeRange, dayKey)), CreatedBefore(users, WindowStart(now, timeRange)), dayKey)
  }

  lemma {:induction false} CreatedOnFirstMonotone(users: seq<UserRecord>, dates: seq<string>, i: nat, j: nat, dayKey: int -> string)
    requires i <= j <= |dates|
    ensures CreatedOnFirst(users, dates, i, dayKey) <= CreatedOnFirst(users, dates, j, dayKey)
    decreases j - i
  {
    if i < j {
      CreatedOnFirstMonotone(users, dates, i, j - 1, dayKey);
    }
  }

  /** The series never decreases and never drops below the users created
      before the window; its dates are the window's days, oldest first. */
  lemma UserGrowthNonDecreasing(users: seq<UserRecord>, now: int, timeRange: nat, dayKey: int -> string)
    ensures var g := UserGrowth(users, now, timeRange, dayKey);
      && (forall i, j :: 0 <= i <= j < |g| ==> g[i].users <= g[j].users)
      && (forall i :: 0 <= i < |g| ==> g[i].users >= CreatedBefore(users, WindowStart(now, timeRange)))
      && (forall i :: 0 <= i < |g| ==> g[i].date == DayKeys(now, timeRange, dayKey)[|g| - 1 - i])
  {
    var dates := Reverse(DayKeys(now, timeRange, dayKey));
    var g := UserGrowth(users, now, timeRange, dayKey);
    forall i, j | 0 <= i <= j < |g| ensures g[i].users <= g[j].users {
      CreatedOnFirstMonotone(users, dates, i + 1, j + 1, dayKey);
    }
  }

  /** Counts users created on one date, from a running total (the page's inner loop). */
  method AddCreatedOn(users: seq<UserRecord>, date: string, dayKey: int -> string, start: nat)
    returns (cumulative: nat)
    ensures cumulative == start + CreatedOn(users, date, dayKey)
  {
    cumulative := start;
    for n := 0 to |users|
      invariant cumulative == start + CreatedOn(users[..n], date, dayKey)
    {
      assert users[..n + 1][..n] == users[..n];
      if dayKey(users[n].createdAt) == date {
        cumulative := cumulative + 1;
      }
    }
    assert users[..|users|] == users;
  }

  /** One zero entry per day of the window; `keys` is the map's insertion order. */
  method InitGrowthMap(now: int, timeRange: nat, dayKey: int -> string)
    returns (keys: seq<string>, userGrowthMap: map<string, nat>)
    ensures keys == DayKeys(now, timeRange, dayKey)
    ensures forall k :: k in userGrowthMap <==> k in keys
  {
    ghost var candidates := DayCandidates(now, timeRange, dayKey);
    keys := [];
    userGrowthMap := map[];
    for i := 0 to timeRange
      invariant keys == KeyOrder(candidates[..i])
      invariant userGrowthMap.Keys == set k | k in keys
    {
      var dateStr := dayKey(now - i * DayMs);
      assert candidates[i] == dateStr;
      KeyOrderStep(candidates, i);
      if dateStr !in userGrowthMap {
        keys := keys + [dateStr];
      }
      userGrowthMap := userGrowthMap[dateStr := 0];
    }
    assert candidates[..timeRange] == candidates;
  }

  /** The users created before the window. */
  method CountCreatedBefore(users: seq<UserRecord>, daysAgo: int) returns (cumulative: nat)
    ensures cumulative == CreatedBefore(users, daysAgo)
  {
    cumulative := 0;
    for n := 0 to |users|
      invariant cumulative == CreatedBefore(users[..n], daysAgo)
    {
      assert users[..n + 1][..n] == users[..n];
      if users[n].createdAt < daysAgo {
        cumulative := cumulative + 1;
      }
    }
    assert users[..|users|] == users;
  }

  /** The first `j` dates hold their running totals in `m`. */
  ghost predicate Recorded(m: map<string, nat>, users: seq<UserRecord>, dates: seq<string>, base: nat,
                           dayKey: int -> string, j: nat)
    requires j <= |dates|
  {
    forall i :: 0 <= i < j ==> dates[i] in m && m[dates[i]] == base + CreatedOnFirst(users, dates, i + 1, dayKey)
  }

  /** Recording date `j` keeps the earlier dates' totals, the dates being distinct. */
  lemma RecordNext(m: map<string, nat>, users: seq<UserRecord>, dates: seq<string>, base: nat,
                   dayKey: int -> string, j: nat)
    requires Distinct(dates) && j < |dates|
    requires Recorded(m, users, dates, base, dayKey, j)
    ensures Recorded(m[dates[j] := base + CreatedOnFirst(users, dates, j + 1, dayKey)], users, dates, base, dayKey, j + 1)
  {
    var m' := m[dates[j] := base + CreatedOnFirst(users, dates, j + 1, dayKey)];
    forall i | 0 <= i < j + 1
      ensures dates[i] in m' && m'[dates[i]] == base + CreatedOnFirst(users, dates, i + 1, dayKey)
    {
      if i < j {
        assert dates[i] != dates[j];
      }
    }
  }

  /** The running total over the dates, recorded per date, then read back
      in date order (`userGrowthMap.get(date) || 0`). */
  method AccumulateGrowth(users: seq<UserRecord>, sortedDates: seq<string>, base: nat,
                          dayKey: int -> string, zeroMap: map<string, nat>)
    returns (growth: seq<GrowthPoint>)
    requires Distinct(sortedDates)
    ensures growth == GrowthSeries(users, sortedDates, base, dayKey)
  {
    var userGrowthMap := zeroMap;
    var cumulativeUsers := base;
    for j := 0 to |sortedDates|
      invariant cumulativeUsers == base + CreatedOnFirst(users, sortedDates, j, dayKey)
      invariant Recorded(userGrowthMap, users, sortedDates, base, dayKey, j)
    {
      var dateStr := sortedDates[j];
      cumulativeUsers := AddCreatedOn(users, dateStr, dayKey, cumulativeUsers);
      RecordNext(userGrowthMap, users, sortedDates, base, dayKey, j);
      userGrowthMap := userGrowthMap[dateStr := cumulativeUsers];
    }
    growth := seq(|sortedDates|, j requires 0 <= j < |sortedDates| =>
      GrowthPoint(sortedDates[j], if sortedDates[j] in userGrowthMap then userGrowthMap[sortedDates[j]] else 0));
    ghost var expected := GrowthSeries(users, sortedDates, base, dayKey);
    forall j | 0 <= j < |growth| ensures growth[j] == expected[j] {
      GrowthSeriesAt(users, sortedDates, base, dayKey, j);
    }
  }

  /** The page's growth computation: zero entries per day, the count of
      earlier users, then a running total over the days, oldest first. */
  method BuildUserGrowth(users: seq<UserRecord>, now: int, timeRange: nat, dayKey: int -> string)
    returns (growth: seq<GrowthPoint>)
    ensures growth == UserGrowth(users, now, timeRange, dayKey)
  {
    var keys, userGrowthMap := InitGrowthMap(now, timeRange, dayKey);
    var cumulativeUsers := CountCreatedBefore(users, WindowStart(now, timeRange));
    var sortedDates := Reverse(keys);
    assert Distinct(sortedDates) by {
      forall i, j | 0 <= i < j < |sortedDates| ensures sortedDates[i] != sortedDates[j] {
        assert sortedDates[i] == keys[|keys| - 1 - i] && sortedDates[j] == keys[|keys| - 1 - j];
      }
    }
    growth := AccumulateGrowth(users, sortedDates, cumulativeUsers, dayKey, userGrowthMap);
  }

  // ---------------------------------------------------------------------------
  // Success rate and the whole page

  /** `typeof successRate === 'number' ? successRate : 0` */
  function SelectSuccessRate(rate: RateField): (r: real)
    ensures rate.NumberRate? ==> r == rate.value
    ensures !rate.NumberRate? ==> r == 0.0
  {
    match rate
    case NumberRate(v) => v
    case _ => 0.0
  }

  /** `processDataForCharts`: nothing without log data; otherwise the charts
      of the windowed logs, and the user charts when user data is present. */
  method ProcessDataForCharts(
    logsData: Option<seq<Log>>, usersData: Option<seq<UserRecord>>,
    now: int, timeRange: nat, dayKey: int -> string, hourOf: int -> Hour)
    returns (result: AdminCharts)
    ensures logsData.None? ==> result == AdminCharts([], [], [], [], [])
    ensures logsData.Some? ==>
      var filtered := FilterWindow(logsData.value, WindowStart(now, timeRange));
      && result.daily == DailySeries(filtered, DayKeys(now, timeRange, dayKey), dayKey)
      && result.statusBreakdown == StatusSlices(filtered)
      && result.hourly == HourlySeries(filtered, hourOf)
      && result.planDistribution == (if usersData.Some? then PlanSlices(usersData.value) else [])
      && result.userGrowth == (if usersData.Some? then UserGrowth(usersData.value, now, timeRange, dayKey) else [])
  {
    result := AdminCharts([], [], [], [], []);
    if logsData.None? {
      return;
    }
    var since := WindowStart(now, timeRange);
    var filtered := FilterWindow(logsData.value, since);
    var daily := BuildDaily(filtered, now, timeRange, dayKey);
    var breakdown := BuildStatusBreakdown(filtered);
    var hourly := BuildHourly(filtered, hourOf);
    result := result.(daily := daily, statusBreakdown := breakdown, hourly := hourly);
    if usersData.Some? {
      var distribution := BuildPlanDistribution(usersData.value);
      var growth := BuildUserGrowth(usersData.value, now, timeRange, dayKey);
      result := result.(planDistribution := distribution, userGrowth := growth);
    }
  }
}
