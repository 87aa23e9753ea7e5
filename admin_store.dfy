/**
 * The admin cache store: stats, users, jobs and logs fetched from the admin
 * endpoints, each kept with a loading flag and the time it was last fetched,
 * plus the status filter the jobs and logs were fetched with.
 *
 * A fetch is two steps. `Fetch*` decides whether to request; on a request
 * it sets the loading flag (and records the filter). `Settle*` applies the
 * request's outcome. Requests themselves are not part of this model. The
 * clock value a step reads (`Date.now()`) is a parameter.
 */
module AdminStore {
  import opened Common

  /** Five minutes, in milliseconds. */
  const CacheDuration: int := 5 * 60 * 1000

  datatype AdminStats = AdminStats(totalUsers: nat, totalJobs: nat, totalExecutions: nat, successRate: real)

  /** A job as the admin jobs endpoint returns it, with its owner's email. */
  datatype AdminJob = AdminJob(id: string, name: string, ownerEmail: string, isActive: bool)

  /** A log as the admin logs endpoint returns it. */
  datatype AdminLog = AdminLog(id: string, status: string, startedAt: int, jobName: string, ownerEmail: string)

  /** `Partial<UserWithCount>`: the fields an update replaces. */
  datatype UserPatch = UserPatch(
    id: Option<string>,
    email: Option<string>,
    name: Option<Option<string>>,
    role: Option<Option<Role>>,
    plan: Option<Option<string>>,
    createdAt: Option<int>,
    jobCount: Option<nat>)

  const NoChanges := UserPatch(None, None, None, None, None, None, None)

  /** The outcome of a fetch's first step. */
  datatype Gate = Cached | InFlight | Go

  /** Every field of the store, to state what a step changes. */
  datatype StoreState = StoreState(
    stats: Option<AdminStats>, statsLoading: bool, statsLastFetched: Option<int>,
    users: seq<UserRecord>, usersLoading: bool, usersLastFetched: Option<int>,
    jobs: seq<AdminJob>, jobsLoading: bool, jobsLastFetched: Option<int>, jobsStatusFilter: string,
    logs: seq<AdminLog>, logsLoading: bool, logsLastFetched: Option<int>, logsStatusFilter: string)

  // ---------------------------------------------------------------------------
  // The cache rule

  /** `lastFetched && now - lastFetched < CACHE_DURATION`: a timestamp of 0
      is falsy and never fresh. */
  predicate Fresh(lastFetched: Option<int>, now: int) {
    lastFetched.Some? && lastFetched.value != 0 && now - lastFetched.value < CacheDuration
  }

  /** The guards every fetch runs in order: the cache check (skipped when
      forced or when the filter changed), then the in-flight check. */
  function Decide(force: bool, filterChanged: bool, hasData: bool, lastFetched: Option<int>,
                  loading: bool, now: int): Gate
  {
    if !force && !filterChanged && hasData && Fresh(lastFetched, now) then Cached
    else if loading then InFlight
    else Go
  }

  /** Data fetched at a non-zero time `t` is served from the cache until
      five minutes after `t`, and not from then on. */
  lemma CacheWindow(t: int, now: int, loading: bool)
    requires t != 0
    ensures Decide(false, false, true, Some(t), loading, now) == Cached <==> now < t + CacheDuration
  {
  }

  /** The cache is never used when forced, when the filter changed, without
      data or without a usable timestamp. */
  lemma CacheBypass(force: bool, filterChanged: bool, hasData: bool, lastFetched: Option<int>,
                    loading: bool, now: int)
    requires force || filterChanged || !hasData || lastFetched == None || lastFetched == Some(0)
    ensures Decide(force, filterChanged, hasData, lastFetched, loading, now) != Cached
    ensures Decide(force, filterChanged, hasData, lastFetched, loading, now) == (if loading then InFlight else Go)
  {
  }

  /** While a fetch is in flight no second request of the same resource starts. */
  lemma InFlightNeverRequests(force: bool, filterChanged: bool, hasData: bool, lastFetched: Option<int>, now: int)
    ensures Decide(force, filterChanged, hasData, lastFetched, true, now) != Go
  {
  }

  // ---------------------------------------------------------------------------
  // List updates

  /** `{ ...u, ...updates }` */
  function ApplyPatch(u: UserRecord, p: UserPatch): UserRecord {
    UserRecord(
      p.id.GetOr(u.id), p.email.GetOr(u.email), p.name.GetOr(u.name), p.role.GetOr(u.role),
      p.plan.GetOr(u.plan), p.createdAt.GetOr(u.createdAt), p.jobCount.GetOr(u.jobCount))
  }

  lemma PatchLaws(u: UserRecord, p: UserPatch)
    ensures ApplyPatch(u, NoChanges) == u
    ensures ApplyPatch(ApplyPatch(u, p), p) == ApplyPatch(u, p)
  {
  }

  /** `users.map(u => u.id === userId ? { ...u, ...updates } : u)` */
  function MergeById(users: seq<UserRecord>, userId: string, p: UserPatch): (r: seq<UserRecord>)
    ensures |r| == |users|
    ensures forall i :: 0 <= i < |users| && users[i].id == userId ==> r[i] == ApplyPatch(users[i], p)
    ensures forall i :: 0 <= i < |users| && users[i].id != userId ==> r[i] == users[i]
  {
    if users == [] then []
    else [if users[0].id == userId then ApplyPatch(users[0], p) else users[0]] + MergeById(users[1..], userId, p)
  }

  /** `users.filter(u => u.id !== userId)` */
  function RemoveById(users: seq<UserRecord>, userId: string): (r: seq<UserRecord>)
    ensures forall u :: u in r <==> u in users && u.id != userId
    ensures forall u :: multiset(r)[u] == if u.id != userId then multiset(users)[u] else 0
    ensures IsSubsequence(r, users)
  {
    FilterCounts(users, (u: UserRecord) => u.id != userId);
    Filter(users, (u: UserRecord) => u.id != userId)
  }

  /** Removing an id that no user has changes nothing. */
  lemma RemoveAbsentId(users: seq<UserRecord>, userId: string)
    requires forall u :: u in users ==> u.id != userId
    ensures RemoveById(users, userId) == users
  {
    FilterKeepsAll(users, (u: UserRecord) => u.id != userId);
  }

  // ---------------------------------------------------------------------------
  // The store

  class Store {
    var stats: Option<AdminStats>
    var statsLoading: bool
    var statsLastFetched: Option<int>

    var users: seq<UserRecord>
    var usersLoading: bool
    var usersLastFetched: Option<int>

    var jobs: seq<AdminJob>
    var jobsLoading: bool
    var jobsLastFetched: Option<int>
    var jobsStatusFilter: string

    var logs: seq<AdminLog>
    var logsLoading: bool
    var logsLastFetched: Option<int>
    var logsStatusFilter: string

    function State(): StoreState
      reads this
    {
      StoreState(
        stats, statsLoading, statsLastFetched,
        users, usersLoading, usersLastFetched,
        jobs, jobsLoading, jobsLastFetched, jobsStatusFilter,
        logs, logsLoading, logsLastFetched, logsStatusFilter)
    }

    /** Nothing cached, nothing loading, both filters "all". */
    constructor()
      ensures State() == StoreState(None, false, None, [], false, None, [], false, None, "all", [], false, None, "all")
    {
      stats, statsLoading, statsLastFetched := None, false, None;
      users, usersLoading, usersLastFetched := [], false, None;
      jobs, jobsLoading, jobsLastFetched, jobsStatusFilter := [], false, None, "all";
      logs, logsLoading, logsLastFetched, logsStatusFilter := [], false, None, "all";
    }

    method FetchStats(force: bool, now: int) returns (gate: Gate)
      modifies this
      ensures gate == Decide(force, false, old(stats).Some?, old(statsLastFetched), old(statsLoading), now)
      ensures gate == Go ==> State() == old(State()).(statsLoading := true)
      ensures gate != Go ==> State() == old(State())
    {
      if !force && stats.Some? && statsLastFetched.Some? && statsLastFetched.value != 0
         && now - statsLastFetched.value < CacheDuration {
        return Cached;
      }
      if statsLoading {
        return InFlight;
      }
      statsLoading := true;
      gate := Go;
    }

    /** On success the stats, the timestamp and the loading flag are set; on
        failure only the loading flag is cleared and the error is passed on. */
    method SettleStats(response: Result<AdminStats>, at: int) returns (error: Option<ApiError>)
      requires statsLoading
      modifies this
      ensures response.Ok? ==> (error == None
        && State() == old(State()).(stats := Some(response.value), statsLoading := false, statsLastFetched := Some(at)))
      ensures response.Err? ==> error == Some(response.error) && State() == old(State()).(statsLoading := false)
    {
      match response
      case Ok(data) =>
        stats, statsLoading, statsLastFetched := Some(data), false, Some(at);
        error := None;
      case Err(e) =>
        statsLoading := false;
        error := Some(e);
    }

    /** As for stats, but the cache also needs a non-empty user list. */
    method FetchUsers(force: bool, now: int) returns (gate: Gate)
      modifies this
      ensures gate == Decide(force, false, |old(users)| > 0, old(usersLastFetched), old(usersLoading), now)
      ensures gate == Go ==> State() == old(State()).(usersLoading := true)
      ensures gate != Go ==> State() == old(State())
    {
      if !force && |users| > 0 && usersLastFetched.Some? && usersLastFetched.value != 0
         && now - usersLastFetched.value < CacheDuration {
        return Cached;
      }
      if usersLoading {
        return InFlight;
      }
      usersLoading := true;
      gate := Go;
    }

    method SettleUsers(response: Result<seq<UserRecord>>, at: int) returns (error: Option<ApiError>)
      requires usersLoading
      modifies this
      ensures response.Ok? ==> (error == None
        && State() == old(State()).(users := response.value, usersLoading := false, usersLastFetched := Some(at)))
      ensures response.Err? ==> error == Some(response.error) && State() == old(State()).(usersLoading := false)
    {
      match response
      case Ok(data) =>
        users, usersLoading, usersLastFetched := data, false, Some(at);
        error := None;
      case Err(e) =>
        usersLoading := false;
        error := Some(e);
    }

    /** A filter different from the remembered one bypasses the cache; a
        request records the new filter first and sends "all" as no status. */
    method FetchJobs(statusFilter: string, force: bool, now: int) returns (gate: Gate, status: Option<string>)
      modifies this
      ensures gate == Decide(force, statusFilter != old(jobsStatusFilter), |old(jobs)| > 0,
                             old(jobsLastFetched), old(jobsLoading), now)
      ensures gate == Go ==> (status == AllAsNone(statusFilter)
        && State() == old(State()).(jobsLoading := true, jobsStatusFilter := statusFilter))
      ensures gate != Go ==> status == None && State() == old(State())
    {
      var filterChanged := statusFilter != jobsStatusFilter;
      status := None;
      if !force && !filterChanged && |jobs| > 0 && jobsLastFetched.Some? && jobsLastFetched.value != 0
         && now - jobsLastFetched.value < CacheDuration {
        return Cached, None;
      }
      if jobsLoading {
        return InFlight, None;
      }
      jobsLoading, jobsStatusFilter := true, statusFilter;
      gate := Go;
      status := if statusFilter != "all" then Some(statusFilter) else None;
    }

    method SettleJobs(response: Result<seq<AdminJob>>, at: int) returns (error: Option<ApiError>)
      requires jobsLoading
      modifies this
      ensures response.Ok? ==> (error == None
        && State() == old(State()).(jobs := response.value, jobsLoading := false, jobsLastFetched := Some(at)))
      ensures response.Err? ==> error == Some(response.error) && State() == old(State()).(jobsLoading := false)
    {
      match response
      case Ok(data) =>
        jobs, jobsLoading, jobsLastFetched := data, false, Some(at);
        error := None;
      case Err(e) =>
        jobsLoading := false;
        error := Some(e);
    }

    method FetchLogs(statusFilter: string, force: bool, now: int) returns (gate: Gate, status: Option<string>)
      modifies this
      ensures gate == Decide(force, statusFilter != old(logsStatusFilter), |old(logs)| > 0,
                             old(logsLastFetched), old(logsLoading), now)
      ensures gate == Go ==> (status == AllAsNone(statusFilter)
        && State() == old(State()).(logsLoading := true, logsStatusFilter := statusFilter))
      ensures gate != Go ==> status == None && State() == old(State())
    {
      var filterChanged := statusFilter != logsStatusFilter;
      status := None;
      if !force && !filterChanged && |logs| > 0 && logsLastFetched.Some? && logsLastFetched.value != 0
         && now - logsLastFetched.value < CacheDuration {
        return Cached, None;
      }
      if logsLoading {
        return InFlight, None;
      }
      logsLoading, logsStatusFilter := true, statusFilter;
      gate := Go;
      status := if statusFilter != "all" then Some(statusFilter) else None;
    }

    method SettleLogs(response: Result<seq<AdminLog>>, at: int) returns (error: Option<ApiError>)
      requires logsLoading
      modifies this
      ensures response.Ok? ==> (error == None
        && State() == old(State()).(logs := response.value, logsLoading := false, logsLastFetched := Some(at)))
      ensures response.Err? ==> error == Some(response.error) && State() == old(State()).(logsLoading := false)
    {
      match response
      case Ok(data) =>
        logs, logsLoading, logsLastFetched := data, false, Some(at);
        error := None;
      case Err(e) =>
        logsLoading := false;
        error := Some(e);
    }

    method UpdateUserInCache(userId: string, updates: UserPatch)
      modifies this
      ensures State() == old(State()).(users := MergeById(old(users), userId, updates))
    {
      users := MergeById(users, userId, updates);
    }

    method RemoveUserFromCache(userId: string)
      modifies this
      ensures State() == old(State()).(users := RemoveById(old(users), userId))
    {
      users := RemoveById(users, userId);
    }

    /** Drops every cached value and timestamp and resets both filters;
        the loading flags are left as they are. */
    method ClearAll()
      modifies this`stats, this`statsLastFetched, this`users, this`usersLastFetched
      modifies this`jobs, this`jobsLastFetched, this`jobsStatusFilter
      modifies this`logs, this`logsLastFetched, this`logsStatusFilter
      ensures stats == None && statsLastFetched == None
      ensures users == [] && usersLastFetched == None
      ensures jobs == [] && jobsLastFetched == None && jobsStatusFilter == "all"
      ensures logs == [] && logsLastFetched == None && logsStatusFilter == "all"
    {
      stats, statsLastFetched := None, None;
      users, usersLastFetched := [], None;
      jobs, jobsLastFetched, jobsStatusFilter := [], None, "all";
      logs, logsLastFetched, logsStatusFilter := [], None, "all";
    }
  }
}
