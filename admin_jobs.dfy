/**
 * The admin jobs page: a view over the admin store's cached jobs with a
 * local search box and a status select that starts at the store's
 * remembered filter and asks the store for jobs whenever it changes.
 */
module AdminJobs {
  import opened Common
  import opened AdminAccess
  import AdminStore

  /** The lower-cased name or owner email contains the lower-cased query. */
  predicate AdminJobMatches(job: AdminStore.AdminJob, query: string) {
    var q := Lower(query);
    Includes(Lower(job.name), q) || Includes(Lower(job.ownerEmail), q)
  }

  /** `filteredJobs` */
  function FilteredJobs(jobs: seq<AdminStore.AdminJob>, query: string): (r: seq<AdminStore.AdminJob>)
    ensures forall j :: j in r <==> j in jobs && AdminJobMatches(j, query)
    ensures forall j :: multiset(r)[j] == if AdminJobMatches(j, query) then multiset(jobs)[j] else 0
    ensures IsSubsequence(r, jobs)
  {
    FilterCounts(jobs, (j: AdminStore.AdminJob) => AdminJobMatches(j, query));
    Filter(jobs, (j: AdminStore.AdminJob) => AdminJobMatches(j, query))
  }

  /** An empty search box shows every cached job in order. */
  lemma EmptySearchKeepsAll(jobs: seq<AdminStore.AdminJob>)
    ensures FilteredJobs(jobs, "") == jobs
  {
    forall j | j in jobs ensures AdminJobMatches(j, "") {
      IncludesEmpty(Lower(j.name));
    }
    FilterKeepsAll(jobs, (j: AdminStore.AdminJob) => AdminJobMatches(j, ""));
  }

  /** The search ignores the case of the query. */
  lemma SearchIgnoresQueryCase(jobs: seq<AdminStore.AdminJob>, query: string)
    ensures FilteredJobs(jobs, Lower(query)) == FilteredJobs(jobs, query)
  {
    LowerIdempotent(query);
    FilterAgrees(jobs, (j: AdminStore.AdminJob) => AdminJobMatches(j, Lower(query)),
      (j: AdminStore.AdminJob) => AdminJobMatches(j, query));
  }

  /** What the page renders: a spinner, or the jobs left by the search. */
  datatype View = Spinner | List(jobs: seq<AdminStore.AdminJob>)

  /** What the page's effect did. */
  datatype Effect = Redirected | Waiting | Fetched(gate: AdminStore.Gate, status: Option<string>)

  class JobsView {
    var searchQuery: string
    var statusFilter: string

    /** The select starts at the filter the store remembers, so the first
        fetch does not count as a filter change. */
    constructor(store: AdminStore.Store)
      ensures statusFilter == store.jobsStatusFilter && searchQuery == ""
    {
      searchQuery := "";
      statusFilter := store.jobsStatusFilter;
    }

    /** The spinner while auth or the jobs are loading; otherwise the
        cached jobs the search box lets through, in the store's order. */
    function Render(authLoading: bool, store: AdminStore.Store): (v: View)
      reads this, store
      ensures v == Spinner <==> authLoading || store.jobsLoading
      ensures v.List? ==> IsSubsequence(v.jobs, store.jobs)
      ensures v.List? ==> forall j :: j in v.jobs <==> j in store.jobs && AdminJobMatches(j, searchQuery)
      ensures v.List? ==> v.jobs == FilteredJobs(store.jobs, searchQuery)
    {
      if authLoading || store.jobsLoading then Spinner else List(FilteredJobs(store.jobs, searchQuery))
    }

    /** The effect run on mount and on every change of the user, the auth
        loading flag or the select: an admin's run calls
        `fetchJobs(statusFilter)` without forcing, and the store's cache rule
        decides whether a request follows. */
    method Refresh(user: Option<UserRecord>, authLoading: bool, store: AdminStore.Store, now: int)
      returns (e: Effect)
      modifies store
      ensures AdminGuard(user, authLoading) == Redirect ==> e == Redirected && unchanged(store)
      ensures AdminGuard(user, authLoading) == Pending ==> e == Waiting && unchanged(store)
      ensures AdminGuard(user, authLoading) == Load ==> e.Fetched?
      ensures e.Fetched? ==> e.gate == AdminStore.Decide(false, statusFilter != old(store.jobsStatusFilter),
        |old(store.jobs)| > 0, old(store.jobsLastFetched), old(store.jobsLoading), now)
      ensures e.Fetched? && e.gate == AdminStore.Go ==>
        && e.status == AllAsNone(statusFilter)
        && store.State() == old(store.State()).(jobsLoading := true, jobsStatusFilter := statusFilter)
      ensures e.Fetched? && e.gate != AdminStore.Go ==> store.State() == old(store.State())
    {
      var access := AdminGuard(user, authLoading);
      if access == Redirect {
        return Redirected;
      }
      if access == Pending {
        return Waiting;
      }
      var gate, status := store.FetchJobs(statusFilter, false, now);
      e := Fetched(gate, status);
    }

    /** Choosing a status in the select records it and runs the effect again. */
    method ChangeStatusFilter(filter: string, user: Option<UserRecord>, authLoading: bool, store: AdminStore.Store, now: int)
      returns (e: Effect)
      modifies this, store
      ensures statusFilter == filter && searchQuery == old(searchQuery)
      ensures AdminGuard(user, authLoading) == Load ==> e.Fetched?
      ensures e.Fetched? ==> e.gate == AdminStore.Decide(false, filter != old(store.jobsStatusFilter),
        |old(store.jobs)| > 0, old(store.jobsLastFetched), old(store.jobsLoading), now)
      ensures e.Fetched? && e.gate == AdminStore.Go ==>
        && e.status == AllAsNone(filter)
        && store.State() == old(store.State()).(jobsLoading := true, jobsStatusFilter := filter)
      ensures !e.Fetched? || e.gate != AdminStore.Go ==> store.State() == old(store.State())
    {
      statusFilter := filter;
      e := Refresh(user, authLoading, store, now);
    }
  }

  /** A new filter always reaches the server unless a jobs fetch is in flight. */
  lemma NewFilterBypassesCache(filter: string, remembered: string, hasData: bool, lastFetched: Option<int>, loading: bool, now: int)
    requires filter != remembered
    ensures AdminStore.Decide(false, filter != remembered, hasData, lastFetched, loading, now) ==
      (if loading then AdminStore.InFlight else AdminStore.Go)
  {
    AdminStore.CacheBypass(false, true, hasData, lastFetched, loading, now);
  }
}
