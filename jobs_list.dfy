/**
 * The user's jobs list: pausing and resuming a job, deleting the job chosen
 * in the confirmation dialog, the case-insensitive search, and the query
 * parameters sent for the search box and the status select.
 */
module JobsList {
  import opened Common

  datatype Job = Job(id: string, name: string, schedule: string, url: Option<string>, isActive: bool)

  /** The page state the handlers change. */
  datatype Page = Page(jobs: seq<Job>, deleteDialogOpen: bool, jobToDelete: Option<Job>, isDeleting: bool)

  // ---------------------------------------------------------------------------
  // Query parameters

  /** `searchQuery || undefined` */
  function SearchParam(query: string): (p: Option<string>)
    ensures p.None? <==> query == ""
    ensures p.Some? ==> p.value == query
  {
    if query == "" then None else Some(query)
  }

  /** "all" sends nothing, "active" sends true, anything else false. */
  function IsActiveParam(statusFilter: string): (p: Option<bool>)
    ensures p.None? <==> statusFilter == "all"
    ensures p.Some? ==> (p.value <==> statusFilter == "active")
  {
    if statusFilter == "all" then None else Some(statusFilter == "active")
  }

  // ---------------------------------------------------------------------------
  // Toggle

  /** Flips `isActive` of the jobs with this id. */
  function FlipById(jobs: seq<Job>, id: string): (r: seq<Job>)
    ensures |r| == |jobs|
    ensures forall i :: 0 <= i < |jobs| && jobs[i].id == id ==> r[i] == jobs[i].(isActive := !jobs[i].isActive)
    ensures forall i :: 0 <= i < |jobs| && jobs[i].id != id ==> r[i] == jobs[i]
  {
    if jobs == [] then []
    else [if jobs[0].id == id then jobs[0].(isActive := !jobs[0].isActive) else jobs[0]] + FlipById(jobs[1..], id)
  }

  /** Toggling twice restores the list. */
  lemma FlipTwice(jobs: seq<Job>, id: string)
    ensures FlipById(FlipById(jobs, id), id) == jobs
  {
    var r := FlipById(FlipById(jobs, id), id);
    assert forall i :: 0 <= i < |jobs| ==> r[i] == jobs[i];
  }

  /** `handleToggleStatus`: the update asks for the opposite of the job's
      state; the list changes only when the update succeeded. */
  function ToggleStatus(jobs: seq<Job>, job: Job, updated: bool): (r: (bool, seq<Job>))
    ensures r.0 == !job.isActive
    ensures updated ==> r.1 == FlipById(jobs, job.id)
    ensures !updated ==> r.1 == jobs
  {
    (!job.isActive, if updated then FlipById(jobs, job.id) else jobs)
  }

  // ---------------------------------------------------------------------------
  // Delete

  /** `jobs.filter(j => j.id !== id)` */
  function RemoveJob(jobs: seq<Job>, id: string): (r: seq<Job>)
    ensures forall j :: j in r <==> j in jobs && j.id != id
    ensures forall j :: multiset(r)[j] == if j.id != id then multiset(jobs)[j] else 0
    ensures IsSubsequence(r, jobs)
    ensures |r| <= |jobs|
  {
    FilterCounts(jobs, (j: Job) => j.id != id);
    Filter(jobs, (j: Job) => j.id != id)
  }

  /** `handleDelete`: nothing without a chosen job; otherwise the job is
      removed when the delete succeeded, and the dialog is closed and
      cleared either way. */
  function HandleDelete(p: Page, deleted: bool): (r: Page)
    ensures p.jobToDelete.None? ==> r == p
    ensures p.jobToDelete.Some? ==> !r.deleteDialogOpen && r.jobToDelete.None? && !r.isDeleting
    ensures p.jobToDelete.Some? && deleted ==> r.jobs == RemoveJob(p.jobs, p.jobToDelete.value.id)
    ensures p.jobToDelete.Some? && !deleted ==> r.jobs == p.jobs
  {
    match p.jobToDelete
    case None => p
    case Some(job) =>
      Page(if deleted then RemoveJob(p.jobs, job.id) else p.jobs, false, None, false)
  }

  // ---------------------------------------------------------------------------
  // Search

  predicate JobMatches(job: Job, query: string) {
    var q := Lower(query);
    Includes(Lower(job.name), q) || Includes(Lower(job.schedule), q)
    || (job.url.Some? && Includes(Lower(job.url.value), q))
  }

  /** `filteredJobs`: everything for an empty query; otherwise the jobs
      whose name, schedule or URL contains the query, ignoring case. */
  function FilteredJobs(jobs: seq<Job>, query: string): (r: seq<Job>)
    ensures query == "" ==> r == jobs
    ensures query != "" ==> forall j :: j in r <==> j in jobs && JobMatches(j, query)
    ensures query != "" ==> forall j :: multiset(r)[j] == if JobMatches(j, query) then multiset(jobs)[j] else 0
    ensures IsSubsequence(r, jobs)
  {
    if query == "" then
      assert IsSubsequence(jobs, jobs) by { SubsequenceRefl(jobs); }
      jobs
    else
      FilterCounts(jobs, (j: Job) => JobMatches(j, query));
      Filter(jobs, (j: Job) => JobMatches(j, query))
  }

  /** The search ignores the case of the query. */
  lemma SearchIgnoresQueryCase(jobs: seq<Job>, query: string)
    requires query != ""
    ensures FilteredJobs(jobs, Lower(query)) == FilteredJobs(jobs, query)
  {
    LowerIdempotent(query);
    assert Lower(query) != [] by { assert |Lower(query)| == |query|; }
    FilterAgrees(jobs, (j: Job) => JobMatches(j, Lower(query)), (j: Job) => JobMatches(j, query));
  }
}
