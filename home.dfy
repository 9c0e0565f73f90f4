/** The client's home page: the search, type and status filters over the
    fetched job list, the open/expired counts, and the local removal of a
    deleted job. */
module Home {
  import opened Base
  import opened Text
  import opened JobModel

  /** `s.filter(keep)`. */
  function Filter<T(!new)>(s: seq<T>, keep: T -> bool): (r: seq<T>)
    ensures |r| <= |s|
    ensures forall x :: x in r <==> x in s && keep(x)
  {
    if s == [] then []
    else (if keep(s[0]) then [s[0]] else []) + Filter(s[1..], keep)
  }

  /** `a` is `b` with some elements left out, the rest in their order. */
  ghost predicate IsSubsequence<T(!new)>(a: seq<T>, b: seq<T>)
    decreases |b|
  {
    if a == [] then true
    else if b == [] then false
    else (a[0] == b[0] && IsSubsequence(a[1..], b[1..])) || IsSubsequence(a, b[1..])
  }

  lemma {:induction false} FilterIsSubsequence<T(!new)>(s: seq<T>, keep: T -> bool)
    ensures IsSubsequence(Filter(s, keep), s)
  {
    if s != [] {
      FilterIsSubsequence(s[1..], keep);
      if keep(s[0]) {
        assert Filter(s, keep) == [s[0]] + Filter(s[1..], keep);
        assert Filter(s, keep)[1..] == Filter(s[1..], keep);
      } else if Filter(s, keep) != [] {
        assert Filter(s, keep) == Filter(s[1..], keep);
      }
    }
  }

  /** Two filters in a row are one filter on the conjunction. */
  lemma {:induction false} FilterFusion<T(!new)>(s: seq<T>, p: T -> bool, q: T -> bool, both: T -> bool)
    requires forall x :: both(x) == (p(x) && q(x))
    ensures Filter(Filter(s, p), q) == Filter(s, both)
  {
    if s != [] {
      FilterFusion(s[1..], p, q, both);
      if p(s[0]) {
        assert Filter(s, p) == [s[0]] + Filter(s[1..], p);
        assert Filter(s, p)[1..] == Filter(s[1..], p);
      } else {
        assert Filter(s, p) == Filter(s[1..], p);
      }
    }
  }

  /** A filter whose condition holds of every element keeps the list as is. */
  lemma {:induction false} FilterKeepsAll<T(!new)>(s: seq<T>, keep: T -> bool)
    requires forall x :: x in s ==> keep(x)
    ensures Filter(s, keep) == s
  {
    if s != [] {
      assert forall x :: x in s[1..] ==> x in s;
      FilterKeepsAll(s[1..], keep);
    }
  }

  /** A filter is idempotent. */
  lemma FilterIdempotent<T(!new)>(s: seq<T>, keep: T -> bool)
    ensures Filter(Filter(s, keep), keep) == Filter(s, keep)
  {
    FilterKeepsAll(Filter(s, keep), keep);
  }

  /** A condition and its negation split a list: the two filtered lists
      together are as long as the list. */
  lemma {:induction false} FilterPartition<T(!new)>(s: seq<T>, p: T -> bool, q: T -> bool)
    requires forall x :: q(x) == !p(x)
    ensures |Filter(s, p)| + |Filter(s, q)| == |s|
  {
    if s != [] {
      FilterPartition(s[1..], p, q);
    }
  }

  /** The search box: the lower-cased term occurs in the lower-cased title,
      company or location. */
  predicate MatchesSearch(job: Job, term: string) {
    || Includes(Lower(job.title), Lower(term))
    || Includes(Lower(job.company), Lower(term))
    || Includes(Lower(job.location), Lower(term))
  }

  /** The type selector. */
  predicate MatchesType(job: Job, jobType: string) {
    job.jobType == jobType
  }

  /** The status selector: "open" keeps jobs not past their deadline, any
      other value (the page offers "expired") keeps the ones past it. */
  predicate MatchesStatus(job: Job, status: string, now: int) {
    var expired := now > job.registrationDeadline;
    if status == "open" then !expired else expired
  }

  function SearchFilter(jobs: seq<Job>, term: string): seq<Job> {
    Filter(jobs, (j: Job) => MatchesSearch(j, term))
  }

  function TypeFilter(jobs: seq<Job>, jobType: string): seq<Job> {
    Filter(jobs, (j: Job) => MatchesType(j, jobType))
  }

  function StatusFilter(jobs: seq<Job>, status: string, now: int): seq<Job> {
    Filter(jobs, (j: Job) => MatchesStatus(j, status, now))
  }

  /** The filter effect: the three filters in turn, each skipped while its
      control is at its neutral value ("", "all", "all"). */
  function Visible(jobs: seq<Job>, term: string, jobType: string, status: string, now: int): seq<Job> {
    var searched := if term != "" then SearchFilter(jobs, term) else jobs;
    var typed := if jobType != "all" then TypeFilter(searched, jobType) else searched;
    if status != "all" then StatusFilter(typed, status, now) else typed
  }

  /** Whether a job passes all three controls. */
  predicate Shown(job: Job, term: string, jobType: string, status: string, now: int) {
    && (term == "" || MatchesSearch(job, term))
    && (jobType == "all" || MatchesType(job, jobType))
    && (status == "all" || MatchesStatus(job, status, now))
  }

  /** The chain of filters is one filter on `Shown`. */
  lemma VisibleIsOneFilter(jobs: seq<Job>, term: string, jobType: string, status: string, now: int)
    ensures Visible(jobs, term, jobType, status, now) == Filter(jobs, (j: Job) => Shown(j, term, jobType, status, now))
  {
    var s1 := (j: Job) => term == "" || MatchesSearch(j, term);
    var s12 := (j: Job) => (term == "" || MatchesSearch(j, term)) && (jobType == "all" || MatchesType(j, jobType));
    var all := (j: Job) => Shown(j, term, jobType, status, now);
    var searched := if term != "" then SearchFilter(jobs, term) else jobs;
    assert searched == Filter(jobs, s1) by {
      if term != "" {
        FilterFusion(jobs, s1, (j: Job) => MatchesSearch(j, term), (j: Job) => MatchesSearch(j, term));
        FilterFusion(jobs, (j: Job) => MatchesSearch(j, term), s1, (j: Job) => MatchesSearch(j, term));
        FilterKeepsAll(Filter(jobs, (j: Job) => MatchesSearch(j, term)), s1);
        FilterKeepsAll(Filter(jobs, s1), (j: Job) => MatchesSearch(j, term));
      } else {
        FilterKeepsAll(jobs, s1);
      }
    }
    var typed := if jobType != "all" then TypeFilter(searched, jobType) else searched;
    assert typed == Filter(jobs, s12) by {
      if jobType != "all" {
        FilterFusion(jobs, s1, (j: Job) => MatchesType(j, jobType), s12);
      } else {
        FilterFusion(jobs, s1, (j: Job) => true, s12);
        FilterKeepsAll(Filter(jobs, s1), (j: Job) => true);
      }
    }
    if status != "all" {
      FilterFusion(jobs, s12, (j: Job) => MatchesStatus(j, status, now), all);
    } else {
      FilterFusion(jobs, s12, (j: Job) => true, all);
      FilterKeepsAll(Filter(jobs, s12), (j: Job) => true);
    }
  }

  /** The shown list keeps the fetched order and drops only jobs; a job is
      shown exactly when it passes all three controls. */
  lemma VisibleSubsequence(jobs: seq<Job>, term: string, jobType: string, status: string, now: int)
    ensures IsSubsequence(Visible(jobs, term, jobType, status, now), jobs)
    ensures forall j :: j in Visible(jobs, term, jobType, status, now) <==> j in jobs && Shown(j, term, jobType, status, now)
  {
    VisibleIsOneFilter(jobs, term, jobType, status, now);
    FilterIsSubsequence(jobs, (j: Job) => Shown(j, term, jobType, status, now));
  }

  /** With the controls at rest the whole list is shown. */
  lemma NeutralControlsShowAll(jobs: seq<Job>, now: int)
    ensures Visible(jobs, "", "all", "all", now) == jobs
  {
  }

  /** The "open" and "expired" views split the list between them. */
  lemma StatusViewsPartition(jobs: seq<Job>, now: int)
    ensures |Visible(jobs, "", "all", "open", now)| + |Visible(jobs, "", "all", "expired", now)| == |jobs|
  {
    FilterPartition(jobs, (j: Job) => MatchesStatus(j, "open", now), (j: Job) => MatchesStatus(j, "expired", now));
  }

  /** The counters at the top of the page. */
  datatype Stats = Stats(total: nat, open: nat, expired: nat)

  function JobStats(jobs: seq<Job>, now: int): (st: Stats)
    ensures st.total == |jobs|
    ensures st.open + st.expired == st.total
    ensures st.open == |Visible(jobs, "", "all", "open", now)|
  {
    var open := Filter(jobs, (j: Job) => now <= j.registrationDeadline);
    var expired := Filter(jobs, (j: Job) => now > j.registrationDeadline);
    FilterPartition(jobs, (j: Job) => now <= j.registrationDeadline, (j: Job) => now > j.registrationDeadline);
    assert open == Visible(jobs, "", "all", "open", now) by {
      FilterFusion(jobs, (j: Job) => now <= j.registrationDeadline, (j: Job) => true, (j: Job) => MatchesStatus(j, "open", now));
      FilterKeepsAll(open, (j: Job) => true);
    }
    Stats(|jobs|, |open|, |expired|)
  }

  /** The list after a delete: `jobs.filter(job => job._id !== id)`. */
  function WithoutJob(jobs: seq<Job>, id: JobId): (r: seq<Job>)
    ensures forall j :: j in r <==> j in jobs && j.id != id
    ensures IsSubsequence(r, jobs)
  {
    FilterIsSubsequence(jobs, (j: Job) => j.id != id);
    Filter(jobs, (j: Job) => j.id != id)
  }

  /** What a fetch of the job list produced. */
  datatype Fetched = JobList(jobs: seq<Job>) | NotAList | FetchError

  /** The page's state: the fetched list, the shown list, and the controls. */
  class HomePage {
    var jobs: seq<Job>
    var filteredJobs: seq<Job>
    var searchTerm: string
    var filterType: string
    var filterStatus: string
    var error: string

    constructor ()
      ensures jobs == [] && filteredJobs == [] && error == ""
      ensures searchTerm == "" && filterType == "all" && filterStatus == "all"
    {
      jobs, filteredJobs, error := [], [], "";
      searchTerm, filterType, filterStatus := "", "all", "all";
    }

    /** `fetchJobs`: a list replaces both lists, anything else empties
        them, and a failed request only sets the error. */
    method FetchJobs(result: Fetched)
      modifies this`jobs, this`filteredJobs, this`error
      ensures result.JobList? ==> jobs == result.jobs && filteredJobs == result.jobs && error == old(error)
      ensures result.NotAList? ==> jobs == [] && filteredJobs == [] && error == old(error)
      ensures result.FetchError? ==>
        jobs == old(jobs) && filteredJobs == old(filteredJobs) && error == "Failed to load jobs"
    {
      match result
      case JobList(data) =>
        jobs := data;
        filteredJobs := data;
      case NotAList =>
        jobs := [];
        filteredJobs := [];
      case FetchError =>
        error := "Failed to load jobs";
    }

    /** The filter effect, run whenever the list or a control changes. */
    method RefreshFilter(now: int)
      modifies this`filteredJobs
      ensures filteredJobs == Visible(jobs, searchTerm, filterType, filterStatus, now)
    {
      var filtered := jobs;
      if searchTerm != "" {
        filtered := SearchFilter(filtered, searchTerm);
      }
      if filterType != "all" {
        filtered := TypeFilter(filtered, filterType);
      }
      if filterStatus != "all" {
        filtered := StatusFilter(filtered, filterStatus, now);
      }
      filteredJobs := filtered;
    }

    /** `handleDelete(id)`: once the user confirmed and the server deleted
        the job, the local list drops it; otherwise nothing changes. */
    method HandleDelete(id: JobId, confirmed: bool, deleted: bool)
      modifies this`jobs
      ensures jobs == if confirmed && deleted then WithoutJob(old(jobs), id) else old(jobs)
    {
      if !confirmed {
        return;
      }
      if deleted {
        jobs := WithoutJob(jobs, id);
      }
    }
  }
}
