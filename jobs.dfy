/** The job endpoints of the backend: the job-list pipeline (statistics and
    function names over every fetched job, six optional filters, the null-aware
    stable sort, and one page of the result) and the three handlers that turn
    a service answer into an HTTP error. The service's answers (the fetched
    jobs, the job looked up, whether an abort succeeded) are parameters. */
module JobsEndpoint {
  import opened Wrappers
  import opened Seqs
  import opened SortKeys
  import opened JobSchema
  import opened JobSort

  /** The bounds FastAPI enforces on `limit` before the handler runs. */
  const MinLimit: int := 1
  const MaxLimit: int := 500

  /** The query parameters of `GET /jobs`; an absent parameter is `None`. */
  datatype Query = Query(
    limit: int,
    offset: int,
    sortBy: SortField,
    sortOrder: SortOrder,
    statuses: seq<JobStatus>,
    success: Option<bool>,
    functionName: Option<string>,
    search: Option<string>,
    startTime: Option<int>,
    finishTime: Option<int>)

  /** `str(job)` and `str.lower()`, which the search filter applies; both are
      library behaviour outside this model. */
  datatype SearchText = SearchText(render: Job -> string, lower: string -> string)

  datatype Statistics = Statistics(total: nat, inProgress: nat, completed: nat, queued: nat, failed: nat)

  datatype Paged = Paged(items: seq<Job>, count: nat, limit: int, offset: int)

  /** The reply of `GET /jobs`; the order of `functions` is unspecified, so it is a set. */
  datatype JobsInfo = JobsInfo(functions: set<string>, statistics: Statistics, pagedJobs: Paged)

  datatype HttpError = HttpError(statusCode: int, detail: string)

  /** The body of `POST /jobs`; only the function name is used. */
  datatype JobCreate = JobCreate(functionName: string)

  // ---------------------------------------------------------------------------
  // Summary over the unfiltered list

  /** `{job.function for job in jobs}`. */
  function FunctionNames(jobs: seq<Job>): (r: set<string>)
    ensures forall j :: j in jobs ==> j.functionName in r
    ensures forall f :: f in r ==> exists j :: j in jobs && j.functionName == f
  {
    set j | j in jobs :: j.functionName
  }

  /** There are never more distinct function names than jobs. */
  lemma {:induction false} FunctionNamesBound(jobs: seq<Job>)
    ensures |FunctionNames(jobs)| <= |jobs|
  {
    if jobs != [] {
      FunctionNamesBound(jobs[1..]);
      assert jobs == [jobs[0]] + jobs[1..];
      assert FunctionNames(jobs) == {jobs[0].functionName} + FunctionNames(jobs[1..]);
    }
  }

  function CountStatus(jobs: seq<Job>, s: JobStatus): nat
  {
    |Filter(jobs, (j: Job) => j.status == s)|
  }

  /** A complete job whose `success` is `False` (not merely absent). */
  predicate IsFailed(j: Job)
  {
    j.status == Complete && j.success == Some(false)
  }

  function CountFailed(jobs: seq<Job>): nat
  {
    |Filter(jobs, (j: Job) => IsFailed(j))|
  }

  /** Every job has exactly one of the four statuses. */
  lemma {:induction false} StatusCountsPartition(jobs: seq<Job>)
    ensures CountStatus(jobs, InProgress) + CountStatus(jobs, Complete) + CountStatus(jobs, Queued)
            + CountStatus(jobs, Deferred) == |jobs|
  {
    if jobs != [] {
      StatusCountsPartition(jobs[1..]);
    }
  }

  /** The `Statistics` of the fetched jobs. */
  function ComputeStatistics(jobs: seq<Job>): (st: Statistics)
    ensures st.total == |jobs|
    ensures st.failed <= st.completed
    ensures st.inProgress + st.completed + st.queued <= st.total
    ensures st.total - (st.inProgress + st.completed + st.queued) == CountStatus(jobs, Deferred)
  {
    FilterMonotone(jobs, (j: Job) => IsFailed(j), (j: Job) => j.status == Complete);
    StatusCountsPartition(jobs);
    Statistics(
      total := |jobs|,
      inProgress := CountStatus(jobs, InProgress),
      completed := CountStatus(jobs, Complete),
      queued := CountStatus(jobs, Queued),
      failed := CountFailed(jobs))
  }

  /** No jobs, no counts. */
  lemma StatisticsOfNone()
    ensures ComputeStatistics([]) == Statistics(0, 0, 0, 0, 0)
  {
  }

  /** One more job adds one to `total`, one to the count of its own status
      (a deferred job has none), and one to `failed` exactly when it is
      complete with `success` false. */
  lemma StatisticsCons(x: Job, jobs: seq<Job>)
    ensures var before, after := ComputeStatistics(jobs), ComputeStatistics([x] + jobs);
      && after.total == before.total + 1
      && after.inProgress == before.inProgress + (if x.status == InProgress then 1 else 0)
      && after.completed == before.completed + (if x.status == Complete then 1 else 0)
      && after.queued == before.queued + (if x.status == Queued then 1 else 0)
      && after.failed == before.failed + (if x.status == Complete && x.success == Some(false) then 1 else 0)
  {
    assert ([x] + jobs)[0] == x;
    assert ([x] + jobs)[1..] == jobs;
  }

  // ---------------------------------------------------------------------------
  // The filters, applied in this order

  predicate KeepFromStart(t: int, j: Job)
  {
    j.enqueueTime >= t && (j.startTime.None? || j.startTime.value >= t)
  }

  predicate KeepUntilFinish(t: int, j: Job)
  {
    j.enqueueTime <= t && (j.finishTime.None? || j.finishTime.value <= t)
  }

  /** Python's truth value of a `str | None`. */
  predicate Truthy(o: Option<string>)
  {
    o.Some? && o.value != ""
  }

  /** Python's `needle in hay` on strings. */
  predicate Contains(hay: string, needle: string)
  {
    (|needle| <= |hay| && hay[..|needle|] == needle) || (|hay| > 0 && Contains(hay[1..], needle))
  }

  /** `needle` occurs in `hay` starting at index `i`. */
  predicate OccursAt(hay: string, needle: string, i: int)
  {
    0 <= i && i + |needle| <= |hay| && hay[i..i + |needle|] == needle
  }

  /** `Contains` is the substring test: `needle` occurs somewhere in `hay`. */
  lemma {:induction false} ContainsIffOccurs(hay: string, needle: string)
    ensures Contains(hay, needle) <==> exists i :: OccursAt(hay, needle, i)
  {
    if |needle| <= |hay| && hay[..|needle|] == needle {
      assert OccursAt(hay, needle, 0);
    }
    if |hay| > 0 {
      var tail := hay[1..];
      ContainsIffOccurs(tail, needle);
      if Contains(tail, needle) {
        var i :| OccursAt(tail, needle, i);
        assert hay[i + 1..i + 1 + |needle|] == tail[i..i + |needle|];
        assert OccursAt(hay, needle, i + 1);
      }
      if exists i :: OccursAt(hay, needle, i) {
        var i :| OccursAt(hay, needle, i);
        if i > 0 {
          assert tail[i - 1..i - 1 + |needle|] == hay[i..i + |needle|];
          assert OccursAt(tail, needle, i - 1);
        }
      }
    }
  }

  predicate MatchesSearch(text: SearchText, search: string, j: Job)
  {
    Contains(text.lower(text.render(j)), text.lower(search))
  }

  function FilterByStartTime(jobs: seq<Job>, t: Option<int>): (r: seq<Job>)
    ensures t.None? ==> r == jobs
    ensures t.Some? ==> forall j :: j in r <==>
      j in jobs && j.enqueueTime >= t.value && (j.startTime.None? || j.startTime.value >= t.value)
    ensures IsSubseq(r, jobs)
  {
    match t
    case None => IsSubseqReflexive(jobs); jobs
    case Some(t0) =>
      FilterIsSubseq(jobs, (j: Job) => KeepFromStart(t0, j));
      Filter(jobs, (j: Job) => KeepFromStart(t0, j))
  }

  function FilterByFinishTime(jobs: seq<Job>, t: Option<int>): (r: seq<Job>)
    ensures t.None? ==> r == jobs
    ensures t.Some? ==> forall j :: j in r <==>
      j in jobs && j.enqueueTime <= t.value && (j.finishTime.None? || j.finishTime.value <= t.value)
    ensures IsSubseq(r, jobs)
  {
    match t
    case None => IsSubseqReflexive(jobs); jobs
    case Some(t0) =>
      FilterIsSubseq(jobs, (j: Job) => KeepUntilFinish(t0, j));
      Filter(jobs, (j: Job) => KeepUntilFinish(t0, j))
  }

  function FilterByStatuses(jobs: seq<Job>, statuses: seq<JobStatus>): (r: seq<Job>)
    ensures |statuses| == 0 ==> r == jobs
    ensures |statuses| > 0 ==> forall j :: j in r <==> j in jobs && j.status in statuses
    ensures IsSubseq(r, jobs)
  {
    if |statuses| > 0 then
      FilterIsSubseq(jobs, (j: Job) => j.status in statuses);
      Filter(jobs, (j: Job) => j.status in statuses)
    else
      IsSubseqReflexive(jobs);
      jobs
  }

  function FilterBySuccess(jobs: seq<Job>, success: Option<bool>): (r: seq<Job>)
    ensures success.None? ==> r == jobs
    ensures success.Some? ==> forall j :: j in r <==> j in jobs && j.success == success
    ensures IsSubseq(r, jobs)
  {
    match success
    case None => IsSubseqReflexive(jobs); jobs
    case Some(b) =>
      FilterIsSubseq(jobs, (j: Job) => j.success == Some(b));
      Filter(jobs, (j: Job) => j.success == Some(b))
  }

  function FilterByFunction(jobs: seq<Job>, name: Option<string>): (r: seq<Job>)
    ensures !Truthy(name) ==> r == jobs
    ensures Truthy(name) ==> forall j :: j in r <==> j in jobs && j.functionName == name.value
    ensures IsSubseq(r, jobs)
  {
    if Truthy(name) then
      FilterIsSubseq(jobs, (j: Job) => j.functionName == name.value);
      Filter(jobs, (j: Job) => j.functionName == name.value)
    else
      IsSubseqReflexive(jobs);
      jobs
  }

  function FilterBySearch(jobs: seq<Job>, search: Option<string>, text: SearchText): (r: seq<Job>)
    ensures !Truthy(search) ==> r == jobs
    ensures Truthy(search) ==> forall j :: j in r <==> j in jobs && MatchesSearch(text, search.value, j)
    ensures IsSubseq(r, jobs)
  {
    if Truthy(search) then
      FilterIsSubseq(jobs, (j: Job) => MatchesSearch(text, search.value, j));
      Filter(jobs, (j: Job) => MatchesSearch(text, search.value, j))
    else
      IsSubseqReflexive(jobs);
      jobs
  }

  // Each filter keeps every copy of a job it accepts and drops every copy of
  // one it rejects.

  lemma StartTimeCopies(jobs: seq<Job>, t: Option<int>, j: Job)
    ensures multiset(FilterByStartTime(jobs, t))[j]
            == if t.None? || KeepFromStart(t.value, j) then multiset(jobs)[j] else 0
  {
    if t.Some? { FilterCount(jobs, (x: Job) => KeepFromStart(t.value, x), j); }
  }

  lemma FinishTimeCopies(jobs: seq<Job>, t: Option<int>, j: Job)
    ensures multiset(FilterByFinishTime(jobs, t))[j]
            == if t.None? || KeepUntilFinish(t.value, j) then multiset(jobs)[j] else 0
  {
    if t.Some? { FilterCount(jobs, (x: Job) => KeepUntilFinish(t.value, x), j); }
  }

  lemma StatusesCopies(jobs: seq<Job>, statuses: seq<JobStatus>, j: Job)
    ensures multiset(FilterByStatuses(jobs, statuses))[j]
            == if |statuses| == 0 || j.status in statuses then multiset(jobs)[j] else 0
  {
    if |statuses| > 0 { FilterCount(jobs, (x: Job) => x.status in statuses, j); }
  }

  lemma SuccessCopies(jobs: seq<Job>, success: Option<bool>, j: Job)
    ensures multiset(FilterBySuccess(jobs, success))[j]
            == if success.None? || j.success == success then multiset(jobs)[j] else 0
  {
    if success.Some? { FilterCount(jobs, (x: Job) => x.success == Some(success.value), j); }
  }

  lemma FunctionCopies(jobs: seq<Job>, name: Option<string>, j: Job)
    ensures multiset(FilterByFunction(jobs, name))[j]
            == if !Truthy(name) || j.functionName == name.value then multiset(jobs)[j] else 0
  {
    if Truthy(name) { FilterCount(jobs, (x: Job) => x.functionName == name.value, j); }
  }

  lemma SearchCopies(jobs: seq<Job>, search: Option<string>, text: SearchText, j: Job)
    ensures multiset(FilterBySearch(jobs, search, text))[j]
            == if !Truthy(search) || MatchesSearch(text, search.value, j) then multiset(jobs)[j] else 0
  {
    if Truthy(search) { FilterCount(jobs, (x: Job) => MatchesSearch(text, search.value, x), j); }
  }

  /** The six filters one after the other, as the handler applies them. */
  function ApplyFilters(jobs: seq<Job>, q: Query, text: SearchText): seq<Job>
  {
    var s1 := FilterByStartTime(jobs, q.startTime);
    var s2 := FilterByFinishTime(s1, q.finishTime);
    var s3 := FilterByStatuses(s2, q.statuses);
    var s4 := FilterBySuccess(s3, q.success);
    var s5 := FilterByFunction(s4, q.functionName);
    FilterBySearch(s5, q.search, text)
  }

  /** A job survives the filters: every active filter accepts it. */
  predicate Admits(q: Query, text: SearchText, j: Job)
  {
    && (q.startTime.Some? ==> KeepFromStart(q.startTime.value, j))
    && (q.finishTime.Some? ==> KeepUntilFinish(q.finishTime.value, j))
    && (|q.statuses| > 0 ==> j.status in q.statuses)
    && (q.success.Some? ==> j.success == q.success)
    && (Truthy(q.functionName) ==> j.functionName == q.functionName.value)
    && (Truthy(q.search) ==> MatchesSearch(text, q.search.value, j))
  }

  /** The jobs that every active filter accepts, in their fetched order. */
  function Admitted(jobs: seq<Job>, q: Query, text: SearchText): seq<Job>
  {
    Filter(jobs, (j: Job) => Admits(q, text, j))
  }

  lemma StartTimeConcat(a: seq<Job>, b: seq<Job>, t: Option<int>)
    ensures FilterByStartTime(a + b, t) == FilterByStartTime(a, t) + FilterByStartTime(b, t)
  {
    if t.Some? { FilterConcat(a, b, (j: Job) => KeepFromStart(t.value, j)); }
  }

  lemma FinishTimeConcat(a: seq<Job>, b: seq<Job>, t: Option<int>)
    ensures FilterByFinishTime(a + b, t) == FilterByFinishTime(a, t) + FilterByFinishTime(b, t)
  {
    if t.Some? { FilterConcat(a, b, (j: Job) => KeepUntilFinish(t.value, j)); }
  }

  lemma StatusesConcat(a: seq<Job>, b: seq<Job>, statuses: seq<JobStatus>)
    ensures FilterByStatuses(a + b, statuses) == FilterByStatuses(a, statuses) + FilterByStatuses(b, statuses)
  {
    if |statuses| > 0 { FilterConcat(a, b, (j: Job) => j.status in statuses); }
  }

  lemma SuccessConcat(a: seq<Job>, b: seq<Job>, success: Option<bool>)
    ensures FilterBySuccess(a + b, success) == FilterBySuccess(a, success) + FilterBySuccess(b, success)
  {
    if success.Some? { FilterConcat(a, b, (j: Job) => j.success == Some(success.value)); }
  }

  lemma FunctionConcat(a: seq<Job>, b: seq<Job>, name: Option<string>)
    ensures FilterByFunction(a + b, name) == FilterByFunction(a, name) + FilterByFunction(b, name)
  {
    if Truthy(name) { FilterConcat(a, b, (j: Job) => j.functionName == name.value); }
  }

  lemma SearchConcat(a: seq<Job>, b: seq<Job>, search: Option<string>, text: SearchText)
    ensures FilterBySearch(a + b, search, text) == FilterBySearch(a, search, text) + FilterBySearch(b, search, text)
  {
    if Truthy(search) { FilterConcat(a, b, (j: Job) => MatchesSearch(text, search.value, j)); }
  }

  lemma ApplyFiltersConcat(a: seq<Job>, b: seq<Job>, q: Query, text: SearchText)
    ensures ApplyFilters(a + b, q, text) == ApplyFilters(a, q, text) + ApplyFilters(b, q, text)
  {
    var a1, b1 := FilterByStartTime(a, q.startTime), FilterByStartTime(b, q.startTime);
    StartTimeConcat(a, b, q.startTime);
    var a2, b2 := FilterByFinishTime(a1, q.finishTime), FilterByFinishTime(b1, q.finishTime);
    FinishTimeConcat(a1, b1, q.finishTime);
    var a3, b3 := FilterByStatuses(a2, q.statuses), FilterByStatuses(b2, q.statuses);
    StatusesConcat(a2, b2, q.statuses);
    var a4, b4 := FilterBySuccess(a3, q.success), FilterBySuccess(b3, q.success);
    SuccessConcat(a3, b3, q.success);
    var a5, b5 := FilterByFunction(a4, q.functionName), FilterByFunction(b4, q.functionName);
    FunctionConcat(a4, b4, q.functionName);
    SearchConcat(a5, b5, q.search, text);
  }

  lemma ApplyFiltersSingleton(x: Job, q: Query, text: SearchText)
    ensures ApplyFilters([x], q, text) == if Admits(q, text, x) then [x] else []
  {
    var s1 := FilterByStartTime([x], q.startTime);
    SubseqOfSingleton(s1, x);
    var s2 := FilterByFinishTime(s1, q.finishTime);
    SubseqOfSingleton(s2, x);
    var s3 := FilterByStatuses(s2, q.statuses);
    SubseqOfSingleton(s3, x);
    var s4 := FilterBySuccess(s3, q.success);
    SubseqOfSingleton(s4, x);
    var s5 := FilterByFunction(s4, q.functionName);
    SubseqOfSingleton(s5, x);
    var s6 := FilterBySearch(s5, q.search, text);
    SubseqOfSingleton(s6, x);
  }

  /** The chain of filters keeps exactly the jobs that pass every active
      filter, in their original order; an inactive filter keeps everything. */
  lemma {:induction false} ApplyFiltersIsConjunction(jobs: seq<Job>, q: Query, text: SearchText)
    ensures ApplyFilters(jobs, q, text) == Admitted(jobs, q, text)
  {
    if jobs != [] {
      ApplyFiltersIsConjunction(jobs[1..], q, text);
      assert jobs == [jobs[0]] + jobs[1..];
      ApplyFiltersConcat([jobs[0]], jobs[1..], q, text);
      ApplyFiltersSingleton(jobs[0], q, text);
      FilterConcat([jobs[0]], jobs[1..], (j: Job) => Admits(q, text, j));
      FilterSingleton(jobs[0], (j: Job) => Admits(q, text, j));
    }
  }

  // ---------------------------------------------------------------------------
  // Paging and the whole handler

  /** `jobs[offset : offset + limit]`. */
  function Page(sorted: seq<Job>, offset: int, limit: int): seq<Job>
  {
    PySlice(sorted, offset, offset + limit)
  }

  /** For a non-negative offset the page holds `min(limit, max(0, count - offset))` jobs. */
  lemma PageLength(sorted: seq<Job>, offset: int, limit: int)
    requires offset >= 0 && limit >= 0
    ensures var available := if |sorted| - offset > 0 then |sorted| - offset else 0;
            |Page(sorted, offset, limit)| == if limit < available then limit else available
  {
    PySliceNonNegative(sorted, offset, offset + limit);
  }

  /** A page of a sorted list is sorted and holds only jobs of that list. */
  lemma PageOfSorted(sorted: seq<Job>, offset: int, limit: int, key: Job -> Option<Key>, o: SortOrder)
    requires limit >= 0 && SortedBy(sorted, key, o)
    ensures SortedBy(Page(sorted, offset, limit), key, o)
    ensures multiset(Page(sorted, offset, limit)) <= multiset(sorted)
  {
    var a := SliceIndex(offset, |sorted|);
    var b := SliceIndex(offset + limit, |sorted|);
    if a <= b {
      SliceSorted(sorted, a, b, key, o);
      assert sorted == sorted[..a] + sorted[a..b] + sorted[b..];
    }
  }

  /** `GET /jobs`. The page is cut from the sorted list of the jobs that pass
      every active filter, and `count` is the length of that list. */
  function GetAll(jobs: seq<Job>, q: Query, text: SearchText): (r: JobsInfo)
    requires MinLimit <= q.limit <= MaxLimit
    ensures r.functions == FunctionNames(jobs)
    ensures r.statistics == ComputeStatistics(jobs)
    ensures r.pagedJobs.count == |Admitted(jobs, q, text)|
    ensures r.pagedJobs.items == Page(SortJobs(Admitted(jobs, q, text), FieldKey(q.sortBy), q.sortOrder), q.offset, q.limit)
    ensures r.pagedJobs.limit == q.limit && r.pagedJobs.offset == q.offset
  {
    var functions := FunctionNames(jobs);
    var statistics := ComputeStatistics(jobs);
    var filtered := ApplyFilters(jobs, q, text);
    var sorted := SortJobs(filtered, FieldKey(q.sortBy), q.sortOrder);
    ApplyFiltersIsConjunction(jobs, q, text);
    JobsInfo(functions, statistics, Paged(Page(sorted, q.offset, q.limit), |filtered|, q.limit, q.offset))
  }

  /** The query a request without parameters makes: the first 50 jobs,
      newest enqueued first, no filter. */
  const DefaultQuery := Query(
    limit := 50, offset := 0, sortBy := ByEnqueueTime, sortOrder := Desc, statuses := [],
    success := None, functionName := None, search := None, startTime := None, finishTime := None)

  /** Without parameters every fetched job is counted, and the page holds the
      first 50 of them in descending order of enqueue time. */
  lemma DefaultQueryListsAll(jobs: seq<Job>, text: SearchText)
    ensures MinLimit <= DefaultQuery.limit <= MaxLimit
    ensures GetAll(jobs, DefaultQuery, text).pagedJobs.count == |jobs|
    ensures GetAll(jobs, DefaultQuery, text).pagedJobs.items == Page(SortJobs(jobs, FieldKey(ByEnqueueTime), Desc), 0, 50)
  {
    ApplyFiltersIsConjunction(jobs, DefaultQuery, text);
  }

  /** The page never holds more than `limit` jobs, holds
      `min(limit, max(0, count - offset))` of them for a non-negative offset,
      is in the requested order, and holds only fetched jobs that pass every
      active filter. */
  lemma GetAllPage(jobs: seq<Job>, q: Query, text: SearchText)
    requires MinLimit <= q.limit <= MaxLimit
    ensures var p := GetAll(jobs, q, text).pagedJobs;
      && |p.items| <= q.limit
      && (q.offset >= 0 ==>
            var available := if p.count - q.offset > 0 then p.count - q.offset else 0;
            |p.items| == if q.limit < available then q.limit else available)
      && SortedBy(p.items, FieldKey(q.sortBy), q.sortOrder)
      && forall j :: j in p.items ==> j in jobs && Admits(q, text, j)
  {
    var admitted := Admitted(jobs, q, text);
    var sorted := SortJobs(admitted, FieldKey(q.sortBy), q.sortOrder);
    var items := Page(sorted, q.offset, q.limit);
    PySliceBound(sorted, q.offset, q.offset + q.limit);
    if q.offset >= 0 {
      PageLength(sorted, q.offset, q.limit);
    }
    PageOfSorted(sorted, q.offset, q.limit, FieldKey(q.sortBy), q.sortOrder);
    forall j | j in items ensures j in jobs && Admits(q, text, j) {
      assert j in multiset(items);
      assert j in multiset(admitted);
    }
  }

  /** `functions` and `statistics` describe every fetched job: no query
      parameter changes them. */
  lemma SummaryIgnoresQuery(jobs: seq<Job>, q1: Query, q2: Query, text1: SearchText, text2: SearchText)
    requires MinLimit <= q1.limit <= MaxLimit && MinLimit <= q2.limit <= MaxLimit
    ensures GetAll(jobs, q1, text1).functions == GetAll(jobs, q2, text2).functions
    ensures GetAll(jobs, q1, text1).statistics == GetAll(jobs, q2, text2).statistics
  {
  }

  // ---------------------------------------------------------------------------
  // The other handlers

  /** `GET /jobs/{job_id}`, given what the service found under that id. */
  function GetJobById(jobId: string, found: Option<Job>): (r: Result<Job, HttpError>)
    ensures r.Failure? <==> found.None?
    ensures r.Success? ==> r.value == found.value
    ensures r.Failure? ==> r.error == HttpError(404, "Job with id " + jobId + " not found.")
  {
    match found
    case None => Failure(HttpError(404, "Job with id " + jobId + " not found."))
    case Some(job) => Success(job)
  }

  /** `DELETE /jobs/{job_id}`, given whether the service aborted the job. */
  function AbortJob(jobId: string, aborted: bool): (r: Result<(), HttpError>)
    ensures r.Failure? <==> !aborted
    ensures r.Failure? ==> r.error == HttpError(400, "Failed to abort the job with id " + jobId + ".")
  {
    if !aborted then Failure(HttpError(400, "Failed to abort the job with id " + jobId + "."))
    else Success(())
  }

  /** `POST /jobs`: not implemented, whatever the request. */
  function CreateJob(newJob: JobCreate): (r: Result<Job, HttpError>)
    ensures r.Failure? && r.error == HttpError(501, "Not implemented")
  {
    Failure(HttpError(501, "Not implemented"))
  }
}
