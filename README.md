# Job listing of the arq dashboard, modelled in Dafny

This project models the two pieces of logic in the arq job dashboard that do
more than render.

- **`GET /jobs`** is in the backend. It takes every job fetched from the
  queue and computes summary statistics and the set of function names over
  all of those jobs. It then applies up to six optional filters: start time,
  finish time, statuses, success, function name and free-text search. It
  sorts the result with Python's stable `sorted` on the key
  `(value is None, value)`, ascending or descending, and returns one page of
  the sorted list together with the length of the unpaged list.
- **Three small handlers** in the same file turn a service answer into an HTTP
  error: `GET /jobs/{id}` (404), `DELETE /jobs/{id}` (400) and `POST /jobs`
  (always 501).
- **The job table** is in the frontend. It maps a status and a success flag
  to a badge, picks the sort icon of a column header, and shows a job's
  kwargs and result pretty-printed when they parse as JSON and as raw text
  otherwise.

Modules, one per concern:

| file | module | what it holds |
|---|---|---|
| wrappers.dfy | `Wrappers` | `Option`, `Result` |
| seqs.dfy | `Seqs` | list comprehension filtering (`Filter`), order-preserving subsequences, Python slicing (`PySlice`) |
| sortkeys.dfy | `SortKeys` | Python's ordering of `str`, of numbers and of the tuple `(v is None, v)` |
| jobschema.dfy | `JobSchema` | the job record, its status, the sortable fields, the sort order |
| jobsort.dfy | `JobSort` | the stable sort, proved sorted, a permutation, stable, and the only such sort |
| jobs.dfy | `JobsEndpoint` | statistics, function names, the six filters, paging, `GetAll`, the three error handlers |
| tablejobs.dfy | `TableJobs` | status badge, header icon, pretty-print-or-raw |

Runtime services become parameters:

- The jobs fetched from Redis are the `jobs` argument of `GetAll`.
- The job found by id is the `found` argument of `GetJobById`.
- The outcome of an abort is the `aborted` argument of `AbortJob`.
- `str(job)` and `str.lower()` are the two function fields of `SearchText`.
- `JSON.parse` and `JSON.stringify` are the `parse` and `stringify` arguments
  of `PrettyOrRaw`.
- The store's sort state is the `sortBy` and `sortOrder` arguments of
  `HeaderIcon`.

Timestamps are integers already expressed in one time zone.

Python's `sorted` is modelled by a stable insertion sort, `JobSort.SortJobs`.
The model does not depend on how `sorted` works inside.
`JobSort.SortJobsIsTheStableSort` proves that any sorted sequence which keeps
each key's jobs in their input order equals `SortJobs`. Python's `sorted` is
that kind of sequence, with or without `reverse=True`, so it gives the same
result as `SortJobs`.

The source file `backend/src/schemas/job.py` is not part of this model. Seven
things therefore rest on assumptions:

- `JobStatus` has the four statuses `deferred`, `queued`, `in_progress` and
  `complete`.
- The sortable fields are the six columns the table requests.
- A status sorts by its string value.
- `JobSortOrder` is a string-valued enum, so `sort_order == "asc"`
  (`backend/src/endpoints/jobs.py:130`) holds for an ascending request. With
  a plain enum every request would take the descending branch.
- `JobSortBy` is a string-valued enum, so `getattr(x, sort_by)`
  (`backend/src/endpoints/jobs.py:131`) reads the field it names.
- A job's `success` may be null. Only the test `job.success is False`
  (`backend/src/endpoints/jobs.py:94`) points to this; the model allows it.
- A job's `enqueue_time` is never null (`Job.enqueueTime` is an `int`). A null
  one would make the comparisons at `backend/src/endpoints/jobs.py:105` and
  `:114` raise `TypeError`.

With a nullable `success`, the backend's `failed` counts
`success is False` only. It is typed `boolean` in the table. So the two can
disagree about a completed job whose `success` is null: the table's
`success ? ... : "Failed"` shows it as "Failed", but the backend does not
count it as failed. `TableJobs.NullSuccessShownAsFailed` shows that case,
and `TableJobs.FailedBadgeAgreesWithStatistics` proves that
they agree whenever `success` is present.

## Model

| member | source | states |
|---|---|---|
| `JobsEndpoint.FunctionNames` | backend/src/endpoints/jobs.py:87 | every fetched job's function name is in the set, and every name in the set belongs to a fetched job |
| `JobsEndpoint.FunctionNamesBound` | backend/src/endpoints/jobs.py:87 | there are never more distinct function names than fetched jobs |
| `JobsEndpoint.ComputeStatistics` | backend/src/endpoints/jobs.py:88-96 | `total` is the number of fetched jobs; `failed <= completed`; `in_progress + completed + queued <= total`, and the gap is the number of deferred jobs |
| `JobsEndpoint.StatisticsOfNone` | backend/src/endpoints/jobs.py:88-96 | with no jobs every count is zero |
| `JobsEndpoint.StatisticsCons` | backend/src/endpoints/jobs.py:88-96 | one more job adds one to `total`, one to the count of its own status (none for deferred), and one to `failed` exactly when it is complete with `success` false; with `StatisticsOfNone` this fixes every field |
| `JobsEndpoint.StatusCountsPartition` | backend/src/endpoints/jobs.py:89-92 | the four per-status counts add up to the number of jobs |
| `JobsEndpoint.SummaryIgnoresQuery` | backend/src/endpoints/jobs.py:85-96 | `functions` and `statistics` are the same for any two queries over the same fetched jobs: they are taken before any filter |
| `JobsEndpoint.FilterByStartTime` | backend/src/endpoints/jobs.py:100-107 | absent parameter: the list is unchanged; otherwise a job is kept iff `enqueue_time >= t` and its `start_time` is null or `>= t`; the result is an order-preserving subsequence |
| `JobsEndpoint.FilterByFinishTime` | backend/src/endpoints/jobs.py:109-116 | absent parameter: unchanged; otherwise a job is kept iff `enqueue_time <= t` and its `finish_time` is null or `<= t`; an order-preserving subsequence |
| `JobsEndpoint.FilterByStatuses` | backend/src/endpoints/jobs.py:118-119 | empty list: unchanged; otherwise a job is kept iff its status is listed; an order-preserving subsequence |
| `JobsEndpoint.FilterBySuccess` | backend/src/endpoints/jobs.py:121-122 | `None`: unchanged; otherwise a job is kept iff its `success` equals the parameter (a null `success` never does); an order-preserving subsequence |
| `JobsEndpoint.FilterByFunction` | backend/src/endpoints/jobs.py:124-125 | absent or empty name: unchanged; otherwise a job is kept iff its function has that name; an order-preserving subsequence |
| `JobsEndpoint.FilterBySearch` | backend/src/endpoints/jobs.py:127-128 | absent or empty text: unchanged; otherwise a job is kept iff the lower-cased search text occurs in the lower-cased rendering of the job; an order-preserving subsequence |
| `JobsEndpoint.StartTimeCopies` | backend/src/endpoints/jobs.py:100-107 | the start-time filter keeps every copy of an accepted job and none of a rejected one; with no parameter it keeps all |
| `JobsEndpoint.FinishTimeCopies` | backend/src/endpoints/jobs.py:109-116 | the finish-time filter keeps every copy of an accepted job and none of a rejected one; with no parameter it keeps all |
| `JobsEndpoint.StatusesCopies` | backend/src/endpoints/jobs.py:118-119 | the status filter keeps every copy of a job with a listed status and none of the others; an empty list keeps all |
| `JobsEndpoint.SuccessCopies` | backend/src/endpoints/jobs.py:121-122 | the success filter keeps every copy of a job with the requested `success` and none of the others; no parameter keeps all |
| `JobsEndpoint.FunctionCopies` | backend/src/endpoints/jobs.py:124-125 | the function filter keeps every copy of a job with the requested name and none of the others; an empty or absent name keeps all |
| `JobsEndpoint.SearchCopies` | backend/src/endpoints/jobs.py:127-128 | the search filter keeps every copy of a matching job and none of the others; an empty or absent search keeps all |
| `JobsEndpoint.ContainsIffOccurs` | backend/src/endpoints/jobs.py:128 | the substring test `needle in hay` holds exactly when `needle` occurs at some index of `hay` |
| `JobsEndpoint.ApplyFiltersIsConjunction` | backend/src/endpoints/jobs.py:100-128 | the six filters in sequence keep exactly the jobs that every active filter accepts, in their fetched order |
| `JobSort.SortJobs` | backend/src/endpoints/jobs.py:130-137 | the sorted list is a permutation of its input, is ordered by `(value is None, value)` (reversed for descending), and keeps jobs with equal keys in their input order |
| `JobSort.AscendingLayout` | backend/src/endpoints/jobs.py:130-131 | ascending: jobs with a value come first, in non-decreasing order, and null-keyed jobs come last |
| `JobSort.DescendingLayout` | backend/src/endpoints/jobs.py:132-137 | descending: null-keyed jobs come first, then the rest in non-increasing order |
| `JobSort.SortedStableUnique` | backend/src/endpoints/jobs.py:130-137 | two sorted sequences with the same per-key subsequences are equal |
| `JobSort.SortJobsIsTheStableSort` | backend/src/endpoints/jobs.py:130-137 | any sorted sequence that keeps each key's jobs in input order is `SortJobs`' result, so the model agrees with Python's stable `sorted` |
| `SortKeys.NullLastLeTotal` | backend/src/endpoints/jobs.py:131 | any two keys are comparable under the tuple order `(v is None, v)` |
| `SortKeys.NullLastLeTransitive` | backend/src/endpoints/jobs.py:131 | the tuple order is transitive |
| `SortKeys.NullLastLeAntisymmetric` | backend/src/endpoints/jobs.py:131 | keys that compare both ways are equal |
| `Seqs.PySliceBound` | backend/src/endpoints/jobs.py:139 | `s[start:stop]` holds at most `stop - start` elements, for any signs of the bounds |
| `Seqs.PySliceNonNegative` | backend/src/endpoints/jobs.py:139 | with non-negative bounds the slice is the sub-sequence between the bounds clamped to the length |
| `JobsEndpoint.PageLength` | backend/src/endpoints/jobs.py:139 | for `offset >= 0` the page holds `min(limit, max(0, count - offset))` jobs |
| `JobsEndpoint.PageOfSorted` | backend/src/endpoints/jobs.py:139 | a page cut from a sorted list is still sorted and holds no job the list does not hold (as a multiset) |
| `JobsEndpoint.GetAll` | backend/src/endpoints/jobs.py:39-151 | `functions` and `statistics` are those of all fetched jobs; `count` is the number of jobs every active filter accepts; `items` is `sorted[offset : offset+limit]` of those jobs; `limit` and `offset` are echoed back |
| `JobsEndpoint.GetAllPage` | backend/src/endpoints/jobs.py:139-149 | the page holds at most `limit` jobs, exactly `min(limit, max(0, count - offset))` for `offset >= 0`, is in the requested order, and holds only fetched jobs that pass every active filter |
| `JobsEndpoint.DefaultQueryListsAll` | backend/src/endpoints/jobs.py:40-79 | with the default parameters (limit 50, offset 0, by enqueue time descending, no filter) the limit is valid, `count` is the number of fetched jobs, and the page is the first 50 of them newest first |
| `JobsEndpoint.GetJobById` | backend/src/endpoints/jobs.py:168-176 | 404 with "Job with id … not found." exactly when the service found nothing; otherwise the job found, unchanged |
| `JobsEndpoint.AbortJob` | backend/src/endpoints/jobs.py:191-198 | 400 with "Failed to abort the job with id …." exactly when the abort failed |
| `JobsEndpoint.CreateJob` | backend/src/endpoints/jobs.py:234-240 | always 501 "Not implemented" |
| `TableJobs.StatusControl` | frontend/src/components/tablejobs.tsx:61-88 | the badge text is always the raw status string, so the mapping is total over all strings |
| `TableJobs.StatusControlTable` | frontend/src/components/tablejobs.tsx:66-88 | complete: "Success"/green if successful, "Failed"/red if not; queued: "Queued"/gray; deferred: "Deferred"/gray; in_progress: "In Progress"/blue; any other string: "Unknown"/gray |
| `TableJobs.StatusLabelDetermines` | frontend/src/components/tablejobs.tsx:66-87 | a label other than "Unknown" determines the status, and for a complete job whether it succeeded |
| `TableJobs.BackendStatusesKnown` | frontend/src/components/tablejobs.tsx:66-83 | every status the backend reports gets its own label, never "Unknown" |
| `TableJobs.FailedBadgeAgreesWithStatistics` | frontend/src/components/tablejobs.tsx:67-71 | with `success` present, the badge says "Failed" exactly when the backend counts the job as failed |
| `TableJobs.TableSuccess` | frontend/src/components/tablejobs.tsx:68-69 | the truth value of the received `success` is true exactly when it is `true`; null is falsy |
| `TableJobs.NullSuccessShownAsFailed` | frontend/src/components/tablejobs.tsx:67-71 | a complete job whose `success` is null gets the red "Failed" badge but is not among the backend's failed jobs |
| `TableJobs.FailedBadgeExactly` | frontend/src/components/tablejobs.tsx:67-71 | the badge says "Failed" exactly for complete jobs whose `success` is not true |
| `TableJobs.HeaderIcon` | frontend/src/components/tablejobs.tsx:37-44 | neutral iff the sorted column is another one; up iff it is this column and the order is "asc"; down iff it is this column and the order is anything else |
| `TableJobs.OneActiveHeader` | frontend/src/components/tablejobs.tsx:240-279 | of the six headers, only the sorted column's shows a direction, and none does if the sorted column is not one of them |
| `TableJobs.HeaderShowsBackendSort` | frontend/src/components/tablejobs.tsx:37-44 | when the list is sorted by a field in an order, that field's header shows that order and every other header is neutral |
| `TableJobs.PrettyOrRaw` | frontend/src/components/tablejobs.tsx:193-210 | the parse pretty-printed when parsing succeeds, the original text unchanged when it fails; it never fails |
| `TableJobs.PrettyOrRawKeepsData` | frontend/src/components/tablejobs.tsx:193-210 | if printing the stored text's parsed value and parsing it back gives that value, the shown text parses to the same value as the stored text, or fails as it did |
| `TableJobs.PrettyOrRawIdempotent` | frontend/src/components/tablejobs.tsx:193-210 | under the same round-trip for the stored text, rendering the rendered text changes nothing |

## Left out

- The Redis-backed service calls `get_all_jobs`, `get_job_by_id` and
  `abort_job` are not modelled. Their results are parameters. The
  `settings.max_jobs` bound belongs to `get_all_jobs` and is not modelled.
- `generate_statistics` and the `statistics_hourly` field it fills are not
  modelled, and neither is the `get_hourly_statistics` handler. Their only
  logic is a call into the service.
- Time zones are not modelled. `replace(tzinfo=...)` at
  `backend/src/endpoints/jobs.py:101` and `:110` attaches the configured zone
  to a naive query time, but for a time that carries its own offset it swaps
  that offset for the configured zone without converting, so the request's
  offset is ignored. The model's `t` in `KeepFromStart` and `KeepUntilFinish`
  is the time after `replace`, as an integer in the same zone as the job
  timestamps.
- `execution_duration` is an integer here, not a float. Floating point is
  not modelled.
- `str(job)` is Pydantic's rendering and `.lower()` is Unicode lower-casing.
  Both are left as parameters. Only the substring test `in` is modelled.
- `JSON.parse` and `JSON.stringify` are foreign library calls. They are
  parameters, so real JSON and the 2-space layout are not modelled.
- PrettyOrRawKeepsData: holds only for stored text whose parsed value prints
  and parses back to itself. Real JSON does not keep out-of-range numbers:
  `JSON.parse("1e400")` is `Infinity`, which `JSON.stringify` prints as
  `null`, so the table shows `null` for such a value.
- FastAPI routing, Pydantic validation, the response models and logging are
  not modelled. A `limit` outside 1..500 is rejected with 422 before the
  handler runs, so it is a precondition of `GetAll` rather than an error path.
- `SortKeys.KeyLe` also orders a number against a string (numbers first).
  That case never occurs, because each field holds one kind of value. It is
  there only to make the order total.
- `backend/src/schemas/job.py` is not part of this model. The assumptions
  made about it are listed above.
- All React, Mantine and mobx rendering is not modelled. That covers the row
  and detail markup, the loading overlay, pagination, toggling an expanded
  row, and the store's `setSortBy`, `setToggleJob` and `setPage`.
