/**
 * The HTTP service: job submission (`/crawl`), the queue depth
 * (`/queueSize`), one job's status (`/jobStatus`) and a batch of results
 * (`/jobResults`), over a job store that stands for the Redis-backed RQ
 * queue.  The store keeps the pending line of job ids and, per job, its
 * config, status, latest result and result time-to-live.
 */
module Api {
  import opened Wrappers
  import W = Worker

  /** Job ids are opaque tokens the store hands out; here, numbers from a counter. */
  type JobId = nat

  /** RQ's job statuses; the endpoints only compare against "finished". */
  datatype Status = Queued | Started | Finished | Failed | Deferred | Scheduled | Stopped | Canceled

  /** The `type` of RQ's latest result of a job. */
  datatype ResultType = SuccessfulResult | FailedResult | StoppedResult | RetriedResult

  /** RQ's latest result: its type, the job's return value, and the exception of a failed run. */
  datatype JobResult = JobResult(kind: ResultType, returnValue: Option<W.Outcome>, excInfo: Option<W.WorkerError>)

  /** What the store holds per job id. */
  datatype JobRecord = JobRecord(config: W.Config, status: Status, latest: Option<JobResult>, ttl: int)

  /** A raised `HTTPException`: its status code and detail. */
  datatype HttpError = HttpError(statusCode: int, detail: string)

  /**
   * One value of the `/jobResults` dict: the exception stored for the id, or
   * the latest result's return value.  `JobFailed` is only produced by the
   * corrected lookup `JobResultsIntended`.
   */
  datatype Entry = Marker(exception: HttpError) | Value(returnValue: Option<W.Outcome>) | JobFailed(reason: Option<W.WorkerError>)

  /** Exceptions that are not `HTTPException`s and so escape the per-id `try`, failing the whole request. */
  datatype LookupError = NoSuchJob(id: JobId) | NoLatestResult(id: JobId)

  /** The `/crawl` response body. */
  datatype Submission = Submission(jobIDs: seq<JobId>, currentQueueSize: nat)

  /** The `/jobStatus` response body. */
  datatype StatusReport = StatusReport(status: Status, position: Option<nat>)

  const PromptDetail := "chatgpt_prompt was provided but openai_key was not - you must provide both or do not set either"
  const NotFinished := HttpError(102, "job is not finished yet, use /jobStatus endpoint to get job status and wait until finished to try again")
  const NotSucceeded := HttpError(500, "the job exists and is flagged finished, but it did not succeed")
  const UnknownJob := HttpError(404, "no such job")

  /** The states RQ's worker leaves a job in: a result exists exactly once the job has finished or failed. */
  predicate Consistent(rec: JobRecord)
  {
    match rec.status
    case Queued => rec.latest.None?
    case Started => rec.latest.None?
    case Finished =>
      rec.latest.Some? && rec.latest.value.kind == SuccessfulResult && rec.latest.value.returnValue.Some?
    case Failed =>
      rec.latest.Some? && rec.latest.value.kind == FailedResult && rec.latest.value.returnValue.None?
    case _ => false
  }

  /** The first index of `x` in `s`, RQ's `get_position`. */
  function IndexOf(s: seq<JobId>, x: JobId): (r: Option<nat>)
    ensures r.None? <==> x !in s
    ensures r.Some? ==> r.value < |s| && s[r.value] == x && x !in s[..r.value]
  {
    if s == [] then None
    else if s[0] == x then Some(0)
    else
      match IndexOf(s[1..], x)
      case None => None
      case Some(k) =>
        assert s[..k + 1] == [s[0]] + s[1..][..k];
        Some(k + 1)
  }

  /** The job's state after a run: finished with the worker's return value, or failed with its exception. */
  function FinishedRecord(rec: JobRecord, outcome: Result<W.Outcome, W.WorkerError>): JobRecord
  {
    match outcome
    case Ok(o) => rec.(status := Finished, latest := Some(JobResult(SuccessfulResult, Some(o), None)))
    case Err(e) => rec.(status := Failed, latest := Some(JobResult(FailedResult, None, Some(e))))
  }

  /** The queue store (Redis with an RQ queue on it), as one sequential object. */
  class Store {
    var pending: seq<JobId>
    var jobs: map<JobId, JobRecord>
    var nextId: nat

    ghost predicate Valid()
      reads this
    {
      && (forall id :: id in jobs ==> id < nextId)
      && (forall i :: 0 <= i < |pending| ==> pending[i] in jobs && jobs[pending[i]].status == Queued)
      && (forall i, j :: 0 <= i < j < |pending| ==> pending[i] != pending[j])
      && (forall id :: id in jobs && jobs[id].status == Queued ==> id in pending)
      && (forall id :: id in jobs ==> Consistent(jobs[id]))
    }

    constructor ()
      ensures Valid()
      ensures pending == [] && jobs == map[] && nextId == 0
    {
      pending := [];
      jobs := map[];
      nextId := 0;
    }

    /** `job.get_position()`: how many jobs are ahead of `id`, or `None` once it has left the queue. */
    function Position(id: JobId): (r: Option<nat>)
      reads this
      ensures r.None? <==> id !in pending
      ensures r.Some? ==> r.value < |pending| && pending[r.value] == id && id !in pending[..r.value]
    {
      IndexOf(pending, id)
    }

    /** `q.enqueue(crawl_URL, config, result_ttl=ttl)`: a fresh id at the back of the line. */
    method Enqueue(config: W.Config, ttl: int) returns (id: JobId)
      requires Valid()
      modifies this
      ensures Valid()
      ensures id == old(nextId) && id !in old(jobs) && nextId == old(nextId) + 1
      ensures pending == old(pending) + [id]
      ensures jobs == old(jobs)[id := JobRecord(config, Queued, None, ttl)]
    {
      id := nextId;
      jobs := jobs[id := JobRecord(config, Queued, None, ttl)];
      pending := pending + [id];
      nextId := nextId + 1;
    }

    /** RQ's worker takes the job at the head of the line and marks it started. */
    method StartNext() returns (id: Option<JobId>)
      requires Valid()
      modifies this
      ensures Valid()
      ensures nextId == old(nextId)
      ensures id.None? <==> old(pending) == []
      ensures id.None? ==> pending == old(pending) && jobs == old(jobs)
      ensures id.Some? ==>
        && id.value == old(pending)[0] && id.value in old(jobs)
        && pending == old(pending)[1..]
        && jobs == old(jobs)[id.value := old(jobs)[id.value].(status := Started)]
    {
      if pending == [] {
        return None;
      }
      var head := pending[0];
      pending := pending[1..];
      jobs := jobs[head := jobs[head].(status := Started)];
      id := Some(head);
    }

    /** RQ's worker stores the result of a started job. */
    method Finish(id: JobId, outcome: Result<W.Outcome, W.WorkerError>)
      requires Valid() && id in jobs && jobs[id].status == Started
      modifies this
      ensures Valid()
      ensures pending == old(pending) && nextId == old(nextId)
      ensures jobs == old(jobs)[id := FinishedRecord(old(jobs)[id], outcome)]
    {
      assert id !in pending;
      jobs := jobs[id := FinishedRecord(jobs[id], outcome)];
    }
  }

  /** One turn of RQ's worker loop: start the head job, run `crawl_URL` on its config, store the outcome. */
  method WorkOnce(store: Store, render: string -> Option<string>, evaluates: (string, string) -> bool)
    returns (done: Option<JobId>)
    requires store.Valid()
    modifies store
    ensures store.Valid()
    ensures store.nextId == old(store.nextId)
    ensures done.None? <==> old(store.pending) == []
    ensures done.None? ==> store.jobs == old(store.jobs) && store.pending == old(store.pending)
    ensures done.Some? ==>
      && done.value == old(store.pending)[0] && done.value in old(store.jobs)
      && store.pending == old(store.pending)[1..]
      && store.jobs.Keys == old(store.jobs).Keys
      && (forall other :: other in old(store.jobs) && other != done.value ==> store.jobs[other] == old(store.jobs)[other])
      && var before := old(store.jobs)[done.value];
         var after := store.jobs[done.value];
         && after.config == before.config && after.ttl == before.ttl && after.latest.Some?
         && (after.status == Finished <==> W.Crawlable(before.config, render, evaluates))
         && (after.status == Failed <==> !W.Crawlable(before.config, render, evaluates))
         && (after.status == Finished ==>
               var o := after.latest.value.returnValue;
               && after.latest.value.kind == SuccessfulResult && o.Some?
               && o.value.config == before.config
               && Some(o.value.pageSource) == render(W.TargetOf(before.config))
               && var xpaths := W.XPathList(before.config["xpaths"]).value;
                  o.value.xpathResults == if |xpaths| > 0 then Some(W.XPathResults(o.value.pageSource, xpaths)) else None)
         && (after.status == Failed ==>
               after.latest.value == JobResult(FailedResult, None, Some(W.FailureOf(before.config, render, evaluates))))
  {
    done := store.StartNext();
    if done.Some? {
      var job := store.jobs[done.value];
      var outcome := W.CrawlUrl(job.config, render, evaluates);
      store.Finish(done.value, outcome);
      assert store.jobs[done.value] == FinishedRecord(job, outcome);
      assert outcome.Ok? ==> store.jobs[done.value].latest.value.returnValue == Some(outcome.value);
      assert outcome.Err? ==> store.jobs[done.value].latest.value == JobResult(FailedResult, None, Some(outcome.error));
    }
  }

  // ---------------------------------------------------------------------
  // /crawl

  /** Python truthiness of an optional string parameter: given and non-empty. */
  predicate Given(s: Option<string>)
  {
    s.Some? && s.value != ""
  }

  /** The guard of `addTask`, as written: a prompt without a key.  A key without a prompt passes. */
  predicate PromptWithoutKey(prompt: Option<string>, key: Option<string>)
  {
    Given(prompt) && !Given(key)
  }

  function OptionalText(s: Option<string>): W.Val
  {
    if s.Some? then W.VStr(s.value) else W.VNone
  }

  function OptionalList(s: Option<seq<string>>): W.Val
  {
    if s.Some? then W.VList(s.value) else W.VNone
  }

  /** The shared `job_config` dict, before any URL is set. */
  function JobConfig(returnSource: bool, simplifySource: bool, loadWaitTime: real, resultsTtl: int,
                     xPaths: Option<seq<string>>, prompt: Option<string>, key: Option<string>): (c: W.Config)
    ensures "url" !in c && "xpaths" !in c && "x_paths" in c
  {
    map["return_source" := W.VBool(returnSource),
        "simplify_source" := W.VBool(simplifySource),
        "load_wait_time" := W.VReal(loadWaitTime),
        "results_ttl" := W.VInt(resultsTtl),
        "x_paths" := OptionalList(xPaths),
        "chatgpt_prompt" := OptionalText(prompt),
        "openai_key" := OptionalText(key)]
  }

  /** The config enqueued for one URL: the shared fields, and `url` set to that URL. */
  function SubmittedConfig(base: W.Config, url: string): (c: W.Config)
  {
    base["url" := W.VStr(url)]
  }

  /** The submitted config is the shared one with `url` set, and nothing else changed. */
  lemma SubmittedConfigSetsUrl(base: W.Config, url: string)
    ensures var c := SubmittedConfig(base, url);
      && c.Keys == base.Keys + {"url"} && c["url"] == W.VStr(url)
      && forall k :: k in base && k != "url" ==> c[k] == base[k]
  {
  }

  /** Setting `url` on the shared dict, first time or again, gives the config for that URL. */
  lemma SetUrl(base: W.Config, current: W.Config, url: string)
    requires current == base || exists u :: current == SubmittedConfig(base, u)
    ensures current["url" := W.VStr(url)] == SubmittedConfig(base, url)
  {
  }

  /** `addTask`: check the prompt/key pair, then enqueue one job per URL. */
  method AddTask(store: Store, urls: seq<string>, returnSource: bool, simplifySource: bool, loadWaitTime: real,
                 resultsTtl: int, xPaths: Option<seq<string>>, chatgptPrompt: Option<string>, openaiKey: Option<string>)
    returns (r: Result<Submission, HttpError>)
    requires store.Valid()
    modifies store
    ensures store.Valid()
    ensures r.Err? <==> PromptWithoutKey(chatgptPrompt, openaiKey)
    ensures r.Err? ==> r.error == HttpError(400, PromptDetail)
    ensures r.Err? ==> store.pending == old(store.pending) && store.jobs == old(store.jobs) && store.nextId == old(store.nextId)
    ensures r.Ok? ==>
      && r.value.currentQueueSize == |store.pending|
      && Enqueued(old(store.pending), old(store.jobs), store.pending, store.jobs, r.value.jobIDs,
                  JobConfig(returnSource, simplifySource, loadWaitTime, resultsTtl, xPaths, chatgptPrompt, openaiKey),
                  urls, resultsTtl)
  {
    if PromptWithoutKey(chatgptPrompt, openaiKey) {
      return Err(HttpError(400, PromptDetail));
    }
    var jobConfig := JobConfig(returnSource, simplifySource, loadWaitTime, resultsTtl, xPaths, chatgptPrompt, openaiKey);
    var ids := EnqueueEach(store, jobConfig, urls, resultsTtl);
    return Ok(Submission(ids, |store.pending|));
  }

  /**
   * What a successful submission did to the store: one fresh, distinct id per
   * URL, appended to the line in URL order, each job holding the shared config
   * with its own URL and the given time-to-live, every other job untouched.
   */
  ghost predicate Enqueued(pendingBefore: seq<JobId>, jobsBefore: map<JobId, JobRecord>,
                           pendingAfter: seq<JobId>, jobsAfter: map<JobId, JobRecord>,
                           ids: seq<JobId>, base: W.Config, urls: seq<string>, ttl: int)
  {
    && |ids| == |urls|
    && pendingAfter == pendingBefore + ids
    && |pendingAfter| == |pendingBefore| + |urls|
    && (forall i :: 0 <= i < |ids| ==> ids[i] !in jobsBefore)
    && (forall i, j :: 0 <= i < j < |ids| ==> ids[i] != ids[j])
    && (forall i :: 0 <= i < |ids| ==> ids[i] in jobsAfter && jobsAfter[ids[i]] == JobRecord(SubmittedConfig(base, urls[i]), Queued, None, ttl))
    && (forall id :: id in jobsBefore ==> id in jobsAfter && jobsAfter[id] == jobsBefore[id])
    && (forall id :: id in jobsAfter <==> id in jobsBefore || id in ids)
  }

  /** The ids a store hands out from `start` on, `n` of them. */
  ghost function FreshIds(start: nat, n: nat): (r: seq<JobId>)
    ensures |r| == n && forall j :: 0 <= j < n ==> r[j] == start + j
  {
    seq(n, j requires 0 <= j < n => start + j)
  }

  /** The jobs after enqueuing the configs for the first `n` URLs under ids from `start` on. */
  ghost function Added(jobs: map<JobId, JobRecord>, start: nat, base: W.Config, urls: seq<string>, n: nat, ttl: int): map<JobId, JobRecord>
    requires n <= |urls|
  {
    if n == 0 then jobs
    else Added(jobs, start, base, urls, n - 1, ttl)[start + n - 1 := JobRecord(SubmittedConfig(base, urls[n - 1]), Queued, None, ttl)]
  }

  lemma {:induction false} AddedJobs(jobs: map<JobId, JobRecord>, start: nat, base: W.Config, urls: seq<string>, n: nat, ttl: int)
    requires n <= |urls|
    requires forall id :: id in jobs ==> id < start
    ensures var after := Added(jobs, start, base, urls, n, ttl);
      && (forall j :: 0 <= j < n ==> start + j in after && after[start + j] == JobRecord(SubmittedConfig(base, urls[j]), Queued, None, ttl))
      && (forall id :: id in jobs ==> id in after && after[id] == jobs[id])
      && (forall id :: id in after <==> id in jobs || start <= id < start + n)
  {
    if n > 0 {
      AddedJobs(jobs, start, base, urls, n - 1, ttl);
    }
  }

  /** Enqueuing the URLs one after the other under fresh ids is a submission as `Enqueued` describes it. */
  lemma AddedIsEnqueued(pending: seq<JobId>, jobs: map<JobId, JobRecord>, start: nat, base: W.Config, urls: seq<string>, ttl: int)
    requires forall id :: id in jobs ==> id < start
    ensures Enqueued(pending, jobs, pending + FreshIds(start, |urls|), Added(jobs, start, base, urls, |urls|, ttl),
                     FreshIds(start, |urls|), base, urls, ttl)
  {
    AddedJobs(jobs, start, base, urls, |urls|, ttl);
    var ids := FreshIds(start, |urls|);
    var after := Added(jobs, start, base, urls, |urls|, ttl);
    forall i | 0 <= i < |ids|
      ensures ids[i] in after && after[ids[i]] == JobRecord(SubmittedConfig(base, urls[i]), Queued, None, ttl)
    {
      assert ids[i] == start + i;
    }
    forall id ensures id in ids <==> start <= id < start + |urls| {
      if start <= id < start + |urls| {
        assert ids[id - start] == id;
      }
    }
  }

  /** What the loop of `addTask` has done after `i` URLs, starting from the store state `pending0`, `jobs0`, `start`. */
  ghost predicate EnqueuedSoFar(store: Store, pending0: seq<JobId>, jobs0: map<JobId, JobRecord>, start: nat,
                                base: W.Config, urls: seq<string>, ttl: int, i: nat, ids: seq<JobId>, shared: W.Config)
    reads store
  {
    && i <= |urls|
    && store.nextId == start + i
    && ids == FreshIds(start, i)
    && store.pending == pending0 + ids
    && store.jobs == Added(jobs0, start, base, urls, i, ttl)
    && (shared == base || (i > 0 && shared == SubmittedConfig(base, urls[i - 1])))
  }

  /** One turn of the loop of `addTask`: set `url` on the shared dict, enqueue it, collect the id. */
  method EnqueueNext(store: Store, base: W.Config, urls: seq<string>, ttl: int, i: nat, ids: seq<JobId>, shared: W.Config,
                     ghost pending0: seq<JobId>, ghost jobs0: map<JobId, JobRecord>, ghost start: nat)
    returns (ids': seq<JobId>, shared': W.Config)
    requires i < |urls|
    requires store.Valid() && EnqueuedSoFar(store, pending0, jobs0, start, base, urls, ttl, i, ids, shared)
    modifies store
    ensures store.Valid() && EnqueuedSoFar(store, pending0, jobs0, start, base, urls, ttl, i + 1, ids', shared')
  {
    // the one shared dict gets this URL; RQ stores a copy of it with the job
    SetUrl(base, shared, urls[i]);
    shared' := shared["url" := W.VStr(urls[i])];
    var id := store.Enqueue(shared', ttl);
    ids' := ids + [id];
    assert ids' == FreshIds(start, i + 1);
  }

  /** The loop of `addTask`: one enqueue per URL, in order, collecting the ids. */
  method EnqueueEach(store: Store, jobConfig: W.Config, urls: seq<string>, ttl: int) returns (ids: seq<JobId>)
    requires store.Valid()
    modifies store
    ensures store.Valid()
    ensures Enqueued(old(store.pending), old(store.jobs), store.pending, store.jobs, ids, jobConfig, urls, ttl)
  {
    ghost var pending0, jobs0, start := store.pending, store.jobs, store.nextId;
    var shared := jobConfig;
    ids := [];
    for i := 0 to |urls|
      invariant store.Valid()
      invariant EnqueuedSoFar(store, pending0, jobs0, start, jobConfig, urls, ttl, i, ids, shared)
    {
      ids, shared := EnqueueNext(store, jobConfig, urls, ttl, i, ids, shared, pending0, jobs0, start);
    }
    AddedIsEnqueued(pending0, jobs0, start, jobConfig, urls, ttl);
  }

  // ---------------------------------------------------------------------
  // /queueSize and /jobStatus

  /** `queueSize`: the number of jobs waiting; nothing changes. */
  method QueueSize(store: Store) returns (n: nat)
    ensures n == |store.pending|
  {
    n := |store.pending|;
  }

  /** `jobStatus`: the job's status and its place in the line; an unknown id raises from `Job.fetch`. */
  method JobStatus(store: Store, jobID: JobId) returns (r: Result<StatusReport, LookupError>)
    ensures r.Err? <==> jobID !in store.jobs
    ensures r.Err? ==> r.error == NoSuchJob(jobID)
    ensures r.Ok? ==>
      && r.value.status == store.jobs[jobID].status
      && (r.value.position.Some? <==> jobID in store.pending)
      && (r.value.position.Some? ==> r.value.position.value < |store.pending| && store.pending[r.value.position.value] == jobID)
  {
    if jobID !in store.jobs {
      return Err(NoSuchJob(jobID));
    }
    var job := store.jobs[jobID];
    return Ok(StatusReport(job.status, store.Position(jobID)));
  }

  // ---------------------------------------------------------------------
  // /jobResults

  /** The exception that escapes the loop for this id, if any: `Job.fetch` of an unknown id, or a finished job without a result. */
  function Abort(jobs: map<JobId, JobRecord>, id: JobId): (r: Option<LookupError>)
    ensures r.None? <==> id in jobs && (jobs[id].status == Finished ==> jobs[id].latest.Some?)
  {
    if id !in jobs then Some(NoSuchJob(id))
    else if jobs[id].status == Finished && jobs[id].latest.None? then Some(NoLatestResult(id))
    else None
  }

  /** The entry `jobResults` stores for a fetched job, branches as written. */
  function EntryAsWritten(rec: JobRecord): Entry
    requires rec.status == Finished ==> rec.latest.Some?
  {
    if rec.status != Finished then Marker(NotFinished)
    else if rec.latest.value.kind == FailedResult then Value(rec.latest.value.returnValue)
    else Marker(NotSucceeded)
  }

  /**
   * `jobResults`: one entry per id, a marker for one id not stopping the
   * others; an unknown id (or a finished job without a result) ends the
   * whole request with the exception of the first such id.  Nothing changes.
   */
  method JobResults(store: Store, ids: seq<JobId>) returns (r: Result<map<JobId, Entry>, LookupError>)
    ensures r.Ok? <==> forall j :: 0 <= j < |ids| ==> Abort(store.jobs, ids[j]).None?
    ensures r.Err? ==>
      exists k :: 0 <= k < |ids| && Abort(store.jobs, ids[k]) == Some(r.error)
                  && forall j :: 0 <= j < k ==> Abort(store.jobs, ids[j]).None?
    ensures r.Ok? ==>
      && r.value.Keys == (set j | 0 <= j < |ids| :: ids[j])
      && forall j :: 0 <= j < |ids| ==>
           Abort(store.jobs, ids[j]).None? && r.value[ids[j]] == EntryAsWritten(store.jobs[ids[j]])
  {
    var results: map<JobId, Entry> := map[];
    var k := 0;
    while k < |ids|
      invariant 0 <= k <= |ids|
      invariant forall j :: 0 <= j < k ==> Abort(store.jobs, ids[j]).None?
      invariant results.Keys == (set j | 0 <= j < k :: ids[j])
      invariant forall j :: 0 <= j < k ==> results[ids[j]] == EntryAsWritten(store.jobs[ids[j]])
    {
      var jobId := ids[k];
      if jobId !in store.jobs {
        return Err(NoSuchJob(jobId));
      }
      var job := store.jobs[jobId];
      if job.status != Finished {
        results := results[jobId := Marker(NotFinished)];
      } else {
        if job.latest.None? {
          return Err(NoLatestResult(jobId));
        }
        var result := job.latest.value;
        if result.kind == FailedResult {
          results := results[jobId := Value(result.returnValue)];
        } else {
          results := results[jobId := Marker(NotSucceeded)];
        }
      }
      k := k + 1;
    }
    return Ok(results);
  }

  /**
   * In a store RQ keeps consistent, the lookup as written never returns a
   * value: a finished job's latest result is always successful, which the
   * inverted branch turns into the 500 marker, and a failed job is reported
   * as not finished.
   */
  lemma AsWrittenNeverReturnsResult(rec: JobRecord)
    requires Consistent(rec)
    ensures rec.status == Finished ==> EntryAsWritten(rec) == Marker(NotSucceeded)
    ensures rec.status != Finished ==> EntryAsWritten(rec) == Marker(NotFinished)
  {
  }

  /** The entry the lookup evidently intends: a tri-state of value, failure detail and not-ready, per id. */
  function EntryIntended(jobs: map<JobId, JobRecord>, id: JobId): Entry
  {
    if id !in jobs then Marker(UnknownJob)
    else
      var rec := jobs[id];
      if rec.status == Finished && rec.latest.Some? && rec.latest.value.kind == SuccessfulResult then
        Value(rec.latest.value.returnValue)
      else if rec.status == Failed then
        JobFailed(if rec.latest.Some? then rec.latest.value.excInfo else None)
      else if rec.status == Finished then Marker(NotSucceeded)
      else Marker(NotFinished)
  }

  /** In a consistent store the intended lookup tags each id by what happened to its job. */
  lemma IntendedEntriesTagged(jobs: map<JobId, JobRecord>, id: JobId)
    requires id in jobs ==> Consistent(jobs[id])
    ensures id !in jobs ==> EntryIntended(jobs, id) == Marker(UnknownJob)
    ensures id in jobs && jobs[id].status == Finished ==>
              EntryIntended(jobs, id) == Value(jobs[id].latest.value.returnValue) && jobs[id].latest.value.returnValue.Some?
    ensures id in jobs && jobs[id].status == Failed ==> EntryIntended(jobs, id) == JobFailed(jobs[id].latest.value.excInfo)
    ensures id in jobs && jobs[id].status in {Queued, Started} ==> EntryIntended(jobs, id) == Marker(NotFinished)
  {
  }

  /** The lookup with the branch the right way round and unknown ids reported per id: never a failure of the batch. */
  method JobResultsIntended(store: Store, ids: seq<JobId>) returns (r: map<JobId, Entry>)
    ensures r.Keys == (set j | 0 <= j < |ids| :: ids[j])
    ensures forall j :: 0 <= j < |ids| ==> r[ids[j]] == EntryIntended(store.jobs, ids[j])
  {
    r := map[];
    for k := 0 to |ids|
      invariant r.Keys == (set j | 0 <= j < k :: ids[j])
      invariant forall j :: 0 <= j < k ==> r[ids[j]] == EntryIntended(store.jobs, ids[j])
    {
      r := r[ids[k] := EntryIntended(store.jobs, ids[k])];
    }
  }

  // ---------------------------------------------------------------------
  // Submission and the worker

  /**
   * No job `addTask` enqueues is crawlable: its config has `x_paths` but
   * `crawl_URL` reads `xpaths`. It fails at navigation, at the wait, or else
   * at the `xpaths` lookup.
   */
  lemma SubmittedJobsNeverCrawlable(returnSource: bool, simplifySource: bool, loadWaitTime: real, resultsTtl: int,
                                    xPaths: Option<seq<string>>, prompt: Option<string>, key: Option<string>,
                                    url: string, render: string -> Option<string>, evaluates: (string, string) -> bool)
    ensures var c := SubmittedConfig(JobConfig(returnSource, simplifySource, loadWaitTime, resultsTtl, xPaths, prompt, key), url);
            && "xpaths" !in c && !W.Crawlable(c, render, evaluates)
            && W.FailureOf(c, render, evaluates)
               == if render(W.NavigationTarget(url, simplifySource)).None? then W.NavigationFailed(W.NavigationTarget(url, simplifySource))
                  else if !W.ValidWait(W.VReal(loadWaitTime)) then W.InvalidWait
                  else W.KeyError("xpaths")
  {
    var base := JobConfig(returnSource, simplifySource, loadWaitTime, resultsTtl, xPaths, prompt, key);
    var c := SubmittedConfig(base, url);
    assert c["simplify_source"] == W.VBool(simplifySource) && c["url"] == W.VStr(url);
    assert W.TargetOf(c) == W.NavigationTarget(url, simplifySource);
    assert c["load_wait_time"] == W.VReal(loadWaitTime);
    assert "xpaths" != "url";
  }

  /**
   * Every job `addTask` enqueues whose page loads and whose wait `time.sleep`
   * accepts is refused by the worker at the `xpaths` lookup.
   */
  lemma SubmittedJobsStopAtXPaths(returnSource: bool, simplifySource: bool, loadWaitTime: real, resultsTtl: int,
                                  xPaths: Option<seq<string>>, prompt: Option<string>, key: Option<string>,
                                  url: string, render: string -> Option<string>, evaluates: (string, string) -> bool)
    requires render(W.NavigationTarget(url, simplifySource)).Some?
    requires W.ValidWait(W.VReal(loadWaitTime))
    ensures var c := SubmittedConfig(JobConfig(returnSource, simplifySource, loadWaitTime, resultsTtl, xPaths, prompt, key), url);
            && W.ReachesXPaths(c, render) && "xpaths" !in c && !W.Crawlable(c, render, evaluates)
            && W.FailureOf(c, render, evaluates) == W.KeyError("xpaths")
  {
    var base := JobConfig(returnSource, simplifySource, loadWaitTime, resultsTtl, xPaths, prompt, key);
    var c := SubmittedConfig(base, url);
    assert c["simplify_source"] == W.VBool(simplifySource);
    assert c["load_wait_time"] == W.VReal(loadWaitTime);
    assert "xpaths" != "url";
  }

  /** The config evidently intended: the xpaths under the key the worker reads, an absent list as empty. */
  function IntendedJobConfig(returnSource: bool, simplifySource: bool, loadWaitTime: real, resultsTtl: int,
                             xPaths: Option<seq<string>>, prompt: Option<string>, key: Option<string>): W.Config
  {
    JobConfig(returnSource, simplifySource, loadWaitTime, resultsTtl, xPaths, prompt, key)["xpaths" := W.VList(xPaths.GetOr([]))]
  }

  /** With the intended config the worker returns its outcome whenever the page loads, the wait is valid and every xpath evaluates. */
  lemma IntendedJobsCrawlable(returnSource: bool, simplifySource: bool, loadWaitTime: real, resultsTtl: int,
                              xPaths: Option<seq<string>>, prompt: Option<string>, key: Option<string>,
                              url: string, render: string -> Option<string>, evaluates: (string, string) -> bool)
    requires render(W.NavigationTarget(url, simplifySource)).Some?
    requires W.ValidWait(W.VReal(loadWaitTime))
    requires forall i :: 0 <= i < |xPaths.GetOr([])| ==>
               evaluates(render(W.NavigationTarget(url, simplifySource)).value, xPaths.GetOr([])[i])
    ensures var c := SubmittedConfig(IntendedJobConfig(returnSource, simplifySource, loadWaitTime, resultsTtl, xPaths, prompt, key), url);
            W.Crawlable(c, render, evaluates) && W.XPathList(c["xpaths"]) == Some(xPaths.GetOr([]))
  {
    var base := IntendedJobConfig(returnSource, simplifySource, loadWaitTime, resultsTtl, xPaths, prompt, key);
    var c := SubmittedConfig(base, url);
    assert c["simplify_source"] == W.VBool(simplifySource);
    assert c["load_wait_time"] == W.VReal(loadWaitTime);
    assert c["xpaths"] == W.VList(xPaths.GetOr([]));
  }

  /** The pairing rule the error message states: both prompt and key, or neither. */
  predicate PromptPairInvalid(prompt: Option<string>, key: Option<string>)
  {
    Given(prompt) != Given(key)
  }

  /**
   * The guard as written rejects only half of the unpaired requests: every
   * request it rejects is unpaired, and the unpaired requests it lets through
   * are exactly those with a key and no prompt.
   */
  lemma PromptGuardOneSided(prompt: Option<string>, key: Option<string>)
    ensures PromptWithoutKey(prompt, key) ==> PromptPairInvalid(prompt, key)
    ensures PromptPairInvalid(prompt, key) && !PromptWithoutKey(prompt, key) <==> Given(key) && !Given(prompt)
  {
  }

  /** The intended rule treats the two parameters alike, which the guard as written does not. */
  lemma PromptPairSymmetric(prompt: Option<string>, key: Option<string>)
    ensures PromptPairInvalid(prompt, key) == PromptPairInvalid(key, prompt)
    ensures PromptPairInvalid(prompt, key) <==> PromptWithoutKey(prompt, key) || PromptWithoutKey(key, prompt)
  {
  }

  /** A key with no prompt, or with an empty prompt, passes the guard. */
  lemma KeyWithoutPromptAccepted(key: string)
    requires key != ""
    ensures !PromptWithoutKey(None, Some(key)) && !PromptWithoutKey(Some(""), Some(key))
    ensures PromptPairInvalid(None, Some(key))
  {
  }
}
