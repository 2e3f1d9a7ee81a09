# easy-crawler-api, modelled in Dafny

easy-crawler-api is a small crawling service. An HTTP API turns a list of
URLs into one queued crawl job per URL (`/crawl`). It reports the queue
depth (`/queueSize`), one job's status and position (`/jobStatus`), and the
results of a batch of jobs (`/jobResults`). A worker takes each job, drives a
browser to the page (optionally in Firefox Reader View) and returns the page
source, plus one extraction entry per requested xpath. A demo script
(`demo_jobs/apartments.py`) builds the crawl request and the results query
as URL strings, keeps only apartments.com URLs, and cleans scraped counts
such as `"1,234 Rentals"` into integers.

The project has four files:

- `wrappers.dfy`: `Option` and `Result`.
- `worker.dfy` (module `Worker`): `crawl_URL` as the method `CrawlUrl`.
  - The job config is a Python dict, `map<string, Val>`.
  - The browser is a parameter `render`. It maps a navigation target to the
    captured page source, or to `None` when navigation raises.
  - lxml is a parameter `evaluates`. It says whether an xpath can be
    evaluated on a page; when it cannot, `crawl_URL` raises.
- `api.dfy` (module `Api`): the endpoints, over a class `Store` that stands
  for the Redis-backed RQ queue.
  - The store holds the line of pending job ids, and per job its config,
    status, latest result and result time-to-live.
  - RQ's worker loop is three store operations: take the head job
    (`StartNext`), store the outcome (`Finish`), and one turn of the loop
    (`WorkOnce`). They exist so that job states can reach "finished" and
    "failed".
- `apartments.dfy` (module `Apartments`): the demo's string helpers, as pure
  functions. It also writes out the Python string primitives they use:
  `join`, `split`, `in`, `strip`, `replace` and `int`.

The endpoints are modelled as the code is written, with its quirks, and the
corrected behaviour sits beside them (see "## Findings"):

- `jobResults` tests the latest result's type the wrong way round.
- An unknown id in `jobResults` fails the whole request.
- The prompt/key check only works in one direction.
- The submitted config stores the xpaths under `x_paths`, but the worker
  reads `xpaths`.
- `_extract_xpath` returns nothing.

## Model

| member | source | states |
|---|---|---|
| Worker.NavigationTarget | worker.py:56-61 | with `simplify_source` truthy the target is `about:reader?url=` followed by the URL (prefix and remainder stated separately); otherwise it is the URL unchanged |
| Worker.XPathResultsAllNone | worker.py:50-51 | the extraction list has one entry per xpath, and as written every entry is `None`, because `_extract_xpath` has no `return` |
| Worker.XPathResultsIntended | worker.py:76 | the intended extraction list is positional: the same length as the xpaths, and entry i holds the matches of xpath i |
| Worker.FirstFailing | worker.py:50-51 | the xpaths are evaluated in the order the comprehension of worker.py:76 takes them: the result is `None` iff every xpath evaluates on the page, and otherwise the index of the first one that does not, all before it evaluating |
| Worker.FailureOf | worker.py:53-83 | the exception `crawl_URL` raises on a config that is not crawlable follows the order the code reads it: KeyError for `simplify_source`, then for `url`; a failed navigation; KeyError for `load_wait_time`; an invalid wait; KeyError or TypeError for `xpaths`; and otherwise the lxml error of the first xpath of the list that does not evaluate |
| Worker.CrawlUrl | worker.py:53-83 | it returns normally exactly when the config is crawlable (every key present, the page loads, the wait is valid and every xpath evaluates). Otherwise it raises exactly the exception `FailureOf` names, so a loaded page without `load_wait_time` raises KeyError('load_wait_time'). On success the result holds the input config unchanged and the rendered page source; `xpath_results` is present iff the xpath list is non-empty, and then it is the positional extraction list |
| Api.IndexOf | api.py:88 | `get_position` is the first index of the id in the line, and `None` exactly when the id is not in it |
| Api.Store.constructor | api.py:47 | a new queue is empty, has no jobs, and satisfies the store invariant |
| Api.Store.Position | api.py:88 | the position is `None` iff the job is not waiting; otherwise it is its first index in the line |
| Api.Store.Enqueue | api.py:73 | `q.enqueue` appends a fresh id to the line and stores a queued job with the given config and ttl; every other job is unchanged |
| Api.Store.StartNext | api.py:73 | RQ's worker takes the head of the line, if there is one, and marks that job started; the line loses exactly its head |
| Api.Store.Finish | api.py:99 | RQ stores a run's outcome: finished with a successful result and the return value, or failed with the exception; nothing else changes |
| Api.WorkOnce | worker.py:53-83 | one worker turn runs `crawl_URL` on the head job's config and stores its outcome. With RQ's job timeout left out (see "## Left out"), the job ends finished iff the config is crawlable, with a successful result whose return value holds the unchanged config, the rendered page and the extraction list. Otherwise it ends failed, with exactly the exception `FailureOf` names stored. The line loses its head; the id counter, the other jobs and the job's config are unchanged |
| Api.JobConfig | api.py:61-69 | the shared dict has no `url` key yet, and stores the xpaths under `x_paths`, never under `xpaths` |
| Api.SubmittedConfigSetsUrl | api.py:72 | the config submitted for a URL is the shared dict with `url` set to that URL, every other key unchanged |
| Api.SetUrl | api.py:71-72 | overwriting `url` on the one shared dict, whether for the first time or again, gives exactly the config for the new URL |
| Api.AddedJobs | api.py:71-73 | after enqueuing n URLs, id start+j holds the queued job for URL j with the given ttl, old jobs are unchanged, and no other key appears |
| Api.AddedIsEnqueued | api.py:71-74 | enqueuing the URLs one after the other is a submission as `Enqueued` describes it |
| Api.EnqueueNext | api.py:72-74 | one turn of the loop sets `url` on the shared dict, enqueues a copy under the next fresh id and appends that id; the store invariant holds and the record of what the loop has done covers one more URL |
| Api.EnqueueEach | api.py:70-74 | the loop enqueues one job per URL, in URL order, and collects their ids. The line grows by exactly those ids. Every job holds the shared fields, its own `url` and the given `results_ttl`. The ids are fresh and distinct, and old jobs are untouched |
| Api.AddTask | api.py:49-77 | it fails with 400 and the fixed detail iff a prompt is given without a key. On failure nothing is enqueued. On success it reports `len(urls)` ids in URL order and the queue length after the last enqueue |
| Api.QueueSize | api.py:79-82 | the reported size is the length of the line; the store is not modified |
| Api.JobStatus | api.py:84-88 | an unknown id raises from `Job.fetch`; otherwise it reports the job's status and its position, which is present iff the job is waiting; the store is not modified |
| Api.JobResults | api.py:90-106 | the request succeeds iff no id aborts, and otherwise fails with the exception of the first id that does. On success each id has its own entry: a 102 marker when not finished, the return value for a FAILED result, a 500 marker otherwise. The keys are exactly the ids given, and the store is not modified |
| Api.AsWrittenNeverReturnsResult | api.py:100-103 | in a store RQ keeps consistent, a finished job always gets the 500 marker and every other job the 102 marker, so no return value is ever reported |
| Api.IntendedEntriesTagged | api.py:97-105 | the intended lookup reports an unknown id as 404, a finished job by its return value, a failed job by its exception, and a queued or started job as not finished |
| Api.JobResultsIntended | api.py:93-106 | the intended batch lookup gives one entry per id given, each the intended entry, and never fails as a whole |
| Api.SubmittedJobsNeverCrawlable | api.py:61-72 | no config `addTask` submits has an `xpaths` key, so the worker never returns its outcome: it raises at navigation when the page does not load, at `time.sleep` when the wait is refused, and otherwise `KeyError('xpaths')` |
| Api.SubmittedJobsStopAtXPaths | api.py:66 | when the page loads and `time.sleep` accepts the wait, a config `addTask` submits reaches the xpaths lookup and fails there with `KeyError('xpaths')` |
| Api.IntendedJobsCrawlable | api.py:61-69 | with the xpaths under `xpaths` (an absent list as empty), the worker returns normally whenever the page loads, `time.sleep` accepts the wait and lxml can evaluate each given xpath, and it iterates exactly the given xpaths |
| Api.PromptGuardOneSided | api.py:59-60 | every request the guard rejects breaks the both-or-neither rule; the rule-breaking requests it lets through are exactly those with a key and no prompt |
| Api.PromptPairSymmetric | api.py:59-60 | the both-or-neither rule from the error message treats prompt and key alike; it is the guard applied in both directions |
| Api.KeyWithoutPromptAccepted | api.py:59 | a key with no prompt, or with an empty prompt, passes the guard, although it breaks the both-or-neither rule |
| Apartments.Split | demo_jobs/apartments.py:77 | `str.split` with a one-character separator never returns an empty list |
| Apartments.SplitJoin | demo_jobs/apartments.py:20 | joining fields that contain no separator and splitting the result again gives the fields back; an empty list gives one empty field |
| Apartments.BuildRequest | demo_jobs/apartments.py:18-22 | the crawl request starts with `http://localhost:8080/crawl?` |
| Apartments.BuildRequestFields | demo_jobs/apartments.py:19-22 | split at `&`, the query is the `urls=` fields in input order, then `return_source=false` and `simplify_source=false`, then the `xpaths=` fields in input order, provided no URL or xpath contains `&` |
| Apartments.FieldKinds | demo_jobs/apartments.py:20-22 | every query field is empty, a fixed flag, a `urls=` field or an `xpaths=` field |
| Apartments.FlagsAlwaysFalse | demo_jobs/apartments.py:21 | for any URLs and xpaths without `&`, every field that sets `return_source` or `simplify_source` sets it to false |
| Apartments.InjectedField | demo_jobs/apartments.py:20 | a URL with an unescaped `&` injects the text after it as a query field of its own |
| Apartments.ApartmentUrls | demo_jobs/apartments.py:25 | a URL is kept iff it is in the input and contains `www.apartments.com`; the result is no longer than the input |
| Apartments.ApartmentUrlsIsSubsequence | demo_jobs/apartments.py:25 | the filter keeps the kept URLs in their input order: the output is a subsequence of the input |
| Apartments.ResultsQuery | demo_jobs/apartments.py:49 | the results request starts with `http://localhost:8080/jobResults?` |
| Apartments.ResultsQueryFields | demo_jobs/apartments.py:49 | after that prefix, split at `&`, the query is one `jobIDs=` field per id, in the order given |
| Apartments.RemoveCommas | demo_jobs/apartments.py:77 | `replace(',', '')` leaves no comma |
| Apartments.RemoveCommasDigits | demo_jobs/apartments.py:77 | removing the commas from digits and commas leaves only digits |
| Apartments.StripOfDigits | demo_jobs/apartments.py:77 | text that begins and ends with a digit is unchanged by `strip` |
| Apartments.CleanCount | demo_jobs/apartments.py:76-77 | when the first space-separated token of the stripped text is digits and commas with at least one digit, the result is that token's digits read in base 10, and it is never negative |
| Apartments.CleanTokenThenWord | demo_jobs/apartments.py:77 | a count token, a space and a word clean to the token's digits as a number |
| Apartments.CleanExample | demo_jobs/apartments.py:76-77 | `"1,234 Rentals"` cleans to 1234 |
| Apartments.SeparatorAfterCountRejected | demo_jobs/apartments.py:77 | `strip` counts U+001C as whitespace but `int()` does not skip it, so `"5\x1c Rentals"` keeps the separator in its first token and cleaning it raises ValueError |
| Apartments.StripPadding | demo_jobs/apartments.py:77 | `strip` removes any whitespace added on either side of the text |
| Apartments.CleanIgnoresPadding | demo_jobs/apartments.py:77 | leading and trailing whitespace does not change the cleaned result |

## Left out

- The Dash UI and its mounting (api.py:20-44, api.py:110-111): user interface, not decision logic.
- Redis, RQ internals and time:
  - The Redis connection and RQ internals (api.py:46-47) are replaced by the one sequential `Store`.
  - Job ids are numbers from a counter, not RQ's uuid strings.
  - Result expiry after `results_ttl` seconds is not modelled; the ttl is stored as a number only.
  - RQ's statuses other than queued, started, finished and failed never arise.
- Concurrency between API processes and workers is left out; every operation is one atomic step on the store.
- Api.WorkOnce: RQ's job timeout is not modelled. api.py:73 passes no `job_timeout`, so RQ's default of 180 seconds applies. A run longer than that, for instance one whose `load_wait_time` (worker.py:64) is over 180 seconds, ends failed in RQ but finished in the model whenever the config is crawlable.
- The browser and the page:
  - The Selenium/Firefox setup and page loading (worker.py:19-48, worker.py:58, worker.py:61) are the parameter `render`.
  - The DOM is the page source itself, so the BeautifulSoup/lxml parsing (worker.py:73-74) drops out. An `etree.HTML` result of `None` makes every xpath evaluation raise; `evaluates` covers that case.
  - XPath evaluation (worker.py:51) is the parameter `evaluates`, which only says whether it raises. Its matches are not computed; as written they are discarded anyway.
- `time.sleep` (worker.py:64) is only checked to accept its argument: a bool, or a non-negative number whose value in nanoseconds is at most 2^63 - 1 (larger values raise OverflowError). The waiting itself, NaN and the rounding of the float product are not modelled; the bound is applied to the exact real value.
- Worker.CrawlUrl: a `url` value that is not a string is reported as `TypeError('url')` before navigation. Python would instead format it into the Reader View address (worker.py:58) or pass it to the driver (worker.py:61); what the driver does then is not modelled. `addTask` only ever submits string URLs (api.py:50), so such a config never comes from the API.
- Api.AddTask takes every query parameter explicitly. FastAPI's defaults (api.py:51-58) are not modelled: a caller supplies them itself (`True` for `return_source` and `simplify_source`, `0.0` for `load_wait_time`, `None` for `x_paths`, `chatgpt_prompt` and `openai_key`).
- Api.JobConfig always stores `results_ttl` as an integer. The default at api.py:55 is the environment string `DEFAULT_RESULTS_TTL`, which FastAPI does not convert, so an omitted `results_ttl` puts a string in the dict and in `result_ttl`; that case is not modelled.
- Apartments.PyInt models `int()` for ASCII digits, an optional sign, surrounding whitespace and single underscores between digits. The whitespace it skips is `str.isspace()`'s set without U+001C to U+001F, which CPython's `int()` does not skip in ASCII text; `strip` uses the full `str.isspace()` set. Other Unicode digits are not modelled, and neither is the limit of 4300 digits that CPython 3.11 and later impose on `int()` of a string (a longer count raises ValueError there).
- HTTP parsing and serialisation are left out. Exceptions stored in `/jobResults` are kept as status code and detail, not as serialised objects.
- Parts of demo_jobs/apartments.py are not modelled, because they are I/O or library code:
  - the pickle file I/O and `requests` calls (lines 15-16, 31-42, 46-50);
  - the polling loop with `tqdm` and `sleep` (lines 63-71);
  - `check_meta_job`'s JSON handling (lines 48-61);
  - the pandas assembly (lines 82-113);
  - the BigQuery upload (lines 115-135).
- Logging throughout, and the ChatGPT TODO (worker.py:79-80).

## Findings

| source | as written | input that shows it | evidently intended | confidence | as-written member | corrected member |
|---|---|---|---|---|---|---|
| api.py:100-103 | a finished job whose latest result is FAILED has its return value reported; any other finished job gets the 500 "did not succeed" marker | a job the worker completed normally: status finished, result SUCCESSFUL, so the 500 marker is reported | report the return value of a successful result, and the failure of a failed job | high (not executed) | Api.AsWrittenNeverReturnsResult | Api.IntendedEntriesTagged |
| api.py:96 | `Job.fetch` of an unknown id raises outside the handled `HTTPException`, failing the whole batch | `jobIDs = [id of a finished job, unknown id]`: the request fails and the finished job's entry is lost | one entry per id, an unknown id getting its own marker | medium (not executed) | Api.JobResults | Api.JobResultsIntended |
| api.py:59 | only "prompt without key" is rejected | `openai_key="k"` and no `chatgpt_prompt`: accepted, although the message says both or neither | reject a key without a prompt as well | medium (not executed) | Api.KeyWithoutPromptAccepted | Api.PromptPairSymmetric |
| api.py:66 | the xpaths are stored under `x_paths`, but the worker reads `config['xpaths']` (worker.py:71) | any submission whose page loads and whose wait `time.sleep` accepts: the worker raises `KeyError('xpaths')` | store them under `xpaths`, an absent list as empty | high (not executed) | Api.SubmittedJobsStopAtXPaths | Api.IntendedJobsCrawlable |
| worker.py:50-51 | `_extract_xpath` evaluates the xpath but returns nothing | any non-empty xpath list: every entry of `xpath_results` is `None` | return the matches of each xpath | high (not executed) | Worker.XPathResultsAllNone | Worker.XPathResultsIntended |

The endpoints and the worker keep the behaviour as written. Each corrected
member sits beside the member it corrects, and the proved intended property
is stated about the corrected member.
