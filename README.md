# Diffbot client: a verified model of the request and response logic

This project models the core of a Python client for the Diffbot
content-extraction web service (`diffbot/meta.py`, `diffbot/diffbot.py`,
`diffbot/error.py`). The model covers three things:

- **Single-URL extraction** (`SingleFetcher`). It sends one GET per URL to an
  extraction API (article, analyze, discussion, image, product, video). It
  turns the response's `objects` into typed extractors. Analyze is the
  exception: its whole reply becomes one analyze extractor.
- **Bulk and crawl jobs** (`JobOperator`, `BulkJobOperator`,
  `CrawlJobOperator`). These submit a job, read the job listing, and gate
  result retrieval on job status 9 ("completed, no repeat scheduled").
  They also send the pause, resume, restart and delete control requests.
- **Search** (`Searcher`). It queries a job's collection and picks an
  extractor per result object from that object's `type`.

Around these sit the pieces they are built from:

- the sparse argument builders (`drop_none_value` and every `generate_*`);
- the query composers (`_compose_query`);
- the response check (`_check_response`);
- the extractor table (`select_extractor`) and the extractor accessors;
- the three error records and their string renderings.

The network is a `Transport.Service` object. It holds a `respond` function
from the requests sent so far and the next request to the decoded JSON
reply, plus the log of every request sent. Each operation that talks to the
service is a method of a class. It is proved against a pure function that
gives its result and the exact requests it sends: `FetchRawDataRun`,
`LazyRun`, `ControlRun`, `StartRequest`, `ExtractorsRun`. The properties of
the client are lemmas about those functions. For example, no request reaches
the data endpoint unless the listing reports status 9.

Decoded JSON is the `Json.Json` datatype. Python's behaviour on it is
modelled exactly, including the exception each operation raises on the
wrong kind of value: `v[key]`, `v[i]` with negative indices, `len(v)`, and
iteration. `None` is `JNull`. Exceptions are the `Errors.Error` datatype,
carried in a `Result`.

Modules:

- `Wrappers`: `Option` and `Result`.
- `Text`: decimal rendering and joining/splitting on spaces.
- `Json`: the value type and Python's `str()` of it.
- `Errors`: the error records.
- `Access`: Python subscripting, `len` and indexing of decoded JSON.
- `Args`: the argument builders.
- `Extractors`: the extractor table, dispatch and accessors.
- `Transport`: endpoints, the response check, and the `Service`, `Params`
  and `Client` classes.
- `Queries`: the query composers and the control payloads.
- `Fetchers`: the `SingleFetcher` and `Searcher` classes.
- `Jobs`: the job operator.

Behaviour of the code worth knowing:

- The job is selected by position, `data["jobs"][job_index]`
  (`diffbot/meta.py:120-122`). It is not looked up by name, and there is no
  "not found" error. An index outside the list is an `IndexError`.
- The bulk submission is a POST whose payload gets no token
  (`diffbot/meta.py:30-43`, `diffbot/diffbot.py:207-219`). Only the GET path
  adds the token to the query (`diffbot/meta.py:21`).
- When the data request returns no results, `fetch_raw_data` returns the
  decoded body unchanged. Its `return []` (`diffbot/meta.py:105`) can never
  be reached, because `_check_job_completed` either raises or returns true.
- There is no pagination of results. The data endpoint is read once.
- Bulk and crawl behaviour is chosen by a `family` field of one
  `JobOperator` class, not by two subclasses.

## Model

| member | source | states |
|---|---|---|
| Text.SplitJoinSpace | diffbot/diffbot.py:227 | for a non-empty list of parts none of which contains a space, splitting the space-joined string at its spaces gives back the list (an empty list joins to "", which splits to [""]) |
| Errors.ToString | diffbot/error.py:1-24 | each rendering starts with the record's class name and ends with the rendered message |
| Errors.RenderingStartsWithClassName | diffbot/error.py:1-24 | each error renders as its class name, then " :" for the token error and " #" for the other two |
| Errors.RenderingDeterminesClass | diffbot/error.py:1-24 | two errors that render alike are of the same class |
| Errors.ResponseErrorRenderingInjective | diffbot/error.py:9-15 | a response error's rendering `DiffbotResponseError #<code> :  <msg>` determines its integer code and its message |
| Errors.JobStatusErrorRenderingInjective | diffbot/error.py:18-24 | a job-status error's rendering `DiffbotJobStatusError #<status> :  <msg>` determines its status and its message |
| Errors.ResponseErrorExample | diffbot/error.py:14-15 | code 429 with message "rate limited" renders as `DiffbotResponseError #429 :  rate limited`, with two spaces after the colon |
| Access.Elements | diffbot/diffbot.py:18-19 | reading `v[i]` for i in `range(len(v))` gives `len(v)` values, each equal to `v[i]`; on failure the error is that of `len(v)` or of `v[0]` |
| Args.DropNone | diffbot/meta.py:215-216 | the result keeps exactly the entries whose value is not None, with values unchanged, and adds no key |
| Args.DropNoneIdempotent | diffbot/meta.py:215-216 | dropping None values twice equals dropping them once |
| Args.SingleArgs | diffbot/diffbot.py:187-195 | keys are among fields/timeout/callback; each is present exactly when its option is set, with the option's value |
| Args.AnalyzeArgs | diffbot/diffbot.py:109-121 | keys are among mode/fallback/discussion/fields/timeout/callback; each is present exactly when set, with its value |
| Args.ArticleArgs | diffbot/diffbot.py:123-136 | keys are among paging/maxTags/tagConfidence/discussion/fields/timeout/callback; each is present exactly when set, with its value |
| Args.DiscussionArgs | diffbot/diffbot.py:138-147 | keys are among maxPages/fields/timeout/callback; each is present exactly when set, with its value |
| Args.ImageArgs | diffbot/diffbot.py:150-156 | keys are among fields/timeout/callback; each is present exactly when set, with its value |
| Args.ProductArgs | diffbot/diffbot.py:158-167 | keys are among discussion/fields/timeout/callback; each is present exactly when set, with its value |
| Args.VideoArgs | diffbot/diffbot.py:170-176 | keys are among fields/timeout/callback; each is present exactly when set, with its value |
| Args.JobArgs | diffbot/meta.py:75-85 | keys are among the six shared job names; each of customHeaders, notifyEmail, notifyWebhook, repeat, maxRounds, pageProcessPattern is present exactly when set, with its value |
| Args.BulkArgs | diffbot/diffbot.py:235-245 | the same six keys with the same sparseness as the shared job builder |
| Args.CrawlArgs | diffbot/diffbot.py:285-313 | keys are among the 12 crawl-only names and the 6 shared job names; each of the 18 options is present exactly when set, with its value |
| Args.SearchArgs | diffbot/diffbot.py:348-353 | keys are among num/start; each is present exactly when set, with its value |
| Extractors.SelectExtractor | diffbot/diffbot.py:366-376 | succeeds exactly for the six tags, returning the variant with that tag; any other string is a KeyError naming it |
| Extractors.SelectExtractorOfTag | diffbot/diffbot.py:366-376 | each variant's tag selects that variant |
| Extractors.SelectByType | diffbot/diffbot.py:330 | a `type` value selects a variant exactly when it is one of the six tag strings, and then the tag equals it |
| Extractors.Dispatch | diffbot/diffbot.py:330-331 | a datum becomes an extractor exactly when its `type` is one of the six tags; the extractor wraps the datum unchanged, with the variant of that tag |
| Extractors.DispatchAll | diffbot/diffbot.py:329-332 | succeeds exactly when every datum dispatches, giving one extractor per datum in order; on failure the error is that of some datum |
| Extractors.DispatchAllFirstError | diffbot/diffbot.py:329-332 | when the first datum that fails is at position i, the whole dispatch fails with datum i's error |
| Extractors.DispatchAllValues | diffbot/diffbot.py:329-332 | when each datum dispatches to the matching element of a list, the whole dispatch yields that list |
| Extractors.OfKind | diffbot/diffbot.py:17-20 | one extractor of the given variant per datum, in order |
| Extractors.GetResolvedUrl | diffbot/meta.py:205-206 | `resolvedPageUrl` if present, None if absent, AttributeError when the data is not a dict |
| Extractors.GetPageUrl | diffbot/meta.py:208-209 | `pageUrl` if present, else KeyError("pageUrl") on a dict |
| Extractors.GetTitle | diffbot/meta.py:211-212 | `title` if present, else KeyError("title") on a dict |
| Extractors.GetPosts | diffbot/diffbot.py:384-385 | `posts` of a discussion extractor; AttributeError on every other variant |
| Extractors.GetHtml | diffbot/diffbot.py:399-403 | for an article, `html` when plain is false and `text` otherwise; AttributeError on every other variant |
| Extractors.GetSiteName | diffbot/diffbot.py:405-406 | `siteName` of an article extractor; fails otherwise |
| Extractors.GetLanguage | diffbot/diffbot.py:408-409 | `humanLanguage` of an article extractor; fails otherwise |
| Extractors.ArticleExample | diffbot/diffbot.py:394-409 | an article datum dispatches to an article extractor whose accessors return its fields |
| Transport.EndPoint | diffbot/meta.py:46-49 | the endpoint is the API root followed by the API type |
| Transport.EndPointInjective | diffbot/meta.py:46-49 | different API types give different endpoints |
| Transport.CheckResponse | diffbot/meta.py:52-57 | a dict with a non-null `error` becomes ResponseError(errorCode, error), or KeyError("errorCode") if that key is missing; every other value passes unchanged |
| Transport.CheckResponseIdempotent | diffbot/meta.py:52-57 | checking a value that passed changes nothing |
| Transport.RateLimitEnvelope | diffbot/meta.py:52-57 | the envelope `{error: "rate limited", errorCode: 429}` becomes ResponseError(429, "rate limited") |
| Transport.Service.Send | diffbot/meta.py:24-27 | the request is appended to the log, and the reply is the service's answer given the earlier log |
| Transport.Params.Update | diffbot/meta.py:21 | the caller's map is updated in place with the new entries |
| Transport.Client.constructor | diffbot/meta.py:14-15 | the client keeps its token |
| Transport.Client.FetchRawData | diffbot/meta.py:20-28 | "token" is set in the caller's query map in place, other keys untouched; exactly one GET of that map to the endpoint is sent; the result is the checked reply |
| Transport.Client.PostRawData | diffbot/meta.py:30-43 | exactly one POST of the payload, with no token added, is sent; the result is the checked reply |
| Queries.Overlay | diffbot/diffbot.py:180-185 | the caller's args override base keys; other base keys are kept |
| Queries.BulkQuery | diffbot/diffbot.py:222-233 | keys are name/urls/apiUrl plus the args; args win; urls is the space-joined URL list |
| Queries.CrawlQuery | diffbot/diffbot.py:272-283 | keys are seeds/name/apiUrl plus the args; args win; seeds is the space-joined URL list |
| Queries.SubmittedUrlsRecoverable | diffbot/diffbot.py:222-283 | when the URL list is non-empty, no URL contains a space and `args` does not override "urls" (bulk) or "seeds" (crawl), the submitted value splits back into the caller's URL list |
| Queries.BulkAndCrawlDifferOnlyInUrlKey | diffbot/diffbot.py:222-283 | the crawl query is the bulk query with its urls entry moved to seeds |
| Queries.SingleQuery | diffbot/diffbot.py:178-185 | keys are url plus the args; args win |
| Queries.SearchQuery | diffbot/diffbot.py:355-362 | keys are col/query plus the args; args win |
| Queries.FormatOrJson | diffbot/meta.py:146 | the format given, or "json" when it is None or empty |
| Queries.BotDataQuery | diffbot/meta.py:140-147 | exactly name and format, with format defaulting to "json" |
| Queries.ControlPayload | diffbot/meta.py:169-182 | pause → {pause: 1}, resume → {pause: 0}, restart → {restart: 1}, delete → {delete: 1}; no other action has a payload |
| Queries.ControlPayloadsDistinct | diffbot/meta.py:169-182 | the four payloads are pairwise different and each has one key other than name |
| Queries.ControlQuery | diffbot/meta.py:165-190 | a known action gives exactly name plus its payload; an unknown one is a KeyError naming it |
| Queries.BulkHeaders | diffbot/diffbot.py:211-218 | the caller's headers plus Content-Type, where the form content type always wins |
| Fetchers.ObjectsOfKind | diffbot/diffbot.py:15-20 | succeeds exactly when the API type is one of the six tags and `objects` is present and can be read element by element; then one extractor of that variant per element, in order |
| Fetchers.ObjectsByType | diffbot/diffbot.py:327-332 | succeeds exactly when `objects` is present, can be read element by element and every element dispatches; then one extractor per element, in order, with the variant chosen by that element's `type` |
| Fetchers.ExtractorsRun | diffbot/diffbot.py:8-20 | exactly one GET is sent; the result succeeds exactly when the reply passes the check and its objects unwrap, and then it is the unwrapped objects of the checked reply; a failed check is returned as is |
| Fetchers.SingleFetcher.constructor | diffbot/diffbot.py:5-6 | the fetcher keeps its client (and so its token) |
| Fetchers.Searcher.constructor | diffbot/diffbot.py:317-319 | the searcher keeps its client and the job name it searches |
| Fetchers.SingleFetcher.FetchRawData | diffbot/diffbot.py:97-107 | one GET of {url} overlaid with the args, plus the token, is sent; the result is the checked reply |
| Fetchers.SingleFetcher.FetchExtractors | diffbot/diffbot.py:8-20 | one request is sent; the result is the extractors of `objects`, all of the API type's variant, in order, or the first error |
| Fetchers.SingleFetcher.FetchAnalyzeExtractors | diffbot/diffbot.py:36-48 | one request is sent; the whole checked reply is wrapped in a single analyze extractor |
| Fetchers.SingleFetcher.FetchArticleExtractors | diffbot/diffbot.py:22-34 | the extractor fetch for "article" |
| Fetchers.SingleFetcher.FetchDiscussionExtractors | diffbot/diffbot.py:51-61 | the extractor fetch for "discussion" |
| Fetchers.SingleFetcher.FetchImageExtractors | diffbot/diffbot.py:63-72 | the extractor fetch for "image" |
| Fetchers.SingleFetcher.FetchProductExtractors | diffbot/diffbot.py:74-83 | the extractor fetch for "product" |
| Fetchers.SingleFetcher.FetchVideoExtractors | diffbot/diffbot.py:85-94 | the extractor fetch for "video" |
| Fetchers.Searcher.FetchRawData | diffbot/diffbot.py:334-346 | one GET of {col, query} overlaid with the args, plus the token, to the search endpoint; the result is the checked reply |
| Fetchers.Searcher.FetchSearchExtractors | diffbot/diffbot.py:321-332 | one request is sent; the result is one extractor per object, in order, with the variant chosen by the object's type, or the first error |
| Jobs.JobOf | diffbot/meta.py:120-122 | succeeds exactly when the checked listing has `jobs` and the index lands in it; the job is `jobs[job_index]`; a non-dict listing is a TypeError |
| Jobs.JobAt | diffbot/meta.py:120-130 | the listing is checked first and its error passes through; a found job is `jobs[job_index]` of the listing |
| Jobs.StatusAt | diffbot/meta.py:116-118 | succeeds exactly when the job is found and has `jobStatus`, which is returned |
| Jobs.CompletedAt | diffbot/meta.py:107-114 | succeeds, with true, exactly when the indexed job's status is 9 |
| Jobs.FetchRawDataRun | diffbot/meta.py:98-105 | the listing request comes first; a second request, the data request, is sent exactly when the gate passes, and then the result is the checked data reply; a failed gate returns its error |
| Jobs.LazyRun | diffbot/meta.py:87-95 | sends exactly what the gated fetch sends; produces extractors only from a successful fetch, by dispatching its data |
| Jobs.StartRequest | diffbot/diffbot.py:207-269 | the submission goes to the family endpoint; bulk sends the bulk query as is, crawl sends the crawl query with the token |
| Jobs.ControlRun | diffbot/meta.py:165-190 | at most one request; none exactly when the action is unknown, and then a KeyError naming it |
| Jobs.JobOperator.ComposeQuery | diffbot/diffbot.py:222-283 | keys are name, apiUrl and urls (bulk) or seeds (crawl), plus the args, which win; name is the job name unless overridden |
| Jobs.CheckCompleted | diffbot/meta.py:107-114 | true exactly when `status` is 9; another status with a message raises JobStatusError(status, message) |
| Jobs.StatusOfIndexedJob | diffbot/meta.py:116-122 | the status is `jobStatus` of the job at the index, counting from the end when negative; outside the list it is an IndexError |
| Jobs.StatusExamples | diffbot/meta.py:107-122 | a listing whose job reports status 9 yields that status unchanged and passes; status 1 raises JobStatusError(1, message) |
| Jobs.NoDataRequestUnlessCompleted | diffbot/meta.py:98-105 | the listing request is sent first; the data endpoint is contacted exactly when the gate passes; otherwise the gate's error is returned after one request |
| Jobs.LazyExtractors | diffbot/meta.py:90-95 | empty data yields nothing; a list yields one extractor per datum, in order, chosen by its type |
| Jobs.LazyGated | diffbot/meta.py:87-95 | no extractor is produced unless the gate passed; a failed gate sends only the listing request |
| Jobs.LazyGateFollowsIndex | diffbot/meta.py:87-89 | with job 0 complete and job 1 paused, gating on job 1 stops after the listing with job 1's error, while gating on job 0 fetches the data |
| Jobs.SubmissionShape | diffbot/diffbot.py:207-269 | bulk submits by POST with the form content type and a token only if the args hold one; crawl submits by GET with the caller's headers and the operator's token |
| Jobs.ControlSendsPayload | diffbot/meta.py:165-190 | a known action sends one GET to the family endpoint whose keys are exactly name, token and the payload's key, with the job name, the token and the payload's value (pause 1, resume pause 0, restart 1, delete 1); an unknown action sends nothing; repeating an action repeats the identical request |
| Jobs.GenerateApiUrl | diffbot/meta.py:68-73 | the endpoint alone without args, otherwise the endpoint, "?" and the encoded args |
| Jobs.JobOperator.constructor | diffbot/meta.py:63-66 | the operator keeps the client, job name and family |
| Jobs.JobOperator.FetchJobs | diffbot/meta.py:124-130 | one GET of {name} plus the token to the family endpoint; the result is the checked listing |
| Jobs.JobOperator.FetchJob | diffbot/meta.py:120-122 | one listing request; the result is `jobs[job_index]` of the listing |
| Jobs.JobOperator.FetchJobStatus | diffbot/meta.py:116-118 | one listing request; the result is that job's `jobStatus` |
| Jobs.JobOperator.CheckJobCompleted | diffbot/meta.py:107-114 | one listing request; the result is the status check of the indexed job |
| Jobs.JobOperator.FetchRawData | diffbot/meta.py:98-105 | the result and the requests sent are those of the gated fetch: listing, then data only when status is 9 |
| Jobs.JobOperator.LazyFetchExtractors | diffbot/meta.py:87-95 | drained, the result and the requests are those of the gated fetch on the given job, followed by dispatch of every datum |
| Jobs.JobOperator.LazyFetchExtractorsAsWritten | diffbot/meta.py:87-89 | whatever index it is given, the gate looks at job 0 |
| Jobs.JobOperator.FetchCompletedSearcher | diffbot/meta.py:132-138 | one listing request; a new searcher over this job's name exactly when the indexed job is complete, otherwise the gate's error |
| Jobs.JobOperator.FetchCompletedSearcherAsWritten | diffbot/meta.py:132-135 | always fails with a TypeError and sends nothing |
| Jobs.JobOperator.StartJob | diffbot/diffbot.py:207-269 | exactly the family's submission request is sent; the result is the checked reply |
| Jobs.JobOperator.ControlJob | diffbot/meta.py:165-190 | the result and requests are those of the control run: one request for a known action, none for an unknown one |
| Jobs.JobOperator.PauseJob | diffbot/meta.py:156-157 | the pause control run; the reply is discarded but its error propagates |
| Jobs.JobOperator.ResumeJob | diffbot/meta.py:153-154 | the resume control run; the reply is discarded but its error propagates |
| Jobs.JobOperator.RestartJob | diffbot/meta.py:159-160 | the restart control run; the reply is discarded but its error propagates |
| Jobs.JobOperator.DeleteJob | diffbot/meta.py:162-163 | the delete control run; the reply is discarded but its error propagates |

## Left out

- The HTTP calls (`requests.get`, `requests.post`) and `.json()` decoding are left out. The service is an abstract `respond` function, and each request records its endpoint, parameter map and headers.
- `urllib.parse.urlencode` is left out. Requests carry the parameter map itself, and `Jobs.GenerateApiUrl` takes the encoder as a parameter.
- The `const` module is not part of this model. The root `https://api.diffbot.com/v3/` comes from the docstring at `diffbot/meta.py:141`.
- Floating-point JSON numbers are not modelled. Integers are unbounded.
- Python's `str()` of a list or dict inside an error message is left out. `Json.Show` renders them by a fixed placeholder.
- Generator laziness is left out. `lazy_fetch_extractors` is modelled drained: it returns the whole sequence or the first error. Its requests happen on first iteration, not at the call.
- Header names are compared case-sensitively. Python's `requests` merges them case-insensitively.
- Jobs.JobOperator.FetchCompletedSearcher: the new searcher shares the operator's client. The source builds a new client from the same token.
- `Extractor.get_raw_data` is the `data` field of `Extractors.Extractor`, so it has no member of its own.
- `DiffbotTokenError` is modelled with its rendering, but the shown code never raises it.
- Credential lookup is left out. `os` and `toml` are imported but unused.
- The mutable default `query={}` of `_fetch_raw_data` is left out. Every caller passes a fresh map.
- `tests/test.py` and `setup.py` are left out. One makes live network calls and the other is packaging.

## Findings

| source | as written | input that shows it | evidently intended | confidence | as-written member | corrected member |
|---|---|---|---|---|---|---|
| diffbot/meta.py:132-135 | `fetch_completed_searcher` calls `_check_job_completed()` without its required `job_index`, so it raises TypeError on every call, before any request | any operator, even one whose job reports status 9 (`Jobs.StatusExamples`) | check the status of the job (index 0 by default) and return a Searcher when it is 9 | high, not executed | Jobs.JobOperator.FetchCompletedSearcherAsWritten | Jobs.JobOperator.FetchCompletedSearcher |
| diffbot/meta.py:87-89 | `lazy_fetch_extractors(job_index)` calls `fetch_raw_data()` without `job_index`, so the gate always checks job 0 | listing `[status 9, status 2 "paused"]`, `job_index = 1`: the data is fetched although job 1 is paused (`Jobs.LazyGateFollowsIndex`) | forward `job_index` to `fetch_raw_data` | medium, not executed | Jobs.JobOperator.LazyFetchExtractorsAsWritten | Jobs.JobOperator.LazyFetchExtractors |
