/** The job operator (`JobOperator`, `BulkJobOperator`, `CrawlJobOperator`):
    job submission, the status gate in front of result retrieval, result
    unwrapping and lifecycle control. Each method is proved against a pure
    description of what it returns and which requests it sends, and the
    properties of the operator are lemmas about those descriptions. */
module Jobs {
  import opened Wrappers
  import opened Json
  import opened Errors
  import opened Access
  import opened Extractors
  import opened Transport
  import opened Queries
  import opened Fetchers

  /** The two job families; each is a subclass of `JobOperator` in the source. */
  datatype Family = Bulk | Crawl

  /** The `api_type` each subclass passes to `JobOperator.__init__`. */
  function ApiType(f: Family): string {
    match f
    case Bulk => "bulk"
    case Crawl => "crawl"
  }

  /** What an operator holds: the token, the job name and the family. */
  datatype Job = Job(token: string, name: string, family: Family)

  /** The job-status code meaning "completed, no repeat scheduled". */
  const Completed: int := 9

  /** `_fetch_jobs`: one GET of `{name: job_name}` to the family endpoint. */
  function ListingRequest(job: Job): Request {
    Get(EndPoint(ApiType(job.family)), map["name" := JStr(job.name), "token" := JStr(job.token)], map[])
  }

  /** The data endpoint, `"{api_type}/data"`. */
  function DataEndPoint(job: Job): string {
    EndPoint(ApiType(job.family) + "/data")
  }

  /** The data request of `fetch_raw_data`. */
  function DataRequest(job: Job, format: Option<string>): Request {
    Get(DataEndPoint(job), BotDataQuery(job.name, format)["token" := JStr(job.token)], map[])
  }

  /** The lookup `_fetch_job(job_index)` makes in the checked listing:
      `data["jobs"][job_index]`. */
  function JobOf(data: Json, jobIndex: int): (r: Result<Json, Error>)
    ensures r.Ok? <==> Has(data, "jobs") && Index(data.fields["jobs"], jobIndex).Ok?
    ensures r.Ok? ==> r == Index(data.fields["jobs"], jobIndex)
    ensures !data.JObj? ==> r == Err(TypeError)
  {
    var jobs :- Subscript(data, "jobs");
    Index(jobs, jobIndex)
  }

  /** `_fetch_job(job_index)` given the listing response:
      `data["jobs"][job_index]` (a negative index counts from the end). */
  function JobAt(listing: Json, jobIndex: int): (r: Result<Json, Error>)
    ensures r.Ok? ==> CheckResponse(listing).Ok? && Has(listing, "jobs")
    ensures r.Ok? ==> Index(listing.fields["jobs"], jobIndex) == r
    ensures CheckResponse(listing).Err? ==> r == Err(CheckResponse(listing).error)
  {
    var data :- CheckResponse(listing);
    JobOf(data, jobIndex)
  }

  /** `_fetch_job_status(job_index)`: that job's `jobStatus`. */
  function StatusAt(listing: Json, jobIndex: int): (r: Result<Json, Error>)
    ensures r.Ok? <==> JobAt(listing, jobIndex).Ok? && Has(JobAt(listing, jobIndex).value, "jobStatus")
    ensures r.Ok? ==> r.value == JobAt(listing, jobIndex).value.fields["jobStatus"]
  {
    var job :- JobAt(listing, jobIndex);
    Subscript(job, "jobStatus")
  }

  /** The status is read from the job the index selects in the listing's
      `jobs` array (a negative index counting from the end); an index
      outside the array is an IndexError, never another job's status. */
  lemma StatusOfIndexedJob(listing: Json, jobs: seq<Json>, jobIndex: int)
    requires CheckResponse(listing).Ok? && Has(listing, "jobs") && listing.fields["jobs"] == JArr(jobs)
    ensures var p := Position(jobIndex, |jobs|);
            && (0 <= p < |jobs| ==> StatusAt(listing, jobIndex) == Subscript(jobs[p], "jobStatus"))
            && (!(0 <= p < |jobs|) ==> StatusAt(listing, jobIndex) == Err(IndexError))
  {
  }

  /** The status check of `_check_job_completed`: true when the status
      is 9; any other status raises a job-status error carrying the
      status and the message. */
  function CheckCompleted(status: Json): (r: Result<bool, Error>)
    ensures r.Ok? <==> Subscript(status, "status") == Ok(JInt(Completed))
    ensures r.Ok? ==> r.value
    ensures Has(status, "status") && status.fields["status"] != JInt(Completed) && Has(status, "message") ==>
              r == Err(Diffbot(JobStatusError(status.fields["status"], status.fields["message"])))
  {
    var code :- Subscript(status, "status");
    if code != JInt(Completed) then
      var msg :- Subscript(status, "message");
      Err(Diffbot(JobStatusError(code, msg)))
    else
      Ok(true)
  }

  /** `_check_job_completed(job_index)` given the listing response. */
  function CompletedAt(listing: Json, jobIndex: int): (r: Result<bool, Error>)
    ensures r.Ok? <==> StatusAt(listing, jobIndex).Ok? && Subscript(StatusAt(listing, jobIndex).value, "status") == Ok(JInt(Completed))
    ensures r.Ok? ==> r.value
  {
    var status :- StatusAt(listing, jobIndex);
    CheckCompleted(status)
  }

  /** Everything `fetch_raw_data(format, job_index)` does, as a function of
      the service: the listing request, then the data request only when
      the gate passed. */
  function FetchRawDataRun(job: Job, respond: (seq<Request>, Request) -> Json, history: seq<Request>,
                           format: Option<string>, jobIndex: int): (r: Run<Json>)
    ensures 1 <= |r.sent| <= 2 && r.sent[0] == ListingRequest(job)
    ensures |r.sent| == 2 <==> CompletedAt(respond(history, ListingRequest(job)), jobIndex).Ok?
    ensures |r.sent| == 2 ==> r.sent[1] == DataRequest(job, format)
    ensures r.result.Ok? ==> |r.sent| == 2
    ensures |r.sent| == 2 ==> r.result == CheckResponse(respond(history + [ListingRequest(job)], DataRequest(job, format)))
    ensures CompletedAt(respond(history, ListingRequest(job)), jobIndex).Err? ==>
              r.result == Err(CompletedAt(respond(history, ListingRequest(job)), jobIndex).error)
  {
    var listing := respond(history, ListingRequest(job));
    match CompletedAt(listing, jobIndex)
    case Err(e) => Run(Err(e), [ListingRequest(job)])
    case Ok(_) =>
      var req := DataRequest(job, format);
      Run(CheckResponse(respond(history + [ListingRequest(job)], req)), [ListingRequest(job), req])
  }

  /** The data endpoint is contacted exactly when the job the index
      selects reports status 9; otherwise the listing is the only request
      and the status error (or lookup error) is raised. */
  lemma NoDataRequestUnlessCompleted(job: Job, respond: (seq<Request>, Request) -> Json, history: seq<Request>,
                                     format: Option<string>, jobIndex: int)
    ensures var run := FetchRawDataRun(job, respond, history, format, jobIndex);
            var gate := CompletedAt(respond(history, ListingRequest(job)), jobIndex);
            && |run.sent| > 0 && run.sent[0] == ListingRequest(job)
            && ((exists k :: 0 <= k < |run.sent| && run.sent[k].endpoint == DataEndPoint(job)) <==> gate.Ok?)
            && (gate.Err? ==> run.sent == [ListingRequest(job)] && run.result == Err(gate.error))
  {
    var run := FetchRawDataRun(job, respond, history, format, jobIndex);
    var gate := CompletedAt(respond(history, ListingRequest(job)), jobIndex);
    assert |ListingRequest(job).endpoint| < |DataEndPoint(job)|;
    if gate.Ok? {
      assert run.sent[1].endpoint == DataEndPoint(job);
    }
  }

  /** A listing whose selected job reports status 9 passes the gate and its
      status is returned unchanged; a job still running (status 1) raises
      the status error with its code and message. */
  lemma StatusExamples()
    ensures var done := JObj(map["status" := JInt(9), "message" := JStr("finished")]);
            var listing := JObj(map["jobs" := JArr([JObj(map["name" := JStr("job-A"), "jobStatus" := done])])]);
            StatusAt(listing, 0) == Ok(done) && CompletedAt(listing, 0) == Ok(true)
    ensures var running := JObj(map["status" := JInt(1), "message" := JStr("crawling")]);
            var listing := JObj(map["jobs" := JArr([JObj(map["name" := JStr("job-A"), "jobStatus" := running])])]);
            CompletedAt(listing, 0) == Err(Diffbot(JobStatusError(JInt(1), JStr("crawling"))))
  {
  }

  /** What `lazy_fetch_extractors` makes of the fetched data: nothing for
      an empty value; otherwise one extractor per datum, in order, chosen
      by the datum's `type`. Iterating a dict yields its key strings,
      which cannot be subscripted by "type". */
  function LazyExtractors(data: Json): (r: Result<seq<Extractor>, Error>)
    ensures Len(data) == Ok(0) ==> r == Ok([])
    ensures data.JArr? ==> r == DispatchAll(data.items)
  {
    var n :- Len(data);
    if n == 0 then Ok([])
    else if data.JObj? then Err(TypeError)
    else DispatchAll(Elements(data).value)
  }

  /** Everything `lazy_fetch_extractors` does when drained, with the gate
      evaluated on job `jobIndex`. */
  function LazyRun(job: Job, respond: (seq<Request>, Request) -> Json, history: seq<Request>,
                   jobIndex: int): (r: Run<seq<Extractor>>)
    ensures r.sent == FetchRawDataRun(job, respond, history, None, jobIndex).sent
    ensures r.result.Ok? ==> FetchRawDataRun(job, respond, history, None, jobIndex).result.Ok?
    ensures FetchRawDataRun(job, respond, history, None, jobIndex).result.Ok? ==>
              r.result == LazyExtractors(FetchRawDataRun(job, respond, history, None, jobIndex).result.value)
  {
    var run := FetchRawDataRun(job, respond, history, None, jobIndex);
    Run(match run.result { case Ok(data) => LazyExtractors(data) case Err(e) => Err(e) }, run.sent)
  }

  /** No extractor is produced, and the data endpoint is not contacted,
      unless the gate passed. */
  lemma LazyGated(job: Job, respond: (seq<Request>, Request) -> Json, history: seq<Request>, jobIndex: int)
    ensures var run := LazyRun(job, respond, history, jobIndex);
            var gate := CompletedAt(respond(history, ListingRequest(job)), jobIndex);
            && (run.result.Ok? ==> gate.Ok?)
            && (gate.Err? ==> run.result == Err(gate.error) && run.sent == [ListingRequest(job)])
  {
    NoDataRequestUnlessCompleted(job, respond, history, None, jobIndex);
  }

  /** With a listing whose job 0 is completed and whose job 1 is still
      running, gating on job 1 stops after the listing with job 1's status
      error, while gating on job 0 (all that `lazy_fetch_extractors` as
      written ever does, whatever index it is given) goes on to the data
      request. */
  lemma LazyGateFollowsIndex(job: Job)
    ensures var listing := JObj(map["jobs" := JArr([
                JObj(map["jobStatus" := JObj(map["status" := JInt(9), "message" := JStr("done")])]),
                JObj(map["jobStatus" := JObj(map["status" := JInt(2), "message" := JStr("paused")])])])]);
            var respond := (h: seq<Request>, req: Request) => if req.endpoint == DataEndPoint(job) then JArr([]) else listing;
            && LazyRun(job, respond, [], 0) == Run(Ok([]), [ListingRequest(job), DataRequest(job, None)])
            && LazyRun(job, respond, [], 1) == Run(Err(Diffbot(JobStatusError(JInt(2), JStr("paused")))), [ListingRequest(job)])
  {
    var listing := JObj(map["jobs" := JArr([
                JObj(map["jobStatus" := JObj(map["status" := JInt(9), "message" := JStr("done")])]),
                JObj(map["jobStatus" := JObj(map["status" := JInt(2), "message" := JStr("paused")])])])]);
    assert |ListingRequest(job).endpoint| < |DataEndPoint(job)|;
    assert CompletedAt(listing, 0) == Ok(true);
    assert CompletedAt(listing, 1) == Err(Diffbot(JobStatusError(JInt(2), JStr("paused"))));
  }

  /** The submission request of `start_job`: a form-encoded POST for
      bulk jobs (no token added), a GET with the token for crawl jobs. */
  function StartRequest(job: Job, urls: seq<string>, apiurl: string, args: map<string, Json>,
                        headers: map<string, string>): (r: Request)
    ensures r.endpoint == EndPoint(ApiType(job.family))
    ensures job.family == Bulk ==> r.params == BulkQuery(job.name, urls, apiurl, args)
    ensures job.family == Crawl ==> r.params == CrawlQuery(job.name, urls, apiurl, args)["token" := JStr(job.token)]
  {
    match job.family
    case Bulk => Post(EndPoint("bulk"), BulkQuery(job.name, urls, apiurl, args), BulkHeaders(headers))
    case Crawl => Get(EndPoint("crawl"), CrawlQuery(job.name, urls, apiurl, args)["token" := JStr(job.token)], headers)
  }

  /** The bulk submission always carries the form content type and sends a
      token only if the caller's `args` holds one; the crawl submission
      keeps the caller's headers and always carries the operator's token,
      even over a "token" in `args`. */
  lemma SubmissionShape(job: Job, urls: seq<string>, apiurl: string, args: map<string, Json>,
                        headers: map<string, string>)
    ensures var req := StartRequest(job, urls, apiurl, args, headers);
            && (job.family == Bulk ==> req.Post? && req.headers["Content-Type"] == FormContentType
                                       && ("token" in req.params <==> "token" in args))
            && (job.family == Crawl ==> req.Get? && req.headers == headers && req.params["token"] == JStr(job.token))
  {
  }

  /** Everything `_control_job(action)` does: an unknown action fails on
      the table lookup before any request is made. */
  function ControlRun(job: Job, respond: (seq<Request>, Request) -> Json, history: seq<Request>,
                      action: string): (r: Run<Json>)
    ensures |r.sent| <= 1
    ensures r.sent == [] <==> action !in ControlActions
    ensures r.sent == [] ==> r.result == Err(KeyError(JStr(action)))
  {
    match ControlQuery(job.name, action)
    case Err(e) => Run(Err(e), [])
    case Ok(query) =>
      var req := Get(EndPoint(ApiType(job.family)), query["token" := JStr(job.token)], map[]);
      Run(CheckResponse(respond(history, req)), [req])
  }

  /** A known action sends exactly one GET to the family endpoint holding the
      job name, the token and that action's payload; an unknown one sends
      nothing. The request does not depend on earlier calls, so repeating
      an action repeats the identical request. */
  lemma ControlSendsPayload(job: Job, respond: (seq<Request>, Request) -> Json, history: seq<Request>,
                            action: string, otherHistory: seq<Request>)
    ensures var run := ControlRun(job, respond, history, action);
            && (action !in ControlActions ==> run.sent == [] && run.result == Err(KeyError(JStr(action))))
            && (action in ControlActions ==>
                  && |run.sent| == 1 && run.sent[0].Get? && run.sent[0].endpoint == EndPoint(ApiType(job.family))
                  && run.sent[0].params.Keys == {"name", "token"} + ControlPayload(action).value.Keys
                  && run.sent[0].params["name"] == JStr(job.name)
                  && run.sent[0].params["token"] == JStr(job.token)
                  && (forall k :: k in ControlPayload(action).value ==> run.sent[0].params[k] == ControlPayload(action).value[k]))
            && run.sent == ControlRun(job, respond, otherHistory, action).sent
  {
    if action in ControlActions {
      ControlPayloadsDistinct(action, if action == "pause" then "delete" else "pause");
    }
  }

  /** `generate_apiurl`: the endpoint of `apiurlType`, followed by `?` and
      the encoded `args` when there are any. The encoder (`urlencode`) is
      a parameter. */
  function GenerateApiUrl(apiurlType: string, args: Option<map<string, Json>>,
                          urlencode: map<string, Json> -> string): (r: string)
    ensures |EndPoint(apiurlType)| <= |r| && r[..|EndPoint(apiurlType)|] == EndPoint(apiurlType)
    ensures args.None? ==> |r| == |EndPoint(apiurlType)|
    ensures args.Some? ==> r[|EndPoint(apiurlType)|..] == "?" + urlencode(args.value)
  {
    if args.None? then EndPoint(apiurlType) else EndPoint(apiurlType) + "?" + urlencode(args.value)
  }

  class JobOperator {
    const client: Client
    const jobName: string
    const family: Family

    /** `BulkJobOperator(...)` / `CrawlJobOperator(...)`. */
    constructor (client: Client, jobName: string, family: Family)
      ensures this.client == client && this.jobName == jobName && this.family == family
    {
      this.client := client;
      this.jobName := jobName;
      this.family := family;
    }

    function Identity(): Job {
      Job(client.token, jobName, family)
    }

    /** `_fetch_jobs`. */
    method FetchJobs() returns (r: Result<Json, Error>)
      modifies client.service
      ensures client.service.log == old(client.service.log) + [ListingRequest(Identity())]
      ensures r == CheckResponse(client.service.respond(old(client.service.log), ListingRequest(Identity())))
    {
      var query := new Params(map["name" := JStr(jobName)]);
      r := client.FetchRawData(ApiType(family), query, map[]);
    }

    /** `_fetch_job(job_index)`. */
    method FetchJob(jobIndex: int) returns (r: Result<Json, Error>)
      modifies client.service
      ensures client.service.log == old(client.service.log) + [ListingRequest(Identity())]
      ensures r == JobAt(client.service.respond(old(client.service.log), ListingRequest(Identity())), jobIndex)
    {
      var data :- FetchJobs();
      r := JobOf(data, jobIndex);
    }

    /** `_fetch_job_status(job_index)`. */
    method FetchJobStatus(jobIndex: int) returns (r: Result<Json, Error>)
      modifies client.service
      ensures client.service.log == old(client.service.log) + [ListingRequest(Identity())]
      ensures r == StatusAt(client.service.respond(old(client.service.log), ListingRequest(Identity())), jobIndex)
    {
      var job :- FetchJob(jobIndex);
      r := Subscript(job, "jobStatus");
    }

    /** `_check_job_completed(job_index)`. */
    method CheckJobCompleted(jobIndex: int) returns (r: Result<bool, Error>)
      modifies client.service
      ensures client.service.log == old(client.service.log) + [ListingRequest(Identity())]
      ensures r == CompletedAt(client.service.respond(old(client.service.log), ListingRequest(Identity())), jobIndex)
    {
      var status :- FetchJobStatus(jobIndex);
      r := CheckCompleted(status);
    }

    /** `fetch_raw_data(format, job_index)`: the status gate, then the data
        request. */
    method FetchRawData(format: Option<string>, jobIndex: int) returns (r: Result<Json, Error>)
      modifies client.service
      ensures var run := FetchRawDataRun(Identity(), client.service.respond, old(client.service.log), format, jobIndex);
              r == run.result && client.service.log == old(client.service.log) + run.sent
    {
      var completed :- CheckJobCompleted(jobIndex);
      var query := new Params(BotDataQuery(jobName, format));
      r := client.FetchRawData(ApiType(family) + "/data", query, map[]);
    }

    /** `lazy_fetch_extractors(job_index)`, drained, with `job_index`
        forwarded to the gate. */
    method LazyFetchExtractors(jobIndex: int) returns (r: Result<seq<Extractor>, Error>)
      modifies client.service
      ensures var run := LazyRun(Identity(), client.service.respond, old(client.service.log), jobIndex);
              r == run.result && client.service.log == old(client.service.log) + run.sent
    {
      var data :- FetchRawData(None, jobIndex);
      var n :- Len(data);
      if n == 0 {
        return Ok([]);
      }
      if data.JObj? {
        // the first datum is a key string, and `key['type']` raises
        return Err(TypeError);
      }
      var items := Elements(data).value;
      var res: seq<Extractor> := [];
      for i := 0 to |items|
        invariant |res| == i
        invariant forall k :: 0 <= k < i ==> Dispatch(items[k]) == Ok(res[k])
      {
        var t := Subscript(items[i], "type");
        var kind := if t.Ok? then SelectByType(t.value) else Err(t.error);
        if kind.Err? {
          DispatchAllFirstError(items, i);
          return Err(kind.error);
        }
        res := res + [Extractor(kind.value, items[i])];
      }
      DispatchAllValues(items, res);
      r := Ok(res);
    }

    /** `lazy_fetch_extractors(job_index)` as written: `job_index` is never
        passed on, so the gate always looks at job 0. */
    method LazyFetchExtractorsAsWritten(jobIndex: int) returns (r: Result<seq<Extractor>, Error>)
      modifies client.service
      ensures var run := LazyRun(Identity(), client.service.respond, old(client.service.log), 0);
              r == run.result && client.service.log == old(client.service.log) + run.sent
    {
      r := LazyFetchExtractors(0);
    }

    /** `fetch_completed_searcher`, with the job index passed to the gate:
        a searcher over this job's collection once the job is completed. */
    method FetchCompletedSearcher(jobIndex: int) returns (r: Result<Searcher, Error>)
      modifies client.service
      ensures client.service.log == old(client.service.log) + [ListingRequest(Identity())]
      ensures var gate := CompletedAt(client.service.respond(old(client.service.log), ListingRequest(Identity())), jobIndex);
              && (r.Ok? <==> gate.Ok?)
              && (r.Err? ==> r.error == gate.error)
              && (r.Ok? ==> fresh(r.value) && r.value.client == client && r.value.jobName == jobName)
    {
      var completed :- CheckJobCompleted(jobIndex);
      var searcher := new Searcher(client, jobName);
      r := Ok(searcher);
    }

    /** `fetch_completed_searcher` as written: it calls
        `_check_job_completed()` without the required `job_index`, which
        raises a TypeError before any request is made. */
    method FetchCompletedSearcherAsWritten() returns (r: Result<Searcher, Error>)
      ensures r == Err(TypeError)
    {
      r := Err(TypeError);
    }

    /** `_compose_query` of the operator's family. */
    function ComposeQuery(urls: seq<string>, apiurl: string, args: map<string, Json>): (r: map<string, Json>)
      ensures r.Keys == {"name", "apiUrl", if family == Bulk then "urls" else "seeds"} + args.Keys
      ensures forall k :: k in args ==> r[k] == args[k]
      ensures "name" !in args ==> r["name"] == JStr(jobName)
    {
      match family
      case Bulk => BulkQuery(jobName, urls, apiurl, args)
      case Crawl => CrawlQuery(jobName, urls, apiurl, args)
    }

    /** `start_job`: bulk jobs are submitted by POST with the form content
        type, crawl jobs by GET. */
    method StartJob(urls: seq<string>, apiurl: string, args: map<string, Json>, headers: map<string, string>)
      returns (r: Result<Json, Error>)
      modifies client.service
      ensures var req := StartRequest(Identity(), urls, apiurl, args, headers);
              && client.service.log == old(client.service.log) + [req]
              && r == CheckResponse(client.service.respond(old(client.service.log), req))
    {
      match family
      case Bulk =>
        r := client.PostRawData(ApiType(family), ComposeQuery(urls, apiurl, args), BulkHeaders(headers));
      case Crawl =>
        var query := new Params(ComposeQuery(urls, apiurl, args));
        r := client.FetchRawData(ApiType(family), query, headers);
    }

    /** `_control_job(action)`. */
    method ControlJob(action: string) returns (r: Result<Json, Error>)
      modifies client.service
      ensures var run := ControlRun(Identity(), client.service.respond, old(client.service.log), action);
              r == run.result && client.service.log == old(client.service.log) + run.sent
    {
      var payload :- ControlQuery(jobName, action);
      var query := new Params(payload);
      r := client.FetchRawData(ApiType(family), query, map[]);
    }

    /** `pause_job`: the response is discarded, errors still propagate. */
    method PauseJob() returns (r: Result<(), Error>)
      modifies client.service
      ensures var run := ControlRun(Identity(), client.service.respond, old(client.service.log), "pause");
              (r.Ok? <==> run.result.Ok?) && (r.Err? ==> r.error == run.result.error)
              && client.service.log == old(client.service.log) + run.sent
    {
      var response :- ControlJob("pause");
      r := Ok(());
    }

    /** `resume_job`. */
    method ResumeJob() returns (r: Result<(), Error>)
      modifies client.service
      ensures var run := ControlRun(Identity(), client.service.respond, old(client.service.log), "resume");
              (r.Ok? <==> run.result.Ok?) && (r.Err? ==> r.error == run.result.error)
              && client.service.log == old(client.service.log) + run.sent
    {
      var response :- ControlJob("resume");
      r := Ok(());
    }

    /** `restart_job`. */
    method RestartJob() returns (r: Result<(), Error>)
      modifies client.service
      ensures var run := ControlRun(Identity(), client.service.respond, old(client.service.log), "restart");
              (r.Ok? <==> run.result.Ok?) && (r.Err? ==> r.error == run.result.error)
              && client.service.log == old(client.service.log) + run.sent
    {
      var response :- ControlJob("restart");
      r := Ok(());
    }

    /** `delete_job`. */
    method DeleteJob() returns (r: Result<(), Error>)
      modifies client.service
      ensures var run := ControlRun(Identity(), client.service.respond, old(client.service.log), "delete");
              (r.Ok? <==> run.result.Ok?) && (r.Err? ==> r.error == run.result.error)
              && client.service.log == old(client.service.log) + run.sent
    {
      var response :- ControlJob("delete");
      r := Ok(());
    }
  }
}
