/** The request maps each operation composes before it calls the service:
    the submission queries of the bulk and crawl families, the single-URL
    and search queries, the job-data query, the lifecycle-control payloads
    and the bulk submission headers. Each `_compose_query` builds a fresh
    dict and updates it with the caller's `args`, so it is a function of
    its inputs here. */
module Queries {
  import opened Wrappers
  import opened Json
  import opened Text
  import opened Errors

  /** `params.update(args)` on a fresh `params`: the caller's keys win,
      the base keys they do not name are kept. */
  function Overlay(base: map<string, Json>, args: map<string, Json>): (r: map<string, Json>)
    ensures r.Keys == base.Keys + args.Keys
    ensures forall k :: k in args ==> r[k] == args[k]
    ensures forall k :: k in base && k !in args ==> r[k] == base[k]
  {
    base + args
  }

  /** `BulkJobOperator._compose_query`. */
  function BulkQuery(jobName: string, urls: seq<string>, apiurl: string, args: map<string, Json>): (r: map<string, Json>)
    ensures r.Keys == {"name", "urls", "apiUrl"} + args.Keys
    ensures forall k :: k in args ==> r[k] == args[k]
    ensures "name" !in args ==> r["name"] == JStr(jobName)
    ensures "urls" !in args ==> r["urls"] == JStr(JoinSpace(urls))
    ensures "apiUrl" !in args ==> r["apiUrl"] == JStr(apiurl)
  {
    Overlay(map["name" := JStr(jobName), "urls" := JStr(JoinSpace(urls)), "apiUrl" := JStr(apiurl)], args)
  }

  /** `CrawlJobOperator._compose_query`: the URL list goes under "seeds". */
  function CrawlQuery(jobName: string, urls: seq<string>, apiurl: string, args: map<string, Json>): (r: map<string, Json>)
    ensures r.Keys == {"seeds", "name", "apiUrl"} + args.Keys
    ensures forall k :: k in args ==> r[k] == args[k]
    ensures "seeds" !in args ==> r["seeds"] == JStr(JoinSpace(urls))
    ensures "name" !in args ==> r["name"] == JStr(jobName)
    ensures "apiUrl" !in args ==> r["apiUrl"] == JStr(apiurl)
  {
    Overlay(map["seeds" := JStr(JoinSpace(urls)), "name" := JStr(jobName), "apiUrl" := JStr(apiurl)], args)
  }

  /** Unless the caller overrides it, the submitted URL list can be read
      back from the "urls" (bulk) or "seeds" (crawl) value. */
  lemma SubmittedUrlsRecoverable(jobName: string, urls: seq<string>, apiurl: string, args: map<string, Json>)
    requires urls != [] && forall k :: 0 <= k < |urls| ==> ' ' !in urls[k]
    ensures "urls" !in args ==> SplitSpace(BulkQuery(jobName, urls, apiurl, args)["urls"].s) == urls
    ensures "seeds" !in args ==> SplitSpace(CrawlQuery(jobName, urls, apiurl, args)["seeds"].s) == urls
  {
    SplitJoinSpace(urls);
  }

  /** The two families send the same map except that the URL list is
      named "urls" in one and "seeds" in the other. */
  lemma BulkAndCrawlDifferOnlyInUrlKey(jobName: string, urls: seq<string>, apiurl: string, args: map<string, Json>)
    requires "urls" !in args && "seeds" !in args
    ensures CrawlQuery(jobName, urls, apiurl, args)
            == (BulkQuery(jobName, urls, apiurl, args) - {"urls"})["seeds" := JStr(JoinSpace(urls))]
  {
    var c := CrawlQuery(jobName, urls, apiurl, args);
    var b := (BulkQuery(jobName, urls, apiurl, args) - {"urls"})["seeds" := JStr(JoinSpace(urls))];
    assert c.Keys == b.Keys;
  }

  /** `SingleFetcher._compose_query`. */
  function SingleQuery(targetUrl: string, args: map<string, Json>): (r: map<string, Json>)
    ensures r.Keys == {"url"} + args.Keys
    ensures forall k :: k in args ==> r[k] == args[k]
    ensures "url" !in args ==> r["url"] == JStr(targetUrl)
  {
    Overlay(map["url" := JStr(targetUrl)], args)
  }

  /** `Searcher._compose_query`: the collection searched is the job's name. */
  function SearchQuery(jobName: string, query: string, args: map<string, Json>): (r: map<string, Json>)
    ensures r.Keys == {"col", "query"} + args.Keys
    ensures forall k :: k in args ==> r[k] == args[k]
    ensures "col" !in args ==> r["col"] == JStr(jobName)
    ensures "query" !in args ==> r["query"] == JStr(query)
  {
    Overlay(map["col" := JStr(jobName), "query" := JStr(query)], args)
  }

  /** `format or "json"`: an unset or empty format means JSON. */
  function FormatOrJson(format: Option<string>): (f: string)
    ensures format.Some? && format.value != "" ==> f == format.value
    ensures format.None? || format.value == "" ==> f == "json"
  {
    if format.Some? && format.value != "" then format.value else "json"
  }

  /** `_compose_bot_data_query`. */
  function BotDataQuery(jobName: string, format: Option<string>): (r: map<string, Json>)
    ensures r.Keys == {"name", "format"}
    ensures r["name"] == JStr(jobName)
    ensures r["format"] == JStr(FormatOrJson(format))
  {
    map["name" := JStr(jobName), "format" := JStr(FormatOrJson(format))]
  }

  const ControlActions: set<string> := {"pause", "resume", "restart", "delete"}

  /** The lifecycle-control table of `_control_job`. */
  function ControlPayload(action: string): (r: Option<map<string, Json>>)
    ensures r.Some? <==> action in ControlActions
    ensures action == "pause" ==> r == Some(map["pause" := JInt(1)])
    ensures action == "resume" ==> r == Some(map["pause" := JInt(0)])
    ensures action == "restart" ==> r == Some(map["restart" := JInt(1)])
    ensures action == "delete" ==> r == Some(map["delete" := JInt(1)])
  {
    match action
    case "pause" => Some(map["pause" := JInt(1)])
    case "resume" => Some(map["pause" := JInt(0)])
    case "restart" => Some(map["restart" := JInt(1)])
    case "delete" => Some(map["delete" := JInt(1)])
    case _ => None
  }

  /** The four actions send four different payloads, each a single key
      other than "name". */
  lemma ControlPayloadsDistinct(a: string, b: string)
    requires a in ControlActions && b in ControlActions && a != b
    ensures ControlPayload(a) != ControlPayload(b)
    ensures |ControlPayload(a).value| == 1 && "name" !in ControlPayload(a).value
  {
  }

  /** `{"name": job_name, **control_dic[action]}`: an unknown action is a
      missing key of the table. */
  function ControlQuery(jobName: string, action: string): (r: Result<map<string, Json>, Error>)
    ensures r.Ok? <==> action in ControlActions
    ensures r.Err? ==> r.error == KeyError(JStr(action))
    ensures r.Ok? ==> r.value.Keys == {"name"} + ControlPayload(action).value.Keys
    ensures r.Ok? ==> r.value["name"] == JStr(jobName)
    ensures r.Ok? ==> forall k :: k in ControlPayload(action).value ==> r.value[k] == ControlPayload(action).value[k]
  {
    match ControlPayload(action)
    case None => Err(KeyError(JStr(action)))
    case Some(payload) => Ok(map["name" := JStr(jobName)] + payload)
  }

  const FormContentType: string := "application/x-www-form-urlencoded"

  /** `{**headers, **content_type}`: the form content type always wins,
      every other caller header is kept. */
  function BulkHeaders(headers: map<string, string>): (r: map<string, string>)
    ensures r.Keys == headers.Keys + {"Content-Type"}
    ensures r["Content-Type"] == FormContentType
    ensures forall k :: k in headers && k != "Content-Type" ==> r[k] == headers[k]
  {
    headers + map["Content-Type" := FormContentType]
  }
}
