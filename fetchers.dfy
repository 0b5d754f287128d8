/** `SingleFetcher` and `Searcher` (diffbot/diffbot.py): one GET each,
    then the result objects are unwrapped into extractors. Each method is
    proved against a pure description of what it returns and sends. */
module Fetchers {
  import opened Wrappers
  import opened Json
  import opened Errors
  import opened Access
  import opened Extractors
  import opened Transport
  import opened Queries

  /** The GET `SingleFetcher.fetch_raw_data` sends. */
  function SingleRequest(token: string, apiType: string, targetUrl: string, args: map<string, Json>,
                         headers: map<string, string>): Request {
    Get(EndPoint(apiType), SingleQuery(targetUrl, args)["token" := JStr(token)], headers)
  }

  /** `_fetch_extractors` after the fetch: one extractor of the variant
      named by `apiType` per element of `data["objects"]`, in order. */
  function ObjectsOfKind(apiType: string, data: Json): (r: Result<seq<Extractor>, Error>)
    ensures r.Ok? <==> apiType in Tags && Has(data, "objects") && Elements(data.fields["objects"]).Ok?
    ensures r.Ok? ==> Elements(data.fields["objects"]).Ok?
    ensures r.Ok? ==> var objects := Elements(data.fields["objects"]).value;
                      |r.value| == |objects|
                      && forall k :: 0 <= k < |objects| ==> r.value[k] == Extractor(r.value[k].kind, objects[k])
                                                             && Tag(r.value[k].kind) == apiType
  {
    var kind :- SelectExtractor(apiType);
    var objects :- Subscript(data, "objects");
    var elems :- Elements(objects);
    Ok(OfKind(kind, elems))
  }

  /** `fetch_search_extractors` after the fetch: each element of
      `data["objects"]` dispatched on its own `type`, in order. */
  function ObjectsByType(data: Json): (r: Result<seq<Extractor>, Error>)
    ensures r.Ok? <==> && Has(data, "objects") && Elements(data.fields["objects"]).Ok?
                       && forall k :: 0 <= k < |Elements(data.fields["objects"]).value| ==>
                            Dispatch(Elements(data.fields["objects"]).value[k]).Ok?
    ensures r.Ok? ==> var objects := Elements(data.fields["objects"]).value;
                      |r.value| == |objects|
                      && forall k :: 0 <= k < |objects| ==> Dispatch(objects[k]) == Ok(r.value[k])
  {
    var objects :- Subscript(data, "objects");
    var elems :- Elements(objects);
    DispatchAll(elems)
  }

  /** Everything `_fetch_extractors` does, as a function of the service. */
  function ExtractorsRun(token: string, apiType: string, targetUrl: string, args: map<string, Json>,
                         headers: map<string, string>, respond: (seq<Request>, Request) -> Json,
                         history: seq<Request>): (r: Run<seq<Extractor>>)
    ensures r.sent == [SingleRequest(token, apiType, targetUrl, args, headers)]
    ensures var c := CheckResponse(respond(history, SingleRequest(token, apiType, targetUrl, args, headers)));
            && (r.result.Ok? <==> c.Ok? && ObjectsOfKind(apiType, c.value).Ok?)
            && (c.Err? ==> r.result == Err(c.error))
            && (c.Ok? ==> r.result == ObjectsOfKind(apiType, c.value))
  {
    var req := SingleRequest(token, apiType, targetUrl, args, headers);
    var body := respond(history, req);
    Run(match CheckResponse(body) { case Ok(data) => ObjectsOfKind(apiType, data) case Err(e) => Err(e) }, [req])
  }

  /** The GET `Searcher.fetch_raw_data` sends. */
  function SearchRequest(token: string, jobName: string, query: string, args: map<string, Json>): Request {
    Get(EndPoint("search"), SearchQuery(jobName, query, args)["token" := JStr(token)], map[])
  }

  class SingleFetcher {
    const client: Client

    constructor (client: Client)
      ensures this.client == client
    {
      this.client := client;
    }

    /** `fetch_raw_data`: one GET of `{url: target_url, **args}` plus the token. */
    method FetchRawData(apiType: string, targetUrl: string, args: map<string, Json>, headers: map<string, string>)
      returns (r: Result<Json, Error>)
      modifies client.service
      ensures client.service.log == old(client.service.log) + [SingleRequest(client.token, apiType, targetUrl, args, headers)]
      ensures r == CheckResponse(client.service.respond(old(client.service.log),
                                                        SingleRequest(client.token, apiType, targetUrl, args, headers)))
    {
      var query := new Params(SingleQuery(targetUrl, args));
      r := client.FetchRawData(apiType, query, headers);
    }

    /** `_fetch_extractors`: fetch, select the variant for `apiType`, then
        wrap `data["objects"][i]` for each `i` in `range(len(...))`. */
    method FetchExtractors(apiType: string, targetUrl: string, args: map<string, Json>, headers: map<string, string>)
      returns (r: Result<seq<Extractor>, Error>)
      modifies client.service
      ensures var run := ExtractorsRun(client.token, apiType, targetUrl, args, headers, client.service.respond,
                                       old(client.service.log));
              r == run.result && client.service.log == old(client.service.log) + run.sent
    {
      ghost var run := ExtractorsRun(client.token, apiType, targetUrl, args, headers, client.service.respond,
                                     client.service.log);
      var data :- FetchRawData(apiType, targetUrl, args, headers);
      var kind :- SelectExtractor(apiType);
      var objects :- Subscript(data, "objects");
      var n :- Len(objects);
      var res: seq<Extractor> := [];
      var i := 0;
      while i < n
        invariant 0 <= i <= n
        invariant forall k :: 0 <= k < i ==> Index(objects, k).Ok?
        invariant |res| == i
        invariant forall k :: 0 <= k < i ==> res[k] == Extractor(kind, Index(objects, k).value)
      {
        var o := Index(objects, i);
        if o.Err? {
          assert run.result == Err(o.error);
          return Err(o.error);
        }
        res := res + [Extractor(kind, o.value)];
        i := i + 1;
      }
      assert Elements(objects).Ok?;
      assert res == OfKind(kind, Elements(objects).value);
      r := Ok(res);
    }

    /** `fetch_analyze_extractors`: the whole response is one analyze view. */
    method FetchAnalyzeExtractors(targetUrl: string, args: map<string, Json>, headers: map<string, string>)
      returns (r: Result<seq<Extractor>, Error>)
      modifies client.service
      ensures client.service.log == old(client.service.log) + [SingleRequest(client.token, "analyze", targetUrl, args, headers)]
      ensures var c := CheckResponse(client.service.respond(old(client.service.log),
                                                            SingleRequest(client.token, "analyze", targetUrl, args, headers)));
              r == if c.Ok? then Ok([Extractor(Analyze, c.value)]) else Err(c.error)
    {
      var data :- FetchRawData("analyze", targetUrl, args, headers);
      var kind := SelectExtractor("analyze").Extract();
      r := Ok([Extractor(kind, data)]);
    }

    /** `fetch_article_extractors`. */
    method FetchArticleExtractors(targetUrl: string, args: map<string, Json>, headers: map<string, string>)
      returns (r: Result<seq<Extractor>, Error>)
      modifies client.service
      ensures var run := ExtractorsRun(client.token, "article", targetUrl, args, headers, client.service.respond,
                                       old(client.service.log));
              r == run.result && client.service.log == old(client.service.log) + run.sent
    {
      r := FetchExtractors("article", targetUrl, args, headers);
    }

    /** `fetch_discussion_extractors`. */
    method FetchDiscussionExtractors(targetUrl: string, args: map<string, Json>, headers: map<string, string>)
      returns (r: Result<seq<Extractor>, Error>)
      modifies client.service
      ensures var run := ExtractorsRun(client.token, "discussion", targetUrl, args, headers, client.service.respond,
                                       old(client.service.log));
              r == run.result && client.service.log == old(client.service.log) + run.sent
    {
      r := FetchExtractors("discussion", targetUrl, args, headers);
    }

    /** `fetch_image_extractors`. */
    method FetchImageExtractors(targetUrl: string, args: map<string, Json>, headers: map<string, string>)
      returns (r: Result<seq<Extractor>, Error>)
      modifies client.service
      ensures var run := ExtractorsRun(client.token, "image", targetUrl, args, headers, client.service.respond,
                                       old(client.service.log));
              r == run.result && client.service.log == old(client.service.log) + run.sent
    {
      r := FetchExtractors("image", targetUrl, args, headers);
    }

    /** `fetch_product_extractors`. */
    method FetchProductExtractors(targetUrl: string, args: map<string, Json>, headers: map<string, string>)
      returns (r: Result<seq<Extractor>, Error>)
      modifies client.service
      ensures var run := ExtractorsRun(client.token, "product", targetUrl, args, headers, client.service.respond,
                                       old(client.service.log));
              r == run.result && client.service.log == old(client.service.log) + run.sent
    {
      r := FetchExtractors("product", targetUrl, args, headers);
    }

    /** `fetch_video_extractors`. */
    method FetchVideoExtractors(targetUrl: string, args: map<string, Json>, headers: map<string, string>)
      returns (r: Result<seq<Extractor>, Error>)
      modifies client.service
      ensures var run := ExtractorsRun(client.token, "video", targetUrl, args, headers, client.service.respond,
                                       old(client.service.log));
              r == run.result && client.service.log == old(client.service.log) + run.sent
    {
      r := FetchExtractors("video", targetUrl, args, headers);
    }
  }

  class Searcher {
    const client: Client
    const jobName: string

    constructor (client: Client, jobName: string)
      ensures this.client == client && this.jobName == jobName
    {
      this.client := client;
      this.jobName := jobName;
    }

    /** `fetch_raw_data`: one GET of `{col: job_name, query: query, **args}`
        plus the token to the search endpoint. */
    method FetchRawData(query: string, args: map<string, Json>) returns (r: Result<Json, Error>)
      modifies client.service
      ensures client.service.log == old(client.service.log) + [SearchRequest(client.token, jobName, query, args)]
      ensures r == CheckResponse(client.service.respond(old(client.service.log),
                                                        SearchRequest(client.token, jobName, query, args)))
    {
      var params := new Params(SearchQuery(jobName, query, args));
      r := client.FetchRawData("search", params, map[]);
    }

    /** `fetch_search_extractors`: fetch, then for each `i` pick the variant
        from `data["objects"][i]["type"]` and wrap that object. */
    method FetchSearchExtractors(query: string, args: map<string, Json>) returns (r: Result<seq<Extractor>, Error>)
      modifies client.service
      ensures client.service.log == old(client.service.log) + [SearchRequest(client.token, jobName, query, args)]
      ensures var c := CheckResponse(client.service.respond(old(client.service.log),
                                                            SearchRequest(client.token, jobName, query, args)));
              r == if c.Ok? then ObjectsByType(c.value) else Err(c.error)
    {
      ghost var c := CheckResponse(client.service.respond(client.service.log,
                                                          SearchRequest(client.token, jobName, query, args)));
      var data :- FetchRawData(query, args);
      var objects :- Subscript(data, "objects");
      var n :- Len(objects);
      var exts: seq<Extractor> := [];
      var i := 0;
      while i < n
        invariant 0 <= i <= n
        invariant forall k :: 0 <= k < i ==> Index(objects, k).Ok? && Dispatch(Index(objects, k).value).Ok?
        invariant |exts| == i
        invariant forall k :: 0 <= k < i ==> Dispatch(Index(objects, k).value) == Ok(exts[k])
      {
        var o := Index(objects, i);
        if o.Err? {
          assert ObjectsByType(c.value) == Err(o.error);
          return Err(o.error);
        }
        var t := Subscript(o.value, "type");
        var kind := if t.Ok? then SelectByType(t.value) else Err(t.error);
        if kind.Err? {
          assert Dispatch(Elements(objects).value[i]) == Err(kind.error);
          DispatchAllFirstError(Elements(objects).value, i);
          return Err(kind.error);
        }
        exts := exts + [Extractor(kind.value, o.value)];
        i := i + 1;
      }
      assert Elements(objects).Ok?;
      DispatchAllValues(Elements(objects).value, exts);
      r := Ok(exts);
    }
  }
}
