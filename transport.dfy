/** The HTTP side of `Client` (diffbot/meta.py): endpoint naming, the
    in-body error check, and the two raw calls. The network itself is an
    oracle that answers each request from the history of requests sent
    so far; the parameter map is recorded as given to `urlencode`. */
module Transport {
  import opened Wrappers
  import opened Json
  import opened Errors

  /** Base URL and API version. The module that defines them is not part
      of this model; the values are the ones the client's own docstring
      names. */
  const DiffbotUrl: string := "https://api.diffbot.com"
  const DiffbotVersion: string := "3"

  /** Every endpoint starts with this. */
  const ApiRoot: string := DiffbotUrl + "/v" + DiffbotVersion + "/"

  /** `_get_end_point`: `"{url}/v{version}/{api_type}"`. */
  function EndPoint(apiType: string): (r: string)
    ensures |r| == |ApiRoot| + |apiType|
    ensures r[..|ApiRoot|] == ApiRoot && r[|ApiRoot|..] == apiType
  {
    ApiRoot + apiType
  }

  /** Different API types never share an endpoint. */
  lemma EndPointInjective(a: string, b: string)
    requires EndPoint(a) == EndPoint(b)
    ensures a == b
  {
    assert a == EndPoint(a)[|ApiRoot|..];
  }

  /** One HTTP call as the service receives it. `params` is the map handed
      to `urlencode`: the query string of a GET, the form body of a POST. */
  datatype Request =
    | Get(endpoint: string, params: map<string, Json>, headers: map<string, string>)
    | Post(endpoint: string, params: map<string, Json>, headers: map<string, string>)

  /** The response envelope carries an error: a dict whose "error" is not None. */
  predicate IsErrorEnvelope(body: Json) {
    body.JObj? && "error" in body.fields && body.fields["error"] != JNull
  }

  /** `_check_response`: an error envelope becomes a response error with
      code `errorCode` and message `error` (a missing `errorCode` is a
      KeyError); every other value, a list included, passes unchanged. */
  function CheckResponse(body: Json): (r: Result<Json, Error>)
    ensures r.Ok? <==> !IsErrorEnvelope(body)
    ensures r.Ok? ==> r.value == body
    ensures IsErrorEnvelope(body) && "errorCode" in body.fields ==>
              r == Err(Diffbot(ResponseError(body.fields["errorCode"], body.fields["error"])))
    ensures IsErrorEnvelope(body) && "errorCode" !in body.fields ==> r == Err(KeyError(JStr("errorCode")))
  {
    if body.JObj? && "error" in body.fields && body.fields["error"] != JNull then
      if "errorCode" in body.fields then Err(Diffbot(ResponseError(body.fields["errorCode"], body.fields["error"])))
      else Err(KeyError(JStr("errorCode")))
    else Ok(body)
  }

  /** A value that passed the check passes it again unchanged. */
  lemma CheckResponseIdempotent(body: Json)
    requires CheckResponse(body).Ok?
    ensures CheckResponse(CheckResponse(body).value) == CheckResponse(body)
  {
  }

  /** The rate-limit envelope is turned into ResponseError(429, "rate limited"). */
  lemma RateLimitEnvelope()
    ensures CheckResponse(JObj(map["error" := JStr("rate limited"), "errorCode" := JInt(429)]))
            == Err(Diffbot(ResponseError(JInt(429), JStr("rate limited"))))
  {
  }

  /** What an operation returns and the requests it sent, in order. */
  datatype Run<T> = Run(result: Result<T, Error>, sent: seq<Request>)

  /** The remote service: `respond(history, request)` is its answer to
      `request` after it has seen `history`. `log` is every request sent. */
  class Service {
    const respond: (seq<Request>, Request) -> Json
    var log: seq<Request>

    constructor (respond: (seq<Request>, Request) -> Json)
      ensures this.respond == respond && log == []
    {
      this.respond := respond;
      log := [];
    }

    /** `requests.get(...)` / `requests.post(...)` followed by `.json()`. */
    method Send(req: Request) returns (body: Json)
      modifies this
      ensures log == old(log) + [req]
      ensures body == respond(old(log), req)
    {
      body := respond(log, req);
      log := log + [req];
    }
  }

  /** A Python dict the caller owns and that a call may update in place. */
  class Params {
    var entries: map<string, Json>

    constructor (entries: map<string, Json>)
      ensures this.entries == entries
    {
      this.entries := entries;
    }

    /** `dict.update(other)`: the keys of `other` win. */
    method Update(other: map<string, Json>)
      modifies this
      ensures entries == old(entries) + other
    {
      entries := entries + other;
    }
  }

  /** `Client`: a token fixed at construction and the service it talks to. */
  class Client {
    const token: string
    const service: Service

    constructor (token: string, service: Service)
      ensures this.token == token && this.service == service
    {
      this.token := token;
      this.service := service;
    }

    /** `_fetch_raw_data`: sets "token" in the caller's query map in place
        (every other key untouched), then sends one GET. */
    method FetchRawData(apiType: string, query: Params, headers: map<string, string>) returns (r: Result<Json, Error>)
      modifies query, service
      ensures query.entries == old(query.entries)["token" := JStr(token)]
      ensures service.log == old(service.log) + [Get(EndPoint(apiType), query.entries, headers)]
      ensures r == CheckResponse(service.respond(old(service.log), Get(EndPoint(apiType), query.entries, headers)))
    {
      query.Update(map["token" := JStr(token)]);
      var body := service.Send(Get(EndPoint(apiType), query.entries, headers));
      r := CheckResponse(body);
    }

    /** `_post_raw_data`: one POST of the payload as given; no token is added. */
    method PostRawData(apiType: string, payload: map<string, Json>, headers: map<string, string>)
      returns (r: Result<Json, Error>)
      modifies service
      ensures service.log == old(service.log) + [Post(EndPoint(apiType), payload, headers)]
      ensures r == CheckResponse(service.respond(old(service.log), Post(EndPoint(apiType), payload, headers)))
    {
      var body := service.Send(Post(EndPoint(apiType), payload, headers));
      r := CheckResponse(body);
    }
  }
}
