/** The typed read-only views over one result object: the six extractor
    variants, `select_extractor`, the dispatch on a datum's `type`, and the
    accessors (`Extractor` in diffbot/meta.py and its subclasses in
    diffbot/diffbot.py). */
module Extractors {
  import opened Wrappers
  import opened Json
  import opened Errors
  import opened Access

  /** The closed set of extractor variants. */
  datatype Kind = Article | Analyze | Discussion | Video | Image | Product

  /** The API name each variant is selected by. */
  function Tag(k: Kind): string {
    match k
    case Article => "article"
    case Analyze => "analyze"
    case Discussion => "discussion"
    case Video => "video"
    case Image => "image"
    case Product => "product"
  }

  const Tags: set<string> := {"article", "analyze", "discussion", "video", "image", "product"}

  /** `select_extractor`: defined for exactly the six tags; any other
      string is a missing key of its lookup table. */
  function SelectExtractor(tag: string): (r: Result<Kind, Error>)
    ensures r.Ok? <==> tag in Tags
    ensures r.Ok? ==> Tag(r.value) == tag
    ensures r.Err? ==> r.error == KeyError(JStr(tag))
  {
    match tag
    case "article" => Ok(Article)
    case "analyze" => Ok(Analyze)
    case "discussion" => Ok(Discussion)
    case "video" => Ok(Video)
    case "image" => Ok(Image)
    case "product" => Ok(Product)
    case _ => Err(KeyError(JStr(tag)))
  }

  /** Selecting by a variant's own tag gives that variant back. */
  lemma SelectExtractorOfTag(k: Kind)
    ensures SelectExtractor(Tag(k)) == Ok(k)
  {
  }

  /** The same table looked up with a decoded `type` value: a list or a
      dict cannot be hashed, any other non-string value is simply absent. */
  function SelectByType(t: Json): (r: Result<Kind, Error>)
    ensures r.Ok? <==> t.JStr? && t.s in Tags
    ensures r.Ok? ==> t == JStr(Tag(r.value))
  {
    match t
    case JStr(s) => SelectExtractor(s)
    case JArr(_) => Err(TypeError)
    case JObj(_) => Err(TypeError)
    case _ => Err(KeyError(t))
  }

  /** An extractor instance: its variant and the raw datum it wraps
      (`get_raw_data` is the `data` field). */
  datatype Extractor = Extractor(kind: Kind, data: Json)

  /** `select_extractor(datum['type'])(datum)`. */
  function Dispatch(datum: Json): (r: Result<Extractor, Error>)
    ensures r.Ok? <==> Has(datum, "type") && datum.fields["type"].JStr? && datum.fields["type"].s in Tags
    ensures r.Ok? ==> r.value.data == datum && datum.fields["type"] == JStr(Tag(r.value.kind))
  {
    var t :- Subscript(datum, "type");
    var k :- SelectByType(t);
    Ok(Extractor(k, datum))
  }

  /** Dispatching every datum in order; the first failure is raised. */
  function DispatchAll(ds: seq<Json>): (r: Result<seq<Extractor>, Error>)
    ensures r.Ok? <==> forall k :: 0 <= k < |ds| ==> Dispatch(ds[k]).Ok?
    ensures r.Ok? ==> |r.value| == |ds| && forall k :: 0 <= k < |ds| ==> Dispatch(ds[k]) == Ok(r.value[k])
    ensures r.Err? ==> exists k :: 0 <= k < |ds| && Dispatch(ds[k]) == Err(r.error)
                                && forall j :: 0 <= j < k ==> Dispatch(ds[j]).Ok?
  {
    if ds == [] then Ok([])
    else
      var init :- DispatchAll(ds[..|ds| - 1]);
      var last :- Dispatch(ds[|ds| - 1]);
      Ok(init + [last])
  }

  /** The error `DispatchAll` raises is the one of the first datum that
      fails to dispatch. */
  lemma DispatchAllFirstError(ds: seq<Json>, i: nat)
    requires i < |ds| && Dispatch(ds[i]).Err?
    requires forall j :: 0 <= j < i ==> Dispatch(ds[j]).Ok?
    ensures DispatchAll(ds) == Err(Dispatch(ds[i]).error)
  {
    var r := DispatchAll(ds);
    var k :| 0 <= k < |ds| && Dispatch(ds[k]) == Err(r.error) && forall j :: 0 <= j < k ==> Dispatch(ds[j]).Ok?;
    assert k == i;
  }

  /** When every datum dispatches, `DispatchAll` is exactly those views. */
  lemma DispatchAllValues(ds: seq<Json>, es: seq<Extractor>)
    requires |es| == |ds| && forall k :: 0 <= k < |ds| ==> Dispatch(ds[k]) == Ok(es[k])
    ensures DispatchAll(ds) == Ok(es)
  {
    var r := DispatchAll(ds);
    assert r.Ok?;
    assert r.value == es;
  }

  /** Every element wrapped in the same variant, in order. */
  function OfKind(kind: Kind, xs: seq<Json>): (r: seq<Extractor>)
    ensures |r| == |xs|
    ensures forall k :: 0 <= k < |xs| ==> r[k] == Extractor(kind, xs[k])
  {
    seq(|xs|, k requires 0 <= k < |xs| => Extractor(kind, xs[k]))
  }

  /** `get_resolved_url`: `data.get("resolvedPageUrl")`, None when absent;
      a datum that is not a dict has no `get`. */
  function GetResolvedUrl(e: Extractor): (r: Result<Json, Error>)
    ensures r.Ok? <==> e.data.JObj?
    ensures r.Err? ==> r.error == AttributeError
    ensures Has(e.data, "resolvedPageUrl") ==> r == Ok(e.data.fields["resolvedPageUrl"])
    ensures e.data.JObj? && !Has(e.data, "resolvedPageUrl") ==> r == Ok(JNull)
  {
    match e.data
    case JObj(m) => Ok(if "resolvedPageUrl" in m then m["resolvedPageUrl"] else JNull)
    case _ => Err(AttributeError)
  }

  /** `get_page_url`: a required key. */
  function GetPageUrl(e: Extractor): (r: Result<Json, Error>)
    ensures r.Ok? <==> Has(e.data, "pageUrl")
    ensures r.Ok? ==> r.value == e.data.fields["pageUrl"]
    ensures e.data.JObj? && r.Err? ==> r.error == KeyError(JStr("pageUrl"))
  {
    Subscript(e.data, "pageUrl")
  }

  /** `get_title`: a required key. */
  function GetTitle(e: Extractor): (r: Result<Json, Error>)
    ensures r.Ok? <==> Has(e.data, "title")
    ensures r.Ok? ==> r.value == e.data.fields["title"]
    ensures e.data.JObj? && r.Err? ==> r.error == KeyError(JStr("title"))
  {
    Subscript(e.data, "title")
  }

  /** `DiscussionExtractor.get_posts`; the other variants have no such method. */
  function GetPosts(e: Extractor): (r: Result<Json, Error>)
    ensures r.Ok? <==> e.kind == Discussion && Has(e.data, "posts")
    ensures r.Ok? ==> r.value == e.data.fields["posts"]
    ensures e.kind != Discussion ==> r == Err(AttributeError)
  {
    if e.kind == Discussion then Subscript(e.data, "posts") else Err(AttributeError)
  }

  /** `ArticleExtractor.get_html(plain)`: the rendered HTML, or the plain
      text when `plain` is true. */
  function GetHtml(e: Extractor, plain: bool): (r: Result<Json, Error>)
    ensures r.Ok? <==> e.kind == Article && Has(e.data, if plain then "text" else "html")
    ensures r.Ok? && !plain ==> r.value == e.data.fields["html"]
    ensures r.Ok? && plain ==> r.value == e.data.fields["text"]
    ensures e.kind != Article ==> r == Err(AttributeError)
  {
    if e.kind != Article then Err(AttributeError)
    else if plain == false then Subscript(e.data, "html")
    else Subscript(e.data, "text")
  }

  /** `ArticleExtractor.get_site_name`. */
  function GetSiteName(e: Extractor): (r: Result<Json, Error>)
    ensures r.Ok? <==> e.kind == Article && Has(e.data, "siteName")
    ensures r.Ok? ==> r.value == e.data.fields["siteName"]
  {
    if e.kind == Article then Subscript(e.data, "siteName") else Err(AttributeError)
  }

  /** `ArticleExtractor.get_language`. */
  function GetLanguage(e: Extractor): (r: Result<Json, Error>)
    ensures r.Ok? <==> e.kind == Article && Has(e.data, "humanLanguage")
    ensures r.Ok? ==> r.value == e.data.fields["humanLanguage"]
  {
    if e.kind == Article then Subscript(e.data, "humanLanguage") else Err(AttributeError)
  }

  /** An article result: dispatch picks the article view, whose
      `get_html()` is the markup and `get_html(plain=True)` the text. */
  lemma ArticleExample()
    ensures var datum := JObj(map["type" := JStr("article"), "pageUrl" := JStr("http://x"), "title" := JStr("T"),
                                  "html" := JStr("<p>hi</p>"), "text" := JStr("hi")]);
            && Dispatch(datum) == Ok(Extractor(Article, datum))
            && GetHtml(Extractor(Article, datum), false) == Ok(JStr("<p>hi</p>"))
            && GetHtml(Extractor(Article, datum), true) == Ok(JStr("hi"))
            && GetResolvedUrl(Extractor(Article, datum)) == Ok(JNull)
  {
  }
}
