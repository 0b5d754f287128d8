/** The sparse argument builders: each takes named options (unset =
    `None`) and returns the service's camelCase parameter map with the
    unset options left out entirely (`drop_none_value` and every
    `generate_*` / `_generate_args`). */
module Args {
  import opened Wrappers
  import opened Json

  /** `drop_none_value`: exactly the entries whose value is not None,
      with their values unchanged. */
  function DropNone(m: map<string, Json>): (r: map<string, Json>)
    ensures r.Keys <= m.Keys
    ensures forall k :: k in m && m[k] != JNull ==> k in r
    ensures forall k :: k in r ==> r[k] == m[k] && r[k] != JNull
  {
    map k | k in m && m[k] != JNull :: m[k]
  }

  /** Dropping the None values a second time changes nothing. */
  lemma DropNoneIdempotent(m: map<string, Json>)
    ensures DropNone(DropNone(m)) == DropNone(m)
  {
  }

  /** A keyword argument as the builder's dict literal holds it: an unset
      option is the value None. */
  function Value(o: Option<Json>): Json {
    if o.Some? then o.value else JNull
  }

  /** The option was given a value other than None. */
  predicate IsSet(o: Option<Json>) {
    o.Some? && o.value != JNull
  }

  /** `name` is in the built map exactly when the option is set, and then
      carries the option's value. */
  predicate Sparse(r: map<string, Json>, name: string, o: Option<Json>) {
    (name in r <==> IsSet(o)) && (name in r ==> r[name] == o.value)
  }

  /** A literal entry `name: value` survives `drop_none_value` exactly
      when the option is set. */
  lemma SparseAt(m: map<string, Json>, name: string, o: Option<Json>)
    requires name in m && m[name] == Value(o)
    ensures Sparse(DropNone(m), name, o)
  {
  }

  /** An entry spread in from an inner, already sparse map (`**inner`)
      keeps its meaning when no literal entry has the same name. */
  lemma SparseThrough(m: map<string, Json>, inner: map<string, Json>, name: string, o: Option<Json>)
    requires name !in m && Sparse(inner, name, o)
    ensures Sparse(DropNone(m + inner), name, o)
  {
  }

  /** A literal entry followed by a spread map that cannot hold its name. */
  lemma SparseBefore(m: map<string, Json>, inner: map<string, Json>, name: string, o: Option<Json>,
                     names: set<string>, others: set<string>)
    requires name in m && m[name] == Value(o)
    requires name in names && names !! others && inner.Keys <= others
    ensures Sparse(DropNone(m + inner), name, o)
  {
  }

  /** `SingleFetcher._generate_args`: the options every single-URL API shares. */
  function SingleArgs(fields: Option<Json>, timeout: Option<Json>, callback: Option<Json>): (r: map<string, Json>)
    ensures r.Keys <= {"fields", "timeout", "callback"}
    ensures Sparse(r, "fields", fields) && Sparse(r, "timeout", timeout) && Sparse(r, "callback", callback)
  {
    var m := map["fields" := Value(fields), "timeout" := Value(timeout), "callback" := Value(callback)];
    SparseAt(m, "fields", fields);
    SparseAt(m, "timeout", timeout);
    SparseAt(m, "callback", callback);
    DropNone(m)
  }

  /** `generate_analyze_args`. */
  function AnalyzeArgs(mode: Option<Json>, fallback: Option<Json>, fields: Option<Json>, discussion: Option<Json>,
                       timeout: Option<Json>, callback: Option<Json>): (r: map<string, Json>)
    ensures r.Keys <= {"mode", "fallback", "discussion", "fields", "timeout", "callback"}
    ensures Sparse(r, "mode", mode) && Sparse(r, "fallback", fallback) && Sparse(r, "discussion", discussion)
    ensures Sparse(r, "fields", fields) && Sparse(r, "timeout", timeout) && Sparse(r, "callback", callback)
  {
    var m := map["mode" := Value(mode), "fallback" := Value(fallback), "discussion" := Value(discussion)];
    var inner := SingleArgs(fields, timeout, callback);
    SparseAt(m + inner, "mode", mode);
    SparseAt(m + inner, "fallback", fallback);
    SparseAt(m + inner, "discussion", discussion);
    SparseThrough(m, inner, "fields", fields);
    SparseThrough(m, inner, "timeout", timeout);
    SparseThrough(m, inner, "callback", callback);
    DropNone(m + inner)
  }

  /** `generate_article_args`. */
  function ArticleArgs(fields: Option<Json>, paging: Option<Json>, maxTags: Option<Json>, tagConfidence: Option<Json>,
                       discussion: Option<Json>, timeout: Option<Json>, callback: Option<Json>): (r: map<string, Json>)
    ensures r.Keys <= {"paging", "maxTags", "tagConfidence", "discussion", "fields", "timeout", "callback"}
    ensures Sparse(r, "paging", paging) && Sparse(r, "maxTags", maxTags)
    ensures Sparse(r, "tagConfidence", tagConfidence) && Sparse(r, "discussion", discussion)
    ensures Sparse(r, "fields", fields) && Sparse(r, "timeout", timeout) && Sparse(r, "callback", callback)
  {
    var m := map["paging" := Value(paging), "maxTags" := Value(maxTags),
                 "tagConfidence" := Value(tagConfidence), "discussion" := Value(discussion)];
    var inner := SingleArgs(fields, timeout, callback);
    SparseAt(m + inner, "paging", paging);
    SparseAt(m + inner, "maxTags", maxTags);
    SparseAt(m + inner, "tagConfidence", tagConfidence);
    SparseAt(m + inner, "discussion", discussion);
    SparseThrough(m, inner, "fields", fields);
    SparseThrough(m, inner, "timeout", timeout);
    SparseThrough(m, inner, "callback", callback);
    DropNone(m + inner)
  }

  /** `generate_discussion_args`. */
  function DiscussionArgs(fields: Option<Json>, timeout: Option<Json>, callback: Option<Json>,
                          maxPages: Option<Json>): (r: map<string, Json>)
    ensures r.Keys <= {"maxPages", "fields", "timeout", "callback"}
    ensures Sparse(r, "maxPages", maxPages)
    ensures Sparse(r, "fields", fields) && Sparse(r, "timeout", timeout) && Sparse(r, "callback", callback)
  {
    var m := map["maxPages" := Value(maxPages)];
    var inner := SingleArgs(fields, timeout, callback);
    SparseAt(m + inner, "maxPages", maxPages);
    SparseThrough(m, inner, "fields", fields);
    SparseThrough(m, inner, "timeout", timeout);
    SparseThrough(m, inner, "callback", callback);
    DropNone(m + inner)
  }

  /** `generate_image_args`: the shared options only. */
  function ImageArgs(fields: Option<Json>, timeout: Option<Json>, callback: Option<Json>): (r: map<string, Json>)
    ensures r.Keys <= {"fields", "timeout", "callback"}
    ensures Sparse(r, "fields", fields) && Sparse(r, "timeout", timeout) && Sparse(r, "callback", callback)
  {
    SingleArgs(fields, timeout, callback)
  }

  /** `generate_product_args`. */
  function ProductArgs(fields: Option<Json>, discussion: Option<Json>, timeout: Option<Json>,
                       callback: Option<Json>): (r: map<string, Json>)
    ensures r.Keys <= {"discussion", "fields", "timeout", "callback"}
    ensures Sparse(r, "discussion", discussion)
    ensures Sparse(r, "fields", fields) && Sparse(r, "timeout", timeout) && Sparse(r, "callback", callback)
  {
    var m := map["discussion" := Value(discussion)];
    var inner := SingleArgs(fields, timeout, callback);
    SparseAt(m + inner, "discussion", discussion);
    SparseThrough(m, inner, "fields", fields);
    SparseThrough(m, inner, "timeout", timeout);
    SparseThrough(m, inner, "callback", callback);
    DropNone(m + inner)
  }

  /** `generate_video_args`: the shared options only. */
  function VideoArgs(fields: Option<Json>, timeout: Option<Json>, callback: Option<Json>): (r: map<string, Json>)
    ensures r.Keys <= {"fields", "timeout", "callback"}
    ensures Sparse(r, "fields", fields) && Sparse(r, "timeout", timeout) && Sparse(r, "callback", callback)
  {
    SingleArgs(fields, timeout, callback)
  }

  /** The six parameter names every job shares. */
  const JobKeys: set<string> :=
    {"customHeaders", "notifyEmail", "notifyWebhook", "repeat", "maxRounds", "pageProcessPattern"}

  /** `JobOperator._generate_args`: the six options bulk and crawl jobs share. */
  function JobArgs(customHeaders: Option<Json>, notifyEmail: Option<Json>, notifyWebhook: Option<Json>,
                   repeat: Option<Json>, maxRounds: Option<Json>, pageProcessPattern: Option<Json>): (r: map<string, Json>)
    ensures r.Keys <= JobKeys
    ensures Sparse(r, "customHeaders", customHeaders) && Sparse(r, "notifyEmail", notifyEmail)
    ensures Sparse(r, "notifyWebhook", notifyWebhook) && Sparse(r, "repeat", repeat)
    ensures Sparse(r, "maxRounds", maxRounds) && Sparse(r, "pageProcessPattern", pageProcessPattern)
  {
    var m := map["customHeaders" := Value(customHeaders), "notifyEmail" := Value(notifyEmail),
                 "notifyWebhook" := Value(notifyWebhook), "repeat" := Value(repeat),
                 "maxRounds" := Value(maxRounds), "pageProcessPattern" := Value(pageProcessPattern)];
    SparseAt(m, "customHeaders", customHeaders);
    SparseAt(m, "notifyEmail", notifyEmail);
    SparseAt(m, "notifyWebhook", notifyWebhook);
    SparseAt(m, "repeat", repeat);
    SparseAt(m, "maxRounds", maxRounds);
    SparseAt(m, "pageProcessPattern", pageProcessPattern);
    DropNone(m)
  }

  /** `BulkJobOperator.generate_args`: the shared job options only. */
  function BulkArgs(customHeaders: Option<Json>, notifyEmail: Option<Json>, notifyWebhook: Option<Json>,
                    repeat: Option<Json>, maxRounds: Option<Json>, pageProcessPattern: Option<Json>): (r: map<string, Json>)
    ensures r.Keys <= JobKeys
    ensures Sparse(r, "customHeaders", customHeaders) && Sparse(r, "notifyEmail", notifyEmail)
    ensures Sparse(r, "notifyWebhook", notifyWebhook) && Sparse(r, "repeat", repeat)
    ensures Sparse(r, "maxRounds", maxRounds) && Sparse(r, "pageProcessPattern", pageProcessPattern)
  {
    JobArgs(customHeaders, notifyEmail, notifyWebhook, repeat, maxRounds, pageProcessPattern)
  }

  /** The twelve crawl-only parameter names. */
  const CrawlOnlyKeys: set<string> :=
    {"urlCrawlPattern", "urlCrawlRegEx", "urlProcessPattern", "urlProcessRegEx", "obeyRobots", "restrictDomain",
     "useProxies", "maxHops", "maxToCrawl", "maxToProcess", "crawlDelay", "onlyProcessIfNew"}

  /** No crawl-only name is a shared job name. */
  lemma CrawlOnlyKeysApart()
    ensures CrawlOnlyKeys !! JobKeys
  {
  }

  /** The twelve crawl-only entries of the crawl builder's dict literal. */
  function CrawlLiteral(urlCrawlPattern: Option<Json>, urlCrawlRegEx: Option<Json>, urlProcessPattern: Option<Json>,
                        urlProcessRegEx: Option<Json>, obeyRobots: Option<Json>, restrictDomain: Option<Json>,
                        useProxies: Option<Json>, maxHops: Option<Json>, maxToCrawl: Option<Json>,
                        maxToProcess: Option<Json>, crawlDelay: Option<Json>, onlyProcessIfNew: Option<Json>): (m: map<string, Json>)
    ensures "urlCrawlPattern" in m && m["urlCrawlPattern"] == Value(urlCrawlPattern)
    ensures "urlCrawlRegEx" in m && m["urlCrawlRegEx"] == Value(urlCrawlRegEx)
    ensures "urlProcessPattern" in m && m["urlProcessPattern"] == Value(urlProcessPattern)
    ensures "urlProcessRegEx" in m && m["urlProcessRegEx"] == Value(urlProcessRegEx)
    ensures "obeyRobots" in m && m["obeyRobots"] == Value(obeyRobots)
    ensures "restrictDomain" in m && m["restrictDomain"] == Value(restrictDomain)
    ensures "useProxies" in m && m["useProxies"] == Value(useProxies)
    ensures "maxHops" in m && m["maxHops"] == Value(maxHops)
    ensures "maxToCrawl" in m && m["maxToCrawl"] == Value(maxToCrawl)
    ensures "maxToProcess" in m && m["maxToProcess"] == Value(maxToProcess)
    ensures "crawlDelay" in m && m["crawlDelay"] == Value(crawlDelay)
    ensures "onlyProcessIfNew" in m && m["onlyProcessIfNew"] == Value(onlyProcessIfNew)
    ensures m.Keys <= CrawlOnlyKeys
  {
    map["urlCrawlPattern" := Value(urlCrawlPattern), "urlCrawlRegEx" := Value(urlCrawlRegEx),
        "urlProcessPattern" := Value(urlProcessPattern), "urlProcessRegEx" := Value(urlProcessRegEx),
        "obeyRobots" := Value(obeyRobots), "restrictDomain" := Value(restrictDomain),
        "useProxies" := Value(useProxies), "maxHops" := Value(maxHops),
        "maxToCrawl" := Value(maxToCrawl), "maxToProcess" := Value(maxToProcess),
        "crawlDelay" := Value(crawlDelay), "onlyProcessIfNew" := Value(onlyProcessIfNew)]
  }

  /** `CrawlJobOperator._generate_args`: up to 18 keys, the twelve crawl
      options followed by the six shared job options. */
  function CrawlArgs(urlCrawlPattern: Option<Json>, urlCrawlRegEx: Option<Json>, urlProcessPattern: Option<Json>,
                     urlProcessRegEx: Option<Json>, pageProcessPattern: Option<Json>, customHeaders: Option<Json>,
                     obeyRobots: Option<Json>, restrictDomain: Option<Json>, useProxies: Option<Json>,
                     maxHops: Option<Json>, maxToCrawl: Option<Json>, maxToProcess: Option<Json>,
                     notifyEmail: Option<Json>, notifyWebhook: Option<Json>, crawlDelay: Option<Json>,
                     repeat: Option<Json>, onlyProcessIfNew: Option<Json>, maxRounds: Option<Json>): (r: map<string, Json>)
    ensures r.Keys <= CrawlOnlyKeys + JobKeys
    ensures Sparse(r, "urlCrawlPattern", urlCrawlPattern) && Sparse(r, "urlCrawlRegEx", urlCrawlRegEx)
    ensures Sparse(r, "urlProcessPattern", urlProcessPattern) && Sparse(r, "urlProcessRegEx", urlProcessRegEx)
    ensures Sparse(r, "obeyRobots", obeyRobots) && Sparse(r, "restrictDomain", restrictDomain)
    ensures Sparse(r, "useProxies", useProxies) && Sparse(r, "maxHops", maxHops)
    ensures Sparse(r, "maxToCrawl", maxToCrawl) && Sparse(r, "maxToProcess", maxToProcess)
    ensures Sparse(r, "crawlDelay", crawlDelay) && Sparse(r, "onlyProcessIfNew", onlyProcessIfNew)
    ensures Sparse(r, "customHeaders", customHeaders) && Sparse(r, "notifyEmail", notifyEmail)
    ensures Sparse(r, "notifyWebhook", notifyWebhook) && Sparse(r, "repeat", repeat)
    ensures Sparse(r, "maxRounds", maxRounds) && Sparse(r, "pageProcessPattern", pageProcessPattern)
  {
    var m := CrawlLiteral(urlCrawlPattern, urlCrawlRegEx, urlProcessPattern, urlProcessRegEx, obeyRobots,
                          restrictDomain, useProxies, maxHops, maxToCrawl, maxToProcess, crawlDelay, onlyProcessIfNew);
    var inner := JobArgs(customHeaders, notifyEmail, notifyWebhook, repeat, maxRounds, pageProcessPattern);
    CrawlOnlyKeysApart();
    SparseBefore(m, inner, "urlCrawlPattern", urlCrawlPattern, CrawlOnlyKeys, JobKeys);
    SparseBefore(m, inner, "urlCrawlRegEx", urlCrawlRegEx, CrawlOnlyKeys, JobKeys);
    SparseBefore(m, inner, "urlProcessPattern", urlProcessPattern, CrawlOnlyKeys, JobKeys);
    SparseBefore(m, inner, "urlProcessRegEx", urlProcessRegEx, CrawlOnlyKeys, JobKeys);
    SparseBefore(m, inner, "obeyRobots", obeyRobots, CrawlOnlyKeys, JobKeys);
    SparseBefore(m, inner, "restrictDomain", restrictDomain, CrawlOnlyKeys, JobKeys);
    SparseBefore(m, inner, "useProxies", useProxies, CrawlOnlyKeys, JobKeys);
    SparseBefore(m, inner, "maxHops", maxHops, CrawlOnlyKeys, JobKeys);
    SparseBefore(m, inner, "maxToCrawl", maxToCrawl, CrawlOnlyKeys, JobKeys);
    SparseBefore(m, inner, "maxToProcess", maxToProcess, CrawlOnlyKeys, JobKeys);
    SparseBefore(m, inner, "crawlDelay", crawlDelay, CrawlOnlyKeys, JobKeys);
    SparseBefore(m, inner, "onlyProcessIfNew", onlyProcessIfNew, CrawlOnlyKeys, JobKeys);
    SparseThrough(m, inner, "customHeaders", customHeaders);
    SparseThrough(m, inner, "notifyEmail", notifyEmail);
    SparseThrough(m, inner, "notifyWebhook", notifyWebhook);
    SparseThrough(m, inner, "repeat", repeat);
    SparseThrough(m, inner, "maxRounds", maxRounds);
    SparseThrough(m, inner, "pageProcessPattern", pageProcessPattern);
    DropNone(m + inner)
  }

  /** `Searcher.generate_args`. */
  function SearchArgs(num: Option<Json>, start: Option<Json>): (r: map<string, Json>)
    ensures r.Keys <= {"num", "start"}
    ensures Sparse(r, "num", num) && Sparse(r, "start", start)
  {
    var m := map["num" := Value(num), "start" := Value(start)];
    SparseAt(m, "num", num);
    SparseAt(m, "start", start);
    DropNone(m)
  }
}
