/** The `/api/news` endpoint: a process-wide cache with a five-minute time
    to live, the RSS and NewsAPI fetchers (their item limit and field
    defaults), and the provider fallback chain. Each fetch is a parameter:
    an `RssReader` for feedparser and a `NewsApiClient` for the HTTP call,
    each giving the parsed data or `Failed` when it raises. */
module NewsRoutes {
  import opened Wrappers
  import opened Web
  import Text

  const DEFAULT_LIMIT := 6
  const MIN_LIMIT := 1
  const MAX_LIMIT := 20
  const TTL_SECONDS: real := 300.0
  const UNTITLED := "Untitled"
  const DEFAULT_REGION := "us"
  const DEFAULT_PROVIDER := "auto"
  const NYT_RSS := "https://rss.nytimes.com/services/xml/rss/nyt/HomePage.xml"

  /** Google News RSS parameters per region code: (hl, gl, ceid). */
  datatype RssRegion = RssRegion(hl: string, gl: string, ceid: string)

  const GOOGLE_RSS_REGIONS: map<string, RssRegion> := map[
    "us" := RssRegion("en-US", "US", "US:en"),
    "in" := RssRegion("en-IN", "IN", "IN:en"),
    "uk" := RssRegion("en-GB", "GB", "GB:en"),
    "au" := RssRegion("en-AU", "AU", "AU:en"),
    "ca" := RssRegion("en-CA", "CA", "CA:en"),
    "sg" := RssRegion("en-SG", "SG", "SG:en"),
    "de" := RssRegion("de-DE", "DE", "DE:de"),
    "fr" := RssRegion("fr-FR", "FR", "FR:fr"),
    "es" := RssRegion("es-ES", "ES", "ES:es")]

  // ---------- Data ----------

  /** One item of the response. */
  datatype NewsItem = NewsItem(title: string, link: string, published: string, image: Option<string>)

  /** The response body; `source` names the provider that answered, or
      "error". */
  datatype NewsPayload = NewsPayload(news: seq<NewsItem>, source: string, region: string)

  /** A feed entry's attributes (None when the entry lacks one); `image` is
      what image extraction came to. */
  datatype RssEntry = RssEntry(title: Option<string>, link: Option<string>, published: Option<string>,
                               updated: Option<string>, image: Option<string>)

  /** A NewsAPI article's fields (None when absent or null). */
  datatype Article = Article(title: Option<string>, url: Option<string>, publishedAt: Option<string>,
                             urlToImage: Option<string>)

  /** The NewsAPI response's `articles` (None when absent or null). */
  datatype NewsApiData = NewsApiData(articles: Option<seq<Article>>)

  datatype FetchOutcome<T> = Fetched(data: T) | Failed

  /** `feedparser.parse(url).entries`. */
  type RssReader = string -> FetchOutcome<seq<RssEntry>>

  /** The NewsAPI request for (country, pageSize, apiKey), its status check
      and `.json()`. */
  type NewsApiClient = (string, int, string) -> FetchOutcome<NewsApiData>

  // ---------- The cache ----------

  datatype CacheEntry = CacheEntry(timestamp: real, payload: NewsPayload)

  /** `_cache`: key to (time stored, payload). */
  class NewsCache {
    var entries: map<string, CacheEntry>

    constructor ()
      ensures entries == map[]
    {
      entries := map[];
    }

    /** What `_get_cache(key)` returns at time `now`: the payload of an
        entry at most 300 seconds old, else None. */
    function Lookup(key: string, now: real): (r: Option<NewsPayload>)
      reads this
      ensures r.Some? <==> key in entries && now - entries[key].timestamp <= TTL_SECONDS
      ensures r.Some? ==> r.value == entries[key].payload
    {
      if key in entries && now - entries[key].timestamp <= TTL_SECONDS then Some(entries[key].payload) else None
    }

    /** `_get_cache`: returns `Lookup(key, now)`, and removes the entry when
        it has gone stale; nothing else changes. */
    method GetCache(key: string, now: real) returns (r: Option<NewsPayload>)
      modifies this
      ensures r == old(Lookup(key, now))
      ensures (key in old(entries) && r.None?) ==> entries == old(entries) - {key}
      ensures (key !in old(entries) || r.Some?) ==> entries == old(entries)
    {
      if key !in entries {
        return None;
      }
      var item := entries[key];
      if now - item.timestamp > TTL_SECONDS {
        entries := entries - {key};
        return None;
      }
      r := Some(item.payload);
    }

    /** `_set_cache`: overwrites the one key with (now, payload). */
    method SetCache(key: string, now: real, payload: NewsPayload)
      modifies this
      ensures entries == old(entries)[key := CacheEntry(now, payload)]
      ensures Lookup(key, now) == Some(payload)
    {
      entries := entries[key := CacheEntry(now, payload)];
    }
  }

  /** The time to live is inclusive: an entry exactly 300 seconds old still
      answers, one a moment older does not. */
  lemma CacheFreshness(c: NewsCache, key: string, payload: NewsPayload, storedAt: real, extra: real)
    requires key in c.entries && c.entries[key] == CacheEntry(storedAt, payload)
    requires extra > 0.0
    ensures c.Lookup(key, storedAt + TTL_SECONDS) == Some(payload)
    ensures c.Lookup(key, storedAt + TTL_SECONDS + extra) == None
  {
  }

  // ---------- URLs and regions ----------

  /** `_google_news_rss`: the feed for the region, matched without regard to
      ASCII case; an unknown region gets the US feed. */
  function GoogleNewsRss(region: string): (r: string)
    ensures var p := if Text.Lower(region) in GOOGLE_RSS_REGIONS then GOOGLE_RSS_REGIONS[Text.Lower(region)]
                     else GOOGLE_RSS_REGIONS[DEFAULT_REGION];
            r == "https://news.google.com/rss?hl=" + p.hl + "&gl=" + p.gl + "&ceid=" + p.ceid
  {
    var p := Get(GOOGLE_RSS_REGIONS, Text.Lower(region)).GetOr(GOOGLE_RSS_REGIONS[DEFAULT_REGION]);
    "https://news.google.com/rss?hl=" + p.hl + "&gl=" + p.gl + "&ceid=" + p.ceid
  }

  /** The `country` NewsAPI is asked for: the lower-cased region when it is
      a supported one, else "us". */
  function NewsApiCountry(region: string): (r: string)
    ensures r in GOOGLE_RSS_REGIONS
    ensures Text.Lower(region) in GOOGLE_RSS_REGIONS ==> r == Text.Lower(region)
    ensures Text.Lower(region) !in GOOGLE_RSS_REGIONS ==> r == DEFAULT_REGION
  {
    if Text.Lower(region) in GOOGLE_RSS_REGIONS then Text.Lower(region) else DEFAULT_REGION
  }

  /** Regions differing only in ASCII case get the same feed and country. */
  lemma RegionCaseInsensitive(region: string)
    ensures GoogleNewsRss(Text.Lower(region)) == GoogleNewsRss(region)
    ensures NewsApiCountry(Text.Lower(region)) == NewsApiCountry(region)
  {
    Text.LowerIdempotent(region);
  }

  /** An unknown region is served the US feed and the US country. */
  lemma UnknownRegionIsUs(region: string)
    requires Text.Lower(region) !in GOOGLE_RSS_REGIONS
    ensures GoogleNewsRss(region) == GoogleNewsRss(DEFAULT_REGION)
    ensures NewsApiCountry(region) == DEFAULT_REGION
  {
    assert Text.Lower(DEFAULT_REGION) == DEFAULT_REGION;
  }

  // ---------- Normalisation and the fetchers ----------

  /** The end index of Python's `seq[:limit]`: a negative limit counts from
      the end. */
  function SliceEnd(n: nat, limit: int): (r: nat)
    ensures r <= n
    ensures 0 <= limit ==> r == if limit < n then limit else n
  {
    if limit >= 0 then (if limit < n then limit else n)
    else if n + limit > 0 then n + limit else 0
  }

  /** A value or `default`, as `value or default` on an optional string. */
  function OrDefault(o: Option<string>, default: string): (r: string)
    ensures o.Some? && o.value != "" ==> r == o.value
    ensures o.None? || o.value == "" ==> r == default
  {
    if o.Some? && o.value != "" then o.value else default
  }

  /** `_normalize_entry`: a missing title is "Untitled" (an empty one stays
      empty), a missing link "", the publication date falls back to the
      update date when missing or empty. */
  function NormalizeEntry(e: RssEntry): (r: NewsItem)
    ensures r.title == if e.title.Some? then e.title.value else UNTITLED
    ensures r.link == e.link.GetOr("")
    ensures r.published == OrDefault(e.published, e.updated.GetOr(""))
    ensures r.image == e.image
  {
    NewsItem(e.title.GetOr(UNTITLED), e.link.GetOr(""), OrDefault(e.published, e.updated.GetOr("")), e.image)
  }

  /** One item of `_fetch_newsapi`: missing, null and empty fields alike get
      their defaults, so the title is never empty. */
  function NormalizeArticle(a: Article): (r: NewsItem)
    ensures r.title != ""
    ensures r.title == OrDefault(a.title, UNTITLED)
    ensures r.link == OrDefault(a.url, "") && r.published == OrDefault(a.publishedAt, "")
    ensures r.image == a.urlToImage
  {
    NewsItem(OrDefault(a.title, UNTITLED), OrDefault(a.url, ""), OrDefault(a.publishedAt, ""), a.urlToImage)
  }

  /** The items `_fetch_rss(url, limit)` returns, or Failed when parsing
      raises: the first `limit` entries, normalised, in feed order. */
  function RssItems(rss: RssReader, url: string, limit: int): (r: FetchOutcome<seq<NewsItem>>)
    ensures r.Failed? <==> rss(url).Failed?
    ensures r.Fetched? ==> var es := rss(url).data;
                           && |r.data| == SliceEnd(|es|, limit)
                           && forall i | 0 <= i < |r.data| :: r.data[i] == NormalizeEntry(es[i])
  {
    match rss(url)
    case Failed => Failed
    case Fetched(es) => Fetched(seq(SliceEnd(|es|, limit), i requires 0 <= i < SliceEnd(|es|, limit) => NormalizeEntry(es[i])))
  }

  /** The items `_fetch_newsapi(region, limit)` returns, or Failed when the
      request, its status or its body raises: the first `limit` articles
      (none when `articles` is absent or null), normalised, in order. */
  function NewsApiItems(newsapi: NewsApiClient, region: string, limit: int, apiKey: string): (r: FetchOutcome<seq<NewsItem>>)
    ensures r.Failed? <==> newsapi(NewsApiCountry(region), limit, apiKey).Failed?
    ensures r.Fetched? ==> var articles := newsapi(NewsApiCountry(region), limit, apiKey).data.articles.GetOr([]);
                           && |r.data| == SliceEnd(|articles|, limit)
                           && forall i | 0 <= i < |r.data| :: r.data[i] == NormalizeArticle(articles[i])
  {
    match newsapi(NewsApiCountry(region), limit, apiKey)
    case Failed => Failed
    case Fetched(data) =>
      var articles := data.articles.GetOr([]);
      Fetched(seq(SliceEnd(|articles|, limit), i requires 0 <= i < SliceEnd(|articles|, limit) => NormalizeArticle(articles[i])))
  }

  /** `_fetch_rss`: the append loop over `feed.entries[:limit]`. */
  method FetchRss(rss: RssReader, url: string, limit: int) returns (r: FetchOutcome<seq<NewsItem>>)
    ensures r == RssItems(rss, url, limit)
  {
    var feed := rss(url);
    if feed.Failed? {
      return Failed;
    }
    var chosen := feed.data[..SliceEnd(|feed.data|, limit)];
    var items: seq<NewsItem> := [];
    for i := 0 to |chosen|
      invariant |items| == i
      invariant forall k | 0 <= k < i :: items[k] == NormalizeEntry(chosen[k])
    {
      items := items + [NormalizeEntry(chosen[i])];
    }
    assert items == RssItems(rss, url, limit).data;
    r := Fetched(items);
  }

  /** `_fetch_newsapi`: the append loop over `(articles or [])[:limit]`. */
  method FetchNewsApi(newsapi: NewsApiClient, region: string, limit: int, apiKey: string)
    returns (r: FetchOutcome<seq<NewsItem>>)
    ensures r == NewsApiItems(newsapi, region, limit, apiKey)
  {
    var response := newsapi(NewsApiCountry(region), limit, apiKey);
    if response.Failed? {
      return Failed;
    }
    var articles := response.data.articles.GetOr([]);
    var chosen := articles[..SliceEnd(|articles|, limit)];
    var items: seq<NewsItem> := [];
    for i := 0 to |chosen|
      invariant |items| == i
      invariant forall k | 0 <= k < i :: items[k] == NormalizeArticle(chosen[k])
    {
      items := items + [NormalizeArticle(chosen[i])];
    }
    assert items == NewsApiItems(newsapi, region, limit, apiKey).data;
    r := Fetched(items);
  }

  /** Both fetchers return at most `limit` items for a limit that is not
      negative. */
  lemma FetchersRespectLimit(rss: RssReader, url: string, newsapi: NewsApiClient, region: string, limit: int, apiKey: string)
    ensures 0 <= limit && RssItems(rss, url, limit).Fetched? ==> |RssItems(rss, url, limit).data| <= limit
    ensures 0 <= limit && NewsApiItems(newsapi, region, limit, apiKey).Fetched? ==>
              |NewsApiItems(newsapi, region, limit, apiKey).data| <= limit
  {
  }

  /** RSS keeps an empty title while NewsAPI replaces it. */
  lemma EmptyTitleDefaults(link: string)
    ensures NormalizeEntry(RssEntry(Some(""), Some(link), None, None, None)).title == ""
    ensures NormalizeArticle(Article(Some(""), Some(link), None, None)).title == UNTITLED
  {
  }

  // ---------- The endpoint ----------

  /** `_response`. */
  function Response(news: seq<NewsItem>, source: string, region: string): (r: NewsPayload)
    ensures r.news == news && r.source == source && r.region == region
  {
    NewsPayload(news, source, region)
  }

  /** The last-resort payload of the outer `except`. */
  function ErrorPayload(region: string): (r: NewsPayload)
    ensures r.news == [] && r.source == "error" && r.region == region
  {
    Response([], "error", region)
  }

  /** `f"{region}:{limit}:{provider}"`. */
  function CacheKey(region: string, limit: int, provider: string): (k: string)
    ensures |k| > |region| + |provider| + 2
    ensures k[..|region|] == region && k[|region|] == ':'
    ensures k[|k| - |provider|..] == provider && k[|k| - |provider| - 1] == ':'
  {
    region + ":" + Text.IntToString(limit) + ":" + provider
  }

  predicate NoColon(s: string) {
    forall k :: 0 <= k < |s| ==> s[k] != ':'
  }

  /** Two strings joined at a colon split back at the first colon. */
  lemma SplitAtFirstColon(a1: string, b1: string, a2: string, b2: string)
    requires NoColon(a1) && NoColon(a2)
    requires a1 + ":" + b1 == a2 + ":" + b2
    ensures a1 == a2 && b1 == b2
  {
    var j1 := a1 + ":" + b1;
    var j2 := a2 + ":" + b2;
    assert j1[|a1|] == ':' && j2[|a2|] == ':';
    assert |a1| == |a2|;
    assert a1 == j1[..|a1|];
    assert b1 == j1[|a1| + 1..];
  }

  /** Two queries share a cache entry only when they are the same query,
      provided the region holds no colon (a colon in it can make
      `region:limit:provider` ambiguous). */
  lemma CacheKeyDistinguishesQueries(region1: string, limit1: int, provider1: string,
                                     region2: string, limit2: int, provider2: string)
    requires NoColon(region1) && NoColon(region2)
    requires CacheKey(region1, limit1, provider1) == CacheKey(region2, limit2, provider2)
    ensures region1 == region2 && limit1 == limit2 && provider1 == provider2
  {
    var n1 := Text.IntToString(limit1);
    var n2 := Text.IntToString(limit2);
    assert CacheKey(region1, limit1, provider1) == region1 + ":" + (n1 + ":" + provider1);
    assert CacheKey(region2, limit2, provider2) == region2 + ":" + (n2 + ":" + provider2);
    SplitAtFirstColon(region1, n1 + ":" + provider1, region2, n2 + ":" + provider2);
    assert NoColon(n1) && NoColon(n2);
    SplitAtFirstColon(n1, provider1, n2, provider2);
    Text.ParseIntOfIntToString(limit1);
    Text.ParseIntOfIntToString(limit2);
  }

  /** The payload of one explicit provider: its items, or the error payload
      when it fails (the outer `except`, no fallback). */
  function Explicit(outcome: FetchOutcome<seq<NewsItem>>, source: string, region: string): (r: NewsPayload)
    ensures outcome.Fetched? ==> r == Response(outcome.data, source, region)
    ensures outcome.Failed? ==> r == ErrorPayload(region)
  {
    match outcome
    case Fetched(items) => Response(items, source, region)
    case Failed => ErrorPayload(region)
  }

  /** The `auto` chain: NewsAPI when a key is set, then Google News RSS for
      the region, then the NYT feed; the first that does not fail answers,
      and the error payload when the NYT feed fails too. */
  function AutoChain(region: string, limit: int, apiKey: string, newsapi: NewsApiClient, rss: RssReader): (r: NewsPayload)
    ensures apiKey != "" && NewsApiItems(newsapi, region, limit, apiKey).Fetched? ==>
              r == Response(NewsApiItems(newsapi, region, limit, apiKey).data, "newsapi", region)
    ensures (apiKey == "" || NewsApiItems(newsapi, region, limit, apiKey).Failed?) ==>
              r == if RssItems(rss, GoogleNewsRss(region), limit).Fetched?
                   then Response(RssItems(rss, GoogleNewsRss(region), limit).data, "google_rss", region)
                   else Explicit(RssItems(rss, NYT_RSS, limit), "nyt", region)
  {
    var fromNewsApi := if apiKey != "" then NewsApiItems(newsapi, region, limit, apiKey) else Failed;
    if fromNewsApi.Fetched? then Response(fromNewsApi.data, "newsapi", region)
    else
      var fromGoogle := RssItems(rss, GoogleNewsRss(region), limit);
      if fromGoogle.Fetched? then Response(fromGoogle.data, "google_rss", region)
      else Explicit(RssItems(rss, NYT_RSS, limit), "nyt", region)
  }

  /** What `get_news` answers after a cache miss: "newsapi" (with a key),
      "google_rss" and "nyt" use only that provider; anything else, and
      "newsapi" without a key, runs the `auto` chain. */
  function NewsFor(region: string, limit: int, provider: string, apiKey: string,
                   newsapi: NewsApiClient, rss: RssReader): (r: NewsPayload)
    ensures r.region == region
    ensures r.source in {"newsapi", "google_rss", "nyt", "error"}
    ensures r.source == "error" ==> r.news == []
    ensures 0 <= limit ==> |r.news| <= limit
  {
    FetchersRespectLimit(rss, GoogleNewsRss(region), newsapi, region, limit, apiKey);
    FetchersRespectLimit(rss, NYT_RSS, newsapi, region, limit, apiKey);
    if provider == "newsapi" && apiKey != "" then Explicit(NewsApiItems(newsapi, region, limit, apiKey), "newsapi", region)
    else if provider == "google_rss" then Explicit(RssItems(rss, GoogleNewsRss(region), limit), "google_rss", region)
    else if provider == "nyt" then Explicit(RssItems(rss, NYT_RSS, limit), "nyt", region)
    else AutoChain(region, limit, apiKey, newsapi, rss)
  }

  /** An explicit provider answers itself or with the error payload, never
      through another provider. */
  lemma ExplicitProviderNoFallback(region: string, limit: int, provider: string, apiKey: string,
                                   newsapi: NewsApiClient, rss: RssReader)
    requires provider in {"google_rss", "nyt"} || (provider == "newsapi" && apiKey != "")
    ensures NewsFor(region, limit, provider, apiKey, newsapi, rss).source in {provider, "error"}
  {
  }

  /** In the chain, NYT answers only when Google News failed and NewsAPI was
      skipped or failed, and the error payload only when all of them
      failed. */
  lemma AutoChainOrder(region: string, limit: int, provider: string, apiKey: string,
                       newsapi: NewsApiClient, rss: RssReader)
    requires provider !in {"google_rss", "nyt"} && (provider != "newsapi" || apiKey == "")
    ensures var r := NewsFor(region, limit, provider, apiKey, newsapi, rss);
            && (r.source == "newsapi" ==> apiKey != "")
            && (r.source in {"google_rss", "nyt", "error"} ==>
                  apiKey == "" || NewsApiItems(newsapi, region, limit, apiKey).Failed?)
            && (r.source in {"nyt", "error"} ==> RssItems(rss, GoogleNewsRss(region), limit).Failed?)
            && (r.source == "error" ==> RssItems(rss, NYT_RSS, limit).Failed?)
  {
  }

  /** A request that leaves out every query parameter (region "us", limit
      6, provider "auto") passes validation and runs the `auto` chain. */
  lemma DefaultQueryRunsAutoChain(apiKey: string, newsapi: NewsApiClient, rss: RssReader)
    ensures LimitError(DEFAULT_LIMIT).None?
    ensures NewsFor(DEFAULT_REGION, DEFAULT_LIMIT, DEFAULT_PROVIDER, apiKey, newsapi, rss)
            == AutoChain(DEFAULT_REGION, DEFAULT_LIMIT, apiKey, newsapi, rss)
  {
  }

  /** The body of `get_news` after a cache miss, with its early returns
      (each branch's `_set_cache` is done once by the caller). */
  method FetchNews(region: string, limit: int, provider: string, apiKey: string,
                   newsapi: NewsApiClient, rss: RssReader) returns (payload: NewsPayload)
    ensures payload == NewsFor(region, limit, provider, apiKey, newsapi, rss)
  {
    if provider == "newsapi" && apiKey != "" {
      var news := FetchNewsApi(newsapi, region, limit, apiKey);
      return Explicit(news, "newsapi", region);
    }
    if provider == "google_rss" {
      var news := FetchRss(rss, GoogleNewsRss(region), limit);
      return Explicit(news, "google_rss", region);
    }
    if provider == "nyt" {
      var news := FetchRss(rss, NYT_RSS, limit);
      return Explicit(news, "nyt", region);
    }
    if apiKey != "" {
      var news := FetchNewsApi(newsapi, region, limit, apiKey);
      if news.Fetched? {
        return Response(news.data, "newsapi", region);
      }
    }
    var google := FetchRss(rss, GoogleNewsRss(region), limit);
    if google.Fetched? {
      return Response(google.data, "google_rss", region);
    }
    var nyt := FetchRss(rss, NYT_RSS, limit);
    payload := Explicit(nyt, "nyt", region);
  }

  /** `limit` outside 1..20 is refused by query validation with 422 before
      the handler runs. */
  function LimitError(limit: int): (r: Option<HttpError>)
    ensures r.None? <==> MIN_LIMIT <= limit <= MAX_LIMIT
    ensures r.Some? ==> r.value.status == 422
  {
    if limit < MIN_LIMIT then Some(HttpError(422, "Input should be greater than or equal to 1"))
    else if limit > MAX_LIMIT then Some(HttpError(422, "Input should be less than or equal to 20"))
    else None
  }

  /** `GET /api/news`. A fresh cache entry for the key is answered as it is,
      with no fetch; otherwise (a stale entry is dropped first) the payload
      `NewsFor` describes is fetched, stored under the key with the time
      `fetchedAt` at which the fetch ended, and returned. `apiKey` is the
      stripped `NEWSAPI_KEY` environment value. */
  method GetNews(cache: NewsCache, region: string, limit: int, provider: string, apiKey: string,
                 newsapi: NewsApiClient, rss: RssReader, now: real, fetchedAt: real)
    returns (r: Result<NewsPayload, HttpError>)
    modifies cache
    ensures LimitError(limit).Some? ==> r == Err(LimitError(limit).value) && unchanged(cache)
    ensures LimitError(limit).None? ==>
              var key := CacheKey(region, limit, provider);
              && (old(cache.Lookup(key, now)).Some? ==>
                    r == Ok(old(cache.Lookup(key, now)).value) && cache.entries == old(cache.entries))
              && (old(cache.Lookup(key, now)).None? ==>
                    var payload := NewsFor(region, limit, provider, apiKey, newsapi, rss);
                    r == Ok(payload) && cache.entries == old(cache.entries)[key := CacheEntry(fetchedAt, payload)])
  {
    var invalid := LimitError(limit);
    if invalid.Some? {
      return Err(invalid.value);
    }
    var key := CacheKey(region, limit, provider);
    var cached := cache.GetCache(key, now);
    if cached.Some? {
      return Ok(cached.value);
    }
    var payload := FetchNews(region, limit, provider, apiKey, newsapi, rss);
    cache.SetCache(key, fetchedAt, payload);
    r := Ok(payload);
  }
}
