/**
 The fetch-and-extract pipeline of one `parse` call: normalise the URL,
 answer from the cache when it holds the URL, otherwise fetch, extract,
 apply the empty-result policy, store and deliver. The network is a
 parameter mapping a URL to its response; the cache is `None` when the
 parser was built without a context.
 */
module OpenGraphParser {
  import opened Wrappers
  import opened OgResult
  import opened UrlNormalizer
  import opened Extractor
  import opened EmptyPolicy

  /** Stored results, keyed by normalised URL. */
  type Cache = map<string, OpenGraphResult>

  /** What the HTTP request yields: a failure with its message, or the page's selected `og:` tags. */
  datatype Response = Failed(message: string) | Fetched(tags: seq<Tag>)

  /** The network as seen by the parser: the response to a request for a URL. */
  type Network = string -> Response

  /** The two notifications a caller can receive. */
  datatype Callback = OnPostResponse(result: OpenGraphResult) | OnError(message: string)

  const EmptyResponseMessage: string := "Null or empty response from the server"

  /**
   One run of `fetchContent`: the value it returns (`None` for `null`), the
   error callbacks it launched, the cache afterwards, and the URL it requested
   from the network (`None` when it made no request).
   */
  datatype Run = Run(
    returned: Option<OpenGraphResult>,
    launched: seq<Callback>,
    cache: Option<Cache>,
    requested: Option<string>)

  /** Everything a caller observes of one `parse` call. */
  datatype Delivery = Delivery(
    callbacks: seq<Callback>,
    cache: Option<Cache>,
    requested: Option<string>)

  /** A cache is configured and holds `url`. */
  predicate CacheHit(cache: Option<Cache>, url: string)
  {
    cache.Some? && url in cache.value
  }

  /** Store `r` under `url`, when a cache is configured. */
  function Store(cache: Option<Cache>, url: string, r: OpenGraphResult): (cache': Option<Cache>)
    ensures cache'.Some? <==> cache.Some?
    ensures cache'.Some? ==> url in cache'.value && cache'.value[url] == r
    ensures cache'.Some? ==> cache'.value.Keys == cache.value.Keys + {url}
    ensures cache'.Some? ==> forall k | k in cache.value && k != url :: cache'.value[k] == cache.value[k]
  {
    match cache
    case None => None
    case Some(m) => Some(m[url := r])
  }

  /** The body of `fetchContent`, run against a cache, a policy flag, a raw URL and the network. */
  function FetchContent(cache: Option<Cache>, showNullOnEmpty: bool, rawUrl: string, network: Network): (run: Run)
    ensures run.returned.Some? <==> run.launched == []
    ensures |run.launched| <= 1
    ensures run.requested.None? <==> CacheHit(cache, Normalize(rawUrl))
    ensures run.requested.Some? ==> run.requested.value == Normalize(rawUrl)
    ensures run.returned.None? ==> run.cache == cache
  {
    var url := Normalize(rawUrl);
    if CacheHit(cache, url) then
      Run(Some(cache.value[url]), [], cache, None)
    else
      match network(url)
      case Failed(message) =>
        Run(None, [OnError(message)], cache, Some(url))
      case Fetched(tags) =>
        var r := Extract(tags);
        if RejectsAsEmpty(r, showNullOnEmpty) then
          Run(None, [OnError(EmptyResponseMessage)], cache, Some(url))
        else
          Run(Some(r), [], Store(cache, url, r), Some(url))
  }

  /**
   `parse(url)`: run `fetchContent`, then post its result when it returned one.
   Exactly one notification reaches the caller; the cache changes only by a
   successful fetch storing its result under the normalised URL.
   */
  function Parse(cache: Option<Cache>, showNullOnEmpty: bool, rawUrl: string, network: Network): (d: Delivery)
    ensures |d.callbacks| == 1
    ensures d.callbacks[0].OnError? ==> d.cache == cache && !CacheHit(cache, Normalize(rawUrl))
    ensures d.cache.Some? <==> cache.Some?
    ensures d.cache.Some? ==> d.cache.value.Keys <= cache.value.Keys + {Normalize(rawUrl)}
    ensures d.cache.Some? ==> forall k | k in cache.value && k != Normalize(rawUrl) :: k in d.cache.value && d.cache.value[k] == cache.value[k]
    ensures d.callbacks[0].OnPostResponse? && d.cache.Some? ==>
      Normalize(rawUrl) in d.cache.value && d.cache.value[Normalize(rawUrl)] == d.callbacks[0].result
  {
    var run := FetchContent(cache, showNullOnEmpty, rawUrl, network);
    var posted := match run.returned
      case Some(r) => [OnPostResponse(r)]
      case None => [];
    Delivery(run.launched + posted, run.cache, run.requested)
  }

  /** A cache hit delivers the stored result, makes no request and leaves the cache alone, whatever the network would answer. */
  lemma CacheHitShortCircuit(cache: Option<Cache>, showNullOnEmpty: bool, rawUrl: string, network: Network, other: Network)
    requires CacheHit(cache, Normalize(rawUrl))
    ensures Parse(cache, showNullOnEmpty, rawUrl, network)
            == Delivery([OnPostResponse(cache.value[Normalize(rawUrl)])], cache, None)
    ensures Parse(cache, showNullOnEmpty, rawUrl, network) == Parse(cache, showNullOnEmpty, rawUrl, other)
  {
  }

  /** Without a cache every call requests the normalised URL, and there is still no cache afterwards. */
  lemma NoCacheAlwaysFetches(showNullOnEmpty: bool, rawUrl: string, network: Network)
    ensures Parse(None, showNullOnEmpty, rawUrl, network).requested == Some(Normalize(rawUrl))
    ensures Parse(None, showNullOnEmpty, rawUrl, network).cache == None
  {
  }

  /** A failed request reports its own message and leaves the cache alone. */
  lemma FetchFailureReported(cache: Option<Cache>, showNullOnEmpty: bool, rawUrl: string, network: Network)
    requires !CacheHit(cache, Normalize(rawUrl))
    requires network(Normalize(rawUrl)).Failed?
    ensures Parse(cache, showNullOnEmpty, rawUrl, network)
            == Delivery([OnError(network(Normalize(rawUrl)).message)], cache, Some(Normalize(rawUrl)))
  {
  }

  /**
   After a successful request, the empty-response error is reported exactly
   when the flag is on and both title and description are present and "" or
   "null"; then the cache is untouched. Otherwise the extracted result is
   delivered and stored under the normalised URL.
   */
  lemma FetchedPageOutcome(cache: Option<Cache>, showNullOnEmpty: bool, rawUrl: string, network: Network)
    requires !CacheHit(cache, Normalize(rawUrl))
    requires network(Normalize(rawUrl)).Fetched?
    ensures var d := Parse(cache, showNullOnEmpty, rawUrl, network);
            var r := Extract(network(Normalize(rawUrl)).tags);
            && (d.callbacks[0].OnError? <==>
                 showNullOnEmpty
                 && r.title.Some? && r.title.value in {"", "null"}
                 && r.description.Some? && r.description.value in {"", "null"})
            && (d.callbacks[0].OnError? ==> d.callbacks == [OnError(EmptyResponseMessage)] && d.cache == cache)
            && (d.callbacks[0].OnPostResponse? ==>
                 d.callbacks == [OnPostResponse(r)] && d.cache == Store(cache, Normalize(rawUrl), r))
  {
  }

  /** A page without any `og:` tag is a success carrying the fresh result, even with the flag on. */
  lemma NoTagsIsSuccess(cache: Option<Cache>, showNullOnEmpty: bool, rawUrl: string, network: Network)
    requires !CacheHit(cache, Normalize(rawUrl))
    requires network(Normalize(rawUrl)) == Fetched([])
    ensures Parse(cache, showNullOnEmpty, rawUrl, network).callbacks == [OnPostResponse(Fresh())]
  {
    NoTagsGiveFresh();
  }

  /** After a successful call, the same URL is answered from the cache with the same result and no request. */
  lemma CacheRoundTrip(cache: Cache, showNullOnEmpty: bool, rawUrl: string, network: Network, later: Network)
    requires Parse(Some(cache), showNullOnEmpty, rawUrl, network).callbacks[0].OnPostResponse?
    ensures var d := Parse(Some(cache), showNullOnEmpty, rawUrl, network);
            Parse(d.cache, showNullOnEmpty, rawUrl, later) == Delivery(d.callbacks, d.cache, None)
  {
  }

  /** A raw URL and its normal form are parsed alike. */
  lemma NormalizedInputParsedAlike(cache: Option<Cache>, showNullOnEmpty: bool, rawUrl: string, network: Network)
    ensures Parse(cache, showNullOnEmpty, Normalize(rawUrl), network) == Parse(cache, showNullOnEmpty, rawUrl, network)
  {
    NormalizeIdempotent(rawUrl);
  }

  /** Every key is a normalised URL and every stored result passes the policy. */
  ghost predicate WellFormedCache(cache: Option<Cache>, showNullOnEmpty: bool)
  {
    cache.Some? ==>
      forall k | k in cache.value :: Normalize(k) == k && !RejectsAsEmpty(cache.value[k], showNullOnEmpty)
  }

  /**
   Presence of a key means an earlier policy-passing fetch of that URL: the
   cache stays well formed, so whatever a parser delivers as a success passes
   its own policy, cached or not.
   */
  lemma ParseKeepsCacheWellFormed(cache: Option<Cache>, showNullOnEmpty: bool, rawUrl: string, network: Network)
    requires WellFormedCache(cache, showNullOnEmpty)
    ensures var d := Parse(cache, showNullOnEmpty, rawUrl, network);
            && WellFormedCache(d.cache, showNullOnEmpty)
            && (d.callbacks[0].OnPostResponse? ==> !RejectsAsEmpty(d.callbacks[0].result, showNullOnEmpty))
  {
    NormalizeIdempotent(rawUrl);
  }
}
