/** GET /api/news (src/app/api/news/route.ts). */
module NewsRoute {
  import opened Wrappers
  import opened Js
  import opened Finance
  import opened Http

  /** What JS `Number(text)` yields, as far as the handler looks at it. */
  datatype JsNumber = NonFinite | Finite(value: real)

  datatype NewsPayload = NewsPayload(news: seq<NewsItem>)

  /**
   * `Number(searchParams.get("limit") ?? 8)`, then `Number.isFinite(limit) ? limit : 8`:
   * 8 when the parameter is absent or does not parse to a finite number,
   * otherwise the parsed value as is (negative, fractional and 0 included).
   */
  function ForwardedLimit(limitParam: Option<string>, parseNumber: string -> JsNumber): (limit: real)
    ensures limitParam.None? ==> limit == 8.0
    ensures limitParam.Some? && parseNumber(limitParam.value).NonFinite? ==> limit == 8.0
    ensures limitParam.Some? && parseNumber(limitParam.value).Finite? ==> limit == parseNumber(limitParam.value).value
  {
    var parsed := match limitParam
      case None => Finite(8.0)
      case Some(s) => parseNumber(s);
    match parsed
    case Finite(v) => v
    case NonFinite => 8.0
  }

  /** The handler: an empty symbol is refused with 400; otherwise one `fetchNews`, whose failure is a 502. */
  function Get(symbolParam: Option<string>, limitParam: Option<string>, parseNumber: string -> JsNumber,
               fetchNews: FacadeCall -> Result<seq<NewsItem>, Thrown>)
    : (h: Handled<NewsPayload, FacadeCall>)
    ensures var symbol := UpperTrimmedParam(symbolParam);
      symbol == "" ==> h.calls == [] && h.response == JsonError(400, "Query parameter `symbol` is required.")
    ensures var symbol := UpperTrimmedParam(symbolParam);
      var call := NewsCall(symbol, ForwardedLimit(limitParam, parseNumber));
      symbol != "" ==> && h.calls == [call]
                       && match fetchNews(call)
                          case Ok(news) => h.response == Json(NewsPayload(news))
                          case Err(e) => h.response == JsonError(502, MessageOr(e, "Unable to retrieve news feed."))
  {
    var symbol := UpperTrimmedParam(symbolParam);
    var limit := ForwardedLimit(limitParam, parseNumber);
    if symbol == "" then
      Handled(JsonError(400, "Query parameter `symbol` is required."), [])
    else
      var call := NewsCall(symbol, limit);
      match fetchNews(call)
      case Ok(news) => Handled(Json(NewsPayload(news)), [call])
      case Err(e) => Handled(JsonError(502, MessageOr(e, "Unable to retrieve news feed.")), [call])
  }

  /**
   * Through the real `fetchNews`: the route's response never lists more items
   * than a non-negative forwarded limit, and for a non-empty symbol a non-ok
   * feed surfaces as 502 with the feed's own message.
   */
  lemma NewsRouteBounds(symbolParam: Option<string>, limitParam: Option<string>,
                        parseNumber: string -> JsNumber, feed: FeedUrl -> FeedFetch, clock: nat -> string)
    ensures var limit := ForwardedLimit(limitParam, parseNumber);
      var h := Get(symbolParam, limitParam, parseNumber,
                   (c: FacadeCall) => if c.NewsCall? then FetchNews(c.symbol, c.limit, feed, clock) else Err(NonError));
      && (h.response.Json? && 0.0 <= limit ==> |h.response.payload.news| as real <= limit)
      && (UpperTrimmedParam(symbolParam) != "" && feed(NewsUrl(UpperTrimmedParam(symbolParam))).NotOk? ==>
            h.response == JsonError(502, "Unable to retrieve news feed."))
  {
    var symbol := UpperTrimmedParam(symbolParam);
    var limit := ForwardedLimit(limitParam, parseNumber);
    var fetch := (c: FacadeCall) => if c.NewsCall? then FetchNews(c.symbol, c.limit, feed, clock) else Err(NonError);
    if symbol != "" {
      var call := NewsCall(symbol, limit);
      assert fetch(call) == FetchNews(symbol, limit, feed, clock);
    }
  }
}
