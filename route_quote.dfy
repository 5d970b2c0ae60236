/** GET /api/quote (src/app/api/quote/route.ts). */
module QuoteRoute {
  import opened Wrappers
  import opened Js
  import opened Finance
  import opened Http

  datatype QuotePayload = QuotePayload(quote: QuoteData, history: Option<seq<HistoricalBar>>)

  /** `searchParams.get("history") === "true"` */
  predicate IncludesHistory(historyParam: Option<string>) {
    historyParam == Some("true")
  }

  /** The calls `Promise.all([...])` starts: the quote, then the history when asked for. */
  function QuoteRouteCalls(symbol: string, historyParam: Option<string>,
                           rangeParam: Option<string>, intervalParam: Option<string>): (calls: seq<FacadeCall>)
    ensures |calls| >= 1 && calls[0] == QuoteCall(symbol)
    ensures |calls| == 2 <==> IncludesHistory(historyParam)
    ensures |calls| <= 2
    ensures |calls| == 2 ==> calls[1] == HistoryCall(symbol, Text(rangeParam.GetOr("1mo")), Text(intervalParam.GetOr("1d")))
  {
    var historyCalls := if IncludesHistory(historyParam)
      then [HistoryCall(symbol, Text(rangeParam.GetOr("1mo")), Text(intervalParam.GetOr("1d")))]
      else [];
    [QuoteCall(symbol)] + historyCalls
  }

  /**
   * The handler. The quote is fetched first and goes through the provider
   * queue first, so when both fetches fail `Promise.all` rejects with the
   * quote's error.
   */
  function Get(symbolParam: Option<string>, historyParam: Option<string>,
               rangeParam: Option<string>, intervalParam: Option<string>,
               fetchQuote: string -> Result<QuoteData, Thrown>,
               fetchHistorical: FacadeCall -> Result<seq<HistoricalBar>, Thrown>)
    : (h: Handled<QuotePayload, FacadeCall>)
    ensures var symbol := UpperTrimmedParam(symbolParam);
      symbol == "" ==> h.calls == [] && h.response == JsonError(400, "Query parameter `symbol` is required.")
    ensures var symbol := UpperTrimmedParam(symbolParam);
      symbol != "" ==> h.calls == QuoteRouteCalls(symbol, historyParam, rangeParam, intervalParam)
    ensures var symbol := UpperTrimmedParam(symbolParam);
      (symbol != "" && fetchQuote(symbol).Err?) ==>
        h.response == JsonError(502, MessageOr(fetchQuote(symbol).error, "Unable to retrieve market data."))
    ensures var symbol := UpperTrimmedParam(symbolParam);
      (symbol != "" && fetchQuote(symbol).Ok? && !IncludesHistory(historyParam)) ==>
        h.response == Json(QuotePayload(fetchQuote(symbol).value, None))
    ensures var symbol := UpperTrimmedParam(symbolParam);
      var hist := fetchHistorical(HistoryCall(symbol, Text(rangeParam.GetOr("1mo")), Text(intervalParam.GetOr("1d"))));
      (symbol != "" && fetchQuote(symbol).Ok? && IncludesHistory(historyParam)) ==>
        h.response == match hist
          case Ok(bars) => Json(QuotePayload(fetchQuote(symbol).value, Some(bars)))
          case Err(e) => JsonError(502, MessageOr(e, "Unable to retrieve market data."))
  {
    var symbol := UpperTrimmedParam(symbolParam);
    var includeHistory := IncludesHistory(historyParam);
    var range := rangeParam.GetOr("1mo");
    var interval := intervalParam.GetOr("1d");
    if symbol == "" then
      Handled(JsonError(400, "Query parameter `symbol` is required."), [])
    else
      var calls := QuoteRouteCalls(symbol, historyParam, rangeParam, intervalParam);
      var quote := fetchQuote(symbol);
      var history := if includeHistory then Some(fetchHistorical(HistoryCall(symbol, Text(range), Text(interval)))) else None;
      if quote.Err? then
        Handled(JsonError(502, MessageOr(quote.error, "Unable to retrieve market data.")), calls)
      else if history.Some? && history.value.Err? then
        Handled(JsonError(502, MessageOr(history.value.error, "Unable to retrieve market data.")), calls)
      else
        var bars := match history case Some(Ok(b)) => Some(b) case _ => None;
        Handled(Json(QuotePayload(quote.value, bars)), calls)
  }
}
