/** GET /api/indices (src/app/api/indices/route.ts). */
module IndicesRoute {
  import opened Wrappers
  import opened Js
  import opened Finance
  import opened Http

  datatype IndicesPayload = IndicesPayload(indices: seq<Option<QuoteData>>)

  /**
   * The handler: an empty `symbols` parameter is refused with 400; otherwise
   * one slot per parsed symbol under `indices`, `null` exactly where that
   * symbol's fetch failed, and never a 502.
   */
  function Get(symbolsParam: Option<string>, fetchQuote: (nat, string) -> Result<QuoteData, Thrown>)
    : (h: Handled<IndicesPayload, FacadeCall>)
    ensures var param := UpperTrimmedParam(symbolsParam);
      param == "" ==> h.calls == [] && h.response == JsonError(400, "Query parameter `symbols` is required.")
    ensures var param := UpperTrimmedParam(symbolsParam);
      var symbols := ParseSymbolList(param);
      param != "" ==>
        && h.response.Json?
        && h.calls == QuoteCalls(symbols)
        && |h.response.payload.indices| == |symbols|
        && forall i | 0 <= i < |symbols| ::
             && (h.response.payload.indices[i].None? <==> fetchQuote(i, symbols[i]).Err?)
             && (fetchQuote(i, symbols[i]).Ok? ==> h.response.payload.indices[i] == Some(fetchQuote(i, symbols[i]).value))
    ensures h.response.Status() in {200, 400}
  {
    var param := UpperTrimmedParam(symbolsParam);
    if param == "" then
      Handled(JsonError(400, "Query parameter `symbols` is required."), [])
    else
      var symbols := ParseSymbolList(param);
      Handled(Json(IndicesPayload(SettleEach(symbols, fetchQuote))), QuoteCalls(symbols))
  }

  /**
   * A comma-joined list of clean upper-case symbols is fetched symbol by
   * symbol, in order, and answered with exactly one slot per symbol, `null`
   * where that symbol alone failed.
   */
  lemma JoinedSymbols(symbols: seq<string>, fetchQuote: (nat, string) -> Result<QuoteData, Thrown>)
    requires |symbols| >= 1
    requires forall i | 0 <= i < |symbols| ::
      symbols[i] != [] && Trimmed(symbols[i]) && ',' !in symbols[i] && ToUpper(symbols[i]) == symbols[i]
    ensures var h := Get(Some(Join(symbols, ',')), fetchQuote);
      h == Handled(Json(IndicesPayload(SettleEach(symbols, fetchQuote))), QuoteCalls(symbols))
  {
    JoinedParam(symbols);
    JoinStartsWithFirst(symbols, ',');
    ParseJoinedList(symbols);
  }
}
