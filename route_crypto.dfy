/** GET /api/crypto (src/app/api/crypto/route.ts). */
module CryptoRoute {
  import opened Wrappers
  import opened Js
  import opened Finance
  import opened Http

  datatype CryptosPayload = CryptosPayload(cryptos: seq<Option<QuoteData>>)

  /**
   * The handler: an empty `symbols` parameter is refused with 400; otherwise
   * every parsed symbol is fetched and gets its own slot, `null` where its
   * fetch failed. A failed symbol never fails the batch: the 502 branch of the
   * source is unreachable, since `allSettled` does not reject.
   */
  function Get(symbolsParam: Option<string>, fetchQuote: (nat, string) -> Result<QuoteData, Thrown>)
    : (h: Handled<CryptosPayload, FacadeCall>)
    ensures var param := UpperTrimmedParam(symbolsParam);
      param == "" ==> h.calls == [] && h.response == JsonError(400, "Query parameter `symbols` is required.")
    ensures var param := UpperTrimmedParam(symbolsParam);
      var symbols := ParseSymbolList(param);
      param != "" ==>
        && h.response.Json?
        && h.calls == QuoteCalls(symbols)
        && |h.response.payload.cryptos| == |symbols|
        && forall i | 0 <= i < |symbols| ::
             && (h.response.payload.cryptos[i].None? <==> fetchQuote(i, symbols[i]).Err?)
             && (fetchQuote(i, symbols[i]).Ok? ==> h.response.payload.cryptos[i] == Some(fetchQuote(i, symbols[i]).value))
    ensures h.response.Status() in {200, 400}
  {
    var param := UpperTrimmedParam(symbolsParam);
    if param == "" then
      Handled(JsonError(400, "Query parameter `symbols` is required."), [])
    else
      var symbols := ParseSymbolList(param);
      Handled(Json(CryptosPayload(SettleEach(symbols, fetchQuote))), QuoteCalls(symbols))
  }

  /** A lone comma passes the emptiness test and answers 200 with an empty list, fetching nothing. */
  lemma LoneComma(fetchQuote: (nat, string) -> Result<QuoteData, Thrown>)
    ensures Get(Some(","), fetchQuote) == Handled(Json(CryptosPayload([])), [])
  {
    assert UpperTrimmedParam(Some(",")) == "," by {
      assert ToUpper(",") == ",";
      TrimOfTrimmed(",");
    }
    CommaOnlyList();
  }
}
