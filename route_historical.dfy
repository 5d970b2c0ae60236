/** GET /api/historical (src/app/api/historical/route.ts). */
module HistoricalRoute {
  import opened Wrappers
  import opened Js
  import opened Finance
  import opened Http

  const RangeOptions: seq<string> := ["5d", "1mo", "3mo", "6mo", "1y"]

  datatype HistoryPayload = HistoryPayload(history: seq<HistoricalBar>)

  /**
   * `RANGE_OPTIONS.includes(requestedRange ?? "1mo") ? requestedRange : "1mo"`:
   * a listed range is forwarded, an unlisted one becomes "1mo", and an absent
   * one passes the test as "1mo" but is forwarded as the `null` it was.
   */
  function ForwardedRange(requested: Option<string>): (r: Arg)
    ensures requested.None? ==> r == Null
    ensures requested.Some? && requested.value in RangeOptions ==> r == Text(requested.value)
    ensures requested.Some? && requested.value !in RangeOptions ==> r == Text("1mo")
  {
    if requested.GetOr("1mo") in RangeOptions then
      match requested
      case None => Null
      case Some(s) => Text(s)
    else Text("1mo")
  }

  /**
   * The handler: an empty symbol is refused with 400 before any fetch;
   * otherwise one `fetchHistorical(symbol, range, "1d")` whose failure is a 502.
   */
  function Get(symbolParam: Option<string>, rangeParam: Option<string>,
               fetchHistorical: FacadeCall -> Result<seq<HistoricalBar>, Thrown>)
    : (h: Handled<HistoryPayload, FacadeCall>)
    ensures var symbol := UpperTrimmedParam(symbolParam);
      symbol == "" ==> h.calls == [] && h.response == JsonError(400, "Query parameter `symbol` is required.")
    ensures var symbol := UpperTrimmedParam(symbolParam);
      var call := HistoryCall(symbol, ForwardedRange(rangeParam), Text("1d"));
      symbol != "" ==> && h.calls == [call]
                       && match fetchHistorical(call)
                          case Ok(bars) => h.response == Json(HistoryPayload(bars))
                          case Err(e) => h.response == JsonError(502, MessageOr(e, "Unable to retrieve historical data."))
  {
    var symbol := UpperTrimmedParam(symbolParam);
    var range := ForwardedRange(rangeParam);
    if symbol == "" then
      Handled(JsonError(400, "Query parameter `symbol` is required."), [])
    else
      var call := HistoryCall(symbol, range, Text("1d"));
      match fetchHistorical(call)
      case Ok(history) => Handled(Json(HistoryPayload(history)), [call])
      case Err(e) => Handled(JsonError(502, MessageOr(e, "Unable to retrieve historical data.")), [call])
  }

  /**
   * What the forwarded range does inside `fetchHistorical`: the window start
   * stays at "now" exactly when the request carried no range, and that call is
   * cached under the key part "null" rather than "1mo".
   */
  lemma AbsentRangeWindow(rangeParam: Option<string>)
    ensures var rg := WithDefault(ForwardedRange(rangeParam), "1mo");
      && (StartShift(rg) == NoShift <==> rangeParam.None?)
      && (rangeParam.None? ==> TemplateText(rg) == "null")
      && (rangeParam.Some? ==> TemplateText(rg) in KnownRanges)
  {
    assert RangeOptions == KnownRanges;
  }
}
