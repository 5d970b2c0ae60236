/** POST /api/get-script (src/app/api/get-script/route.ts). */
module GetScriptRoute {
  import opened Wrappers
  import opened Js
  import opened Finance
  import opened Http

  /** The JSON body's three fields. */
  datatype ScriptRequest = ScriptRequest(symbol: Option<string>, fromDate: Option<string>, toDate: Option<string>)

  /** One output bar; a `None` price is a key left out of the JSON, not `null`. */
  datatype ScriptBar = ScriptBar(date: string, open: Option<real>, high: Option<real>, low: Option<real>, close: Option<real>)

  datatype ScriptPayload = ScriptPayload(data: seq<ScriptBar>)

  /** `!value` for an optional string. */
  predicate IsFalsy(value: Option<string>) {
    value.None? || value.value == ""
  }

  /** `results.map(...)`: order and length kept, dates cut at the `T`, prices passed through. */
  function MapScriptBars(entries: seq<HistoricalEntry>): (bars: seq<ScriptBar>)
    ensures |bars| == |entries|
    ensures forall i | 0 <= i < |entries| ::
      && bars[i].date <= entries[i].date.iso
      && 'T' !in bars[i].date
      && (|bars[i].date| < |entries[i].date.iso| ==> entries[i].date.iso[|bars[i].date|] == 'T')
    ensures forall i | 0 <= i < |entries| ::
      && bars[i].open == entries[i].open && bars[i].high == entries[i].high
      && bars[i].low == entries[i].low && bars[i].close == entries[i].close
  {
    if entries == [] then []
    else
      var e := entries[0];
      [ScriptBar(PrefixBefore(e.date.iso, 'T'), e.open, e.high, e.low, e.close)] + MapScriptBars(entries[1..])
  }

  const ApiFailed: string := "Yahoo Finance API failed"

  /**
   * The handler. `body` is `None` when destructuring the parsed body throws:
   * the body is not valid JSON, or it is JSON `null`. Any other JSON value
   * (a number, a string, a boolean, an array) destructures to absent fields
   * and arrives as `Some(ScriptRequest(None, None, None))`, answering 400;
   * `parseDate` is `new Date(text).getTime()`, `None` for an invalid date.
   * Every throw, the provider's included, is caught as a 500.
   */
  function Post(body: Option<ScriptRequest>, parseDate: string -> Option<int>,
                provider: HistoricalRequest -> Result<seq<HistoricalEntry>, Thrown>)
    : (h: Handled<ScriptPayload, HistoricalRequest>)
    ensures body.None? ==> h == Handled(JsonError(500, ApiFailed), [])
    ensures body.Some? && (IsFalsy(body.value.symbol) || IsFalsy(body.value.fromDate) || IsFalsy(body.value.toDate))
      ==> h == Handled(JsonError(400, "symbol, fromDate, and toDate are required"), [])
    ensures h.calls != [] ==> && body.Some?
                              && !IsFalsy(body.value.symbol) && !IsFalsy(body.value.fromDate) && !IsFalsy(body.value.toDate)
                              && parseDate(body.value.fromDate.value).Some?
                              && parseDate(body.value.toDate.value).Some?
    ensures h.calls == [] ==> h.response.JsonError?
    ensures body.Some? && !IsFalsy(body.value.symbol) && !IsFalsy(body.value.fromDate) && !IsFalsy(body.value.toDate)
            && parseDate(body.value.fromDate.value).Some? && parseDate(body.value.toDate.value).Some?
      ==> h.calls != []
    ensures body.Some? && !IsFalsy(body.value.symbol) && !IsFalsy(body.value.fromDate) && !IsFalsy(body.value.toDate)
            && (parseDate(body.value.fromDate.value).None? || parseDate(body.value.toDate.value).None?)
      ==> h == Handled(JsonError(500, ApiFailed), [])
    ensures h.calls != [] ==> var b := body.value;
      var q := HistoricalRequest(b.symbol.value,
                                 DateExpr(parseDate(b.fromDate.value).value, Days(-1)),
                                 DateExpr(parseDate(b.toDate.value).value, NoShift), Text("1d"));
      && h.calls == [q]
      && h.response == match provider(q)
         case Ok(entries) => Json(ScriptPayload(MapScriptBars(entries)))
         case Err(_) => JsonError(500, ApiFailed)
    ensures h.response.Status() in {200, 400, 500}
  {
    match body
    case None => Handled(JsonError(500, ApiFailed), [])
    case Some(b) =>
      if IsFalsy(b.symbol) || IsFalsy(b.fromDate) || IsFalsy(b.toDate) then
        Handled(JsonError(400, "symbol, fromDate, and toDate are required"), [])
      else
        match parseDate(b.fromDate.value)
        case None => Handled(JsonError(500, ApiFailed), [])
        case Some(from) =>
          match parseDate(b.toDate.value)
          case None => Handled(JsonError(500, ApiFailed), [])
          case Some(to) =>
            var q := HistoricalRequest(b.symbol.value, DateExpr(from, Days(-1)), DateExpr(to, NoShift), Text("1d"));
            match provider(q)
            case Ok(entries) => Handled(Json(ScriptPayload(MapScriptBars(entries))), [q])
            case Err(_) => Handled(JsonError(500, ApiFailed), [q])
  }
}
