/**
 * The data-access layer of the dashboard (src/lib/finance.ts): the historical
 * bars with their five-minute cache and date-window dispatch, the quote
 * normalizer, and the RSS news normalizer.
 *
 * The market-data provider and the RSS endpoint are parameters (functions
 * from the request to its outcome); the clock is a parameter; a JS `Date`
 * is represented by the readings the code takes of it.
 */
module Finance {
  import opened Wrappers
  import opened Js

  /**
   * A JS `Date` as this code reads it: `getTime()`, `toISOString()` and
   * `toLocaleDateString("en-US", { month: "short", day: "numeric", year: "numeric" })`.
   */
  datatype JsDate = JsDate(epochMs: int, iso: string, usShortDate: string)

  /** A calendar move made with `setDate`, `setMonth` or `setFullYear`, or none. */
  datatype Shift = Days(days: int) | Months(months: int) | Years(years: int) | NoShift

  /** The instant `base` (epoch milliseconds) moved by `shift` in local calendar terms. */
  datatype DateExpr = DateExpr(base: int, shift: Shift)

  // ================================================================ historical bars

  /** One raw OHLC record from the provider; any of the four prices may be missing. */
  datatype HistoricalEntry = HistoricalEntry(
    date: JsDate, open: Option<real>, high: Option<real>, low: Option<real>, close: Option<real>)

  /** One normalized bar; `None` is JSON `null`. */
  datatype HistoricalBar = HistoricalBar(
    date: string, open: Option<real>, high: Option<real>, low: Option<real>, close: Option<real>)

  /** The query sent to the provider's historical endpoint. */
  datatype HistoricalRequest = HistoricalRequest(
    symbol: string, period1: DateExpr, period2: DateExpr, interval: Arg)

  const HistoricalCacheTtlMs: int := 5 * 60 * 1000

  /**
   * `symbol.toUpperCase().trim()`: no whitespace at either end, never longer
   * than the input, and empty exactly when the input is all whitespace.
   */
  function NormalizeSymbol(symbol: string): (r: string)
    ensures Trimmed(r) && |r| <= |symbol|
    ensures r == [] <==> AllWhitespace(symbol)
  {
    assert AllWhitespace(ToUpper(symbol)) <==> AllWhitespace(symbol);
    Trim(ToUpper(symbol))
  }

  /** The ranges the switch in `fetchHistorical` knows. */
  const KnownRanges: seq<string> := ["5d", "1mo", "3mo", "6mo", "1y"]

  /**
   * How far before "now" the window starts, by range. A range the switch does
   * not list (an unknown string, or `null`) leaves the start at "now".
   */
  function StartShift(range: Arg): (sh: Shift)
    ensures range == Text("5d") ==> sh == Days(-5)
    ensures range == Text("1mo") ==> sh == Months(-1)
    ensures range == Text("3mo") ==> sh == Months(-3)
    ensures range == Text("6mo") ==> sh == Months(-6)
    ensures range == Text("1y") ==> sh == Years(-1)
    ensures sh == NoShift <==> !(range.Text? && range.s in KnownRanges)
    ensures match sh
      case Days(n) => n < 0
      case Months(n) => n < 0
      case Years(n) => n < 0
      case NoShift => true
  {
    match range
    case Text("5d") => Days(-5)
    case Text("1mo") => Months(-1)
    case Text("3mo") => Months(-3)
    case Text("6mo") => Months(-6)
    case Text("1y") => Years(-1)
    case _ => NoShift
  }

  /** The request `fetchHistorical` sends on a miss, for the clock reading `now`. */
  function WindowRequest(symbol: string, range: Arg, interval: Arg, now: int): (q: HistoricalRequest)
    ensures q.period2 == DateExpr(now, Days(1))
    ensures q.period1.base == now && q.period1.shift == StartShift(range)
    ensures q.symbol == symbol && q.interval == interval
  {
    HistoricalRequest(symbol, DateExpr(now, StartShift(range)), DateExpr(now, Days(1)), interval)
  }

  /** One entry's bar: dated by the ISO text before its `T`, each price kept exactly when present. */
  function MapBar(e: HistoricalEntry): (b: HistoricalBar)
    ensures b.date <= e.date.iso && 'T' !in b.date
    ensures |b.date| < |e.date.iso| ==> e.date.iso[|b.date|] == 'T'
    ensures b.open == e.open && b.high == e.high && b.low == e.low && b.close == e.close
  {
    HistoricalBar(PrefixBefore(e.date.iso, 'T'), e.open, e.high, e.low, e.close)
  }

  /**
   * `results.map(...)`: one bar per entry, in the same order, dated by the
   * ISO text before its `T`, with each price kept exactly when present.
   */
  function MapBars(entries: seq<HistoricalEntry>): (bars: seq<HistoricalBar>)
    ensures |bars| == |entries|
    ensures forall i | 0 <= i < |entries| ::
      && bars[i].date <= entries[i].date.iso
      && 'T' !in bars[i].date
      && (|bars[i].date| < |entries[i].date.iso| ==> entries[i].date.iso[|bars[i].date|] == 'T')
    ensures forall i | 0 <= i < |entries| ::
      && bars[i].open == entries[i].open && bars[i].high == entries[i].high
      && bars[i].low == entries[i].low && bars[i].close == entries[i].close
  {
    if entries == [] then [] else [MapBar(entries[0])] + MapBars(entries[1..])
  }

  /** `${normalizedSymbol}|${range}|${_interval}` */
  function CacheKey(symbol: string, range: Arg, interval: Arg): string {
    symbol + "|" + TemplateText(range) + "|" + TemplateText(interval)
  }

  /**
   * Two ranges that print differently get different cache keys for the same
   * symbol and interval, so populating one never serves the other.
   */
  lemma CacheKeySeparatesRanges(symbol: string, a: Arg, b: Arg, interval: Arg)
    requires TemplateText(a) != TemplateText(b)
    ensures CacheKey(symbol, a, interval) != CacheKey(symbol, b, interval)
  {
    var p, x, y, t := symbol + "|", TemplateText(a), TemplateText(b), "|" + TemplateText(interval);
    var l, r := CacheKey(symbol, a, interval), CacheKey(symbol, b, interval);
    assert l == p + x + t && r == p + y + t;
    if |x| == |y| {
      var k :| 0 <= k < |x| && x[k] != y[k];
      assert l[|p| + k] == x[k] && r[|p| + k] == y[k];
    }
  }

  /**
   * The key does not separate symbol from range when either holds a `|`: a
   * symbol `S|X` with range `Y` and the symbol `S` with range `X|Y` share one
   * entry, although the provider is asked for different symbols.
   */
  lemma CacheKeyCollision(symbol: string, x: string, y: string, interval: Arg)
    ensures symbol + "|" + x != symbol
    ensures CacheKey(symbol + "|" + x, Text(y), interval) == CacheKey(symbol, Text(x + "|" + y), interval)
  {
    assert |symbol + "|" + x| > |symbol|;
  }

  /** Both symbols of such a pair reach the key as written when they are already upper-case and trimmed. */
  lemma CollidingPairIsNormalized()
    ensures NormalizeSymbol("A|B") == "A|B" && NormalizeSymbol("A") == "A"
  {
    NormalizedAlready("A|B");
    NormalizedAlready("A");
  }

  /** A symbol with no lower-case letter and no whitespace at either end is already normalized. */
  lemma NormalizedAlready(symbol: string)
    requires forall i | 0 <= i < |symbol| :: !('a' <= symbol[i] <= 'z')
    requires Trimmed(symbol)
    ensures NormalizeSymbol(symbol) == symbol
  {
    assert ToUpper(symbol) == symbol;
    TrimOfTrimmed(symbol);
  }

  datatype CacheEntry = CacheEntry(expiresAt: int, data: seq<HistoricalBar>)

  /** `cached && cached.expiresAt > Date.now()` */
  predicate Served(entries: map<string, CacheEntry>, key: string, now: int) {
    key in entries && entries[key].expiresAt > now
  }

  /** The three clock readings of one `fetchHistorical` call (lines 151, 155/157 and 194). */
  datatype ClockReads = ClockReads(atLookup: int, atRequest: int, atStore: int)

  /** The process-wide historical cache and the function that consults it. */
  class HistoricalCache {
    var entries: map<string, CacheEntry>

    constructor ()
      ensures entries == map[]
    {
      entries := map[];
    }

    /**
     * `fetchHistorical(symbol, range = "1mo", _interval = "1d")`. `call` is the
     * provider request made, if any; `provider` gives its outcome.
     */
    method FetchHistorical(symbol: string, range: Arg, interval: Arg, clock: ClockReads,
                           provider: HistoricalRequest -> Result<seq<HistoricalEntry>, Thrown>)
      returns (r: Result<seq<HistoricalBar>, Thrown>, call: Option<HistoricalRequest>)
      modifies this
      ensures var rg := WithDefault(range, "1mo");
              var iv := WithDefault(interval, "1d");
              var key := CacheKey(NormalizeSymbol(symbol), rg, iv);
              var q := WindowRequest(NormalizeSymbol(symbol), rg, iv, clock.atRequest);
              if Served(old(entries), key, clock.atLookup) then
                r == Ok(old(entries)[key].data) && call == None && entries == old(entries)
              else
                call == Some(q) &&
                match provider(q)
                case Err(e) => r == Err(e) && entries == old(entries)
                case Ok(raw) =>
                  && r == Ok(MapBars(raw))
                  && entries == old(entries)[key := CacheEntry(clock.atStore + HistoricalCacheTtlMs, MapBars(raw))]
      ensures old(entries).Keys <= entries.Keys
      ensures forall k | k in old(entries) && k != CacheKey(NormalizeSymbol(symbol), WithDefault(range, "1mo"), WithDefault(interval, "1d"))
                :: entries[k] == old(entries)[k]
    {
      var rg := WithDefault(range, "1mo");
      var iv := WithDefault(interval, "1d");
      var normalizedSymbol := NormalizeSymbol(symbol);
      var cacheKey := CacheKey(normalizedSymbol, rg, iv);
      if cacheKey in entries && entries[cacheKey].expiresAt > clock.atLookup {
        return Ok(entries[cacheKey].data), None;
      }
      var q := WindowRequest(normalizedSymbol, rg, iv, clock.atRequest);
      call := Some(q);
      var results := provider(q);
      if results.Err? {
        return Err(results.error), call;
      }
      var mapped := MapBars(results.value);
      entries := entries[cacheKey := CacheEntry(clock.atStore + HistoricalCacheTtlMs, mapped)];
      r := Ok(mapped);
    }
  }

  /** A second store under a key replaces the first. */
  lemma Overwrite(m: map<string, CacheEntry>, key: string, a: CacheEntry, b: CacheEntry)
    ensures m[key := a][key := b] == m[key := b]
  {
    assert m[key := a][key := b].Keys == m[key := b].Keys;
  }

  /**
   * Two calls for the same arguments: once the first has refreshed the entry,
   * a second lookup within the TTL is served from it without a provider call,
   * and a lookup at or after expiry makes exactly one new call.
   */
  method FetchTwice(cache: HistoricalCache, symbol: string, range: Arg, interval: Arg,
                    first: ClockReads, second: ClockReads,
                    provider: HistoricalRequest -> Result<seq<HistoricalEntry>, Thrown>)
    returns (r1: Result<seq<HistoricalBar>, Thrown>, r2: Result<seq<HistoricalBar>, Thrown>,
             call1: Option<HistoricalRequest>, call2: Option<HistoricalRequest>)
    modifies cache
    ensures (call1.Some? && r1.Ok? && second.atLookup < first.atStore + HistoricalCacheTtlMs)
              ==> call2 == None && r2 == r1
    ensures (call1.Some? && r1.Ok? && second.atLookup >= first.atStore + HistoricalCacheTtlMs)
              ==> call2 == Some(WindowRequest(NormalizeSymbol(symbol), WithDefault(range, "1mo"),
                                              WithDefault(interval, "1d"), second.atRequest))
    ensures var key := CacheKey(NormalizeSymbol(symbol), WithDefault(range, "1mo"), WithDefault(interval, "1d"));
      && (call1.Some? && r1.Ok? && (call2 == None || r2.Err?) ==>
            cache.entries == old(cache.entries)[key := CacheEntry(first.atStore + HistoricalCacheTtlMs, r1.value)])
      && (call1.Some? && r1.Ok? && call2.Some? && r2.Ok? ==>
            cache.entries == old(cache.entries)[key := CacheEntry(second.atStore + HistoricalCacheTtlMs, r2.value)])
      && (call1 == None && call2 == None ==> cache.entries == old(cache.entries))
      && (forall k | k in old(cache.entries) && k != key ::
            k in cache.entries && cache.entries[k] == old(cache.entries)[k])
  {
    var key := CacheKey(NormalizeSymbol(symbol), WithDefault(range, "1mo"), WithDefault(interval, "1d"));
    r1, call1 := cache.FetchHistorical(symbol, range, interval, first, provider);
    var between := cache.entries;
    r2, call2 := cache.FetchHistorical(symbol, range, interval, second, provider);
    if call1.Some? && r1.Ok? {
      assert between == old(cache.entries)[key := CacheEntry(first.atStore + HistoricalCacheTtlMs, r1.value)];
      assert Served(between, key, second.atLookup) <==> second.atLookup < first.atStore + HistoricalCacheTtlMs;
      if call2 == None || r2.Err? {
        assert cache.entries == between;
      } else {
        var refreshed := CacheEntry(second.atStore + HistoricalCacheTtlMs, r2.value);
        assert cache.entries == between[key := refreshed];
        Overwrite(old(cache.entries), key, CacheEntry(first.atStore + HistoricalCacheTtlMs, r1.value), refreshed);
      }
    }
  }

  // ================================================================ quotes

  /** `earningsDate?: Date | Date[]` */
  datatype EarningsDate = OneDate(date: JsDate) | DateList(dates: seq<JsDate>)

  /** The provider's quote record; every field may be missing. */
  datatype RawQuote = RawQuote(
    symbol: Option<string>, longName: Option<string>, shortName: Option<string>,
    currency: Option<string>, fullExchangeName: Option<string>, exchange: Option<string>,
    regularMarketPrice: Option<real>, regularMarketChange: Option<real>,
    regularMarketChangePercent: Option<real>, regularMarketDayLow: Option<real>,
    regularMarketDayHigh: Option<real>, regularMarketOpen: Option<real>,
    regularMarketPreviousClose: Option<real>, regularMarketTime: Option<JsDate>,
    bid: Option<real>, ask: Option<real>, bidSize: Option<real>, askSize: Option<real>,
    fiftyTwoWeekLow: Option<real>, fiftyTwoWeekHigh: Option<real>,
    regularMarketVolume: Option<real>, averageVolume: Option<real>,
    averageVolume10days: Option<real>, marketCap: Option<real>, beta: Option<real>,
    trailingPE: Option<real>, forwardPE: Option<real>, trailingEps: Option<real>,
    forwardEps: Option<real>, earningsDate: Option<EarningsDate>,
    dividendRate: Option<real>, dividendYield: Option<real>, exDividendDate: Option<JsDate>,
    targetMeanPrice: Option<real>, targetHighPrice: Option<real>, targetLowPrice: Option<real>)

  /** A record with no field present. */
  const EmptyRawQuote: RawQuote := RawQuote(
    None, None, None, None, None, None, None, None, None, None, None, None, None, None,
    None, None, None, None, None, None, None, None, None, None, None, None, None, None,
    None, None, None, None, None, None, None, None)

  /** `QuoteData`; `None` is JSON `null`. */
  datatype QuoteData = QuoteData(
    symbol: string, name: string, currency: string, exchange: string,
    price: real, change: real, changePercent: real,
    dayLow: Option<real>, dayHigh: Option<real>, open: Option<real>,
    previousClose: Option<real>, timestamp: Option<int>,
    bid: Option<real>, ask: Option<real>, bidSize: Option<real>, askSize: Option<real>,
    fiftyTwoWeekLow: Option<real>, fiftyTwoWeekHigh: Option<real>,
    volume: Option<real>, averageVolume: Option<real>, marketCap: Option<real>,
    beta: Option<real>, trailingPE: Option<real>, trailingEps: Option<real>,
    earningsDate: Option<string>, dividendRate: Option<real>, dividendYield: Option<real>,
    exDividendDate: Option<string>, targetMeanPrice: Option<real>)

  /** The first candidate that is present, scanning left to right. */
  function FirstPresent<T>(candidates: seq<Option<T>>): (r: Option<T>)
    ensures r.None? <==> forall i | 0 <= i < |candidates| :: candidates[i].None?
    ensures r.Some? ==> exists i | 0 <= i < |candidates| ::
      candidates[i] == r && forall j | 0 <= j < i :: candidates[j].None?
  {
    if candidates == [] then None
    else if candidates[0].Some? then candidates[0]
    else
      var r := FirstPresent(candidates[1..]);
      assert forall j | 1 <= j < |candidates| :: candidates[j] == candidates[1..][j - 1];
      r
  }

  /** `formatEarningsDate`: absent or an empty list give `null`; a list is read at its first element. */
  function FormatEarningsDate(d: Option<EarningsDate>): (r: Option<string>)
    ensures r.None? <==> d.None? || d == Some(DateList([]))
    ensures d.Some? && d.value.OneDate? ==> r == Some(d.value.date.usShortDate)
    ensures d.Some? && d.value.DateList? && d.value.dates != [] ==> r == Some(d.value.dates[0].usShortDate)
  {
    match d
    case None => None
    case Some(DateList(ds)) => if |ds| == 0 then None else Some(ds[0].usShortDate)
    case Some(OneDate(x)) => Some(x.usShortDate)
  }

  /** `formatExDividendDate` */
  function FormatExDividendDate(d: Option<JsDate>): (r: Option<string>)
    ensures r.None? <==> d.None?
    ensures d.Some? ==> r == Some(d.value.usShortDate)
  {
    match d
    case None => None
    case Some(x) => Some(x.usShortDate)
  }

  /** `Math.floor(ms / 1000)`: the whole second that contains the instant. */
  function EpochSeconds(ms: int): (s: int)
    ensures s * 1000 <= ms < s * 1000 + 1000
  {
    ms / 1000
  }

  /**
   * The record `fetchQuote` builds from the provider's answer; `requested` is
   * the symbol as the caller passed it.
   */
  function NormalizeQuote(raw: RawQuote, requested: string): (q: QuoteData)
    ensures q.symbol == FirstPresent([raw.symbol]).GetOr(requested)
    ensures q.name == FirstPresent([raw.longName, raw.shortName, raw.symbol]).GetOr("Unknown Equity")
    ensures q.currency == FirstPresent([raw.currency]).GetOr("USD")
    ensures q.exchange == FirstPresent([raw.fullExchangeName, raw.exchange]).GetOr("")
    ensures q.price == FirstPresent([raw.regularMarketPrice]).GetOr(0.0)
    ensures q.change == FirstPresent([raw.regularMarketChange]).GetOr(0.0)
    ensures q.changePercent == FirstPresent([raw.regularMarketChangePercent]).GetOr(0.0)
    ensures q.volume == FirstPresent([raw.regularMarketVolume, raw.averageVolume10days])
    ensures q.timestamp.Some? <==> raw.regularMarketTime.Some?
    ensures q.timestamp.Some? ==> q.timestamp.value * 1000 <= raw.regularMarketTime.value.epochMs < q.timestamp.value * 1000 + 1000
    ensures q.earningsDate == FormatEarningsDate(raw.earningsDate)
    ensures q.exDividendDate == FormatExDividendDate(raw.exDividendDate)
    ensures && q.dayLow == raw.regularMarketDayLow && q.dayHigh == raw.regularMarketDayHigh
            && q.open == raw.regularMarketOpen && q.previousClose == raw.regularMarketPreviousClose
            && q.bid == raw.bid && q.ask == raw.ask && q.bidSize == raw.bidSize && q.askSize == raw.askSize
            && q.fiftyTwoWeekLow == raw.fiftyTwoWeekLow && q.fiftyTwoWeekHigh == raw.fiftyTwoWeekHigh
            && q.averageVolume == raw.averageVolume && q.marketCap == raw.marketCap && q.beta == raw.beta
            && q.trailingPE == raw.trailingPE && q.trailingEps == raw.trailingEps
            && q.dividendRate == raw.dividendRate && q.dividendYield == raw.dividendYield
            && q.targetMeanPrice == raw.targetMeanPrice
  {
    QuoteData(
      symbol := raw.symbol.GetOr(requested),
      name := raw.longName.Or(raw.shortName).Or(raw.symbol).GetOr("Unknown Equity"),
      currency := raw.currency.GetOr("USD"),
      exchange := raw.fullExchangeName.Or(raw.exchange).GetOr(""),
      price := raw.regularMarketPrice.GetOr(0.0),
      change := raw.regularMarketChange.GetOr(0.0),
      changePercent := raw.regularMarketChangePercent.GetOr(0.0),
      dayLow := raw.regularMarketDayLow,
      dayHigh := raw.regularMarketDayHigh,
      open := raw.regularMarketOpen,
      previousClose := raw.regularMarketPreviousClose,
      timestamp := match raw.regularMarketTime
        case Some(t) => Some(EpochSeconds(t.epochMs))
        case None => None,
      bid := raw.bid,
      ask := raw.ask,
      bidSize := raw.bidSize,
      askSize := raw.askSize,
      fiftyTwoWeekLow := raw.fiftyTwoWeekLow,
      fiftyTwoWeekHigh := raw.fiftyTwoWeekHigh,
      volume := raw.regularMarketVolume.Or(raw.averageVolume10days),
      averageVolume := raw.averageVolume,
      marketCap := raw.marketCap,
      beta := raw.beta,
      trailingPE := raw.trailingPE,
      trailingEps := raw.trailingEps,
      earningsDate := FormatEarningsDate(raw.earningsDate),
      dividendRate := raw.dividendRate,
      dividendYield := raw.dividendYield,
      exDividendDate := FormatExDividendDate(raw.exDividendDate),
      targetMeanPrice := raw.targetMeanPrice)
  }

  /**
   * A provider answer carrying nothing but a symbol: the three headline numbers
   * are 0, the name falls back to the symbol, the currency to USD, the exchange
   * to the empty string, and every other field is absent.
   */
  lemma QuoteFromSymbolOnly(x: string, requested: string)
    ensures var q := NormalizeQuote(EmptyRawQuote.(symbol := Some(x)), requested);
      && q.symbol == x && q.name == x && q.currency == "USD" && q.exchange == ""
      && q.price == 0.0 && q.change == 0.0 && q.changePercent == 0.0
      && q.dayLow.None? && q.dayHigh.None? && q.open.None? && q.previousClose.None?
      && q.timestamp.None? && q.bid.None? && q.ask.None? && q.bidSize.None? && q.askSize.None?
      && q.fiftyTwoWeekLow.None? && q.fiftyTwoWeekHigh.None? && q.volume.None?
      && q.averageVolume.None? && q.marketCap.None? && q.beta.None? && q.trailingPE.None?
      && q.trailingEps.None? && q.earningsDate.None? && q.dividendRate.None?
      && q.dividendYield.None? && q.exDividendDate.None? && q.targetMeanPrice.None?
  {
  }

  /**
   * `fetchQuote(symbol)`: the provider is asked for the upper-cased, trimmed
   * symbol; its failure propagates as is; its answer is normalized against
   * the symbol as passed.
   */
  function FetchQuote(symbol: string, provider: string -> Result<RawQuote, Thrown>): (r: Result<QuoteData, Thrown>)
    ensures provider(NormalizeSymbol(symbol)).Err? ==> r == Err(provider(NormalizeSymbol(symbol)).error)
    ensures provider(NormalizeSymbol(symbol)).Ok? ==> r == Ok(NormalizeQuote(provider(NormalizeSymbol(symbol)).value, symbol))
  {
    match provider(NormalizeSymbol(symbol))
    case Err(e) => Err(e)
    case Ok(raw) => Ok(NormalizeQuote(raw, symbol))
  }

  // ================================================================ news

  /** `source?: { "#text"?: string } | string` */
  datatype RssSource = PlainSource(text: string) | TaggedSource(textNode: Option<string>)

  /** A parsed `<item>`; a truthy non-object item reads as one with no fields. */
  datatype RssItem = RssItem(
    title: Option<string>, link: Option<string>, pubDate: Option<string>,
    description: Option<string>, source: Option<RssSource>)

  /** One element of the parsed item list: falsy (an empty string, say) or an item. */
  datatype FeedEntry = Falsy | Entry(item: RssItem)

  /** `feed.rss?.channel?.item`: missing, one item, or a list of them. */
  datatype ItemField = NoItem | OneItem(entry: FeedEntry) | ItemList(entries: seq<FeedEntry>)

  /**
   * What the feed request gives: a thrown error, a non-ok response, or a
   * parsed body. `FetchThrew` covers a throw from `fetch` itself and one from
   * `response.text()` or `parser.parse` after an ok response; all three reject
   * `fetchNews` with the thrown value.
   */
  datatype FeedFetch = FetchThrew(thrown: Thrown) | NotOk | Parsed(items: ItemField)

  const NewsEndpoint: string := "https://feeds.finance.yahoo.com/rss/2.0/headline"

  /** The feed URL: the endpoint with its three search parameters. */
  datatype FeedUrl = FeedUrl(endpoint: string, s: string, region: string, lang: string)

  datatype NewsItem = NewsItem(
    title: string, link: string, pubDate: string, source: Option<string>, description: Option<string>)

  /** `Array.isArray(items) ? items : [items]` after `?? []` */
  function ItemsOf(field: ItemField): (entries: seq<FeedEntry>)
    ensures field.NoItem? ==> entries == []
    ensures field.OneItem? ==> entries == [field.entry]
    ensures field.ItemList? ==> entries == field.entries
  {
    match field
    case NoItem => []
    case OneItem(e) => [e]
    case ItemList(es) => es
  }

  /** `.filter(Boolean)`: the items, in feed order, with falsy entries dropped. */
  function Truthy(entries: seq<FeedEntry>): (items: seq<RssItem>)
    ensures |items| <= |entries|
    ensures forall x :: x in items <==> Entry(x) in entries
    ensures (forall i | 0 <= i < |entries| :: entries[i].Entry?) ==>
      |items| == |entries| && forall i | 0 <= i < |entries| :: items[i] == entries[i].item
  {
    if entries == [] then []
    else
      var rest := Truthy(entries[1..]);
      assert forall x :: Entry(x) in entries <==> Entry(x) == entries[0] || Entry(x) in entries[1..];
      match entries[0]
      case Falsy => rest
      case Entry(x) => [x] + rest
  }

  /** `filter` distributes over concatenation: the items of each part, in order. */
  lemma {:induction false} TruthyConcat(a: seq<FeedEntry>, b: seq<FeedEntry>)
    ensures Truthy(a + b) == Truthy(a) + Truthy(b)
    decreases |a|
  {
    if a != [] {
      var ab := a + b;
      assert ab[0] == a[0] && ab[1..] == a[1..] + b;
      TruthyConcat(a[1..], b);
      match a[0]
      case Falsy =>
        assert Truthy(ab) == Truthy(ab[1..]);
      case Entry(x) =>
        assert Truthy(ab) == [x] + Truthy(ab[1..]);
        assert Truthy(a) == [x] + Truthy(a[1..]);
    } else {
      assert a + b == b;
    }
  }

  /** A falsy entry yields nothing and an item yields itself. */
  lemma TruthySingle(x: RssItem)
    ensures Truthy([Falsy]) == [] && Truthy([Entry(x)]) == [x]
  {
    assert [Falsy][1..] == [] && [Entry(x)][1..] == [];
  }

  /** `typeof source === "string" ? source : source?.["#text"] ?? undefined` */
  function SourceText(source: Option<RssSource>): (r: Option<string>)
    ensures source == None ==> r == None
    ensures source.Some? && source.value.PlainSource? ==> r == Some(source.value.text)
    ensures source.Some? && source.value.TaggedSource? ==> r == source.value.textNode
  {
    match source
    case None => None
    case Some(PlainSource(t)) => Some(t)
    case Some(TaggedSource(t)) => t
  }

  /** One item with its defaults; `nowIso` is `new Date().toISOString()`. */
  function ToNewsItem(item: RssItem, nowIso: string): (n: NewsItem)
    ensures item.title.None? ==> n.title == "Untitled"
    ensures item.title.Some? ==> n.title == item.title.value
    ensures item.link.None? ==> n.link == "#"
    ensures item.link.Some? ==> n.link == item.link.value
    ensures n.pubDate == item.pubDate.GetOr(nowIso)
    ensures n.source == SourceText(item.source) && n.description == item.description
  {
    NewsItem(item.title.GetOr("Untitled"), item.link.GetOr("#"), item.pubDate.GetOr(nowIso),
             SourceText(item.source), item.description)
  }

  /**
   * The `filter` / `slice(0, limit)` / `map` pipeline: the first items of the
   * feed in order, as many as `slice` keeps, each with its defaults. For a
   * non-negative limit the list is never longer than the limit. `clock(i)` is
   * the `new Date().toISOString()` read while mapping the i-th kept item.
   */
  function NormalizeNews(field: ItemField, limit: real, clock: nat -> string): (news: seq<NewsItem>)
    ensures var items := Truthy(ItemsOf(field));
      && |news| == SliceEnd(|items|, limit)
      && forall i | 0 <= i < |news| :: news[i] == ToNewsItem(items[i], clock(i))
    ensures 0.0 <= limit ==> |news| as real <= limit
  {
    var items := Truthy(ItemsOf(field));
    var kept := items[..SliceEnd(|items|, limit)];
    seq(|kept|, i requires 0 <= i < |kept| => ToNewsItem(kept[i], clock(i)))
  }

  /** A feed whose only item is a single object still yields that one item. */
  lemma SingleItemFeed(item: RssItem, limit: real, clock: nat -> string)
    requires 1.0 <= limit
    ensures NormalizeNews(OneItem(Entry(item)), limit, clock) == [ToNewsItem(item, clock(0))]
  {
    assert Truthy([Entry(item)]) == [item];
  }

  /**
   * A falsy entry between two items is skipped: the items that follow it
   * close up, in feed order.
   */
  lemma FalsyEntrySkipped(a: RssItem, b: RssItem, limit: real, clock: nat -> string)
    requires 2.0 <= limit
    ensures NormalizeNews(ItemList([Entry(a), Falsy, Entry(b)]), limit, clock)
         == [ToNewsItem(a, clock(0)), ToNewsItem(b, clock(1))]
  {
    TruthyAroundFalsy(a, b);
    SliceEndCoversAll(2, limit);
    var news := NormalizeNews(ItemList([Entry(a), Falsy, Entry(b)]), limit, clock);
    assert |news| == 2 && news[0] == ToNewsItem(a, clock(0)) && news[1] == ToNewsItem(b, clock(1));
  }

  lemma TruthyAroundFalsy(a: RssItem, b: RssItem)
    ensures Truthy([Entry(a), Falsy, Entry(b)]) == [a, b]
  {
    var front := [Entry(a), Falsy];
    TruthySingle(a);
    TruthySingle(b);
    assert front == [Entry(a)] + [Falsy];
    TruthyConcat([Entry(a)], [Falsy]);
    assert Truthy(front) == [a];
    assert [Entry(a), Falsy, Entry(b)] == front + [Entry(b)];
    TruthyConcat(front, [Entry(b)]);
  }

  /** `new URL(NEWS_ENDPOINT)` with `s`, `region` and `lang` set. */
  function NewsUrl(symbol: string): (u: FeedUrl)
    ensures u.endpoint == NewsEndpoint && u.region == "US" && u.lang == "en-US"
    ensures u.s == ToUpper(symbol)
  {
    FeedUrl(NewsEndpoint, ToUpper(symbol), "US", "en-US")
  }

  /**
   * `fetchNews(symbol, limit)`: one request for the upper-cased (not trimmed)
   * symbol; a non-ok response fails with "Unable to retrieve news feed.".
   */
  function FetchNews(symbol: string, limit: real, feed: FeedUrl -> FeedFetch, clock: nat -> string)
    : (r: Result<seq<NewsItem>, Thrown>)
    ensures feed(NewsUrl(symbol)).NotOk? ==> r == Err(Error("Unable to retrieve news feed."))
    ensures feed(NewsUrl(symbol)).FetchThrew? ==> r == Err(feed(NewsUrl(symbol)).thrown)
    ensures feed(NewsUrl(symbol)).Parsed? ==> r == Ok(NormalizeNews(feed(NewsUrl(symbol)).items, limit, clock))
  {
    match feed(NewsUrl(symbol))
    case FetchThrew(t) => Err(t)
    case NotOk => Err(Error("Unable to retrieve news feed."))
    case Parsed(items) => Ok(NormalizeNews(items, limit, clock))
  }
}
