# Market dashboard data layer and API routes, in Dafny

This project models the server side of a market-data dashboard, and the one
stateful client component that caches its responses:

- **Data access** (`src/lib/finance.ts`), in `finance.dfy`:
  - `fetchHistorical`: a five-minute, process-wide cache of bars keyed by
    `SYMBOL|range|interval`, the range-to-window dispatch and the bar mapping;
  - `fetchQuote`: the quote normalizer with its chains of `??` fallbacks and
    its two date formatters;
  - `fetchNews`: the RSS item normalizer (single item or list, falsy entries
    dropped, `slice(0, limit)`, per-field defaults).
- **The six API route handlers** (`src/app/api/*/route.ts`), in `http.dfy` (what
  they share) and one `route_*.dfy` per route. Each handler is a function from
  its query parameters and the outcomes of the data-access calls to a response
  (`Json` with status 200, or `JsonError` with a status and message) together
  with the data-access calls it issued.
- **The historical snapshot card** (`src/components/HistoricalSnapshot.tsx`), in
  `snapshot.dfy`:
  - the row window it displays and the value its range select shows;
  - a class holding its state hooks and refs, whose methods are the two
    effects' transitions: props reset, cache hit, fetch start, success,
    failure and abort.
- **The JavaScript built-ins** the code depends on, in `js.dfy`, with their
  ECMAScript meaning: `trim` with its whitespace set, `toUpperCase`, `split`
  on one character, `slice` indices for negative and fractional arguments,
  default parameters (which apply to `undefined` only), template-literal
  printing of `null`, and `error instanceof Error ? error.message : fallback`.
- Stock `Option` and `Result` types are in `wrappers.dfy`.

The market-data provider, the RSS endpoint, the clock and the date parser
are parameters. A provider is a function from the request it receives to its
outcome (a value, or a thrown value). A JS `Date` is the record of the three
readings the code takes of it: epoch milliseconds, ISO text and US short
date. Calendar arithmetic (`setDate`, `setMonth`, `setFullYear`) appears as a
`Shift` applied to a base instant.

Behaviour that the code has and that the model keeps:

- When `range` is absent, `/api/historical` forwards `null` rather than
  `"1mo"`. `null` is not `undefined`, so `fetchHistorical`'s default does not
  apply. The window therefore starts "now", and the result is cached under
  `SYMBOL|null|1d` (`HistoricalRoute.AbsentRangeWindow`).
- `fetchNews` upper-cases the symbol without trimming it.
- `/api/get-script` passes the symbol through untouched.
- The cache key `SYMBOL|range|interval` does not separate a `|` inside the
  symbol from one inside the range, which `/api/quote` forwards unchecked. The
  symbol `A|B` with range `C` and the symbol `A` with range `B|C` share an
  entry (`Finance.CacheKeyCollision`).
- A lone `","` passes the emptiness test of `/api/crypto` and `/api/indices`.
  It answers 200 with an empty list.
- The `catch` of the crypto and indices routes cannot be reached, because
  `Promise.allSettled` does not reject.
- A symbol listed twice in `/api/crypto` or `/api/indices` is fetched twice,
  and each slot holds its own call's outcome (`Http.RepeatedSymbolSettledApart`).
- A new symbol while the card shows a range other than the new initial one
  starts a fetch for the old range, which the next commit aborts, leaving
  `loading` set (`Snapshot.SymbolChangeWithOtherRange`).
- The Refresh button sets the range to its current value, which React treats
  as no change. It therefore re-runs nothing (`Snapshot.Refresh`).
- An aborted fetch never clears `loading`. Switching to an uncached range and
  straight back to a cached one leaves the card in the loading state
  (`Snapshot.SwitchBackDuringFetch`).
- A cached empty list counts as a cache hit in the snapshot card, because an
  empty array is truthy.

## Model

| member | source | states |
|---|---|---|
| Js.MessageOr | src/app/api/historical/route.ts:29 | an `Error` gives its own message; any other thrown value gives the fallback |
| Js.WithDefault | src/lib/finance.ts:145-146 | a default parameter replaces `undefined` only; an explicit `null` or a string is kept |
| Js.LeadingWhitespace | src/lib/finance.ts:148 | counts the whitespace characters the string starts with: all of them are whitespace, and the next character, if any, is not |
| Js.TrailingWhitespace | src/lib/finance.ts:148 | counts the whitespace characters the string ends with: all of them are whitespace, and the one before them, if any, is not |
| Js.Trim | src/lib/finance.ts:148 | `trim` gives the infix between two all-whitespace ends; it has no whitespace at either end; it is empty exactly when the input is all whitespace |
| Js.TrimOfTrimmed | src/app/api/crypto/route.ts:15 | trimming a string with no whitespace at either end leaves it as it is |
| Js.TrimPadded | src/app/api/crypto/route.ts:15 | whitespace in front of a trimmed, non-empty string is exactly what `trim` removes |
| Js.UpperChar | src/lib/finance.ts:148 | ASCII `a`–`z` map to `A`–`Z`, every other character is kept, and whitespace stays whitespace |
| Js.ToUpper | src/lib/finance.ts:148 | `toUpperCase` keeps the length and upper-cases character by character |
| Js.Split | src/app/api/crypto/route.ts:15 | `split(",")` gives at least one piece, no piece holds the separator, and joining the pieces with it gives the input back |
| Js.SplitFree | src/app/api/crypto/route.ts:15 | a string without the separator splits into itself alone |
| Js.SplitPiece | src/app/api/crypto/route.ts:15 | a separator-free piece followed by the separator splits off as the first piece, ahead of the split of the rest |
| Js.SplitJoin | src/app/api/crypto/route.ts:15 | splitting a join of separator-free pieces gives exactly those pieces |
| Js.JoinStartsWithFirst | src/app/api/crypto/route.ts:15 | a join starts with its first piece, followed by the separator when there are more pieces |
| Js.JoinEndsWithLast | src/app/api/crypto/route.ts:15 | a join ends with its last piece |
| Js.JoinTrimmed | src/app/api/crypto/route.ts:15 | a join of non-empty trimmed pieces is itself trimmed |
| Js.UpperConcat | src/app/api/crypto/route.ts:6 | upper-casing distributes over concatenation |
| Js.JoinUpper | src/app/api/crypto/route.ts:6 | upper-casing a join of upper-case pieces and an upper-case separator changes nothing |
| Js.PrefixBefore | src/lib/finance.ts:186 | `split("T")[0]` is the prefix before the first `T`, or the whole string when it has none |
| Js.Trunc | src/lib/finance.ts:287 | ToIntegerOrInfinity of a finite number truncates toward zero |
| Js.SliceEnd | src/lib/finance.ts:287 | `slice(0, end)` keeps at most the length and at most a non-negative `end`; a negative `end` counts from the back, clamped at 0 |
| Js.SliceEndCoversAll | src/lib/finance.ts:287 | `slice(0, end)` keeps everything when `end` is at least the length |
| Js.SliceStart | src/components/HistoricalSnapshot.tsx:121 | `slice(start)` starts at `start` clamped to the length; a negative start counts from the back, clamped at 0 |
| Finance.StartShift | src/lib/finance.ts:157-175 | 5d, 1mo, 3mo, 6mo and 1y move the start back 5 days, 1, 3 or 6 months, or 1 year; any other range, `null` included, leaves it at now; no shift moves forward |
| Finance.NormalizeSymbol | src/lib/finance.ts:148 | `toUpperCase().trim()` has no whitespace at either end, is never longer than the input (under the ASCII upper-case mapping), and is empty exactly when the input is all whitespace |
| Finance.NormalizedAlready | src/lib/finance.ts:148 | a symbol with no lower-case letter and no whitespace at either end is left unchanged |
| Finance.WindowRequest | src/lib/finance.ts:155-183 | the provider is asked for the given symbol and interval, from now shifted by the range to now plus one day |
| Finance.MapBar | src/lib/finance.ts:185-191 | one entry's bar is dated by the ISO text before its first `T`, and each price is kept when present and `null` when absent |
| Finance.MapBars | src/lib/finance.ts:185-191 | one bar per entry in order; each date is the ISO text before its `T`; each price is kept when present and `null` when absent |
| Finance.CacheKeySeparatesRanges | src/lib/finance.ts:149 | the key made of symbol, range and interval joined by vertical bars (`CacheKey`, with each argument printed as a template literal prints it, `null` as "null") differs for any two ranges that print differently, for the same symbol and interval |
| Finance.CacheKeyCollision | src/lib/finance.ts:149 | a vertical bar in the symbol or in the range makes two different symbols share a key: symbol S, bar, X with range Y, and symbol S with range X, bar, Y |
| Finance.CollidingPairIsNormalized | src/lib/finance.ts:148-149 | the symbol A, bar, B and the symbol A reach the key as written, so the collision happens for real input |
| Finance.HistoricalCache.constructor | src/lib/finance.ts:10 | the cache starts empty |
| Finance.HistoricalCache.FetchHistorical | src/lib/finance.ts:143-199 | an entry under the key of normalized symbol, range and interval that is served (its expiry strictly after the lookup time, predicate `Served`) is returned verbatim, with no provider call and no write; otherwise exactly one provider call with the window request; its error propagates and leaves the cache as it was; its bars are mapped, returned and stored under that key, expiring 300000 ms after the store time; no other key changes and no key is removed |
| Finance.Overwrite | src/lib/finance.ts:193-196 | a second `set` under a key replaces the first entry, so the map is the same as after the second store alone |
| Finance.FetchTwice | src/lib/finance.ts:150-153 | after a refresh, a second call before expiry is served without a provider call and returns the same bars; a call at or after expiry makes one new provider call for the new "now"; the cache ends holding the newest stored entry under that key, and every other key keeps its entry |
| Finance.FirstPresent | src/lib/finance.ts:233-237 | a `??` chain gives the first present candidate, and nothing exactly when none is present |
| Finance.FormatEarningsDate | src/lib/finance.ts:206-221 | an absent date or an empty list gives `null`; one date, or a list's first date, gives its US short date |
| Finance.FormatExDividendDate | src/lib/finance.ts:223-230 | an absent date gives `null`; a date gives its US short date |
| Finance.EpochSeconds | src/lib/finance.ts:245-247 | the timestamp is the whole second that contains the instant, counted from the epoch |
| Finance.NormalizeQuote | src/lib/finance.ts:232-265 | each text and headline field is the first present candidate of its `??` chain or its default; the timestamp is present exactly when the market time is, falling in that second; the two dates go through their formatters; every other field is passed through |
| Finance.QuoteFromSymbolOnly | src/lib/finance.ts:232-265 | an answer with only a symbol gives that symbol as the name, USD, an empty exchange, zero headline numbers and no other field |
| Finance.FetchQuote | src/lib/finance.ts:201-204 | the provider is asked for the upper-cased, trimmed symbol; its error propagates; its answer is normalized against the symbol as passed |
| Finance.ItemsOf | src/lib/finance.ts:284-285 | a missing item field gives no entries, a single item gives one, a list gives itself |
| Finance.Truthy | src/lib/finance.ts:286 | `filter(Boolean)` keeps exactly the items and never adds one; with no falsy entry it keeps every item in order |
| Finance.TruthyConcat | src/lib/finance.ts:286 | the filter of a concatenation is the concatenation of the filters, so order is kept |
| Finance.TruthySingle | src/lib/finance.ts:286 | a falsy entry yields nothing and an item yields itself |
| Finance.SourceText | src/lib/finance.ts:292-295 | a string source is used as is; an object source gives its `#text`, if any |
| Finance.ToNewsItem | src/lib/finance.ts:288-297 | the title defaults to "Untitled", the link to "#" and the publication date to now; the source and description are present only when given |
| Finance.NormalizeNews | src/lib/finance.ts:284-297 | as many items as `slice(0, limit)` keeps, taken from the front of the truthy items, each normalized with the clock reading taken while mapping it; never more than a non-negative limit |
| Finance.SingleItemFeed | src/lib/finance.ts:285 | a feed whose item is one object, not a list, still yields that item |
| Finance.FalsyEntrySkipped | src/lib/finance.ts:285-297 | a falsy entry between two items is dropped and the two items come out in feed order |
| Finance.TruthyAroundFalsy | src/lib/finance.ts:286 | filtering item, falsy, item gives the two items in order |
| Finance.NewsUrl | src/lib/finance.ts:269-272 | the feed URL is the RSS endpoint with the upper-cased symbol, region US and language en-US |
| Finance.FetchNews | src/lib/finance.ts:268-300 | the feed is requested once, at the URL for the upper-cased symbol; a non-ok response fails with "Unable to retrieve news feed."; a thrown request error propagates; a parsed feed gives its normalized items |
| Http.UpperTrimmedParam | src/app/api/historical/route.ts:9 | an absent parameter gives ""; a present one is normalized; the result is trimmed, and it is empty exactly when the parameter is absent or all whitespace |
| Http.TrimKeepsOut | src/app/api/crypto/route.ts:15 | trimming introduces no character the piece did not have |
| Http.TrimNonEmpty | src/app/api/crypto/route.ts:15 | trim-and-filter keeps no more pieces than it was given, each non-empty and trimmed |
| Http.TrimNonEmptySingle | src/app/api/crypto/route.ts:15 | one piece yields its trim, or nothing when the trim is empty |
| Http.TrimNonEmptyConcat | src/app/api/crypto/route.ts:15 | trim-and-filter of a concatenation is the concatenation of the two results, so order is kept |
| Http.TrimNonEmptyOfClean | src/app/api/crypto/route.ts:15 | pieces already non-empty and trimmed pass through unchanged |
| Http.TrimNonEmptyKeepsOut | src/app/api/crypto/route.ts:15 | trim-and-filter introduces no character that no piece had |
| Http.ParseSymbolList | src/app/api/crypto/route.ts:15 | every parsed symbol is non-empty, trimmed and comma-free |
| Http.ParseJoinedList | src/app/api/crypto/route.ts:15 | a comma-joined list of clean symbols parses back to the same list in the same order |
| Http.ParseJoinedPieces | src/app/api/crypto/route.ts:15 | for any comma-free pieces, parsing their comma join gives those pieces trimmed, empty ones dropped, in order |
| Http.SpaceAfterComma | src/app/api/crypto/route.ts:15 | `A, B` parses to `A` and `B` |
| Http.DoubleComma | src/app/api/crypto/route.ts:15 | `A,,B` parses to `A` and `B` |
| Http.JoinWithEmptyMiddle | src/app/api/crypto/route.ts:15 | `A,,B` is the comma join of `A`, the empty piece and `B` |
| Http.TrimNonEmptyDropsEmpty | src/app/api/crypto/route.ts:15 | trim-and-filter of `A`, empty, `B` gives `A` and `B` |
| Http.JoinedParam | src/app/api/indices/route.ts:6 | a comma-joined list of clean upper-case symbols is left unchanged by the upper-case-and-trim of the parameter |
| Http.CommaOnlyList | src/app/api/crypto/route.ts:15 | a lone comma parses to the empty list |
| Http.SettleEach | src/app/api/crypto/route.ts:18-24 | one slot per position in order; a slot is `null` exactly when that position's own call rejected, and otherwise holds its value |
| Http.RepeatedSymbolSettledApart | src/app/api/crypto/route.ts:18-24 | a symbol listed twice gets two slots from two calls, which may end differently |
| Http.QuoteCalls | src/app/api/crypto/route.ts:19 | one quote call per symbol, in order |
| HistoricalRoute.ForwardedRange | src/app/api/historical/route.ts:10-13 | a listed range is forwarded, an unlisted one becomes 1mo, and an absent one is forwarded as `null` |
| HistoricalRoute.Get | src/app/api/historical/route.ts:7-34 | an empty symbol answers 400 and fetches nothing; otherwise one history call with the forwarded range and interval 1d, whose bars answer 200 and whose error answers 502 with its message or the fallback |
| HistoricalRoute.AbsentRangeWindow | src/app/api/historical/route.ts:11-13 | inside the data layer the window starts at now exactly when the request had no range; that call is cached under the "null" range text, and every other call under a known range |
| QuoteRoute.QuoteRouteCalls | src/app/api/quote/route.ts:7-28 | the quote call comes first; a history call follows exactly when the `history` parameter is the text `true` (`IncludesHistory`), with range defaulting to 1mo and interval to 1d, neither checked against a list |
| QuoteRoute.Get | src/app/api/quote/route.ts:4-39 | an empty symbol answers 400 and fetches nothing; a quote failure answers 502 whatever the history does; otherwise a history failure answers 502; otherwise 200 with the quote, and the bars only when asked for |
| CryptoRoute.Get | src/app/api/crypto/route.ts:4-38 | an empty parameter answers 400 and fetches nothing; otherwise one quote call per parsed symbol and a 200 with one slot per position, `null` exactly where that position's call failed; never 502 |
| CryptoRoute.LoneComma | src/app/api/crypto/route.ts:6-15 | `symbols=,` answers 200 with an empty list and fetches nothing |
| IndicesRoute.Get | src/app/api/indices/route.ts:4-38 | an empty parameter answers 400 and fetches nothing; otherwise one quote call per parsed symbol and a 200 with one slot per position under `indices`, `null` exactly where that position's call failed; never 502 |
| IndicesRoute.JoinedSymbols | src/app/api/indices/route.ts:6-24 | a comma-joined list of clean upper-case symbols issues exactly their quote calls in order and answers with their slots in order |
| NewsRoute.ForwardedLimit | src/app/api/news/route.ts:7-17 | an absent or non-finite limit gives 8; any finite number is forwarded as is |
| NewsRoute.Get | src/app/api/news/route.ts:4-27 | an empty symbol answers 400 and fetches nothing; otherwise one news call with the forwarded limit, whose items answer 200 and whose error answers 502 with its message or the fallback |
| NewsRoute.NewsRouteBounds | src/app/api/news/route.ts:17 | through the data layer, a 200 lists no more items than a non-negative limit, and for a non-empty symbol a non-ok feed answers 502 "Unable to retrieve news feed." |
| GetScriptRoute.MapScriptBars | src/app/api/get-script/route.ts:38-44 | one bar per entry in order; each date is the ISO text before its `T`; the prices are passed through with no `null` default |
| GetScriptRoute.Post | src/app/api/get-script/route.ts:6-51 | a body that is not valid JSON, or is JSON `null`, answers 500; a missing or empty symbol, fromDate or toDate (predicate `IsFalsy`) answers 400 with no provider call; an invalid date answers 500 with no provider call; otherwise one provider call from the day before fromDate to toDate, daily, for the symbol as given; its bars answer 200 and its failure 500 |
| Snapshot.RowLimit | src/components/HistoricalSnapshot.tsx:17-23 | 5, 22, 60, 90 and 126 rows for 5d, 1mo, 3mo, 6mo and 1y; 20 for any other range |
| Snapshot.SelectValue | src/components/HistoricalSnapshot.tsx:139-141 | the select shows the range when it is 5d, 1mo or 3mo, and 1mo otherwise |
| Snapshot.Reverse | src/components/HistoricalSnapshot.tsx:121 | `reverse` keeps the length and reads the input from back to front |
| Snapshot.ReverseReverse | src/components/HistoricalSnapshot.tsx:121 | reversing twice gives the input back |
| Snapshot.DisplayedRows | src/components/HistoricalSnapshot.tsx:119-123 | min(row limit, row count) rows, most recent first: the i-th is the i-th from the end |
| Snapshot.DisplayedRowsAreTail | src/components/HistoricalSnapshot.tsx:121 | the displayed rows, read back in order, are exactly the last rows |
| Snapshot.FailureMessage | src/components/HistoricalSnapshot.tsx:86-103 | a non-ok response shows "Unable to load historical data"; a thrown `Error` shows its message; anything else shows "Unexpected error" |
| Snapshot.HistoricalSnapshot.constructor | src/components/HistoricalSnapshot.tsx:49-57 | first render: the initial range with default 1mo, the initial rows, no error, not loading, and a cache keyed by the initial range as written |
| Snapshot.HistoricalSnapshot.PropsChanged | src/components/HistoricalSnapshot.tsx:59-64 | the cache becomes exactly the initial range (default 1mo) with its history; rows, range and error reset; loading, the last update and a fetch in flight are left alone |
| Snapshot.HistoricalSnapshot.ChooseRange | src/components/HistoricalSnapshot.tsx:142-144 | the range is set; the effect re-runs exactly when the value differs; nothing else changes |
| Snapshot.HistoricalSnapshot.Cleanup | src/components/HistoricalSnapshot.tsx:114-116 | the fetch in flight is aborted; loading and everything else stay as they were |
| Snapshot.HistoricalSnapshot.RangeEffect | src/components/HistoricalSnapshot.tsx:66-81 | for the range of its render: a cached range is shown from the cache with the error cleared and no fetch; otherwise one fetch for the current symbol and that range starts, with loading set and the error cleared; the cache is not touched |
| Snapshot.HistoricalSnapshot.Settle | src/components/HistoricalSnapshot.tsx:82-109 | an aborted fetch changes nothing; a success caches its history (empty when absent) under the range it was started for, shows it, stamps the time and clears loading; a failure shows its message over an empty table, caches nothing and clears loading |
| Snapshot.SwitchBackDuringFetch | src/components/HistoricalSnapshot.tsx:66-117 | leaving an uncached range for a cached one mid-fetch shows the cached rows, ignores the late outcome and leaves loading set; symbol and last-update time stay, and one request id has been used |
| Snapshot.SymbolChangeWithOtherRange | src/components/HistoricalSnapshot.tsx:59-117 | a new symbol while showing another range: the stale-range fetch is aborted, the initial history is shown from the fresh cache, and loading stays set; the last-update time stays, and one request id has been used |
| Snapshot.Refresh | src/components/HistoricalSnapshot.tsx:156 | Refresh re-runs nothing and changes nothing: every field of the component keeps its value |

## Left out

- The request queue `enqueueYahooCall` (src/lib/finance.ts:12-27) serializes provider calls in time. Each provider call is one atomic step here. The one ordering fact the routes depend on is kept in `QuoteRoute.Get`: the quote call settles first, so its error wins when both fail.
- The provider library, the network `fetch`, the XML parser and the request-body JSON parser are foreign code. They appear as parameters that give each call's outcome, and the parsed feed appears as an already-shaped item field.
- JS `Date` and `Intl` are not modelled: `Date.now`, `toISOString`, `toLocaleDateString`, calendar overflow in `setDate`/`setMonth`/`setFullYear`, `new Date(text)` parsing, and the time-of-day stamp. A date is a record of its readings, a shift is symbolic, and the clock and date parser are parameters.
- Finance.FetchTwice: the two calls run one after the other. The provider call awaited at src/lib/finance.ts:177 lies between the lookup (lines 150-153) and the store (lines 193-196), so two overlapping calls for one key both miss and both call the provider. The model's calls are atomic and do not capture that overlap.
- The five-minute `revalidate` cache that the framework's `fetch` keeps for the news feed (src/lib/finance.ts:274-276) is not modelled. Each `fetchNews` is one request to the feed parameter.
- Finance.HistoricalCache.FetchHistorical: the two `new Date()` reads (lines 155 and 157) are taken as one instant. Each call has three clock readings (lookup, request, store), not four.
- Js.ToUpper: only ASCII letters are upper-cased. The full Unicode case mapping of `toUpperCase` (including length-changing mappings such as `ß`) is not modelled.
- Js.UpperChar: maps only `a`–`z` and keeps every other character, for the same reason.
- Finance.NormalizeSymbol: its length bound holds only under that ASCII mapping. The real `toUpperCase` turns `ß` into `SS` and can lengthen a symbol.
- JavaScript numbers are modelled as `real` and `int`, so NaN, ±Infinity and −0 do not occur. A provider price that is NaN stays NaN through `?? null` in the source (src/lib/finance.ts:185-191, 239-264). An invalid `Date` gives a NaN timestamp (src/lib/finance.ts:245-247). The model has no such values.
- NewsRoute.ForwardedLimit: JS `Number()` parsing of the `limit` text is a parameter. Only its finite/non-finite outcome and its value are used.
- Prototype-inherited keys of plain objects are not modelled: `ROW_LIMITS["constructor"]` and a client-cache key such as `"toString"`.
- Query-string decoding, `encodeURIComponent` and the URL the snapshot card requests are not modelled. A request carries its symbol and range.
- React scheduling, batching of state updates and the `AbortController` mechanics are not modelled. A method call is one effect step, and an abort is the request leaving `inFlight`.
- Rendering is not modelled: the JSX, `formatCurrency` and the presentation components, pages and layout.
- JSON serialization, and the distinction between `undefined` fields and `null` in responses, are not modelled beyond the optional fields' `None`.
- `console.error` in `/api/get-script` is not modelled.
- The 502 fallback messages of the crypto and indices routes are not modelled. Their `catch` cannot be reached.
- GetScriptRoute.Post: the body fields are taken to be strings or absent. A non-string JSON value in those fields is not modelled.
