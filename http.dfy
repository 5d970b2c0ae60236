/**
 * What the API route handlers share: the response shape, the calls they make
 * into the data-access layer, the query-parameter normalization, the
 * comma-separated symbol list, and the per-symbol `Promise.allSettled` mapping.
 */
module Http {
  import opened Wrappers
  import opened Js
  import opened Finance

  /** `NextResponse.json(payload)` (status 200) or `NextResponse.json({ error }, { status })`. */
  datatype Response<+T> = Json(payload: T) | JsonError(status: int, error: string) {
    function Status(): int {
      if Json? then 200 else status
    }
  }

  /** A call a handler makes into `fetchQuote`, `fetchHistorical` or `fetchNews`. */
  datatype FacadeCall =
    | QuoteCall(symbol: string)
    | HistoryCall(symbol: string, range: Arg, interval: Arg)
    | NewsCall(symbol: string, limit: real)

  /** A handler's response together with the calls it issued, in the order issued. */
  datatype Handled<+T, +C> = Handled(response: Response<T>, calls: seq<C>)

  /** `searchParams.get(name)?.toUpperCase().trim() ?? ""` */
  function UpperTrimmedParam(p: Option<string>): (r: string)
    ensures p.None? ==> r == ""
    ensures p.Some? ==> r == NormalizeSymbol(p.value)
    ensures Trimmed(r)
    ensures r == "" <==> p.None? || AllWhitespace(p.value)
  {
    match p
    case None => ""
    case Some(s) =>
      assert AllWhitespace(ToUpper(s)) <==> AllWhitespace(s);
      NormalizeSymbol(s)
  }

  /** A character absent from `s` is absent from `s.trim()`. */
  lemma TrimKeepsOut(s: string, c: char)
    requires c !in s
    ensures c !in Trim(s)
  {
    var r := Trim(s);
    var i := LeadingWhitespace(s);
    forall k | 0 <= k < |r| ensures r[k] != c {
      assert r[k] == s[i + k];
    }
  }

  /** `.map((s) => s.trim()).filter(Boolean)` */
  function TrimNonEmpty(pieces: seq<string>): (r: seq<string>)
    ensures |r| <= |pieces|
    ensures forall i | 0 <= i < |r| :: r[i] != [] && Trimmed(r[i])
  {
    if pieces == [] then []
    else
      var t := Trim(pieces[0]);
      if t == [] then TrimNonEmpty(pieces[1..]) else [t] + TrimNonEmpty(pieces[1..])
  }

  /** One piece yields its trim, or nothing when that is empty. */
  lemma TrimNonEmptySingle(piece: string)
    ensures TrimNonEmpty([piece]) == if Trim(piece) == [] then [] else [Trim(piece)]
  {
    assert [piece][1..] == [];
  }

  /** Trim-and-filter distributes over concatenation: the survivors of each part, in order. */
  lemma {:induction false} TrimNonEmptyConcat(a: seq<string>, b: seq<string>)
    ensures TrimNonEmpty(a + b) == TrimNonEmpty(a) + TrimNonEmpty(b)
    decreases |a|
  {
    if a != [] {
      assert (a + b)[0] == a[0] && (a + b)[1..] == a[1..] + b;
      TrimNonEmptyConcat(a[1..], b);
    } else {
      assert a + b == b;
    }
  }

  /** Pieces that are already non-empty and trimmed pass through unchanged. */
  lemma {:induction false} TrimNonEmptyOfClean(pieces: seq<string>)
    requires forall j | 0 <= j < |pieces| :: pieces[j] != [] && Trimmed(pieces[j])
    ensures TrimNonEmpty(pieces) == pieces
  {
    if pieces != [] {
      TrimOfTrimmed(pieces[0]);
      TrimNonEmptyOfClean(pieces[1..]);
      assert pieces == [pieces[0]] + pieces[1..];
    }
  }

  /** Trimming and dropping pieces introduces no character that no piece had. */
  lemma {:induction false} TrimNonEmptyKeepsOut(pieces: seq<string>, c: char)
    requires forall j | 0 <= j < |pieces| :: c !in pieces[j]
    ensures forall i | 0 <= i < |TrimNonEmpty(pieces)| :: c !in TrimNonEmpty(pieces)[i]
  {
    if pieces != [] {
      TrimNonEmptyKeepsOut(pieces[1..], c);
      TrimKeepsOut(pieces[0], c);
    }
  }

  /**
   * `symbolsParam.split(",").map((s) => s.trim()).filter(Boolean)`: every
   * symbol is non-empty, trimmed and free of commas.
   */
  function ParseSymbolList(s: string): (symbols: seq<string>)
    ensures forall i | 0 <= i < |symbols| :: symbols[i] != [] && Trimmed(symbols[i]) && ',' !in symbols[i]
  {
    TrimNonEmptyKeepsOut(Split(s, ','), ',');
    TrimNonEmpty(Split(s, ','))
  }

  /**
   * Parsing a comma-joined list of clean symbols gives the same symbols back,
   * in the same order.
   */
  lemma ParseJoinedList(symbols: seq<string>)
    requires |symbols| >= 1
    requires forall i | 0 <= i < |symbols| :: symbols[i] != [] && Trimmed(symbols[i]) && ',' !in symbols[i]
    ensures ParseSymbolList(Join(symbols, ',')) == symbols
  {
    SplitJoin(symbols, ',');
    TrimNonEmptyOfClean(symbols);
  }

  /** A comma-joined list of clean upper-case symbols survives the parameter normalization. */
  lemma JoinedParam(symbols: seq<string>)
    requires |symbols| >= 1
    requires forall i | 0 <= i < |symbols| ::
      symbols[i] != [] && Trimmed(symbols[i]) && ToUpper(symbols[i]) == symbols[i]
    ensures UpperTrimmedParam(Some(Join(symbols, ','))) == Join(symbols, ',')
  {
    var joined := Join(symbols, ',');
    JoinUpper(symbols, ',');
    JoinTrimmed(symbols, ',');
    TrimOfTrimmed(joined);
  }

  /**
   * Parsing a comma join of any comma-free pieces gives exactly those pieces,
   * trimmed, with the empty ones dropped, in their order.
   */
  lemma ParseJoinedPieces(pieces: seq<string>)
    requires |pieces| >= 1
    requires forall i | 0 <= i < |pieces| :: ',' !in pieces[i]
    ensures ParseSymbolList(Join(pieces, ',')) == TrimNonEmpty(pieces)
  {
    SplitJoin(pieces, ',');
  }

  /** A space after the comma is trimmed away: `"A, B"` parses to `A` and `B`. */
  lemma SpaceAfterComma(a: string, b: string)
    requires a != [] && Trimmed(a) && ',' !in a
    requires b != [] && Trimmed(b) && ',' !in b
    ensures ParseSymbolList(a + ", " + b) == [a, b]
  {
    assert a + ", " + b == Join([a, " " + b], ',') by {
      assert Join([" " + b], ',') == " " + b;
      assert [a, " " + b][1..] == [" " + b];
    }
    assert ',' !in " " + b;
    ParseJoinedPieces([a, " " + b]);
    TrimOfTrimmed(a);
    TrimPadded(" ", b);
    TrimNonEmptySingle(a);
    TrimNonEmptySingle(" " + b);
    TrimNonEmptyConcat([a], [" " + b]);
    assert [a, " " + b] == [a] + [" " + b];
  }

  /** An empty piece between two commas is dropped: `"A,,B"` parses to `A` and `B`. */
  lemma DoubleComma(a: string, b: string)
    requires a != [] && Trimmed(a) && ',' !in a
    requires b != [] && Trimmed(b) && ',' !in b
    ensures ParseSymbolList(a + ",," + b) == [a, b]
  {
    JoinWithEmptyMiddle(a, b);
    ParseJoinedPieces([a, [], b]);
    TrimNonEmptyDropsEmpty(a, b);
  }

  lemma JoinWithEmptyMiddle(a: string, b: string)
    ensures Join([a, [], b], ',') == a + ",," + b
  {
    assert Join([b], ',') == b;
    assert [a, [], b][1..] == [[], b];
    assert [[], b][1..] == [b];
    assert Join([[], b], ',') == "," + b;
  }

  lemma TrimNonEmptyDropsEmpty(a: string, b: string)
    requires a != [] && Trimmed(a) && b != [] && Trimmed(b)
    ensures TrimNonEmpty([a, [], b]) == [a, b]
  {
    TrimOfTrimmed(a);
    TrimOfTrimmed(b);
    assert Trim([]) == [];
    TrimNonEmptySingle(a);
    TrimNonEmptySingle([]);
    TrimNonEmptySingle(b);
    TrimNonEmptyConcat([a], [[]]);
    TrimNonEmptyConcat([a, []], [b]);
    assert [a, [], b] == [a] + [[]] + [b];
  }

  /** A symbols parameter made only of commas parses to the empty list. */
  lemma CommaOnlyList()
    ensures ParseSymbolList(",") == []
  {
    assert Split([], ',') == [[]];
    assert Split(",", ',') == [[], []];
    assert Trim([]) == [];
  }

  /**
   * `Promise.allSettled(symbols.map(fetch))` mapped to `value` or `null`:
   * one slot per symbol, in order, empty exactly when that call rejected.
   * `fetch(i, s)` is the outcome of the i-th call, made for the symbol `s`;
   * two calls for the same symbol are separate provider requests and may end
   * differently.
   */
  function SettleEach<V>(symbols: seq<string>, fetch: (nat, string) -> Result<V, Thrown>): (slots: seq<Option<V>>)
    ensures |slots| == |symbols|
    ensures forall i | 0 <= i < |symbols| :: slots[i].None? <==> fetch(i, symbols[i]).Err?
    ensures forall i | 0 <= i < |symbols| :: fetch(i, symbols[i]).Ok? ==> slots[i] == Some(fetch(i, symbols[i]).value)
  {
    seq(|symbols|, i requires 0 <= i < |symbols| =>
      match fetch(i, symbols[i]) case Ok(v) => Some(v) case Err(_) => None)
  }

  /** A symbol listed twice gets two slots, each from its own call. */
  lemma RepeatedSymbolSettledApart<V>(x: string, v: V, fetch: (nat, string) -> Result<V, Thrown>)
    requires fetch(0, x).Err? && fetch(1, x) == Ok(v)
    ensures SettleEach([x, x], fetch) == [None, Some(v)]
  {
    var slots := SettleEach([x, x], fetch);
    assert slots[0] == None && slots[1] == Some(v);
  }

  /** The calls `symbols.map((symbol) => fetchQuote(symbol))` issues. */
  function QuoteCalls(symbols: seq<string>): (calls: seq<FacadeCall>)
    ensures |calls| == |symbols|
    ensures forall i | 0 <= i < |symbols| :: calls[i] == QuoteCall(symbols[i])
  {
    if symbols == [] then [] else [QuoteCall(symbols[0])] + QuoteCalls(symbols[1..])
  }
}
