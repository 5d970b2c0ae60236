/**
 * The historical-snapshot card (src/components/HistoricalSnapshot.tsx): the
 * row window it displays, the value its range select shows, and the state
 * transitions of its two effects around a per-range client cache.
 */
module Snapshot {
  import opened Wrappers
  import opened Js
  import opened Finance

  const DefaultRange: string := "1mo"

  /** The ranges the select offers. */
  const SelectableRanges: seq<string> := ["5d", "1mo", "3mo"]

  /** `ROW_LIMITS[range] ?? 20` */
  function RowLimit(range: string): (n: nat)
    ensures range == "5d" ==> n == 5
    ensures range == "1mo" ==> n == 22
    ensures range == "3mo" ==> n == 60
    ensures range == "6mo" ==> n == 90
    ensures range == "1y" ==> n == 126
    ensures range !in KnownRanges ==> n == 20
    ensures n > 0
  {
    match range
    case "5d" => 5
    case "1mo" => 22
    case "3mo" => 60
    case "6mo" => 90
    case "1y" => 126
    case _ => 20
  }

  /** What the select shows: the current range when it is offered, otherwise the default. */
  function SelectValue(range: string): (v: string)
    ensures v in SelectableRanges
    ensures range in SelectableRanges ==> v == range
    ensures range !in SelectableRanges ==> v == DefaultRange
  {
    if range in SelectableRanges then range else DefaultRange
  }

  /** `Array.prototype.reverse` on a copy. */
  function Reverse<T>(s: seq<T>): (r: seq<T>)
    ensures |r| == |s|
    ensures forall i | 0 <= i < |s| :: r[i] == s[|s| - 1 - i]
  {
    if s == [] then [] else Reverse(s[1..]) + [s[0]]
  }

  lemma {:induction false} ReverseReverse<T>(s: seq<T>)
    ensures Reverse(Reverse(s)) == s
  {
    var r := Reverse(s);
    assert forall i | 0 <= i < |s| :: Reverse(r)[i] == r[|r| - 1 - i] == s[i];
  }

  /**
   * `rows.slice(-rowLimit).reverse()`: the last `rowLimit` rows, most recent
   * first, and all of them when there are fewer.
   */
  function DisplayedRows(rows: seq<HistoricalBar>, range: string): (d: seq<HistoricalBar>)
    ensures |d| == if RowLimit(range) < |rows| then RowLimit(range) else |rows|
    ensures forall i | 0 <= i < |d| :: d[i] == rows[|rows| - 1 - i]
  {
    Reverse(rows[SliceStart(|rows|, -(RowLimit(range) as int))..])
  }

  /** The displayed window, read back in order, is exactly the tail of the rows. */
  lemma DisplayedRowsAreTail(rows: seq<HistoricalBar>, range: string)
    ensures var d := DisplayedRows(rows, range);
      Reverse(d) == rows[|rows| - |d|..]
  {
    var d := DisplayedRows(rows, range);
    var tail := rows[|rows| - |d|..];
    assert tail == rows[SliceStart(|rows|, -(RowLimit(range) as int))..];
    ReverseReverse(tail);
  }

  /** A fetch the range effect started. */
  datatype SnapshotRequest = SnapshotRequest(id: nat, symbol: string, range: string)

  /** How a fetch ended, when it was not aborted. */
  datatype FetchOutcome =
    | Received(history: Option<seq<HistoricalBar>>)  // `{ history?: HistoricalBar[] }` from an ok response
    | HttpNotOk
    | Threw(thrown: Thrown)

  /** The message a failed fetch shows. */
  function FailureMessage(outcome: FetchOutcome): (m: string)
    requires !outcome.Received?
    ensures outcome.HttpNotOk? ==> m == "Unable to load historical data"
    ensures outcome.Threw? ==> m == MessageOr(outcome.thrown, "Unexpected error")
  {
    match outcome
    case HttpNotOk => MessageOr(Error("Unable to load historical data"), "Unexpected error")
    case Threw(t) => MessageOr(t, "Unexpected error")
  }

  /**
   * The component's state and refs: `range`, `rows`, `loading`, `error` and
   * `lastUpdated` are its state hooks, `cache` is `cacheRef.current`, and
   * `inFlight` is the fetch whose controller has not been aborted.
   */
  class HistoricalSnapshot {
    var symbol: string
    var range: string
    var rows: seq<HistoricalBar>
    var loading: bool
    var error: Option<string>
    var lastUpdated: Option<string>
    var cache: map<string, seq<HistoricalBar>>
    var inFlight: Option<SnapshotRequest>
    var nextRequest: nat

    /** An error is only ever shown over an empty table, and live requests have issued ids. */
    ghost predicate Valid()
      reads this
    {
      && (error.Some? ==> rows == [])
      && (inFlight.Some? ==> inFlight.value.id < nextRequest && error.None?)
    }

    /** First render: the initial range (default "1mo") and the cache keyed by `initialRange` as written. */
    constructor (symbol: string, initialRange: Option<string>, initialHistory: seq<HistoricalBar>)
      ensures Valid()
      ensures this.symbol == symbol && range == initialRange.GetOr(DefaultRange) && rows == initialHistory
      ensures !loading && error == None && lastUpdated == None && inFlight == None
      ensures cache == map[TemplateText(match initialRange case None => Omitted case Some(r) => Text(r)) := initialHistory]
    {
      this.symbol := symbol;
      range := initialRange.GetOr(DefaultRange);
      rows := initialHistory;
      loading := false;
      error := None;
      lastUpdated := None;
      cache := map[TemplateText(match initialRange case None => Omitted case Some(r) => Text(r)) := initialHistory];
      inFlight := None;
      nextRequest := 0;
    }

    /**
     * The props effect: a new symbol or new initial data resets the cache to
     * exactly the initial range and its history, shows that history and clears
     * the error. A fetch in flight is left alone.
     */
    method PropsChanged(newSymbol: string, initialRange: Option<string>, initialHistory: seq<HistoricalBar>)
      requires Valid()
      modifies this
      ensures Valid()
      ensures symbol == newSymbol
      ensures cache == map[initialRange.GetOr(DefaultRange) := initialHistory]
      ensures range == initialRange.GetOr(DefaultRange) && rows == initialHistory && error == None
      ensures loading == old(loading) && lastUpdated == old(lastUpdated)
      ensures inFlight == old(inFlight) && nextRequest == old(nextRequest)
    {
      symbol := newSymbol;
      cache := map[initialRange.GetOr(DefaultRange) := initialHistory];
      range := initialRange.GetOr(DefaultRange);
      rows := initialHistory;
      error := None;
    }

    /**
     * The select's `onChange` (and the Refresh button, with the current
     * range). React re-runs the range effect only when the value differs, so
     * `rerun` is false, and nothing changes, when the same range is chosen.
     */
    method ChooseRange(value: string) returns (rerun: bool)
      requires Valid()
      modifies this
      ensures Valid()
      ensures rerun <==> value != old(range)
      ensures range == value
      ensures symbol == old(symbol) && rows == old(rows) && loading == old(loading) && error == old(error)
      ensures lastUpdated == old(lastUpdated) && cache == old(cache)
      ensures inFlight == old(inFlight) && nextRequest == old(nextRequest)
    {
      rerun := value != range;
      range := value;
    }

    /**
     * The range effect's cleanup, on a re-run or on unmount: the controller
     * of the fetch in flight is aborted. Nothing else changes; in particular
     * `loading` stays as it was.
     */
    method Cleanup()
      requires Valid()
      modifies this
      ensures Valid()
      ensures inFlight == None
      ensures symbol == old(symbol) && range == old(range) && rows == old(rows) && loading == old(loading)
      ensures error == old(error) && lastUpdated == old(lastUpdated) && cache == old(cache)
      ensures nextRequest == old(nextRequest)
    {
      inFlight := None;
    }

    /**
     * The range effect's body, after the previous run's cleanup. `rendered`
     * is the range of the render the effect belongs to, which is the current
     * `range` except when a props reset in the same commit has just replaced
     * it. A cached range (an empty list included) is shown from the cache
     * with no fetch; otherwise a fetch for the current symbol and that range
     * is started, with `loading` set and the error cleared.
     */
    method RangeEffect(rendered: string) returns (started: Option<SnapshotRequest>)
      requires Valid() && inFlight == None
      modifies this
      ensures Valid()
      ensures rendered in old(cache) ==>
        && started == None && inFlight == None
        && rows == old(cache)[rendered] && error == None
        && loading == old(loading) && nextRequest == old(nextRequest)
      ensures rendered !in old(cache) ==>
        && started == Some(SnapshotRequest(old(nextRequest), old(symbol), rendered))
        && inFlight == started && nextRequest == old(nextRequest) + 1
        && loading && error == None && rows == old(rows)
      ensures symbol == old(symbol) && range == old(range) && cache == old(cache) && lastUpdated == old(lastUpdated)
    {
      if rendered in cache {
        rows := cache[rendered];
        error := None;
        started := None;
      } else {
        var req := SnapshotRequest(nextRequest, symbol, rendered);
        nextRequest := nextRequest + 1;
        inFlight := Some(req);
        loading := true;
        error := None;
        started := Some(req);
      }
    }

    /**
     * A fetch ends. An aborted one (no longer in flight) changes nothing. A
     * success caches `history ?? []` under the range it was started for and
     * shows it; a failure shows its message over an empty table and caches
     * nothing. Either way `loading` is cleared. `clock` is the formatted time
     * of day the success is stamped with.
     */
    method Settle(id: nat, outcome: FetchOutcome, clock: string)
      requires Valid()
      modifies this
      ensures Valid()
      ensures !(old(inFlight).Some? && old(inFlight).value.id == id) ==>
        && inFlight == old(inFlight) && rows == old(rows) && loading == old(loading) && error == old(error)
        && lastUpdated == old(lastUpdated) && cache == old(cache)
      ensures old(inFlight).Some? && old(inFlight).value.id == id && outcome.Received? ==>
        var bars := outcome.history.GetOr([]);
        && cache == old(cache)[old(inFlight).value.range := bars]
        && rows == bars && error == None && lastUpdated == Some(clock)
        && !loading && inFlight == None
      ensures old(inFlight).Some? && old(inFlight).value.id == id && !outcome.Received? ==>
        && error == Some(FailureMessage(outcome)) && rows == []
        && cache == old(cache) && lastUpdated == old(lastUpdated)
        && !loading && inFlight == None
      ensures symbol == old(symbol) && range == old(range) && nextRequest == old(nextRequest)
    {
      if inFlight.Some? && inFlight.value.id == id {
        var req := inFlight.value;
        match outcome {
          case Received(history) =>
            cache := cache[req.range := history.GetOr([])];
            rows := cache[req.range];
            lastUpdated := Some(clock);
          case _ =>
            error := Some(FailureMessage(outcome));
            rows := [];
        }
        loading := false;
        inFlight := None;
      }
    }
  }

  /**
   * Switching to an uncached range and back to a cached one before the fetch
   * ends: the first fetch is aborted and its late outcome is ignored, the
   * cached rows are shown, and `loading` stays set, since only a fetch that
   * was not aborted clears it.
   */
  method SwitchBackDuringFetch(s: HistoricalSnapshot, uncached: string, outcome: FetchOutcome, clock: string)
    requires s.Valid() && s.inFlight == None && !s.loading
    requires s.range in s.cache && uncached !in s.cache
    modifies s
    ensures s.Valid()
    ensures s.range == old(s.range) && s.rows == old(s.cache)[old(s.range)] && s.error == None
    ensures s.loading && s.inFlight == None && s.cache == old(s.cache)
    ensures s.symbol == old(s.symbol) && s.lastUpdated == old(s.lastUpdated)
    ensures s.nextRequest == old(s.nextRequest) + 1
  {
    var back := s.range;
    var rerun := s.ChooseRange(uncached);
    var req := s.RangeEffect(s.range);
    assert req.Some?;
    rerun := s.ChooseRange(back);
    s.Cleanup();
    var none := s.RangeEffect(s.range);
    s.Settle(req.value.id, outcome, clock);
  }

  /**
   * A new symbol while showing a range other than the new initial one: in
   * the commit that resets the cache, the range effect still sees the old
   * range, misses on the fresh cache and starts a fetch; the next commit
   * aborts it and serves the initial history from the cache, and `loading`
   * stays set.
   */
  method SymbolChangeWithOtherRange(s: HistoricalSnapshot, newSymbol: string,
                                    initialRange: Option<string>, initialHistory: seq<HistoricalBar>)
    requires s.Valid() && s.inFlight == None && !s.loading
    requires s.range != initialRange.GetOr(DefaultRange)
    modifies s
    ensures s.Valid()
    ensures s.symbol == newSymbol && s.range == initialRange.GetOr(DefaultRange)
    ensures s.rows == initialHistory && s.error == None
    ensures s.cache == map[initialRange.GetOr(DefaultRange) := initialHistory]
    ensures s.loading && s.inFlight == None
    ensures s.lastUpdated == old(s.lastUpdated) && s.nextRequest == old(s.nextRequest) + 1
  {
    var stale := s.range;
    s.PropsChanged(newSymbol, initialRange, initialHistory);
    var req := s.RangeEffect(stale);
    assert req.Some?;
    s.Cleanup();
    var none := s.RangeEffect(s.range);
  }

  /** The Refresh button chooses the current range again, which re-runs nothing and changes nothing. */
  method Refresh(s: HistoricalSnapshot) returns (rerun: bool)
    requires s.Valid()
    modifies s
    ensures !rerun
    ensures s.range == old(s.range) && s.rows == old(s.rows) && s.loading == old(s.loading)
    ensures s.error == old(s.error) && s.cache == old(s.cache) && s.inFlight == old(s.inFlight)
    ensures s.symbol == old(s.symbol) && s.lastUpdated == old(s.lastUpdated) && s.nextRequest == old(s.nextRequest)
  {
    rerun := s.ChooseRange(s.range);
  }
}
