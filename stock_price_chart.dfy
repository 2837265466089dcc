/** The price-history chart: the time-range window over a price series and
    the chart's load, error and retry state. Timestamps are integer
    milliseconds. */
module StockPriceChart {
  import opened Wrappers
  import opened Seqs

  /** One point of the series; `dateMs` is the point's date as a timestamp. */
  datatype PricePoint = PricePoint(dateMs: int, close: real)

  const DayMs := 24 * 60 * 60 * 1000
  const NoDataMessage := "No historical data available for this stock"
  const FetchFailedMessage := "Failed to fetch historical data. Please try again."

  /** The window of a range selector in days; `MAX` has none, and anything
      unrecognised falls back to 30 days. */
  function WindowDays(range: string): (days: Option<nat>)
    ensures days.None? <==> range == "MAX"
    ensures range == "1W" ==> days == Some(7)
    ensures range == "3M" ==> days == Some(90)
    ensures range == "6M" ==> days == Some(180)
    ensures range == "1Y" ==> days == Some(365)
    ensures range !in {"1W", "3M", "6M", "1Y", "MAX"} ==> days == Some(30)
  {
    if range == "1W" then Some(7)
    else if range == "1M" then Some(30)
    else if range == "3M" then Some(90)
    else if range == "6M" then Some(180)
    else if range == "1Y" then Some(365)
    else if range == "MAX" then None
    else Some(30)
  }

  function OnOrAfter(cutoffMs: int): PricePoint -> bool {
    (p: PricePoint) => p.dateMs >= cutoffMs
  }

  /** The cutoff of a windowed range at `nowMs`. */
  function Cutoff(days: nat, nowMs: int): int {
    nowMs - days * DayMs
  }

  /** `filterDataByTimeRange` at time `nowMs`. */
  function FilterDataByTimeRange(data: seq<PricePoint>, range: string, nowMs: int): (r: seq<PricePoint>)
    ensures |r| <= |data|
    ensures forall p :: p in r ==> p in data
    ensures range == "MAX" ==> r == data
  {
    if |data| == 0 then data
    else
      match WindowDays(range)
      case None => data
      case Some(days) => Filter(data, OnOrAfter(Cutoff(days, nowMs)))
  }

  /** `MAX`, and any empty series, come back unchanged. */
  lemma MaxOrEmptyUnchanged(data: seq<PricePoint>, range: string, nowMs: int)
    requires range == "MAX" || data == []
    ensures FilterDataByTimeRange(data, range, nowMs) == data
  {
  }

  /** A windowed range keeps exactly the points on or after the cutoff, in
      order, so the result is a subsequence of the series. */
  lemma WindowKeepsExactly(data: seq<PricePoint>, range: string, nowMs: int)
    requires range != "MAX"
    ensures var cutoff := Cutoff(WindowDays(range).value, nowMs);
      forall p :: p in FilterDataByTimeRange(data, range, nowMs) <==> p in data && p.dateMs >= cutoff
    ensures IsSubsequence(FilterDataByTimeRange(data, range, nowMs), data)
  {
    var r := FilterDataByTimeRange(data, range, nowMs);
    if data == [] {
      assert IsSubsequence(r, data);
    } else {
      FilterIsSubsequence(data, OnOrAfter(Cutoff(WindowDays(range).value, nowMs)));
    }
  }

  /** Windowing again with the same range at the same time changes nothing. */
  lemma FilterDataIdempotent(data: seq<PricePoint>, range: string, nowMs: int)
    ensures var once := FilterDataByTimeRange(data, range, nowMs);
      FilterDataByTimeRange(once, range, nowMs) == once
  {
    if data != [] && range != "MAX" {
      FilterIdempotent(data, OnOrAfter(Cutoff(WindowDays(range).value, nowMs)));
    }
  }

  /** A wider window keeps every point a narrower one keeps. */
  lemma WiderWindowKeepsMore(data: seq<PricePoint>, narrow: string, wide: string, nowMs: int)
    requires narrow != "MAX"
    requires wide == "MAX" || WindowDays(narrow).value <= WindowDays(wide).value
    ensures forall p :: p in FilterDataByTimeRange(data, narrow, nowMs) ==> p in FilterDataByTimeRange(data, wide, nowMs)
  {
    WindowKeepsExactly(data, narrow, nowMs);
    if wide != "MAX" {
      WindowKeepsExactly(data, wide, nowMs);
    }
  }

  class Chart {
    var historicalData: seq<PricePoint>
    var isLoading: bool
    var error: Option<string>
    var selectedRange: string
    var retryCount: nat

    constructor ()
      ensures historicalData == [] && isLoading && error == None && selectedRange == "1M" && retryCount == 0
    {
      historicalData, isLoading, error := [], true, None;
      selectedRange, retryCount := "1M", 0;
    }

    /** `fetchHistoricalData`, given the fetch's outcome and the time. */
    method FetchHistoricalData(outcome: Result<seq<PricePoint>, string>, nowMs: int)
      modifies this`historicalData, this`isLoading, this`error
      ensures !isLoading
      ensures outcome == Success([]) ==> error == Some(NoDataMessage) && historicalData == []
      ensures outcome.Success? && outcome.value != [] ==>
        error == None && historicalData == FilterDataByTimeRange(outcome.value, selectedRange, nowMs)
      ensures outcome.Failure? ==> error == Some(FetchFailedMessage) && historicalData == old(historicalData)
    {
      isLoading, error := true, None;
      match outcome {
        case Success(data) =>
          if |data| == 0 {
            error := Some(NoDataMessage);
            historicalData := [];
          } else {
            historicalData := FilterDataByTimeRange(data, selectedRange, nowMs);
          }
        case Failure(_) =>
          error := Some(FetchFailedMessage);
      }
      isLoading := false;
    }

    /** `handleRetry`. */
    method HandleRetry()
      modifies this`retryCount
      ensures retryCount == old(retryCount) + 1
    {
      retryCount := retryCount + 1;
    }
  }
}
