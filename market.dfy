/** The market page (src/pages/Market.js): the selected time range decides
    the chart query and the refresh period; each refresh reads the coin
    snapshot, then the price chart. */
module Market {
  import opened Wrappers
  import opened Web3

  /** The ranges the page offers. */
  const DAY_RANGES: seq<string> := ["7d", "30d", "90d"]
  const KNOWN_RANGES: seq<string> := ["24h"] + DAY_RANGES

  /** The `days` and `interval` parameters of the market-chart request. */
  datatype ChartQuery = ChartQuery(days: string, interval: string)

  /** The chart query a range asks for: hourly points over one day for
      "24h", daily points over the named number of days otherwise, and the
      "7d" query for any range the page does not know. */
  function QueryFor(timeRange: string): (q: ChartQuery)
    ensures q.interval == "hourly" <==> timeRange == "24h"
    ensures q.interval == "hourly" || q.interval == "daily"
    ensures timeRange == "24h" ==> q.days == "1"
    ensures timeRange in DAY_RANGES ==> q.days + "d" == timeRange
    ensures timeRange !in KNOWN_RANGES ==> q == ChartQuery("7", "daily")
  {
    match timeRange
    case "24h" => ChartQuery("1", "hourly")
    case "7d" => ChartQuery("7", "daily")
    case "30d" => ChartQuery("30", "daily")
    case "90d" => ChartQuery("90", "daily")
    case _ => ChartQuery("7", "daily")
  }

  /** An unknown range behaves exactly as the initial "7d" range. */
  lemma UnknownRangeFallsBackToWeek(timeRange: string)
    requires timeRange !in KNOWN_RANGES
    ensures QueryFor(timeRange) == QueryFor("7d")
  {
  }

  /** The `switch (timeRange)` of `fetchMarketData`: the locals start at the
      one-week query and each case reassigns them. */
  method ChartParameters(timeRange: string) returns (days: string, interval: string)
    ensures ChartQuery(days, interval) == QueryFor(timeRange)
  {
    days := "7";
    interval := "daily";
    match timeRange {
      case "24h" =>
        days := "1";
        interval := "hourly";
      case "7d" =>
        days := "7";
        interval := "daily";
      case "30d" =>
        days := "30";
        interval := "daily";
      case "90d" =>
        days := "90";
        interval := "daily";
      case _ =>
        days := "7";
        interval := "daily";
    }
  }

  /** The polling period of the refresh timer, in milliseconds: one minute
      for the one-day range, five minutes for every other range. */
  function RefreshPeriodMs(timeRange: string): (p: nat)
    ensures p == 60000 <==> timeRange == "24h"
    ensures p == 60000 || p == 300000
  {
    if timeRange == "24h" then 60000 else 300000
  }

  /** The page polls once a minute exactly when it charts hourly points. */
  lemma FastRefreshIffHourly(timeRange: string)
    ensures RefreshPeriodMs(timeRange) == 60000 <==> QueryFor(timeRange).interval == "hourly"
  {
  }

  /** The coin snapshot, reduced to the figures the page shows. */
  datatype CoinData = CoinData(name: string, symbol: string, usdPrice: real, change24h: real)

  /** One `[time, price]` pair of the API's `prices` series; time in ms. */
  datatype PriceSample = PriceSample(time: int, price: real)

  /** How a chart point's date is shown: a time of day for the one-day
      range, a calendar date otherwise. The text itself is locale-dependent. */
  datatype DateLabel = TimeOfDay(instant: int) | CalendarDate(instant: int)

  /** A chart point as the page keeps it. */
  datatype PricePoint = PricePoint(timestamp: int, date: DateLabel, price: real)

  /** The callback of `historyResponse.data.prices.map`. */
  function FormatSample(item: PriceSample, timeRange: string): (p: PricePoint)
    ensures p.timestamp == item.time && p.date.instant == item.time && p.price == item.price
    ensures p.date.TimeOfDay? <==> timeRange == "24h"
  {
    PricePoint(item.time, if timeRange == "24h" then TimeOfDay(item.time) else CalendarDate(item.time), item.price)
  }

  /** The formatted history: one point per sample, in the API's order. */
  function FormatPriceHistory(prices: seq<PriceSample>, timeRange: string): (r: seq<PricePoint>)
    ensures |r| == |prices|
    ensures forall i :: 0 <= i < |prices| ==> r[i] == FormatSample(prices[i], timeRange)
  {
    seq(|prices|, i requires 0 <= i < |prices| => FormatSample(prices[i], timeRange))
  }

  /** Increasing sample times give increasing chart timestamps. */
  predicate TimesIncrease(prices: seq<PriceSample>) {
    forall i, j :: 0 <= i < j < |prices| ==> prices[i].time < prices[j].time
  }

  predicate TimestampsIncrease(points: seq<PricePoint>) {
    forall i, j :: 0 <= i < j < |points| ==> points[i].timestamp < points[j].timestamp
  }

  /** Formatting keeps the order of the series and its timestamps. */
  lemma FormatKeepsOrder(prices: seq<PriceSample>, timeRange: string)
    ensures TimesIncrease(prices) <==> TimestampsIncrease(FormatPriceHistory(prices, timeRange))
  {
  }

  /** Formatting commutes with splitting the series. */
  lemma FormatPriceHistoryAppend(a: seq<PriceSample>, b: seq<PriceSample>, timeRange: string)
    ensures FormatPriceHistory(a + b, timeRange) == FormatPriceHistory(a, timeRange) + FormatPriceHistory(b, timeRange)
  {
  }

  /** The requests of the market page. */
  datatype MarketRequest = CoinSnapshot | MarketChart(query: ChartQuery)

  /** The requests one refresh issues: the snapshot, then, if it arrived,
      the chart for the range. */
  function RefreshRequests(timeRange: string, coin: Reply<CoinData>): (rs: seq<MarketRequest>)
    ensures 1 <= |rs| <= 2 && rs[0] == CoinSnapshot
    ensures |rs| == 2 <==> coin.Ok?
    ensures |rs| == 2 ==> rs[1] == MarketChart(QueryFor(timeRange))
  {
    [CoinSnapshot] + if coin.Ok? then [MarketChart(QueryFor(timeRange))] else []
  }

  /** The state of the market page, one field per `useState`. */
  class MarketPage {
    var ethData: Option<CoinData>
    var priceHistory: seq<PricePoint>
    var timeRange: string
    var loading: bool
    /** Every request issued so far, with `loading` at that moment. */
    var requests: seq<Issued<MarketRequest>>

    constructor ()
      ensures ethData.None? && priceHistory == [] && timeRange == "7d" && loading && requests == []
    {
      ethData := None;
      priceHistory := [];
      timeRange := "7d";
      loading := true;
      requests := [];
    }

    /** `fetchMarketData`. The snapshot is stored before the chart is
        requested, so a failed chart request leaves a new snapshot beside the
        previous chart. `loading` is true while the requests are out and
        false afterwards, whatever the outcome. */
    method FetchMarketData(coin: Reply<CoinData>, chart: Reply<seq<PriceSample>>)
      modifies this
      ensures !loading && timeRange == old(timeRange)
      ensures !ShowsSpinner()
      ensures requests == old(requests) + Tagged(RefreshRequests(timeRange, coin), true)
      ensures ethData == (if coin.Ok? then Some(coin.value) else old(ethData))
      ensures priceHistory ==
                (if coin.Ok? && chart.Ok? then FormatPriceHistory(chart.value, timeRange) else old(priceHistory))
    {
      loading := true;
      requests := requests + [Issued(CoinSnapshot, loading)];
      if coin.Ok? {
        ethData := Some(coin.value);
        var days, interval := ChartParameters(timeRange);
        requests := requests + [Issued(MarketChart(ChartQuery(days, interval)), loading)];
        if chart.Ok? {
          priceHistory := FormatPriceHistory(chart.value, timeRange);
        }
      }
      loading := false;
    }

    /** `handleTimeRangeChange`: only the range changes; the effect keyed on
        it then runs `FetchMarketData` again and restarts the timer with
        `RefreshPeriodMs(range)`. */
    method SelectRange(range: string)
      modifies this`timeRange
      ensures timeRange == range
    {
      timeRange := range;
    }

    /** The spinner replaces the page only before the first snapshot: once
        a snapshot is held, later refreshes keep the page on screen. */
    function ShowsSpinner(): (shown: bool)
      reads this
      ensures shown <==> loading && ethData.None?
      ensures ethData.Some? ==> !shown
    {
      loading && ethData.None?
    }
  }
}
