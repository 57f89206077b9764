/**
 * The charts tab: the history rows are put in a map by date, the last seven days
 * become a floating-bar series with one label per day (oldest first), and the history
 * list shows either an empty state or one line per day. The seven date keys and day
 * names come from the clock and are parameters; the two `/history` fetches are
 * parameters too, None when the fetch or its JSON parse throws.
 */
module Charts {
  import opened Wrappers
  import opened Strings

  /** One row of the history answer; an absent or null total is None. */
  datatype HistoryRow = HistoryRow(date: string, totalLow: Option<real>, totalHigh: Option<real>, meals: nat)

  /** A `dataMap` value. */
  datatype Day = Day(low: real, high: real)

  /** `value || 0`. */
  function OrZero(v: Option<real>): real {
    v.GetOr(0.0)
  }

  function DayOf(row: HistoryRow): Day {
    Day(OrZero(row.totalLow), OrZero(row.totalHigh))
  }

  // ---------------------------------------------------------------------------
  // dataMap
  // ---------------------------------------------------------------------------

  /** The map after the rows have been visited in order, each one assigning its date. */
  function DataMapOf(history: seq<HistoryRow>): map<string, Day>
    decreases |history|
  {
    if history == [] then map[]
    else DataMapOf(history[..|history| - 1])[history[|history| - 1].date := DayOf(history[|history| - 1])]
  }

  /** The `forEach` that fills the map. */
  method BuildDataMap(history: seq<HistoryRow>) returns (dataMap: map<string, Day>)
    ensures dataMap == DataMapOf(history)
  {
    dataMap := map[];
    var i := 0;
    while i < |history|
      invariant 0 <= i <= |history|
      invariant dataMap == DataMapOf(history[..i])
    {
      assert history[..i + 1][..i] == history[..i];
      dataMap := dataMap[history[i].date := DayOf(history[i])];
      i := i + 1;
    }
    assert history[..i] == history;
  }

  /** The map has exactly the dates of the rows. */
  lemma {:induction false} DataMapKeys(history: seq<HistoryRow>)
    ensures forall d :: d in DataMapOf(history) <==> exists k :: 0 <= k < |history| && history[k].date == d
    decreases |history|
  {
    if history != [] {
      var front := history[..|history| - 1];
      DataMapKeys(front);
      assert forall k :: 0 <= k < |front| ==> front[k] == history[k];
    }
  }

  /**
   * A date holds the totals of its last row, missing totals as 0: a later row with
   * the same date overwrites an earlier one.
   */
  lemma {:induction false} DataMapLastRowWins(history: seq<HistoryRow>, k: nat)
    requires k < |history|
    requires forall j :: k < j < |history| ==> history[j].date != history[k].date
    ensures history[k].date in DataMapOf(history)
    ensures DataMapOf(history)[history[k].date] == Day(OrZero(history[k].totalLow), OrZero(history[k].totalHigh))
    decreases |history|
  {
    if k < |history| - 1 {
      var front := history[..|history| - 1];
      assert front[k] == history[k];
      DataMapLastRowWins(front, k);
    }
  }

  // ---------------------------------------------------------------------------
  // The seven-day series
  // ---------------------------------------------------------------------------

  /** A bar `[low, high]`, or None for `null`. */
  function EntryOf(dataMap: map<string, Day>, key: string): (e: Option<Day>)
    ensures e.None? <==> key !in dataMap || (dataMap[key].low <= 0.0 && dataMap[key].high <= 0.0)
    ensures e.Some? ==> e.value == dataMap[key]
  {
    if key in dataMap && (dataMap[key].low > 0.0 || dataMap[key].high > 0.0) then Some(dataMap[key]) else None
  }

  datatype Chart = Chart(labels: seq<string>, data: seq<Option<Day>>)

  /**
   * The countdown loop from six days ago to today. `keys[i]` and `dayNames[i]` are the
   * date key and the short weekday name of the day `i` days ago.
   */
  method ChartSeries(dataMap: map<string, Day>, keys: seq<string>, dayNames: seq<string>) returns (chart: Chart)
    requires |keys| == 7 && |dayNames| == 7
    ensures |chart.labels| == 7 && |chart.data| == 7
    ensures forall p :: 0 <= p < 7 ==> chart.labels[p] == dayNames[6 - p]
    ensures forall p :: 0 <= p < 7 ==> chart.data[p] == EntryOf(dataMap, keys[6 - p])
  {
    var labels: seq<string> := [];
    var chartData: seq<Option<Day>> := [];
    var i := 6;
    while i >= 0
      invariant -1 <= i <= 6 && |labels| == 6 - i && |chartData| == 6 - i
      invariant forall p :: 0 <= p < 6 - i ==> labels[p] == dayNames[6 - p]
      invariant forall p :: 0 <= p < 6 - i ==> chartData[p] == EntryOf(dataMap, keys[6 - p])
    {
      labels := labels + [dayNames[i]];
      chartData := chartData + [EntryOf(dataMap, keys[i])];
      i := i - 1;
    }
    chart := Chart(labels, chartData);
  }

  /** The chart built from a history answer. */
  function ChartOf(history: seq<HistoryRow>, keys: seq<string>, dayNames: seq<string>): (c: Chart)
    requires |keys| == 7 && |dayNames| == 7
    ensures |c.labels| == 7 && |c.data| == 7
  {
    Chart(seq(7, p requires 0 <= p < 7 => dayNames[6 - p]),
          seq(7, p requires 0 <= p < 7 => EntryOf(DataMapOf(history), keys[6 - p])))
  }

  /** `initCalorieChart` on a history answer: the map, then the series. */
  method InitCalorieChart(history: seq<HistoryRow>, keys: seq<string>, dayNames: seq<string>) returns (chart: Chart)
    requires |keys| == 7 && |dayNames| == 7
    ensures chart == ChartOf(history, keys, dayNames)
  {
    var dataMap := BuildDataMap(history);
    chart := ChartSeries(dataMap, keys, dayNames);
  }

  /**
   * A day's bar is null exactly when no row has its date or its last row has no
   * positive total; otherwise it is that row's low and high.
   */
  lemma ChartEntryOfDay(history: seq<HistoryRow>, keys: seq<string>, dayNames: seq<string>, p: nat)
    requires |keys| == 7 && |dayNames| == 7 && p < 7
    ensures (forall k :: 0 <= k < |history| ==> history[k].date != keys[6 - p]) ==>
              ChartOf(history, keys, dayNames).data[p].None?
    ensures forall k :: 0 <= k < |history| && history[k].date == keys[6 - p] &&
                        (forall j :: k < j < |history| ==> history[j].date != keys[6 - p]) ==>
              ChartOf(history, keys, dayNames).data[p] ==
                (if OrZero(history[k].totalLow) > 0.0 || OrZero(history[k].totalHigh) > 0.0
                 then Some(DayOf(history[k])) else None)
  {
    DataMapKeys(history);
    forall k | 0 <= k < |history| && history[k].date == keys[6 - p] &&
               (forall j :: k < j < |history| ==> history[j].date != keys[6 - p])
      ensures ChartOf(history, keys, dayNames).data[p] ==
                (if OrZero(history[k].totalLow) > 0.0 || OrZero(history[k].totalHigh) > 0.0
                 then Some(DayOf(history[k])) else None)
    {
      DataMapLastRowWins(history, k);
    }
  }

  // ---------------------------------------------------------------------------
  // The history list
  // ---------------------------------------------------------------------------

  /** One line of the list: the date, the totals (missing as 0) and the meal count text. */
  datatype DayLine = DayLine(date: string, low: real, high: real, mealsText: string)

  datatype HistoryView = EmptyState | LoadFailed | DayLines(lines: seq<DayLine>)

  /** "N meal" with an "s" unless N is 1. */
  function MealsText(meals: nat): (r: string)
    ensures r == NatToString(meals) + " meal" || r == NatToString(meals) + " meals"
    ensures r[|r| - 1] == 's' <==> meals != 1
  {
    NatToString(meals) + " meal" + (if meals != 1 then "s" else "")
  }

  function LineOf(row: HistoryRow): DayLine {
    DayLine(row.date, OrZero(row.totalLow), OrZero(row.totalHigh), MealsText(row.meals))
  }

  /** `loadHistoryList` on the fetch result. */
  function HistoryViewOf(history: Option<seq<HistoryRow>>): (v: HistoryView)
    ensures history.None? <==> v == LoadFailed
    ensures history == Some([]) <==> v == EmptyState
    ensures v.DayLines? ==> |v.lines| == |history.value|
    ensures v.DayLines? ==> forall k :: 0 <= k < |history.value| ==> v.lines[k] == LineOf(history.value[k])
  {
    if history.None? then LoadFailed
    else if |history.value| == 0 then EmptyState
    else DayLines(seq(|history.value|, k requires 0 <= k < |history.value| => LineOf(history.value[k])))
  }

  /** The count text for one meal is singular, and plural for none and for two. */
  lemma MealsTextExamples()
    ensures MealsText(1) == "1 meal" && MealsText(0) == "0 meals" && MealsText(2) == "2 meals"
  {
    assert NatToString(1) == "1" && NatToString(0) == "0" && NatToString(2) == "2";
  }

  // ---------------------------------------------------------------------------
  // The tab's module-level state
  // ---------------------------------------------------------------------------

  class ChartsTab {
    /** `calorieChart`. */
    var calorieChart: Option<Chart>
    /** `chartInitialized`. */
    var chartInitialized: bool
    /** What the history list shows; None before it is loaded. */
    var historyList: Option<HistoryView>

    constructor()
      ensures calorieChart.None? && !chartInitialized && historyList.None?
    {
      calorieChart := None;
      chartInitialized := false;
      historyList := None;
    }

    /**
     * A click on a tab button. The first click on the charts tab builds the chart
     * (kept as it was when its fetch fails), loads the list and sets the flag; any
     * other click leaves the tab's state alone.
     */
    method OpenTab(tabId: string, chartFetch: Option<seq<HistoryRow>>, listFetch: Option<seq<HistoryRow>>,
                   keys: seq<string>, dayNames: seq<string>)
      requires |keys| == 7 && |dayNames| == 7
      modifies this
      ensures tabId != "charts" || old(chartInitialized) ==>
                calorieChart == old(calorieChart) && chartInitialized == old(chartInitialized) && historyList == old(historyList)
      ensures tabId == "charts" && !old(chartInitialized) ==>
                && chartInitialized
                && calorieChart == (if chartFetch.Some? then Some(ChartOf(chartFetch.value, keys, dayNames)) else old(calorieChart))
                && historyList == Some(HistoryViewOf(listFetch))
    {
      if tabId == "charts" && !chartInitialized {
        if chartFetch.Some? {
          var chart := InitCalorieChart(chartFetch.value, keys, dayNames);
          calorieChart := Some(chart);
        }
        historyList := Some(HistoryViewOf(listFetch));
        chartInitialized := true;
      }
    }

    /**
     * `refreshChartsTab`, called when new data is added: once the tab has been opened the
     * chart is rebuilt (kept as it was when its fetch fails) and the list reloaded;
     * before that nothing happens.
     */
    method Refresh(chartFetch: Option<seq<HistoryRow>>, listFetch: Option<seq<HistoryRow>>,
                   keys: seq<string>, dayNames: seq<string>)
      requires |keys| == 7 && |dayNames| == 7
      modifies this
      ensures chartInitialized == old(chartInitialized)
      ensures !old(chartInitialized) ==> calorieChart == old(calorieChart) && historyList == old(historyList)
      ensures old(chartInitialized) ==>
                && calorieChart == (if chartFetch.Some? then Some(ChartOf(chartFetch.value, keys, dayNames)) else old(calorieChart))
                && historyList == Some(HistoryViewOf(listFetch))
    {
      if chartInitialized {
        if chartFetch.Some? {
          var chart := InitCalorieChart(chartFetch.value, keys, dayNames);
          calorieChart := Some(chart);
        }
        historyList := Some(HistoryViewOf(listFetch));
      }
    }
  }

  /**
   * Opening the charts tab twice builds the chart once: the second click changes
   * nothing (only a refresh rebuilds an opened tab).
   */
  method OpenChartsTwice(chartFetch1: Option<seq<HistoryRow>>, chartFetch2: Option<seq<HistoryRow>>,
                         listFetch1: Option<seq<HistoryRow>>, listFetch2: Option<seq<HistoryRow>>,
                         keys: seq<string>, dayNames: seq<string>)
      returns (chart: Option<Chart>, list: Option<HistoryView>)
    requires |keys| == 7 && |dayNames| == 7
    ensures chart == (if chartFetch1.Some? then Some(ChartOf(chartFetch1.value, keys, dayNames)) else None)
    ensures list == Some(HistoryViewOf(listFetch1))
  {
    var tab := new ChartsTab();
    tab.OpenTab("charts", chartFetch1, listFetch1, keys, dayNames);
    tab.OpenTab("charts", chartFetch2, listFetch2, keys, dayNames);
    chart, list := tab.calorieChart, tab.historyList;
  }

  /** A refresh before the tab is opened does nothing; after it, the chart and list show the refreshed data. */
  method RefreshBeforeAndAfterOpen(chartFetch1: Option<seq<HistoryRow>>, chartFetch2: Option<seq<HistoryRow>>,
                                  listFetch1: Option<seq<HistoryRow>>, listFetch2: Option<seq<HistoryRow>>,
                                  keys: seq<string>, dayNames: seq<string>)
      returns (chartBefore: Option<Chart>, chart: Option<Chart>, list: Option<HistoryView>)
    requires |keys| == 7 && |dayNames| == 7 && chartFetch2.Some?
    ensures chartBefore == None
    ensures chart == Some(ChartOf(chartFetch2.value, keys, dayNames))
    ensures list == Some(HistoryViewOf(listFetch2))
  {
    var tab := new ChartsTab();
    tab.Refresh(chartFetch1, listFetch1, keys, dayNames);
    chartBefore := tab.calorieChart;
    tab.OpenTab("charts", chartFetch1, listFetch1, keys, dayNames);
    tab.Refresh(chartFetch2, listFetch2, keys, dayNames);
    chart, list := tab.calorieChart, tab.historyList;
  }
}
