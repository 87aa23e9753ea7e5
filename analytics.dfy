/**
 * The user analytics page: the execution charts of the user's own logs, and
 * the success rate shown from the stats response.
 */
module Analytics {
  import opened Common
  import opened ExecutionCharts

  datatype Charts = Charts(daily: seq<DayBucket>, statusBreakdown: seq<Slice>, hourly: seq<HourCount>)

  /** `processLogsForCharts`: nothing without log data; otherwise the daily,
      status and hourly charts of the logs inside the window. */
  method ProcessLogsForCharts(logsData: Option<seq<Log>>, now: int, timeRange: nat,
                              dayKey: int -> string, hourOf: int -> Hour)
    returns (result: Charts)
    ensures logsData.None? ==> result == Charts([], [], [])
    ensures logsData.Some? ==>
      var filtered := FilterWindow(logsData.value, WindowStart(now, timeRange));
      && result.daily == DailySeries(filtered, DayKeys(now, timeRange, dayKey), dayKey)
      && result.statusBreakdown == StatusSlices(filtered)
      && result.hourly == HourlySeries(filtered, hourOf)
  {
    if logsData.None? {
      return Charts([], [], []);
    }
    var filtered := FilterWindow(logsData.value, WindowStart(now, timeRange));
    var daily := BuildDaily(filtered, now, timeRange, dayKey);
    var breakdown := BuildStatusBreakdown(filtered);
    var hourly := BuildHourly(filtered, hourOf);
    result := Charts(daily, breakdown, hourly);
  }

  /** A string rate is parsed (`parseFloat` is a parameter); a number is
      shown as it is; a missing rate is 0. */
  function ParseSuccessRate(rate: RateField, parseFloat: string -> real): (r: real)
    ensures rate.TextRate? ==> r == parseFloat(rate.text)
    ensures rate.NumberRate? ==> r == rate.value
    ensures rate.NoRate? ==> r == 0.0
  {
    match rate
    case TextRate(t) => parseFloat(t)
    case NumberRate(v) => v
    case NoRate => 0.0
  }
}
