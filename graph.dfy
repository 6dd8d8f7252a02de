/** The forecast-chart endpoint (`TemperatureGraph.get`, api.py:194-237):
    check the day count `n`, look the country up, ask the weather provider
    for `n * 8` three-hour slots, describe them as a line chart and have the
    chart service render it. */
module ForecastGraph {
  import opened Wrappers
  import opened Upstream
  import opened CountryInfo

  const MIN_DAYS: int := 1
  const MAX_DAYS: int := 5

  /** Forecast slots per day: one every three hours. */
  const SLOTS_PER_DAY: int := 8

  /** The check of `n` (api.py:196-201). `n` is the result of parsing the query
      parameter as an integer (None when it does not parse); on success the
      result is the slot count to ask the forecast for. */
  function ValidateDays(n: Option<int>): (r: Result<int, Error>)
    ensures n.None? ==> r == Failure(NotANumber)
    ensures n.Some? && (n.value < MIN_DAYS || n.value > MAX_DAYS) ==> r == Failure(DaysOutOfRange(n.value))
    ensures r.Success? <==> n.Some? && MIN_DAYS <= n.value <= MAX_DAYS
    ensures r.Success? ==> r.value == n.value * SLOTS_PER_DAY && 8 <= r.value <= 40
    ensures r.Failure? ==> StatusOf(r.error) == BAD_REQUEST
  {
    match n
    case None => Failure(NotANumber)
    case Some(days) =>
      if days < MIN_DAYS || days > MAX_DAYS then Failure(DaysOutOfRange(days))
      else Success(days * SLOTS_PER_DAY)
  }

  /** The series label of api.py:222. */
  function SeriesLabel(country: string): (title: string)
    ensures |title| >= |country| && title[|title| - |country|..] == country
  {
    "Temperature Forecast in " + country
  }

  /** The slot has both fields the chart loop reads. */
  predicate WellFormed(slot: ForecastSlot)
  {
    slot.dtTxt.Some? && slot.temp.Some?
  }

  /** `req` is the line chart of the forecast `slots` for `country`: one label
      and one data point per slot, in slot order, in a single series named
      after the country. Only a forecast whose slots are all well formed has
      a description. */
  predicate DescribesForecast(req: ChartRequest, country: string, slots: seq<ForecastSlot>)
  {
    && req.chartType == "line"
    && |req.labels| == |slots|
    && |req.datasets| == 1
    && req.datasets[0].seriesLabel == SeriesLabel(country)
    && req.datasets[0].fill == "false"
    && |req.datasets[0].data| == |slots|
    && (forall i :: 0 <= i < |slots| ==> WellFormed(slots[i]) && req.labels[i] == slots[i].dtTxt.value)
    && (forall i :: 0 <= i < |slots| ==> WellFormed(slots[i]) && req.datasets[0].data[i] == slots[i].temp.value)
  }

  /** The chart description of a forecast is unique. */
  lemma DescribesForecastUnique(r1: ChartRequest, r2: ChartRequest, country: string, slots: seq<ForecastSlot>)
    requires DescribesForecast(r1, country, slots) && DescribesForecast(r2, country, slots)
    ensures r1 == r2
  {
    assert r1.labels == r2.labels;
    assert r1.datasets[0].data == r2.datasets[0].data;
    assert r1.datasets == [r1.datasets[0]] && r2.datasets == [r2.datasets[0]];
  }

  /** The loop of api.py:211-215 and the description built from it
      (api.py:216-228). A slot lacking `dt_txt` or `main.temp` makes the loop
      raise. */
  method BuildChart(country: string, slots: seq<ForecastSlot>) returns (r: Result<ChartRequest, Error>)
    ensures r.Success? <==> forall i :: 0 <= i < |slots| ==> WellFormed(slots[i])
    ensures r.Success? ==> DescribesForecast(r.value, country, slots)
    ensures r.Failure? ==> r.error == Unhandled
  {
    var timeslots: seq<string> := [];
    var temperatures: seq<real> := [];
    for i := 0 to |slots|
      invariant |timeslots| == i && |temperatures| == i
      invariant forall k :: 0 <= k < i ==> WellFormed(slots[k])
      invariant forall k :: 0 <= k < i ==> timeslots[k] == slots[k].dtTxt.value
      invariant forall k :: 0 <= k < i ==> temperatures[k] == slots[k].temp.value
    {
      if !WellFormed(slots[i]) {
        return Failure(Unhandled);
      }
      timeslots := timeslots + [slots[i].dtTxt.value];
      temperatures := temperatures + [slots[i].temp.value];
    }
    r := Success(ChartRequest("line", timeslots, [Dataset(SeriesLabel(country), temperatures, "false")]));
  }

  /** The forecast body has a `list` whose slots all carry both fields. */
  predicate ForecastReadable(body: Option<seq<ForecastSlot>>)
  {
    body.Some? && forall i :: 0 <= i < |body.value| ==> WellFormed(body.value[i])
  }

  /** `TemperatureGraph.get`. A bad `n` is answered with a 400 before any
      upstream call; otherwise the directory, the forecast and the chart
      service are called in that order, each only if the one before
      succeeded, and the first failure is the answer. */
  method TemperatureGraph(country: string, n: Option<int>, directory: Directory, forecast: Forecast, chart: ChartService)
    returns (reply: Reply<seq<bv8>>)
    ensures ValidateDays(n).Failure? ==> reply == Reply(Failure(ValidateDays(n).error), [])
    ensures ValidateDays(n).Success? ==>
              |reply.calls| >= 1 && reply.calls[0] == DirectoryCall(FullName(country))
    ensures ValidateDays(n).Success? && Details(country, directory).result.Failure? ==>
              reply == Reply(Failure(Details(country, directory).result.error), [DirectoryCall(FullName(country))])
    ensures ValidateDays(n).Success? && Details(country, directory).result.Success? ==>
              var d := Details(country, directory).result.value;
              var count := n.value * SLOTS_PER_DAY;
              var resp := forecast(d.latitude, d.longitude, count);
              && |reply.calls| >= 2
              && reply.calls[1] == ForecastCall(d.latitude, d.longitude, count)
              && (resp.status != OK ==> reply == Reply(Failure(Aborted(resp.status)), reply.calls[..2]))
              && (resp.status == OK && !ForecastReadable(resp.body) ==>
                    reply == Reply(Failure(Unhandled), reply.calls[..2]))
              && (resp.status == OK && ForecastReadable(resp.body) ==>
                    && |reply.calls| == 3
                    && reply.calls[2].ChartCall?
                    && DescribesForecast(reply.calls[2].request, country, resp.body.value)
                    && reply.result == Checked(chart(reply.calls[2].request)))
    ensures forall c :: c in reply.calls && c.ForecastCall? ==> 8 <= c.count <= 40 && c.count % SLOTS_PER_DAY == 0
  {
    match ValidateDays(n)
    case Failure(e) =>
      return Reply(Failure(e), []);
    case Success(count) =>
      var details := Details(country, directory);
      match details.result
      case Failure(e) =>
        return Reply(Failure(e), details.calls);
      case Success(d) =>
        var calls := details.calls + [ForecastCall(d.latitude, d.longitude, count)];
        var forecastResponse := forecast(d.latitude, d.longitude, count);
        var checked: Result<Option<seq<ForecastSlot>>, Error> := Checked(forecastResponse);
        match checked
        case Failure(e) =>
          return Reply(Failure(e), calls);
        case Success(None) =>
          return Reply(Failure(Unhandled), calls);
        case Success(Some(slots)) =>
          var built := BuildChart(country, slots);
          match built
          case Failure(e) =>
            return Reply(Failure(e), calls);
          case Success(req) =>
            calls := calls + [ChartCall(req)];
            return Reply(Checked(chart(req)), calls);
  }
}
