/** The three upstream services as the API sees them: the country directory,
    the weather provider and the chart renderer. Each service is a function
    from the request the API sends to the response it gets back (a status code
    and an already-decoded body); network I/O is not modelled. Every endpoint
    that calls an upstream service answers with a `Reply`, which also records
    the upstream calls it made, in order. */
module Upstream {
  import opened Wrappers

  /** The only status an upstream answer is accepted with. */
  const OK: int := 200

  /** The status Flask answers with for a bad `n` on the graph endpoint. */
  const BAD_REQUEST: int := 400

  /** The status Flask answers with when a handler raises an uncaught exception. */
  const INTERNAL_SERVER_ERROR: int := 500

  datatype Response<T> = Response(status: int, body: T)

  /** The `name` object of a directory record; `official` may be absent. */
  datatype NameInfo = NameInfo(official: Option<string>)

  /** The `capitalInfo` object of a directory record. */
  datatype CapitalInfo = CapitalInfo(latlng: Option<seq<real>>)

  /** One record of the directory service's JSON array. Every field may be
      missing from the decoded JSON. */
  datatype CountryRecord = CountryRecord(
    name: Option<NameInfo>,
    capitalInfo: Option<CapitalInfo>,
    population: Option<int>,
    area: Option<real>)
  {
    /** The official name, when the record has both `name` and `name.official`. */
    function Official(): Option<string>
    {
      match name
      case None => None
      case Some(info) => info.official
    }
  }

  /** A `{name}` record, the shape of the country and favorites listings. */
  datatype NameRecord = NameRecord(name: string)

  /** What the API asks the directory service for. */
  datatype DirectoryQuery =
    | AllCountries               // /all?fields=name
    | Region(continent: string)  // /region/{continent}?fields=name
    | FullName(country: string)  // /name/{country}?fullText=true

  /** One 3-hour slot of the forecast list: `dt_txt` and `main.temp`, either
      of which may be missing from the decoded JSON. */
  datatype ForecastSlot = ForecastSlot(dtTxt: Option<string>, temp: Option<real>)

  /** One series of the chart description. */
  datatype Dataset = Dataset(seriesLabel: string, data: seq<real>, fill: string)

  /** The chart description sent to the rendering service. */
  datatype ChartRequest = ChartRequest(chartType: string, labels: seq<string>, datasets: seq<Dataset>)

  type Directory = DirectoryQuery -> Response<seq<CountryRecord>>

  /** Current conditions at (latitude, longitude); the body is `main.temp`,
      None when the decoded JSON lacks it. */
  type CurrentWeather = (real, real) -> Response<Option<real>>

  /** Forecast at (latitude, longitude) for `count` slots; the body is `list`,
      None when the decoded JSON lacks it. */
  type Forecast = (real, real, int) -> Response<Option<seq<ForecastSlot>>>

  /** The chart renderer; the body is the image bytes. */
  type ChartService = ChartRequest -> Response<seq<bv8>>

  /** One upstream request, as recorded in a reply's call log. */
  datatype Call =
    | DirectoryCall(query: DirectoryQuery)
    | CurrentWeatherCall(lat: real, lon: real)
    | ForecastCall(lat: real, lon: real, count: int)
    | ChartCall(request: ChartRequest)

  /** Why an endpoint did not answer with its success value. */
  datatype Error =
    | Aborted(status: int)     // an upstream answered with a non-200 status
    | NotANumber               // the graph's `n` does not parse as an integer
    | DaysOutOfRange(days: int) // the graph's `n` is an integer outside 1..5
    | Unhandled                // the handler raised (an index or key that is not there)

  datatype Reply<T> = Reply(result: Result<T, Error>, calls: seq<Call>)

  /** The status the handler answers or aborts with for an error. */
  function StatusOf(e: Error): (code: int)
    ensures e.Aborted? ==> code == e.status
    ensures e.NotANumber? || e.DaysOutOfRange? ==> code == BAD_REQUEST
    ensures e.Unhandled? ==> code == INTERNAL_SERVER_ERROR
  {
    match e
    case Aborted(status) => status
    case NotANumber => BAD_REQUEST
    case DaysOutOfRange(_) => BAD_REQUEST
    case Unhandled => INTERNAL_SERVER_ERROR
  }

  /** The check every handler makes after an upstream call: a non-200 answer
      aborts the request with that same status, otherwise the body is used. */
  function Checked<T>(resp: Response<T>): (r: Result<T, Error>)
    ensures r.Success? <==> resp.status == OK
    ensures r.Success? ==> r.value == resp.body
    ensures r.Failure? ==> r.error == Aborted(resp.status) && StatusOf(r.error) == resp.status
  {
    if resp.status != OK then Failure(Aborted(resp.status)) else Success(resp.body)
  }
}
