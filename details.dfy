/** Looking a country up by its name in the directory (api.py): the details
    endpoint, the current-temperature endpoint built on it, and the canonical
    official name the favorites endpoints store. The source indexes the
    decoded JSON without checking it; where that indexing fails the handler
    raises and Flask answers 500, which the model reports as `Unhandled`. */
module CountryInfo {
  import opened Wrappers
  import opened Upstream

  /** The details endpoint's answer (api.py:74-79). */
  datatype CountryDetails = CountryDetails(latitude: real, longitude: real, population: int, area: real)

  /** The fields `Details.get` reads from a record are all there, and
      `capitalInfo.latlng` has at least two entries. */
  predicate HasDetails(info: CountryRecord)
  {
    && info.capitalInfo.Some?
    && info.capitalInfo.value.latlng.Some?
    && |info.capitalInfo.value.latlng.value| >= 2
    && info.population.Some?
    && info.area.Some?
  }

  /** The extraction of api.py:73-79 from the directory's match list: the
      first record is used, the rest are ignored. */
  function DetailsOf(records: seq<CountryRecord>): (r: Result<CountryDetails, Error>)
    ensures r.Success? <==> |records| > 0 && HasDetails(records[0])
    ensures r.Failure? ==> r.error == Unhandled
    ensures r.Success? ==>
              var latlng := records[0].capitalInfo.value.latlng.value;
              && r.value.latitude == latlng[0]
              && r.value.longitude == latlng[1]
              && r.value.population == records[0].population.value
              && r.value.area == records[0].area.value
  {
    if |records| == 0 then Failure(Unhandled)
    else
      var info := records[0];
      if !HasDetails(info) then Failure(Unhandled)
      else
        var latlng := info.capitalInfo.value.latlng.value;
        Success(CountryDetails(latlng[0], latlng[1], info.population.value, info.area.value))
  }

  /** A directory record that carries exactly the given details. */
  function RecordOf(d: CountryDetails, name: Option<NameInfo>): CountryRecord
  {
    CountryRecord(name, Some(CapitalInfo(Some([d.latitude, d.longitude]))), Some(d.population), Some(d.area))
  }

  /** The extraction reads back exactly the details a first record carries,
      whatever records follow it. */
  lemma DetailsRoundTrip(d: CountryDetails, name: Option<NameInfo>, rest: seq<CountryRecord>)
    ensures DetailsOf([RecordOf(d, name)] + rest) == Success(d)
  {
  }

  /** The canonical name of api.py:126 and api.py:153: `name.official` of the
      first record. */
  function OfficialNameOf(records: seq<CountryRecord>): (r: Result<string, Error>)
    ensures r.Success? <==> |records| > 0 && records[0].Official().Some?
    ensures r.Success? ==> r.value == records[0].Official().value
    ensures r.Failure? ==> r.error == Unhandled
  {
    if |records| == 0 then Failure(Unhandled)
    else
      match records[0].Official()
      case None => Failure(Unhandled)
      case Some(official) => Success(official)
  }

  /** Runs one full-text directory lookup of `country` and interprets the
      match list with `interpret`, unless the directory answers non-200. */
  function Lookup<T>(country: string, directory: Directory, interpret: seq<CountryRecord> -> Result<T, Error>): (reply: Reply<T>)
    ensures reply.calls == [DirectoryCall(FullName(country))]
    ensures var resp := directory(FullName(country));
            && (resp.status != OK ==> reply.result == Failure(Aborted(resp.status)))
            && (resp.status == OK ==> reply.result == interpret(resp.body))
  {
    var response := directory(FullName(country));
    var result := match Checked(response)
      case Failure(e) => Failure(e)
      case Success(records) => interpret(records);
    Reply(result, [DirectoryCall(FullName(country))])
  }

  /** `Details.get` (api.py:67-80). */
  function Details(country: string, directory: Directory): (reply: Reply<CountryDetails>)
    ensures reply.calls == [DirectoryCall(FullName(country))]
    ensures var resp := directory(FullName(country));
            && (resp.status != OK ==> reply.result == Failure(Aborted(resp.status)))
            && (resp.status == OK ==> reply.result == DetailsOf(resp.body))
  {
    Lookup(country, directory, DetailsOf)
  }

  /** The canonical-name lookup with which `Favorite.post` and
      `Unfavorite.delete` begin (api.py:122-126, api.py:149-153). */
  function CanonicalName(country: string, directory: Directory): (reply: Reply<string>)
    ensures reply.calls == [DirectoryCall(FullName(country))]
    ensures var resp := directory(FullName(country));
            && (resp.status != OK ==> reply.result == Failure(Aborted(resp.status)))
            && (resp.status == OK ==> reply.result == OfficialNameOf(resp.body))
  {
    Lookup(country, directory, OfficialNameOf)
  }

  /** `Temperature.get` (api.py:96-105): the details lookup, then, only if it
      succeeded, one current-weather call at the capital's coordinates. */
  function Temperature(country: string, directory: Directory, weather: CurrentWeather): (reply: Reply<real>)
    ensures var details := Details(country, directory);
            match details.result
            case Failure(e) =>
              reply == Reply(Failure(e), [DirectoryCall(FullName(country))])
            case Success(d) =>
              var resp := weather(d.latitude, d.longitude);
              && reply.calls == [DirectoryCall(FullName(country)), CurrentWeatherCall(d.latitude, d.longitude)]
              && (resp.status != OK ==> reply.result == Failure(Aborted(resp.status)))
              && (resp.status == OK && resp.body.None? ==> reply.result == Failure(Unhandled))
              && (resp.status == OK && resp.body.Some? ==> reply.result == Success(resp.body.value))
  {
    var details := Details(country, directory);
    match details.result
    case Failure(e) => Reply(Failure(e), details.calls)
    case Success(d) =>
      var checked: Result<Option<real>, Error> := Checked(weather(d.latitude, d.longitude));
      var result: Result<real, Error> := match checked
        case Failure(e) => Failure(e)
        case Success(None) => Failure(Unhandled)
        case Success(Some(temp)) => Success(temp);
      Reply(result, details.calls + [CurrentWeatherCall(d.latitude, d.longitude)])
  }

  /** A directory failure for a name surfaces with the same status, and no
      further upstream call, from every endpoint that looks the name up. */
  lemma DirectoryFailurePropagates(country: string, directory: Directory, weather: CurrentWeather)
    requires directory(FullName(country)).status != OK
    ensures var status := directory(FullName(country)).status;
            && Details(country, directory) == Reply(Failure(Aborted(status)), [DirectoryCall(FullName(country))])
            && Temperature(country, directory, weather) == Reply(Failure(Aborted(status)), [DirectoryCall(FullName(country))])
            && CanonicalName(country, directory) == Reply(Failure(Aborted(status)), [DirectoryCall(FullName(country))])
  {
  }
}
