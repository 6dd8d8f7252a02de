/** The countries endpoint (`Countries.get`, api.py): ask the directory for
    all countries or for one region, then keep the official name of every
    record that has one, in the order the directory gave them. */
module CountryList {
  import opened Wrappers
  import opened Upstream

  /** The listing entry one record contributes: its official name, or nothing. */
  function EntryOf(record: CountryRecord): seq<NameRecord>
  {
    match record.Official()
    case None => []
    case Some(official) => [NameRecord(official)]
  }

  /** Specification of the filter: the listing of a sequence of records,
      defined by its last record so that it follows the source's loop. */
  function OfficialNames(records: seq<CountryRecord>): seq<NameRecord>
  {
    if records == [] then []
    else OfficialNames(records[..|records| - 1]) + EntryOf(records[|records| - 1])
  }

  /** The filter loop of api.py:45-49. */
  method FilterOfficialNames(countries: seq<CountryRecord>) returns (names: seq<NameRecord>)
    ensures names == OfficialNames(countries)
  {
    names := [];
    for i := 0 to |countries|
      invariant names == OfficialNames(countries[..i])
    {
      assert countries[..i + 1][..i] == countries[..i];
      var item := countries[i];
      if item.name.None? {
        continue;
      }
      if item.name.value.official.None? {
        continue;
      }
      names := names + [NameRecord(item.name.value.official.value)];
    }
    assert countries[..|countries|] == countries;
  }

  /** The directory query for an optional continent. */
  function CountriesQuery(continent: Option<string>): DirectoryQuery
  {
    match continent
    case None => AllCountries
    case Some(c) => Region(c)
  }

  /** `Countries.get`: one directory call; a non-200 status is passed on,
      otherwise the answer is the filtered listing. */
  method Countries(continent: Option<string>, directory: Directory) returns (reply: Reply<seq<NameRecord>>)
    ensures continent.None? ==> reply.calls == [DirectoryCall(AllCountries)]
    ensures continent.Some? ==> reply.calls == [DirectoryCall(Region(continent.value))]
    ensures var resp := directory(CountriesQuery(continent));
            && (resp.status != OK ==> reply.result == Failure(Aborted(resp.status)))
            && (resp.status == OK ==> reply.result == Success(OfficialNames(resp.body)))
  {
    var query := CountriesQuery(continent);
    var response := directory(query);
    match Checked(response)
    case Failure(e) =>
      reply := Reply(Failure(e), [DirectoryCall(query)]);
    case Success(countries) =>
      var names := FilterOfficialNames(countries);
      reply := Reply(Success(names), [DirectoryCall(query)]);
  }

  /** The listing of a concatenation is the concatenation of the listings:
      entries keep their input order and no entry affects another. */
  lemma {:induction false} OfficialNamesAppend(a: seq<CountryRecord>, b: seq<CountryRecord>)
    ensures OfficialNames(a + b) == OfficialNames(a) + OfficialNames(b)
    decreases |b|
  {
    if b == [] {
      assert a + b == a;
    } else {
      var k := |b| - 1;
      assert (a + b)[..|a + b| - 1] == a + b[..k];
      assert (a + b)[|a + b| - 1] == b[k];
      OfficialNamesAppend(a, b[..k]);
    }
  }

  /** A single record contributes its official name when it has one, and
      nothing otherwise. */
  lemma OfficialNamesSingle(r: CountryRecord)
    ensures r.name.Some? && r.name.value.official.Some? ==> OfficialNames([r]) == [NameRecord(r.name.value.official.value)]
    ensures r.name.None? || r.name.value.official.None? ==> OfficialNames([r]) == []
  {
  }

  /** A name is listed exactly when some record carries it as its official name. */
  lemma {:induction false} OfficialNamesMembership(records: seq<CountryRecord>, n: string)
    ensures NameRecord(n) in OfficialNames(records) <==>
            exists i :: 0 <= i < |records| && records[i].Official() == Some(n)
    decreases |records|
  {
    if records != [] {
      var k := |records| - 1;
      var prefix := records[..k];
      OfficialNamesMembership(prefix, n);
      if exists i :: 0 <= i < |prefix| && prefix[i].Official() == Some(n) {
        var i :| 0 <= i < |prefix| && prefix[i].Official() == Some(n);
        assert records[i] == prefix[i];
      }
      if exists i :: 0 <= i < |records| && records[i].Official() == Some(n) {
        var i :| 0 <= i < |records| && records[i].Official() == Some(n);
        if i < k {
          assert prefix[i] == records[i];
        }
      }
    }
  }

  /** Every input record yields at most one listing entry. */
  lemma {:induction false} OfficialNamesLength(records: seq<CountryRecord>)
    ensures |OfficialNames(records)| <= |records|
    decreases |records|
  {
    if records != [] {
      OfficialNamesLength(records[..|records| - 1]);
    }
  }
}
