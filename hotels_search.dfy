/** The request signatures of the hotel search script
    (`HotelsSearcher` in tp-hotels-search/tp-hotels-search.py).

    The configuration is the dictionary read from `config.json`, with every
    value already rendered as the text `str.format` puts into a signature.
    A signature is a `:`-joined list of configuration values headed by the
    API token and the affiliate marker; the digest sent to the server is
    the MD5 of that string. MD5 is not modelled: the searcher is given the
    hash function `md5` and records `md5(s)` for the string `s` it built. */
module HotelsSearch {
  import opened Wrappers
  import opened Dict
  import opened Text
  import opened StringOrder

  /** The ways a search can name its location. */
  datatype Location = Iata | CityId | HotelId
  {
    /** The configuration key that holds the location. */
    function Key(): string
    {
      match this
      case Iata => "iata"
      case CityId => "city_id"
      case HotelId => "hotel_id"
    }

    /** The query parameter of the start request that carries the location
        (the script's `location_types_map`). */
    function UrlName(): string
    {
      match this
      case Iata => "iata"
      case CityId => "cityId"
      case HotelId => "hotelId"
    }
  }

  /** The order in which the configuration is searched for a location. */
  const Precedence: seq<Location> := [Iata, CityId, HotelId]

  datatype Error =
    | NoLocation              // no location key: the script exits
    | MissingKey(key: string) // a configuration key is absent: `KeyError`

  /** The location whose key is `key`, if any. */
  function LocationOf(key: string): (r: Option<Location>)
    ensures r.Some? ==> r.value.Key() == key
    ensures r.None? ==> forall l: Location :: l.Key() != key
  {
    if key == "iata" then Some(Iata)
    else if key == "city_id" then Some(CityId)
    else if key == "hotel_id" then Some(HotelId)
    else None
  }

  /** The location a configuration names: the first one in `Precedence`
      whose key is present. */
  function ChooseLocation(config: map<string, string>): (r: Option<Location>)
    ensures r.None? <==> forall i :: 0 <= i < |Precedence| ==> Precedence[i].Key() !in config
    ensures r.Some? ==> exists i :: (0 <= i < |Precedence| && Precedence[i] == r.value
      && r.value.Key() in config
      && forall j :: 0 <= j < i ==> Precedence[j].Key() !in config)
  {
    if "iata" in config then
      assert Precedence[0] == Iata;
      Some(Iata)
    else if "city_id" in config then
      assert Precedence[1] == CityId;
      Some(CityId)
    else if "hotel_id" in config then
      assert Precedence[2] == HotelId;
      Some(HotelId)
    else None
  }

  /** A configuration as `get_config` leaves it: `location` holds the key
      of a location that is present. */
  predicate ValidConfig(config: map<string, string>)
  {
    "location" in config && LocationOf(config["location"]).Some? && config["location"] in config
  }

  /** The location a valid configuration names. */
  function ConfigLocation(config: map<string, string>): (l: Location)
    requires ValidConfig(config)
    ensures l.Key() == config["location"]
  {
    LocationOf(config["location"]).value
  }

  /** `get_config` on the dictionary loaded from the configuration file:
      records the chosen location under `location`, or fails (the script
      exits) when none of the location keys is present. */
  function GetConfig(loaded: map<string, string>): (r: Result<map<string, string>, Error>)
    ensures r.Failure? <==> ChooseLocation(loaded).None?
    ensures r.Failure? ==> r.error == NoLocation
    ensures r.Success? ==> ValidConfig(r.value) && ConfigLocation(r.value) == ChooseLocation(loaded).value
    ensures r.Success? ==> r.value.Keys == loaded.Keys + {"location"}
    ensures r.Success? ==> forall k :: k in loaded && k != "location" ==> r.value[k] == loaded[k]
  {
    match ChooseLocation(loaded)
    case None => Failure(NoLocation)
    case Some(l) => Success(loaded["location" := l.Key()])
  }

  /** The names of the configuration values the start signature covers, as
      the script lists them: nine fixed names and the location key
      (`config["location"]`). */
  function InitSignatureParamNames(location: string): seq<string>
  {
    FixedParamNames + [location]
  }

  const FixedParamNames: seq<string> :=
    ["lang", "currency", "wait_for_results", "check_in", "check_out",
     "adults_count", "children_count", "child_age", "customer_ip"]

  /** The same names in the order the signature takes them: `sorted()`. */
  function SortedParamNames(location: string): (r: seq<string>)
    ensures |r| == 10
  {
    SortLength(InitSignatureParamNames(location));
    Sort(InitSignatureParamNames(location))
  }

  /** The signature takes the ten names in lexicographic order, each
      exactly as often as the script lists it. */
  lemma SortedParamNamesSorted(location: string)
    ensures Sorted(SortedParamNames(location))
    ensures multiset(SortedParamNames(location)) == multiset(InitSignatureParamNames(location))
  {
    SortCorrect(InitSignatureParamNames(location));
  }

  /** The keys the start signature reads, in the order it reads them. */
  function InitSignatureKeys(location: string): seq<string>
  {
    SortedParamNames(location) + ["token", "marker"]
  }

  /** `get_init_signature_params`: the configuration values under
      `SortedParamNames`, in that order. */
  function InitSignatureParams(config: map<string, string>): (r: Result<seq<string>, Error>)
    requires ValidConfig(config)
    ensures r.Failure? <==> !HasAll(SortedParamNames(config["location"]), config)
    ensures r.Failure? ==> r.error.MissingKey?
    ensures r.Failure? ==> FirstMissing(SortedParamNames(config["location"]), config) == Some(r.error.key)
    ensures r.Success? ==> |r.value| == 10
    ensures r.Success? ==> forall i :: 0 <= i < 10 ==> r.value[i] == config[SortedParamNames(config["location"])[i]]
  {
    var names := SortedParamNames(config["location"]);
    match LookupAll(names, config)
    case Failure(k) => Failure(MissingKey(k))
    case Success(vs) => Success(vs)
  }

  /** The start signature string: token, marker and the sorted parameter
      values, joined by `:`. */
  function InitSignatureString(config: map<string, string>): (r: Result<string, Error>)
    requires ValidConfig(config)
  {
    match InitSignatureParams(config)
    case Failure(e) => Failure(e)
    case Success(vs) =>
      if "token" !in config then Failure(MissingKey("token"))
      else if "marker" !in config then Failure(MissingKey("marker"))
      else Success(Join([config["token"], config["marker"]] + vs, ':'))
  }

  /** The start signature fails exactly when a key it reads is absent, and
      then names the first absent key in the order the script reads them:
      the sorted parameters, then `token`, then `marker`. */
  lemma InitSignatureFailure(config: map<string, string>)
    requires ValidConfig(config)
    ensures InitSignatureString(config).Failure? <==> !HasAll(InitSignatureKeys(config["location"]), config)
    ensures InitSignatureString(config).Failure? ==>
      InitSignatureString(config).error.MissingKey? &&
      FirstMissing(InitSignatureKeys(config["location"]), config) == Some(InitSignatureString(config).error.key)
  {
    var names := SortedParamNames(config["location"]);
    FirstMissingConcat(names, ["token", "marker"], config);
    assert HasAll(InitSignatureKeys(config["location"]), config) <==>
           HasAll(names, config) && "token" in config && "marker" in config;
  }

  /** The keys of the twelve fields of the start signature, in order. */
  function InitFieldKeys(l: Location): seq<string>
  {
    ["token", "marker"] + SignatureOrder(l)
  }

  /** The start signature has twelve `:`-separated fields: the token, the
      marker and the ten parameters in sorted order; when no value holds a
      `:`, splitting the string gives back exactly those values. */
  lemma InitSignatureFields(config: map<string, string>)
    requires ValidConfig(config)
    requires HasAll(InitFieldKeys(ConfigLocation(config)), config)
    requires forall i :: 0 <= i < 12 ==> ':' !in config[InitFieldKeys(ConfigLocation(config))[i]]
    ensures InitSignatureString(config).Success?
    ensures var fields := Split(InitSignatureString(config).value, ':');
      |fields| == 12 && forall i :: 0 <= i < 12 ==> fields[i] == config[InitFieldKeys(ConfigLocation(config))[i]]
    ensures Count(InitSignatureString(config).value, ':') == 11
  {
    var keys := InitFieldKeys(ConfigLocation(config));
    var fields := InitSignatureValues(config);
    assert NoSep(fields, ':');
    SplitJoin(fields, ':');
    JoinSeparatorCount(fields, ':');
  }

  /** The start signature string joins the values under `InitFieldKeys`. */
  lemma InitSignatureValues(config: map<string, string>) returns (fields: seq<string>)
    requires ValidConfig(config)
    requires HasAll(InitFieldKeys(ConfigLocation(config)), config)
    ensures InitSignatureString(config) == Success(Join(fields, ':'))
    ensures |fields| == 12
    ensures forall i :: 0 <= i < 12 ==> fields[i] == config[InitFieldKeys(ConfigLocation(config))[i]]
  {
    var l := ConfigLocation(config);
    var order := SignatureOrder(l);
    SortedParamNamesOrder(l);
    assert SortedParamNames(config["location"]) == order;
    LookupAllConcat(["token", "marker"], order, config);
    var vs := LookupAll(order, config).value;
    fields := [config["token"], config["marker"]] + vs;
    assert LookupAll(["token", "marker"], config).value == [config["token"], config["marker"]];
    assert fields == LookupAll(InitFieldKeys(l), config).value;
  }

  /** `get_results_signature_params`: fixed paging and sorting values and
      the current search id. */
  function ResultsSignatureParams(searchId: string): (r: map<string, string>)
    ensures r.Keys == {"limit", "offset", "rooms_count", "search_id", "sort_asc", "sort_by"}
    ensures r["limit"] == "0" && r["offset"] == "0" && r["rooms_count"] == "0"
    ensures r["search_id"] == searchId
    ensures r["sort_asc"] == "1" && r["sort_by"] == "price"
  {
    map["limit" := "0", "offset" := "0", "rooms_count" := "0", "search_id" := searchId,
        "sort_asc" := "1", "sort_by" := "price"]
  }

  /** The results signature string: token, marker and the results
      parameters in the script's fixed order, joined by `:`. */
  function ResultsSignatureString(config: map<string, string>, searchId: string): (r: Result<string, Error>)
    ensures r.Failure? <==> "token" !in config || "marker" !in config
    ensures r.Failure? ==> r.error == MissingKey(if "token" !in config then "token" else "marker")
  {
    var p := ResultsSignatureParams(searchId);
    if "token" !in config then Failure(MissingKey("token"))
    else if "marker" !in config then Failure(MissingKey("marker"))
    else Success(Join([config["token"], config["marker"], p["limit"], p["offset"], p["rooms_count"],
                       p["search_id"], p["sort_asc"], p["sort_by"]], ':'))
  }

  /** The results signature has eight fields: token, marker, limit 0,
      offset 0, rooms count 0, the search id, ascending order 1 and the
      sort key `price`; it depends on nothing else. */
  lemma ResultsSignatureFields(config: map<string, string>, searchId: string)
    requires "token" in config && "marker" in config
    requires ':' !in config["token"] && ':' !in config["marker"] && ':' !in searchId
    ensures ResultsSignatureString(config, searchId).Success?
    ensures Split(ResultsSignatureString(config, searchId).value, ':') ==
      [config["token"], config["marker"], "0", "0", "0", searchId, "1", "price"]
    ensures Count(ResultsSignatureString(config, searchId).value, ':') == 7
  {
    var fields := [config["token"], config["marker"], "0", "0", "0", searchId, "1", "price"];
    assert NoSep(fields, ':');
    SplitJoin(fields, ':');
    JoinSeparatorCount(fields, ':');
  }

  /** The location part of the start request: the query parameter name
      `location_types_map` gives the configured location, and its value. */
  function LocationParam(config: map<string, string>): (string, string)
    requires ValidConfig(config)
  {
    (ConfigLocation(config).UrlName(), config[config["location"]])
  }

  /** For a searcher built from a loaded configuration, the start request
      names the location chosen by precedence (`iata`, `cityId` or
      `hotelId`) and carries the value the configuration file gives it. */
  lemma LocationParamChosen(loaded: map<string, string>, ip: string)
    requires ChooseLocation(loaded).Some?
    ensures GetConfig(loaded).Success? && ValidConfig(GetConfig(loaded).value["customer_ip" := ip])
    ensures var l := ChooseLocation(loaded).value;
      LocationParam(GetConfig(loaded).value["customer_ip" := ip]) == (l.UrlName(), loaded[l.Key()])
  {
    var l := ChooseLocation(loaded).value;
    assert l.Key() != "customer_ip" && l.Key() != "location";
  }

  /** What `get_init_url` puts into the start request beyond the fixed
      configuration values: the location parameter and the signature. */
  datatype InitQuery = InitQuery(locationName: string, locationValue: string, signature: string)

  /** The state of one hotel search: the configuration, the record of the
      signatures built (`search_params`) and the server's search id. */
  class HotelsSearcher {
    var config: map<string, string>
    var searchParams: map<string, string>
    var searchId: string
    const md5: string -> string

    ghost predicate Valid()
      reads this
    {
      ValidConfig(config)
    }

    /** The searcher once `get_config` has succeeded. */
    constructor (config: map<string, string>, md5: string -> string)
      requires ValidConfig(config)
      ensures Valid() && this.config == config && this.md5 == md5
      ensures searchParams == map[] && searchId == ""
    {
      this.config := config;
      this.md5 := md5;
      searchParams := map[];
      searchId := "";
    }

    /** `__init__`: loads the configuration (or exits when it names no
        location) and records the caller's address as `customer_ip`. */
    static method Create(loaded: map<string, string>, ip: string, md5: string -> string)
      returns (r: Result<HotelsSearcher, Error>)
      ensures r.Failure? <==> ChooseLocation(loaded).None?
      ensures r.Failure? ==> r.error == NoLocation
      ensures r.Success? ==> fresh(r.value) && r.value.Valid() && r.value.md5 == md5
      ensures r.Success? ==> r.value.config == GetConfig(loaded).value["customer_ip" := ip]
      ensures r.Success? ==> r.value.searchParams == map[] && r.value.searchId == ""
    {
      var loadedConfig := GetConfig(loaded);
      if loadedConfig.Failure? {
        return Failure(loadedConfig.error);
      }
      var searcher := new HotelsSearcher(loadedConfig.value["customer_ip" := ip], md5);
      return Success(searcher);
    }

    /** `get_init_signature_params`: looks the sorted names up one by one. */
    method GetInitSignatureParams() returns (r: Result<seq<string>, Error>)
      requires Valid()
      ensures r == InitSignatureParams(config)
    {
      var names := SortedParamNames(config["location"]);
      var values: seq<string> := [];
      var i := 0;
      while i < |names|
        invariant 0 <= i <= |names|
        invariant HasAll(names[..i], config)
        invariant |values| == i && forall j :: 0 <= j < i ==> values[j] == config[names[j]]
      {
        if names[i] !in config {
          FirstMissingAt(names, config, i);
          return Failure(MissingKey(names[i]));
        }
        assert names[..i + 1] == names[..i] + [names[i]];
        values := values + [config[names[i]]];
        i := i + 1;
      }
      assert names[..i] == names;
      assert values == LookupAll(names, config).value;
      return Success(values);
    }

    /** `get_init_signature`: builds the start signature string, records it
        and its digest in `searchParams` and returns the digest. */
    method GetInitSignature() returns (r: Result<string, Error>)
      requires Valid()
      modifies this`searchParams
      ensures InitSignatureString(config).Failure? ==>
        r == Failure(InitSignatureString(config).error) && searchParams == old(searchParams)
      ensures InitSignatureString(config).Success? ==>
        var s := InitSignatureString(config).value;
        r == Success(md5(s)) &&
        searchParams == old(searchParams)["init_signature_string" := s]["init_signature_md5" := md5(s)]
    {
      var values := GetInitSignatureParams();
      if values.Failure? {
        return Failure(values.error);
      }
      if "token" !in config {
        return Failure(MissingKey("token"));
      }
      if "marker" !in config {
        return Failure(MissingKey("marker"));
      }
      var signature := Join([config["token"], config["marker"]] + values.value, ':');
      var digest := md5(signature);
      searchParams := searchParams["init_signature_string" := signature];
      searchParams := searchParams["init_signature_md5" := digest];
      return Success(digest);
    }

    /** The part of `get_init_url` that is not fixed templating: the
        signature (recorded as `GetInitSignature` does) and the location
        parameter. */
    method GetInitUrl() returns (r: Result<InitQuery, Error>)
      requires Valid()
      modifies this`searchParams
      ensures InitSignatureString(config).Failure? ==>
        r == Failure(InitSignatureString(config).error) && searchParams == old(searchParams)
      ensures InitSignatureString(config).Success? ==>
        var s := InitSignatureString(config).value;
        r == Success(InitQuery(LocationParam(config).0, LocationParam(config).1, md5(s))) &&
        searchParams == old(searchParams)["init_signature_string" := s]["init_signature_md5" := md5(s)]
    {
      var signature := GetInitSignature();
      if signature.Failure? {
        return Failure(signature.error);
      }
      var location := LocationOf(config["location"]).value;
      return Success(InitQuery(location.UrlName(), config[config["location"]], signature.value));
    }

    /** `get_results_signature_params`: reads only the search id. */
    method GetResultsSignatureParams() returns (r: map<string, string>)
      ensures r == ResultsSignatureParams(searchId)
    {
      var id := searchId;
      r := map[];
      r := r["limit" := "0"];
      r := r["offset" := "0"];
      r := r["rooms_count" := "0"];
      r := r["search_id" := id];
      r := r["sort_asc" := "1"];
      r := r["sort_by" := "price"];
    }

    /** `get_results_signature`: builds the results signature string,
        records it and its digest in `searchParams` and returns the digest. */
    method GetResultsSignature() returns (r: Result<string, Error>)
      modifies this`searchParams
      ensures ResultsSignatureString(config, searchId).Failure? ==>
        r == Failure(ResultsSignatureString(config, searchId).error) && searchParams == old(searchParams)
      ensures ResultsSignatureString(config, searchId).Success? ==>
        var s := ResultsSignatureString(config, searchId).value;
        r == Success(md5(s)) &&
        searchParams == old(searchParams)["results_signature_string" := s]["results_signature_md5" := md5(s)]
    {
      var p := GetResultsSignatureParams();
      if "token" !in config {
        return Failure(MissingKey("token"));
      }
      if "marker" !in config {
        return Failure(MissingKey("marker"));
      }
      var signature := Join([config["token"], config["marker"], p["limit"], p["offset"], p["rooms_count"],
                             p["search_id"], p["sort_asc"], p["sort_by"]], ':');
      var digest := md5(signature);
      searchParams := searchParams["results_signature_string" := signature];
      searchParams := searchParams["results_signature_md5" := digest];
      return Success(digest);
    }
  }

  /** The keys the signature parameters appear under, for each location:
      the nine fixed names with the location key in its sorted place. */
  function SignatureOrder(l: Location): seq<string>
  {
    match l
    case Iata =>
      ["adults_count", "check_in", "check_out", "child_age", "children_count",
       "currency", "customer_ip", "iata", "lang", "wait_for_results"]
    case CityId =>
      ["adults_count", "check_in", "check_out", "child_age", "children_count",
       "city_id", "currency", "customer_ip", "lang", "wait_for_results"]
    case HotelId =>
      ["adults_count", "check_in", "check_out", "child_age", "children_count",
       "currency", "customer_ip", "hotel_id", "lang", "wait_for_results"]
  }

  /** The nine fixed names in sorted order. */
  const SortedFixedNames: seq<string> :=
    ["adults_count", "check_in", "check_out", "child_age", "children_count",
     "currency", "customer_ip", "lang", "wait_for_results"]

  /** `Sort` on the nine fixed names, followed one insertion at a time
      from the last name to the first. */
  lemma SortFixedNames()
    ensures Sort(FixedParamNames) == SortedFixedNames
  {
    var f := FixedParamNames;
    assert f[9..] == [];
    SortSuffix(f, 8);
    InsertFixed8();
    SortSuffix(f, 7);
    InsertFixed7();
    SortSuffix(f, 6);
    InsertFixed6();
    SortSuffix(f, 5);
    InsertFixed5();
    SortSuffix(f, 4);
    InsertFixed4();
    SortSuffix(f, 3);
    InsertFixed3();
    SortSuffix(f, 2);
    InsertFixed2();
    SortSuffix(f, 1);
    InsertFixed1();
    SortSuffix(f, 0);
    InsertFixed0();
    assert f[0..] == f;
  }

  // The insertions `SortFixedNames` goes through.

  lemma InsertFixed8()
    ensures Insert("customer_ip", []) == ["customer_ip"]
  {
    InsertAt("customer_ip", [], 0);
  }

  lemma InsertFixed7()
    ensures Insert("child_age", ["customer_ip"]) == ["child_age", "customer_ip"]
  {
    InsertAt("child_age", ["customer_ip"], 0);
  }

  lemma InsertFixed6()
    ensures Insert("children_count", ["child_age", "customer_ip"]) == ["child_age", "children_count", "customer_ip"]
  {
    var x, r := "children_count", ["child_age", "customer_ip"];
    assert r[0][..5] == x[..5];
    Before(r[0], x, 5);
    InsertAt(x, r, 1);
  }

  lemma InsertFixed5()
    ensures Insert("adults_count", ["child_age", "children_count", "customer_ip"]) ==
      ["adults_count", "child_age", "children_count", "customer_ip"]
  {
    InsertAt("adults_count", ["child_age", "children_count", "customer_ip"], 0);
  }

  lemma InsertFixed4()
    ensures Insert("check_out", ["adults_count", "child_age", "children_count", "customer_ip"]) ==
      ["adults_count", "check_out", "child_age", "children_count", "customer_ip"]
  {
    var x, r := "check_out", ["adults_count", "child_age", "children_count", "customer_ip"];
    assert x[..2] == r[1][..2];
    Before(x, r[1], 2);
    InsertAt(x, r, 1);
  }

  lemma InsertFixed3()
    ensures Insert("check_in", ["adults_count", "check_out", "child_age", "children_count", "customer_ip"]) ==
      ["adults_count", "check_in", "check_out", "child_age", "children_count", "customer_ip"]
  {
    var x, r := "check_in", ["adults_count", "check_out", "child_age", "children_count", "customer_ip"];
    assert x[..6] == r[1][..6];
    Before(x, r[1], 6);
    InsertAt(x, r, 1);
  }

  lemma InsertFixed2()
    ensures Insert("wait_for_results", ["adults_count", "check_in", "check_out", "child_age", "children_count", "customer_ip"]) ==
      ["adults_count", "check_in", "check_out", "child_age", "children_count", "customer_ip", "wait_for_results"]
  {
    InsertAt("wait_for_results", ["adults_count", "check_in", "check_out", "child_age", "children_count", "customer_ip"], 6);
  }

  lemma InsertFixed1()
    ensures Insert("currency", ["adults_count", "check_in", "check_out", "child_age", "children_count", "customer_ip", "wait_for_results"]) ==
      ["adults_count", "check_in", "check_out", "child_age", "children_count", "currency", "customer_ip", "wait_for_results"]
  {
    var x, r := "currency", ["adults_count", "check_in", "check_out", "child_age", "children_count", "customer_ip", "wait_for_results"];
    assert x[..2] == r[5][..2];
    Before(x, r[5], 2);
    InsertAt(x, r, 5);
  }

  lemma InsertFixed0()
    ensures Insert("lang", ["adults_count", "check_in", "check_out", "child_age", "children_count", "currency", "customer_ip", "wait_for_results"]) ==
      SortedFixedNames
  {
    InsertAt("lang", ["adults_count", "check_in", "check_out", "child_age", "children_count", "currency", "customer_ip", "wait_for_results"], 7);
  }

  /** `sorted()` puts the ten names in `SignatureOrder`: the location key
      takes its place among the sorted fixed names. */
  lemma SortedParamNamesOrder(l: Location)
    ensures SortedParamNames(l.Key()) == SignatureOrder(l)
  {
    var k := [l.Key()];
    SortSwapped(FixedParamNames, k);
    assert (k + FixedParamNames)[0] == l.Key() && (k + FixedParamNames)[1..] == FixedParamNames;
    SortFixedNames();
    match l
    case Iata => InsertIata();
    case CityId => InsertCityId();
    case HotelId => InsertHotelId();
  }

  // Where `Insert` puts each location key among the sorted fixed names.

  lemma InsertIata()
    ensures Insert("iata", SortedFixedNames) == SignatureOrder(Iata)
  {
    InsertAt("iata", SortedFixedNames, 7);
  }

  lemma InsertCityId()
    ensures Insert("city_id", SortedFixedNames) == SignatureOrder(CityId)
  {
    var x, r := "city_id", SortedFixedNames;
    assert r[4][..1] == x[..1];
    Before(r[4], x, 1);
    assert x[..1] == r[5][..1];
    Before(x, r[5], 1);
    InsertAt(x, r, 5);
  }

  lemma InsertHotelId()
    ensures Insert("hotel_id", SortedFixedNames) == SignatureOrder(HotelId)
  {
    InsertAt("hotel_id", SortedFixedNames, 7);
  }
}
