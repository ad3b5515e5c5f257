/** The flight search client (`TPAviaSearchClient` in
    tp-avia-search/tp-avia-search.py): the signature string and the body of
    the search request.

    The search parameters are a Python dictionary whose values are text,
    integers (the passenger counts) or `None` (an unset environment
    variable). The signature takes `str()` of the three passenger counts
    only; every other value must already be text, or `":".join` raises a
    `TypeError`. MD5 is not modelled: the caller supplies the hash
    function. */
module AviaSearch {
  import opened Wrappers
  import opened Dict
  import opened Text

  /** A value of the search parameters dictionary. */
  datatype Value = Str(text: string) | Int(n: int) | Null

  datatype AviaError =
    | KeyError(key: string)   // a parameter is absent
    | TypeError(index: nat)   // item `index` of the joined list is not text

  /** The decimal digits of `n`, most significant first. */
  function Digits(n: nat): (r: string)
    ensures |r| >= 1
    ensures forall i :: 0 <= i < |r| ==> '0' <= r[i] <= '9'
    ensures |r| == 1 || r[0] != '0'
    ensures n > 0 ==> r[0] != '0'
  {
    if n < 10 then [Digit(n)] else Digits(n / 10) + [Digit(n % 10)]
  }

  function Digit(d: nat): (c: char)
    requires d < 10
    ensures '0' <= c <= '9'
    ensures c == '0' <==> d == 0
  {
    ('0' as int + d) as char
  }

  /** The number a string of decimal digits denotes. */
  function DigitsValue(s: string): nat
  {
    if |s| == 0 then 0
    else DigitsValue(s[..|s| - 1]) * 10 + (if '0' <= s[|s| - 1] <= '9' then s[|s| - 1] as int - '0' as int else 0)
  }

  /** Reading the digits back gives the number. */
  lemma {:induction false} DigitsRoundTrip(n: nat)
    ensures DigitsValue(Digits(n)) == n
  {
    if n >= 10 {
      DigitsRoundTrip(n / 10);
      var s := Digits(n);
      assert s[..|s| - 1] == Digits(n / 10);
    }
  }

  /** Python's `str()` of a parameter value. */
  function PyStr(v: Value): (r: string)
    ensures v.Str? ==> r == v.text
    ensures !v.Str? ==> ':' !in r
  {
    match v
    case Str(t) => t
    case Int(n) => if n < 0 then "-" + Digits(-n) else Digits(n)
    case Null => "None"
  }

  /** The text of a list of values, or the index of the first item that is
      not text (the `TypeError` of `str.join`). */
  function AsStrings(items: seq<Value>): (r: Result<seq<string>, nat>)
    ensures r.Success? <==> forall i :: 0 <= i < |items| ==> items[i].Str?
    ensures r.Success? ==> |r.value| == |items| && forall i :: 0 <= i < |items| ==> r.value[i] == items[i].text
    ensures r.Failure? ==> r.error < |items| && !items[r.error].Str?
    ensures r.Failure? ==> forall j :: 0 <= j < r.error ==> items[j].Str?
  {
    if |items| == 0 then Success([])
    else if !items[0].Str? then Failure(0)
    else
      match AsStrings(items[1..])
      case Failure(i) => Failure(i + 1)
      case Success(ss) => Success([items[0].text] + ss)
  }

  /** `sep.join(items)`: the text of the items separated by `sep`, or a
      `TypeError` at the first item that is not text. */
  function JoinText(items: seq<Value>, sep: char): (r: Result<string, AviaError>)
    ensures r.Failure? <==> exists i :: 0 <= i < |items| && !items[i].Str?
    ensures r.Failure? ==> r.error.TypeError? && r.error.index < |items| && !items[r.error.index].Str?
    ensures r.Failure? ==> forall j :: 0 <= j < r.error.index ==> items[j].Str?
  {
    match AsStrings(items)
    case Failure(i) => Failure(TypeError(i))
    case Success(ss) => Success(Join(ss, sep))
  }

  /** The eleven values every signature starts with. */
  const SignatureBaseKeys: seq<string> :=
    ["tp_api_token", "currency", "host", "locale", "tp_affiliate_marker",
     "adults", "children", "infants", "depart_date", "destination", "origin"]

  /** The values a round trip adds. */
  const RoundTripKeys: seq<string> := ["return_date", "origin", "destination"]

  /** The two values every signature ends with. */
  const ClosingKeys: seq<string> := ["trip_class", "ip"]

  /** The parameters the signature reads, in the order it reads them:
      the eleven base values, the three round-trip values when asked for,
      then trip class and ip. */
  function SignatureKeys(isRoundTrip: bool): (r: seq<string>)
    ensures |r| == if isRoundTrip then 16 else 13
    ensures r[0] == "tp_api_token" && r[1] == "currency" && r[2] == "host" && r[3] == "locale"
    ensures r[4] == "tp_affiliate_marker" && r[5] == "adults" && r[6] == "children" && r[7] == "infants"
    ensures r[8] == "depart_date" && r[9] == "destination" && r[10] == "origin"
    ensures isRoundTrip ==> r[11] == "return_date" && r[12] == "origin" && r[13] == "destination"
    ensures r[|r| - 2] == "trip_class" && r[|r| - 1] == "ip"
  {
    SignatureBaseKeys + ((if isRoundTrip then RoundTripKeys else []) + ClosingKeys)
  }

  /** The positions of the passenger counts, which the signature passes
      through `str()`. */
  predicate IsCountIndex(i: int)
  {
    5 <= i < 8
  }

  /** The signature list with `str()` applied to the passenger counts. */
  function CountsAsText(vs: seq<Value>): (r: seq<Value>)
    requires |vs| >= 8
    ensures |r| == |vs|
    ensures forall i :: 0 <= i < |vs| ==> r[i] == if IsCountIndex(i) then Str(PyStr(vs[i])) else vs[i]
  {
    vs[..5] + [Str(PyStr(vs[5])), Str(PyStr(vs[6])), Str(PyStr(vs[7]))] + vs[8..]
  }

  lemma CountsAsTextAppend(vs: seq<Value>, rest: seq<Value>)
    requires |vs| >= 8
    ensures CountsAsText(vs + rest) == CountsAsText(vs) + rest
  {
  }

  lemma AppendTwo<T>(a: seq<T>, b: seq<T>, x: T, y: T)
    ensures a + b + [x] + [y] == a + (b + ([x] + [y]))
  {
  }

  /** Looking up the signature parameters in the three steps the script
      takes: the base values, the round-trip values, then trip class and
      ip. */
  lemma SignatureLookup(p: map<string, Value>, isRoundTrip: bool)
    ensures LookupAll(SignatureKeys(isRoundTrip), p) ==
      match LookupAll(SignatureBaseKeys, p)
      case Failure(k) => Failure(k)
      case Success(base) =>
        match (if isRoundTrip then LookupAll(RoundTripKeys, p) else Success([]))
        case Failure(k) => Failure(k)
        case Success(rest) =>
          if "trip_class" !in p then Failure("trip_class")
          else if "ip" !in p then Failure("ip")
          else Success(base + (rest + ([p["trip_class"]] + [p["ip"]])))
  {
    var opening := if isRoundTrip then RoundTripKeys else [];
    var tail := opening + ClosingKeys;
    assert SignatureKeys(isRoundTrip) == SignatureBaseKeys + tail;
    LookupAllAppend(SignatureBaseKeys, tail, p);
    LookupAllAppend(opening, ClosingKeys, p);
    assert ClosingKeys == ["trip_class"] + ["ip"];
    LookupAllAppend(["trip_class"], ["ip"], p);
    LookupOne("trip_class", p);
    LookupOne("ip", p);
    if !isRoundTrip {
      assert LookupAll(opening, p) == Success([]);
    }
  }

  /** The signature string in the steps the script takes to build its
      list: the base values with the counts as text, the round-trip values,
      trip class, ip, and then the join. */
  lemma SignatureSteps(p: map<string, Value>, isRoundTrip: bool)
    ensures SignatureString(p, isRoundTrip) ==
      match LookupAll(SignatureBaseKeys, p)
      case Failure(k) => Failure(KeyError(k))
      case Success(base) =>
        match (if isRoundTrip then LookupAll(RoundTripKeys, p) else Success([]))
        case Failure(k) => Failure(KeyError(k))
        case Success(rest) =>
          if "trip_class" !in p then Failure(KeyError("trip_class"))
          else if "ip" !in p then Failure(KeyError("ip"))
          else
            JoinText(CountsAsText(base) + rest + [p["trip_class"]] + [p["ip"]], ':')
  {
    SignatureLookup(p, isRoundTrip);
    var base := LookupAll(SignatureBaseKeys, p);
    var rest := if isRoundTrip then LookupAll(RoundTripKeys, p) else Success([]);
    if base.Success? && rest.Success? && "trip_class" in p && "ip" in p {
      var closing := [p["trip_class"]] + [p["ip"]];
      AppendTwo(CountsAsText(base.value), rest.value, p["trip_class"], p["ip"]);
      CountsAsTextAppend(base.value, rest.value + closing);
    }
  }

  /** The signature string `_make_signature_string` builds: the values under
      `SignatureKeys` joined by `:`; a `KeyError` at the first absent
      parameter, else a `TypeError` at the first item that is not text. */
  function SignatureString(p: map<string, Value>, isRoundTrip: bool): (r: Result<string, AviaError>)
    ensures (r.Failure? && r.error.KeyError?) <==> !HasAll(SignatureKeys(isRoundTrip), p)
    ensures r.Failure? && r.error.KeyError? ==> FirstMissing(SignatureKeys(isRoundTrip), p) == Some(r.error.key)
  {
    match LookupAll(SignatureKeys(isRoundTrip), p)
    case Failure(k) => Failure(KeyError(k))
    case Success(vs) => JoinText(CountsAsText(vs), ':')
  }

  /** With every parameter present, the signature fails exactly when a
      value other than a passenger count is not text, and then names the
      first such position. */
  lemma SignatureTypeError(p: map<string, Value>, isRoundTrip: bool)
    requires HasAll(SignatureKeys(isRoundTrip), p)
    ensures var keys := SignatureKeys(isRoundTrip);
      SignatureString(p, isRoundTrip).Failure? <==>
        exists i :: 0 <= i < |keys| && !IsCountIndex(i) && !p[keys[i]].Str?
    ensures var keys := SignatureKeys(isRoundTrip); var r := SignatureString(p, isRoundTrip);
      r.Failure? ==>
        r.error.TypeError? && r.error.index < |keys| && !IsCountIndex(r.error.index) &&
        !p[keys[r.error.index]].Str? &&
        forall j :: 0 <= j < r.error.index && !IsCountIndex(j) ==> p[keys[j]].Str?
  {
    var items := SignatureItems(p, isRoundTrip);
    FirstNonText(SignatureKeys(isRoundTrip), p, items);
  }

  /** `AsStrings` on a list whose items are text exactly at the count
      positions and where the parameter under the same key is text. */
  lemma FirstNonText(keys: seq<string>, p: map<string, Value>, items: seq<Value>)
    requires HasAll(keys, p) && |items| == |keys|
    requires forall i :: 0 <= i < |items| ==> (items[i].Str? <==> IsCountIndex(i) || p[keys[i]].Str?)
    ensures AsStrings(items).Failure? <==> exists i :: 0 <= i < |keys| && !IsCountIndex(i) && !p[keys[i]].Str?
    ensures var r := AsStrings(items);
      r.Failure? ==>
        r.error < |keys| && !IsCountIndex(r.error) && !p[keys[r.error]].Str? &&
        forall j :: 0 <= j < r.error && !IsCountIndex(j) ==> p[keys[j]].Str?
  {
  }

  /** With every parameter present, the signature joins the list of
      looked-up values, the counts as text. */
  lemma SignatureItems(p: map<string, Value>, isRoundTrip: bool) returns (items: seq<Value>)
    requires HasAll(SignatureKeys(isRoundTrip), p)
    ensures |items| == |SignatureKeys(isRoundTrip)|
    ensures forall i :: 0 <= i < |items| ==>
      (items[i].Str? <==> IsCountIndex(i) || p[SignatureKeys(isRoundTrip)[i]].Str?)
    ensures SignatureString(p, isRoundTrip) == JoinText(items, ':')
  {
    items := CountsAsText(LookupAll(SignatureKeys(isRoundTrip), p).value);
  }

  /** An unset API token (`os.getenv` gave `None`) makes the join fail at
      the first item. */
  lemma UnsetTokenFails(p: map<string, Value>, isRoundTrip: bool)
    requires HasAll(SignatureKeys(isRoundTrip), p)
    requires p["tp_api_token"] == Null
    ensures SignatureString(p, isRoundTrip) == Failure(TypeError(0))
  {
    var keys := SignatureKeys(isRoundTrip);
    assert keys[0] == SignatureBaseKeys[0];
    SignatureTypeError(p, isRoundTrip);
  }

  /** When every parameter is present, every value other than the counts
      is text and no value contains `:`, the signature has 13 fields
      (16 for a round trip) and splitting it on `:` gives back the value
      of each parameter in `SignatureKeys`, as text. */
  lemma SignatureFields(p: map<string, Value>, isRoundTrip: bool)
    requires HasAll(SignatureKeys(isRoundTrip), p)
    requires forall i :: 0 <= i < |SignatureKeys(isRoundTrip)| && !IsCountIndex(i) ==>
      p[SignatureKeys(isRoundTrip)[i]].Str?
    requires forall i :: 0 <= i < |SignatureKeys(isRoundTrip)| ==> ':' !in PyStr(p[SignatureKeys(isRoundTrip)[i]])
    ensures SignatureString(p, isRoundTrip).Success?
    ensures var fields := Split(SignatureString(p, isRoundTrip).value, ':');
      |fields| == |SignatureKeys(isRoundTrip)| &&
      forall i :: 0 <= i < |fields| ==> fields[i] == PyStr(p[SignatureKeys(isRoundTrip)[i]])
  {
    var keys := SignatureKeys(isRoundTrip);
    var items := CountsAsText(LookupAll(keys, p).value);
    var ss := AsStrings(items).value;
    assert forall i :: 0 <= i < |ss| ==> ss[i] == PyStr(p[keys[i]]);
    assert NoSep(ss, ':');
    SplitJoin(ss, ':');
  }

  /** The passenger counts of the request body. */
  datatype Passengers = Passengers(adults: Value, children: Value, infants: Value)

  /** One flight of the request body. */
  datatype Segment = Segment(origin: Value, destination: Value, date: Value)
  {
    /** The flight back: origin and destination swapped, on `date`. */
    function Reversed(date: Value): (s: Segment)
      ensures s.origin == destination && s.destination == origin && s.date == date
    {
      Segment(destination, origin, date)
    }
  }

  /** Reversing the flight back on the outward date gives the outward
      flight. */
  lemma ReversedTwice(s: Segment, date: Value)
    ensures s.Reversed(date).Reversed(s.date) == s
  {
  }

  /** The body of the search request. */
  datatype RequestData = RequestData(
    signature: string,
    marker: Value,
    host: Value,
    userIp: Value,
    locale: Value,
    tripClass: Value,
    passengers: Passengers,
    currency: Value,
    segments: seq<Segment>)

  /** The parameters the request body reads, in the order the dictionary
      expression reads them. */
  const RequestKeys: seq<string> :=
    ["tp_affiliate_marker", "host", "ip", "locale", "trip_class", "adults", "children", "infants",
     "currency", "origin", "destination", "depart_date", "destination", "origin", "return_date"]

  /** Every parameter the request body reads is present, stated key by
      key so that the body's lookups are seen to be defined. */
  predicate HasRequestParams(p: map<string, Value>)
  {
    "tp_affiliate_marker" in p && "host" in p && "ip" in p && "locale" in p && "trip_class" in p &&
    "adults" in p && "children" in p && "infants" in p && "currency" in p &&
    "origin" in p && "destination" in p && "depart_date" in p && "return_date" in p
  }

  /** `HasRequestParams` holds exactly when no key of `RequestKeys` is
      missing. */
  lemma RequestKeysPresent(p: map<string, Value>)
    ensures HasAll(RequestKeys, p) <==> HasRequestParams(p)
  {
    var k := RequestKeys;
    assert k[0] == "tp_affiliate_marker" && k[1] == "host" && k[2] == "ip" && k[3] == "locale";
    assert k[4] == "trip_class" && k[5] == "adults" && k[6] == "children" && k[7] == "infants";
    assert k[8] == "currency" && k[9] == "origin" && k[10] == "destination" && k[11] == "depart_date";
    assert k[12] == "destination" && k[13] == "origin" && k[14] == "return_date";
  }

  /** `_make_request_data`: the request body for the digest `signatureMd5`,
      or a `KeyError` at the first parameter it reads that is absent. */
  function MakeRequestData(p: map<string, Value>, signatureMd5: string): (r: Result<RequestData, AviaError>)
    ensures r.Success? <==> HasRequestParams(p)
    ensures r.Failure? ==> r.error.KeyError? && FirstMissing(RequestKeys, p) == Some(r.error.key)
    ensures r.Success? ==> r.value.signature == signatureMd5
    ensures r.Success? ==> r.value.passengers == Passengers(p["adults"], p["children"], p["infants"])
    ensures r.Success? ==>
      r.value.marker == p["tp_affiliate_marker"] && r.value.host == p["host"] && r.value.userIp == p["ip"] &&
      r.value.locale == p["locale"] && r.value.tripClass == p["trip_class"] && r.value.currency == p["currency"]
  {
    RequestKeysPresent(p);
    if !HasRequestParams(p) then
      Failure(KeyError(FirstMissing(RequestKeys, p).value))
    else
      Success(RequestData(
        signatureMd5,
        p["tp_affiliate_marker"],
        p["host"],
        p["ip"],
        p["locale"],
        p["trip_class"],
        Passengers(p["adults"], p["children"], p["infants"]),
        p["currency"],
        [Segment(p["origin"], p["destination"], p["depart_date"]),
         Segment(p["destination"], p["origin"], p["return_date"])]))
  }

  /** The request has two segments: the outward flight from origin to
      destination on the departure date, and the same flight reversed on
      the return date. */
  lemma RequestSegments(p: map<string, Value>, signatureMd5: string)
    requires MakeRequestData(p, signatureMd5).Success?
    ensures var s := MakeRequestData(p, signatureMd5).value.segments;
      |s| == 2 && s[0] == Segment(p["origin"], p["destination"], p["depart_date"]) &&
      s[1] == s[0].Reversed(p["return_date"])
  {
  }

  /** Every parameter the request body reads is one a round-trip
      signature has already read, so once that signature is built the
      request body cannot fail. */
  lemma RequestAfterSignature(p: map<string, Value>, signatureMd5: string)
    requires HasAll(SignatureKeys(true), p)
    ensures MakeRequestData(p, signatureMd5).Success?
  {
    var keys := SignatureKeys(true);
    assert keys[4] in p && keys[2] in p && keys[15] in p && keys[3] in p && keys[14] in p;
    assert keys[5] in p && keys[6] in p && keys[7] in p && keys[1] in p;
    assert keys[10] in p && keys[9] in p && keys[8] in p && keys[11] in p;
  }

  /** What `run` computes before it sends the request: the round-trip
      signature string, its digest and the request body. */
  datatype Prepared = Prepared(signatureString: string, signatureMd5: string, data: RequestData)

  /** The client: the search parameters after `__init__` has added the
      token, the marker and the host. */
  class TPAviaSearchClient {
    const params: map<string, Value>

    /** `__init__`: the token, marker and host read from the environment
        (`None` when a variable is unset) are stored in the parameters. */
    constructor (searchParams: map<string, Value>, token: Option<string>, marker: Option<string>, host: Option<string>)
      ensures params == searchParams["tp_api_token" := EnvValue(token)]
        ["tp_affiliate_marker" := EnvValue(marker)]["host" := EnvValue(host)]
    {
      params := searchParams["tp_api_token" := EnvValue(token)]
        ["tp_affiliate_marker" := EnvValue(marker)]["host" := EnvValue(host)];
    }

    /** `_make_signature_string`: the base values, the round-trip values
        when asked for, then trip class and ip, joined by `:`. */
    method MakeSignatureString(isRoundTrip: bool) returns (r: Result<string, AviaError>)
      ensures r == SignatureString(params, isRoundTrip)
    {
      SignatureSteps(params, isRoundTrip);
      var base := LookupAll(SignatureBaseKeys, params);
      if base.Failure? {
        return Failure(KeyError(base.error));
      }
      var values := CountsAsText(base.value);
      if isRoundTrip {
        var roundTrip := LookupAll(RoundTripKeys, params);
        if roundTrip.Failure? {
          return Failure(KeyError(roundTrip.error));
        }
        values := values + roundTrip.value;
      } else {
        assert values + [] == values;
      }
      if "trip_class" !in params {
        return Failure(KeyError("trip_class"));
      }
      values := values + [params["trip_class"]];
      if "ip" !in params {
        return Failure(KeyError("ip"));
      }
      values := values + [params["ip"]];
      r := JoinText(values, ':');
    }

    /** The start of `run`: the round-trip signature string, its digest and
        the request body `_make_request` would send. */
    method PrepareSearch(md5: string -> string) returns (r: Result<Prepared, AviaError>)
      ensures SignatureString(params, true).Failure? ==> r == Failure(SignatureString(params, true).error)
      ensures SignatureString(params, true).Success? ==>
        var s := SignatureString(params, true).value;
        r.Success? && r.value.signatureString == s && r.value.signatureMd5 == md5(s) &&
        Success(r.value.data) == MakeRequestData(params, md5(s))
    {
      var signatureString := MakeSignatureString(true);
      if signatureString.Failure? {
        return Failure(signatureString.error);
      }
      var signatureMd5 := md5(signatureString.value);
      RequestAfterSignature(params, signatureMd5);
      var data := MakeRequestData(params, signatureMd5);
      return Success(Prepared(signatureString.value, signatureMd5, data.value));
    }
  }

  /** The parameter value of an environment variable. */
  function EnvValue(v: Option<string>): (r: Value)
    ensures v.Some? <==> r.Str?
    ensures v.Some? ==> r.text == v.value
  {
    match v
    case Some(s) => Str(s)
    case None => Null
  }

  /** The request body and the signature describe the same trip: the
      body carries the digest of the signature, and the signature's date,
      origin and destination fields are those of the two segments. */
  lemma RequestMatchesSignature(p: map<string, Value>, md5: string -> string)
    requires HasAll(SignatureKeys(true), p)
    requires forall i :: 0 <= i < 16 && !IsCountIndex(i) ==> p[SignatureKeys(true)[i]].Str?
    requires forall i :: 0 <= i < 16 ==> ':' !in PyStr(p[SignatureKeys(true)[i]])
    ensures SignatureString(p, true).Success?
    ensures var s := SignatureString(p, true).value; var f := Split(s, ':');
      MakeRequestData(p, md5(s)).Success? && |f| == 16 &&
      var d := MakeRequestData(p, md5(s)).value;
      d.signature == md5(s) &&
      f[8] == PyStr(d.segments[0].date) && f[9] == PyStr(d.segments[0].destination) &&
      f[10] == PyStr(d.segments[0].origin) && f[11] == PyStr(d.segments[1].date) &&
      f[12] == PyStr(d.segments[1].destination) && f[13] == PyStr(d.segments[1].origin)
  {
    SignatureFields(p, true);
    RequestAfterSignature(p, md5(SignatureString(p, true).value));
  }
}
