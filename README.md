# Travelpayouts API tools: request signatures

This project models the two parts of the Travelpayouts API scripts that
compute something: the request signatures and the parameters around them.

- **Hotel search.** `HotelsSearcher` in tp-hotels-search/tp-hotels-search.py
  does the following:
  - It chooses the location key of the configuration by precedence.
  - It reads the ten start-signature parameters in sorted order.
  - It builds the 12-field start signature and the 8-field results signature.
  - It records each signature and its MD5 digest in `search_params`.
  - It maps the location key to the URL name of the start request.
- **Flight search.** `TPAviaSearchClient` in tp-avia-search/tp-avia-search.py
  does the following:
  - It builds the 13-field signature, or the 16-field one for a round trip.
  - It builds the body of the search request, whose second segment is the
    first one reversed.

How the model is laid out:

- **Modules.**
  - `Wrappers` holds `Option` and `Result`.
  - `Dict` holds Python dictionary lookups. A `KeyError` is an error that
    names the first absent key, in the order the script reads the keys.
  - `Text` holds `str.join` and `str.split` on one separator character.
  - `StringOrder` holds Python's string order, which compares code points
    lexicographically. It also holds `sorted()` as an insertion sort, proved
    sorted, a permutation and unique.
  - `HotelsSearch` is the hotel searcher. It is a class with the script's
    fields `config`, `search_params` and `search_id`.
  - `AviaSearch` is the flight client. It is a class holding the parameters
    dictionary.
- **MD5.** MD5 is a foreign library, so the searcher and the client are
  given the hash function. The model states that the digest recorded or
  sent is that function applied to the string built.
- **Error paths.** `sys.exit()` in `get_config`, every `KeyError` and the
  `TypeError` of `str.join` are error results.

## Model

| member | source | states |
|---|---|---|
| `HotelsSearch.ChooseLocation` | tp-hotels-search/tp-hotels-search.py:29-37 | The chosen location is the first among iata, city_id, hotel_id whose key is present. There is none exactly when no location key is present. |
| `HotelsSearch.GetConfig` | tp-hotels-search/tp-hotels-search.py:22-39 | Fails with `NoLocation` (the script exits) exactly when no location key is present. Otherwise `location` holds the chosen key and every other entry is unchanged. |
| `HotelsSearch.HotelsSearcher.Create` | tp-hotels-search/tp-hotels-search.py:13-20 | Fails exactly as `get_config` does. Otherwise gives a fresh searcher: its configuration has the caller's address as `customer_ip`, and its `search_params` and search id are empty. |
| `HotelsSearch.SortedParamNames` | tp-hotels-search/tp-hotels-search.py:62-74 | The sorted parameter list has ten names. |
| `HotelsSearch.SortedParamNamesSorted` | tp-hotels-search/tp-hotels-search.py:74 | The signature takes the nine fixed names and the location key in lexicographic order, each exactly as often as listed. |
| `HotelsSearch.SortedParamNamesOrder` | tp-hotels-search/tp-hotels-search.py:62-74 | For each location, states the exact sorted order. The location key comes after `customer_ip` for iata and hotel_id, and after `children_count` for city_id. |
| `HotelsSearch.SortFixedNames` | tp-hotels-search/tp-hotels-search.py:63-71 | The nine fixed names sort to adults_count, check_in, check_out, child_age, children_count, currency, customer_ip, lang, wait_for_results. |
| `HotelsSearch.InitSignatureParams` | tp-hotels-search/tp-hotels-search.py:60-77 | Fails exactly when a sorted name is absent from the configuration, naming the first absent one. Otherwise gives ten values, the i-th being the configuration value of the i-th sorted name. |
| `HotelsSearch.HotelsSearcher.GetInitSignatureParams` | tp-hotels-search/tp-hotels-search.py:60-77 | The append loop over the sorted names gives exactly `InitSignatureParams`, including the `KeyError` at the first absent name. |
| `HotelsSearch.InitSignatureFailure` | tp-hotels-search/tp-hotels-search.py:49-53 | The start signature fails exactly when one of the keys it reads is absent. It names the first absent key in reading order: the sorted parameters, then token, then marker. |
| `HotelsSearch.InitSignatureFields` | tp-hotels-search/tp-hotels-search.py:49-53 | With every key present and no `:` in a value, the signature splits into 12 fields: token, marker, then the ten parameters in sorted order. It holds exactly 11 `:`. |
| `HotelsSearch.InitSignatureValues` | tp-hotels-search/tp-hotels-search.py:51-53 | The start signature is the `:`-join of the values under token, marker and the sorted names. |
| `HotelsSearch.HotelsSearcher.GetInitSignature` | tp-hotels-search/tp-hotels-search.py:49-58 | On success, records the string under `init_signature_string` and its digest under `init_signature_md5`, and returns the digest. No other entry changes. On failure nothing is recorded. |
| `HotelsSearch.LocationParamChosen` | tp-hotels-search/tp-hotels-search.py:81-88 | The start request's location parameter is iata, cityId or hotelId for the chosen key. Its value is the loaded configuration's value under that key. |
| `HotelsSearch.HotelsSearcher.GetInitUrl` | tp-hotels-search/tp-hotels-search.py:79-91 | The start request carries the location parameter and the digest, and the signature is recorded as `get_init_signature` records it. Fails when the signature fails. |
| `HotelsSearch.ResultsSignatureParams` | tp-hotels-search/tp-hotels-search.py:119-129 | Exactly the six keys limit, offset, rooms_count, search_id, sort_asc and sort_by. limit, offset and rooms_count are "0", sort_asc is "1", sort_by is "price", and `search_id` is the given search id. |
| `HotelsSearch.HotelsSearcher.GetResultsSignatureParams` | tp-hotels-search/tp-hotels-search.py:119-129 | The dictionary filled key by key is `ResultsSignatureParams` of the current search id. It reads nothing else and changes nothing. |
| `HotelsSearch.ResultsSignatureString` | tp-hotels-search/tp-hotels-search.py:107-111 | Fails exactly when token or marker is absent, naming token first. |
| `HotelsSearch.ResultsSignatureFields` | tp-hotels-search/tp-hotels-search.py:109-111 | With no `:` in a value, splits into the 8 fields token, marker, 0, 0, 0, search id, 1, price, in that order. It holds exactly 7 `:`. |
| `HotelsSearch.HotelsSearcher.GetResultsSignature` | tp-hotels-search/tp-hotels-search.py:107-117 | Records the results string and its digest under `results_signature_string` and `results_signature_md5` and returns the digest. No other entry changes. On failure nothing is recorded. |
| `AviaSearch.SignatureKeys` | tp-avia-search/tp-avia-search.py:46-69 | The signature reads 13 parameters, or 16 for a round trip. First come the 11 base values in the script's order. A round trip then adds exactly return_date, origin, destination. The list always ends with trip_class and then ip. |
| `AviaSearch.SignatureString` | tp-avia-search/tp-avia-search.py:44-73 | Fails with a `KeyError` exactly when a parameter the signature reads is absent, naming the first absent one in reading order. |
| `AviaSearch.TPAviaSearchClient.MakeSignatureString` | tp-avia-search/tp-avia-search.py:44-73 | The value list built step by step and joined gives exactly `SignatureString`. |
| `AviaSearch.SignatureSteps` | tp-avia-search/tp-avia-search.py:46-71 | The signature in the script's steps: base values with `str()` of the counts, the round-trip values, trip class, ip, then the join. The first missing key raises at the step that reads it. |
| `AviaSearch.SignatureTypeError` | tp-avia-search/tp-avia-search.py:71 | With every parameter present, the join fails exactly when a value other than a passenger count is not text. It then names the first such position. |
| `AviaSearch.UnsetTokenFails` | tp-avia-search/tp-avia-search.py:22 | An unset `TP_API_TOKEN` makes the join fail at item 0. |
| `AviaSearch.SignatureFields` | tp-avia-search/tp-avia-search.py:71 | When every value other than the counts is text and none contains `:`, splitting the signature gives back `str()` of each parameter in reading order. |
| `AviaSearch.PyStr` | tp-avia-search/tp-avia-search.py:52-54 | `str()` leaves text unchanged and never produces `:` for an integer or `None`. |
| `AviaSearch.Digits` | tp-avia-search/tp-avia-search.py:52-54 | The decimal text of a count is a non-empty string of digits with no leading zero, so together with `DigitsRoundTrip` it is the text `str()` gives. |
| `AviaSearch.DigitsRoundTrip` | tp-avia-search/tp-avia-search.py:52-54 | Reading the decimal text back gives the count. |
| `AviaSearch.JoinText` | tp-avia-search/tp-avia-search.py:71 | `str.join` fails exactly when an item is not text, and names the first such item. |
| `AviaSearch.MakeRequestData` | tp-avia-search/tp-avia-search.py:79-105 | Fails with a `KeyError` exactly when a parameter the body reads is absent, naming the first absent one in the dictionary's reading order. Otherwise `signature` is the given digest, passengers are copied unchanged, and marker, host, user_ip, locale, trip_class and currency are copied from the parameters. |
| `AviaSearch.RequestSegments` | tp-avia-search/tp-avia-search.py:93-104 | There are two segments. The first is (origin, destination, depart_date). The second is the first reversed, on return_date. |
| `AviaSearch.ReversedTwice` | tp-avia-search/tp-avia-search.py:99-103 | Reversing the return segment again, on the outward date, gives the outward segment back. |
| `AviaSearch.RequestAfterSignature` | tp-avia-search/tp-avia-search.py:27-30 | Every parameter the body reads is read by the round-trip signature first, so once that signature is built the body cannot raise. |
| `AviaSearch.RequestMatchesSignature` | tp-avia-search/tp-avia-search.py:27-30 | The body carries the signature's digest. The signature's date, destination and origin fields (8-13) are those of the two segments. |
| `AviaSearch.TPAviaSearchClient.PrepareSearch` | tp-avia-search/tp-avia-search.py:26-30 | `run` fails as the round-trip signature does. Otherwise it produces the signature, its digest and the body `_make_request_data` builds for that digest. |
| `AviaSearch.TPAviaSearchClient.constructor` | tp-avia-search/tp-avia-search.py:19-24 | The parameters gain tp_api_token, tp_affiliate_marker and host from the environment, `None` when a variable is unset. |
| `AviaSearch.EnvValue` | tp-avia-search/tp-avia-search.py:22-24 | An environment variable is text when set and `None` when unset. |
| `Dict.LookupAll` | tp-hotels-search/tp-hotels-search.py:74-75 | Looking up a list of keys fails exactly when one is absent, at the first absent one. Otherwise gives the values in order. |
| `Text.SplitJoin` | tp-avia-search/tp-avia-search.py:71 | Splitting a join of fields that do not contain the separator gives the fields back. |
| `Text.JoinSeparatorCount` | tp-hotels-search/tp-hotels-search.py:51 | A join of n fields holds the separator n-1 times when no field holds it. |
| `StringOrder.SortCorrect` | tp-hotels-search/tp-hotels-search.py:74 | `sorted()` returns a sorted permutation of its input. |
| `StringOrder.SortedUnique` | tp-hotels-search/tp-hotels-search.py:74 | There is only one sorted permutation of a list, so the order the signature uses is determined. |
| `StringOrder.LessEqTotal` | tp-hotels-search/tp-hotels-search.py:74 | The string order is total. |
| `StringOrder.LessEqTransitive` | tp-hotels-search/tp-hotels-search.py:74 | The string order is transitive. |
| `StringOrder.LessEqAntisymmetric` | tp-hotels-search/tp-hotels-search.py:74 | The string order is antisymmetric. |

## Left out

- MD5 (`hashlib.md5`) is not computed: the digest function is a parameter.
- HTTP is not modelled. This covers `get_ip_address`, whose address is a
  parameter of `Create`, and `initialize_search`, `get_results`,
  `_make_request` and `_get_search_results`. A non-2xx response, the
  `status` check and the search id the server returns are not modelled
  either. `search_id` is a field of the searcher that only those network
  calls set.
- File I/O is not modelled: reading `config.json` and the `dump_*` and
  `_save_results_to_file` writes. The loaded configuration is a parameter.
  A file that cannot be opened gives the empty dictionary, and the model
  then fails with `NoLocation` as the script does.
- `print`, `display_progress` and `sleep` are left out; they are output and
  timing only.
- AviaSearch.TPAviaSearchClient.constructor does not model that `__init__`
  keeps the caller's `search_params` dictionary itself and adds the three
  environment values to it in place. The model stores a new map, so the
  caller's dictionary seeing the additions (aliasing) is not captured. No
  code of the script reads that dictionary afterwards.
- `load_dotenv` and `os.getenv` are not modelled. The three environment
  values are parameters of the client's constructor.
- tp-avia-search/tp-avia-click.py is not part of this model. It formats two
  URLs around a network call and a file write.
- HotelsSearch.HotelsSearcher.GetInitUrl does not build the URL text or
  record it under `init_url`. It models only the location parameter and
  the signature. The template's other placeholders read keys the signature
  has already read.
- `get_results_url` and the results URL are left out: they are templating
  around `get_results_signature`, which is modelled.
- The search's `response` and `search_params["init_response"]` hold the
  server's JSON; they are not modelled.
- Hotel configuration values are text, the form `str.format` gives them in
  a signature. JSON numbers and booleans are not told apart from their text.
- Flight parameter values are text, integers or `None`. Other Python types
  (`float`, `bool`, nested values) are not modelled.
