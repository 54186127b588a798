/**
 * The service layer: decoded API records, their conversion into validated
 * services, board building with the drop-bad-records policy, the shape of the
 * HTTP request, and `try_get_board`. The HTTP call itself is a parameter
 * (`transport`) that maps a request to a decoded body or an API error.
 */
module Service {
  import opened Wrappers
  import opened Text
  import Constants
  import opened Errors

  /** The `numRows` sent when the caller gives none. */
  const DEFAULT_NUM_ROWS: U8 := 10

  /** The kind of board: a closed tag that selects a title, an endpoint and an API key. */
  datatype BoardKind = Departures | Arrivals {

    /** `BoardKind::title`. */
    function Title(): string {
      match this
      case Departures => "Departures"
      case Arrivals => "Arrivals"
    }

    /** `BoardKind::base_url`. */
    function BaseUrl(): string {
      match this
      case Departures => Constants.DEP_BASE_URL
      case Arrivals => Constants.ARR_BASE_URL
    }

    /** The cell that caches this kind's API key. */
    function KeyCell(): Constants.KeyCell {
      match this
      case Departures => Constants.DepKeyCell
      case Arrivals => Constants.ArrKeyCell
    }

    /** The environment variable that holds this kind's API key. */
    function KeyVariable(): string {
      match this
      case Departures => Constants.DEP_API_KEY
      case Arrivals => Constants.ARR_API_KEY
    }
  }

  /** The mapping is total and tells the two kinds apart in every column. */
  lemma BoardKindMapping()
    ensures Departures.Title() == "Departures" && Arrivals.Title() == "Arrivals"
    ensures Departures.BaseUrl() == Constants.DEP_BASE_URL && Arrivals.BaseUrl() == Constants.ARR_BASE_URL
    ensures Departures.KeyVariable() == "DEP_API_KEY" && Arrivals.KeyVariable() == "ARR_API_KEY"
    ensures Departures.BaseUrl() != Arrivals.BaseUrl()
    ensures Departures.KeyCell() != Arrivals.KeyCell()
  {
  }

  /** `BoardKind::api_key`: `dep_api_key` for departures, `arr_api_key` for arrivals. */
  method ApiKey(kind: BoardKind, cells: Constants.ApiKeyCells, env: Constants.Environment)
    returns (r: Result<string, Constants.ConfigError>)
    modifies cells
    ensures (cells.Cell(kind.KeyCell()), r)
         == Constants.LoadStep(old(cells.Cell(kind.KeyCell())), kind.KeyVariable(), Constants.EnvFetch(env))
    ensures kind == Departures ==> cells.arrApiKey == old(cells.arrApiKey)
    ensures kind == Arrivals ==> cells.depApiKey == old(cells.depApiKey)
  {
    match kind {
      case Departures => r := cells.DepApiKey(env);
      case Arrivals => r := cells.ArrApiKey(env);
    }
  }

  /** A station: its name, its CRS code and an optional routing note. */
  datatype Station = Station(locationName: string, crs: string, via: Option<string>)

  /** A raw service record; `destination` and `origin` are lists that normally hold one station. */
  datatype ApiService = ApiService(
    destination: seq<Station>,
    origin: seq<Station>,
    sta: Option<string>,
    eta: Option<string>,
    std: Option<string>,
    etd: Option<string>,
    operator: string,
    platform: Option<string>)

  /** The decoded JSON body, in which `trainServices` may be absent. */
  datatype ResponseBody = ResponseBody(trainServices: Option<seq<ApiService>>, locationName: string, crs: string)

  /** `ApiResponse`: the body after serde's defaulting of `trainServices`. */
  datatype ApiResponse = ApiResponse(trainServices: seq<ApiService>, locationName: string, crs: string)

  /** A validated service: it always has a destination and an origin. */
  datatype Service = Service(
    destination: Station,
    origin: Station,
    sta: Option<string>,
    eta: Option<string>,
    std: Option<string>,
    etd: Option<string>,
    operator: string,
    platform: Option<string>)

  /** A station's board: the services that converted, in the order the API sent them. */
  datatype Board = Board(services: seq<Service>, locationName: string, crs: string)

  /** `#[serde(default)]` on `train_services`: an absent list decodes as the empty list. */
  function DecodeResponse(body: ResponseBody): (r: ApiResponse)
    ensures body.trainServices.None? ==> r.trainServices == []
    ensures body.trainServices.Some? ==> r.trainServices == body.trainServices.value
    ensures r.locationName == body.locationName && r.crs == body.crs
  {
    ApiResponse(body.trainServices.GetOr([]), body.locationName, body.crs)
  }

  /** Every field other than destination and origin is the same in the raw record and the service. */
  predicate PassesThrough(api: ApiService, s: Service) {
    && s.sta == api.sta && s.eta == api.eta
    && s.std == api.std && s.etd == api.etd
    && s.operator == api.operator && s.platform == api.platform
  }

  /**
   * `Service::try_from`: take the first destination, then the first origin;
   * the destination is checked first, so a record with neither is `MissingDestination`.
   */
  function ServiceFrom(api: ApiService): (r: Result<Service, ServiceConversionError>)
    ensures r.Ok? <==> api.destination != [] && api.origin != []
    ensures api.destination == [] ==> r == Err(MissingDestination)
    ensures api.destination != [] && api.origin == [] ==> r == Err(MissingOrigin)
    ensures r.Ok? ==> r.value.destination == api.destination[0] && r.value.origin == api.origin[0]
    ensures r.Ok? ==> PassesThrough(api, r.value)
  {
    if api.destination == [] then Err(MissingDestination)
    else if api.origin == [] then Err(MissingOrigin)
    else Ok(Service(api.destination[0], api.origin[0], api.sta, api.eta, api.std, api.etd, api.operator, api.platform))
  }

  /** The raw record a service came from in the usual one-station shape. */
  function ToApiService(s: Service): ApiService {
    ApiService([s.destination], [s.origin], s.sta, s.eta, s.std, s.etd, s.operator, s.platform)
  }

  /** Conversion inverts the one-station shape, in both directions. */
  lemma ConversionRoundTrip(s: Service, api: ApiService)
    ensures ServiceFrom(ToApiService(s)) == Ok(s)
    ensures |api.destination| == 1 && |api.origin| == 1 ==>
      ServiceFrom(api).Ok? && ToApiService(ServiceFrom(api).value) == api
  {
  }

  predicate Converts(api: ApiService) {
    ServiceFrom(api).Ok?
  }

  /** The `filter_map` in `fetch_board`: the records that convert, converted, in their order. */
  function ConvertAll(records: seq<ApiService>): (r: seq<Service>)
    ensures |r| <= |records|
  {
    if records == [] then []
    else match ServiceFrom(records[0])
      case Ok(s) => [s] + ConvertAll(records[1..])
      case Err(_) => ConvertAll(records[1..])
  }

  /** Converting a concatenation converts each part. */
  lemma {:induction false} ConvertAllAppend(a: seq<ApiService>, b: seq<ApiService>)
    ensures ConvertAll(a + b) == ConvertAll(a) + ConvertAll(b)
  {
    if a == [] {
      assert a + b == b;
    } else {
      assert (a + b)[0] == a[0];
      assert (a + b)[1..] == a[1..] + b;
      ConvertAllAppend(a[1..], b);
    }
  }

  /** Nothing is dropped exactly when every record converts. */
  lemma {:induction false} ConvertAllKeepsAllIff(records: seq<ApiService>)
    ensures |ConvertAll(records)| == |records| <==> forall i :: 0 <= i < |records| ==> Converts(records[i])
  {
    if records != [] {
      ConvertAllKeepsAllIff(records[1..]);
      if forall i :: 0 <= i < |records[1..]| ==> Converts(records[1..][i]) {
        forall i | 0 <= i < |records| && i > 0 ensures Converts(records[i]) {
          assert records[i] == records[1..][i - 1];
        }
      }
    }
  }

  /** The positions of the records that convert, in increasing order. */
  function KeptIndices(records: seq<ApiService>): seq<int> {
    if records == [] then []
    else
      var n := |records| - 1;
      KeptIndices(records[..n]) + (if Converts(records[n]) then [n] else [])
  }

  /** The kept positions are in range, strictly increasing, and are exactly the positions of records that convert. */
  lemma {:induction false} KeptIndicesAreConverting(records: seq<ApiService>)
    ensures var idx := KeptIndices(records);
      && (forall k :: 0 <= k < |idx| ==> 0 <= idx[k] < |records|)
      && (forall k, l :: 0 <= k < l < |idx| ==> idx[k] < idx[l])
      && (forall i :: 0 <= i < |records| ==> (Converts(records[i]) <==> i in idx))
  {
    if records != [] {
      var n := |records| - 1;
      var front := records[..n];
      KeptIndicesAreConverting(front);
      var idx0, idx := KeptIndices(front), KeptIndices(records);
      assert idx == idx0 + (if Converts(records[n]) then [n] else []);
      forall i | 0 <= i < |records| ensures Converts(records[i]) <==> i in idx {
        if i < n {
          assert records[i] == front[i];
          assert i in idx <==> i in idx0;
        } else {
          assert n !in idx0;
        }
      }
    }
  }

  /** The k-th service is the conversion of the record at the k-th kept position. */
  lemma {:induction false} KeptConversions(records: seq<ApiService>)
    ensures var idx, r := KeptIndices(records), ConvertAll(records);
      && |idx| == |r|
      && forall k :: 0 <= k < |idx| ==> 0 <= idx[k] < |records| && ServiceFrom(records[idx[k]]) == Ok(r[k])
  {
    if records != [] {
      var n := |records| - 1;
      var front, last := records[..n], records[n];
      assert records == front + [last];
      KeptConversions(front);
      ConvertAllAppend(front, [last]);
      ConvertOne(last);
      var idx0, r0 := KeptIndices(front), ConvertAll(front);
      var idx, r := KeptIndices(records), ConvertAll(records);
      assert idx == idx0 + (if Converts(last) then [n] else []);
      assert r == r0 + (if Converts(last) then [ServiceFrom(last).value] else []);
      forall k | 0 <= k < |idx| ensures 0 <= idx[k] < |records| && ServiceFrom(records[idx[k]]) == Ok(r[k]) {
        if k < |idx0| {
          assert idx[k] == idx0[k] && r[k] == r0[k];
          assert records[idx0[k]] == front[idx0[k]];
        } else {
          assert Converts(last) && idx[k] == n && r[k] == ServiceFrom(last).value;
        }
      }
    }
  }

  /**
   * The board is exactly the converted records, in input order: the k-th service
   * is the conversion of the record at the k-th kept position, the kept positions
   * increase, and a position is kept exactly when its record converts.
   */
  lemma ConvertAllSelects(records: seq<ApiService>)
    ensures var idx, r := KeptIndices(records), ConvertAll(records);
      && |idx| == |r|
      && (forall k :: 0 <= k < |idx| ==> 0 <= idx[k] < |records| && ServiceFrom(records[idx[k]]) == Ok(r[k]))
      && (forall k, l :: 0 <= k < l < |idx| ==> idx[k] < idx[l])
      && (forall i :: 0 <= i < |records| ==> (Converts(records[i]) <==> i in idx))
  {
    KeptIndicesAreConverting(records);
    KeptConversions(records);
  }

  /** A single record converts to a one-element list or to nothing. */
  lemma ConvertOne(x: ApiService)
    ensures ConvertAll([x]) == if Converts(x) then [ServiceFrom(x).value] else []
  {
    assert [x][1..] == [];
  }

  /** `board.services.len() <= train_services.len()`, with equality iff no record was dropped. */
  lemma BoardSizeBound(records: seq<ApiService>)
    ensures |ConvertAll(records)| <= |records|
    ensures |ConvertAll(records)| == |records| <==> forall i :: 0 <= i < |records| ==> Converts(records[i])
  {
    ConvertAllKeepsAllIff(records);
  }

  /** The board built from a response: converted services, the response's station name and code. */
  function BuildBoard(response: ApiResponse): (b: Board)
    ensures b.locationName == response.locationName && b.crs == response.crs
    ensures |b.services| <= |response.trainServices|
  {
    Board(ConvertAll(response.trainServices), response.locationName, response.crs)
  }

  /** The request `fetch_board` sends: URL, `x-apikey` header and `numRows` query parameter. */
  datatype Request = Request(url: string, header: (string, string), query: (string, U8))

  /** `num_rows.unwrap_or(10)`. */
  function NumRows(numRows: Option<U8>): U8 {
    numRows.GetOr(DEFAULT_NUM_ROWS)
  }

  /** `format!("{}/{}", base_url, station_code.to_uppercase())` with the header and query beside it. */
  function RequestFor(baseUrl: string, apiKey: string, stationCode: string, numRows: Option<U8>): Request {
    Request(baseUrl + "/" + ToAsciiUppercase(stationCode), ("x-apikey", apiKey), ("numRows", NumRows(numRows)))
  }

  /**
   * The request path is the base URL, a slash, and the station code upper-cased
   * character by character; the key travels in `x-apikey`; `numRows` is the
   * caller's value or 10.
   */
  lemma RequestShape(baseUrl: string, apiKey: string, stationCode: string, numRows: Option<U8>)
    ensures var r := RequestFor(baseUrl, apiKey, stationCode, numRows);
      && |r.url| == |baseUrl| + 1 + |stationCode|
      && r.url[..|baseUrl|] == baseUrl && r.url[|baseUrl|] == '/'
      && (forall i :: 0 <= i < |stationCode| ==>
            r.url[|baseUrl| + 1 + i] == AsciiUpper(stationCode[i]) && !IsAsciiLower(r.url[|baseUrl| + 1 + i]))
      && r.header == ("x-apikey", apiKey)
      && r.query.0 == "numRows"
      && (numRows.None? ==> r.query.1 == 10)
      && (numRows.Some? ==> r.query.1 == numRows.value)
  {
    var r := RequestFor(baseUrl, apiKey, stationCode, numRows);
    assert r.url == (baseUrl + "/") + ToAsciiUppercase(stationCode);
    forall i | 0 <= i < |stationCode|
      ensures r.url[|baseUrl| + 1 + i] == AsciiUpper(stationCode[i])
    {
      assert r.url[|baseUrl| + 1 + i] == ToAsciiUppercase(stationCode)[i];
    }
  }

  /** Station codes that differ only in ASCII case produce the same request, and no others do. */
  lemma RequestIgnoresStationCase(baseUrl: string, apiKey: string, a: string, b: string, numRows: Option<U8>)
    ensures RequestFor(baseUrl, apiKey, a, numRows) == RequestFor(baseUrl, apiKey, b, numRows)
        <==> EqIgnoreAsciiCase(a, b)
  {
    UppercaseEqualIffEqIgnoreCase(a, b);
    var prefix := baseUrl + "/";
    if RequestFor(baseUrl, apiKey, a, numRows) == RequestFor(baseUrl, apiKey, b, numRows) {
      assert prefix + ToAsciiUppercase(a) == prefix + ToAsciiUppercase(b);
      assert ToAsciiUppercase(a) == (prefix + ToAsciiUppercase(a))[|prefix|..];
      assert ToAsciiUppercase(b) == (prefix + ToAsciiUppercase(b))[|prefix|..];
    }
  }

  /**
   * `fetch_board`: send the request through `transport`; a transport or decode
   * failure is returned as it is, otherwise the body becomes a board.
   */
  function FetchBoard(baseUrl: string, apiKey: string, stationCode: string, numRows: Option<U8>,
                      transport: Request -> Result<ResponseBody, ApiError>): Result<Board, ApiError>
  {
    match transport(RequestFor(baseUrl, apiKey, stationCode, numRows))
    case Err(e) => Err(e)
    case Ok(body) => Ok(BuildBoard(DecodeResponse(body)))
  }

  /**
   * What a fetch promises: it fails exactly when the call fails; otherwise the
   * board names the station the response names, lists the records that converted,
   * and is empty when `trainServices` was absent or empty.
   */
  lemma FetchBoardOutcome(baseUrl: string, apiKey: string, stationCode: string, numRows: Option<U8>,
                          transport: Request -> Result<ResponseBody, ApiError>)
    ensures var reply := transport(RequestFor(baseUrl, apiKey, stationCode, numRows));
      var r := FetchBoard(baseUrl, apiKey, stationCode, numRows, transport);
      && (reply.Err? <==> r.Err?)
      && (reply.Err? ==> r.error == reply.error)
      && (reply.Ok? ==>
            var records := reply.value.trainServices.GetOr([]);
            && r.value.locationName == reply.value.locationName
            && r.value.crs == reply.value.crs
            && r.value.services == ConvertAll(records)
            && |r.value.services| <= |records|
            && (records == [] ==> r.value.services == []))
  {
  }

  /**
   * A response whose second record has no destination yields a board holding
   * only the first record's service.
   */
  lemma MixedBoardDropsBadRecord(good: ApiService, bad: ApiService, name: string, crs: string)
    requires good.destination != [] && good.origin != []
    requires bad.destination == []
    ensures var b := BuildBoard(ApiResponse([good, bad], name, crs));
      && |b.services| == 1
      && b.services[0].destination == good.destination[0]
      && b.locationName == name && b.crs == crs
  {
    ConvertOne(bad);
    assert [good, bad][1..] == [bad];
    assert ConvertAll([good, bad]) == [ServiceFrom(good).value] + ConvertAll([bad]);
  }

  /**
   * What `try_get_board` returns when the kind's key cell holds `cell`: a key
   * error as `AppError::Config`, otherwise the fetch against the kind's base URL
   * with its errors as `AppError::Api`.
   */
  function GetBoard(cell: Option<string>, kind: BoardKind, env: Constants.Environment,
                    stationCode: string, numRows: Option<U8>,
                    transport: Request -> Result<ResponseBody, ApiError>): Result<Board, AppError>
  {
    match Constants.LoadStep(cell, kind.KeyVariable(), Constants.EnvFetch(env)).1
    case Err(e) => Err(Config(e))
    case Ok(key) =>
      match FetchBoard(kind.BaseUrl(), key, stationCode, numRows, transport)
      case Err(e) => Err(Api(e))
      case Ok(b) => Ok(b)
  }

  /**
   * A key error is returned before any request is made: the outcome is that
   * error whatever the transport would have answered. With a key, the outcome
   * follows the transport: its failure as `AppError::Api`, its body as a board.
   */
  lemma KeyErrorPrecedesFetch(cell: Option<string>, kind: BoardKind, env: Constants.Environment,
                              stationCode: string, numRows: Option<U8>,
                              transport: Request -> Result<ResponseBody, ApiError>,
                              otherTransport: Request -> Result<ResponseBody, ApiError>)
    ensures var key := Constants.LoadStep(cell, kind.KeyVariable(), Constants.EnvFetch(env)).1;
      && (key.Err? ==>
            && GetBoard(cell, kind, env, stationCode, numRows, transport) == Err(Config(key.error))
            && GetBoard(cell, kind, env, stationCode, numRows, otherTransport) == Err(Config(key.error)))
      && (key.Ok? ==>
            var reply := transport(RequestFor(kind.BaseUrl(), key.value, stationCode, numRows));
            && (reply.Err? ==> GetBoard(cell, kind, env, stationCode, numRows, transport) == Err(Api(reply.error)))
            && (reply.Ok? ==> GetBoard(cell, kind, env, stationCode, numRows, transport)
                              == Ok(BuildBoard(DecodeResponse(reply.value)))))
  {
  }

  /** `try_get_board`: load the kind's API key (through its cell), then fetch. */
  method TryGetBoard(cells: Constants.ApiKeyCells, env: Constants.Environment, kind: BoardKind,
                     stationCode: string, numRows: Option<U8>,
                     transport: Request -> Result<ResponseBody, ApiError>)
    returns (r: Result<Board, AppError>)
    modifies cells
    ensures r == GetBoard(old(cells.Cell(kind.KeyCell())), kind, env, stationCode, numRows, transport)
    ensures cells.Cell(kind.KeyCell())
         == Constants.LoadStep(old(cells.Cell(kind.KeyCell())), kind.KeyVariable(), Constants.EnvFetch(env)).0
    ensures kind == Departures ==> cells.arrApiKey == old(cells.arrApiKey)
    ensures kind == Arrivals ==> cells.depApiKey == old(cells.depApiKey)
  {
    var key := ApiKey(kind, cells, env);
    if key.Err? {
      return Err(Config(key.error));
    }
    var fetched := FetchBoard(kind.BaseUrl(), key.value, stationCode, numRows, transport);
    match fetched {
      case Err(e) => r := Err(Api(e));
      case Ok(b) => r := Ok(b);
    }
  }
}
