/**
 * What the terminal front end decides before it draws anything: the text of a
 * station cell, the colour of the expected-time cell, the table's headers and
 * rows for each board kind, and whether a board shows a table at all. Rows are
 * sequences of cell texts plus the colour of the expected-time cell; styling,
 * clearing the screen and printing are not modelled.
 */
module Presentation {
  import opened Wrappers
  import opened Text
  import opened Service
  import Constants
  import opened Errors

  const ON_TIME: string := "On time"
  const NO_PLATFORM: string := "--"

  const DEPARTURE_HEADERS: seq<string> := ["Destination", "Platform", "Operator", "Scheduled", "Expected"]
  const ARRIVAL_HEADERS: seq<string> := ["Origin", "Platform", "Operator", "Scheduled", "Expected"]

  datatype Colour = Green | Red

  /** One table row: the five cell texts and the colour of the expected-time cell. */
  datatype Row = Row(cells: seq<string>, expectedColour: Colour)

  datatype Table = Table(headers: seq<string>, rows: seq<Row>)

  /** What one refresh puts on the screen. */
  datatype Screen =
    | NoServices(message: string)
    | ServiceTable(title: string, table: Table)

  /** The text of a station cell: "name (crs)", followed by a line holding `via` when there is one. */
  function StationLabel(station: Station): string {
    station.locationName + " (" + station.crs + ")"
      + match station.via
        case None => ""
        case Some(v) => "\n" + v
  }

  /** A routing note adds one line below the label the station has without it. */
  lemma StationLabelVia(station: Station, v: string)
    ensures StationLabel(station.(via := Some(v))) == StationLabel(station.(via := None)) + "\n" + v
    ensures StationLabel(station.(via := None)) == station.locationName + " (" + station.crs + ")"
  {
  }

  /** `format_station`: build "name (crs)" and append "\n" and `via` when present. */
  method FormatStation(station: Station) returns (result: string)
    ensures result == StationLabel(station)
    ensures station.via.None? ==> result == station.locationName + " (" + station.crs + ")"
    ensures station.via.Some? ==> result == station.locationName + " (" + station.crs + ")\n" + station.via.value
  {
    result := station.locationName + " (" + station.crs + ")";
    if station.via.Some? {
      result := result + "\n" + station.via.value;
    }
  }

  /** The colour `colourise_expected` gives a text: green for "On time" in any ASCII case, red for anything else. */
  function ExpectedColour(expected: string): Colour {
    if EqIgnoreAsciiCase(expected, ON_TIME) then Green else Red
  }

  /** The colour is green exactly for the texts that upper-case to "ON TIME". */
  lemma ExpectedColourIffOnTime(expected: string)
    ensures ExpectedColour(expected) == Green <==> ToAsciiUppercase(expected) == "ON TIME"
  {
    UppercaseEqualIffEqIgnoreCase(expected, ON_TIME);
    assert ToAsciiUppercase(ON_TIME) == "ON TIME";
  }

  /** Texts equal up to ASCII case get the same colour. */
  lemma ExpectedColourIgnoresCase(a: string, b: string)
    requires EqIgnoreAsciiCase(a, b)
    ensures ExpectedColour(a) == ExpectedColour(b)
  {
    UppercaseEqualIffEqIgnoreCase(a, b);
    ExpectedColourIffOnTime(a);
    ExpectedColourIffOnTime(b);
  }

  /** "On time" is green in any ASCII case. */
  lemma OnTimeIsGreen()
    ensures ExpectedColour("On time") == Green
    ensures ExpectedColour("ON TIME") == Green
  {
    var upper := "ON TIME";
    forall i | 0 <= i < |upper| ensures AsciiLower(upper[i]) == AsciiLower(ON_TIME[i]) {
      CaseFoldAgree(upper[i], ON_TIME[i]);
    }
  }

  /** Status words and clock times other than "On time" are red. */
  lemma OtherTextsAreRed()
    ensures ExpectedColour("Delayed") == Red
    ensures ExpectedColour("Cancelled") == Red
    ensures ExpectedColour("10:15") == Red
  {
    assert AsciiLower("Delayed"[0]) == 'd' != AsciiLower(ON_TIME[0]);
    assert |"Cancelled"| != |ON_TIME| && |"10:15"| != |ON_TIME|;
  }

  /** The headers `print_services` gives the table. */
  function Headers(kind: BoardKind): seq<string> {
    if kind == Departures then DEPARTURE_HEADERS else ARRIVAL_HEADERS
  }

  /** Both kinds have five columns; only the first header differs. */
  lemma HeadersByKind()
    ensures |Headers(Departures)| == |Headers(Arrivals)| == 5
    ensures Headers(Departures)[0] == "Destination" && Headers(Arrivals)[0] == "Origin"
    ensures Headers(Departures)[1..] == Headers(Arrivals)[1..] == ["Platform", "Operator", "Scheduled", "Expected"]
  {
  }

  /**
   * The row for one service: departures show the destination, `std` and `etd`,
   * arrivals the origin, `sta` and `eta`; a missing time is "" and a missing
   * platform "--".
   */
  function ServiceRow(service: Service, kind: BoardKind): Row {
    var station := if kind == Departures then service.destination else service.origin;
    var scheduled := if kind == Departures then service.std else service.sta;
    var expected := (if kind == Departures then service.etd else service.eta).GetOr("");
    Row([StationLabel(station), service.platform.GetOr(NO_PLATFORM), service.operator, scheduled.GetOr(""), expected],
        ExpectedColour(expected))
  }

  /** Column by column, which field of the service each cell of its row shows. */
  lemma ServiceRowColumns(service: Service, kind: BoardKind)
    ensures var row := ServiceRow(service, kind);
      && |row.cells| == |Headers(kind)|
      && (kind == Departures ==>
            row.cells[0] == StationLabel(service.destination)
            && row.cells[3] == service.std.GetOr("") && row.cells[4] == service.etd.GetOr(""))
      && (kind == Arrivals ==>
            row.cells[0] == StationLabel(service.origin)
            && row.cells[3] == service.sta.GetOr("") && row.cells[4] == service.eta.GetOr(""))
      && (service.platform.None? ==> row.cells[1] == "--")
      && (service.platform.Some? ==> row.cells[1] == service.platform.value)
      && row.cells[2] == service.operator
      && row.expectedColour == ExpectedColour(row.cells[4])
  {
  }

  /** `print_services`: one row per service, in board order, under the kind's headers. */
  method PrintServices(services: seq<Service>, kind: BoardKind) returns (table: Table)
    ensures table.headers == Headers(kind)
    ensures |table.rows| == |services|
    ensures forall i :: 0 <= i < |services| ==> table.rows[i] == ServiceRow(services[i], kind)
  {
    var isDepartures := kind == Departures;
    var headers := if isDepartures then DEPARTURE_HEADERS else ARRIVAL_HEADERS;
    var rows: seq<Row> := [];
    for i := 0 to |services|
      invariant |rows| == i
      invariant forall j :: 0 <= j < i ==> rows[j] == ServiceRow(services[j], kind)
    {
      var service := services[i];
      var stationCell, scheduledTime, expectedTime;
      if isDepartures {
        stationCell := FormatStation(service.destination);
        scheduledTime := service.std.GetOr("");
        expectedTime := service.etd.GetOr("");
      } else {
        stationCell := FormatStation(service.origin);
        scheduledTime := service.sta.GetOr("");
        expectedTime := service.eta.GetOr("");
      }
      var colour := ExpectedColour(expectedTime);
      rows := rows + [Row([stationCell, service.platform.GetOr(NO_PLATFORM), service.operator, scheduledTime, expectedTime], colour)];
    }
    table := Table(headers, rows);
  }

  /**
   * The screen `fetch_and_print` draws for a fetched board: a "No services
   * found" line when the board is empty, otherwise a title line and the table.
   */
  method ShowBoard(board: Board, kind: BoardKind, stationCode: string) returns (screen: Screen)
    ensures screen.NoServices? <==> board.services == []
    ensures screen.NoServices? ==> screen.message == "No services found for station code '" + stationCode + "'."
    ensures screen.ServiceTable? ==>
      && screen.title == kind.Title() + " for " + board.locationName + " (" + board.crs + ")"
      && screen.table.headers == Headers(kind)
      && |screen.table.rows| == |board.services|
      && forall i :: 0 <= i < |board.services| ==> screen.table.rows[i] == ServiceRow(board.services[i], kind)
  {
    if board.services == [] {
      screen := NoServices("No services found for station code '" + stationCode + "'.");
    } else {
      var table := PrintServices(board.services, kind);
      screen := ServiceTable(kind.Title() + " for " + board.locationName + " (" + board.crs + ")", table);
    }
  }

  /**
   * `fetch_and_print`: fetch the board and, when that succeeds, decide the
   * screen; a fetch error is returned to the caller.
   */
  method FetchAndPrint(cells: Constants.ApiKeyCells, env: Constants.Environment, stationCode: string,
                       kind: BoardKind, numRows: Option<U8>,
                       transport: Request -> Result<ResponseBody, ApiError>)
    returns (r: Result<Screen, AppError>)
    modifies cells
    ensures var outcome := GetBoard(old(cells.Cell(kind.KeyCell())), kind, env, stationCode, numRows, transport);
      && (outcome.Err? ==> r == Err(outcome.error))
      && (outcome.Ok? ==> r.Ok? && (r.value.NoServices? <==> outcome.value.services == []))
      && (outcome.Ok? && r.value.NoServices? ==>
            r.value.message == "No services found for station code '" + stationCode + "'.")
      && (outcome.Ok? && r.value.ServiceTable? ==>
            && r.value.title == kind.Title() + " for " + outcome.value.locationName + " (" + outcome.value.crs + ")"
            && r.value.table.headers == Headers(kind)
            && |r.value.table.rows| == |outcome.value.services|
            && forall i :: 0 <= i < |outcome.value.services| ==>
                 r.value.table.rows[i] == ServiceRow(outcome.value.services[i], kind))
    ensures cells.Cell(kind.KeyCell())
         == Constants.LoadStep(old(cells.Cell(kind.KeyCell())), kind.KeyVariable(), Constants.EnvFetch(env)).0
    ensures kind == Departures ==> cells.arrApiKey == old(cells.arrApiKey)
    ensures kind == Arrivals ==> cells.depApiKey == old(cells.depApiKey)
  {
    var board := TryGetBoard(cells, env, kind, stationCode, numRows, transport);
    if board.Err? {
      return Err(board.error);
    }
    var screen := ShowBoard(board.value, kind, stationCode);
    r := Ok(screen);
  }
}
