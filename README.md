# rusty_rails board core in Dafny

rusty_rails is a terminal board that shows live train departures or arrivals
for a station. This project models its decision logic and proves properties of
that logic:

- **Configuration** (`constants.dfy`): the two API base URLs, the
  `ConfigError` messages, and the write-once cache of the two API keys read
  from the environment. The cache is the class `ApiKeyCells`, whose two fields
  stand for the `OnceCell` statics. The environment is a map: a name that is
  absent is unset, and a name mapped to `None` holds a value that is not valid
  Unicode.
- **Service layer** (`service.dfy`):
  - the `BoardKind` tag;
  - the conversion of raw API records into services, which fails on a missing
    destination or origin;
  - building a board, which drops every record that does not convert and keeps
    the order of the rest;
  - the shape of the HTTP request;
  - `try_get_board`.

  The HTTP call is a function parameter `transport`. It maps a request to a
  decoded body or an `ApiError`.
- **Front end** (`presentation.dfy`): what `main.rs` decides before drawing.
  That is the station cell text, the green/red colour of the expected-time
  cell, the headers and rows per board kind, and the empty-board message.
- **Departure records** (`departure.dfy`): the class `Departure` with its
  getters and its four setters.
- **Departure board** (`departure_board.dfy`): the class `DepartureBoard`,
  which keeps its departures sorted by ETA with a stable sort after every
  insertion and removal.
- **Support**: `text.dfy` holds the string operations the code relies on
  (ASCII case mapping, `eq_ignore_ascii_case`, `trim`). `wrappers.dfy` holds
  `Option` and `Result`. `errors.dfy` mirrors `AppError`.

Specification functions model the pure code. Classes with `modifies` clauses
model the code that updates state: the key cells, `Departure` and
`DepartureBoard`. Each method is proved against a specification function:
- `LoadWith` against `LoadStep`;
- `TryGetBoard` against `GetBoard`;
- `SortByEta` against `SortByKey`;
- `AddDeparture` and `RemoveDeparture` against `SortByKey`, and, on a sorted
  board, against `InsertByKey` and plain removal.

## Model

| member | source | states |
|---|---|---|
| Text.ToAsciiUppercase | src/service/mod.rs:218 | the result has the input's length, and each character is the input's character with ASCII lower-case letters upper-cased |
| Text.UppercaseEqualIffEqIgnoreCase | src/main.rs:173 | two strings upper-case to the same text if and only if they are equal ignoring ASCII case |
| Text.TrimEmptyIffAllWhitespace | src/constants/mod.rs:97 | `trim().is_empty()` holds exactly for strings made only of whitespace, the empty string included |
| Constants.MessageShape | src/constants/mod.rs:53-66 | each message is its variant's fixed prefix, then the variable name, then its fixed suffix; a missing variable's message starts with 'R' and an empty one's with 'E' |
| Constants.MessageInjective | src/constants/mod.rs:53-66 | two errors with the same message are the same error (same variant, same variable) |
| Constants.EnvVar | src/constants/mod.rs:113 | `env::var` succeeds exactly when the variable is set to a Unicode value, and then returns that value |
| Constants.LoadFromEnvironment | src/constants/mod.rs:95-104 | loading into an empty cell gives `MissingVar` if the variable is unset or not Unicode, `EmptyVar` if it is all whitespace, and otherwise the value; the untrimmed value is cached on success, and nothing is cached on failure |
| Constants.CachedValueIgnoresFetch | src/constants/mod.rs:95 | a filled cell returns its value without consulting the fetch function |
| Constants.LoadWriteOnce | src/constants/mod.rs:95-105 | after a successful load, every later load, whatever the name or fetch function, returns the same value and leaves the cell as it is |
| Constants.LoadFailureRetries | src/constants/mod.rs:95-104 | a failing load happens only on an empty cell and leaves it empty, so the next call runs the initialiser again against the current environment |
| Constants.ApiKeyCells.constructor | src/constants/mod.rs:71-74 | both key cells start empty |
| Constants.ApiKeyCells.LoadWith | src/constants/mod.rs:87-106 | the selected cell and the result follow `LoadStep`; the other cell is unchanged; a filled cell keeps its value and returns it |
| Constants.ApiKeyCells.LoadAndCache | src/constants/mod.rs:109-114 | `LoadWith` with `env::var` over the given environment |
| Constants.ApiKeyCells.DepApiKey | src/constants/mod.rs:123-125 | loads `DEP_API_KEY` through the departures cell; the arrivals cell is unchanged |
| Constants.ApiKeyCells.ArrApiKey | src/constants/mod.rs:134-136 | loads `ARR_API_KEY` through the arrivals cell; the departures cell is unchanged |
| Constants.ApiKeyCells.ValidateRequiredKeys | src/constants/mod.rs:146-150 | the departures key is checked first, and its error is returned without touching the arrivals cell; otherwise the result is the arrivals key's error or `Ok(())` |
| Service.BoardKindMapping | src/service/mod.rs:45-58 | departures map to "Departures", the departures URL and `DEP_API_KEY`; arrivals map to "Arrivals", the arrivals URL and `ARR_API_KEY`; the two kinds never share a URL or a key cell |
| Service.ApiKey | src/service/mod.rs:61-66 | each kind loads its own key through its own cell and leaves the other cell unchanged |
| Service.DecodeResponse | src/service/mod.rs:76-84 | an absent `trainServices` decodes as the empty list, a present one as itself; the station name and code pass through |
| Service.ServiceFrom | src/service/mod.rs:179-201 | conversion succeeds if and only if both station lists are non-empty; an empty destination list gives `MissingDestination` (checked first), and otherwise an empty origin list gives `MissingOrigin`; a success takes the first station of each list and copies every other field |
| Service.ConversionRoundTrip | src/service/mod.rs:179-201 | converting a service's one-station record gives back the service, and a one-station record converts to a service whose one-station record is that record |
| Service.ConvertAll | src/service/mod.rs:229-233 | the `filter_map` never yields more services than records |
| Service.ConvertAllAppend | src/service/mod.rs:229-233 | converting a concatenation is the concatenation of the conversions |
| Service.ConvertAllKeepsAllIff | src/service/mod.rs:229-233 | no record is dropped if and only if every record converts |
| Service.KeptIndicesAreConverting | src/service/mod.rs:229-233 | the kept positions are in range and strictly increasing, and a position is kept if and only if its record converts |
| Service.KeptConversions | src/service/mod.rs:229-233 | the k-th service is the conversion of the record at the k-th kept position |
| Service.ConvertAllSelects | src/service/mod.rs:229-233 | the board's services are exactly the converted records, in input order: the order-preserving subsequence of the records that convert |
| Service.ConvertOne | src/service/mod.rs:232 | a single record yields its service, or nothing when it does not convert |
| Service.BoardSizeBound | src/service/mod.rs:229-233 | the board has at most as many services as records, with equality if and only if every record converts |
| Service.BuildBoard | src/service/mod.rs:229-239 | the board keeps the response's station name and code, and has at most as many services as records |
| Service.RequestShape | src/service/mod.rs:218-222 | the URL is the base URL, "/", and the station code upper-cased character by character, with no ASCII lower-case letter left; the key goes in `x-apikey`; `numRows` is the caller's value or 10 |
| Service.RequestIgnoresStationCase | src/service/mod.rs:218 | two station codes give the same request if and only if they are equal ignoring ASCII case |
| Service.FetchBoardOutcome | src/service/mod.rs:212-240 | a fetch fails exactly when the call fails, and with the same error; otherwise the board names the responding station and holds the converted records, which is none at all when `trainServices` is absent or empty |
| Service.MixedBoardDropsBadRecord | src/service/mod.rs:469-510 | a response holding a good record and a record without a destination yields a one-service board with the good record's destination |
| Service.KeyErrorPrecedesFetch | src/service/mod.rs:276-284 | a key error is the outcome whatever the transport would answer; with a key, a transport failure becomes `AppError::Api` and a body becomes the board |
| Service.TryGetBoard | src/service/mod.rs:276-284 | the result is `GetBoard` on the kind's cell before the call; the cell is updated as the key load says, and the other kind's cell is unchanged |
| Presentation.StationLabelVia | src/main.rs:151-157 | without a routing note the label is "name (crs)"; a note adds one line holding it |
| Presentation.FormatStation | src/main.rs:151-157 | returns "name (crs)", followed by "\n" and the routing note when there is one |
| Presentation.ExpectedColourIffOnTime | src/main.rs:172-177 | the expected time is green if and only if it upper-cases to "ON TIME"; everything else is red |
| Presentation.ExpectedColourIgnoresCase | src/main.rs:172-177 | texts equal up to ASCII case get the same colour |
| Presentation.OnTimeIsGreen | src/main.rs:402-410 | "On time" and "ON TIME" are green |
| Presentation.OtherTextsAreRed | src/main.rs:412-440 | "Delayed", "Cancelled" and "10:15" are red |
| Presentation.HeadersByKind | src/main.rs:196-207 | both kinds have five headers; departures start with "Destination" and arrivals with "Origin"; the other four are Platform, Operator, Scheduled and Expected |
| Presentation.ServiceRowColumns | src/main.rs:210-233 | each row has one cell per header; departures show destination, `std` and `etd`, arrivals show origin, `sta` and `eta`; a missing time is "" and a missing platform "--"; the colour is that of the expected-time cell |
| Presentation.PrintServices | src/main.rs:195-234 | the table has the kind's headers and exactly one row per service, in board order, each row that service's row |
| Presentation.ShowBoard | src/main.rs:270-285 | the "No services found for station code '…'." message appears if and only if the board is empty; otherwise the title is "<Kind> for <name> (<crs>)" and the table holds one row per service |
| Presentation.FetchAndPrint | src/main.rs:259-288 | a fetch error is returned unchanged; a fetched board gives the "No services found for station code '…'." message exactly when it has no services, and otherwise the title "<Kind> for <name> (<crs>)" over a table with the kind's headers and exactly that service's row at each position; the key cells change as `try_get_board` changes them |
| Departures.Departure.constructor | src/departure.rs:18-20 | every getter returns the argument of the same name |
| Departures.Departure.SetExpectedTime | src/departure.rs:54-56 | the expected time becomes the argument, and every other field keeps its value |
| Departures.Departure.SetPlatform | src/departure.rs:58-60 | the platform becomes the argument, and every other field keeps its value |
| Departures.Departure.SetStatus | src/departure.rs:62-64 | the status becomes the argument, and every other field keeps its value |
| Departures.Departure.SetDelayReason | src/departure.rs:66-68 | the delay reason becomes the argument, and every other field keeps its value |
| DepartureBoards.InsertKeepsSorted | src/departure_board.rs:12-15 | inserting into an ETA-sorted list keeps it sorted |
| DepartureBoards.InsertElements | src/departure_board.rs:12-15 | insertion adds exactly one copy of the new departure and keeps every other |
| DepartureBoards.InsertAfterAll | src/departure_board.rs:12-15 | inserting a departure whose ETA is not earlier than any other appends it |
| DepartureBoards.SortIsSorted | src/departure_board.rs:28-30 | the sorted list is in ascending ETA order |
| DepartureBoards.SortIsPermutation | src/departure_board.rs:28-30 | sorting permutes: the multiset of departures is unchanged |
| DepartureBoards.SortIsStable | src/departure_board.rs:28-30 | the sort is stable: for every ETA, the departures with that ETA keep their relative order |
| DepartureBoards.SortOfSorted | src/departure_board.rs:28-30 | sorting an already sorted list changes nothing |
| DepartureBoards.WithKeyAppend | src/departure_board.rs:28-30 | the departures with a given ETA in a concatenation are those of each part, in order |
| DepartureBoards.WithKeyInsert | src/departure_board.rs:12-15 | in a sorted list, the inserted departure comes after every departure with the same ETA |
| DepartureBoards.RemoveKeepsSorted | src/departure_board.rs:17-20 | removing one departure from a sorted list leaves it sorted |
| DepartureBoards.RemoveElements | src/departure_board.rs:17-20 | removing the element at an index takes exactly one copy of it out |
| DepartureBoards.DepartureBoard.constructor | src/departure_board.rs:8-10 | a new board is empty and sorted |
| DepartureBoards.DepartureBoard.SortByEta | src/departure_board.rs:28-30 | the departures become their stable sort by ETA: sorted, a permutation of the old list, and in the old order within each ETA |
| DepartureBoards.DepartureBoard.AddDeparture | src/departure_board.rs:12-15 | push then re-sort: the board becomes the stable ETA sort of the old list plus the departure, is sorted, and gains exactly that departure; on a sorted board this places the departure after every departure whose ETA is not later than its own |
| DepartureBoards.DepartureBoard.RemoveDeparture | src/departure_board.rs:17-20 | remove then re-sort: for an index in range, the board becomes the stable ETA sort of the other departures, is sorted, and loses exactly the removed departure; on a sorted board the others keep their old order |

## Left out

- HTTP and JSON: the shared `reqwest` client, `send`, `json` and serde
  decoding are a parameter `transport`. It returns a decoded body, in which
  `trainServices` may be absent, or an `ApiError` (`NetworkError` or
  `DecodeError`) that stands for `reqwest::Error`.
- The refresh loop in `main`: the `tokio::select!` over the interval timer
  and key reads, raw mode, and `REFRESH_INTERVAL_SECS`. These are concurrency
  and terminal control.
- Terminal output: `comfy_table` styling (bold, alignment), `println!`,
  `clearscreen::clear`, and the "Last updated" clock line. The model produces
  the screen's content (`Screen`, `Table`, `Row`, `Colour`) instead of
  printing it. The `AppError::Io` and `AppError::ClearScreen` variants are
  therefore not modelled.
- `.env` loading, the `fail-fast-config` exit and `clap` argument parsing. The
  environment is the map `Constants.Environment`, and the station code, kind
  and row count are parameters.
- Text.ToAsciiUppercase: upper-cases ASCII letters only. `str::to_uppercase`
  also maps non-ASCII letters, and some of them to several characters (it
  turns "ß" into "SS"). For a non-ASCII station code the model's URL differs
  from the program's, and Service.RequestIgnoresStationCase does not describe
  the program.
- `ServiceConversionError` is declared in the `Errors` module rather than
  beside the service types, so that `AppError` can mention it without a cycle
  between modules.
- `num_rows` is a `u8`, modelled by the subset type `Wrappers.U8`. Services,
  boards and stations are immutable values. The `&'static str` lifetimes of the
  cached keys have no counterpart.
- Departures.Departure: the getters are read-only functions without contracts
  of their own. What they return is stated by the constructor's and setters'
  contracts.
- DepartureBoards.DepartureBoard: `Departure::eta()`, which `sort_by_eta`
  calls, is not defined in `src/departure.rs`. The board therefore receives
  the ETA timestamp as a key function (`eta`) when it is constructed. The
  board never changes its departures, so each key stays fixed while the
  departure is on the board.
- DepartureBoards.DepartureBoard.SortByEta: `sort_by` is modelled by a
  functional stable insertion sort (`SortByKey`) assigned to the field, not
  by an in-place algorithm.
- DepartureBoards.DepartureBoard.RemoveDeparture: an out-of-range index, on
  which `Vec::remove` panics, is excluded by a precondition. The panic is not
  modelled.
- `print_departures`: it prints, and it calls `summarise_to_string`, which is
  not defined in `src/departure.rs`.
- `Departure` timestamps (`DateTime<Utc>`) are integers.
