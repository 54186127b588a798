/**
 * Configuration: the two API base URLs, the configuration error with its
 * user-facing message, and the write-once cache of the two API keys read from
 * the environment.
 */
module Constants {
  import opened Wrappers
  import opened Text

  const DEP_BASE_URL: string := "https://api1.raildata.org.uk/1010-live-departure-board-dep1_2/LDBWS/api/20220120/GetDepartureBoard"
  const ARR_BASE_URL: string := "https://api1.raildata.org.uk/1010-live-arrival-board-arr1_1/LDBWS/api/20220120/GetArrivalBoard"

  const DEP_API_KEY: string := "DEP_API_KEY"
  const ARR_API_KEY: string := "ARR_API_KEY"

  const MISSING_PREFIX: string := "Required environment variable '"
  const MISSING_SUFFIX: string := "' is not set. Provide it in your shell or a .env file."
  const EMPTY_PREFIX: string := "Environment variable '"
  const EMPTY_SUFFIX: string := "' is set but empty. It must contain a non-empty API key."

  /** Why an API key could not be loaded; the payload is the variable's name. */
  datatype ConfigError = MissingVar(name: string) | EmptyVar(name: string) {

    /** The `Display` text of the error. */
    function Message(): string {
      match this
      case MissingVar(v) => MISSING_PREFIX + v + MISSING_SUFFIX
      case EmptyVar(v) => EMPTY_PREFIX + v + EMPTY_SUFFIX
    }
  }

  /** The message is framed by a fixed text per variant, with the variable's name in between. */
  lemma MessageShape(e: ConfigError)
    ensures e.MissingVar? ==> e.Message()[0] == 'R'
    ensures e.EmptyVar? ==> e.Message()[0] == 'E'
    ensures var m := e.Message(); e.MissingVar? ==>
      && |m| == |MISSING_PREFIX| + |e.name| + |MISSING_SUFFIX|
      && m[..|MISSING_PREFIX|] == MISSING_PREFIX
      && m[|MISSING_PREFIX|..|m| - |MISSING_SUFFIX|] == e.name
      && m[|m| - |MISSING_SUFFIX|..] == MISSING_SUFFIX
    ensures var m := e.Message(); e.EmptyVar? ==>
      && |m| == |EMPTY_PREFIX| + |e.name| + |EMPTY_SUFFIX|
      && m[..|EMPTY_PREFIX|] == EMPTY_PREFIX
      && m[|EMPTY_PREFIX|..|m| - |EMPTY_SUFFIX|] == e.name
      && m[|m| - |EMPTY_SUFFIX|..] == EMPTY_SUFFIX
  {
    var m := e.Message();
    if e.MissingVar? {
      assert m == MISSING_PREFIX + e.name + MISSING_SUFFIX;
      assert m[|MISSING_PREFIX|..|m| - |MISSING_SUFFIX|] == e.name;
    } else {
      assert m == EMPTY_PREFIX + e.name + EMPTY_SUFFIX;
      assert m[|EMPTY_PREFIX|..|m| - |EMPTY_SUFFIX|] == e.name;
    }
  }

  /** Different errors never print the same message, so the text identifies the variant and the variable. */
  lemma MessageInjective(e1: ConfigError, e2: ConfigError)
    requires e1.Message() == e2.Message()
    ensures e1 == e2
  {
    MessageShape(e1);
    MessageShape(e2);
    var m := e1.Message();
    if e1.MissingVar? && e2.MissingVar? {
      assert e1.name == m[|MISSING_PREFIX|..|m| - |MISSING_SUFFIX|] == e2.name;
    } else if e1.EmptyVar? && e2.EmptyVar? {
      assert e1.name == m[|EMPTY_PREFIX|..|m| - |EMPTY_SUFFIX|] == e2.name;
    } else {
      // the two variants' messages start with different characters
      assert false;
    }
  }

  /** Why `env::var` fails: the variable is unset, or its value is not valid Unicode. */
  datatype VarError = NotPresent | NotUnicode

  /**
   * The process environment. A name that is absent is unset; a name mapped to
   * `None` is set to a value that is not valid Unicode.
   */
  type Environment = map<string, Option<string>>

  /** `env::var`. */
  function EnvVar(env: Environment, name: string): (r: Result<string, VarError>)
    ensures r.Ok? <==> name in env && env[name].Some?
    ensures r.Ok? ==> r.value == env[name].value
  {
    if name !in env then Err(NotPresent)
    else match env[name]
      case None => Err(NotUnicode)
      case Some(v) => Ok(v)
  }

  /** The fetch closure `load_and_cache` hands to `load_with`: read the variable from `env`. */
  function EnvFetch(env: Environment): string -> Result<string, VarError> {
    name => EnvVar(env, name)
  }

  /** The initialiser run inside `get_or_try_init`: classify what `fetch` returned. */
  function CellInit(name: string, fetched: Result<string, VarError>): Result<string, ConfigError> {
    match fetched
    case Ok(v) => if Trim(v) == [] then Err(EmptyVar(name)) else Ok(v)
    case Err(_) => Err(MissingVar(name))
  }

  /**
   * One call of `load_with` on a cell holding `cell`: the new contents of the
   * cell and the call's result. A filled cell answers from the cache and does not
   * call `fetch`; an empty one runs the initialiser and is filled only on success.
   */
  function LoadStep(cell: Option<string>, name: string, fetch: string -> Result<string, VarError>)
    : (Option<string>, Result<string, ConfigError>)
  {
    match cell
    case Some(v) => (cell, Ok(v))
    case None =>
      match CellInit(name, fetch(name))
      case Ok(v) => (Some(v), Ok(v))
      case Err(e) => (None, Err(e))
  }

  /** The three outcomes of loading into an empty cell from an environment. */
  lemma LoadFromEnvironment(name: string, env: Environment)
    ensures var (cell, r) := LoadStep(None, name, EnvFetch(env));
      && (r == Err(MissingVar(name)) <==> !(name in env && env[name].Some?))
      && (r == Err(EmptyVar(name)) <==> name in env && env[name].Some? && AllWhitespace(env[name].value))
      && (r.Ok? <==> name in env && env[name].Some? && !AllWhitespace(env[name].value))
      && (r.Ok? ==> r.value == env[name].value && cell == Some(env[name].value))
      && (r.Err? ==> cell == None)
  {
    if name in env && env[name].Some? {
      TrimEmptyIffAllWhitespace(env[name].value);
    }
  }

  /** A filled cell answers with its value whatever the environment now says. */
  lemma CachedValueIgnoresFetch(v: string, name: string, fetch: string -> Result<string, VarError>)
    ensures LoadStep(Some(v), name, fetch) == (Some(v), Ok(v))
  {
  }

  /** Write-once: after a successful load, every later load returns that same value and keeps the cell. */
  lemma {:induction false} LoadWriteOnce(cell: Option<string>, name: string, fetch: string -> Result<string, VarError>,
                                         laterName: string, laterFetch: string -> Result<string, VarError>)
    requires LoadStep(cell, name, fetch).1.Ok?
    ensures var (filled, r) := LoadStep(cell, name, fetch);
      filled == Some(r.value) && LoadStep(filled, laterName, laterFetch) == (filled, r)
  {
  }

  /** A failed load stores nothing, so a later call runs the initialiser again with the current environment. */
  lemma LoadFailureRetries(cell: Option<string>, name: string, fetch: string -> Result<string, VarError>,
                           laterFetch: string -> Result<string, VarError>)
    requires LoadStep(cell, name, fetch).1.Err?
    ensures cell == None
    ensures LoadStep(cell, name, fetch).0 == None
    ensures LoadStep(LoadStep(cell, name, fetch).0, name, laterFetch) == LoadStep(None, name, laterFetch)
  {
  }

  /** Which of the two static cells a load uses. */
  datatype KeyCell = DepKeyCell | ArrKeyCell

  /**
   * The two write-once statics `DEP_API_KEY_CELL` and `ARR_API_KEY_CELL`.
   * `None` is an empty cell; once a cell holds `Some`, nothing replaces it.
   */
  class ApiKeyCells {
    var depApiKey: Option<string>
    var arrApiKey: Option<string>

    /** Both cells start empty (`OnceCell::new`). */
    constructor ()
      ensures depApiKey == None && arrApiKey == None
    {
      depApiKey := None;
      arrApiKey := None;
    }

    function Cell(which: KeyCell): Option<string>
      reads this
    {
      match which
      case DepKeyCell => depApiKey
      case ArrKeyCell => arrApiKey
    }

    /** `load_with`: answer from `which`, filling it from `fetch` if it is empty; the other cell is untouched. */
    method LoadWith(name: string, which: KeyCell, fetch: string -> Result<string, VarError>)
      returns (r: Result<string, ConfigError>)
      modifies this
      ensures (Cell(which), r) == LoadStep(old(Cell(which)), name, fetch)
      ensures which == DepKeyCell ==> arrApiKey == old(arrApiKey)
      ensures which == ArrKeyCell ==> depApiKey == old(depApiKey)
      ensures old(Cell(which)).Some? ==> Cell(which) == old(Cell(which)) && r == Ok(old(Cell(which)).value)
    {
      var current := if which == DepKeyCell then depApiKey else arrApiKey;
      if current.Some? {
        r := Ok(current.value);
        return;
      }
      var fetched := fetch(name);
      match fetched {
        case Ok(v) =>
          if Trim(v) == [] {
            r := Err(EmptyVar(name));
          } else {
            if which == DepKeyCell { depApiKey := Some(v); } else { arrApiKey := Some(v); }
            r := Ok(v);
          }
        case Err(_) =>
          r := Err(MissingVar(name));
      }
    }

    /** `load_and_cache`: `load_with` reading the process environment. */
    method LoadAndCache(name: string, which: KeyCell, env: Environment) returns (r: Result<string, ConfigError>)
      modifies this
      ensures (Cell(which), r) == LoadStep(old(Cell(which)), name, EnvFetch(env))
      ensures which == DepKeyCell ==> arrApiKey == old(arrApiKey)
      ensures which == ArrKeyCell ==> depApiKey == old(depApiKey)
    {
      r := LoadWith(name, which, EnvFetch(env));
    }

    /** `dep_api_key`: "DEP_API_KEY" through the departures cell. */
    method DepApiKey(env: Environment) returns (r: Result<string, ConfigError>)
      modifies this
      ensures (depApiKey, r) == LoadStep(old(depApiKey), DEP_API_KEY, EnvFetch(env))
      ensures arrApiKey == old(arrApiKey)
    {
      r := LoadAndCache(DEP_API_KEY, DepKeyCell, env);
    }

    /** `arr_api_key`: "ARR_API_KEY" through the arrivals cell. */
    method ArrApiKey(env: Environment) returns (r: Result<string, ConfigError>)
      modifies this
      ensures (arrApiKey, r) == LoadStep(old(arrApiKey), ARR_API_KEY, EnvFetch(env))
      ensures depApiKey == old(depApiKey)
    {
      r := LoadAndCache(ARR_API_KEY, ArrKeyCell, env);
    }

    /**
     * `validate_required_keys`: the departures key is loaded first; if it fails,
     * its error is returned and the arrivals cell is not touched.
     */
    method ValidateRequiredKeys(env: Environment) returns (r: Result<(), ConfigError>)
      modifies this
      ensures var (dep, depResult) := LoadStep(old(depApiKey), DEP_API_KEY, EnvFetch(env));
        && depApiKey == dep
        && (depResult.Err? ==> r == Err(depResult.error) && arrApiKey == old(arrApiKey))
        && (depResult.Ok? ==>
              var (arr, arrResult) := LoadStep(old(arrApiKey), ARR_API_KEY, EnvFetch(env));
              && arrApiKey == arr
              && r == (if arrResult.Err? then Err(arrResult.error) else Ok(())))
    {
      var dep := DepApiKey(env);
      if dep.Err? {
        return Err(dep.error);
      }
      var arr := ArrApiKey(env);
      if arr.Err? {
        return Err(arr.error);
      }
      r := Ok(());
    }
  }
}
