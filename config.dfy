/**
 * The configuration model: what one load of the TOML file produces, how a load
 * fails, and the package-level "current configuration" that a reload replaces.
 * main.go declares the same types a second time; both copies are this module.
 */
module Config {
  import opened Wrappers

  /** A variant's query condition: parameter name to the value its first occurrence must equal. */
  type QueryMatch = map<string, string>

  /** A request's parsed query string: parameter name to every value given for it, in order. */
  type QueryValues = map<string, seq<string>>

  /**
   * One candidate response of a route. Status code, content type and delay are
   * optional (a nil pointer means "use the route's value"); the body is a plain
   * string, so an absent body is the empty string and never the route's body.
   */
  datatype ResponseConfig = ResponseConfig(
    query: QueryMatch,
    statusCode: Option<int>,
    contentType: Option<string>,
    responseBody: string,
    delayMs: Option<int>)

  /** One declared endpoint with its defaults and its ordered variants. */
  datatype RouteConfig = RouteConfig(
    path: string,
    httpMethod: string,
    statusCode: int,
    contentType: string,
    delayMs: int,
    responseBody: string,
    responses: seq<ResponseConfig>)

  /** The routes of one configuration file, in declaration order. */
  datatype Config = Config(routes: seq<RouteConfig>)

  // ----- Loading -----------------------------------------------------------

  type Bytes = seq<bv8>

  /** What reading the file produced: its bytes, or the operating system's error text. */
  datatype ReadOutcome = FileRead(data: Bytes) | ReadFailed(cause: string)

  /** What the TOML decoder produced from the bytes. */
  datatype ParseOutcome = Parsed(config: Config) | ParseFailed(cause: string)

  /** A failed load, classified by the step that failed. */
  datatype LoadError = ReadError(cause: string) | ParseError(cause: string) {

    /** The text of the wrapped Go error. */
    function Message(): string
    {
      match this
      case ReadError(c) => ReadPrefix + c
      case ParseError(c) => ParsePrefix + c
    }
  }

  const ReadPrefix := "failed to read config file: "
  const ParsePrefix := "failed to parse config file: "

  datatype LoadOutcome = Loaded(config: Config) | LoadFailed(error: LoadError)

  /**
   * LoadConfig: read the file, then decode it. The file system and the decoder
   * are inputs; the read error is checked before the decoder is consulted.
   */
  function LoadConfig(file: ReadOutcome, parse: Bytes -> ParseOutcome): LoadOutcome
  {
    match file
    case ReadFailed(cause) => LoadFailed(ReadError(cause))
    case FileRead(data) =>
      match parse(data)
      case ParseFailed(cause) => LoadFailed(ParseError(cause))
      case Parsed(config) => Loaded(config)
  }

  /** A load succeeds exactly when both steps do, and then yields the decoded config unchanged. */
  lemma LoadClassifiesFailures(file: ReadOutcome, parse: Bytes -> ParseOutcome)
    ensures LoadConfig(file, parse).Loaded? <==> file.FileRead? && parse(file.data).Parsed?
    ensures LoadConfig(file, parse).Loaded? ==> LoadConfig(file, parse).config == parse(file.data).config
    ensures file.ReadFailed? ==> LoadConfig(file, parse) == LoadFailed(ReadError(file.cause))
    ensures file.FileRead? && parse(file.data).ParseFailed? ==>
              LoadConfig(file, parse) == LoadFailed(ParseError(parse(file.data).cause))
  {
  }

  /** The read check comes first: a read failure is reported whatever the decoder would say. */
  lemma ReadFailureIgnoresParser(cause: string, parse1: Bytes -> ParseOutcome, parse2: Bytes -> ParseOutcome)
    ensures LoadConfig(ReadFailed(cause), parse1) == LoadConfig(ReadFailed(cause), parse2)
    ensures LoadConfig(ReadFailed(cause), parse1).LoadFailed?
  {
  }

  /** The error text tells the two failing steps apart by its prefix. */
  lemma MessageNamesFailedStep(e: LoadError)
    ensures ReadPrefix <= e.Message() <==> e.ReadError?
    ensures ParsePrefix <= e.Message() <==> e.ParseError?
  {
    if e.ReadError? {
      assert !(ParsePrefix <= e.Message()) by {
        assert ParsePrefix[10] != e.Message()[10];
      }
    } else {
      assert !(ReadPrefix <= e.Message()) by {
        assert ReadPrefix[10] != e.Message()[10];
      }
    }
  }

  // ----- The current configuration -----------------------------------------

  /** The package-level CurrentConfig pointer of config/config.go. */
  class ConfigStore {
    var currentConfig: Option<Config>

    constructor ()
      ensures currentConfig == None
    {
      currentConfig := None;
    }

    /**
     * ReloadConfig: on a failed load, return its error and keep the current
     * configuration; on success, replace it with exactly the loaded one.
     */
    method ReloadConfig(file: ReadOutcome, parse: Bytes -> ParseOutcome) returns (err: Option<LoadError>)
      modifies this
      ensures LoadConfig(file, parse).LoadFailed? ==>
                err == Some(LoadConfig(file, parse).error) && currentConfig == old(currentConfig)
      ensures LoadConfig(file, parse).Loaded? ==>
                err == None && currentConfig == Some(LoadConfig(file, parse).config)
    {
      var loaded := LoadConfig(file, parse);
      if loaded.LoadFailed? {
        return Some(loaded.error);
      }
      currentConfig := Some(loaded.config);
      err := None;
    }
  }
}
