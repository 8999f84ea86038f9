/** `EnricherConfig`: the settings of the enricher, their defaults and the three field
    validators. Reading the environment and `.env` files is not modelled: the model
    starts from the values the caller supplied, `None` standing for an absent one. */
module Config {
  import opened Wrappers
  import opened Text
  import opened Json

  datatype EnricherConfig = EnricherConfig(
    datahubGmsUrl: string,
    datahubGmsToken: Option<string>,
    anthropicApiKey: string,
    llmModel: string,
    llmMaxTokens: int,
    llmTemperature: real,
    batchSize: int,
    maxRetries: int,
    logLevel: string,
    enablePiiDetection: bool,
    enableTagSuggestions: bool,
    enableColumnDescriptions: bool)

  /** The values supplied for each field; `None` where the field is left out. */
  datatype Supplied = Supplied(
    datahubGmsUrl: Option<string>,
    datahubGmsToken: Option<string>,
    anthropicApiKey: Option<string>,
    llmModel: Option<string>,
    llmMaxTokens: Option<int>,
    llmTemperature: Option<real>,
    batchSize: Option<int>,
    maxRetries: Option<int>,
    logLevel: Option<string>,
    enablePiiDetection: Option<bool>,
    enableTagSuggestions: Option<bool>,
    enableColumnDescriptions: Option<bool>)

  const DefaultGmsUrl := "http://localhost:8080"
  const DefaultModel := "claude-sonnet-4-5-20250929"
  const DefaultMaxTokens := 4096
  const DefaultTemperature := 0.7
  const DefaultBatchSize := 10
  const DefaultMaxRetries := 3
  const DefaultLogLevel := "INFO"

  const ValidLevels: seq<string> := ["DEBUG", "INFO", "WARNING", "ERROR", "CRITICAL"]

  /** The attribute names `EnricherConfig` declares, in declaration order. */
  const DeclaredFields: seq<string> := [
    "datahub_gms_url", "datahub_gms_token", "anthropic_api_key", "llm_model", "llm_max_tokens",
    "llm_temperature", "batch_size", "max_retries", "log_level", "enable_pii_detection",
    "enable_tag_suggestions", "enable_column_descriptions"]

  /** The messages of the validators' `ValueError`s. */
  const TemperatureMessage := "Temperature must be between 0.0 and 1.0"
  const LogLevelMessage := "Log level must be one of ['DEBUG', 'INFO', 'WARNING', 'ERROR', 'CRITICAL']"

  /** `validate_temperature`: the value itself when it lies in [0.0, 1.0]. */
  function ValidateTemperature(v: real): (r: Result<real, Exception>)
    ensures r.Ok? <==> 0.0 <= v <= 1.0
    ensures r.Ok? ==> r.value == v
  {
    if !(0.0 <= v <= 1.0) then Err(ValueError(TemperatureMessage)) else Ok(v)
  }

  /** `validate_log_level`: the upper-cased value when it names a level. */
  function ValidateLogLevel(v: string): (r: Result<string, Exception>)
    ensures r.Ok? <==> Upper(v) in ValidLevels
    ensures r.Ok? ==> r.value == Upper(v) && r.value in ValidLevels
  {
    var upper := Upper(v);
    if upper !in ValidLevels then Err(ValueError(LogLevelMessage))
    else Ok(upper)
  }

  /** `validate_positive_int`, applied to `batch_size` and `max_retries`. */
  function ValidatePositiveInt(v: int): (r: Result<int, Exception>)
    ensures r.Ok? <==> v > 0
    ensures r.Ok? ==> r.value == v
  {
    if v <= 0 then Err(ValueError("Value must be positive")) else Ok(v)
  }

  function OrElse<T>(o: Option<T>, default: T): T {
    match o
    case Some(x) => x
    case None => default
  }

  /** Building the settings: the required API key, the defaults for what was left out,
      and the validators on the supplied or default values. Pydantic reports every
      failing field in one `ValidationError`; the model reports the first, in field
      order. */
  function NewConfig(s: Supplied): Result<EnricherConfig, Exception> {
    if s.anthropicApiKey.None? then Err(ValueError("anthropic_api_key: Field required"))
    else
      var temperature :- ValidateTemperature(OrElse(s.llmTemperature, DefaultTemperature));
      var batchSize :- ValidatePositiveInt(OrElse(s.batchSize, DefaultBatchSize));
      var maxRetries :- ValidatePositiveInt(OrElse(s.maxRetries, DefaultMaxRetries));
      var logLevel :- ValidateLogLevel(OrElse(s.logLevel, DefaultLogLevel));
      Ok(EnricherConfig(
        OrElse(s.datahubGmsUrl, DefaultGmsUrl),
        s.datahubGmsToken,
        s.anthropicApiKey.value,
        OrElse(s.llmModel, DefaultModel),
        OrElse(s.llmMaxTokens, DefaultMaxTokens),
        temperature, batchSize, maxRetries, logLevel,
        OrElse(s.enablePiiDetection, true),
        OrElse(s.enableTagSuggestions, true),
        OrElse(s.enableColumnDescriptions, true)))
  }

  /** Nothing supplied but the key. */
  function OnlyKey(key: string): Supplied {
    Supplied(None, None, Some(key), None, None, None, None, None, None, None, None, None)
  }

  /** The upper-cased form of an accepted level is accepted again, unchanged. */
  lemma LogLevelIdempotent(v: string)
    requires ValidateLogLevel(v).Ok?
    ensures ValidateLogLevel(ValidateLogLevel(v).value) == ValidateLogLevel(v)
  {
    UpperIdempotent(v);
  }

  /** The defaults: with only the key supplied, every other field takes its default and
      all three features are on. */
  lemma Defaults(key: string)
    ensures NewConfig(OnlyKey(key)) == Ok(EnricherConfig(
      "http://localhost:8080", None, key, "claude-sonnet-4-5-20250929", 4096, 0.7,
      10, 3, "INFO", true, true, true))
  {
    assert Upper("INFO") == "INFO";
  }

  /** Without the API key no settings can be built, whatever else is supplied. */
  lemma KeyRequired(s: Supplied)
    requires s.anthropicApiKey.None?
    ensures NewConfig(s).Err?
  {
  }

  /** A settings value that was built satisfies every validator. */
  lemma BuiltIsValid(s: Supplied)
    requires NewConfig(s).Ok?
    ensures var c := NewConfig(s).value;
      0.0 <= c.llmTemperature <= 1.0 && c.batchSize > 0 && c.maxRetries > 0 && c.logLevel in ValidLevels
      && c.anthropicApiKey == s.anthropicApiKey.value
  {
  }

  /** The temperature test vectors: 0.0, 0.5 and 1.0 are accepted, -0.1 and 1.1 refused. */
  lemma TemperatureVectors()
    ensures ValidateTemperature(0.0).Ok? && ValidateTemperature(0.5).Ok? && ValidateTemperature(1.0).Ok?
    ensures ValidateTemperature(-0.1).Err? && ValidateTemperature(1.1).Err?
  {
  }

  /** The log-level test vectors: `debug` becomes `DEBUG`, `WARNING` stays, `INVALID`
      is refused. */
  lemma LogLevelVectors()
    ensures ValidateLogLevel("debug") == Ok("DEBUG")
    ensures ValidateLogLevel("WARNING") == Ok("WARNING")
    ensures ValidateLogLevel("INVALID").Err?
  {
    UpperDebug();
    UpperWarning();
    UpperInvalid();
  }

  lemma UpperDebug() ensures Upper("debug") == "DEBUG" {
    assert Upper("debug")[..] == ['D', 'E', 'B', 'U', 'G'];
  }

  lemma UpperWarning() ensures Upper("WARNING") == "WARNING" {
    assert Upper("WARNING")[..] == ['W', 'A', 'R', 'N', 'I', 'N', 'G'];
  }

  lemma UpperInvalid() ensures Upper("INVALID") !in ValidLevels {
    assert Upper("INVALID")[..] == ['I', 'N', 'V', 'A', 'L', 'I', 'D'];
  }

  /** The positive-integer test vectors: 1 and 10 pass, 0 and -1 do not. */
  lemma PositiveVectors()
    ensures ValidatePositiveInt(1) == Ok(1) && ValidatePositiveInt(10) == Ok(10)
    ensures ValidatePositiveInt(0).Err? && ValidatePositiveInt(-1).Err?
  {
  }
}
