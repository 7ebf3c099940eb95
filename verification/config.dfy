/**
 * `ConfigManager`'s configuration side: the JSON settings document as a map
 * from keys to values, and the SMTP settings read from the environment.
 */
module Config {
  import opened Base

  /** The JSON values the configuration holds. */
  datatype Value = Text(text: string) | Number(number: int) | Flag(flag: bool)

  /** The decoded `config.json`. */
  type Settings = map<string, Value>

  /** Why `load_config` did not return a document. */
  datatype ConfigError =
    | FileNotFound(path: string)  // the `FileNotFoundError` it raises itself
    | Malformed(path: string)     // `json.load` raised

  const EXCEL_KEY: string := "excel_file"
  const BODY_KEY: string := "body_file"
  const SUBJECT_KEY: string := "subject"
  const DELAY_KEY: string := "delay_segundos"
  const DEFAULTS_KEY: string := "usar_archivos_por_defecto"

  /** Seconds between sends when the document names none. */
  const DEFAULT_DELAY: int := 1

  /**
   * `load_config`: a missing file raises `FileNotFoundError` naming the path;
   * otherwise the file is decoded, and `decode` stands for `json.load`.
   */
  function LoadConfig(path: string, file: Option<string>, decode: string -> Option<Settings>): (r: Result<Settings, ConfigError>)
    ensures file.None? <==> r == Failure(FileNotFound(path))
    ensures r.Success? <==> file.Some? && decode(file.value).Some?
    ensures r.Success? ==> r.value == decode(file.value).value
  {
    match file
    case None => Failure(FileNotFound(path))
    case Some(text) =>
      match decode(text)
      case None => Failure(Malformed(path))
      case Some(settings) => Success(settings)
  }

  /** The five keys `get_smtp_settings` returns. */
  const HOST_KEY: string := "smtp_host"
  const PORT_KEY: string := "smtp_port"
  const USER_KEY: string := "smtp_user"
  const PASSWORD_KEY: string := "smtp_password"
  const FROM_KEY: string := "email_from"

  /** An SMTP settings map: each key holds `os.getenv`'s answer, `None` when unset. */
  type SmtpSettings = map<string, Option<string>>

  /**
   * `get_smtp_settings`: exactly the five keys, each read from its
   * environment variable; the sender address comes from `SMTP_FROM`.
   */
  function GetSmtpSettings(env: string -> Option<string>): (r: SmtpSettings)
    ensures r.Keys == {HOST_KEY, PORT_KEY, USER_KEY, PASSWORD_KEY, FROM_KEY}
    ensures r[HOST_KEY] == env("SMTP_HOST") && r[PORT_KEY] == env("SMTP_PORT")
    ensures r[USER_KEY] == env("SMTP_USER") && r[PASSWORD_KEY] == env("SMTP_PASSWORD")
    ensures r[FROM_KEY] == env("SMTP_FROM")
  {
    map[HOST_KEY := env("SMTP_HOST"), PORT_KEY := env("SMTP_PORT"), USER_KEY := env("SMTP_USER"),
        PASSWORD_KEY := env("SMTP_PASSWORD"), FROM_KEY := env("SMTP_FROM")]
  }

  /** Python truthiness of an environment answer: set and not empty. */
  predicate Truthy(v: Option<string>)
  {
    v.Some? && |v.value| > 0
  }

  /** `all(...)` over the values the given keys hold; a key the map lacks holds `None`. */
  predicate AllTruthy(settings: SmtpSettings, keys: seq<string>)
  {
    forall k :: k in keys ==> k in settings && Truthy(settings[k])
  }

  /** `config.get('delay_segundos', 1)`. */
  function DelayOf(config: Settings): (r: Value)
    ensures DELAY_KEY !in config ==> r == Number(DEFAULT_DELAY)
    ensures DELAY_KEY in config ==> r == config[DELAY_KEY]
  {
    if DELAY_KEY in config then config[DELAY_KEY] else Number(DEFAULT_DELAY)
  }
}
