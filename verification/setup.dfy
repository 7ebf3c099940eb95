/**
 * The preparation `run_sender` does before it reads the checkpoint
 * (sender.py lines 27-66): load the configuration, read the SMTP settings,
 * build the sender, and look up the campaign's settings.
 *
 * As written, the sender's address is looked up under `smtp_from`, a key
 * `get_smtp_settings` never returns, so every run that gets that far raises
 * `KeyError`. `SetUpWith` takes the key as a parameter: `SetUpAsWritten`
 * uses the source's key and `SetUp` the key the settings actually hold.
 */
module Setup {
  import opened Base
  import opened Config
  import opened Transport
  import PyInt
  import Sheet
  import Dispatch
  import Run

  /** The file `ConfigManager` reads by default. */
  const CONFIG_PATH: string := "config.json"

  /** The key sender.py line 44 reads the sender's address from. */
  const WRITTEN_FROM_KEY: string := "smtp_from"

  /** The SMTP settings `all(smtp_settings.values())` requires to be non-empty. */
  const SMTP_KEYS: seq<string> := [HOST_KEY, PORT_KEY, USER_KEY, PASSWORD_KEY, FROM_KEY]

  /** Why the preparation stopped: logged and returned, or an exception that escapes. */
  datatype Stop =
    | NoConfig               // `FileNotFoundError`, logged; the function returns
    | ConfigUnreadable       // `json.load` raised; not caught
    | SmtpIncomplete         // a setting is unset or empty; logged; the function returns
    | KeyMissing(key: string) // `KeyError`; not caught
    | PortInvalid(text: string) // `int(smtp_port)` raised `ValueError`; not caught

  /** What the preparation hands to the sending part. */
  datatype Ready = Ready(sender: Sender, excelFile: Value, bodyFile: Value, subject: Value, delay: Value)

  /** The first of the campaign keys sender.py lines 48-50 read that the document lacks. */
  function MissingCampaignKey(config: Settings): (r: Option<string>)
    ensures r.None? <==> EXCEL_KEY in config && BODY_KEY in config && SUBJECT_KEY in config
    ensures r.Some? ==> r.value !in config && r.value in [EXCEL_KEY, BODY_KEY, SUBJECT_KEY]
  {
    if EXCEL_KEY !in config then Some(EXCEL_KEY)
    else if BODY_KEY !in config then Some(BODY_KEY)
    else if SUBJECT_KEY !in config then Some(SUBJECT_KEY)
    else None
  }

  /** sender.py lines 28-51, with the sender's address read from `fromKey`. */
  function SetUpWith(configFile: Option<string>, decode: string -> Option<Settings>,
                     env: string -> Option<string>, fromKey: string): (r: Result<Ready, Stop>)
    ensures configFile.None? ==> r == Failure(NoConfig)
    ensures configFile.Some? && decode(configFile.value).None? ==> r == Failure(ConfigUnreadable)
    ensures r.Success? ==>
              && configFile.Some? && decode(configFile.value).Some?
              && AllTruthy(GetSmtpSettings(env), SMTP_KEYS) && fromKey in GetSmtpSettings(env)
              && MissingCampaignKey(decode(configFile.value).value).None?
              && r.value.sender == Sender(GetSmtpSettings(env)[fromKey], false)
              && r.value.subject == decode(configFile.value).value[SUBJECT_KEY]
              && r.value.delay == DelayOf(decode(configFile.value).value)
  {
    match LoadConfig(CONFIG_PATH, configFile, decode)
    case Failure(FileNotFound(_)) => Failure(NoConfig)
    case Failure(Malformed(_)) => Failure(ConfigUnreadable)
    case Success(config) =>
      var smtp := GetSmtpSettings(env);
      if !AllTruthy(smtp, SMTP_KEYS) then Failure(SmtpIncomplete)
      else if fromKey !in smtp then Failure(KeyMissing(fromKey))
      else
        match NewSender(smtp[PORT_KEY].value, smtp[fromKey])
        case Failure(BadPort(text)) => Failure(PortInvalid(text))
        case Success(sender) =>
          match MissingCampaignKey(config)
          case Some(key) => Failure(KeyMissing(key))
          case None => Success(Ready(sender, config[EXCEL_KEY], config[BODY_KEY], config[SUBJECT_KEY], DelayOf(config)))
  }

  /** The preparation as sender.py writes it. */
  function SetUpAsWritten(configFile: Option<string>, decode: string -> Option<Settings>,
                          env: string -> Option<string>): (r: Result<Ready, Stop>)
    ensures r.Failure?
  {
    SetUpWith(configFile, decode, env, WRITTEN_FROM_KEY)
  }

  /** The preparation with the sender's address read from `email_from`. */
  function SetUp(configFile: Option<string>, decode: string -> Option<Settings>,
                 env: string -> Option<string>): (r: Result<Ready, Stop>)
    ensures configFile.None? ==> r == Failure(NoConfig)
    ensures r.Success? ==> r.value.sender == Sender(env("SMTP_FROM"), false)
  {
    SetUpWith(configFile, decode, env, FROM_KEY)
  }

  /** Every SMTP variable is set to a non-empty text. */
  predicate SmtpComplete(env: string -> Option<string>)
  {
    && Truthy(env("SMTP_HOST")) && Truthy(env("SMTP_PORT")) && Truthy(env("SMTP_USER"))
    && Truthy(env("SMTP_PASSWORD")) && Truthy(env("SMTP_FROM"))
  }

  /** The completeness check reads exactly the five environment variables. */
  lemma CompleteIffTruthy(env: string -> Option<string>)
    ensures AllTruthy(GetSmtpSettings(env), SMTP_KEYS) <==> SmtpComplete(env)
  {
    var smtp := GetSmtpSettings(env);
    if SmtpComplete(env) {
      forall k | k in SMTP_KEYS
        ensures k in smtp && Truthy(smtp[k])
      {
      }
    } else {
      assert !AllTruthy(smtp, SMTP_KEYS) by {
        assert SMTP_KEYS[0] == HOST_KEY && SMTP_KEYS[1] == PORT_KEY && SMTP_KEYS[2] == USER_KEY;
        assert SMTP_KEYS[3] == PASSWORD_KEY && SMTP_KEYS[4] == FROM_KEY;
      }
    }
  }

  /**
   * As written, whenever the configuration loads and the settings are
   * complete, the constructor's arguments raise `KeyError('smtp_from')`:
   * no input reaches the sending part.
   */
  lemma AsWrittenNeverReady(configFile: Option<string>, decode: string -> Option<Settings>, env: string -> Option<string>)
    requires configFile.Some? && decode(configFile.value).Some? && SmtpComplete(env)
    ensures SetUpAsWritten(configFile, decode, env) == Failure(KeyMissing(WRITTEN_FROM_KEY))
  {
    CompleteIffTruthy(env);
    assert WRITTEN_FROM_KEY !in GetSmtpSettings(env);
  }

  /**
   * With the key corrected, the preparation succeeds exactly when the
   * configuration loads, every SMTP variable is set, the port parses and the
   * campaign keys are present; the sender then sends from `SMTP_FROM` and
   * holds no session.
   */
  lemma SetUpReady(configFile: Option<string>, decode: string -> Option<Settings>, env: string -> Option<string>)
    ensures SetUp(configFile, decode, env).Success? <==>
              && configFile.Some? && decode(configFile.value).Some? && SmtpComplete(env)
              && PyInt.Int(env("SMTP_PORT").value).Some?
              && MissingCampaignKey(decode(configFile.value).value).None?
    ensures SetUp(configFile, decode, env).Success? ==>
              && SetUp(configFile, decode, env).value.sender == Sender(env("SMTP_FROM"), false)
              && SetUp(configFile, decode, env).value.subject == decode(configFile.value).value[SUBJECT_KEY]
              && SetUp(configFile, decode, env).value.delay == DelayOf(decode(configFile.value).value)
  {
    CompleteIffTruthy(env);
  }

  /** A missing configuration file is reported, not raised, and nothing else is read. */
  lemma NoConfigStops(configFile: Option<string>, decode: string -> Option<Settings>, env: string -> Option<string>, fromKey: string)
    requires configFile.None?
    ensures SetUpWith(configFile, decode, env, fromKey) == Failure(NoConfig)
  {
  }

  /**
   * The subject text the model's messages carry: a text value as it is, a
   * number or a boolean spelled as `str()` would spell it. sender.py hands the
   * value to the mail header unconverted, and for a number or a boolean
   * `msg.as_string()` then raises inside `send_email`, which returns false
   * before any `sendmail`; the model does not follow that path.
   */
  function Render(v: Value): (r: string)
    ensures v.Text? ==> r == v.text
    ensures v.Number? ==> PyInt.Int(r) == Some(v.number)
  {
    match v
    case Text(t) => t
    case Number(k) => PyInt.IntShow(k); PyInt.Show(k)
    case Flag(b) => if b then "True" else "False"
  }

  /**
   * The seconds `time.sleep` receives. Python's booleans are the integers
   * 0 and 1; a negative number is passed on as it is, and the pause then
   * raises (`Dispatch.SleepRaised`); a text delay is taken as no pause.
   */
  function DelaySeconds(v: Value): (r: int)
    ensures v.Number? ==> r == v.number
    ensures v.Flag? ==> r == (if v.flag then 1 else 0)
  {
    match v
    case Number(k) => k
    case Flag(b) => if b then 1 else 0
    case Text(_) => 0
  }

  /** The campaign the prepared settings, the template and the sheet describe. */
  function JobOf(ready: Ready, template: string, sheet: seq<Sheet.Recipient>): Dispatch.Job
  {
    Dispatch.Job(sheet, Render(ready.subject), template, DelaySeconds(ready.delay))
  }

  /** How a whole `run_sender` call ended. */
  datatype Script =
    | Stopped(stop: Stop)  // the preparation stopped
    | NoTemplate           // the body file does not exist
    | NoSheet              // the workbook is missing, unreadable or has no `email` column
    | Ran(run: Run.Run)

  /**
   * `run_sender` with the corrected key: prepare, load the body template and
   * the sheet (`template` and `sheet` stand for what the files hold, `None`
   * when they cannot be used), then send from the checkpoint. Every message
   * it delivers goes out from `SMTP_FROM`.
   */
  method SenderScript(configFile: Option<string>, decode: string -> Option<Settings>, env: string -> Option<string>,
                      template: Option<string>, sheet: Option<seq<Sheet.Recipient>>, w: Env.World)
    returns (r: Script)
    ensures SetUp(configFile, decode, env).Failure? <==> r.Stopped?
    ensures r.Stopped? ==> r.stop == SetUp(configFile, decode, env).error
    ensures r.NoTemplate? <==> SetUp(configFile, decode, env).Success? && template.None?
    ensures r.Ran? <==> SetUp(configFile, decode, env).Success? && template.Some? && sheet.Some?
    ensures r.Ran? ==> r.run.sender == Sender(env("SMTP_FROM"), false)
    ensures r.Ran? && r.run.outcome.Finished? ==>
              Dispatch.MailsTo(JobOf(SetUp(configFile, decode, env).value, template.value, sheet.value),
                               env("SMTP_FROM"), r.run.events, r.run.first, Dispatch.Tried(r.run.outcome.exit, r.run.next))
  {
    var ready := SetUp(configFile, decode, env);
    if ready.Failure? {
      return Stopped(ready.error);
    }
    SetUpReady(configFile, decode, env);
    if template.None? {
      return NoTemplate;
    }
    if sheet.None? {
      return NoSheet;
    }
    var run := Run.RunSender(JobOf(ready.value, template.value, sheet.value), ready.value.sender, w);
    r := Ran(run);
  }
}
