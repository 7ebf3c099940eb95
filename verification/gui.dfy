/**
 * The configurator window's two actions: saving the form into the
 * configuration document, and sending the next row of the sheet as a single
 * test message, advancing the checkpoint only when that message went out.
 */
module Gui {
  import opened Base
  import opened Env
  import opened Config
  import opened Transport
  import Counter
  import Sheet
  import Message
  import Setup
  import Dispatch
  import PyInt

  /** The settings the test send insists on; the sender's address is not among them. */
  const REQUIRED_KEYS: seq<string> := [HOST_KEY, PORT_KEY, USER_KEY, PASSWORD_KEY]

  /**
   * The document the window starts from: the saved configuration, or an
   * empty one when there is none yet. A malformed file still raises.
   */
  function InitialConfig(file: Option<string>, decode: string -> Option<Settings>): (r: Result<Settings, ConfigError>)
    ensures file.None? ==> r == Success(map[])
    ensures file.Some? ==> r == LoadConfig(Setup.CONFIG_PATH, file, decode)
  {
    match LoadConfig(Setup.CONFIG_PATH, file, decode)
    case Failure(FileNotFound(_)) => Success(map[])
    case other => other
  }

  /**
   * `actualizar_config`: the three form fields overwrite their keys, a delay
   * of one second is added only when none is present, and the result is
   * what `save_config` writes.
   */
  function UpdateConfig(config: Settings, excel: string, body: string, subject: string): (r: Settings)
    ensures r.Keys == config.Keys + {EXCEL_KEY, BODY_KEY, SUBJECT_KEY, DELAY_KEY}
    ensures r[EXCEL_KEY] == Text(excel) && r[BODY_KEY] == Text(body) && r[SUBJECT_KEY] == Text(subject)
    ensures r[DELAY_KEY] == DelayOf(config)
    ensures forall k :: k in config && k !in {EXCEL_KEY, BODY_KEY, SUBJECT_KEY} ==> r[k] == config[k]
  {
    var withFields := config[EXCEL_KEY := Text(excel)][BODY_KEY := Text(body)][SUBJECT_KEY := Text(subject)];
    if DELAY_KEY in withFields then withFields else withFields[DELAY_KEY := Number(DEFAULT_DELAY)]
  }

  /** Saving the same form twice leaves the document as saving it once. */
  lemma UpdateConfigIdempotent(config: Settings, excel: string, body: string, subject: string)
    ensures var once := UpdateConfig(config, excel, body, subject);
      UpdateConfig(once, excel, body, subject) == once
  {
    var once := UpdateConfig(config, excel, body, subject);
    var twice := UpdateConfig(once, excel, body, subject);
    assert twice.Keys == once.Keys;
    forall k | k in once
      ensures twice[k] == once[k]
    {
    }
  }

  /**
   * A saved form always holds every campaign key the bulk sender reads, and
   * its delay is the one the document had, or one second.
   */
  lemma UpdateConfigServesSender(config: Settings, excel: string, body: string, subject: string)
    ensures var saved := UpdateConfig(config, excel, body, subject);
      && Setup.MissingCampaignKey(saved).None?
      && DelayOf(saved) == DelayOf(config)
      && DELAY_KEY in saved
  {
  }

  /** How a test send ended. */
  datatype Test =
    | FilesUnusable       // the workbook or the template could not be read: a message box
    | CounterUnreadable   // `read_counter` raised
    | NoMoreRows          // the stored position is at or past the last row
    | RowMissing          // `df.iloc[contador]` raised `IndexError`
    | SmtpIncomplete      // a required setting is unset or empty: a message box
    | PortInvalid(text: string) // `int(smtp_port)` raised
    | ConnectFailed
    | SendFailed
    | Sent
  {
    /** The send reached the network: a connection was attempted. */
    predicate Reached()
    {
      ConnectFailed? || SendFailed? || Sent?
    }
  }

  /** A test send's result: the saved document, the world after it (counter file included) and what it did. */
  datatype Attempt = Attempt(outcome: Test, config: Settings, world: World, events: seq<Event>)

  /** The one row a test send addresses, when the stored position names one. */
  function TestRow(k: int, sheet: seq<Sheet.Recipient>): (r: Option<nat>)
    ensures r.Some? <==> -|sheet| <= k < |sheet|
    ensures r.Some? ==> r.value < |sheet|
    ensures r.Some? && k >= 0 ==> r.value == k
    ensures r.Some? && k < 0 ==> r.value == k + |sheet|
  {
    if k >= |sheet| then None else Sheet.RowPosition(k, |sheet|)
  }

  /**
   * `enviar_siguiente_prueba`: save the form, read the files, look up the
   * row the checkpoint names, personalise its body, check the settings,
   * build the sender, then connect, send once, save `contador + 1` only when
   * the send succeeded, and disconnect. `sheet` and `template` stand for
   * what the files hold, `None` when they cannot be read.
   */
  function SendNext(config: Settings, excel: string, body: string, subject: string,
                    sheet: Option<seq<Sheet.Recipient>>, template: Option<string>,
                    env: string -> Option<string>, w: World): (r: Attempt)
    ensures r.config == UpdateConfig(config, excel, body, subject)
    ensures r.world.net == w.net
    ensures r.outcome.FilesUnusable? <==> sheet.None? || template.None?
    ensures r.outcome.CounterUnreadable? <==>
              sheet.Some? && template.Some? && Counter.ReadCounter(w.counterFile).Failure?
    ensures sheet.Some? && template.Some? && Counter.ReadCounter(w.counterFile).Success? ==>
              r == SendAt(r.config, sheet.value, template.value, subject, env, w, Counter.ReadCounter(w.counterFile).value)
    ensures !r.outcome.Reached() && !r.outcome.PortInvalid? ==> r.world == w && r.events == []
    ensures !r.outcome.Sent? ==> r.world.counterFile == w.counterFile
  {
    var saved := UpdateConfig(config, excel, body, subject);
    if sheet.None? || template.None? then Attempt(FilesUnusable, saved, w, [])
    else
      match Counter.ReadCounter(w.counterFile)
      case Failure(_) => Attempt(CounterUnreadable, saved, w, [])
      case Success(k) => SendAt(saved, sheet.value, template.value, subject, env, w, k)
  }

  /**
   * A test send once the checkpoint reads `k`: the row `df.iloc[k]` names
   * must exist, and only a send that the relay accepted stores `k + 1`.
   */
  function SendAt(saved: Settings, sheet: seq<Sheet.Recipient>, template: string, subject: string,
                  env: string -> Option<string>, w: World, k: int): (r: Attempt)
    ensures r.config == saved && r.world.net == w.net
    ensures !r.outcome.FilesUnusable? && !r.outcome.CounterUnreadable?
    ensures r.outcome.NoMoreRows? <==> k >= |sheet|
    ensures r.outcome.RowMissing? <==> k < -|sheet|
    ensures !r.outcome.Reached() && !r.outcome.PortInvalid? ==> r.world == w && r.events == []
    ensures r.outcome.Reached() <==>
              TestRow(k, sheet).Some? && SmtpUsable(env) && PyInt.Int(env("SMTP_PORT").value).Some?
    ensures r.outcome.Sent? ==> Counter.ReadCounter(r.world.counterFile) == Success(k + 1)
    ensures !r.outcome.Sent? ==> r.world.counterFile == w.counterFile
    ensures r.outcome.Reached() ==>
              var row := sheet[TestRow(k, sheet).value];
              var text := Message.Personalize(template, row.names);
              && AllMailAs(r.events, env("SMTP_FROM"), row.email, subject, text)
              && (r.outcome.Sent? <==>
                    w.net.connectOk(w.opens)
                    && SendEmail(Sender(env("SMTP_FROM"), true), w.(opens := w.opens + 1), row.email, subject, text).ok)
              && (r.outcome.Sent? <==> Mail(env("SMTP_FROM"), row.email, subject, text, Accepted) in r.events)
              && (r.outcome.Sent? ==>
                    |r.events| >= 3 && r.events[0] == Open(true) && r.events[|r.events| - 1] == Quit)
  {
    var n := |sheet|;
    if k >= n then Attempt(NoMoreRows, saved, w, [])
    else
      match Sheet.RowPosition(k, n)
      case None => Attempt(RowMissing, saved, w, [])
      case Some(p) => TrySend(saved, sheet[p], subject, template, env, w, k + 1)
  }

  /**
   * The test button moves the checkpoint on exactly when the files and the
   * counter read, the row the counter names exists, the settings are usable
   * and the relay accepted that row's message; the counter then holds the
   * position after that row, and otherwise it is untouched.
   */
  lemma TestSendAdvances(config: Settings, excel: string, body: string, subject: string,
                         sheet: Option<seq<Sheet.Recipient>>, template: Option<string>,
                         env: string -> Option<string>, w: World)
    ensures var r := SendNext(config, excel, body, subject, sheet, template, env, w);
      && (r.outcome.Sent? <==>
            && sheet.Some? && template.Some? && Counter.ReadCounter(w.counterFile).Success?
            && var k := Counter.ReadCounter(w.counterFile).value;
               && TestRow(k, sheet.value).Some? && SmtpUsable(env) && PyInt.Int(env("SMTP_PORT").value).Some?
               && w.net.connectOk(w.opens)
               && var row := sheet.value[TestRow(k, sheet.value).value];
                  SendEmail(Sender(env("SMTP_FROM"), true), w.(opens := w.opens + 1), row.email, subject,
                            Message.Personalize(template.value, row.names)).ok)
      && (r.outcome.Sent? ==> Counter.ReadCounter(r.world.counterFile) == Success(Counter.ReadCounter(w.counterFile).value + 1))
      && (!r.outcome.Sent? ==> r.world.counterFile == w.counterFile)
  {
    var r := SendNext(config, excel, body, subject, sheet, template, env, w);
    if sheet.Some? && template.Some? && Counter.ReadCounter(w.counterFile).Success? {
      var k := Counter.ReadCounter(w.counterFile).value;
      SendAtAdvances(r.config, sheet.value, template.value, subject, env, w, k);
    }
  }

  /** `TestSendAdvances` once the files and the counter were read. */
  lemma SendAtAdvances(saved: Settings, sheet: seq<Sheet.Recipient>, template: string, subject: string,
                       env: string -> Option<string>, w: World, k: int)
    ensures var r := SendAt(saved, sheet, template, subject, env, w, k);
      r.outcome.Sent? <==>
        && TestRow(k, sheet).Some? && SmtpUsable(env) && PyInt.Int(env("SMTP_PORT").value).Some?
        && w.net.connectOk(w.opens)
        && var row := sheet[TestRow(k, sheet).value];
           SendEmail(Sender(env("SMTP_FROM"), true), w.(opens := w.opens + 1), row.email, subject,
                     Message.Personalize(template, row.names)).ok
  {
    var r := SendAt(saved, sheet, template, subject, env, w, k);
    assert r.outcome.Sent? ==> r.outcome.Reached();
  }

  /**
   * The part of a test send after the row is known: personalise its body,
   * check the four required settings, build the sender, and deliver.
   */
  function TrySend(saved: Settings, row: Sheet.Recipient, subject: string, template: string,
                   env: string -> Option<string>, w: World, next: int): (r: Attempt)
    ensures r.config == saved && r.world.net == w.net
    ensures r.outcome.SmtpIncomplete? <==> !SmtpUsable(env)
    ensures r.outcome.Reached() <==> SmtpUsable(env) && PyInt.Int(env("SMTP_PORT").value).Some?
    ensures !r.outcome.Reached() ==> r.outcome.SmtpIncomplete? || r.outcome.PortInvalid?
    ensures !r.outcome.Reached() ==> r.world == w && r.events == []
    ensures r.outcome.Sent? ==> Counter.ReadCounter(r.world.counterFile) == Success(next)
    ensures !r.outcome.Sent? ==> r.world.counterFile == w.counterFile
    ensures AllMailAs(r.events, env("SMTP_FROM"), row.email, subject, Message.Personalize(template, row.names))
    ensures r.outcome.Sent? <==>
              && r.outcome.Reached() && w.net.connectOk(w.opens)
              && SendEmail(Sender(env("SMTP_FROM"), true), w.(opens := w.opens + 1),
                           row.email, subject, Message.Personalize(template, row.names)).ok
    ensures r.outcome.Sent? <==>
              Mail(env("SMTP_FROM"), row.email, subject, Message.Personalize(template, row.names), Accepted) in r.events
    ensures r.outcome.Sent? ==>
              && |r.events| >= 3 && r.events[0] == Open(true) && r.events[|r.events| - 1] == Quit
              && Mail(env("SMTP_FROM"), row.email, subject, Message.Personalize(template, row.names), Accepted) in r.events
  {
    var text := Message.Personalize(template, row.names);
    var smtp := GetSmtpSettings(env);
    RequiredIffUsable(env);
    if !AllTruthy(smtp, REQUIRED_KEYS) then Attempt(SmtpIncomplete, saved, w, [])
    else
      match NewSender(smtp[PORT_KEY].value, smtp[FROM_KEY])
      case Failure(BadPort(t)) => Attempt(PortInvalid(t), saved, w, [])
      case Success(s) => Deliver(saved, s, w, row.email, subject, text, next)
  }

  /**
   * The network part of a test send from a fresh sender: connect, send once,
   * store `next` only when the send succeeded, and disconnect. Every delivery
   * attempt carries the one message; a success opened the session first and
   * closed it last.
   */
  function Deliver(saved: Settings, s: Sender, w: World, to: string, subject: string, text: string, next: int): (r: Attempt)
    requires !s.connected
    ensures r.outcome.Reached() && r.config == saved && r.world.net == w.net
    ensures r.outcome.Sent? ==> Counter.ReadCounter(r.world.counterFile) == Success(next)
    ensures !r.outcome.Sent? ==> r.world.counterFile == w.counterFile
    ensures r.outcome.ConnectFailed? <==> !w.net.connectOk(w.opens)
    ensures AllMailAs(r.events, s.fromAddr, to, subject, text)
    ensures r.outcome.Sent? <==>
              w.net.connectOk(w.opens) && SendEmail(Sender(s.fromAddr, true), w.(opens := w.opens + 1), to, subject, text).ok
    ensures r.outcome.Sent? <==> Mail(s.fromAddr, to, subject, text, Accepted) in r.events
    ensures r.outcome.Sent? ==>
              && |r.events| >= 3 && r.events[0] == Open(true) && r.events[|r.events| - 1] == Quit
              && Mail(s.fromAddr, to, subject, text, Accepted) in r.events
  {
    var c := Connect(s, w);
    if !c.ok then Attempt(ConnectFailed, saved, c.world, c.events)
    else
      var m := SendEmail(c.sender, c.world, to, subject, text);
      var d := Disconnect(m.sender);
      var file := if m.ok then Counter.SaveCounter(w.counterFile, next) else w.counterFile;
      SendEmailEvents(c.sender, c.world, to, subject, text);
      SendEmailResult(c.sender, c.world, to, subject, text);
      SessionShape(c.events, m.events, d.events, s.fromAddr, to, subject, text);
      Attempt(if m.ok then Sent else SendFailed, saved, m.world.(counterFile := file), c.events + m.events + d.events)
  }

  /** A session bracket around one send: the connect first, the `quit` (if any) last, and no other message. */
  lemma SessionShape(open: seq<Event>, mid: seq<Event>, close: seq<Event>,
                     fromAddr: Option<string>, to: string, subject: string, text: string)
    requires open == [Open(true)] && (close == [] || close == [Quit])
    requires AllMailAs(mid, fromAddr, to, subject, text)
    ensures AllMailAs(open + mid + close, fromAddr, to, subject, text)
    ensures var es := open + mid + close;
      && (open + mid + close)[0] == Open(true)
      && (close == [Quit] && |mid| > 0 ==> |es| >= 3 && es[|es| - 1] == Quit)
      && forall e :: e in mid ==> e in es
  {
  }

  /** The four required settings are set and non-empty, whatever `SMTP_FROM` holds. */
  predicate SmtpUsable(env: string -> Option<string>)
  {
    && Truthy(env("SMTP_HOST")) && Truthy(env("SMTP_PORT")) && Truthy(env("SMTP_USER"))
    && Truthy(env("SMTP_PASSWORD"))
  }

  /** The settings check reads exactly the four required variables. */
  lemma RequiredIffUsable(env: string -> Option<string>)
    ensures AllTruthy(GetSmtpSettings(env), REQUIRED_KEYS) <==> SmtpUsable(env)
  {
    var smtp := GetSmtpSettings(env);
    if !SmtpUsable(env) {
      assert REQUIRED_KEYS[0] == HOST_KEY && REQUIRED_KEYS[1] == PORT_KEY;
      assert REQUIRED_KEYS[2] == USER_KEY && REQUIRED_KEYS[3] == PASSWORD_KEY;
    }
  }

  /**
   * The test send and the bulk run agree on the message: for a row the bulk
   * run can reach, the test body is the body the run would send to it.
   */
  lemma TestMatchesBulk(sheet: seq<Sheet.Recipient>, template: string, subject: string, delay: int, k: int)
    requires TestRow(k, sheet).Some?
    ensures var p := TestRow(k, sheet).value;
      && p < |sheet|
      && Message.Personalize(template, sheet[p].names) == Dispatch.Body(Dispatch.Job(sheet, subject, template, delay), p)
      && (0 <= k ==> p == k)
  {
  }

  /**
   * With a negative checkpoint the test send addresses the row counted from
   * the end, and a success stores one more than the negative position: `-1`
   * sends to the last row and stores `0`.
   */
  lemma NegativeCheckpointExample(sheet: seq<Sheet.Recipient>)
    requires |sheet| > 0
    ensures TestRow(-1, sheet) == Some(|sheet| - 1)
    ensures Counter.ReadCounter(Counter.SaveCounter(Some("-1"), -1 + 1)) == Success(0)
  {
  }
}
