/**
 * The command-line configurator: command-line flags merged into the saved
 * configuration document, which is written back, then an optional reset of
 * the checkpoint.
 */
module Console {
  import opened Base
  import opened Config
  import Counter
  import Setup

  /**
   * The parsed command line; an option not given is `None`. `--delay` has
   * already been converted by `argparse`'s `type=int`.
   */
  datatype Flags = Flags(
    setDefault: bool, setCustom: bool,
    excel: Option<string>, body: Option<string>, subject: Option<string>, delay: Option<int>,
    resetCounter: bool, send: bool)

  /** The command line with no option given. */
  const NO_FLAGS: Flags := Flags(false, false, None, None, None, None, false, false)

  /** Python truthiness of an optional text option: given and non-empty. */
  predicate GivenText(v: Option<string>)
  {
    v.Some? && |v.value| > 0
  }

  /** Python truthiness of the optional delay: given and not zero. */
  predicate GivenDelay(v: Option<int>)
  {
    v.Some? && v.value != 0
  }

  /** The value a flag pair chooses for the defaults switch: `--set-default` wins. */
  function DefaultsChoice(f: Flags): Option<bool>
  {
    if f.setDefault then Some(true) else if f.setCustom then Some(false) else None
  }

  /**
   * The value the command line gives key `k`, if any: the defaults switch
   * from the flag pair, each text option when non-empty, the delay when not
   * zero; no other key is touched.
   */
  function FlagValue(f: Flags, k: string): Option<Value>
  {
    if k == DEFAULTS_KEY then (if DefaultsChoice(f).Some? then Some(Flag(DefaultsChoice(f).value)) else None)
    else if k == EXCEL_KEY then (if GivenText(f.excel) then Some(Text(f.excel.value)) else None)
    else if k == BODY_KEY then (if GivenText(f.body) then Some(Text(f.body.value)) else None)
    else if k == SUBJECT_KEY then (if GivenText(f.subject) then Some(Text(f.subject.value)) else None)
    else if k == DELAY_KEY then (if GivenDelay(f.delay) then Some(Number(f.delay.value)) else None)
    else None
  }

  /** The five keys the command line can set are five different keys. */
  lemma KeysDistinct()
    ensures DEFAULTS_KEY != EXCEL_KEY && DEFAULTS_KEY != BODY_KEY && DEFAULTS_KEY != SUBJECT_KEY && DEFAULTS_KEY != DELAY_KEY
    ensures EXCEL_KEY != BODY_KEY && EXCEL_KEY != SUBJECT_KEY && EXCEL_KEY != DELAY_KEY
    ensures BODY_KEY != SUBJECT_KEY && BODY_KEY != DELAY_KEY && SUBJECT_KEY != DELAY_KEY
  {
    assert |DEFAULTS_KEY| == 25 && |EXCEL_KEY| == 10 && |BODY_KEY| == 9 && |SUBJECT_KEY| == 7 && |DELAY_KEY| == 14;
  }

  /** `config[key] = v` when there is a value, else the document as it is. */
  function Overlay(config: Settings, key: string, v: Option<Value>): (r: Settings)
    ensures forall k :: k in r <==> k in config || (k == key && v.Some?)
    ensures forall k :: k in r ==> r[k] == if k == key && v.Some? then v.value else config[k]
  {
    if v.Some? then config[key := v.value] else config
  }

  /**
   * console_configurador.py lines 30-44: the defaults switch set from the
   * flag pair, then each truthy option overwrites its key. An empty text
   * option and `--delay 0` are ignored; every other key keeps its value.
   */
  function MergeFlags(config: Settings, f: Flags): (r: Settings)
    ensures forall k :: k in r <==> k in config || FlagValue(f, k).Some?
  {
    KeysDistinct();
    var switched := Overlay(config, DEFAULTS_KEY, FlagValue(f, DEFAULTS_KEY));
    var withExcel := Overlay(switched, EXCEL_KEY, FlagValue(f, EXCEL_KEY));
    var withBody := Overlay(withExcel, BODY_KEY, FlagValue(f, BODY_KEY));
    var withSubject := Overlay(withBody, SUBJECT_KEY, FlagValue(f, SUBJECT_KEY));
    Overlay(withSubject, DELAY_KEY, FlagValue(f, DELAY_KEY))
  }

  /**
   * Merging is key-wise: each key the command line gives a value holds that
   * value, whatever the order of the assignments, and every other key keeps
   * the document's value.
   */
  lemma MergeFlagsValues(config: Settings, f: Flags)
    ensures var r := MergeFlags(config, f);
      forall k :: k in r ==> r[k] == if FlagValue(f, k).Some? then FlagValue(f, k).value else config[k]
  {
    KeysDistinct();
  }

  /** A command line without options saves the document unchanged. */
  lemma NoFlagsKeepConfig(config: Settings)
    ensures MergeFlags(config, NO_FLAGS) == config
  {
  }

  /** Running the same command twice saves what running it once saved. */
  lemma MergeIdempotent(config: Settings, f: Flags)
    ensures MergeFlags(MergeFlags(config, f), f) == MergeFlags(config, f)
  {
    var once := MergeFlags(config, f);
    var twice := MergeFlags(once, f);
    assert twice.Keys == once.Keys;
    forall k | k in once
      ensures twice[k] == once[k]
    {
    }
  }

  /** Giving both `--set-default` and `--set-custom` selects the defaults. */
  lemma DefaultBeatsCustom(config: Settings, f: Flags)
    requires f.setDefault && f.setCustom
    ensures MergeFlags(config, f)[DEFAULTS_KEY] == Flag(true)
  {
  }

  /** `--delay 0` is falsy and leaves the stored delay, so the sender still pauses as before. */
  lemma ZeroDelayIgnored(config: Settings)
    ensures DelayOf(MergeFlags(config, NO_FLAGS.(delay := Some(0)))) == DelayOf(config)
  {
  }

  /** What `main` leaves behind: the saved document and the counter file. */
  datatype Saved = Saved(config: Settings, counterFile: Option<string>)

  /**
   * console_configurador.py lines 24-51: load the document (an empty one
   * when the file does not exist; a malformed file raises), merge the flags,
   * save, then reset the checkpoint when `--reset-counter` is given.
   */
  function ConsoleMain(file: Option<string>, decode: string -> Option<Settings>, counterFile: Option<string>, f: Flags)
    : (r: Result<Saved, ConfigError>)
    ensures r.Failure? <==> file.Some? && decode(file.value).None?
    ensures r.Success? && file.None? ==> r.value.config == MergeFlags(map[], f)
    ensures r.Success? && file.Some? ==> r.value.config == MergeFlags(decode(file.value).value, f)
    ensures r.Success? && f.resetCounter ==> Counter.ReadCounter(r.value.counterFile) == Success(0)
    ensures r.Success? && !f.resetCounter ==> r.value.counterFile == counterFile
  {
    match LoadConfig(Setup.CONFIG_PATH, file, decode)
    case Failure(Malformed(path)) => Failure(Malformed(path))
    case Failure(FileNotFound(_)) => Success(SaveAndReset(map[], counterFile, f))
    case Success(config) => Success(SaveAndReset(config, counterFile, f))
  }

  /** Lines 30-51 from a loaded document. */
  function SaveAndReset(config: Settings, counterFile: Option<string>, f: Flags): (r: Saved)
    ensures r.config == MergeFlags(config, f)
    ensures f.resetCounter ==> Counter.ReadCounter(r.counterFile) == Success(0)
    ensures !f.resetCounter ==> r.counterFile == counterFile
  {
    Saved(MergeFlags(config, f), if f.resetCounter then Counter.ResetCounter(counterFile) else counterFile)
  }

  /**
   * A first run with only the three text options writes a document the bulk
   * sender can prepare from; its delay is the sender's default of one second.
   */
  lemma FirstRunServesSender(excel: string, body: string, subject: string)
    requires |excel| > 0 && |body| > 0 && |subject| > 0
    ensures var f := NO_FLAGS.(excel := Some(excel), body := Some(body), subject := Some(subject));
      && ConsoleMain(None, _ => None, None, f).Success?
      && Setup.MissingCampaignKey(ConsoleMain(None, _ => None, None, f).value.config).None?
      && DelayOf(ConsoleMain(None, _ => None, None, f).value.config) == Number(DEFAULT_DELAY)
  {
  }
}
