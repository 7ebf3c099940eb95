/**
 * The read-only HTTP API's helpers. Its counter reader is more lenient than
 * `ConfigManager.read_counter`: every unreadable value becomes 0.
 */
module Api {
  import opened Base
  import PyStr
  import PyInt
  import Counter

  const TOTAL_SENT_KEY: string := "total_emails_sent"

  /** `read_total_sent_counter`: 0 for a missing file, blank content or a non-integer. */
  function ReadTotalSent(file: Option<string>): (r: int)
    ensures file.None? ==> r == 0
    ensures file.Some? && PyStr.Strip(file.value) == "" ==> r == 0
    ensures file.Some? && !PyInt.IsIntLiteral(PyStr.Strip(file.value)) ==> r == 0
    ensures file.Some? && PyInt.IsIntLiteral(PyStr.Strip(file.value)) ==>
              PyInt.ParseInt(PyStr.Strip(file.value)) == Some(r)
  {
    match file
    case None => 0
    case Some(text) =>
      var content := PyStr.Strip(text);
      if content == "" then 0
      else
        PyStr.StripIdempotent(text);
        match PyInt.Int(content)
        case Some(v) => v
        case None => 0
  }

  /** Where the strict reader succeeds both agree; where it raises, the lenient one reads 0. */
  lemma LenientAgreesWithStrict(file: Option<string>)
    ensures Counter.ReadCounter(file).Success? ==> ReadTotalSent(file) == Counter.ReadCounter(file).value
    ensures Counter.ReadCounter(file).Failure? ==> ReadTotalSent(file) == 0
  {
    if file.Some? && PyStr.Strip(file.value) == "" {
      assert !PyInt.IsIntLiteral(PyStr.Strip(file.value));
    }
  }

  /** No clamping: a negative stored value is reported as is. */
  lemma NegativePassesThrough()
    ensures ReadTotalSent(Some("-5")) == -5
  {
    PyStr.StripTrimmed("-5");
    assert "-5"[1..] == "5";
  }

  /** `get_total_sent`: the count under its single key. */
  function TotalSentResponse(file: Option<string>): (r: map<string, int>)
    ensures r.Keys == {TOTAL_SENT_KEY}
    ensures file.None? ==> r[TOTAL_SENT_KEY] == 0
    ensures Counter.ReadCounter(file).Success? ==> r[TOTAL_SENT_KEY] == Counter.ReadCounter(file).value
    ensures Counter.ReadCounter(file).Failure? ==> r[TOTAL_SENT_KEY] == 0
    ensures file.Some? && !PyInt.IsIntLiteral(PyStr.Strip(file.value)) ==> r[TOTAL_SENT_KEY] == 0
  {
    LenientAgreesWithStrict(file);
    map[TOTAL_SENT_KEY := ReadTotalSent(file)]
  }

  /**
   * `read_campaigns_history`: the decoded list, or the empty list when the file
   * is missing or does not decode. `decode` stands for `json.load`.
   */
  function CampaignsHistory<T>(file: Option<string>, decode: string -> Option<seq<T>>): (r: seq<T>)
    ensures file.None? ==> r == []
    ensures file.Some? && decode(file.value).None? ==> r == []
    ensures file.Some? && decode(file.value).Some? ==> r == decode(file.value).value
  {
    match file
    case None => []
    case Some(text) =>
      match decode(text)
      case None => []
      case Some(campaigns) => campaigns
  }
}
