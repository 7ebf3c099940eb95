/**
 * The progress checkpoint kept by `ConfigManager`: one integer written as
 * decimal text to the counter file. The file is `None` when it does not
 * exist and `Some(content)` otherwise.
 */
module Counter {
  import opened Base
  import PyStr
  import PyInt

  /** The `ValueError` that `int()` raises on content that is not an integer. */
  datatype CounterError = NotAnInteger(content: string)

  /** `read_counter`: 0 for a missing file, else `int(content.strip())`, which may raise. */
  function ReadCounter(file: Option<string>): (r: Result<int, CounterError>)
    ensures file.None? ==> r == Success(0)
    ensures file.Some? ==> (r.Success? <==> PyInt.IsIntLiteral(PyStr.Strip(file.value)))
    ensures file.Some? && r.Success? ==> PyInt.ParseInt(PyStr.Strip(file.value)) == Some(r.value)
    ensures file.Some? && r.Failure? ==> r.error == NotAnInteger(file.value)
  {
    match file
    case None => Success(0)
    case Some(content) =>
      PyStr.StripIdempotent(content);
      match PyInt.Int(PyStr.Strip(content))
      case Some(v) => Success(v)
      case None => Failure(NotAnInteger(content))
  }

  /** `save_counter(value)`: the file is (re)created holding `str(value)`. */
  function SaveCounter(file: Option<string>, value: int): (r: Option<string>)
    ensures r.Some?
    ensures ReadCounter(r) == Success(value)
  {
    PyInt.IntShow(value);
    PyStr.StripTrimmed(PyInt.Show(value));
    Some(PyInt.Show(value))
  }

  /** `reset_counter`: exactly `save_counter(0)`. */
  function ResetCounter(file: Option<string>): (r: Option<string>)
    ensures r == SaveCounter(file, 0)
    ensures ReadCounter(r) == Success(0)
  {
    SaveCounter(file, 0)
  }

  /** Writing opens the file with mode "w": only the most recent write is visible. */
  lemma SaveOverwrites(file: Option<string>, first: int, second: int)
    ensures SaveCounter(SaveCounter(file, first), second) == SaveCounter(file, second)
    ensures ReadCounter(SaveCounter(SaveCounter(file, first), second)) == Success(second)
  {
  }

  /** Empty or blank content is not an integer: `read_counter` raises rather than reading 0. */
  lemma BlankCounterRaises()
    ensures ReadCounter(Some("")).Failure?
    ensures ReadCounter(Some(" \n")).Failure?
  {
    assert PyStr.LeadingSpaces(" \n") == 2;
  }

  /**
   * The file after `save_counter(v)` for each `v` of `values`, in order: it
   * is untouched by no writes and otherwise reads back the last value written.
   */
  method SaveEach(file: Option<string>, values: seq<int>) returns (after: Option<string>)
    ensures |values| == 0 ==> after == file
    ensures |values| > 0 ==> ReadCounter(after) == Success(values[|values| - 1])
  {
    after := file;
    for k := 0 to |values|
      invariant k == 0 ==> after == file
      invariant k > 0 ==> ReadCounter(after) == Success(values[k - 1])
    {
      after := SaveCounter(after, values[k]);
    }
  }
}
