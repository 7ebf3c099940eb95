/**
 * The recipient spreadsheet as the dispatcher sees it: rows in file order,
 * each with an address and, when the sheet has a `names` column, a name.
 * Positions follow pandas' default integer index, so a row's label is its
 * position.
 */
module Sheet {
  import opened Base

  /** One row: `names` is `None` when the sheet has no `names` column. */
  datatype Recipient = Recipient(email: string, names: Option<string>)

  /** Python's rule for `seq[start:]`: position `p`, or its alias `p - n`, is at least `start`. */
  predicate InSlice(start: int, n: nat, p: nat)
  {
    if start >= 0 then start <= p else start <= p - n
  }

  /**
   * The first position visited by `df.iloc[start:]` on `n` rows. A negative
   * `start` counts from the end; positions beyond either end are clamped.
   */
  function SliceStart(start: int, n: nat): (b: nat)
    ensures b <= n
    ensures 0 <= start <= n ==> b == start
    ensures forall p :: 0 <= p < n ==> (b <= p <==> InSlice(start, n, p))
  {
    if start >= 0 then (if start <= n then start else n)
    else if n + start >= 0 then n + start
    else 0
  }

  /** The row `df.iloc[index]` addresses; `None` is pandas' `IndexError`. */
  function RowPosition(index: int, n: nat): (r: Option<nat>)
    ensures r.Some? <==> 0 <= index + n && index < n
    ensures r.Some? ==> r.value < n
    ensures r.Some? && index >= 0 ==> r.value == index
    ensures r.Some? && index < 0 ==> r.value == index + n
  {
    if 0 <= index < n then Some(index)
    else if 0 <= index + n && index < 0 then Some(index + n)
    else None
  }

  /** A start position visited from a slice can be addressed directly, and both agree. */
  lemma SliceAgreesWithRow(start: int, n: nat)
    requires SliceStart(start, n) < n
    requires 0 <= start + n
    ensures RowPosition(start, n) == Some(SliceStart(start, n))
  {
  }
}
