/** Years of experience from the date strings of experience entries. Both the
    matcher and the parser take the first four digits of the start date as
    the start year, and either the current year (when the end date mentions
    "present", in any case) or the first four digits of the end date as the
    end year; an entry without both dates, or where a search finds no four
    digits, is skipped. The matcher clamps each entry at zero, the parser
    does not. */
module Dates {

  import opened Wrappers
  import opened Text
  import opened Regex
  import opened ResumeData

  /** End year minus start year of one entry, or `None` when it is skipped. */
  function EntrySpan(e: Experience, currentYear: int): (r: Option<int>)
    ensures r.Some? ==> Truthy(e.startDate) && Truthy(e.endDate)
    ensures r.Some? ==> FirstYear(e.startDate.value).Some?
  {
    if !(Truthy(e.startDate) && Truthy(e.endDate)) then None
    else
      match FirstYear(e.startDate.value)
      case None => None
      case Some(start) =>
        if Contains(Lower(e.endDate.value), "present") then Some(currentYear - start)
        else
          match FirstYear(e.endDate.value)
          case None => None
          case Some(end) => Some(end - start)
  }

  /** The parser's total: the spans summed as they are. */
  function SignedTotal(es: seq<Experience>, currentYear: int): int
    decreases |es|
  {
    if es == [] then 0
    else
      var last := es[|es| - 1];
      SignedTotal(es[..|es| - 1], currentYear)
        + (match EntrySpan(last, currentYear) case Some(y) => y case None => 0)
  }

  /** The matcher's total: each span clamped at zero first. */
  function ClampedTotal(es: seq<Experience>, currentYear: int): nat
    decreases |es|
  {
    if es == [] then 0
    else
      var last := es[|es| - 1];
      ClampedTotal(es[..|es| - 1], currentYear)
        + (match EntrySpan(last, currentYear) case Some(y) => (if y > 0 then y else 0) case None => 0)
  }

  /** Clamping can only raise the total, and changes nothing when no range
      runs backwards. */
  lemma {:induction false} ClampedAtLeastSigned(es: seq<Experience>, currentYear: int)
    ensures ClampedTotal(es, currentYear) >= SignedTotal(es, currentYear)
    ensures (forall k :: 0 <= k < |es| && EntrySpan(es[k], currentYear).Some? ==> EntrySpan(es[k], currentYear).value >= 0)
            ==> ClampedTotal(es, currentYear) == SignedTotal(es, currentYear)
    decreases |es|
  {
    if es != [] {
      var init := es[..|es| - 1];
      ClampedAtLeastSigned(init, currentYear);
      assert forall k :: 0 <= k < |init| ==> init[k] == es[k];
    }
  }
}
