/** The page-load timings of the Performance panel: `calcTime(end, start)`
    formats the span between two Navigation Timing marks. */
module Timing {
  import opened JsText

  /** `calcTime(end, start)`: "N/A" unless both marks are set (positive) and
      `end` comes after `start`; then the span in milliseconds followed by " ms".
      The number in front of " ms" is the span's decimal text, and reads back
      as the span. */
  function CalcTime(end: int, start: int): (r: string)
    ensures r == "N/A" <==> !(end > 0 && start > 0 && end > start)
    ensures end > 0 && start > 0 && end > start ==> r == NatText(end - start) + " ms"
    ensures end > 0 && start > 0 && end > start ==>
      |r| > 3 && r[|r| - 3..] == " ms" && ParseInt(r[..|r| - 3]) == Num(end - start)
  {
    if end > 0 && start > 0 && end > start then
      var digits := NatText(end - start);
      var r := digits + " ms";
      ReadBack(digits, end - start);
      r
    else "N/A"
  }

  lemma ReadBack(digits: string, span: nat)
    requires digits == NatText(span)
    ensures var r := digits + " ms";
      |r| > 3 && r[..|r| - 3] == digits && r[|r| - 3..] == " ms" && ParseInt(digits) == Num(span)
  {
    ParseIntOfNatTextAlone(span);
    UnitSuffix(digits);
  }

  lemma UnitSuffix(digits: string)
    requires digits != []
    ensures var r := digits + " ms"; |r| > 3 && r[..|r| - 3] == digits && r[|r| - 3..] == " ms"
  {
  }
}
