/**
 * The query-string arithmetic the listing routes share: `parseInt(x) || d`
 * for a parameter with a default, `Math.min` against a cap, the row offset
 * `(page - 1) * limit` and the page count `Math.ceil(total / limit)`. An
 * absent parameter is the empty text, which parseInt reads as NaN.
 */
module Paging {
  import opened Wrappers
  import opened Numeric
  import opened Text

  /** `parseInt(text) || fallback`: NaN and 0 are both falsy and give way to the fallback. */
  function ParsedOr(text: string, fallback: int): (r: int)
    ensures ParseInt(text).Some? && ParseInt(text).value != 0 ==> r == ParseInt(text).value
    ensures ParseInt(text).None? || ParseInt(text).value == 0 ==> r == fallback
  {
    match ParseInt(text)
    case Some(v) => if v != 0 then v else fallback
    case None => fallback
  }

  /** `Math.min(parseInt(text) || fallback, cap)`. */
  function Capped(text: string, fallback: int, cap: int): (r: int)
    requires fallback <= cap
    ensures r <= cap
    ensures ParseInt(text).None? || ParseInt(text).value == 0 ==> r == fallback
    ensures ParseInt(text).Some? && ParseInt(text).value != 0 ==>
      r == if ParseInt(text).value <= cap then ParseInt(text).value else cap
  {
    Min(ParsedOr(text, fallback), cap)
  }

  /** The window a page request selects. */
  datatype Window = Window(page: int, limit: int, skip: int)

  /** The page (default 1), the limit (default `defaultLimit`, at most `maxLimit`) and the rows skipped before the page. */
  function WindowOf(pageText: string, limitText: string, defaultLimit: int, maxLimit: int): (w: Window)
    requires 0 < defaultLimit <= maxLimit
    ensures w.page != 0 && w.limit != 0 && w.limit <= maxLimit
    ensures w.skip == (w.page - 1) * w.limit
    ensures ParseInt(pageText).None? || ParseInt(pageText).value == 0 ==> w.page == 1 && w.skip == 0
    ensures ParseInt(limitText).None? || ParseInt(limitText).value == 0 ==> w.limit == defaultLimit
    ensures ParseInt(limitText).Some? && ParseInt(limitText).value > 0 ==> 0 < w.limit <= ParseInt(limitText).value
    ensures ParseInt(pageText).Some? && ParseInt(pageText).value != 0 ==> w.page == ParseInt(pageText).value
    ensures ParseInt(limitText).Some? && ParseInt(limitText).value != 0 ==>
      w.limit == if ParseInt(limitText).value <= maxLimit then ParseInt(limitText).value else maxLimit
  {
    var page := ParsedOr(pageText, 1);
    var limit := Capped(limitText, defaultLimit, maxLimit);
    Window(page, limit, (page - 1) * limit)
  }

  /**
   * `Math.ceil(total / limit)`. A negative limit, which `limit=-5` produces,
   * gives a page count of zero or below.
   */
  function TotalPages(total: nat, limit: int): (r: int)
    requires limit != 0
    ensures limit > 0 ==> r >= 0 && r * limit >= total && (r - 1) * limit < total
    ensures limit < 0 ==> r <= 0 && r * limit <= total < (r - 1) * limit
  {
    if limit > 0 then
      CeilDiv(total, limit);
      Ceil(total as real / limit as real)
    else
      CeilDivNegative(total, limit);
      Ceil(total as real / limit as real)
  }

  /**
   * With a positive limit, a page from 1 upwards starts inside the rows
   * exactly when its number is at most the page count.
   */
  lemma PageStartsInsideRows(total: nat, limit: int, page: int)
    requires limit > 0 && page >= 1
    ensures (page - 1) * limit < total <==> page <= TotalPages(total, limit)
  {
    var n := TotalPages(total, limit);
    if page <= n {
      assert (page - 1) * limit <= (n - 1) * limit by {
        MultiplyMonotone(page - 1, n - 1, limit);
      }
    } else {
      assert n * limit <= (page - 1) * limit by {
        MultiplyMonotone(n, page - 1, limit);
      }
    }
  }

  lemma MultiplyMonotone(a: int, b: int, k: int)
    requires a <= b && k >= 0
    ensures a * k <= b * k
  {
    assert b * k - a * k == (b - a) * k;
  }
}
