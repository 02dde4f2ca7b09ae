/**
 * Pagination of list responses: the request's page and page size are
 * normalised, and the response's metadata counts pages by ceiling division
 * with Go's truncating integer division.
 */
module Pagination {
  import opened Common

  datatype PaginationParams = PaginationParams(page: int, pageSize: int, offset: int)

  datatype Meta = Meta(
    page: int,
    pageSize: int,
    totalPages: int,
    totalRecords: int,
    hasNext: bool,
    hasPrevious: bool)

  /** The largest page size a request may ask for. */
  const MaxPageSize: int := 100
  /** The page size used when the request's is out of range. */
  const DefaultPageSize: int := 10

  /** The largest value of Go's 64-bit `int`; strconv.Atoi clamps longer numbers to it. */
  const MaxInt64: int := 0x7fff_ffff_ffff_ffff

  /** Go's 64-bit `int`. */
  type Int64 = x: int | -0x8000_0000_0000_0000 <= x < 0x8000_0000_0000_0000

  /** Two's-complement wrap-around of a product or sum computed in Go's 64-bit `int`. */
  function Wrap64(x: int): (r: Int64)
    ensures (x - r) % 0x1_0000_0000_0000_0000 == 0
    ensures -0x8000_0000_0000_0000 <= x < 0x8000_0000_0000_0000 ==> r == x
  {
    (x + 0x8000_0000_0000_0000) % 0x1_0000_0000_0000_0000 - 0x8000_0000_0000_0000
  }

  /**
   * NewPaginationParams as written: a page below 1 becomes 1, a page size
   * outside 1..100 becomes 10, and the offset `(page - 1) * pageSize` is
   * computed in 64-bit arithmetic, so it wraps for huge pages.
   */
  function NewPaginationParams(page: Int64, pageSize: Int64): (p: PaginationParams)
    ensures p.page >= 1 && 1 <= p.pageSize <= MaxPageSize
    ensures p.page == if page < 1 then 1 else page
    ensures p.pageSize == if 1 <= pageSize <= MaxPageSize then pageSize else DefaultPageSize
    ensures p.offset == Wrap64((p.page - 1) * p.pageSize)
  {
    var pg := if page < 1 then 1 else page;
    var ps := if pageSize < 1 || pageSize > MaxPageSize then DefaultPageSize else pageSize;
    PaginationParams(pg, ps, Wrap64((pg - 1) * ps))
  }

  /** The last page whose offset fits in 64 bits, for a page size of at least one. */
  function LastSafePage(pageSize: int): (last: int)
    requires pageSize >= 1
    ensures last >= 1
    ensures (last - 1) * pageSize <= MaxInt64
  {
    var q := MaxInt64 / pageSize;
    assert q * pageSize <= MaxInt64;
    q + 1
  }

  /** For 0 <= a <= b and c >= 0, a * c <= b * c. */
  lemma MulMonotone(a: int, b: int, c: int)
    requires 0 <= a <= b && c >= 0
    ensures a * c <= b * c
  {
    assert b * c - a * c == (b - a) * c;
  }

  /**
   * Normalising twice changes nothing; and up to the last page whose offset
   * fits, the offset is the exact, non-negative number of rows skipped.
   */
  lemma NormalisedParamsAreFixed(page: Int64, pageSize: Int64)
    ensures var p := NewPaginationParams(page, pageSize);
      NewPaginationParams(p.page, p.pageSize) == p
    ensures var p := NewPaginationParams(page, pageSize);
      p.page <= LastSafePage(p.pageSize) ==> p.offset == (p.page - 1) * p.pageSize && p.offset >= 0
  {
    var p := NewPaginationParams(page, pageSize);
    if p.page <= LastSafePage(p.pageSize) {
      MulMonotone(p.page - 1, LastSafePage(p.pageSize) - 1, p.pageSize);
      assert 0 <= (p.page - 1) * p.pageSize <= MaxInt64 by {
        MulMonotone(0, p.page - 1, p.pageSize);
      }
    }
  }

  /**
   * The request `?page=` with a number too long for Atoi (clamped to the
   * largest int64) and the default page size makes the offset negative.
   */
  lemma HugePageGivesNegativeOffset()
    ensures NewPaginationParams(MaxInt64, DefaultPageSize).offset == -20
  {
    assert (MaxInt64 - 1) * DefaultPageSize == 92233720368547758060;
  }

  /**
   * NewPaginationParams as intended: the page is capped at the last page
   * whose offset fits in 64 bits, so the offset is always the exact,
   * non-negative number of rows skipped; below the cap it agrees with the
   * code as written.
   */
  function NewPaginationParamsBounded(page: Int64, pageSize: Int64): (p: PaginationParams)
    ensures p.page >= 1 && 1 <= p.pageSize <= MaxPageSize
    ensures p.pageSize == NewPaginationParams(page, pageSize).pageSize
    ensures p.offset == (p.page - 1) * p.pageSize && 0 <= p.offset <= MaxInt64
    ensures NewPaginationParams(page, pageSize).page <= LastSafePage(p.pageSize) ==> p == NewPaginationParams(page, pageSize)
    ensures NewPaginationParams(page, pageSize).page > LastSafePage(p.pageSize) ==> p.page == LastSafePage(p.pageSize)
  {
    var q := NewPaginationParams(page, pageSize);
    var last := LastSafePage(q.pageSize);
    var pg := if q.page <= last then q.page else last;
    MulMonotone(0, pg - 1, q.pageSize);
    MulMonotone(pg - 1, last - 1, q.pageSize);
    NormalisedParamsAreFixed(page, pageSize);
    PaginationParams(pg, q.pageSize, (pg - 1) * q.pageSize)
  }

  /** Go's `/` on int: the quotient truncated toward zero. */
  function GoDiv(a: int, b: int): (q: int)
    requires b != 0
    ensures a >= 0 && b > 0 ==> q == a / b
  {
    if b > 0 then (if a >= 0 then a / b else -((-a) / b))
    else (if a >= 0 then -(a / (-b)) else (-a) / (-b))
  }

  /**
   * CalculateMeta: at least one page; a next page exactly when this page is
   * before the last, a previous one exactly when it is after the first. A
   * zero page size is a division by zero in Go and excluded here.
   */
  function CalculateMeta(page: int, pageSize: int, totalRecords: int): (m: Meta)
    requires pageSize != 0
    ensures m.totalPages >= 1
    ensures m.page == page && m.pageSize == pageSize && m.totalRecords == totalRecords
    ensures m.hasNext <==> page < m.totalPages
    ensures m.hasPrevious <==> page > 1
  {
    var q := GoDiv(totalRecords + pageSize - 1, pageSize);
    var totalPages := if q < 1 then 1 else q;
    Meta(page, pageSize, totalPages, totalRecords, page < totalPages, page > 1)
  }

  /**
   * For a positive page size the page count is the ceiling of records over
   * page size, and one page when there are no records: the pages hold every
   * record and the last page is not empty.
   */
  lemma {:induction false} PagesCoverRecords(page: int, pageSize: int, totalRecords: int)
    requires pageSize > 0 && totalRecords >= 0
    ensures var m := CalculateMeta(page, pageSize, totalRecords);
      totalRecords <= m.totalPages * pageSize
      && (totalRecords == 0 ==> m.totalPages == 1)
      && (totalRecords > 0 ==> (m.totalPages - 1) * pageSize < totalRecords)
  {
    var a := totalRecords + pageSize - 1;
    var q := a / pageSize;
    var r := a % pageSize;
    assert a == q * pageSize + r && 0 <= r < pageSize;
    var m := CalculateMeta(page, pageSize, totalRecords);
    if q < 1 {
      assert q == 0 by {
        assert q >= 0;
      }
      assert m.totalPages == 1;
    } else {
      assert m.totalPages == q;
      assert (q - 1) * pageSize == q * pageSize - pageSize;
    }
  }

  /** A numerator below twice the divisor has a truncated quotient of at most one. */
  lemma GoDivBelowTwice(a: int, d: int)
    requires d > 0 && a < 2 * d
    ensures GoDiv(a, d) <= 1
  {
    if 0 <= a < d {
      assert a / d == 0;
    } else if a >= d {
      assert a == d * 1 + (a - d);
      assert a / d == 1;
    }
  }

  /** When every record fits in one page there is exactly one page. */
  lemma OnePageWhenFits(page: int, pageSize: int, totalRecords: int)
    requires pageSize > 0 && totalRecords <= pageSize
    ensures CalculateMeta(page, pageSize, totalRecords).totalPages == 1
  {
    GoDivBelowTwice(totalRecords + pageSize - 1, pageSize);
  }

  /**
   * CalculateMeta as Go runs it, with the runtime panic of an integer
   * division by zero made explicit as None.
   */
  function CalculateMetaChecked(page: int, pageSize: int, totalRecords: int): (m: Option<Meta>)
    ensures m.None? <==> pageSize == 0
    ensures m.Some? ==> m.value.totalPages >= 1
  {
    if pageSize == 0 then None else Some(CalculateMeta(page, pageSize, totalRecords))
  }
}
