/** The paging settings bound from a list request's query string: a page number and a page
    size whose setter silently caps the size at a fixed maximum. */
module Pagination {

  /** C#'s `int`: a 32-bit two's-complement integer. */
  newtype Int32 = x: int | -0x8000_0000 <= x < 0x8000_0000

  /** The largest page size the setter stores. */
  const MaxPageSize: Int32 := 100000
  const DefaultPageNumber: Int32 := 1
  const DefaultPageSize: Int32 := 10

  /** The value the page-size setter stores when asked for `value`: the smaller of `value` and
      the maximum. There is no lower bound. */
  function ClampPageSize(value: Int32): (r: Int32)
    ensures r <= MaxPageSize && r <= value
    ensures r == value || r == MaxPageSize
  {
    if value > MaxPageSize then MaxPageSize else value
  }

  /** Sizes at or below the maximum, zero and negative sizes included, are stored unchanged. */
  lemma ClampKeepsSmallSizes(value: Int32)
    requires value <= MaxPageSize
    ensures ClampPageSize(value) == value
  {
  }

  /** Sizes above the maximum are stored as the maximum. */
  lemma ClampCapsLargeSizes(value: Int32)
    requires value > MaxPageSize
    ensures ClampPageSize(value) == MaxPageSize
  {
  }

  /** Storing a size that was already stored changes nothing: writing back what the getter
      returned, or setting the same value twice, leaves the state of a single set. */
  lemma ClampIdempotent(value: Int32)
    ensures ClampPageSize(ClampPageSize(value)) == ClampPageSize(value)
  {
  }

  class PaginationParams {
    /** The `PageNumber` auto-property: stored as given, no clamp. */
    var PageNumber: Int32
    /** The backing field `_pageSize` of the `PageSize` property. */
    var pageSize: Int32

    /** The object invariant: the stored page size never exceeds the maximum. */
    ghost predicate Valid()
      reads this
    {
      pageSize <= MaxPageSize
    }

    /** A fresh settings object holds the defaults: page 1, ten items per page. */
    constructor ()
      ensures Valid()
      ensures PageNumber == DefaultPageNumber && PageSize() == DefaultPageSize
    {
      PageNumber := DefaultPageNumber;
      pageSize := DefaultPageSize;
    }

    /** The `PageSize` getter. */
    function PageSize(): (r: Int32)
      reads this
      requires Valid()
      ensures r <= MaxPageSize
    {
      pageSize
    }

    /** The `PageSize` setter: stores the requested size capped at the maximum and leaves the
        page number alone. */
    method SetPageSize(value: Int32)
      modifies this`pageSize
      ensures Valid()
      ensures pageSize == ClampPageSize(value)
      ensures value <= MaxPageSize ==> pageSize == value
      ensures value > MaxPageSize ==> pageSize == MaxPageSize
      ensures PageNumber == old(PageNumber)
    {
      pageSize := if value > MaxPageSize then MaxPageSize else value;
    }

    /** The `PageNumber` setter: stores any value, leaves the page size alone. */
    method SetPageNumber(value: Int32)
      requires Valid()
      modifies this`PageNumber
      ensures Valid()
      ensures PageNumber == value && pageSize == old(pageSize)
    {
      PageNumber := value;
    }
  }

  /** Setting the page size twice with the same value leaves the state a single set leaves. */
  method SetPageSizeTwice(p: PaginationParams, value: Int32)
    modifies p
    ensures p.Valid()
    ensures p.pageSize == ClampPageSize(value) && p.PageNumber == old(p.PageNumber)
  {
    p.SetPageSize(value);
    p.SetPageSize(value);
  }
}
