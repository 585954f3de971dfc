/**
 * Offset/size pagination: from the current window and the total number of
 * results, which of first, prev, next and last exist and what they are.
 */
module Pagination {
  import opened Wrappers
  import opened JsValues

  datatype Page = Page(offset: int, size: int)

  /** What storage returns for a window: its results and the count ignoring the window. */
  datatype CollectionResult = CollectionResult(results: seq<Value>, totalCount: int)

  /** The page descriptors of a pagination result; a direction is None when it does not exist. */
  datatype PaginationResult<P> = PaginationResult(self: P, first: Option<P>, prev: Option<P>, next: Option<P>, last: Option<P>)

  /** An `OffsetSizePagination` as its constructor leaves it. */
  datatype OffsetSizePagination = OffsetSizePagination(size: int, offset: int, totalCount: int, defaultSize: int, defaultOffset: int)
  {
    /** `hasFirst()`: a whole window fits before the previous one; then there is a previous window too. */
    predicate HasFirst()
      ensures HasFirst() && size >= 0 ==> HasPrev()
    {
      totalCount > 0 && offset - size > 0
    }

    /** `hasLast()`: the window after next starts within the results; then last does too, and next exists. */
    predicate HasLast()
      ensures HasLast() && size > 0 ==> GetLast().offset < totalCount
      ensures HasLast() && size >= 0 ==> HasNext()
    {
      CurrentOffsetPlusTwoPages() < totalCount
    }

    /** `hasNext()`: the next window (at `NextOffset()`) starts within the results, after the current one's start. */
    predicate HasNext()
      ensures HasNext() ==> NextOffset() < totalCount
      ensures HasNext() && size > 0 ==> NextOffset() > offset
    {
      offset + size < totalCount
    }

    /** `hasPrev()`: the current window does not start at 0; then prev starts earlier. */
    predicate HasPrev()
      ensures HasPrev() && size > 0 ==> 0 <= GetPrev().offset < offset
    {
      offset > 0 && totalCount > 0
    }

    function CurrentOffsetPlusTwoPages(): int { offset + size * 2 }

    function NextOffset(): int { Min(totalCount - 1, offset + size) }

    /** `getFirst()`: the window from 0, no larger than the current one and ending by `offset - size`. */
    function GetFirst(): (r: Page)
      ensures r.offset == 0 && r.size <= size && r.size <= offset - size
      ensures r.size == size || r.size == offset - size
      ensures HasFirst() && size > 0 ==> r.size > 0
    {
      Page(0, Min(size, offset - size))
    }

    /** `getNext()`: the window right after the current one, capped at the last result. */
    function GetNext(): (r: Page)
      ensures r.size <= defaultSize && r.size <= size && (r.size == defaultSize || r.size == size)
      ensures r.offset <= totalCount - 1 && r.offset <= offset + size
      ensures HasNext() ==> r.offset == offset + size
      ensures !HasNext() ==> r.offset == totalCount - 1
    {
      Page(NextOffset(), Min(defaultSize, size))
    }

    /** `getPrev()`: the window `size` before the current one, never before 0. */
    function GetPrev(): (r: Page)
      ensures r.size <= defaultSize && r.size <= size && (r.size == defaultSize || r.size == size)
      ensures r.offset >= 0 && (r.offset == 0 || r.offset == offset - size)
      ensures offset - size > 0 ==> r.offset == offset - size
      ensures offset - size <= 0 ==> r.offset == 0
      ensures offset >= 0 && size >= 0 ==> r.offset <= offset
    {
      Page(Max(0, offset - size), Min(defaultSize, size))
    }

    /**
     * `getLast()`: offset `max(offset + 2*size, totalCount - size)` and size
     * `min(size, totalCount - nextOffset - size)`.
     */
    function GetLast(): (r: Page)
      ensures r.offset >= CurrentOffsetPlusTwoPages() && r.offset >= totalCount - size
      ensures r.offset == CurrentOffsetPlusTwoPages() || r.offset == totalCount - size
      ensures r.size <= size && r.size <= totalCount - NextOffset() - size
      ensures r.size == size || r.size == totalCount - NextOffset() - size
    {
      Page(Max(CurrentOffsetPlusTwoPages(), totalCount - size), Min(size, totalCount - NextOffset() - size))
    }

    /** The pagination result: `self` is the current page, a direction is present iff its `has*` holds. */
    function Build(): (r: PaginationResult<Page>)
      ensures r.self == Page(offset, size)
      ensures r.first.Some? <==> HasFirst()
      ensures r.prev.Some? <==> HasPrev()
      ensures r.next.Some? <==> HasNext()
      ensures r.last.Some? <==> HasLast()
      ensures r.first.Some? ==> r.first.value == GetFirst()
      ensures r.prev.Some? ==> r.prev.value == GetPrev()
      ensures r.next.Some? ==> r.next.value == GetNext()
      ensures r.last.Some? ==> r.last.value == GetLast()
    {
      PaginationResult(
        Page(offset, size),
        if HasFirst() then Some(GetFirst()) else None,
        if HasPrev() then Some(GetPrev()) else None,
        if HasNext() then Some(GetNext()) else None,
        if HasLast() then Some(GetLast()) else None)
    }
  }

  function Min(a: int, b: int): int { if a <= b then a else b }

  function Max(a: int, b: int): int { if a >= b then a else b }

  /** `new OffsetSizePagination(collectionResult, current, defaultSize = 10, defaultOffset = 0)`. */
  function NewPagination(collectionResult: CollectionResult, current: Page,
                         defaultSize: int := 10, defaultOffset: int := 0): (p: OffsetSizePagination)
    ensures p.size == current.size && p.offset == current.offset
    ensures p.totalCount == collectionResult.totalCount
    ensures p.defaultSize == defaultSize && p.defaultOffset == defaultOffset
  {
    OffsetSizePagination(current.size, current.offset, collectionResult.totalCount, defaultSize, defaultOffset)
  }

  /** With no results and a non-negative window, only `self` is produced. */
  lemma EmptyCollectionOnlySelf(p: OffsetSizePagination)
    requires p.totalCount == 0 && p.offset >= 0 && p.size >= 0
    ensures p.Build() == PaginationResult(Page(p.offset, p.size), None, None, None, None)
  {
  }

  /** `last` is two windows ahead: wherever it exists, `next` exists too (for a non-negative size). */
  lemma LastImpliesNext(p: OffsetSizePagination)
    requires p.size >= 0 && p.HasLast()
    ensures p.HasNext()
  {
  }

  /**
   * Where `last` exists (non-negative size), it starts no earlier than the
   * window after `next`, so the two never overlap, and it ends exactly at the
   * total count.
   */
  lemma {:induction false} LastPageEndsAtTotal(p: OffsetSizePagination)
    requires p.size >= 0 && p.HasLast()
    ensures p.GetNext().offset == p.offset + p.size
    ensures p.GetLast().offset >= p.GetNext().offset + p.size
    ensures p.GetLast().offset + p.GetLast().size == p.totalCount
    ensures p.size > 0 ==> p.GetLast().size > 0
  {
    assert p.NextOffset() == p.offset + p.size;
  }

  /** Where both exist, `first` ends no later than `prev` begins. */
  lemma FirstBeforePrev(p: OffsetSizePagination)
    requires p.HasFirst() && p.HasPrev()
    ensures p.GetFirst().offset + p.GetFirst().size <= p.GetPrev().offset
  {
  }

  /** The worked example: offset 13, size 10, 50 results, default size 10. */
  lemma Example13By10Of50()
    ensures var r := NewPagination(CollectionResult([], 50), Page(13, 10)).Build();
      r.self == Page(13, 10) && r.prev == Some(Page(3, 10)) && r.next == Some(Page(23, 10))
      && r.first == Some(Page(0, 3)) && r.last == Some(Page(40, 10))
  {
  }

  /** The test's case: 0 results at offset 13, size 10 gives only `self`. */
  lemma ExampleEmptyAt13()
    ensures NewPagination(CollectionResult([], 0), Page(13, 10), 10, 0).Build()
         == PaginationResult(Page(13, 10), None, None, None, None)
  {
  }
}
