/**
 * The page-number strip of src/components/ui/Pagination.tsx: page 1, a
 * window of up to two pages on each side of the current one, the last
 * page, and ellipses where pages are skipped.
 */
module Pagination {
  import opened Seqs

  datatype PageItem = Page(n: int) | Ellipsis

  /** Pages shown on each side of the current one. */
  const Delta: int := 2

  /** The integers `lo..hi`, ascending; empty when `lo > hi`. */
  function Range(lo: int, hi: int): (r: seq<int>)
    ensures |r| == (if lo <= hi then hi - lo + 1 else 0)
    ensures forall k :: 0 <= k < |r| ==> r[k] == lo + k
  {
    seq(if lo <= hi then hi - lo + 1 else 0, k => lo + k)
  }

  function WindowStart(currentPage: int): int {
    Max(2, currentPage - Delta)
  }

  function WindowEnd(currentPage: int, totalPages: int): int {
    Min(totalPages - 1, currentPage + Delta)
  }

  function AsPages(r: seq<int>): (items: seq<PageItem>)
    ensures |items| == |r| && forall k :: 0 <= k < |r| ==> items[k] == Page(r[k])
  {
    seq(|r|, k requires 0 <= k < |r| => Page(r[k]))
  }

  /** The strip `getVisiblePages` builds, as a value. */
  function VisiblePages(currentPage: int, totalPages: int): seq<PageItem> {
    var head := if currentPage - Delta > 2 then [Page(1), Ellipsis] else [Page(1)];
    var window := AsPages(Range(WindowStart(currentPage), WindowEnd(currentPage, totalPages)));
    var tail := if currentPage + Delta < totalPages - 1 then [Ellipsis, Page(totalPages)]
                else if totalPages > 1 then [Page(totalPages)]
                else [];
    head + window + tail
  }

  /** `getVisiblePages()`: the window is collected by a loop, then the strip is assembled by successive pushes. */
  method GetVisiblePages(currentPage: int, totalPages: int) returns (rangeWithDots: seq<PageItem>)
    ensures rangeWithDots == VisiblePages(currentPage, totalPages)
  {
    var range: seq<int> := [];
    var lo := Max(2, currentPage - Delta);
    var i := lo;
    while i <= Min(totalPages - 1, currentPage + Delta)
      invariant lo <= i
      invariant i <= Max(lo, WindowEnd(currentPage, totalPages) + 1)
      invariant |range| == i - lo
      invariant forall k :: 0 <= k < |range| ==> range[k] == lo + k
      decreases WindowEnd(currentPage, totalPages) - i
    {
      range := range + [i];
      i := i + 1;
    }
    assert range == Range(WindowStart(currentPage), WindowEnd(currentPage, totalPages));

    rangeWithDots := [];
    if currentPage - Delta > 2 {
      rangeWithDots := rangeWithDots + [Page(1), Ellipsis];
    } else {
      rangeWithDots := rangeWithDots + [Page(1)];
    }
    rangeWithDots := rangeWithDots + AsPages(range);
    if currentPage + Delta < totalPages - 1 {
      rangeWithDots := rangeWithDots + [Ellipsis, Page(totalPages)];
    } else if totalPages > 1 {
      rangeWithDots := rangeWithDots + [Page(totalPages)];
    }
  }

  // ---------------------------------------------------------------------
  // Properties of the strip

  lemma FirstIsOne(currentPage: int, totalPages: int)
    ensures VisiblePages(currentPage, totalPages)[0] == Page(1)
  {
  }

  lemma LastIsTotal(currentPage: int, totalPages: int)
    requires totalPages > 1
    ensures var pages := VisiblePages(currentPage, totalPages);
            pages[|pages| - 1] == Page(totalPages)
  {
  }

  /** 1, at most five window pages, the last page and two ellipses. */
  lemma AtMostNine(currentPage: int, totalPages: int)
    ensures |VisiblePages(currentPage, totalPages)| <= 9
  {
    var w := Range(WindowStart(currentPage), WindowEnd(currentPage, totalPages));
    assert |w| <= 5;
  }

  /** The window pages are exactly `max(2, cp - 2) .. min(tp - 1, cp + 2)`, ascending, right after the head. */
  lemma WindowPages(currentPage: int, totalPages: int, k: int)
    ensures var pages := VisiblePages(currentPage, totalPages);
            var offset := if currentPage - Delta > 2 then 2 else 1;
            WindowStart(currentPage) <= k <= WindowEnd(currentPage, totalPages) ==>
              pages[offset + k - WindowStart(currentPage)] == Page(k)
  {
  }

  /** An ellipsis follows page 1 exactly when the window starts after page 3. */
  lemma LeadingEllipsis(currentPage: int, totalPages: int)
    requires 1 <= currentPage
    ensures var pages := VisiblePages(currentPage, totalPages);
            (|pages| > 1 && pages[1] == Ellipsis) <==> currentPage - Delta > 2
  {
    var pages := VisiblePages(currentPage, totalPages);
    var w := Range(WindowStart(currentPage), WindowEnd(currentPage, totalPages));
    if currentPage - Delta <= 2 && |pages| > 1 {
      if w != [] {
        assert pages[1] == Page(w[0]);
      }
    }
  }

  /** An ellipsis precedes the last page exactly when the window ends before the second-to-last page. */
  lemma TrailingEllipsis(currentPage: int, totalPages: int)
    requires 1 <= currentPage <= totalPages
    ensures var pages := VisiblePages(currentPage, totalPages);
            (|pages| > 1 && pages[|pages| - 2] == Ellipsis) <==> currentPage + Delta < totalPages - 1
  {
    var pages := VisiblePages(currentPage, totalPages);
    var head := if currentPage - Delta > 2 then [Page(1), Ellipsis] else [Page(1)];
    var w := AsPages(Range(WindowStart(currentPage), WindowEnd(currentPage, totalPages)));
    if currentPage + Delta >= totalPages - 1 && |pages| > 1 {
      if totalPages > 1 {
        if w != [] {
          assert pages[|pages| - 2] == w[|w| - 1];
        } else {
          assert currentPage - Delta <= 2;
          assert pages == [Page(1), Page(totalPages)];
        }
      }
    }
  }

  /** For a valid current page, the page numbers ascend strictly, stay in `[1, tp]` and include the current page. */
  lemma WellFormed(currentPage: int, totalPages: int)
    requires 2 <= totalPages && 1 <= currentPage <= totalPages
    ensures var pages := VisiblePages(currentPage, totalPages);
            && (forall i, j :: 0 <= i < j < |pages| && pages[i].Page? && pages[j].Page? ==> pages[i].n < pages[j].n)
            && (forall i :: 0 <= i < |pages| && pages[i].Page? ==> 1 <= pages[i].n <= totalPages)
            && Page(currentPage) in pages
  {
    var pages := VisiblePages(currentPage, totalPages);
    var lo := WindowStart(currentPage);
    var hi := WindowEnd(currentPage, totalPages);
    var head := if currentPage - Delta > 2 then [Page(1), Ellipsis] else [Page(1)];
    var w := AsPages(Range(lo, hi));
    var tail := if currentPage + Delta < totalPages - 1 then [Ellipsis, Page(totalPages)] else [Page(totalPages)];
    assert pages == head + w + tail;
    // Every number has a rank: 1 in the head, k in the window, tp in the tail.
    forall i | 0 <= i < |pages| && pages[i].Page?
      ensures 1 <= pages[i].n <= totalPages
      ensures i < |head| ==> pages[i].n == 1
      ensures |head| <= i < |head| + |w| ==> pages[i].n == lo + (i - |head|)
      ensures |head| + |w| <= i ==> pages[i].n == totalPages
    {
      if |head| <= i < |head| + |w| {
        assert pages[i] == w[i - |head|];
      }
    }
    if currentPage == 1 {
      assert pages[0] == Page(1);
    } else if currentPage == totalPages {
      assert pages[|pages| - 1] == Page(totalPages);
    } else {
      assert lo <= currentPage <= hi;
      assert pages[|head| + currentPage - lo] == Page(currentPage);
    }
  }

  // ---------------------------------------------------------------------
  // Controls

  /** The numbered variant renders nothing for a single page. */
  predicate Rendered(totalPages: int) {
    totalPages > 1
  }

  predicate PreviousDisabled(currentPage: int) {
    currentPage <= 1
  }

  predicate NextDisabled(currentPage: int, totalPages: int) {
    currentPage >= totalPages
  }

  /** An enabled arrow always leads to a page that exists. */
  lemma ArrowsStayInRange(currentPage: int, totalPages: int)
    requires 1 <= currentPage <= totalPages
    ensures !PreviousDisabled(currentPage) ==> 1 <= currentPage - 1 <= totalPages
    ensures !NextDisabled(currentPage, totalPages) ==> 1 <= currentPage + 1 <= totalPages
    ensures Rendered(totalPages) ==> !PreviousDisabled(currentPage) || !NextDisabled(currentPage, totalPages)
  {
  }
}
