/**
 * Sequence operations of JavaScript arrays used throughout the listing
 * code: `filter`, `slice` (with its index normalisation) and the
 * page arithmetic `Math.ceil(total / size)`.
 */
module Seqs {

  function Min(a: int, b: int): int {
    if a <= b then a else b
  }

  function Max(a: int, b: int): int {
    if a >= b then a else b
  }

  /** `r` is `s` with some elements deleted, the rest kept in order. */
  ghost predicate IsSubsequence<T>(r: seq<T>, s: seq<T>)
    decreases |s|
  {
    if r == [] then true
    else if s == [] then false
    else (r[0] == s[0] && IsSubsequence(r[1..], s[1..])) || IsSubsequence(r, s[1..])
  }

  /** `Array.prototype.filter`. */
  function Filter<T(==)>(s: seq<T>, f: T -> bool): (r: seq<T>)
    ensures |r| <= |s|
    ensures forall i :: 0 <= i < |r| ==> r[i] in s && f(r[i])
    ensures forall i :: 0 <= i < |s| && f(s[i]) ==> s[i] in r
  {
    if s == [] then []
    else
      assert s == [s[0]] + s[1..];
      (if f(s[0]) then [s[0]] else []) + Filter(s[1..], f)
  }

  /** The filtered sequence keeps the order of the input. */
  lemma {:induction false} FilterIsSubsequence<T>(s: seq<T>, f: T -> bool)
    ensures IsSubsequence(Filter(s, f), s)
  {
    if s != [] {
      FilterIsSubsequence(s[1..], f);
      var rest := Filter(s[1..], f);
      if f(s[0]) {
        assert ([s[0]] + rest)[1..] == rest;
      } else {
        assert Filter(s, f) == rest;
        SubsequenceOfTail(rest, s);
      }
    }
  }

  lemma SubsequenceOfTail<T>(r: seq<T>, s: seq<T>)
    requires s != [] && IsSubsequence(r, s[1..])
    ensures IsSubsequence(r, s)
  {
  }

  lemma {:induction false} FilterAppend<T>(a: seq<T>, b: seq<T>, f: T -> bool)
    ensures Filter(a + b, f) == Filter(a, f) + Filter(b, f)
  {
    if a != [] {
      FilterAppend(a[1..], b, f);
      var ab := a + b;
      assert ab[0] == a[0] && ab[1..] == a[1..] + b;
      var head := if f(a[0]) then [a[0]] else [];
      calc {
        Filter(ab, f);
        head + Filter(a[1..] + b, f);
        head + (Filter(a[1..], f) + Filter(b, f));
        (head + Filter(a[1..], f)) + Filter(b, f);
      }
    } else {
      assert a + b == b;
    }
  }

  lemma {:induction false} FilterKeepsAll<T>(s: seq<T>, f: T -> bool)
    requires forall i :: 0 <= i < |s| ==> f(s[i])
    ensures Filter(s, f) == s
  {
    if s != [] {
      FilterKeepsAll(s[1..], f);
    }
  }

  /** The filter keeps every copy of a kept value and no copy of a dropped one. */
  lemma {:induction false} FilterCount<T>(s: seq<T>, f: T -> bool)
    ensures forall y :: multiset(Filter(s, f))[y] == (if f(y) then multiset(s)[y] else 0)
  {
    if s != [] {
      FilterCount(s[1..], f);
      assert s == [s[0]] + s[1..];
    }
  }

  /** Filtering twice is filtering once by the conjunction. */
  lemma {:induction false} FilterFilter<T>(s: seq<T>, f: T -> bool, g: T -> bool, both: T -> bool)
    requires forall x :: both(x) == (f(x) && g(x))
    ensures Filter(Filter(s, f), g) == Filter(s, both)
  {
    if s != [] {
      FilterFilter(s[1..], f, g, both);
      var rest := Filter(s[1..], f);
      if f(s[0]) {
        var t := [s[0]] + rest;
        assert t[0] == s[0] && t[1..] == rest;
        assert Filter(t, g) == (if g(s[0]) then [s[0]] else []) + Filter(rest, g);
      } else {
        assert Filter(s, f) == [] + rest == rest;
      }
    }
  }

  lemma {:induction false} FilterSameFunction<T>(s: seq<T>, f: T -> bool, g: T -> bool)
    requires forall x :: f(x) == g(x)
    ensures Filter(s, f) == Filter(s, g)
  {
    if s != [] {
      FilterSameFunction(s[1..], f, g);
    }
  }

  lemma FilterNone<T>(s: seq<T>, f: T -> bool)
    requires forall x :: !f(x)
    ensures Filter(s, f) == []
  {
  }

  /** `if (active) s = s.filter(f)`. */
  function FilterWhen<T(==)>(s: seq<T>, active: bool, f: T -> bool): seq<T> {
    if active then Filter(s, f) else s
  }

  /** A filter applied only when `active` is one filter by `active ==> f`. */
  lemma FilterWhenIsFilter<T>(s: seq<T>, active: bool, f: T -> bool, g: T -> bool)
    requires forall x :: g(x) == (active ==> f(x))
    ensures FilterWhen(s, active, f) == Filter(s, g)
  {
    if active {
      FilterSameFunction(s, f, g);
    } else {
      FilterKeepsAll(s, g);
    }
  }

  /** Index normalisation of `Array.prototype.slice`: negative indices count from the end; the result is clamped to `[0, len]`. */
  function SliceIndex(len: nat, k: int): (r: nat)
    ensures r <= len
    ensures 0 <= k <= len ==> r == k
  {
    if k < 0 then (if len + k < 0 then 0 else len + k)
    else if k > len then len
    else k
  }

  /** `s.slice(start, end)`. */
  function Slice<T>(s: seq<T>, start: int, end: int): seq<T> {
    var a := SliceIndex(|s|, start);
    var b := SliceIndex(|s|, end);
    if a < b then s[a..b] else []
  }

  /** The items of page `page` (1-based) when pages hold `size` items: `slice((page - 1) * size, (page - 1) * size + size)`. */
  function PageSlice<T>(s: seq<T>, page: int, size: int): seq<T> {
    var start := (page - 1) * size;
    Slice(s, start, start + size)
  }

  /** `r` is the run of `s` from `start` on: `size` items, fewer only where `s` ends. */
  ghost predicate IsPage<T>(r: seq<T>, s: seq<T>, start: int, size: int) {
    && 0 <= start
    && |r| <= size
    && |r| == (if start >= |s| then 0 else Min(size, |s| - start))
    && forall i :: 0 <= i < |r| ==> start + i < |s| && r[i] == s[start + i]
  }

  lemma PageSliceContents<T>(s: seq<T>, page: int, size: int)
    requires page >= 1 && size >= 1
    ensures IsPage(PageSlice(s, page, size), s, (page - 1) * size, size)
  {
    var start := (page - 1) * size;
    MulMonotone(0, page - 1, size);
    var a := SliceIndex(|s|, start);
    var b := SliceIndex(|s|, start + size);
    assert a == (if start >= |s| then |s| else start);
    assert b == (if start + size >= |s| then |s| else start + size);
  }

  /** `Math.ceil(total / size)` for a positive page size. */
  function CeilDiv(total: nat, size: int): (r: nat)
    requires size >= 1
    ensures r * size >= total
    ensures r == 0 || (r - 1) * size < total
  {
    (total + size - 1) / size
  }

  /** A page number is below the page count exactly when items remain after that page. */
  lemma BeforeLastPage(total: nat, size: int, page: int)
    requires size >= 1
    ensures page < CeilDiv(total, size) <==> page * size < total
  {
    var n := CeilDiv(total, size);
    if page < n {
      MulMonotone(page, n as int - 1, size);
    } else {
      MulMonotone(n, page, size);
    }
  }

  lemma MulMonotone(a: int, b: int, c: nat)
    requires a <= b
    ensures a * c <= b * c
  {
    assert b * c - a * c == (b - a) * c;
  }

  /** Item `k` is on page `k / size + 1`, at position `k % size`, and that page exists. */
  lemma PageOfIndex<T>(s: seq<T>, size: int, k: int)
    requires size >= 1 && 0 <= k < |s|
    ensures var page := k / size + 1;
            && 1 <= page <= CeilDiv(|s|, size)
            && k % size < |PageSlice(s, page, size)|
            && PageSlice(s, page, size)[k % size] == s[k]
  {
    var page := k / size + 1;
    assert (page - 1) * size + k % size == k;
    BeforeLastPage(|s|, size, page - 1);
    PageSliceContents(s, page, size);
  }
}
