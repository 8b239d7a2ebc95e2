/** The arithmetic behind PostListComponent's three page cursors and its hero
    rotation: page counts, the window a page shows, and wrap-around moves.
    Cursors are never negative in the component, so JavaScript's `%` agrees
    with Dafny's here. */
module Pagination {

  /** `(i + 1) % n`, or i unchanged when there is nothing to cycle through. */
  function CycleNext(i: nat, n: nat): (r: nat)
    ensures n == 0 ==> r == i
    ensures n > 0 ==> r < n
    ensures n > 0 && i == n - 1 ==> r == 0
    ensures i + 1 < n ==> r == i + 1
  {
    if n == 0 then i else (i + 1) % n
  }

  /** `(i - 1 + n) % n`, or i unchanged when there is nothing to cycle through. */
  function CyclePrev(i: nat, n: nat): (r: nat)
    ensures n == 0 ==> r == i
    ensures n > 0 ==> r < n
    ensures n > 0 && i == 0 ==> r == n - 1
    ensures 0 < i < n ==> r == i - 1
  {
    if n == 0 then i else (i - 1 + n) % n
  }

  /** Within range, a step forward and a step back undo each other. */
  lemma CycleInverse(i: nat, n: nat)
    requires i < n
    ensures CyclePrev(CycleNext(i, n), n) == i
    ensures CycleNext(CyclePrev(i, n), n) == i
  {
  }

  /** k steps forward. */
  function NextTimes(i: nat, n: nat, k: nat): nat
  {
    if k == 0 then i else CycleNext(NextTimes(i, n, k - 1), n)
  }

  /** Below the end, k steps forward add k. */
  lemma {:induction false} NextTimesAdds(i: nat, n: nat, k: nat)
    requires i + k < n
    ensures NextTimes(i, n, k) == i + k
  {
    if k > 0 {
      NextTimesAdds(i, n, k - 1);
    }
  }

  /** a steps then b steps are a + b steps. */
  lemma {:induction false} NextTimesCompose(i: nat, n: nat, a: nat, b: nat)
    ensures NextTimes(i, n, a + b) == NextTimes(NextTimes(i, n, a), n, b)
  {
    if b > 0 {
      NextTimesCompose(i, n, a, b - 1);
    }
  }

  /** n steps forward from an in-range position come back to it. */
  lemma NextTimesFullCycle(i: nat, n: nat)
    requires i < n
    ensures NextTimes(i, n, n) == i
  {
    NextTimesAdds(i, n, n - 1 - i);
    assert NextTimes(i, n, n - i) == CycleNext(n - 1, n) == 0;
    NextTimesCompose(i, n, n - i, i);
    NextTimesAdds(0, n, i);
  }

  /** `Math.ceil(length / size)`. */
  function PageCount(length: nat, size: nat): (n: nat)
    requires size > 0
    ensures n == 0 <==> length == 0
  {
    (length + size - 1) / size
  }

  /** The page count is the least number of pages that hold the list. */
  lemma PageCountIsCeiling(length: nat, size: nat)
    requires size > 0
    ensures PageCount(length, size) * size >= length
    ensures PageCount(length, size) > 0 ==> (PageCount(length, size) - 1) * size < length
  {
    var n := PageCount(length, size);
    assert (length + size - 1) == n * size + (length + size - 1) % size;
  }

  /** A cursor the component can hold: a page that exists, or page 0. */
  predicate InRange(page: nat, length: nat, size: nat)
    requires size > 0
  {
    page == 0 || page < PageCount(length, size)
  }

  /** `list.slice(page * size, page * size + size)`. */
  function Window<T>(list: seq<T>, page: nat, size: nat): (w: seq<T>)
    ensures |w| <= size
    ensures forall i :: 0 <= i < |w| ==> page * size + i < |list| && w[i] == list[page * size + i]
    ensures page * size + size <= |list| ==> |w| == size
    ensures page * size < |list| < page * size + size ==> |w| == |list| - page * size
    ensures page * size >= |list| ==> w == []
  {
    var start := page * size;
    if start >= |list| then []
    else if start + size <= |list| then list[start..start + size]
    else list[start..]
  }

  /** `page` steps forward, wrapping; a no-op on an empty list. */
  function NextPage(page: nat, length: nat, size: nat): (p: nat)
    requires size > 0
    ensures length == 0 ==> p == page
    ensures length > 0 ==> p < PageCount(length, size)
    ensures InRange(page, length, size) ==> InRange(p, length, size)
  {
    CycleNext(page, PageCount(length, size))
  }

  /** `page` steps back, wrapping; a no-op on an empty list. */
  function PrevPage(page: nat, length: nat, size: nat): (p: nat)
    requires size > 0
    ensures length == 0 ==> p == page
    ensures length > 0 ==> p < PageCount(length, size)
    ensures InRange(page, length, size) ==> InRange(p, length, size)
  {
    CyclePrev(page, PageCount(length, size))
  }

  /** On a non-empty list every page a cursor can be on shows something. */
  lemma InRangeWindowNonEmpty<T>(list: seq<T>, page: nat, size: nat)
    ensures size > 0 && list != [] && InRange(page, |list|, size) ==> Window(list, page, size) != []
  {
    if size > 0 && list != [] && page > 0 && InRange(page, |list|, size) {
      var n := PageCount(|list|, size);
      PageCountIsCeiling(|list|, size);
      assert page <= n - 1;
      MulLe(page, n - 1, size);
    }
  }

  lemma MulLe(a: nat, b: nat, c: nat)
    requires a <= b
    ensures a * c <= b * c
  {
    assert b * c == a * c + (b - a) * c;
  }

  lemma MulSucc(a: nat, c: nat)
    ensures (a + 1) * c == a * c + c
  {
  }

  /** The first k pages shown one after another. */
  function Pages<T>(list: seq<T>, size: nat, k: nat): seq<T>
  {
    if k == 0 then [] else Pages(list, size, k - 1) + Window(list, k - 1, size)
  }

  /** `Math.min(n, length)`: where `slice` stops. */
  function Clip(n: nat, length: nat): (r: nat)
    ensures r <= n && r <= length
    ensures r == n || r == length
  {
    if n <= length then n else length
  }

  /** The first k pages are the first k * size elements. */
  lemma {:induction false} PagesArePrefix<T>(list: seq<T>, size: nat, k: nat)
    requires size > 0
    ensures Pages(list, size, k) == list[..Clip(k * size, |list|)]
  {
    if k > 0 {
      PagesArePrefix(list, size, k - 1);
      MulSucc(k - 1, size);
      WindowIsSlice(list, k - 1, size);
      PrefixJoin(list, (k - 1) * size, k * size);
    }
  }

  /** A window is the slice between the clipped bounds of its page. */
  lemma WindowIsSlice<T>(list: seq<T>, page: nat, size: nat)
    ensures Window(list, page, size) == list[Clip(page * size, |list|)..Clip(page * size + size, |list|)]
  {
    var start := page * size;
    if start < |list| && start + size > |list| {
      assert list[start..] == list[start..|list|];
    }
  }

  /** Two adjacent clipped slices make one prefix. */
  lemma PrefixJoin<T>(list: seq<T>, a: nat, b: nat)
    requires a <= b
    ensures list[..Clip(a, |list|)] + list[Clip(a, |list|)..Clip(b, |list|)] == list[..Clip(b, |list|)]
  {
  }

  /** The pages together show the whole list, each element once and in order. */
  lemma PagesCoverList<T>(list: seq<T>, size: nat)
    requires size > 0
    ensures Pages(list, size, PageCount(|list|, size)) == list
  {
    PageCountIsCeiling(|list|, size);
    PagesArePrefix(list, size, PageCount(|list|, size));
  }
}
