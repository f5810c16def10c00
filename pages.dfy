/**
 * Page selection for a PDF: a list of selected page numbers kept free of
 * duplicates (toggle one page, or add a range), a current page clamped to the
 * document, and the in-place ascending sort the summary applies to the list.
 */
module Pages {

  predicate NoDup(s: seq<int>) {
    forall i, j :: 0 <= i < j < |s| ==> s[i] != s[j]
  }

  predicate Sorted(s: seq<int>) {
    forall i, j :: 0 <= i < j < |s| ==> s[i] <= s[j]
  }

  // ---------------------------------------------------------------------------
  // The list operations behind togglePage and selectRange

  /** `selected.filter(p => p !== page)`: every occurrence of `page` dropped, the
      rest in order. */
  function Remove(s: seq<int>, page: int): (r: seq<int>)
    ensures forall x :: x in r <==> x in s && x != page
    ensures |r| <= |s|
    ensures page in s ==> |r| < |s|
    ensures NoDup(s) ==> NoDup(r)
  {
    if s == [] then []
    else
      var n := |s| - 1;
      var r := Remove(s[..n], page);
      assert forall x :: x in s <==> x in s[..n] || x == s[n];
      assert NoDup(s) ==> NoDup(s[..n]) && s[n] !in s[..n];
      if s[n] == page then r else r + [s[n]]
  }

  /** Filtering distributes over concatenation; with RemoveSingle this says that
      Remove keeps every element other than the page, in order. */
  lemma {:induction false} RemoveAppend(a: seq<int>, b: seq<int>, page: int)
    ensures Remove(a + b, page) == Remove(a, page) + Remove(b, page)
    decreases |b|
  {
    if b == [] {
      assert a + b == a;
    } else {
      var n := |b| - 1;
      var c, x := b[..n], b[n];
      assert b == c + [x];
      assert a + b == (a + c) + [x];
      RemoveAppend(a, c, page);
      RemoveSnoc(a + c, x, page);
      RemoveSnoc(c, x, page);
    }
  }

  lemma RemoveSnoc(s: seq<int>, x: int, page: int)
    ensures Remove(s + [x], page) == if x == page then Remove(s, page) else Remove(s, page) + [x]
  {
    assert (s + [x])[..|s|] == s;
  }

  /** Filtering drops every copy of the page and keeps every other element as
      often as it occurs. */
  lemma {:induction false} RemoveCount(s: seq<int>, page: int)
    ensures multiset(Remove(s, page)) == multiset(s)[page := 0]
  {
    if s != [] {
      var n := |s| - 1;
      var c, x := s[..n], s[n];
      assert s == c + [x];
      RemoveCount(c, page);
      RemoveSnoc(c, x, page);
      assert multiset(s) == multiset(c) + multiset{x};
    }
  }

  /** A one-element list keeps its element exactly when it is not the page. */
  lemma RemoveSingle(x: int, page: int)
    ensures Remove([x], page) == if x == page then [] else [x]
  {
    assert [x][..0] == [];
  }

  /** togglePage's new list: a selected page is removed, any other page is
      appended at the end. */
  function Toggle(selected: seq<int>, page: int): (r: seq<int>)
    ensures page in r <==> page !in selected
    ensures forall x :: x != page ==> (x in r <==> x in selected)
    ensures page !in selected ==> r == selected + [page]
    ensures page in selected ==> r == Remove(selected, page)
    ensures NoDup(selected) ==> NoDup(r)
  {
    if page in selected then Remove(selected, page) else selected + [page]
  }

  /** `Array.from({length: end - start + 1}, (_, i) => start + i)`; a negative
      length gives the empty list. */
  function Range(start: int, end: int): (r: seq<int>)
    ensures |r| == if end < start then 0 else end - start + 1
    ensures forall i :: 0 <= i < |r| ==> r[i] == start + i
    ensures forall x :: x in r <==> start <= x <= end
  {
    var n := if end < start then 0 else end - start + 1;
    var r := seq(n, i requires 0 <= i < n => start + i);
    forall x | start <= x <= end ensures x in r {
      assert r[x - start] == x;
    }
    r
  }

  /** `[...new Set(xs)]`: the first occurrence of each value, in order of first
      appearance. */
  function Dedup(xs: seq<int>): (r: seq<int>)
    ensures NoDup(r)
    ensures forall x :: x in r <==> x in xs
    ensures |r| <= |xs|
  {
    if xs == [] then []
    else
      var n := |xs| - 1;
      var d := Dedup(xs[..n]);
      assert forall x :: x in xs <==> x in xs[..n] || x == xs[n];
      if xs[n] in d then d else d + [xs[n]]
  }

  /** Deduplicating a longer list never reorders what the shorter prefix gave. */
  lemma {:induction false} DedupPrefix(xs: seq<int>, k: nat)
    requires k <= |xs|
    ensures |Dedup(xs[..k])| <= |Dedup(xs)|
    ensures Dedup(xs[..k]) == Dedup(xs)[..|Dedup(xs[..k])|]
    decreases |xs|
  {
    if k < |xs| {
      var n := |xs| - 1;
      assert xs[..n][..k] == xs[..k];
      DedupPrefix(xs[..n], k);
    } else {
      assert xs[..k] == xs;
    }
  }

  /** A list without duplicates is its own deduplication. */
  lemma {:induction false} DedupNoDup(xs: seq<int>)
    requires NoDup(xs)
    ensures Dedup(xs) == xs
  {
    if xs != [] {
      var n := |xs| - 1;
      DedupNoDup(xs[..n]);
      assert xs[n] !in xs[..n];
      assert xs[..n] + [xs[n]] == xs;
    }
  }

  /** selectRange's new list. */
  function SelectRange(selected: seq<int>, start: int, end: int): (r: seq<int>) {
    Dedup(selected + Range(start, end))
  }

  /** selectRange keeps every page already selected, in its old order and ahead of
      the new pages, adds every page of [start, end], and never holds a page twice. */
  lemma SelectRangeSpec(selected: seq<int>, start: int, end: int)
    requires NoDup(selected)
    ensures var r := SelectRange(selected, start, end);
      && NoDup(r)
      && (forall x :: x in r <==> x in selected || start <= x <= end)
      && |selected| <= |r|
      && r[..|selected|] == selected
      && (end < start ==> r == selected)
  {
    var xs := selected + Range(start, end);
    assert xs[..|selected|] == selected;
    DedupPrefix(xs, |selected|);
    DedupNoDup(selected);
    if end < start {
      assert xs == selected;
    }
  }

  /** "Select 1-5" is not limited by the page count: on a shorter document it still
      selects pages 4 and 5. */
  function SelectFirstFive(selected: seq<int>): (r: seq<int>) {
    SelectRange(selected, 1, 5)
  }

  /** "Select Next 3" stops at the last page. */
  function SelectNextThree(selected: seq<int>, currentPage: int, totalPages: int): (r: seq<int>) {
    SelectRange(selected, currentPage, if totalPages < currentPage + 2 then totalPages else currentPage + 2)
  }

  lemma SelectButtonsBounds(selected: seq<int>, currentPage: int, totalPages: int)
    requires NoDup(selected)
    ensures forall x :: x in SelectNextThree(selected, currentPage, totalPages) && x !in selected ==>
      currentPage <= x <= totalPages && x <= currentPage + 2
    ensures forall x :: 1 <= x <= 5 ==> x in SelectFirstFive(selected)
  {
    SelectRangeSpec(selected, currentPage, if totalPages < currentPage + 2 then totalPages else currentPage + 2);
    SelectRangeSpec(selected, 1, 5);
  }

  // ---------------------------------------------------------------------------
  // Page navigation

  /** The previous-page button: `Math.max(1, currentPage - 1)`. */
  function PrevPage(currentPage: int): (r: int)
    ensures r >= 1
    ensures currentPage > 1 ==> r == currentPage - 1
    ensures currentPage <= 1 ==> r == 1
  {
    if currentPage - 1 > 1 then currentPage - 1 else 1
  }

  /** The next-page button: `Math.min(totalPages, currentPage + 1)`. */
  function NextPage(currentPage: int, totalPages: int): (r: int)
    ensures r <= totalPages
    ensures currentPage < totalPages ==> r == currentPage + 1
    ensures currentPage >= totalPages ==> r == totalPages
  {
    if totalPages < currentPage + 1 then totalPages else currentPage + 1
  }

  lemma NavigationStaysInDocument(currentPage: int, totalPages: int)
    requires 1 <= currentPage <= totalPages
    ensures 1 <= PrevPage(currentPage) <= totalPages
    ensures 1 <= NextPage(currentPage, totalPages) <= totalPages
  {
  }

  // ---------------------------------------------------------------------------
  // The component

  class PageSelector {
    const totalPages: int
    var selectedPages: array<int>
    var currentPage: int
    /** Every list passed to `onPagesSelected`, oldest first. */
    var reported: seq<seq<int>>

    ghost predicate Valid()
      reads this, selectedPages
    {
      && NoDup(selectedPages[..])
      && (totalPages >= 1 ==> 1 <= currentPage <= totalPages)
    }

    constructor (totalPages: int)
      ensures Valid()
      ensures this.totalPages == totalPages
      ensures selectedPages[..] == [] && currentPage == 1 && reported == []
    {
      this.totalPages := totalPages;
      selectedPages := new int[0];
      currentPage := 1;
      reported := [];
    }

    /** Replaces the list by a freshly built array, as the state setter does, and
        reports it. */
    method SetSelected(s: seq<int>)
      modifies this
      ensures fresh(selectedPages) && selectedPages[..] == s
      ensures reported == old(reported) + [s]
      ensures currentPage == old(currentPage)
    {
      selectedPages := new int[|s|](i requires 0 <= i < |s| => s[i]);
      reported := reported + [s];
    }

    method TogglePage(page: int)
      requires Valid()
      modifies this
      ensures Valid() && fresh(selectedPages)
      ensures selectedPages[..] == Toggle(old(selectedPages[..]), page)
      ensures reported == old(reported) + [selectedPages[..]]
      ensures currentPage == old(currentPage)
    {
      SetSelected(Toggle(selectedPages[..], page));
    }

    method SelectPageRange(start: int, end: int)
      requires Valid()
      modifies this
      ensures Valid() && fresh(selectedPages)
      ensures selectedPages[..] == SelectRange(old(selectedPages[..]), start, end)
      ensures reported == old(reported) + [selectedPages[..]]
      ensures currentPage == old(currentPage)
    {
      SetSelected(SelectRange(selectedPages[..], start, end));
    }

    method PreviousPage()
      requires Valid()
      modifies this`currentPage
      ensures Valid() && currentPage == PrevPage(old(currentPage))
    {
      currentPage := if currentPage - 1 > 1 then currentPage - 1 else 1;
    }

    method NextPageClicked()
      requires Valid()
      modifies this`currentPage
      ensures Valid() && currentPage == NextPage(old(currentPage), totalPages)
    {
      currentPage := if totalPages < currentPage + 1 then totalPages else currentPage + 1;
    }

    /** `selectedPages.sort((a, b) => a - b)` while the summary is drawn: the very
        array held as state is reordered ascending. */
    method SortForDisplay()
      requires Valid()
      modifies selectedPages
      ensures Valid()
      ensures Sorted(selectedPages[..])
      ensures multiset(selectedPages[..]) == old(multiset(selectedPages[..]))
    {
      var a := selectedPages;
      var i := 0;
      while i < a.Length
        invariant 0 <= i <= a.Length
        invariant Sorted(a[..i])
        invariant NoDup(a[..])
        invariant multiset(a[..]) == old(multiset(a[..]))
      {
        InsertIntoSorted(a, i);
        i := i + 1;
      }
    }
  }

  /** One step of the sort: moves a[i] left past every larger element, so that
      a[..i+1] is sorted when a[..i] was. */
  method InsertIntoSorted(a: array<int>, i: int)
    requires 0 <= i < a.Length && Sorted(a[..i])
    modifies a
    ensures Sorted(a[..i + 1])
    ensures multiset(a[..]) == old(multiset(a[..]))
    ensures NoDup(old(a[..])) ==> NoDup(a[..])
  {
    var j := i;
    while j > 0 && a[j - 1] > a[j]
      invariant 0 <= j <= i
      invariant forall k, l :: 0 <= k < l <= i && k != j && l != j ==> a[k] <= a[l]
      invariant forall l :: j < l <= i ==> a[j] <= a[l]
      invariant NoDup(old(a[..])) ==> NoDup(a[..])
      invariant multiset(a[..]) == old(multiset(a[..]))
    {
      Swap(a, j - 1, j);
      j := j - 1;
    }
  }

  method Swap(a: array<int>, i: int, j: int)
    requires 0 <= i < j < a.Length
    modifies a
    ensures a[i] == old(a[j]) && a[j] == old(a[i])
    ensures forall k :: 0 <= k < a.Length && k != i && k != j ==> a[k] == old(a[k])
    ensures multiset(a[..]) == old(multiset(a[..]))
    ensures NoDup(old(a[..])) ==> NoDup(a[..])
  {
    a[i], a[j] := a[j], a[i];
  }
}
