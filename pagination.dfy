// Client-side pagination shared by the list pages: `Math.ceil(n / perPage)` pages, and
// page p shows `items.slice((p - 1) * perPage, (p - 1) * perPage + perPage)`.
module Pagination {
  import opened Text

  /** Math.ceil(n / perPage). */
  function PageCount(n: nat, perPage: nat): (pages: nat)
    requires perPage > 0
    ensures pages == 0 <==> n == 0
    ensures pages * perPage >= n
    ensures pages > 0 ==> (pages - 1) * perPage < n
  {
    (n + perPage - 1) / perPage
  }

  function PageStart(page: int, perPage: nat): int
  {
    (page - 1) * perPage
  }

  /** The items shown on page `page`. */
  function Page<T>(items: seq<T>, page: int, perPage: nat): seq<T>
  {
    JsSlice(items, PageStart(page, perPage), PageStart(page, perPage) + perPage)
  }

  function Min(a: int, b: int): int { if a <= b then a else b }

  /** A page within range shows items [(p-1)*perPage, min(p*perPage, n)): never empty and never more than perPage. */
  lemma PageContents<T>(items: seq<T>, page: int, perPage: nat)
    requires perPage > 0 && 1 <= page <= PageCount(|items|, perPage)
    ensures (page - 1) * perPage < |items|
    ensures Page(items, page, perPage) == items[(page - 1) * perPage .. Min(page * perPage, |items|)]
    ensures 0 < |Page(items, page, perPage)| <= perPage
  {
    var n := |items|;
    var pages := PageCount(n, perPage);
    var start := PageStart(page, perPage);
    MulMono(page - 1, pages - 1, perPage);
    assert start < n;
    MulSucc(page - 1, perPage);
    assert start + perPage == page * perPage;
    var end := Min(page * perPage, n);
    assert ClampIndex(start, n) == start;
    assert ClampIndex(start + perPage, n) == end;
    assert Page(items, page, perPage) == items[start..end];
  }

  lemma MulSucc(a: int, c: nat)
    ensures (a + 1) * c == a * c + c
  {
  }

  lemma MulMono(a: nat, b: nat, c: nat)
    requires a <= b
    ensures a * c <= b * c
  {
  }

  /** Pages past the last one, and page 0, are empty. */
  lemma {:induction false} PageOutOfRange<T>(items: seq<T>, page: int, perPage: nat)
    requires perPage > 0
    requires page == 0 || page > PageCount(|items|, perPage)
    ensures Page(items, page, perPage) == []
  {
    if page > 0 {
      var pages := PageCount(|items|, perPage);
      MulMono(pages, page - 1, perPage);
    }
  }

  /** Pages 1..k laid end to end. */
  function FirstPages<T>(items: seq<T>, k: nat, perPage: nat): seq<T>
  {
    if k == 0 then [] else FirstPages(items, k - 1, perPage) + Page(items, k, perPage)
  }

  /** The pages together are the whole list, in order, each item exactly once. */
  lemma {:induction false} PagesCoverList<T>(items: seq<T>, perPage: nat)
    requires perPage > 0
    ensures FirstPages(items, PageCount(|items|, perPage), perPage) == items
  {
    var pages := PageCount(|items|, perPage);
    FirstPagesPrefix(items, pages, perPage);
    assert Min(pages * perPage, |items|) == |items|;
  }

  lemma {:induction false} FirstPagesPrefix<T>(items: seq<T>, k: nat, perPage: nat)
    requires perPage > 0 && k <= PageCount(|items|, perPage)
    ensures FirstPages(items, k, perPage) == items[..Min(k * perPage, |items|)]
  {
    if k > 0 {
      FirstPagesPrefix(items, k - 1, perPage);
      PageContents(items, k, perPage);
      PageBounds(k, perPage, |items|);
      JoinPage(FirstPages(items, k - 1, perPage), Page(items, k, perPage), items,
               (k - 1) * perPage, Min(k * perPage, |items|));
      assert FirstPages(items, k, perPage) == FirstPages(items, k - 1, perPage) + Page(items, k, perPage);
    }
  }

  /** Page k starts inside the list and ends after it starts. */
  lemma PageBounds(k: nat, perPage: nat, n: nat)
    requires perPage > 0 && 1 <= k && (k - 1) * perPage < n
    ensures Min((k - 1) * perPage, n) == (k - 1) * perPage
    ensures 0 <= (k - 1) * perPage <= Min(k * perPage, n) <= n
  {
    MulSucc(k - 1, perPage);
  }

  lemma JoinPage<T>(before: seq<T>, page: seq<T>, items: seq<T>, i: int, j: int)
    requires 0 <= i <= j <= |items| && before == items[..i] && page == items[i..j]
    ensures before + page == items[..j]
  {
    assert items[..i] + items[i..j] == items[..j];
  }


  /** Whether the Previous and Next buttons are disabled. */
  datatype Nav = Nav(previousDisabled: bool, nextDisabled: bool)

  function Navigation(page: int, pages: nat, busy: bool): Nav
  {
    Nav(page == 1 || busy, page == pages || busy)
  }

  /** From a page in range, every enabled button leads to a page in range. */
  lemma NavigationStaysInRange(page: int, pages: nat, busy: bool)
    requires 1 <= page <= pages
    ensures !Navigation(page, pages, busy).previousDisabled ==> 1 <= page - 1 <= pages
    ensures !Navigation(page, pages, busy).nextDisabled ==> 1 <= page + 1 <= pages
  {
  }
}
