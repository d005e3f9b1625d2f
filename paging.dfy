/** Client-side pagination of an album's photos, identical in
    frontend/src/pages/AlbumDetailPage.tsx and
    frontend/src/pages/PublicAlbumPage.tsx: twelve photos per page,
    `Math.ceil(count / 12)` pages, page p showing
    `photos.slice((p - 1) * 12, (p - 1) * 12 + 12)`, and the pager rendered
    only when there are more than twelve photos. */
module Paging {
  import Pagination

  const ItemsPerPage: nat := 12

  /** `Math.ceil(count / ItemsPerPage)`. */
  function TotalPages(count: nat): (t: nat)
    ensures t * ItemsPerPage >= count
    ensures count > 0 ==> (t - 1) * ItemsPerPage < count
    ensures count == 0 ==> t == 0
  {
    (count + ItemsPerPage - 1) / ItemsPerPage
  }

  /** A slice index as `Array.prototype.slice` reads it: a negative one
      counts from the end, and the result is clamped to 0..len. */
  function SliceIndex(i: int, len: nat): (k: nat)
    ensures k <= len
    ensures 0 <= i <= len ==> k == i
  {
    if i < 0 then (if len + i < 0 then 0 else len + i)
    else if i > len then len
    else i
  }

  /** `xs.slice(start, end)`. */
  function JsSlice<T>(xs: seq<T>, start: int, end: int): seq<T> {
    var s, e := SliceIndex(start, |xs|), SliceIndex(end, |xs|);
    if s < e then xs[s..e] else []
  }

  /** The photos shown on page `page`. */
  function PageOf<T>(xs: seq<T>, page: int): seq<T> {
    var start := (page - 1) * ItemsPerPage;
    JsSlice(xs, start, start + ItemsPerPage)
  }

  /** The pager is rendered only for more than one page of photos. */
  predicate PagerShown(count: nat) {
    count > ItemsPerPage
  }

  function Min(a: int, b: int): int { if a <= b then a else b }

  /** For a page from 1 on, the page is the contiguous run of at most twelve
      photos starting at index (page - 1) * 12, cut at the end of the list. */
  lemma PageOfIsRun<T>(xs: seq<T>, page: int)
    requires page >= 1
    ensures var start := Min((page - 1) * ItemsPerPage, |xs|);
      PageOf(xs, page) == xs[start..Min(start + ItemsPerPage, |xs|)]
    ensures |PageOf(xs, page)| <= ItemsPerPage
    ensures page > TotalPages(|xs|) ==> PageOf(xs, page) == []
  {
  }

  /** The first n pages, in order. */
  function Pages<T>(xs: seq<T>, n: nat): seq<seq<T>> {
    if n == 0 then [] else Pages(xs, n - 1) + [PageOf(xs, n)]
  }

  function Flatten<T>(ss: seq<seq<T>>): seq<T> {
    if ss == [] then [] else Flatten(ss[..|ss| - 1]) + ss[|ss| - 1]
  }

  /** The first n pages laid end to end are exactly the first 12n photos:
      pages do not overlap and leave no gap. */
  lemma {:induction false} PagesPrefix<T>(xs: seq<T>, n: nat)
    ensures Flatten(Pages(xs, n)) == xs[..Min(n * ItemsPerPage, |xs|)]
  {
    if n > 0 {
      PagesPrefix(xs, n - 1);
      var a := Min((n - 1) * ItemsPerPage, |xs|);
      var b := Min(n * ItemsPerPage, |xs|);
      assert n * ItemsPerPage == (n - 1) * ItemsPerPage + ItemsPerPage;
      assert Min(a + ItemsPerPage, |xs|) == b;
      PageOfIsRun(xs, n);
      var ps := Pages(xs, n);
      assert ps == Pages(xs, n - 1) + [PageOf(xs, n)];
      assert ps[..|ps| - 1] == Pages(xs, n - 1);
      assert Flatten(ps) == Flatten(Pages(xs, n - 1)) + PageOf(xs, n);
      assert xs[..a] + xs[a..b] == xs[..b];
    }
  }

  /** All `TotalPages` pages together show every photo once, in order; every
      page but the last is full. */
  lemma PagesCoverList<T>(xs: seq<T>)
    ensures Flatten(Pages(xs, TotalPages(|xs|))) == xs
    ensures forall p :: 1 <= p < TotalPages(|xs|) ==> |PageOf(xs, p)| == ItemsPerPage
  {
    PagesPrefix(xs, TotalPages(|xs|));
    assert xs[..|xs|] == xs;
    forall p | 1 <= p < TotalPages(|xs|) ensures |PageOf(xs, p)| == ItemsPerPage {
      PageOfIsRun(xs, p);
    }
  }

  /** The pager condition of the pages agrees with the component's own
      `totalPages <= 1` early return: the pager is rendered exactly when it
      would draw something. */
  lemma PagerShownIffSeveralPages(count: nat)
    ensures PagerShown(count) <==> TotalPages(count) > 1
  {
  }

  /** The "Mostrando a..b" range the pager prints for a page in range names
      exactly the photos on that page, counted from 1. */
  lemma ShownRangeMatchesPage<T>(xs: seq<T>, page: int)
    requires 1 <= page <= TotalPages(|xs|)
    ensures var (from, to) := Pagination.ShownRange(page, ItemsPerPage, |xs|);
      && from == (page - 1) * ItemsPerPage + 1
      && to - from + 1 == |PageOf(xs, page)|
      && (|PageOf(xs, page)| > 0 ==> PageOf(xs, page)[0] == xs[from - 1] && PageOf(xs, page)[to - from] == xs[to - 1])
  {
    PageOfIsRun(xs, page);
  }
}
