/** The pager of frontend/src/components/ui/Pagination.tsx: the list of
    page buttons and ellipses, the "Mostrando a..b de n" range and the
    enablement of the previous and next buttons. */
module Pagination {
  import opened Common

  /** One entry of the `pages` array: a page number or the string "...". */
  datatype Item = Page(n: int) | Ellipsis

  function Max(a: int, b: int): int { if a >= b then a else b }
  function Min(a: int, b: int): int { if a <= b then a else b }

  /** The consecutive page buttons `lo`, `lo + 1`, ..., `hi` (none when `hi < lo`). */
  function Window(lo: int, hi: int): (w: seq<Item>)
    decreases hi - lo + 1
  {
    if hi < lo then [] else Window(lo, hi - 1) + [Page(hi)]
  }

  /** The list the component renders when there are at least two pages:
      page 1, a leading ellipsis when the current page is past 3, the window
      of neighbours of the current page, a trailing ellipsis when the current
      page is more than two before the end, and the last page. */
  function Layout(current: int, total: int): seq<Item> {
    [Page(1)]
    + (if current > 3 then [Ellipsis] else [])
    + Window(Max(2, current - 1), Min(total - 1, current + 1))
    + (if current < total - 2 then [Ellipsis] else [])
    + [Page(total)]
  }

  /** The page numbers of a list, in order, ellipses dropped. */
  function Numbers(items: seq<Item>): seq<int> {
    if items == [] then []
    else (if items[0].Page? then [items[0].n] else []) + Numbers(items[1..])
  }

  predicate StrictlyIncreasing(ns: seq<int>) {
    forall i, j :: 0 <= i < j < |ns| ==> ns[i] < ns[j]
  }

  /** The `for` loop of the component: push every number from `lo` to `hi`
      that `pages` does not hold yet; all of them are new, since every page
      already pushed is below `lo`. */
  method PushWindow(pages: seq<Item>, lo: int, hi: int, total: int) returns (out: seq<Item>)
    requires forall k :: 0 <= k < |pages| && pages[k].Page? ==> pages[k].n < lo && pages[k].n < total
    requires hi < total
    ensures out == pages + Window(lo, hi)
    ensures forall k :: 0 <= k < |out| && out[k].Page? ==> out[k].n < total
  {
    out := pages;
    var i := lo;
    while i <= hi
      invariant lo <= i <= Max(lo, hi + 1)
      invariant out == pages + Window(lo, i - 1)
      invariant forall k :: 0 <= k < |out| && out[k].Page? ==> out[k].n < i && out[k].n < total
    {
      if Page(i) !in out {
        out := out + [Page(i)];
      } else {
        assert false;
      }
      i := i + 1;
    }
    assert Window(lo, i - 1) == Window(lo, hi);
  }

  /** Builds `pages` the way the component does: push 1, maybe "...", then
      every window number not already present, maybe "...", then the last
      page if it is not present. `None` is the component rendering nothing. */
  method PageItems(current: int, total: int) returns (r: Option<seq<Item>>)
    ensures r.None? <==> total <= 1
    ensures r.Some? ==> r.value == Layout(current, total)
  {
    if total <= 1 {
      return None;
    }
    var pages: seq<Item> := [];
    pages := pages + [Page(1)];
    if current > 3 {
      pages := pages + [Ellipsis];
    }
    var lo, hi := Max(2, current - 1), Min(total - 1, current + 1);
    pages := PushWindow(pages, lo, hi, total);
    ghost var body := pages;
    if current < total - 2 {
      pages := pages + [Ellipsis];
    }
    assert Page(total) !in pages by {
      forall k | 0 <= k < |pages| ensures pages[k] != Page(total) {
        if k < |body| { assert pages[k] == body[k]; }
      }
    }
    if total > 1 && Page(total) !in pages {
      pages := pages + [Page(total)];
    }
    return Some(pages);
  }

  lemma {:induction false} NumbersConcat(a: seq<Item>, b: seq<Item>)
    ensures Numbers(a + b) == Numbers(a) + Numbers(b)
  {
    if a != [] {
      var h := if a[0].Page? then [a[0].n] else [];
      assert (a + b)[0] == a[0];
      assert (a + b)[1..] == a[1..] + b;
      NumbersConcat(a[1..], b);
      assert Numbers(a + b) == h + Numbers(a[1..] + b);
      assert Numbers(a) == h + Numbers(a[1..]);
    } else {
      assert a + b == b;
    }
  }

  lemma {:induction false} WindowNumbers(lo: int, hi: int)
    ensures |Numbers(Window(lo, hi))| == (if hi < lo then 0 else hi - lo + 1)
    ensures forall k :: 0 <= k < |Numbers(Window(lo, hi))| ==> Numbers(Window(lo, hi))[k] == lo + k
    decreases hi - lo + 1
  {
    if hi >= lo {
      WindowNumbers(lo, hi - 1);
      NumbersConcat(Window(lo, hi - 1), [Page(hi)]);
      assert Numbers([Page(hi)]) == [hi] by {
        assert [Page(hi)][1..] == [];
      }
    }
  }

  lemma NumbersOfLayout(current: int, total: int)
    ensures Numbers(Layout(current, total))
         == [1] + Numbers(Window(Max(2, current - 1), Min(total - 1, current + 1))) + [total]
  {
    var lead := if current > 3 then [Ellipsis] else [];
    var trail := if current < total - 2 then [Ellipsis] else [];
    var w := Window(Max(2, current - 1), Min(total - 1, current + 1));
    assert Numbers([Page(1)]) == [1] by { assert [Page(1)][1..] == []; }
    assert Numbers([Page(total)]) == [total] by { assert [Page(total)][1..] == []; }
    assert Numbers(lead) == [] by { if lead != [] { assert lead[1..] == []; } }
    assert Numbers(trail) == [] by { if trail != [] { assert trail[1..] == []; } }
    NumbersConcat([Page(1)], lead);
    NumbersConcat([Page(1)] + lead, w);
    NumbersConcat([Page(1)] + lead + w, trail);
    NumbersConcat([Page(1)] + lead + w + trail, [Page(total)]);
  }

  /** With at least two pages and the current page in range, the page
      numbers shown start at 1, end at the last page, increase strictly
      (so no number, the last one included, appears twice), stay within
      1..total, and include the current page. */
  lemma LayoutNumbers(current: int, total: int)
    requires 2 <= total && 1 <= current <= total
    ensures var ns := Numbers(Layout(current, total));
      && |ns| >= 2 && ns[0] == 1 && ns[|ns| - 1] == total
      && StrictlyIncreasing(ns)
      && (forall k :: 0 <= k < |ns| ==> 1 <= ns[k] <= total)
      && current in ns
  {
    NumbersOfLayout(current, total);
    var lo, hi := Max(2, current - 1), Min(total - 1, current + 1);
    WindowNumbers(lo, hi);
    var ws := Numbers(Window(lo, hi));
    var ns := [1] + ws + [total];
    assert forall k :: 0 <= k < |ws| ==> 2 <= ws[k] <= total - 1;
    forall i, j | 0 <= i < j < |ns| ensures ns[i] < ns[j] {
      if i > 0 && j < |ns| - 1 {
        assert ns[i] == ws[i - 1] && ns[j] == ws[j - 1];
      }
    }
    if current == 1 {
      assert ns[0] == current;
    } else if current == total {
      assert ns[|ns| - 1] == current;
    } else {
      assert lo <= current <= hi;
      assert ws[current - lo] == current;
      assert ns[current - lo + 1] == current;
    }
  }

  /** The shape of the list around its ends, for a current page in range:
      page 1 first, an ellipsis right after it exactly when the current page
      is past 3, an ellipsis right before the last page exactly when the
      current page is more than two before it, and the last page last. */
  lemma LayoutEnds(current: int, total: int)
    requires 2 <= total && 1 <= current <= total
    ensures var l := Layout(current, total);
      && |l| >= 2 && l[0] == Page(1) && l[|l| - 1] == Page(total)
      && (l[1] == Ellipsis <==> current > 3)
      && (l[|l| - 2] == Ellipsis <==> current < total - 2)
      && Page(total) !in l[..|l| - 1]
  {
    var lo, hi := Max(2, current - 1), Min(total - 1, current + 1);
    var lead := if current > 3 then [Ellipsis] else [];
    var trail := if current < total - 2 then [Ellipsis] else [];
    var w := Window(lo, hi);
    var l := Layout(current, total);
    assert l == [Page(1)] + lead + w + trail + [Page(total)];
    WindowShape(lo, hi);
    if current <= 3 && total >= 3 {
      assert lo <= hi;
      assert l[1] == w[0];
    }
    if current >= total - 2 && current > 3 {
      assert lo <= hi;
      assert l[|l| - 2] == w[|w| - 1];
    }
    assert l[..|l| - 1] == [Page(1)] + lead + w + trail;
    assert Page(total) !in w by {
      forall k | 0 <= k < |w| ensures w[k] != Page(total) {
        assert w[k] == Page(lo + k);
      }
    }
  }

  lemma {:induction false} WindowShape(lo: int, hi: int)
    ensures |Window(lo, hi)| == (if hi < lo then 0 else hi - lo + 1)
    ensures forall k :: 0 <= k < |Window(lo, hi)| ==> Window(lo, hi)[k] == Page(lo + k)
    decreases hi - lo + 1
  {
    if hi >= lo {
      WindowShape(lo, hi - 1);
    }
  }

  /** The "Mostrando from a to de total itens" range (1-based, inclusive). */
  function ShownRange(current: int, perPage: int, totalItems: int): (int, int) {
    (Min((current - 1) * perPage + 1, totalItems), Min(current * perPage, totalItems))
  }

  /** The previous button is disabled on the first page. */
  predicate PrevDisabled(current: int) { current == 1 }

  /** The next button is disabled on the last page. */
  predicate NextDisabled(current: int, total: int) { current == total }

  /** Every control that can be clicked while on a page in range leads to a
      page in range: previous and next when enabled, and every page button. */
  lemma NavigationStaysInRange(current: int, total: int)
    requires 2 <= total && 1 <= current <= total
    ensures !PrevDisabled(current) ==> 1 <= current - 1 <= total
    ensures !NextDisabled(current, total) ==> 1 <= current + 1 <= total
    ensures forall p :: p in Numbers(Layout(current, total)) ==> 1 <= p <= total
  {
    LayoutNumbers(current, total);
  }
}
