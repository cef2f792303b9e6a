/** `src/components/MostPopular.tsx`: 16 products per page, the page numbers, the
    five-page window with its ellipses and the Previous/Next buttons. */
module MostPopular {
  import opened Wrappers
  import Server

  const ProductsPerPage: nat := 16
  const MaxPagesToShow: nat := 5

  /** `Math.ceil(n / productsPerPage)`. */
  function PageCount(n: nat): (count: nat)
    ensures count * ProductsPerPage >= n
    ensures count > 0 ==> (count - 1) * ProductsPerPage < n
    ensures count == 0 <==> n == 0
  {
    (n + ProductsPerPage - 1) / ProductsPerPage
  }

  /** The `pageNumbers` loop: `1..count`. */
  method PageNumbers(n: nat) returns (pages: seq<int>)
    ensures |pages| == PageCount(n)
    ensures forall i :: 0 <= i < |pages| ==> pages[i] == i + 1
  {
    pages := [];
    var i := 1;
    var count := PageCount(n);
    while i <= count
      invariant 1 <= i <= count + 1
      invariant |pages| == i - 1
      invariant forall k :: 0 <= k < |pages| ==> pages[k] == k + 1
    {
      pages := pages + [i];
      i := i + 1;
    }
  }

  /** `Array.prototype.slice` index normalisation: negative counts from the end. */
  function SliceIndex(x: int, len: nat): (k: nat)
    ensures k <= len
  {
    if x < 0 then (if len + x < 0 then 0 else len + x) else if x > len then len else x
  }

  /** `s.slice(start, end)`. */
  function Slice<T>(s: seq<T>, start: int, end: int): seq<T> {
    var a := SliceIndex(start, |s|);
    var b := SliceIndex(end, |s|);
    if a < b then s[a..b] else []
  }

  /** `currentProducts` for page `page`. */
  function PageSlice<T>(products: seq<T>, page: int): (r: seq<T>)
    ensures |r| <= ProductsPerPage
    ensures page >= 1 ==> r == products[Min((page - 1) * ProductsPerPage, |products|)..Min(page * ProductsPerPage, |products|)]
  {
    var last := page * ProductsPerPage;
    Slice(products, last - ProductsPerPage, last)
  }

  function Min(a: int, b: int): int {
    if a <= b then a else b
  }

  /** Pages `1..k` laid end to end. */
  function Pages<T>(products: seq<T>, k: nat): seq<T> {
    if k == 0 then [] else Pages(products, k - 1) + PageSlice(products, k)
  }

  /** The first `k` pages are the first `16k` products, in order. */
  lemma {:induction false} PagesArePrefix<T>(products: seq<T>, k: nat)
    ensures Pages(products, k) == products[..Min(k * ProductsPerPage, |products|)]
  {
    if k > 0 {
      PagesArePrefix(products, k - 1);
      var a := Min((k - 1) * ProductsPerPage, |products|);
      var b := Min(k * ProductsPerPage, |products|);
      assert products[..a] + products[a..b] == products[..b];
    }
  }

  /** The pages partition the list: all of them together are the whole list. */
  lemma PagesPartition<T>(products: seq<T>)
    ensures Pages(products, PageCount(|products|)) == products
  {
    PagesArePrefix(products, PageCount(|products|));
    assert products[..|products|] == products;
  }

  /** The window `[startPage, endPage]` of page buttons (102-117). */
  function Window(count: nat, current: int): (w: (int, int))
    ensures count <= MaxPagesToShow ==> w == (1, count)
    ensures count > MaxPagesToShow ==> 1 <= w.0 && w.1 == w.0 + MaxPagesToShow - 1 && w.1 <= count
  {
    if count <= MaxPagesToShow then (1, count)
    else
      var middle := 3;   // Math.ceil(maxPagesToShow / 2)
      if current <= middle then (1, MaxPagesToShow)
      else if current + middle - 1 >= count then (count - MaxPagesToShow + 1, count)
      else (current - middle + 1, current + middle - 1)
  }

  /** At most five pages: all of them, or exactly five consecutive pages inside
      `1..count` that contain the current page when it is in range, centred on it away
      from the ends. */
  lemma WindowShape(count: nat, current: int)
    ensures var (s, e) := Window(count, current);
      && (count <= 5 ==> s == 1 && e == count)
      && (count > 5 ==> 1 <= s && e <= count && e - s == 4)
      && (1 <= current <= count ==> s <= current <= e)
      && (count > 5 && 3 < current < count - 2 ==> s == current - 2 && e == current + 2)
  {
  }

  datatype PageItem = Previous | Ellipsis | PageButton(page: int, active: bool) | Next

  /** The buttons for `start..end`, the current one marked. */
  function Buttons(start: int, end: int, current: int): (r: seq<PageItem>)
    ensures |r| == if end < start then 0 else end - start + 1
    ensures forall k :: 0 <= k < |r| ==> r[k] == PageButton(start + k, start + k == current)
    decreases end - start
  {
    if end < start then [] else Buttons(start, end - 1, current) + [PageButton(end, end == current)]
  }

  /** The items around the buttons: Previous, leading ellipsis | trailing ellipsis, Next. */
  function Before(count: nat, current: int): seq<PageItem> {
    (if current > 1 then [Previous] else []) + (if Window(count, current).0 > 1 then [Ellipsis] else [])
  }

  function After(count: nat, current: int): seq<PageItem> {
    (if Window(count, current).1 < count then [Ellipsis] else []) + (if current < count then [Next] else [])
  }

  /** The `for (let i = startPage; i <= endPage; i++)` loop that pushes the buttons. */
  method PushButtons(pages: seq<PageItem>, startPage: int, endPage: int, current: int)
    returns (r: seq<PageItem>)
    ensures r == pages + Buttons(startPage, endPage, current)
  {
    r := pages;
    var i := startPage;
    while i <= endPage
      invariant startPage <= i <= (if endPage < startPage then startPage else endPage + 1)
      invariant r == pages + Buttons(startPage, i - 1, current)
    {
      r := r + [PageButton(i, i == current)];
      i := i + 1;
    }
  }

  /** `renderPagination`: Previous, leading ellipsis, the window's buttons, trailing
      ellipsis, Next. */
  method RenderPagination(count: nat, current: int) returns (items: seq<PageItem>)
    ensures items == Before(count, current)
      + Buttons(Window(count, current).0, Window(count, current).1, current)
      + After(count, current)
  {
    var w := Window(count, current);
    ghost var lead: seq<PageItem> := if w.0 > 1 then [Ellipsis] else [];
    ghost var trail: seq<PageItem> := if w.1 < count then [Ellipsis] else [];
    ghost var b := Buttons(w.0, w.1, current);
    var pages: seq<PageItem> := [];
    if w.0 > 1 {
      pages := pages + [Ellipsis];
    }
    assert pages == lead;
    pages := PushButtons(pages, w.0, w.1, current);
    if w.1 < count {
      pages := pages + [Ellipsis];
    }
    assert pages == lead + b + trail;
    var previous: seq<PageItem> := if current > 1 then [Previous] else [];
    var next: seq<PageItem> := if current < count then [Next] else [];
    items := previous + pages + next;
    Regroup(previous, lead, b, trail, next);
    assert Before(count, current) == previous + lead;
    assert After(count, current) == trail + next;
  }

  lemma Regroup<T>(p: seq<T>, l: seq<T>, b: seq<T>, t: seq<T>, n: seq<T>)
    ensures p + (l + b + t) + n == (p + l) + b + (t + n)
  {
  }

  /** For an in-range current page the current page's button is present and is the
      only one marked. */
  lemma PaginationMarksCurrent(count: nat, current: int)
    requires 1 <= current <= count
    ensures var b := Buttons(Window(count, current).0, Window(count, current).1, current);
      && PageButton(current, true) in b
      && (forall i :: 0 <= i < |b| && b[i].active ==> b[i].page == current)
  {
    WindowShape(count, current);
    var s := Window(count, current).0;
    var e := Window(count, current).1;
    assert Buttons(s, e, current)[current - s] == PageButton(current, true);
  }

  /** Previous shows iff there is an earlier page, Next iff there is a later one, and
      an ellipsis iff some page has no button, which is exactly when there are more
      than five pages. */
  lemma PaginationControls(count: nat, current: int)
    ensures var items := Before(count, current)
      + Buttons(Window(count, current).0, Window(count, current).1, current)
      + After(count, current);
      && (Previous in items <==> current > 1)
      && (Next in items <==> current < count)
      && (Ellipsis in items <==> count > MaxPagesToShow)
  {
    WindowShape(count, current);
    var b := Buttons(Window(count, current).0, Window(count, current).1, current);
    assert Previous !in b && Next !in b && Ellipsis !in b;
  }

  /** The pagination bar is rendered only above 16 products, that is with 2 or more pages. */
  predicate ShowPagination(n: nat) {
    n > ProductsPerPage
  }

  lemma ShowPaginationIffSeveralPages(n: nat)
    ensures ShowPagination(n) <==> PageCount(n) >= 2
  {
  }

  /** The `category` parameter `fetchProducts` sends: none for "All". */
  function CategoryParam(category: string): (r: Option<string>)
    ensures r.None? <==> category == "All"
  {
    if category == "All" then None else Some(category)
  }

  /** Omitting "All" loses nothing: the server treats a missing category and "All" alike. */
  lemma AllNeedsNoParam(products: seq<Server.Product>)
    ensures Server.PopularProducts(products, "All") == Server.PopularProducts(products, "")
  {
  }

  /** The list on display and the page shown. */
  class MostPopularState {
    var products: seq<Server.Product>
    var selectedCategory: string
    var currentPage: int

    constructor ()
      ensures products == [] && selectedCategory == "All" && currentPage == 1
    {
      products := [];
      selectedCategory := "All";
      currentPage := 1;
    }

    /** The delayed success handler of `fetchProducts`: a new list, back to page 1. */
    method ProductsFetched(data: seq<Server.Product>)
      modifies this`products, this`currentPage
      ensures products == data && currentPage == 1
    {
      products := data;
      currentPage := 1;
    }

    /** `handleCategoryClick`: select the category; the fetch follows. */
    method CategoryClick(category: string) returns (param: Option<string>)
      modifies this`selectedCategory
      ensures selectedCategory == category && param == CategoryParam(category)
    {
      selectedCategory := category;
      param := CategoryParam(category);
    }

    /** `paginate`. */
    method Paginate(page: int)
      modifies this`currentPage
      ensures currentPage == page
    {
      currentPage := page;
    }
  }
}
