/** The menu page: products formatted for display, filtered by category and
    name, counted per category, and shown five to a page with clamped
    previous/next buttons. */
module Menu {
  import opened Common
  import ImageHelper

  const ItemsPerPage := 5

  /** A product as the page keeps it: its image is always a loadable URL. */
  datatype MenuProduct = MenuProduct(id: int, name: string, price: int, categoryId: int,
                                     image: string, description: Option<string>, status: string)

  /** The product list as fetchData stores it: same products, same order,
      images resolved. */
  function FormatProducts(ps: seq<ImageHelper.Product>): (r: seq<MenuProduct>)
    ensures |r| == |ps|
    ensures forall k :: 0 <= k < |ps| ==>
      r[k].id == ps[k].id && r[k].name == ps[k].name && r[k].categoryId == ps[k].categoryId &&
      r[k].image == ImageHelper.GetImageUrl(ps[k].image) && ImageHelper.IsAbsolute(r[k].image)
    ensures forall k :: 0 <= k < |ps| ==>
      r[k].price == ps[k].price && r[k].description == ps[k].description && r[k].status == ps[k].status
  {
    seq(|ps|, k requires 0 <= k < |ps| =>
      MenuProduct(ps[k].id, ps[k].name, ps[k].price, ps[k].categoryId,
                  ImageHelper.GetImageUrl(ps[k].image), ps[k].description, ps[k].status))
  }

  // ---------------------------------------------------------------------------
  // Filtering and counting.

  predicate InCategory(p: MenuProduct, category: IdChoice) {
    category.All? || p.categoryId == category.id
  }

  /** A product is shown exactly when it is in the chosen category and its
      lower-cased name contains the lower-cased query; order is kept. */
  function FilteredProducts(products: seq<MenuProduct>, category: IdChoice, query: string): (r: seq<MenuProduct>)
    ensures IsSubsequence(r, products)
    ensures forall p :: p in r <==> p in products && InCategory(p, category) && Contains(Lower(p.name), Lower(query))
    ensures forall p :: multiset(r)[p] ==
                       (if InCategory(p, category) && Contains(Lower(p.name), Lower(query)) then multiset(products)[p] else 0)
  {
    FilterCounts(products, (p: MenuProduct) => InCategory(p, category) && Contains(Lower(p.name), Lower(query)));
    Filter(products, (p: MenuProduct) => InCategory(p, category) && Contains(Lower(p.name), Lower(query)))
  }

  /** getCategoryCount: all products for 'all', otherwise those of the category. */
  function CategoryCount(products: seq<MenuProduct>, category: IdChoice): (n: nat)
    ensures n <= |products|
    ensures category.All? ==> n == |products|
  {
    if category.All? then |products|
    else |Filter(products, (p: MenuProduct) => p.categoryId == category.id)|
  }

  lemma {:induction false} FilterSameKeep(products: seq<MenuProduct>, f: MenuProduct -> bool, g: MenuProduct -> bool)
    requires forall p :: p in products ==> f(p) == g(p)
    ensures Filter(products, f) == Filter(products, g)
  {
    if products != [] {
      assert products[0] in products;
      FilterSameKeep(products[1..], f, g);
    }
  }

  /** The count beside a category is the length of the list shown when that
      category is chosen and the search box is empty. */
  lemma CategoryCountIsListed(products: seq<MenuProduct>, category: IdChoice)
    ensures CategoryCount(products, category) == |FilteredProducts(products, category, "")|
  {
    forall p | p in products ensures Contains(Lower(p.name), Lower("")) {
      ContainsEmpty(Lower(p.name));
    }
    var shown := (p: MenuProduct) => InCategory(p, category) && Contains(Lower(p.name), Lower(""));
    if category.All? {
      FilterSameKeep(products, shown, (p: MenuProduct) => true);
      FilterKeepsEverything(products);
    } else {
      FilterSameKeep(products, shown, (p: MenuProduct) => p.categoryId == category.id);
    }
  }

  lemma {:induction false} FilterKeepsEverything(products: seq<MenuProduct>)
    ensures Filter(products, (p: MenuProduct) => true) == products
  {
    if products != [] {
      FilterKeepsEverything(products[1..]);
    }
  }

  // ---------------------------------------------------------------------------
  // Pagination.

  /** Math.ceil(n / 5): the fewest pages of five that hold n products. */
  function TotalPages(n: nat): (pages: nat)
    ensures pages * ItemsPerPage >= n
    ensures pages > 0 ==> (pages - 1) * ItemsPerPage < n
    ensures pages == 0 <==> n == 0
  {
    (n + ItemsPerPage - 1) / ItemsPerPage
  }

  function StartIndex(page: int): int {
    (page - 1) * ItemsPerPage
  }

  function EndIndex(page: int): int {
    StartIndex(page) + ItemsPerPage
  }

  function Min(a: int, b: int): int {
    if a < b then a else b
  }

  /** currentProducts: the page's slice of the filtered list; never more than
      five products, and for a page from 1 to the page count, the products at
      positions (page-1)*5 up to page*5 that exist. */
  function CurrentProducts(filtered: seq<MenuProduct>, page: int): (r: seq<MenuProduct>)
    ensures |r| <= ItemsPerPage
    ensures 1 <= page <= TotalPages(|filtered|) ==>
      r == filtered[StartIndex(page)..Min(EndIndex(page), |filtered|)] && r != []
  {
    JsSlice(filtered, StartIndex(page), EndIndex(page))
  }

  /** The pages from the first to `k`, one after the other. */
  function FirstPages(filtered: seq<MenuProduct>, k: nat): seq<MenuProduct> {
    if k == 0 then [] else FirstPages(filtered, k - 1) + CurrentProducts(filtered, k)
  }

  lemma {:induction false} FirstPagesPrefix(filtered: seq<MenuProduct>, k: nat)
    requires k <= TotalPages(|filtered|)
    ensures FirstPages(filtered, k) == filtered[..Min(k * ItemsPerPage, |filtered|)]
  {
    if k > 0 {
      FirstPagesPrefix(filtered, k - 1);
      var lo, hi := StartIndex(k), Min(EndIndex(k), |filtered|);
      PageBounds(|filtered|, k);
      assert Min((k - 1) * ItemsPerPage, |filtered|) == lo;
      assert Min(k * ItemsPerPage, |filtered|) == hi;
      assert CurrentProducts(filtered, k) == filtered[lo..hi];
      assert filtered[..lo] + filtered[lo..hi] == filtered[..hi];
    }
  }

  /** Page `k` of a list of `n` starts inside the list. */
  lemma PageBounds(n: nat, k: nat)
    requires 1 <= k <= TotalPages(n)
    ensures 0 <= StartIndex(k) == (k - 1) * ItemsPerPage < n
    ensures EndIndex(k) == k * ItemsPerPage
  {
  }

  /** Reading every page in turn shows each filtered product once, in order. */
  lemma PagesCoverList(filtered: seq<MenuProduct>)
    ensures FirstPages(filtered, TotalPages(|filtered|)) == filtered
  {
    FirstPagesPrefix(filtered, TotalPages(|filtered|));
  }

  /** The caption under the list: "from-to" of the products shown. */
  function RangeShown(n: nat, page: int): (int, int) {
    (StartIndex(page) + 1, Min(EndIndex(page), n))
  }

  /** On any page from 1 to the page count the caption names a non-empty
      range inside the list whose size is the number of products shown. */
  lemma RangeMatchesPage(filtered: seq<MenuProduct>, page: int)
    requires 1 <= page <= TotalPages(|filtered|)
    ensures var (from, to) := RangeShown(|filtered|, page);
      1 <= from <= to <= |filtered| && to - from + 1 == |CurrentProducts(filtered, page)|
  {
  }

  /** The previous button never goes below page 1. */
  function PrevPage(page: int): (r: int)
    ensures r >= 1
    ensures page > 1 ==> r == page - 1
  {
    if page - 1 > 1 then page - 1 else 1
  }

  /** The next button never goes past the last page. */
  function NextPage(page: int, totalPages: nat): (r: int)
    ensures r <= totalPages
    ensures page < totalPages ==> r == page + 1
  {
    Min(totalPages, page + 1)
  }

  /** Moving forward then back from an inner page returns to it. */
  lemma NextThenPrev(page: int, totalPages: nat)
    requires 1 <= page < totalPages
    ensures PrevPage(NextPage(page, totalPages)) == page
  {
  }

  // ---------------------------------------------------------------------------
  // The page state that the filters and buttons change.

  datatype MenuView = MenuView(products: seq<MenuProduct>, category: IdChoice, query: string, page: int)

  function Shown(v: MenuView): seq<MenuProduct> {
    CurrentProducts(FilteredProducts(v.products, v.category, v.query), v.page)
  }

  /** Choosing a category or typing a query sends the view back to page 1,
      which shows the first products of the new list. */
  function SelectCategory(v: MenuView, category: IdChoice): (r: MenuView)
    ensures r.page == 1 && r.category == category && r.query == v.query && r.products == v.products
    ensures var f := FilteredProducts(r.products, category, r.query);
      Shown(r) == f[..Min(ItemsPerPage, |f|)]
  {
    var r := v.(category := category, page := 1);
    FirstPageShown(FilteredProducts(r.products, category, r.query));
    r
  }

  function SetQuery(v: MenuView, query: string): (r: MenuView)
    ensures r.page == 1 && r.query == query && r.category == v.category && r.products == v.products
    ensures var f := FilteredProducts(r.products, r.category, query);
      Shown(r) == f[..Min(ItemsPerPage, |f|)]
  {
    var r := v.(query := query, page := 1);
    FirstPageShown(FilteredProducts(r.products, r.category, query));
    r
  }

  lemma FirstPageShown(f: seq<MenuProduct>)
    ensures CurrentProducts(f, 1) == f[..Min(ItemsPerPage, |f|)]
  {
  }
}
