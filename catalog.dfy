/**
 * The catalog page of src/pages/ProductsPage.tsx: how the fetched product list
 * is chosen from the URL parameters, and the filter-then-sort pipeline that
 * produces the list shown to the shopper.
 */
module Catalog {
  import opened Types
  import opened Seqs
  import opened StableSort
  import ProductService

  // ---------------------------------------------------------------- orderings

  datatype Ordering = PriceLow | PriceHigh | Newest | Featured

  /** The `switch (sortBy)`: any value other than the three named ones sorts as `featured`. */
  function OrderingOf(sortBy: string): Ordering {
    if sortBy == "price-low" then PriceLow
    else if sortBy == "price-high" then PriceHigh
    else if sortBy == "newest" then Newest
    else Featured
  }

  function PriceKey(p: Product): real { p.price }
  function NegPriceKey(p: Product): real { -p.price }
  function NewestKey(p: Product): real { -(p.createdAt as real) }
  /** `(b.featured ? 1 : 0) - (a.featured ? 1 : 0)` orders by this key ascending. */
  function FeaturedKey(p: Product): real { if p.featured then 0.0 else 1.0 }

  /** The key whose ascending order the comparator of each ordering produces. */
  function KeyOf(o: Ordering): Product -> real {
    match o
    case PriceLow => PriceKey
    case PriceHigh => NegPriceKey
    case Newest => NewestKey
    case Featured => FeaturedKey
  }

  // ---------------------------------------------------------------- filters

  function InCategory(category: string): Product -> bool {
    (p: Product) => p.category == category
  }

  function InPriceRange(lo: real, hi: real): Product -> bool {
    (p: Product) => p.price >= lo && p.price <= hi
  }

  function IsInStock(p: Product): bool { p.inStock }
  function IsFeatured(p: Product): bool { p.featured }
  function NotFeatured(p: Product): bool { !p.featured }

  /** The three filters applied in sequence: category (unless `'all'`), price range, stock. */
  function Selected(products: seq<Product>, category: string, lo: real, hi: real, inStockOnly: bool): seq<Product> {
    var byCategory := if category != "all" then Filter(products, InCategory(category)) else products;
    var byPrice := Filter(byCategory, InPriceRange(lo, hi));
    if inStockOnly then Filter(byPrice, IsInStock) else byPrice
  }

  /** The list the filter effect stores in `filteredProducts`. */
  function Visible(products: seq<Product>, category: string, lo: real, hi: real, inStockOnly: bool, sortBy: string): seq<Product> {
    Sort(Selected(products, category, lo, hi, inStockOnly), KeyOf(OrderingOf(sortBy)))
  }

  /** A single product passes every active filter. */
  predicate Passes(p: Product, category: string, lo: real, hi: real, inStockOnly: bool) {
    (category == "all" || p.category == category) && lo <= p.price <= hi && (!inStockOnly || p.inStock)
  }

  function Passing(category: string, lo: real, hi: real, inStockOnly: bool): Product -> bool {
    (p: Product) => Passes(p, category, lo, hi, inStockOnly)
  }

  /** The three filters in sequence are one filter by the conjunction of their conditions. */
  lemma SelectedIsOneFilter(products: seq<Product>, category: string, lo: real, hi: real, inStockOnly: bool)
    ensures Selected(products, category, lo, hi, inStockOnly) == Filter(products, Passing(category, lo, hi, inStockOnly))
  {
    var withoutStock := Passing(category, lo, hi, false);
    if category == "all" {
      FilterSame(products, InPriceRange(lo, hi), withoutStock);
    } else {
      FilterTwice(products, InCategory(category), InPriceRange(lo, hi), withoutStock);
    }
    if inStockOnly {
      FilterTwice(products, withoutStock, IsInStock, Passing(category, lo, hi, true));
    }
  }

  /**
   * Soundness and completeness of the pipeline: the shown list is a
   * rearrangement of exactly the fetched products that pass every filter.
   */
  lemma VisibleIsExactlyPassing(products: seq<Product>, category: string, lo: real, hi: real, inStockOnly: bool, sortBy: string)
    ensures multiset(Visible(products, category, lo, hi, inStockOnly, sortBy))
         == multiset(Filter(products, Passing(category, lo, hi, inStockOnly)))
    ensures forall p :: p in Visible(products, category, lo, hi, inStockOnly, sortBy)
                    <==> p in products && Passes(p, category, lo, hi, inStockOnly)
  {
    SelectedIsOneFilter(products, category, lo, hi, inStockOnly);
    var r := Visible(products, category, lo, hi, inStockOnly, sortBy);
    var f := Filter(products, Passing(category, lo, hi, inStockOnly));
    FilterMembers(products, Passing(category, lo, hi, inStockOnly));
    assert multiset(r) == multiset(f);
    forall p ensures p in r <==> p in f {
      assert p in r <==> p in multiset(r);
      assert p in f <==> p in multiset(f);
    }
  }

  /** Each ordering puts the shown list in the order its comparator asks for. */
  lemma VisibleIsOrdered(products: seq<Product>, category: string, lo: real, hi: real, inStockOnly: bool, sortBy: string)
    ensures var r := Visible(products, category, lo, hi, inStockOnly, sortBy);
      match OrderingOf(sortBy)
      case PriceLow => forall i, j :: 0 <= i < j < |r| ==> r[i].price <= r[j].price
      case PriceHigh => forall i, j :: 0 <= i < j < |r| ==> r[i].price >= r[j].price
      case Newest => forall i, j :: 0 <= i < j < |r| ==> r[i].createdAt >= r[j].createdAt
      case Featured => forall i, j :: 0 <= i < j < |r| ==> r[j].featured ==> r[i].featured
  {
    var key := KeyOf(OrderingOf(sortBy));
    SortSorted(Selected(products, category, lo, hi, inStockOnly), key);
  }

  /**
   * Stability: products the comparator ties (equal key) keep the order they
   * had in the fetched list.
   */
  lemma TiesKeepFetchedOrder(products: seq<Product>, category: string, lo: real, hi: real, inStockOnly: bool, sortBy: string, v: real)
    ensures var key := KeyOf(OrderingOf(sortBy));
      Filter(Visible(products, category, lo, hi, inStockOnly, sortBy), KeyIs(key, v))
      == Filter(Filter(products, Passing(category, lo, hi, inStockOnly)), KeyIs(key, v))
  {
    SelectedIsOneFilter(products, category, lo, hi, inStockOnly);
    SortStable(Selected(products, category, lo, hi, inStockOnly), KeyOf(OrderingOf(sortBy)), v);
  }

  /**
   * The default ordering: the featured products that pass the filters, in
   * fetched order, followed by the other passing products, in fetched order.
   */
  lemma FeaturedOrderingPartitions(products: seq<Product>, category: string, lo: real, hi: real, inStockOnly: bool, sortBy: string)
    requires OrderingOf(sortBy) == Featured
    ensures var sel := Filter(products, Passing(category, lo, hi, inStockOnly));
      Visible(products, category, lo, hi, inStockOnly, sortBy) == Filter(sel, IsFeatured) + Filter(sel, NotFeatured)
  {
    SelectedIsOneFilter(products, category, lo, hi, inStockOnly);
    var sel := Filter(products, Passing(category, lo, hi, inStockOnly));
    var r := Sort(sel, FeaturedKey);
    SortSorted(sel, FeaturedKey);
    TwoValuedSplit(r, FeaturedKey, 0.0, 1.0);
    SortStable(sel, FeaturedKey, 0.0);
    SortStable(sel, FeaturedKey, 1.0);
    FilterSame(sel, KeyIs(FeaturedKey, 0.0), IsFeatured);
    FilterSame(sel, KeyIs(FeaturedKey, 1.0), NotFeatured);
  }

  /** Running the pipeline on its own output with the same settings changes nothing. */
  lemma VisibleIdempotent(products: seq<Product>, category: string, lo: real, hi: real, inStockOnly: bool, sortBy: string)
    ensures var r := Visible(products, category, lo, hi, inStockOnly, sortBy);
      Visible(r, category, lo, hi, inStockOnly, sortBy) == r
  {
    var r := Visible(products, category, lo, hi, inStockOnly, sortBy);
    var pass := Passing(category, lo, hi, inStockOnly);
    var key := KeyOf(OrderingOf(sortBy));
    VisibleIsExactlyPassing(products, category, lo, hi, inStockOnly, sortBy);
    SelectedIsOneFilter(r, category, lo, hi, inStockOnly);
    assert forall i :: 0 <= i < |r| ==> pass(r[i]) by {
      forall i | 0 <= i < |r| ensures pass(r[i]) {
        assert r[i] in r;
      }
    }
    FilterAll(r, pass);
    SortSorted(Selected(products, category, lo, hi, inStockOnly), key);
    SortOfSorted(r, key);
  }

  /** Products priced 5, 50 and 500 under the range [10, 100]: only the one priced 50 is shown. */
  lemma PriceRangeExample(a: Product, b: Product, c: Product)
    requires a.price == 5.0 && b.price == 50.0 && c.price == 500.0
    ensures Visible([a, b, c], "all", 10.0, 100.0, false, "featured") == [b]
  {
    var s := [a, b, c];
    var inRange := InPriceRange(10.0, 100.0);
    assert s[1..] == [b, c];
    assert [b, c][1..] == [c];
    assert [c][1..] == [];
    assert Filter([c], inRange) == [];
    assert Filter([b, c], inRange) == [b];
    assert Selected(s, "all", 10.0, 100.0, false) == [b];
    assert Sort([b], FeaturedKey) == [b] by {
      assert [b][1..] == [];
    }
  }

  // ---------------------------------------------------------------- price range

  /** `Math.min(...prices)` for a non-empty product list. */
  function MinPrice(products: seq<Product>): (m: real)
    requires |products| > 0
    ensures forall i :: 0 <= i < |products| ==> m <= products[i].price
    ensures exists i :: 0 <= i < |products| && m == products[i].price
  {
    if |products| == 1 then products[0].price
    else
      var rest := MinPrice(products[1..]);
      assert forall i :: 1 <= i < |products| ==> products[i] == products[1..][i - 1];
      if products[0].price <= rest then products[0].price else rest
  }

  /** `Math.max(...prices)` for a non-empty product list. */
  function MaxPrice(products: seq<Product>): (m: real)
    requires |products| > 0
    ensures forall i :: 0 <= i < |products| ==> products[i].price <= m
    ensures exists i :: 0 <= i < |products| && m == products[i].price
  {
    if |products| == 1 then products[0].price
    else
      var rest := MaxPrice(products[1..]);
      assert forall i :: 1 <= i < |products| ==> products[i] == products[1..][i - 1];
      if products[0].price >= rest then products[0].price else rest
  }

  /** `Math.ceil` */
  function Ceil(x: real): (n: int)
    ensures x <= n as real < x + 1.0
  {
    -((-x).Floor)
  }

  /**
   * The price range set after a fetch and by "clear filters": the floor of the
   * lowest price to the ceiling of the highest; left as it was when there are
   * no products.
   */
  function ResetRange(products: seq<Product>, lo: real, hi: real): (real, real) {
    if |products| > 0 then ((MinPrice(products).Floor) as real, Ceil(MaxPrice(products)) as real)
    else (lo, hi)
  }

  /** The reset range is as tight as whole numbers allow and excludes no product. */
  lemma ResetRangeCoversAll(products: seq<Product>, lo: real, hi: real)
    requires |products| > 0
    ensures var (l, h) := ResetRange(products, lo, hi);
      (forall i :: 0 <= i < |products| ==> l <= products[i].price <= h)
      && (exists i :: 0 <= i < |products| && products[i].price < l + 1.0)
      && (exists i :: 0 <= i < |products| && products[i].price > h - 1.0)
    ensures var (l, h) := ResetRange(products, lo, hi);
      Filter(products, InPriceRange(l, h)) == products
  {
    var (l, h) := ResetRange(products, lo, hi);
    FilterAll(products, InPriceRange(l, h));
  }

  // ---------------------------------------------------------------- fetching

  datatype FetchPlan = SearchFetch(term: string) | CategoryFetch(category: string) | AllFetch

  /** A non-empty `search` parameter wins over a non-empty `category` parameter. */
  function PlanFetch(categoryParam: Option<string>, searchParam: Option<string>): FetchPlan {
    if searchParam.Some? && searchParam.value != "" then SearchFetch(searchParam.value)
    else if categoryParam.Some? && categoryParam.value != "" then CategoryFetch(categoryParam.value)
    else AllFetch
  }

  /** The fetched list, `store` being the whole product collection. */
  function Fetched(store: seq<Product>, plan: FetchPlan): seq<Product> {
    match plan
    case SearchFetch(term) => ProductService.SearchProducts(store, term)
    case CategoryFetch(category) => ProductService.ProductsByCategory(store, category)
    case AllFetch => store
  }

  /** The selected category after a fetch. */
  function CategoryAfterFetch(plan: FetchPlan, current: string): string {
    match plan
    case SearchFetch(_) => "all"
    case CategoryFetch(category) => category
    case AllFetch => current
  }

  /**
   * After a fetch, every fetched product passes the category filter: a search
   * selects `'all'`, a category fetch selects exactly the fetched category.
   */
  lemma FetchedMatchesSelectedCategory(store: seq<Product>, categoryParam: Option<string>, searchParam: Option<string>, current: string)
    ensures var plan := PlanFetch(categoryParam, searchParam);
      var category := CategoryAfterFetch(plan, current);
      !plan.AllFetch? ==> forall p :: p in Fetched(store, plan) ==> p in store && (category == "all" || p.category == category)
    ensures searchParam.Some? && searchParam.value != "" ==> CategoryAfterFetch(PlanFetch(categoryParam, searchParam), current) == "all"
  {
  }

  // ---------------------------------------------------------------- page state

  /** The state of the catalog page. `categoryParam` and `searchParam` are the URL query parameters. */
  class CatalogView {
    var products: seq<Product>
    var selectedCategory: string
    var minPrice: real
    var maxPrice: real
    var inStockOnly: bool
    var sortBy: string
    var categoryParam: Option<string>
    var searchParam: Option<string>

    /** The initial state: the category parameter or `'all'`, range [0, 1000], no stock filter, featured order. */
    constructor (categoryParam: Option<string>, searchParam: Option<string>)
      ensures products == []
      ensures selectedCategory == if categoryParam.Some? && categoryParam.value != "" then categoryParam.value else "all"
      ensures minPrice == 0.0 && maxPrice == 1000.0 && !inStockOnly && sortBy == "featured"
      ensures this.categoryParam == categoryParam && this.searchParam == searchParam
    {
      products := [];
      selectedCategory := if categoryParam.Some? && categoryParam.value != "" then categoryParam.value else "all";
      minPrice, maxPrice := 0.0, 1000.0;
      inStockOnly := false;
      sortBy := "featured";
      this.categoryParam := categoryParam;
      this.searchParam := searchParam;
    }

    /** `filteredProducts`. */
    function Shown(): seq<Product>
      reads this
    {
      Visible(products, selectedCategory, minPrice, maxPrice, inStockOnly, sortBy)
    }

    /** `fetchProducts`, run whenever the URL parameters change; `store` is the product collection. */
    method Load(store: seq<Product>)
      modifies this
      ensures products == Fetched(store, PlanFetch(categoryParam, searchParam))
      ensures selectedCategory == CategoryAfterFetch(PlanFetch(categoryParam, searchParam), old(selectedCategory))
      ensures (minPrice, maxPrice) == ResetRange(products, old(minPrice), old(maxPrice))
      ensures inStockOnly == old(inStockOnly) && sortBy == old(sortBy)
      ensures categoryParam == old(categoryParam) && searchParam == old(searchParam)
    {
      var plan := PlanFetch(categoryParam, searchParam);
      products := Fetched(store, plan);
      selectedCategory := CategoryAfterFetch(plan, selectedCategory);
      if |products| > 0 {
        minPrice := (MinPrice(products).Floor) as real;
        maxPrice := Ceil(MaxPrice(products)) as real;
      }
    }

    /** `handleCategoryChange`: the search parameter is left in place. */
    method ChangeCategory(category: string)
      modifies this
      ensures selectedCategory == category
      ensures categoryParam == if category != "all" then Some(category) else None
      ensures products == old(products) && minPrice == old(minPrice) && maxPrice == old(maxPrice)
      ensures inStockOnly == old(inStockOnly) && sortBy == old(sortBy) && searchParam == old(searchParam)
    {
      selectedCategory := category;
      if category != "all" {
        categoryParam := Some(category);
      } else {
        categoryParam := None;
      }
    }

    /** `handlePriceChange` */
    method ChangePrice(lo: real, hi: real)
      modifies this`minPrice, this`maxPrice
      ensures minPrice == lo && maxPrice == hi
    {
      minPrice, maxPrice := lo, hi;
    }

    /** `handleSortChange` */
    method ChangeSort(value: string)
      modifies this`sortBy
      ensures sortBy == value
    {
      sortBy := value;
    }

    /** The in-stock checkbox. */
    method SetInStockOnly(checked: bool)
      modifies this`inStockOnly
      ensures inStockOnly == checked
    {
      inStockOnly := checked;
    }

    /**
     * `handleClearFilters`: category `'all'`, stock filter off, range reset to
     * the fetched prices; the sort order and the search parameter stay. Every
     * fetched product is shown afterwards.
     */
    method ClearFilters()
      modifies this
      ensures selectedCategory == "all" && !inStockOnly && categoryParam == None
      ensures (minPrice, maxPrice) == ResetRange(products, old(minPrice), old(maxPrice))
      ensures products == old(products) && sortBy == old(sortBy) && searchParam == old(searchParam)
      ensures multiset(Shown()) == multiset(products)
    {
      selectedCategory := "all";
      inStockOnly := false;
      if |products| > 0 {
        minPrice := (MinPrice(products).Floor) as real;
        maxPrice := Ceil(MaxPrice(products)) as real;
        ResetRangeCoversAll(products, minPrice, maxPrice);
      }
      categoryParam := None;
      assert Selected(products, selectedCategory, minPrice, maxPrice, inStockOnly) == products;
    }
  }
}
