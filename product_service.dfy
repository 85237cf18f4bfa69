/**
 * The parts of src/services/productService.ts that run on data already fetched
 * from, or about to be written to, the product collection: the search filter,
 * the category query, the category list and the image URL lists.
 */
module ProductService {
  import opened Types
  import opened Seqs
  import opened Text

  // ---------------------------------------------------------------- searchProducts

  predicate MatchesSearch(p: Product, term: string) {
    IncludesIgnoringCase(p.name, term) || IncludesIgnoringCase(p.description, term)
  }

  function SearchMatch(term: string): Product -> bool {
    (p: Product) => MatchesSearch(p, term)
  }

  /** `searchProducts(term)` on the fetched product list `all`. */
  function SearchProducts(all: seq<Product>, term: string): (r: seq<Product>)
    ensures forall p :: p in r <==> p in all && MatchesSearch(p, term)
  {
    FilterMembers(all, SearchMatch(term));
    Filter(all, SearchMatch(term))
  }

  /** The kept products keep their relative order, and an empty term keeps every product. */
  lemma SearchKeepsOrder(a: seq<Product>, b: seq<Product>, term: string)
    ensures SearchProducts(a + b, term) == SearchProducts(a, term) + SearchProducts(b, term)
    ensures SearchProducts(a, "") == a
  {
    FilterAppend(a, b, SearchMatch(term));
    forall i | 0 <= i < |a| ensures SearchMatch("")(a[i]) {
      EmptyTermMatches(a[i].name);
    }
    FilterAll(a, SearchMatch(""));
  }

  // ---------------------------------------------------------------- getProductsByCategory

  function CategoryIs(category: string): Product -> bool {
    (p: Product) => p.category == category
  }

  /**
   * `getProductsByCategory(category)` over the collection `store`: `'all'`
   * delegates to `getProducts`, any other value is an equality query.
   */
  function ProductsByCategory(store: seq<Product>, category: string): (r: seq<Product>)
    ensures category == "all" ==> r == store
    ensures category != "all" ==> forall p :: p in r <==> p in store && p.category == category
  {
    if category == "all" then store
    else
      FilterMembers(store, CategoryIs(category));
      Filter(store, CategoryIs(category))
  }

  // ---------------------------------------------------------------- getCategories

  /**
   * The contents of the insertion-ordered `Set` built by `getCategories`: each
   * non-empty category once, in the order it is first seen.
   */
  function SeenCategories(products: seq<Product>): seq<string> {
    if products == [] then []
    else
      var seen := SeenCategories(products[..|products| - 1]);
      var c := products[|products| - 1].category;
      if c != "" && c !in seen then seen + [c] else seen
  }

  /** `getCategories()` over the fetched product documents. */
  method GetCategories(products: seq<Product>) returns (r: seq<string>)
    ensures r == ["all"] + SeenCategories(products)
  {
    var seen: seq<string> := [];
    var i := 0;
    while i < |products|
      invariant 0 <= i <= |products|
      invariant seen == SeenCategories(products[..i])
    {
      assert products[..i + 1][..i] == products[..i];
      var c := products[i].category;
      if c != "" && c !in seen {
        seen := seen + [c];
      }
      i := i + 1;
    }
    assert products[..|products|] == products;
    r := ["all"] + seen;
  }

  ghost predicate NoDuplicates(s: seq<string>) {
    forall i, j :: 0 <= i < j < |s| ==> s[i] != s[j]
  }

  /** Each listed category is non-empty, occurs on some product, and is listed once; every non-empty category is listed. */
  lemma {:induction false} SeenCategoriesExact(products: seq<Product>)
    ensures NoDuplicates(SeenCategories(products))
    ensures forall c :: c in SeenCategories(products) <==> c != "" && exists p :: p in products && p.category == c
  {
    if products != [] {
      var init := products[..|products| - 1];
      var last := products[|products| - 1];
      SeenCategoriesExact(init);
      assert products == init + [last];
      forall c ensures c in SeenCategories(products) <==> c != "" && exists p :: p in products && p.category == c {
        if c != "" && exists p :: p in products && p.category == c {
          var p :| p in products && p.category == c;
          if p != last || p in init {
            assert p in init;
          }
        }
      }
    }
  }

  /** Index of the first product with category `c` (|products| when there is none). */
  function FirstWithCategory(products: seq<Product>, c: string): (k: nat)
    ensures k <= |products|
    ensures k < |products| ==> products[k].category == c
    ensures forall j :: 0 <= j < k ==> products[j].category != c
  {
    if products == [] then 0
    else if products[0].category == c then 0
    else 1 + FirstWithCategory(products[1..], c)
  }

  lemma {:induction false} FirstWithCategoryAppend(products: seq<Product>, last: Product, c: string)
    ensures FirstWithCategory(products + [last], c) ==
      if FirstWithCategory(products, c) < |products| then FirstWithCategory(products, c)
      else if last.category == c then |products| else |products| + 1
  {
    if products != [] && products[0].category != c {
      assert (products + [last])[1..] == products[1..] + [last];
      FirstWithCategoryAppend(products[1..], last, c);
    }
  }

  /** First-seen order: a category listed earlier first appears on an earlier product. */
  lemma {:induction false} SeenCategoriesInFirstSeenOrder(products: seq<Product>)
    ensures forall i, j :: 0 <= i < j < |SeenCategories(products)| ==>
      FirstWithCategory(products, SeenCategories(products)[i]) < FirstWithCategory(products, SeenCategories(products)[j])
  {
    if products != [] {
      var init := products[..|products| - 1];
      var last := products[|products| - 1];
      var seen := SeenCategories(init);
      var d := SeenCategories(products);
      SeenCategoriesInFirstSeenOrder(init);
      SeenCategoriesExact(init);
      assert products == init + [last];
      forall c | c in seen ensures FirstWithCategory(products, c) == FirstWithCategory(init, c) < |init| {
        FirstWithCategoryAppend(init, last, c);
        var p :| p in init && p.category == c;
        var q :| 0 <= q < |init| && init[q] == p;
        assert FirstWithCategory(init, c) <= q;
      }
      forall i, j | 0 <= i < j < |d| ensures FirstWithCategory(products, d[i]) < FirstWithCategory(products, d[j]) {
        assert d[i] in seen;
        if j < |seen| {
          assert d[j] in seen;
        } else {
          FirstWithCategoryAppend(init, last, d[j]);
          assert d[j] !in seen;
          assert d[j] == last.category;
        }
      }
    }
  }

  /** `getCategories` lists `'all'` first; `'all'` is listed twice only when a product has the category `'all'`. */
  lemma CategoriesStartWithAll(products: seq<Product>)
    ensures (["all"] + SeenCategories(products))[0] == "all"
    ensures (forall p :: p in products ==> p.category != "all") ==> NoDuplicates(["all"] + SeenCategories(products))
  {
    SeenCategoriesExact(products);
    var r := ["all"] + SeenCategories(products);
    if forall p :: p in products ==> p.category != "all" {
      forall i, j | 0 <= i < j < |r| ensures r[i] != r[j] {
        assert r[j] in SeenCategories(products);
        if i > 0 { assert r[i] == SeenCategories(products)[i - 1]; }
      }
    }
  }

  // ---------------------------------------------------------------- image uploads

  /**
   * The upload loop of `addProduct` and `updateProduct`: one download URL per
   * file, in file order. `urlOf(f)` is the URL the blob store returns for `f`.
   */
  method UploadImages(files: seq<ImageFile>, urlOf: ImageFile -> string) returns (urls: seq<string>)
    ensures |urls| == |files|
    ensures forall i :: 0 <= i < |files| ==> urls[i] == urlOf(files[i])
  {
    urls := [];
    for i := 0 to |files|
      invariant |urls| == i
      invariant forall k :: 0 <= k < i ==> urls[k] == urlOf(files[k])
    {
      urls := urls + [urlOf(files[i])];
    }
  }

  /**
   * The `images` field `updateProduct` writes: untouched (`None`) without new
   * files; otherwise the stored images (none when the document is missing or
   * has no `images`) followed by the new URLs in upload order.
   */
  method UpdatedImages(newFiles: seq<ImageFile>, urlOf: ImageFile -> string, docExists: bool, existing: seq<string>)
    returns (images: Option<seq<string>>)
    ensures newFiles == [] <==> images.None?
    ensures images.Some? ==> |images.value| == (if docExists then |existing| else 0) + |newFiles|
    ensures images.Some? && docExists ==> images.value[..|existing|] == existing
    ensures images.Some? ==> forall i :: 0 <= i < |newFiles| ==>
      images.value[|images.value| - |newFiles| + i] == urlOf(newFiles[i])
  {
    if |newFiles| > 0 {
      var urls := UploadImages(newFiles, urlOf);
      if docExists {
        images := Some(existing + urls);
      } else {
        images := Some(urls);
      }
    } else {
      images := None;
    }
  }
}
