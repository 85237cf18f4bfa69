/**
 * The product list of the admin area, src/pages/admin/AdminProducts.tsx: the
 * delete flow and the search filter.
 */
module AdminProducts {
  import opened Types
  import opened Seqs
  import opened Text

  function ProductIdIsNot(id: string): Product -> bool {
    (p: Product) => p.id != id
  }

  /** `products.filter((p) => p.id !== id)` */
  function WithoutProduct(products: seq<Product>, id: string): seq<Product> {
    Filter(products, ProductIdIsNot(id))
  }

  /**
   * Deleting removes exactly the products with the id and keeps the others in
   * list order; an id not in the list changes nothing.
   */
  lemma WithoutProductMeaning(products: seq<Product>, more: seq<Product>, id: string)
    ensures forall p :: p in WithoutProduct(products, id) <==> p in products && p.id != id
    ensures WithoutProduct(products + more, id) == WithoutProduct(products, id) + WithoutProduct(more, id)
    ensures (forall p :: p in products ==> p.id != id) ==> WithoutProduct(products, id) == products
  {
    FilterMembers(products, ProductIdIsNot(id));
    FilterAppend(products, more, ProductIdIsNot(id));
    if forall p :: p in products ==> p.id != id {
      assert forall i :: 0 <= i < |products| ==> products[i] in products;
      FilterAll(products, ProductIdIsNot(id));
    }
  }

  predicate ProductMatches(p: Product, term: string) {
    IncludesIgnoringCase(p.name, term) || IncludesIgnoringCase(p.category, term)
  }

  function ProductMatching(term: string): Product -> bool {
    (p: Product) => ProductMatches(p, term)
  }

  /** `filteredProducts` */
  function FilterProducts(products: seq<Product>, term: string): seq<Product> {
    Filter(products, ProductMatching(term))
  }

  /**
   * The list keeps exactly the products whose name or category contains the
   * term, ignoring case, in list order; the empty term keeps every product.
   */
  lemma FilterProductsMeaning(products: seq<Product>, more: seq<Product>, term: string)
    ensures forall p :: p in FilterProducts(products, term) <==> p in products && ProductMatches(p, term)
    ensures FilterProducts(products + more, term) == FilterProducts(products, term) + FilterProducts(more, term)
    ensures FilterProducts(products, "") == products
  {
    FilterMembers(products, ProductMatching(term));
    FilterAppend(products, more, ProductMatching(term));
    forall i | 0 <= i < |products| ensures ProductMatching("")(products[i]) {
      EmptyTermMatches(products[i].name);
    }
    FilterAll(products, ProductMatching(""));
  }

  /** The products page state that the delete flow touches. */
  class ProductsView {
    var products: seq<Product>
    var selectedProduct: Option<Product>
    var deleteDialogOpen: bool
    var searchTerm: string

    constructor (products: seq<Product>)
      ensures this.products == products && selectedProduct == None && !deleteDialogOpen && searchTerm == ""
    {
      this.products := products;
      selectedProduct := None;
      deleteDialogOpen := false;
      searchTerm := "";
    }

    /** `filteredProducts` for the current search term. */
    function Shown(): seq<Product>
      reads this
    {
      FilterProducts(products, searchTerm)
    }

    /** The "Delete" menu item: select the product and open the confirmation dialog. */
    method AskDelete(p: Product)
      modifies this
      ensures selectedProduct == Some(p) && deleteDialogOpen
      ensures products == old(products) && searchTerm == old(searchTerm)
    {
      selectedProduct := Some(p);
      deleteDialogOpen := true;
    }

    /**
     * `handleDeleteProduct`. `remoteThrows` stands for a failure of the
     * product service, after which nothing changes locally; with nothing
     * selected nothing happens at all.
     */
    method DeleteSelected(remoteThrows: bool) returns (deleted: bool)
      modifies this
      ensures deleted <==> old(selectedProduct).Some? && !remoteThrows
      ensures deleted ==> products == WithoutProduct(old(products), old(selectedProduct).value.id) && !deleteDialogOpen
      ensures !deleted ==> products == old(products) && deleteDialogOpen == old(deleteDialogOpen)
      ensures selectedProduct == old(selectedProduct) && searchTerm == old(searchTerm)
    {
      if selectedProduct.None? {
        return false;
      }
      if remoteThrows {
        return false;
      }
      products := WithoutProduct(products, selectedProduct.value.id);
      deleteDialogOpen := false;
      return true;
    }
  }
}
