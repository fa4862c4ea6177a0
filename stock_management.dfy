/**
 * The stock page (src/pages/stock-management.jsx): the quantity thresholds,
 * the search filter over name, category and SKU, and the four stat counts.
 */
module StockManagement {
  import opened Wrappers
  import opened Strings
  import opened Lists
  import opened Records
  import opened ResponseShape

  /** The page's product list: not loading at first, and its own error text. */
  method OpenPage() returns (page: CollectionPage<Product>)
    ensures fresh(page)
    ensures page.items == [] && !page.isLoading
    ensures page.errorText == "Failed to load Products" && !page.requireSuccess
  {
    page := new CollectionPage(false, "Failed to load Products", false);
  }

  /** `getStockStatus(quantity)`. */
  function StockStatus(quantity: int): (s: string)
    ensures s == "Out of Stock" <==> quantity == 0
    ensures s == "Low Stock" <==> quantity != 0 && quantity <= 10
    ensures s == "In Stock" <==> quantity > 10
  {
    if quantity == 0 then "Out of Stock"
    else if quantity <= 10 then "Low Stock"
    else "In Stock"
  }

  /** `getStockColor(quantity)`. */
  function StockColor(quantity: int): (c: string)
    ensures c == "status-chip status-inactive" <==> quantity == 0
    ensures c == "status-chip status-low-stock" <==> quantity != 0 && quantity <= 10
    ensures c == "status-chip status-active" <==> quantity > 10
  {
    if quantity == 0 then "status-chip status-inactive"
    else if quantity <= 10 then "status-chip status-low-stock"
    else "status-chip status-active"
  }

  /** The badge colour and the badge text always agree: two quantities share one exactly when they share the other. */
  lemma ColorAgreesWithStatus(q1: int, q2: int)
    ensures StockStatus(q1) == StockStatus(q2) <==> StockColor(q1) == StockColor(q2)
  {
  }

  /** The search test of `filteredProducts`. */
  predicate MatchesSearch(p: Product, search: string) {
    ContainsFolded(p.name, search) || ContainsFolded(p.category, search) || ContainsFolded(p.sku, search)
  }

  /** `filteredProducts`: only matching products from the list, never more than it holds. */
  function FilteredProducts(products: seq<Product>, search: string): (r: seq<Product>)
    ensures |r| <= |products|
    ensures forall p :: p in r ==> p in products && MatchesSearch(p, search)
  {
    Filter(products, p => MatchesSearch(p, search))
  }

  /** The filter keeps exactly the matching products, in their order; an empty search keeps them all. */
  lemma FilteredProductsSpec(products: seq<Product>, search: string)
    ensures forall p :: p in FilteredProducts(products, search) <==> p in products && MatchesSearch(p, search)
    ensures IsSubsequence(FilteredProducts(products, search), products)
    ensures search == "" ==> FilteredProducts(products, search) == products
  {
    FilterSpec(products, p => MatchesSearch(p, search));
    if search == "" {
      forall p | p in products ensures MatchesSearch(p, search) {
        ContainsFoldedEmpty(p.name);
      }
      FilterAllTrue(products, p => MatchesSearch(p, search));
    }
  }

  predicate IsLow(p: Product) { p.quantity <= 10 }
  predicate IsOut(p: Product) { p.quantity == 0 }
  predicate IsIn(p: Product) { p.quantity > 10 }

  /** `lowStockProducts`: quantity at most 10, zero included. */
  function LowStock(filtered: seq<Product>): (r: seq<Product>)
    ensures forall p :: p in r ==> p in filtered && p.quantity <= 10
  {
    Filter(filtered, IsLow)
  }

  /** `outOfStockProducts`. */
  function OutOfStock(filtered: seq<Product>): (r: seq<Product>)
    ensures forall p :: p in r ==> p in filtered && p.quantity == 0
  {
    Filter(filtered, IsOut)
  }

  /** The products the "In Stock" card counts. */
  function InStock(filtered: seq<Product>): (r: seq<Product>)
    ensures forall p :: p in r ==> p in filtered && p.quantity > 10
  {
    Filter(filtered, IsIn)
  }

  /** Out of stock lies within low stock, which lies within the filtered list. */
  lemma StockListsNest(filtered: seq<Product>)
    ensures OutOfStock(filtered) == Filter(LowStock(filtered), IsOut)
    ensures IsSubsequence(LowStock(filtered), filtered)
    ensures forall p :: p in OutOfStock(filtered) ==> p in LowStock(filtered)
  {
    FilterOfFilter(filtered, IsLow, IsOut);
    FilterIsSubsequence(filtered, IsLow);
  }

  /** The "In Stock" and "Low Stock" cards add up to the "Total Products" card. */
  lemma StockCountsAddUp(filtered: seq<Product>)
    ensures |InStock(filtered)| + |LowStock(filtered)| == |filtered|
  {
    FilterComplementCount(filtered, IsIn, IsLow);
  }

  /** Every listed product is classified by exactly one of the cards' tests. */
  lemma StatusMatchesCards(p: Product, filtered: seq<Product>)
    requires p in filtered
    ensures StockStatus(p.quantity) == "In Stock" <==> p in InStock(filtered)
    ensures StockStatus(p.quantity) != "In Stock" <==> p in LowStock(filtered)
    ensures StockStatus(p.quantity) == "Out of Stock" <==> p in OutOfStock(filtered)
  {
    FilterMembership(filtered, IsIn, p);
    FilterMembership(filtered, IsLow, p);
    FilterMembership(filtered, IsOut, p);
  }
}
