/** The products page (src/pages/products.jsx): the search-and-category filter and the category options. */
module ProductsPage {
  import opened Wrappers
  import opened Strings
  import opened Lists
  import opened Records
  import opened ResponseShape

  method OpenPage() returns (page: CollectionPage<Product>)
    ensures fresh(page)
    ensures page.items == [] && !page.isLoading
    ensures page.errorText == "Failed to load Products" && !page.requireSuccess
  {
    page := new CollectionPage(false, "Failed to load Products", false);
  }

  /** The category value that selects every category. */
  const AllCategories: string := "all"

  /** `matchesSearch && matchesCategory`. */
  predicate Matches(p: Product, search: string, category: string) {
    ContainsFolded(p.name, search) && (category == AllCategories || p.category == category)
  }

  /** `filteredProducts`: only products matching both the search and the category. */
  function FilteredProducts(products: seq<Product>, search: string, category: string): (r: seq<Product>)
    ensures |r| <= |products|
    ensures forall p :: p in r ==> p in products && Matches(p, search, category)
  {
    Filter(products, p => Matches(p, search, category))
  }

  lemma FilteredProductsSpec(products: seq<Product>, search: string, category: string)
    ensures forall p :: p in FilteredProducts(products, search, category) <==>
                        p in products && ContainsFolded(p.name, search)
                        && (category == AllCategories || p.category == category)
    ensures IsSubsequence(FilteredProducts(products, search, category), products)
  {
    FilterSpec(products, p => Matches(p, search, category));
  }

  /** With an empty search and every category selected, the filter changes nothing. */
  lemma UnfilteredIsIdentity(products: seq<Product>)
    ensures FilteredProducts(products, "", AllCategories) == products
  {
    forall p | p in products ensures Matches(p, "", AllCategories) {
      ContainsFoldedEmpty(p.name);
    }
    FilterAllTrue(products, p => Matches(p, "", AllCategories));
  }

  /** Choosing a category never shows a product of another category. */
  lemma CategoryNarrows(products: seq<Product>, search: string, category: string, p: Product)
    requires category != AllCategories
    requires p in FilteredProducts(products, search, category)
    ensures p.category == category
  {
    FilterMembership(products, p => Matches(p, search, category), p);
  }

  /**
   * `categoriesData?.map((c) => c.name) || ["Other"]`: the names, one per
   * category and possibly missing, or the single option "Other" when there is
   * no data. An empty list is truthy, so it yields no options.
   */
  function CategoryOptions(categoriesData: Option<seq<Category>>): (r: seq<Option<string>>)
    ensures categoriesData.None? ==> r == [Some("Other")]
    ensures categoriesData.Some? ==> |r| == |categoriesData.value|
    ensures categoriesData.Some? ==> forall i :: 0 <= i < |r| ==> r[i] == categoriesData.value[i].name
  {
    match categoriesData
    case None => [Some("Other")]
    case Some(cs) => seq(|cs|, i requires 0 <= i < |cs| => cs[i].name)
  }

  /** An empty category list is kept as it is: the "Other" fallback is not used. */
  lemma NoCategoriesNoOptions()
    ensures CategoryOptions(Some([])) == []
  {
  }
}
