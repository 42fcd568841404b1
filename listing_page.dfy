/**
 * The state of the shop listing page (src/pages/ProductListingPage.tsx): the
 * route's category, its products, the filter settings and the displayed list.
 * Each handler changes one setting; the effects then recompute the displayed
 * list, and the model shows the state once they have run.
 */
module ListingPage {
  import opened Types
  import opened Sequences
  import Catalog
  import opened Listing

  /** The heading's category: the entry whose id is the route's, else the first entry ("all"). */
  function CurrentCategory(categoryId: string): (c: Catalog.Category)
    ensures c in Catalog.Categories
    ensures (exists k :: 0 <= k < |Catalog.Categories| && Catalog.Categories[k].id == categoryId) ==> c.id == categoryId
    ensures (forall k :: 0 <= k < |Catalog.Categories| ==> Catalog.Categories[k].id != categoryId) ==> c == Catalog.Categories[0]
  {
    match Find(Catalog.Categories, (c: Catalog.Category) => c.id == categoryId)
    case Some(c) => c
    case None => Catalog.Categories[0]
  }

  class ProductListingPage {
    var categoryId: string
    var products: seq<Product>
    var filteredProducts: seq<Product>
    var priceRange: PriceRange
    var sortBy: string
    var showInStock: bool

    /**
     * The slider never moves the lower bound off 0, and the displayed list is
     * the pipeline's output for the current settings.
     */
    ghost predicate Valid()
      reads this
    {
      && priceRange.low == 0
      && IsPipelineOutput(products, priceRange, sortBy, showInStock, filteredProducts)
    }

    /** The page for a route: `[0, 100]`, "featured", in-stock only. */
    constructor (categoryId: string)
      ensures Valid()
      ensures this.categoryId == categoryId && products == Catalog.GetProductsByCategory(categoryId)
      ensures priceRange == PriceRange(0, 100) && sortBy == "featured" && showInStock
    {
      this.categoryId := categoryId;
      var fetched := Catalog.GetProductsByCategory(categoryId);
      products := fetched;
      priceRange := PriceRange(0, 100);
      sortBy := "featured";
      showInStock := true;
      var displayed := FilterAndSort(fetched, PriceRange(0, 100), "featured", true);
      filteredProducts := displayed;
    }

    /** The effect on lines 32-66, run after any of its inputs changed. */
    method Refilter()
      modifies this`filteredProducts
      ensures IsPipelineOutput(products, priceRange, sortBy, showInStock, filteredProducts)
    {
      filteredProducts := FilterAndSort(products, priceRange, sortBy, showInStock);
    }

    /** Navigating to another category refetches its products. */
    method SetCategory(id: string)
      requires Valid()
      modifies this
      ensures Valid()
      ensures categoryId == id && products == Catalog.GetProductsByCategory(id)
      ensures priceRange == old(priceRange) && sortBy == old(sortBy) && showInStock == old(showInStock)
    {
      var fetched := Catalog.GetProductsByCategory(id);
      categoryId, products := id, fetched;
      Refilter();
    }

    /** The range slider replaces the upper bound and keeps the lower one. */
    method SetPriceMax(value: int)
      requires Valid()
      modifies this
      ensures Valid()
      ensures priceRange == PriceRange(old(priceRange.low), value)
      ensures categoryId == old(categoryId) && products == old(products)
      ensures sortBy == old(sortBy) && showInStock == old(showInStock)
    {
      priceRange := PriceRange(priceRange.low, value);
      Refilter();
    }

    /** A sort option was chosen; any string is accepted and unknown ones sort as "featured". */
    method SetSortBy(key: string)
      requires Valid()
      modifies this
      ensures Valid()
      ensures sortBy == key
      ensures categoryId == old(categoryId) && products == old(products)
      ensures priceRange == old(priceRange) && showInStock == old(showInStock)
    {
      sortBy := key;
      Refilter();
    }

    /** The in-stock checkbox. */
    method SetShowInStock(checked: bool)
      requires Valid()
      modifies this
      ensures Valid()
      ensures showInStock == checked
      ensures categoryId == old(categoryId) && products == old(products)
      ensures priceRange == old(priceRange) && sortBy == old(sortBy)
    {
      showInStock := checked;
      Refilter();
    }
  }
}
