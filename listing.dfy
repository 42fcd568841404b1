/**
 * The shop listing page (src/pages/ProductListingPage.tsx): its filter state,
 * and the effect that derives the displayed list from the category's products
 * by an inclusive price filter, an optional in-stock filter and an in-place
 * sort under one of four comparators.
 */
module Listing {
  import opened Types
  import opened Sequences

  /** The `[min, max]` price filter, in whole dollars as the range slider yields them. */
  datatype PriceRange = PriceRange(low: int, high: int)

  /** Both ends are inclusive; prices are in cents, the bounds in dollars. */
  predicate InPriceRange(p: Product, range: PriceRange)
  {
    range.low * 100 <= p.price <= range.high * 100
  }

  /** The price step, then (when `showInStock`) the stock step. */
  function Filtered(products: seq<Product>, range: PriceRange, showInStock: bool): (r: seq<Product>)
    ensures forall p :: p in r <==> p in products && InPriceRange(p, range) && (showInStock ==> p.inStock)
    ensures |r| <= |products|
  {
    var inRange := (p: Product) => InPriceRange(p, range);
    var inStock := (p: Product) => p.inStock;
    var byPrice := Filter(products, inRange);
    FilterMembers(products, inRange);
    FilterMembers(byPrice, inStock);
    if showInStock then Filter(byPrice, inStock) else byPrice
  }

  /** The filters keep every copy of a product that passes both steps and drop every copy of the rest. */
  lemma FilteredCount(products: seq<Product>, range: PriceRange, showInStock: bool, p: Product)
    ensures multiset(Filtered(products, range, showInStock))[p]
         == if InPriceRange(p, range) && (showInStock ==> p.inStock) then multiset(products)[p] else 0
  {
    var inRange := (q: Product) => InPriceRange(q, range);
    var inStock := (q: Product) => q.inStock;
    FilterCount(products, inRange, p);
    FilterCount(Filter(products, inRange), inStock, p);
  }

  /**
   * The comparator passed to `sort` for each `sortBy` key; any key other than
   * the three named ones falls back to "featured first, then rating descending".
   */
  function Compare(sortBy: string, a: Product, b: Product): int
  {
    match sortBy
    case "price-low" => a.price - b.price
    case "price-high" => b.price - a.price
    case "rating" => b.rating - a.rating
    case _ =>
      if a.featured && !b.featured then -1
      else if !a.featured && b.featured then 1
      else b.rating - a.rating
  }

  /** `a` may stand before `b` in a list sorted with that comparator. */
  predicate Precedes(sortBy: string, a: Product, b: Product)
  {
    Compare(sortBy, a, b) <= 0
  }

  /** `SortedUnder` (below) at the comparator `Compare(sortBy, ·, ·)`. */
  predicate SortedBy(sortBy: string, s: seq<Product>)
  {
    forall i, j :: 0 <= i < j < |s| ==> Precedes(sortBy, s[i], s[j])
  }

  /** Every comparator is a total preorder: any two products are ordered, and the order is transitive. */
  lemma PrecedesTotalPreorder(sortBy: string, a: Product, b: Product, c: Product)
    ensures Precedes(sortBy, a, b) || Precedes(sortBy, b, a)
    ensures Precedes(sortBy, a, b) && Precedes(sortBy, b, c) ==> Precedes(sortBy, a, c)
  {
  }

  /** `x` may stand before `y` under a `sort` comparator. */
  predicate Le<T>(compare: (T, T) -> int, x: T, y: T)
  {
    compare(x, y) <= 0
  }

  /** A comparator that orders any two elements and whose order is transitive, as `sort` expects. */
  ghost predicate IsTotalPreorder<T(!new)>(compare: (T, T) -> int)
  {
    && (forall x, y :: Le(compare, x, y) || Le(compare, y, x))
    && (forall x, y, z :: Le(compare, x, y) && Le(compare, y, z) ==> Le(compare, x, z))
  }

  predicate SortedUnder<T>(compare: (T, T) -> int, s: seq<T>)
  {
    forall i, j :: 0 <= i < j < |s| ==> Le(compare, s[i], s[j])
  }

  /** `array.sort(compare)`, in place: an insertion sort by adjacent swaps. */
  method SortInPlace<T(!new)>(a: array<T>, compare: (T, T) -> int)
    requires IsTotalPreorder(compare)
    modifies a
    ensures SortedUnder(compare, a[..])
    ensures multiset(a[..]) == multiset(old(a[..]))
  {
    for i := 0 to a.Length
      invariant SortedUnder(compare, a[..i])
      invariant multiset(a[..]) == multiset(old(a[..]))
    {
      var j := i;
      while j > 0 && !Le(compare, a[j - 1], a[j])
        invariant 0 <= j <= i
        invariant forall p, q :: 0 <= p < q <= i && p != j && q != j ==> Le(compare, a[p], a[q])
        invariant forall q :: j < q <= i ==> Le(compare, a[j], a[q])
        invariant multiset(a[..]) == multiset(old(a[..]))
      {
        a[j - 1], a[j] := a[j], a[j - 1];
        j := j - 1;
      }
      forall p | 0 <= p < j
        ensures Le(compare, a[p], a[j])
      {
        assert Le(compare, a[p], a[j - 1]) && Le(compare, a[j - 1], a[j]);
      }
    }
    assert a[..a.Length] == a[..];
  }

  /** `result` is what the effect on lines 32-66 may display for these settings. */
  predicate IsPipelineOutput(products: seq<Product>, priceRange: PriceRange, sortBy: string, showInStock: bool, result: seq<Product>)
  {
    multiset(result) == multiset(Filtered(products, priceRange, showInStock)) && SortedBy(sortBy, result)
  }

  /**
   * The filter-and-sort effect (lines 32-66) as one operation: the result is a
   * permutation of the filtered products, sorted under the chosen comparator.
   */
  method FilterAndSort(products: seq<Product>, priceRange: PriceRange, sortBy: string, showInStock: bool)
    returns (result: seq<Product>)
    ensures multiset(result) == multiset(Filtered(products, priceRange, showInStock))
    ensures SortedBy(sortBy, result)
  {
    var filtered := Filtered(products, priceRange, showInStock);
    var a := new Product[|filtered|](i requires 0 <= i < |filtered| => filtered[i]);
    assert a[..] == filtered;
    var compare := (x: Product, y: Product) => Compare(sortBy, x, y);
    forall x, y, z {
      PrecedesTotalPreorder(sortBy, x, y, z);
    }
    SortInPlace(a, compare);
    result := a[..];
  }

  /**
   * Nothing is added or duplicated: a result with the multiset of the filtered
   * list holds each product exactly as often as `products` does when it passes
   * both steps, and not at all otherwise.
   */
  lemma PipelineCounts(products: seq<Product>, priceRange: PriceRange, showInStock: bool, result: seq<Product>)
    requires multiset(result) == multiset(Filtered(products, priceRange, showInStock))
    ensures forall p :: multiset(result)[p] == if InPriceRange(p, priceRange) && (showInStock ==> p.inStock) then multiset(products)[p] else 0
    ensures forall p :: p in result <==> p in products && InPriceRange(p, priceRange) && (showInStock ==> p.inStock)
    ensures |result| <= |products|
  {
    var f := Filtered(products, priceRange, showInStock);
    forall p ensures multiset(result)[p] == if InPriceRange(p, priceRange) && (showInStock ==> p.inStock) then multiset(products)[p] else 0 {
      FilteredCount(products, priceRange, showInStock, p);
    }
    forall p ensures p in result <==> p in f {
      assert p in result <==> p in multiset(result);
      assert p in f <==> p in multiset(f);
    }
    assert |result| == |multiset(result)| == |multiset(f)| == |f|;
  }

  /** What sortedness means under each key. */
  lemma SortedMeaning(sortBy: string, s: seq<Product>)
    requires SortedBy(sortBy, s)
    ensures sortBy == "price-low" ==> forall i, j :: 0 <= i < j < |s| ==> s[i].price <= s[j].price
    ensures sortBy == "price-high" ==> forall i, j :: 0 <= i < j < |s| ==> s[i].price >= s[j].price
    ensures sortBy == "rating" ==> forall i, j :: 0 <= i < j < |s| ==> s[i].rating >= s[j].rating
    ensures sortBy !in {"price-low", "price-high", "rating"} ==>
      (forall i, j :: 0 <= i < |s| && 0 <= j < |s| && s[i].featured && !s[j].featured ==> i < j)
      && (forall i, j :: 0 <= i < j < |s| && s[i].featured == s[j].featured ==> s[i].rating >= s[j].rating)
  {
  }

  /**
   * Three products at 49.99, 59.99 and 39.99 come out of a "price-low" sort
   * as 39.99, 49.99, 59.99, whatever order they went in.
   */
  lemma PriceLowThreeProducts(x: Product, y: Product, z: Product, result: seq<Product>)
    requires x.price == 4999 && y.price == 5999 && z.price == 3999
    requires multiset(result) == multiset([x, y, z])
    requires SortedBy("price-low", result)
    ensures result == [z, x, y]
  {
    assert |result| == |multiset(result)| == 3;
    forall i | 0 <= i < 3
      ensures result[i] == x || result[i] == y || result[i] == z
    {
      assert result[i] in multiset(result);
    }
    SortedMeaning("price-low", result);
    assert x in multiset(result) && y in multiset(result) && z in multiset(result);
    assert x in result && y in result && z in result;
  }
}
