/**
 * The fixed product catalog and its three queries (src/data/products.ts).
 * Prices are in cents and ratings in tenths (see module Types).
 */
module Catalog {
  import opened Wrappers
  import opened Types
  import opened Sequences

  /** The address of a photo on images.pexels.com, where every catalog image is hosted. */
  function PexelsPhoto(photoId: string): string
  {
    "https://images.pexels.com/photos/" + photoId + "/pexels-photo-" + photoId + ".jpeg"
  }

  const FloralParadiseTote := Product("1", "Floral Paradise Jute Tote", 4999,
    "Hand-painted floral design on a sturdy jute tote bag. Perfect for everyday use with internal pockets and strong handles.",
    [PexelsPhoto("5864245"),
     PexelsPhoto("5864276")],
    "totes", true, true, 48)

  const OceanWavesShoulderBag := Product("2", "Ocean Waves Shoulder Bag", 5999,
    "Serene ocean wave patterns hand-painted on a medium-sized jute shoulder bag. Water-resistant lining and adjustable strap.",
    [PexelsPhoto("5864235"),
     PexelsPhoto("5864281")],
    "shoulder", true, true, 47)

  const AbstractArtClutch := Product("3", "Abstract Art Clutch", 3999,
    "Bold abstract designs on a compact jute clutch. Includes a detachable wrist strap and magnetic closure.",
    [PexelsPhoto("4068314"),
     PexelsPhoto("4068313")],
    "clutch", false, true, 45)

  const BotanicalGardenTote := Product("4", "Botanical Garden Tote", 5499,
    "Lush botanical illustrations on a large capacity jute tote. Features reinforced bottom and premium cotton handles.",
    [PexelsPhoto("5864249"),
     PexelsPhoto("5864248")],
    "totes", true, true, 49)

  const GeometricPatternsMessenger := Product("5", "Geometric Patterns Messenger", 6499,
    "Modern geometric patterns on a versatile jute messenger bag. Includes padded laptop sleeve and multiple organization pockets.",
    [PexelsPhoto("5864243"),
     PexelsPhoto("5864242")],
    "messenger", false, true, 46)

  const SunsetDreamsMiniTote := Product("6", "Sunset Dreams Mini Tote", 4499,
    "Vibrant sunset-inspired design on a compact jute tote. Perfect size for essentials with secure zip closure.",
    [PexelsPhoto("5864271"),
     PexelsPhoto("5864270")],
    "totes", false, true, 47)

  const Products: seq<Product> := [
    FloralParadiseTote,
    OceanWavesShoulderBag,
    AbstractArtClutch,
    BotanicalGardenTote,
    GeometricPatternsMessenger,
    SunsetDreamsMiniTote
  ]

  datatype Category = Category(id: string, name: string)

  const Categories: seq<Category> := [
    Category("all", "All Products"),
    Category("totes", "Tote Bags"),
    Category("shoulder", "Shoulder Bags"),
    Category("clutch", "Clutches"),
    Category("messenger", "Messenger Bags")
  ]

  /** The first catalog product with the given id, or nothing. */
  function GetProductById(id: string): (r: Option<Product>)
    ensures r.None? <==> forall i :: 0 <= i < |Products| ==> Products[i].id != id
    ensures r.Some? ==> exists i :: 0 <= i < |Products| && Products[i] == r.value && r.value.id == id
                                    && forall j :: 0 <= j < i ==> Products[j].id != id
  {
    FindById(Products, id)
  }

  /** `find` by id over any list of products. */
  function FindById(ps: seq<Product>, id: string): (r: Option<Product>)
    ensures r.None? <==> forall i :: 0 <= i < |ps| ==> ps[i].id != id
    ensures r.Some? ==> exists i :: 0 <= i < |ps| && ps[i] == r.value && r.value.id == id
                                    && forall j :: 0 <= j < i ==> ps[j].id != id
  {
    Find(ps, (p: Product) => p.id == id)
  }

  /** The whole catalog for "all", otherwise the products of that category in catalog order. */
  function GetProductsByCategory(category: string): (r: seq<Product>)
    ensures category == "all" ==> r == Products
    ensures |r| <= |Products|
  {
    if category == "all" then Products
    else Filter(Products, (p: Product) => p.category == category)
  }

  /**
   * A category query keeps catalog order, and for any category but "all" it
   * holds exactly the products of that category.
   */
  lemma CategoryQuery(category: string)
    ensures category != "all" ==>
      forall p :: p in GetProductsByCategory(category) <==> p in Products && p.category == category
    ensures IsSubsequence(GetProductsByCategory(category), Products)
  {
    if category == "all" {
      SubsequenceOfItself(Products);
    } else {
      var inCategory := (p: Product) => p.category == category;
      FilterMembers(Products, inCategory);
      FilterIsSubsequence(Products, inCategory);
    }
  }

  /** The featured products, in catalog order. */
  function GetFeaturedProducts(): (r: seq<Product>)
    ensures forall p :: p in r <==> p in Products && p.featured
    ensures IsSubsequence(r, Products)
    ensures |r| <= |Products|
  {
    var featured := (p: Product) => p.featured;
    FilterMembers(Products, featured);
    FilterIsSubsequence(Products, featured);
    Filter(Products, featured)
  }

  /** Catalog ids are pairwise distinct. */
  lemma ProductIdsDistinct()
    ensures forall i, j :: 0 <= i < j < |Products| ==> Products[i].id != Products[j].id
  {
  }

  /** Hence looking up the id of any catalog product yields exactly that product. */
  lemma LookupEachId(k: nat)
    requires k < |Products|
    ensures GetProductById(Products[k].id) == Some(Products[k])
  {
    ProductIdsDistinct();
    var r := GetProductById(Products[k].id);
    var i :| 0 <= i < |Products| && Products[i] == r.value && r.value.id == Products[k].id
             && forall j :: 0 <= j < i ==> Products[j].id != Products[k].id;
  }

  /** An id that no catalog product carries is not found. */
  lemma LookupUnknownId(id: string)
    requires id !in {"1", "2", "3", "4", "5", "6"}
    ensures GetProductById(id) == None
  {
  }

  /** Every catalog product has at least one image, so the detail page can show the first. */
  lemma ProductsHaveImages()
    ensures forall p :: p in Products ==> |p.images| >= 1
  {
  }

  /** Filtering six elements of which the first, fourth and sixth pass keeps exactly those, in order. */
  lemma KeepFirstFourthSixth<T(!new)>(s: seq<T>, keep: T -> bool)
    requires |s| == 6
    requires keep(s[0]) && !keep(s[1]) && !keep(s[2]) && keep(s[3]) && !keep(s[4]) && keep(s[5])
    ensures Filter(s, keep) == [s[0], s[3], s[5]]
  {
    FilterSuffix(s, keep, 5);
    assert Filter(s[6..], keep) == [];
    FilterSuffix(s, keep, 4);
    FilterSuffix(s, keep, 3);
    FilterSuffix(s, keep, 2);
    FilterSuffix(s, keep, 1);
    FilterSuffix(s, keep, 0);
    assert s[0..] == s;
  }

  /** Filtering six elements of which the first, second and fourth pass keeps exactly those, in order. */
  lemma KeepFirstSecondFourth<T(!new)>(s: seq<T>, keep: T -> bool)
    requires |s| == 6
    requires keep(s[0]) && keep(s[1]) && !keep(s[2]) && keep(s[3]) && !keep(s[4]) && !keep(s[5])
    ensures Filter(s, keep) == [s[0], s[1], s[3]]
  {
    FilterSuffix(s, keep, 5);
    assert Filter(s[6..], keep) == [];
    FilterSuffix(s, keep, 4);
    FilterSuffix(s, keep, 3);
    FilterSuffix(s, keep, 2);
    FilterSuffix(s, keep, 1);
    FilterSuffix(s, keep, 0);
    assert s[0..] == s;
  }

  /** On the shipped data the totes are products 1, 4 and 6, in that order. */
  lemma ShippedTotes()
    ensures GetProductsByCategory("totes") == [FloralParadiseTote, BotanicalGardenTote, SunsetDreamsMiniTote]
    ensures FloralParadiseTote.id == "1" && BotanicalGardenTote.id == "4" && SunsetDreamsMiniTote.id == "6"
  {
    var s := Products;
    KeepFirstFourthSixth(s, (p: Product) => p.category == "totes");
  }

  /** On the shipped data the featured products are 1, 2 and 4, in that order. */
  lemma ShippedFeatured()
    ensures GetFeaturedProducts() == [FloralParadiseTote, OceanWavesShoulderBag, BotanicalGardenTote]
    ensures FloralParadiseTote.id == "1" && OceanWavesShoulderBag.id == "2" && BotanicalGardenTote.id == "4"
  {
    var s := Products;
    KeepFirstSecondFourth(s, (p: Product) => p.featured);
  }

  /** A category that no product carries yields no products. */
  lemma UnknownCategoryEmpty(category: string)
    requires category !in {"all", "totes", "shoulder", "clutch", "messenger"}
    ensures GetProductsByCategory(category) == []
  {
    CategoryQuery(category);
  }

  /** The category list begins with "all" and its ids are pairwise distinct. */
  lemma CategoriesShape()
    ensures Categories[0].id == "all"
    ensures forall i, j :: 0 <= i < j < |Categories| ==> Categories[i].id != Categories[j].id
  {
  }
}
