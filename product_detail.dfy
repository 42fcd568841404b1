/**
 * The product page (src/pages/ProductDetailPage.tsx): the product looked up
 * from the route id, the picked image, the quantity selector and the
 * add-to-cart request, and the star row under the title.
 */
module ProductDetail {
  import opened Wrappers
  import opened Types
  import Catalog

  /** What the page renders. */
  datatype PageView =
    | Spinner
    | NotFound
    | Details(product: Product, selectedImage: string, quantity: int, filledStars: int)

  class ProductDetailPage {
    var product: Option<Product>
    var loading: bool
    var selectedImage: string
    var quantity: int

    /** The quantity never drops below one, and a shown product's picked image is one of its own. */
    ghost predicate Valid()
      reads this
    {
      && quantity >= 1
      && (product.Some? ==> selectedImage in product.value.images)
    }

    /** The page mounts with nothing loaded, the spinner showing and a quantity of one. */
    constructor ()
      ensures Valid()
      ensures product == None && loading && selectedImage == "" && quantity == 1
    {
      product := None;
      loading := true;
      selectedImage := "";
      quantity := 1;
    }

    /**
     * The effect run for the route id. An empty id changes nothing (the
     * spinner stays). Otherwise the catalog is searched; a found product is
     * shown with its first image, but a missing one does not clear the
     * product already shown. The quantity is left as it was.
     */
    method Load(id: string)
      requires Valid()
      modifies this`product, this`loading, this`selectedImage
      ensures Valid()
      ensures id == "" ==> product == old(product) && loading == old(loading) && selectedImage == old(selectedImage)
      ensures id != "" ==> !loading
      ensures id != "" && Catalog.GetProductById(id).Some? ==>
        var p := Catalog.GetProductById(id).value;
        product == Some(p) && p.id == id && selectedImage == p.images[0]
      ensures id != "" && Catalog.GetProductById(id).None? ==>
        product == old(product) && selectedImage == old(selectedImage)
    {
      if id != "" {
        var found := Catalog.GetProductById(id);
        if found.Some? {
          Catalog.ProductsHaveImages();
          product := found;
          selectedImage := found.value.images[0];
        }
        loading := false;
      }
    }

    /** A typed quantity is taken only when it parses to a number above zero (`None` is a failed parse). */
    method HandleQuantityChange(parsed: Option<int>)
      requires Valid()
      modifies this`quantity
      ensures Valid()
      ensures parsed.Some? && parsed.value > 0 ==> quantity == parsed.value
      ensures !(parsed.Some? && parsed.value > 0) ==> quantity == old(quantity)
    {
      if parsed.Some? && parsed.value > 0 {
        quantity := parsed.value;
      }
    }

    method IncrementQuantity()
      requires Valid()
      modifies this`quantity
      ensures Valid()
      ensures quantity == old(quantity) + 1
    {
      quantity := quantity + 1;
    }

    method DecrementQuantity()
      requires Valid()
      modifies this`quantity
      ensures Valid()
      ensures old(quantity) > 1 ==> quantity == old(quantity) - 1
      ensures old(quantity) == 1 ==> quantity == 1
    {
      if quantity > 1 {
        quantity := quantity - 1;
      }
    }

    /** A thumbnail click; thumbnails are only drawn for the shown product's images. */
    method SelectImage(image: string)
      requires Valid()
      requires product.Some? && image in product.value.images
      modifies this`selectedImage
      ensures Valid()
      ensures selectedImage == image
    {
      selectedImage := image;
    }

    /** The request the add-to-cart button makes: the shown product at the selected quantity, or none without a product. */
    method HandleAddToCart() returns (call: Option<CartCall>)
      requires Valid()
      ensures call.Some? <==> product.Some?
      ensures call.Some? ==> call.value == AddToCart(product.value, quantity) && call.value.quantity >= 1
    {
      if product.Some? {
        call := Some(AddToCart(product.value, quantity));
      } else {
        call := None;
      }
    }

    /** The spinner while loading, then the not-found panel or the product. */
    function View(): (v: PageView)
      reads this
      ensures v.Spinner? <==> loading
      ensures v.NotFound? <==> !loading && product.None?
      ensures v.Details? ==> v.product == product.value && v.selectedImage == selectedImage && v.quantity == quantity
      ensures v.Details? ==> v.filledStars == FilledStars(product.value.rating)
    {
      if loading then Spinner
      else if product.None? then NotFound
      else Details(product.value, selectedImage, quantity, FilledStars(product.value.rating))
    }
  }

  /** How many of `i` in 0 .. n-1 satisfy `i < bound`. */
  function CountBelow(n: nat, bound: int): (count: nat)
    ensures count <= n
  {
    if n == 0 then 0 else CountBelow(n - 1, bound) + (if n - 1 < bound then 1 else 0)
  }

  /** The count is the bound clamped to 0 .. n. */
  lemma {:induction false} CountBelowClamps(n: nat, bound: int)
    ensures CountBelow(n, bound) == if bound <= 0 then 0 else if bound >= n then n else bound
  {
    if n > 0 {
      CountBelowClamps(n - 1, bound);
    }
  }

  /** Stars drawn filled for a rating in tenths: star `i` of five is filled when `i < floor(rating)`. */
  function FilledStars(rating: int): (stars: nat)
    ensures stars <= 5
  {
    CountBelow(5, rating / 10)
  }

  /** For a rating between 0 and 5 the filled stars are its whole part; outside, the row is clamped. */
  lemma FilledStarsIsFloor(rating: int)
    ensures 0 <= rating <= 50 ==> FilledStars(rating) == rating / 10
    ensures rating < 10 ==> FilledStars(rating) == 0
    ensures rating >= 50 ==> FilledStars(rating) == 5
  {
    CountBelowClamps(5, rating / 10);
  }

  /** The shipped ratings (4.5 to 4.9) each show four filled stars. */
  lemma ShippedProductsShowFourStars(k: nat)
    requires k < |Catalog.Products|
    ensures FilledStars(Catalog.Products[k].rating) == 4
  {
    FilledStarsIsFloor(Catalog.Products[k].rating);
  }

  /**
   * Moving from a known product to an unknown id keeps the earlier product
   * on screen, because the lookup effect only writes a product it found.
   */
  method StaleProductScenario()
  {
    var page := new ProductDetailPage();
    page.Load("1");
    Catalog.LookupEachId(0);
    assert page.product == Some(Catalog.FloralParadiseTote);
    Catalog.LookupUnknownId("99");
    page.Load("99");
    assert page.product == Some(Catalog.FloralParadiseTote) && !page.loading;
    assert page.View().Details?;
  }
}
