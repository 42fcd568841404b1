/**
 * The storefront's records (src/types/index.ts).
 *
 * Money is held in integer cents and ratings in integer tenths, so that the
 * 75.00 free-shipping threshold, the 7.99 fee and a rating such as 4.8 are exact.
 */
module Types {

  datatype Product = Product(
    id: string,
    name: string,
    price: int,          // cents
    description: string,
    images: seq<string>,
    category: string,
    featured: bool,
    inStock: bool,
    rating: int          // tenths of a star
  )

  datatype CartItem = CartItem(product: Product, quantity: int)

  datatype User = User(id: string, name: string, email: string)

  /**
   * A request handed to the cart engine. The engine itself (its merging,
   * removal and totals) is not part of this model: only the requests the
   * pages make are.
   */
  datatype CartCall =
    | AddToCart(product: Product, quantity: int)
    | UpdateQuantity(productId: string, quantity: int)
    | RemoveFromCart(productId: string)
}
