/** The storefront's records (types.ts). Prices are integer cents and
    ratings integer tenths of a star; optional fields are `Option`s. */
module Types {

  datatype Option<+T> = None | Some(value: T)

  /** A customer review. `rating` is whatever the form submitted: the
      aggregator does not validate it. */
  datatype Review = Review(
    id: string,
    reviewerName: string,
    rating: int,
    comment: string,
    date: string)

  /** A catalog entry. `rating` is in tenths of a star (4.8 is 48),
      `price` and `originalPrice` are in cents. */
  datatype Product = Product(
    id: string,
    name: string,
    brand: string,
    price: int,
    originalPrice: Option<int>,
    image: string,
    category: string,
    rating: int,
    reviewCount: int,
    isOfficial: Option<bool>,
    description: string,
    badge: Option<string>,
    reviews: Option<seq<Review>>)

  /** A static category tag; only its `slug` takes part in filtering. */
  datatype Category = Category(id: string, name: string, icon: string, slug: string)

  /** A cart line: a snapshot of the product plus its quantity. */
  datatype CartItem = CartItem(product: Product, quantity: int)
  {
    function Id(): string { product.id }
  }

  /** One entry of the recommendation service's answer. */
  datatype Recommendation = Recommendation(productId: string, reason: string)
}
