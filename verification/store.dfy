/** The records the storefront pages read from the client-side store, and the
    store actions they dispatch. The reducers and thunks that act on these
    actions are not part of this model: an `Action` here is only the event a
    page emits, with its payload. */
module Store {
  import opened Wrappers

  type ProductId = string
  type UserId = string
  type ReviewId = string

  /** The price block of a cart line; the cart reads every field without a guard. */
  datatype Price = Price(mrp: int, cost: int, discountPercent: int)

  /** One entry of `currentUser.cartDetails`: a product snapshot and how many units are in the cart. */
  datatype CartItem = CartItem(
    id: ProductId,
    productName: string,
    productImage: string,
    price: Price,
    quantity: int)

  /** A review as the product pages show it; `reviewerId` is `review.reviewer._id`. */
  datatype Review = Review(
    id: ReviewId,
    reviewerId: UserId,
    reviewerName: string,
    rating: int,
    comment: string)

  /** The price block of a product's details, where any field may be missing. */
  datatype ListedPrice = ListedPrice(mrp: Option<int>, cost: Option<int>, discountPercent: Option<int>)

  /** `productDetails` as loaded from the backend: every field may be missing. */
  datatype Product = Product(
    productName: Option<string>,
    price: Option<ListedPrice>,
    subcategory: Option<string>,
    productImage: Option<string>,
    category: Option<string>,
    description: Option<string>,
    tagline: Option<string>,
    reviews: Option<seq<Review>>)

  /** `currentUser`: its id, display name and (possibly missing) cart. */
  datatype User = User(id: UserId, name: string, cartDetails: Option<seq<CartItem>>)

  /** `currentRole`: `null`, or the role string of the signed-in session. */
  datatype Role = NoRole | Named(name: string)

  const CUSTOMER: string := "Customer"

  predicate IsCustomer(role: Role)
  {
    role == Named(CUSTOMER)
  }

  /** A price field of the seller's edit form: `''` or an amount. */
  datatype PriceInput = Blank | Amount(amount: int)

  datatype PriceFields = PriceFields(mrp: PriceInput, cost: PriceInput, discountPercent: PriceInput)

  /** The `fields` payloads the pages send with `updateStuff`. */
  datatype Fields =
    | ReviewFields(rating: Option<int>, comment: string, reviewer: Option<UserId>)
    | ReviewRef(reviewId: ReviewId)
    | ProductFields(
        productName: string,
        price: PriceFields,
        subcategory: string,
        productImage: string,
        category: string,
        description: string,
        tagline: string)

  /** The store actions dispatched by the modelled pages, as opaque events. */
  datatype Action =
    // `addToCart` with the two payloads the pages pass: a cart line from the
    // drawer, or the product details from a product page.
    | AddToCart(item: CartItem)
    | AddProductToCart(product: Product)
    | RemoveFromCart(item: CartItem)
    | RemoveAllFromCart
    | UnderControl
    | GetProductDetails(productId: ProductId)
    | UpdateStuff(fields: Fields, productId: ProductId, address: string)
    | DeleteStuff(productId: ProductId, address: string)

  /** The request both product pages send to delete one review: only its id travels. */
  function DeleteReviewRequest(productId: ProductId, reviewId: ReviewId): Action
  {
    UpdateStuff(ReviewRef(reviewId), productId, "deleteProductReview")
  }
}
