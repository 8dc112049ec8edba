/**
  The storefront's domain records. Every field of a product is present except
  `originalPrice`, `features` and `dimensions`, which are `Option`s; prices,
  quantities and review counts are integers, the rating an exact real.
  Timestamps (`addedAt`, `orderDate`, `estimatedDelivery`) are not modelled.
 */
module Types {

  /** An optional value, standing for a field declared with `?`. */
  datatype Option<T> = None | Some(value: T)

  datatype Dimensions = Dimensions(width: int, height: int, depth: int)

  datatype Product = Product(
    id: string,
    name: string,
    price: int,
    originalPrice: Option<int>,
    image: string,
    category: string,
    description: string,
    inStock: bool,
    rating: real,
    reviews: int,
    features: Option<seq<string>>,
    dimensions: Option<Dimensions>)

  /** A cart row: its own `id`, distinct from the id of the product it holds. */
  datatype CartItem = CartItem(id: string, product: Product, quantity: int)

  datatype WishlistItem = WishlistItem(id: string, product: Product)

  /** The five states an order can be in, and no others. */
  datatype OrderStatus = Pending | Processing | Shipped | Delivered | Cancelled

  datatype Address = Address(
    fullName: string,
    street: string,
    city: string,
    state: string,
    zipCode: string,
    country: string,
    phone: string)

  /** An order keeps its own list of cart rows, a snapshot of the cart. */
  datatype Order = Order(
    id: string,
    items: seq<CartItem>,
    total: real,
    status: OrderStatus,
    shippingAddress: Address,
    paymentMethod: string)

  datatype User = User(
    id: string,
    name: string,
    email: string,
    avatar: Option<string>,
    addresses: seq<Address>,
    orders: seq<Order>)

  /** The string literal the source uses for each status. */
  function StatusName(s: OrderStatus): string
  {
    match s
    case Pending => "pending"
    case Processing => "processing"
    case Shipped => "shipped"
    case Delivered => "delivered"
    case Cancelled => "cancelled"
  }

  /** Reads a status literal back; only the five names are accepted. */
  function ParseStatus(t: string): (r: Option<OrderStatus>)
    ensures r.Some? ==> StatusName(r.value) == t
    ensures r.None? ==> forall s: OrderStatus :: StatusName(s) != t
  {
    if t == "pending" then Some(Pending)
    else if t == "processing" then Some(Processing)
    else if t == "shipped" then Some(Shipped)
    else if t == "delivered" then Some(Delivered)
    else if t == "cancelled" then Some(Cancelled)
    else None
  }

  /** Each status has its own literal, and the literal reads back to it. */
  lemma StatusNameRoundTrip(s: OrderStatus, s': OrderStatus)
    ensures ParseStatus(StatusName(s)) == Some(s)
    ensures StatusName(s) == StatusName(s') ==> s == s'
  {
  }
}
