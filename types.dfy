/**
 * The storefront's entities (src/types/index.ts). Prices are decimals and are
 * modelled as `real`; a `Date` is modelled as an integer timestamp.
 */
module Types {

  datatype Option<+T> = None | Some(value: T)

  /** `'user' | 'admin'` */
  datatype Role = UserRole | AdminRole

  datatype User = User(
    id: string,
    email: string,
    displayName: Option<string>,
    photoURL: Option<string>,
    role: Role,
    createdAt: int)

  /** A missing `category` field reads as the empty string. */
  datatype Product = Product(
    id: string,
    name: string,
    description: string,
    price: real,
    compareAtPrice: Option<real>,
    images: seq<string>,
    category: string,
    featured: bool,
    inStock: bool,
    rating: Option<real>,
    reviewCount: Option<int>,
    createdAt: int)

  /**
   * A cart line. `image` is `product.images[0]` at add time, which is
   * `undefined` (here `None`) for a product without images.
   */
  datatype CartLine = CartLine(
    id: string,
    productId: string,
    name: string,
    price: real,
    image: Option<string>,
    quantity: int)

  /** The closed five-value order status. */
  datatype OrderStatus = Pending | Processing | Shipped | Delivered | Cancelled

  datatype ShippingAddress = ShippingAddress(
    name: string,
    street: string,
    city: string,
    state: string,
    postalCode: string,
    country: string)

  datatype Order = Order(
    id: string,
    userId: string,
    items: seq<CartLine>,
    total: real,
    status: OrderStatus,
    shippingAddress: ShippingAddress,
    paymentIntentId: string,
    createdAt: int)

  /** A file picked in the admin product form; only its name is observable here. */
  datatype ImageFile = ImageFile(name: string)
}
