/** The rows of the relational store (app/database/models), as values. */
module Models {
  import opened Common

  /** A permission tag held by a user (permissions.go). */
  datatype Permission = Permission(name: string)

  /** A row of the users table (user.go:13-33); the relations live in their own tables. */
  datatype UserRow = UserRow(
    email: string,
    username: string,
    password: string,
    phone: Option<string>,
    isEmailVerified: bool,
    permissions: seq<Permission>)

  /** The two verification kinds the handlers write and look up (verify.go `Type`). */
  const EmailVerifyType := "EMAIL_VERIFY"
  const PasswordResetType := "PASSWORD_RESET"

  /** A row of the verifications table (verify.go:8-18). */
  datatype Verification = Verification(kind: string, token: string, userId: Uuid, expiresAt: Time)

  /** A row of the sessions table (session.go:9-22); its key is the refresh token's `jti`. */
  datatype Session = Session(userId: Uuid, token: string, agent: string, isActive: bool, expiresAt: Time)

  /** A cart line item (cart.go `CartProduct`). */
  datatype CartLine = CartLine(id: Uuid, productId: Uuid, quantity: int)

  /** A user's cart (cart.go `Cart`): its id and its line items in load order. */
  datatype Cart = Cart(id: Uuid, lines: seq<CartLine>)

  /** `OrderStatus` is an `int32` (orders.go:6). */
  newtype OrderStatus = x: int | -0x8000_0000 <= x < 0x8000_0000

  predicate IsInt32(x: int) { -0x8000_0000 <= x < 0x8000_0000 }

  /** The status constants, numbered by `iota` (orders.go:8-13). */
  const Staging: OrderStatus := 0
  const Created: OrderStatus := 1
  const Billed: OrderStatus := 2
  const Delivered: OrderStatus := 3

  /** A product moved from a cart into an order: the product and its quantity. */
  datatype OrderItem = OrderItem(productId: Uuid, quantity: int)

  /** A row of the orders table with the items attached to it (orders.go:15-22). */
  datatype Order = Order(userId: Uuid, status: OrderStatus, items: seq<OrderItem>)

  /** A `float64`, carried as its IEEE-754 bit pattern; the model does no arithmetic on it. */
  datatype Float64 = Float64(bits: bv64)

  /** A category created by name (products.go `Category`). */
  datatype Category = Category(name: string)

  /** A row of the products table (products.go:9-24); `ownerId` is its `UserID`. */
  datatype Product = Product(
    ownerId: Uuid,
    name: string,
    description: string,
    price: Float64,
    stock: int,
    image: Option<string>,
    categories: seq<Category>)

  /** A row of the reviews table (products.go:37-47). */
  datatype Review = Review(productId: Uuid, userId: Uuid, rating: Float64, comment: string)

  /** A row of the favourites table (products.go:49-56). */
  datatype Favourite = Favourite(productId: Uuid, userId: Uuid)
}
