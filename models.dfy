/**
 * Rows of the database tables (backend/models/models.go), reduced to the
 * columns the handlers read or write. Times are Unix seconds; money is
 * an exact `real` amount in KES. Product carries the `IsImported`,
 * `ShippingFee` and `Featured` columns and Review the `ParentID` and
 * `LikesCount` columns that the handlers use.
 */
module Models {
  import opened Wrappers

  type Id = nat

  const RoleCustomer := "customer"   // `gorm:"default:customer"`
  const RoleAdmin := "admin"
  const StatusPending := "pending"   // default of Order.Status and Order.PaymentStatus
  const CurrencyKes := "KES"         // default of Payment.Currency
  const ProductActive := "active"    // default of Product.Status

  datatype User = User(
    id: Id, username: string, email: string, password: string, phone: string,
    firstName: string, lastName: string, role: string, isVerified: bool)

  datatype Product = Product(
    id: Id, name: string, description: string, price: real, category: string,
    brand: string, sku: string, stock: int, status: string, weight: real,
    dimensions: string, tags: string, rating: real, reviewCount: int,
    isImported: bool, shippingFee: real, featured: bool)

  datatype ProductImage = ProductImage(id: Id, productId: Id, url: string, altText: string, isPrimary: bool)

  datatype Address = Address(
    firstName: string, lastName: string, company: string, address1: string, address2: string,
    city: string, state: string, country: string, postalCode: string, phone: string)

  /** The `validate:"required"` fields of an address. */
  predicate AddressComplete(a: Address)
  {
    a.firstName != "" && a.lastName != "" && a.address1 != "" && a.city != "" && a.country != "" && a.phone != ""
  }

  datatype OrderItem = OrderItem(productId: Id, quantity: int, price: real, total: real)

  datatype Order = Order(
    id: Id, userId: Id, orderNumber: string, status: string, paymentStatus: string,
    paymentMethod: string, paymentRef: string, totalAmount: real, shippingAmount: real,
    taxAmount: real, items: seq<OrderItem>, shippingAddress: Address, billingAddress: Address,
    trackingNumber: string, deliveredAt: Option<int>, notes: string)

  datatype Cart = Cart(id: Id, userId: Id)

  datatype CartItem = CartItem(id: Id, cartId: Id, productId: Id, quantity: int)

  /** A review, or a reply when `parentId` is set (replies are stored with rating 0). */
  datatype Review = Review(
    id: Id, userId: Id, productId: Id, rating: int, comment: string,
    isVerified: bool, parentId: Option<Id>, likesCount: int)

  /** One user's like of one review (the row id is not modelled). */
  datatype ReviewLike = ReviewLike(userId: Id, reviewId: Id)

  datatype Otp = Otp(id: Id, phone: string, code: string, purpose: string, expiresAt: int, used: bool)

  /** A payment record of the payment service (`models.Payment`). */
  datatype Payment = Payment(
    id: Id, orderId: Id, paymentMethod: string, amount: real, currency: string,
    status: string, transactionId: string, externalRef: string, phoneNumber: string)

  /**
   * The payment handler's own record type (handlers/payment.go), which GORM
   * maps onto the same `payments` table as `Payment` but with other columns.
   */
  datatype MobilePayment = MobilePayment(
    id: Id, userId: Id, orderId: Id, transactionId: string, provider: string,
    phoneNumber: string, amount: real, status: string, reference: string)

  /** `validate:"min=0"` on Product.Stock, over a whole table. */
  predicate StockNonNegative(products: seq<Product>)
  {
    forall i :: 0 <= i < |products| ==> products[i].stock >= 0
  }
}
