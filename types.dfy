/** The business entities the modelled code handles (types.ts). Money is held as an
    integer number of cents; identifiers and free text are strings. */
module Types {
  import opened Wrappers

  /** The permission keys a user can hold. */
  datatype Permission = FINANCE | INVENTORY | PRODUCTS | ORDERS | POS | SETTINGS | REPORTS | CLIENTS | TEAM

  /** The profile role shown in the user list ('Administrador', 'Gerente', ...). */
  datatype UserRole = ADMIN | MANAGER | SELLER | CASHIER

  /** Order status; COMPLETED is the value 'CONCLUÍDO'. */
  datatype OrderStatus = PENDING | COMPLETED | CANCELLED | DRAFT

  datatype User = User(
    id: string,
    name: string,
    email: string,
    role: UserRole,
    active: bool,
    permissions: seq<Permission>)

  /** A product row. The stock figures are numbers; a null `stock` or `min_stock` from
      the backend is passed as 0, which is how JavaScript's `<` and `<=` read null. */
  datatype Product = Product(
    id: string,
    name: string,
    sku: string,
    price: int,
    stock: int,
    minStock: int,
    category: string,
    imageUrl: string)

  datatype OrderItem = OrderItem(
    productId: string,
    name: string,
    quantity: int,
    unitPrice: int,
    discount: int,
    totalPrice: int)

  /** The `Partial<Order>` the point of sale and the order form hand to the data layer. */
  datatype OrderDraft = OrderDraft(
    clientId: Option<string>,
    totalAmount: int,
    status: OrderStatus,
    salesperson: string,
    paymentMethod: string)
}
