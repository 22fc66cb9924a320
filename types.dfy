/**
 * The restaurant's entities (orders, tables, menu items, ingredients, staff,
 * customers) and the small wrappers the operations return.
 * Money is in cents, stock and recipe quantities in base units (gr, ml, unit),
 * all as unbounded integers.
 */
module Types {

  datatype Option<T> = None | Some(value: T)

  /** Why an operation refused to run; each one leaves the state unchanged unless its contract says otherwise. */
  datatype Error =
    | OrderNotFound
    | UserNotFound
    | RepartidorNotFound
    | MenuItemNotFound
    | CustomerNotFound
    | TableNotFound
    | NotCancellable
    | LastAdmin
    | CategoryInUse
    | ItemInActiveOrder
    | NotAuthenticated
    | EmptyCart
    | MissingTable
    | MissingCustomer
    | CustomerNotVerified
    | BlankName
    | DuplicateName
    | MissingContact
    | DuplicateEmail
    | DuplicatePhone
    | MissingStreet
    | InvalidPhone
    | InvalidEmail
    | WrongCode
    | ProfileNotCreated

  datatype Result<T> = Ok(value: T) | Err(error: Error)

  datatype Outcome = Done | Fail(error: Error)

  datatype UserRole = SuperAdmin | Admin | Gerente | Mozo | Cocina | Reparto

  datatype DeliveryState = Disponible | EnReparto

  datatype OrderType = Sala | ParaLlevar | Delivery

  datatype OrderStatus =
    | PendientePago
    | Nuevo
    | EnPreparacion
    | Listo
    | EnCamino
    | Entregado
    | Cancelado
    | Incidencia
    | Devolucion

  datatype TableStatus = Libre | Ocupada | NecesitaLimpieza

  datatype Shape = Square | RectangleH | RectangleV

  datatype IngredientCategory = General | Bebida

  datatype PaymentStatus = Pagado | Reembolsado

  datatype PaymentMethod = Efectivo | Tarjeta | MercadoPago | Modo | Qr

  datatype User = User(
    id: string,
    restaurant: string,
    nombre: string,
    email: string,
    rol: UserRole,
    estadoDelivery: Option<DeliveryState>,
    isDeleted: bool)

  datatype MenuCategory = MenuCategory(id: string, restaurant: string, nombre: string, orden: int)

  datatype Ingredient = Ingredient(
    id: string,
    restaurant: string,
    nombre: string,
    stockActual: int,
    stockMinimo: int,
    costeUnitario: int,
    categoria: IngredientCategory)

  datatype RecipeItem = RecipeItem(ingredientId: string, cantidad: int)

  datatype MenuItem = MenuItem(
    id: string,
    restaurant: string,
    categoryId: string,
    nombre: string,
    precioBase: int,
    coste: int,
    receta: seq<RecipeItem>,
    disponible: bool,
    tiempoPreparacionMin: int,
    stockActual: Option<int>,
    permiteVentaSinStock: bool,
    isDeleted: bool)

  datatype Address = Address(calle: string, ciudad: string, codigoPostal: string)

  datatype Customer = Customer(
    id: string,
    restaurant: string,
    nombre: string,
    telefono: string,
    email: string,
    isVerified: bool,
    direccion: Address,
    isDeleted: bool)

  datatype OrderItem = OrderItem(
    id: string,
    menuItemId: string,
    nombreSnapshot: string,
    precioUnitario: int,
    cantidad: int,
    totalItem: int,
    notes: string)

  datatype Payment = Payment(status: PaymentStatus, methodUsed: PaymentMethod, amount: int)

  datatype Table = Table(
    id: int,
    restaurant: string,
    nombre: string,
    estado: TableStatus,
    orderId: Option<int>,
    mozoId: Option<string>,
    x: int,
    y: int,
    shape: Shape)

  datatype Order = Order(
    id: int,
    restaurant: string,
    customerId: Option<string>,
    tableId: Option<int>,
    creadoPorId: string,
    tipo: OrderType,
    estado: OrderStatus,
    subtotal: int,
    descuento: int,
    impuestos: int,
    propina: int,
    total: int,
    items: seq<OrderItem>,
    repartidorId: Option<string>,
    payments: seq<Payment>,
    mozoId: Option<string>)

  /** The caller-supplied part of a new order: everything but id, status, payments and delivery person. */
  datatype OrderDraft = OrderDraft(
    restaurant: string,
    customerId: Option<string>,
    tableId: Option<int>,
    tipo: OrderType,
    subtotal: int,
    descuento: int,
    impuestos: int,
    propina: int,
    total: int,
    items: seq<OrderItem>)

  /** JavaScript truthiness of an optional id string: null and "" are both falsy. */
  predicate Present(s: Option<string>)
  {
    s.Some? && s.value != ""
  }

  /** JavaScript truthiness of an optional numeric id: undefined and 0 are both falsy. */
  predicate PresentId(n: Option<int>)
  {
    n.Some? && n.value != 0
  }

  /** The lookup keys the store and the pages search by (`x => x.id === id`). */
  function OrderIdIs(id: int): Order -> bool { (o: Order) => o.id == id }

  function UserIdIs(id: string): User -> bool { (u: User) => u.id == id }

  function MenuItemIdIs(id: string): MenuItem -> bool { (m: MenuItem) => m.id == id }

  function IngredientIdIs(id: string): Ingredient -> bool { (g: Ingredient) => g.id == id }

  function CustomerIdIs(id: string): Customer -> bool { (c: Customer) => c.id == id }

  function TableIdIs(id: int): Table -> bool { (t: Table) => t.id == id }
}
