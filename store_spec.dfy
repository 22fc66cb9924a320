/**
 * The in-memory database of the mock backend as a value, and each backend
 * operation as a function from the database before to the database after
 * plus what the call returns or throws. The `Store` class in module `Api`
 * performs the same operations by assignment and is proved against these.
 */
module StoreSpec {
  import opened Types
  import opened Seqs
  import opened Stock
  import opened Lifecycle

  datatype Db = Db(
    orders: seq<Order>,
    users: seq<User>,
    ingredients: seq<Ingredient>,
    tables: seq<Table>,
    menuItems: seq<MenuItem>,
    categories: seq<MenuCategory>,
    customers: seq<Customer>)

  /** The database after a call, and the call's value or the error it threw. */
  datatype Reply<T> = Reply(db: Db, res: Result<T>)

  /** The creator id the public ordering portal stamps on its orders. */
  const PortalUser := "user-system-portal"

  // ----- invariants -------------------------------------------------------

  /** No two orders share an id. */
  predicate OrderIdsDistinct(orders: seq<Order>)
  {
    forall i, j :: 0 <= i < j < |orders| ==> orders[i].id != orders[j].id
  }

  /** A table is OCUPADA exactly when it is bound to an order. */
  predicate TableConsistent(t: Table)
  {
    t.estado == Ocupada <==> t.orderId.Some?
  }

  predicate TablesConsistent(tables: seq<Table>)
  {
    forall i :: 0 <= i < |tables| ==> TableConsistent(tables[i])
  }

  /** The invariant every modelled operation keeps. */
  predicate Wf(db: Db)
  {
    OrderIdsDistinct(db.orders) && TablesConsistent(db.tables)
  }

  // ----- small record updates ---------------------------------------------

  /** `users[findIndex(u => u.id === id)].estado_delivery = st`, when such a user exists. */
  function SetDeliveryState(users: seq<User>, id: string, st: DeliveryState): (r: seq<User>)
    ensures |r| == |users|
    ensures forall i :: 0 <= i < |users| && users[i].id != id ==> r[i] == users[i]
    ensures forall i :: 0 <= i < |users| ==> r[i].id == users[i].id && r[i].rol == users[i].rol
    ensures FirstIndex(users, UserIdIs(id)).Some? ==> r[FirstIndex(users, UserIdIs(id)).value].estadoDelivery == Some(st)
  {
    match FirstIndex(users, UserIdIs(id))
    case None => users
    case Some(k) => users[k := users[k].(estadoDelivery := Some(st))]
  }

  /** The table state after its order leaves it: needs cleaning, no order, no waiter. */
  function Released(t: Table): (r: Table)
    ensures TableConsistent(r) && r.estado == NecesitaLimpieza
    ensures r.orderId == None && r.mozoId == None
    ensures r.id == t.id && r.restaurant == t.restaurant
  {
    t.(estado := NecesitaLimpieza, orderId := None, mozoId := None)
  }

  /** The users after the order's delivery person, when it names one, is marked DISPONIBLE. */
  function FreeRepartidor(users: seq<User>, o: Order): (r: seq<User>)
    ensures !Present(o.repartidorId) ==> r == users
    ensures Present(o.repartidorId) ==> r == SetDeliveryState(users, o.repartidorId.value, Disponible)
  {
    if Present(o.repartidorId) then SetDeliveryState(users, o.repartidorId.value, Disponible) else users
  }

  /** The table `cancelOrder` looks for: same id as the order's table, bound to this order, same restaurant. */
  function BoundTo(o: Order): Table -> bool
    requires o.tableId.Some?
  {
    (t: Table) => t.id == o.tableId.value && t.orderId == Some(o.id) && t.restaurant == o.restaurant
  }

  /** The key `updateTable` replaces by: id and restaurant. */
  function SameTable(t: Table): Table -> bool
  {
    (x: Table) => x.id == t.id && x.restaurant == t.restaurant
  }

  // ----- orders ------------------------------------------------------------

  /** `createOrder`: the new order goes to the front, with a fresh id and its initial status. */
  function CreateOrder(db: Db, d: OrderDraft, creadoPorId: string, mozoId: Option<string>): (r: Reply<Order>)
    ensures r.res.Ok?
    ensures r.res.value == NewOrder(d, NextOrderId(db.orders), creadoPorId, mozoId)
    ensures r.db == db.(orders := [r.res.value] + db.orders)
    ensures forall i :: 0 <= i < |db.orders| ==> db.orders[i].id < r.res.value.id
    ensures Wf(db) ==> Wf(r.db)
  {
    var o := NewOrder(d, NextOrderId(db.orders), creadoPorId, mozoId);
    Reply(db.(orders := [o] + db.orders), Ok(o))
  }

  /** `createPublicOrder`: a portal order, created by the system user and with no waiter. */
  function CreatePublicOrder(db: Db, d: OrderDraft): (r: Reply<Order>)
    ensures r.res.Ok? && r.res.value.creadoPorId == PortalUser && r.res.value.mozoId == None
    ensures r.res.value.estado == InitialStatus(d.tipo) && r.res.value.payments == []
    ensures r.db.orders == [r.res.value] + db.orders && r.db == db.(orders := r.db.orders)
    ensures r.res.value.customerId == d.customerId && r.res.value.items == d.items
    ensures Wf(db) ==> Wf(r.db)
  {
    CreateOrder(db, d, PortalUser, None)
  }

  /**
   * `updateOrderStatus`: sets any status, with no transition check; a
   * DELIVERY order with a delivery person moving to a releasing status frees them.
   */
  function UpdateOrderStatus(db: Db, id: int, st: OrderStatus): (r: Reply<Order>)
    ensures FirstIndex(db.orders, OrderIdIs(id)).None? <==> r.res == Err(OrderNotFound)
    ensures r.res.Err? ==> r.db == db
    ensures r.res.Err? ==> r.res == Err(OrderNotFound)
    ensures r.res.Ok? ==> r.res.value.estado == st && r.res.value.id == id
    ensures r.res.Ok? ==>
      var k := FirstIndex(db.orders, OrderIdIs(id)).value;
      var o := db.orders[k];
      && r.res.value == o.(estado := st)
      && r.db.orders == db.orders[k := r.res.value]
      && r.db.users ==
        (if o.tipo == Delivery && Present(o.repartidorId) && ReleasesDelivery(st)
         then SetDeliveryState(db.users, o.repartidorId.value, Disponible)
         else db.users)
    ensures r.db == db.(orders := r.db.orders, users := r.db.users)
    ensures Wf(db) ==> Wf(r.db)
  {
    match FirstIndex(db.orders, OrderIdIs(id))
    case None => Reply(db, Err(OrderNotFound))
    case Some(k) =>
      var o := db.orders[k].(estado := st);
      var users :=
        if o.tipo == Delivery && Present(o.repartidorId) && ReleasesDelivery(st)
        then SetDeliveryState(db.users, o.repartidorId.value, Disponible)
        else db.users;
      Reply(db.(orders := db.orders[k := o], users := users), Ok(o))
  }

  /** The order at `k` replaced by one with the same id keeps the ids distinct. */
  lemma ReplaceKeepsIdsDistinct(orders: seq<Order>, k: int, o: Order)
    requires 0 <= k < |orders| && o.id == orders[k].id
    requires OrderIdsDistinct(orders)
    ensures OrderIdsDistinct(orders[k := o])
  {
  }

  /** `tables[findIndex(bound to o)]` released, as `cancelOrder` does for a SALA order. */
  function FreeBoundTable(tables: seq<Table>, o: Order): (r: seq<Table>)
    requires o.tableId.Some?
    ensures |r| == |tables|
    ensures forall i :: 0 <= i < |tables| && tables[i].orderId != Some(o.id) ==> r[i] == tables[i]
    ensures FirstIndex(tables, BoundTo(o)).None? ==> r == tables
    ensures FirstIndex(tables, BoundTo(o)).Some? ==>
      var k := FirstIndex(tables, BoundTo(o)).value;
      r == tables[k := Released(tables[k])]
    ensures TablesConsistent(tables) ==> TablesConsistent(r)
  {
    match FirstIndex(tables, BoundTo(o))
    case None => tables
    case Some(k) => tables[k := Released(tables[k])]
  }

  /**
   * `cancelOrder`: refuses unknown and non-cancellable orders without any
   * change; otherwise gives back the stock if it had been taken, frees the
   * delivery person, releases a SALA order's table and sets CANCELADO.
   */
  function CancelOrder(db: Db, id: int): (r: Reply<Order>)
    ensures FirstIndex(db.orders, OrderIdIs(id)).None? <==> r.res == Err(OrderNotFound)
    ensures r.res == Err(NotCancellable) <==>
      FirstIndex(db.orders, OrderIdIs(id)).Some? && !Cancellable(db.orders[FirstIndex(db.orders, OrderIdIs(id)).value].estado)
    ensures r.res.Err? ==> r.db == db
    ensures r.res.Err? ==> r.res == Err(OrderNotFound) || r.res == Err(NotCancellable)
    ensures r.res.Ok? ==> r.res.value.estado == Cancelado
    ensures r.res.Ok? && !StockDeducted(db.orders[FirstIndex(db.orders, OrderIdIs(id)).value].estado) ==>
      r.db.ingredients == db.ingredients
    ensures r.res.Ok? ==>
      var k := FirstIndex(db.orders, OrderIdIs(id)).value;
      var o := db.orders[k];
      && r.res.value == o.(estado := Cancelado)
      && r.db.orders == db.orders[k := r.res.value]
      && r.db.ingredients ==
        (if StockDeducted(o.estado) then StockAfter(db.ingredients, o.items, db.menuItems, 1) else db.ingredients)
      && r.db.users == FreeRepartidor(db.users, o)
      && r.db.tables == (if PresentId(o.tableId) && o.tipo == Sala then FreeBoundTable(db.tables, o) else db.tables)
    ensures r.db.menuItems == db.menuItems && r.db.categories == db.categories && r.db.customers == db.customers
    ensures Wf(db) ==> Wf(r.db)
  {
    match FirstIndex(db.orders, OrderIdIs(id))
    case None => Reply(db, Err(OrderNotFound))
    case Some(k) =>
      var o := db.orders[k];
      if !Cancellable(o.estado) then Reply(db, Err(NotCancellable))
      else
        var ings := if StockDeducted(o.estado) then StockAfter(db.ingredients, o.items, db.menuItems, 1) else db.ingredients;
        var users := FreeRepartidor(db.users, o);
        var tables := if PresentId(o.tableId) && o.tipo == Sala then FreeBoundTable(db.tables, o) else db.tables;
        var cancelled := o.(estado := Cancelado);
        Reply(db.(orders := db.orders[k := cancelled], users := users, ingredients := ings, tables := tables), Ok(cancelled))
  }

  /** `deductStockForOrder`: takes the order's whole recipe need out of stock, with no lower bound. */
  function DeductStock(db: Db, id: int): (r: Reply<()>)
    ensures FirstIndex(db.orders, OrderIdIs(id)).None? <==> r.res == Err(OrderNotFound)
    ensures r.res.Err? ==> r.db == db
    ensures r.res.Err? ==> r.res == Err(OrderNotFound)
    ensures r.res.Ok? ==> r.db == db.(ingredients := StockAfter(db.ingredients,
      db.orders[FirstIndex(db.orders, OrderIdIs(id)).value].items, db.menuItems, -1))
    ensures Wf(db) ==> Wf(r.db)
  {
    match FirstIndex(db.orders, OrderIdIs(id))
    case None => Reply(db, Err(OrderNotFound))
    case Some(k) => Reply(db.(ingredients := StockAfter(db.ingredients, db.orders[k].items, db.menuItems, -1)), Ok(()))
  }

  /** `addPaymentToOrder`: one more PAGADO payment, and the status step of `WithPayment`. */
  function AddPayment(db: Db, id: int, m: PaymentMethod, amount: int): (r: Reply<Order>)
    ensures FirstIndex(db.orders, OrderIdIs(id)).None? <==> r.res == Err(OrderNotFound)
    ensures r.res.Err? ==> r.db == db
    ensures r.res.Err? ==> r.res == Err(OrderNotFound)
    ensures r.res.Ok? ==>
      var k := FirstIndex(db.orders, OrderIdIs(id)).value;
      r.res.value == WithPayment(db.orders[k], m, amount) && r.db == db.(orders := db.orders[k := r.res.value])
    ensures Wf(db) ==> Wf(r.db)
  {
    match FirstIndex(db.orders, OrderIdIs(id))
    case None => Reply(db, Err(OrderNotFound))
    case Some(k) =>
      var o := WithPayment(db.orders[k], m, amount);
      Reply(db.(orders := db.orders[k := o]), Ok(o))
  }

  /** The fields an `updateOrder` call may carry; `None` means the key is absent from the patch. */
  datatype OrderPatch = OrderPatch(
    customerId: Option<Option<string>>,
    tipo: Option<OrderType>,
    subtotal: Option<int>,
    descuento: Option<int>,
    impuestos: Option<int>,
    propina: Option<int>,
    total: Option<int>,
    items: Option<seq<OrderItem>>,
    mozoId: Option<Option<string>>)

  function Pick<T>(patch: Option<T>, current: T): T
  {
    if patch.Some? then patch.value else current
  }

  /** `{ ...order, ...patch }`: the keys present in the patch win, and the id is never part of it. */
  function ApplyPatch(o: Order, p: OrderPatch): (r: Order)
    ensures r.id == o.id && r.estado == o.estado && r.payments == o.payments && r.tableId == o.tableId
    ensures r.tipo == Pick(p.tipo, o.tipo) && r.customerId == Pick(p.customerId, o.customerId)
    ensures r.mozoId == Pick(p.mozoId, o.mozoId) && r.total == Pick(p.total, o.total)
  {
    o.(customerId := Pick(p.customerId, o.customerId), tipo := Pick(p.tipo, o.tipo),
       subtotal := Pick(p.subtotal, o.subtotal), descuento := Pick(p.descuento, o.descuento),
       impuestos := Pick(p.impuestos, o.impuestos), propina := Pick(p.propina, o.propina),
       total := Pick(p.total, o.total), items := Pick(p.items, o.items), mozoId := Pick(p.mozoId, o.mozoId))
  }

  /** A patch that only sets the waiter, as `assignMozoToOrder` sends. */
  function MozoPatch(mozoId: Option<string>): OrderPatch
  {
    OrderPatch(None, None, None, None, None, None, None, None, Some(mozoId))
  }

  /** `updateOrder`: merges the patch into the first order with the id. */
  function UpdateOrder(db: Db, id: int, p: OrderPatch): (r: Reply<Order>)
    ensures FirstIndex(db.orders, OrderIdIs(id)).None? <==> r.res == Err(OrderNotFound)
    ensures r.res.Err? ==> r.db == db
    ensures r.res.Err? ==> r.res == Err(OrderNotFound)
    ensures r.res.Ok? ==>
      var k := FirstIndex(db.orders, OrderIdIs(id)).value;
      r.res.value == ApplyPatch(db.orders[k], p) && r.db == db.(orders := db.orders[k := r.res.value])
    ensures Wf(db) ==> Wf(r.db)
  {
    match FirstIndex(db.orders, OrderIdIs(id))
    case None => Reply(db, Err(OrderNotFound))
    case Some(k) =>
      var o := ApplyPatch(db.orders[k], p);
      Reply(db.(orders := db.orders[k := o]), Ok(o))
  }

  /**
   * `assignRepartidorToOrder`: frees the previous delivery person, then looks
   * the new one up; an unknown new one throws with the previous one already
   * freed. No availability check is made.
   */
  function AssignRepartidor(db: Db, id: int, repartidorId: string): (r: Reply<Order>)
    ensures FirstIndex(db.orders, OrderIdIs(id)).None? ==> r == Reply(db, Err(OrderNotFound))
    ensures r.res == Err(RepartidorNotFound) ==> r.db.orders == db.orders
    ensures r.res.Err? ==> r.res == Err(OrderNotFound) || r.res == Err(RepartidorNotFound)
    ensures FirstIndex(db.orders, OrderIdIs(id)).Some? && FirstIndex(db.users, UserIdIs(repartidorId)).Some? ==> r.res.Ok?
    ensures r.res.Ok? ==> r.res.value.repartidorId == Some(repartidorId) && r.res.value.estado == EnCamino
    ensures r.res.Ok? ==>
      (exists u :: 0 <= u < |r.db.users| && r.db.users[u].id == repartidorId && r.db.users[u].estadoDelivery == Some(EnReparto))
    ensures FirstIndex(db.orders, OrderIdIs(id)).Some? ==>
      var k := FirstIndex(db.orders, OrderIdIs(id)).value;
      var o := db.orders[k];
      var freed := FreeRepartidor(db.users, o);
      && (r.res == Err(RepartidorNotFound) <==> FirstIndex(db.users, UserIdIs(repartidorId)).None?)
      && (r.res == Err(RepartidorNotFound) ==> r.db == db.(users := freed))
      && (r.res.Ok? ==>
            var u := FirstIndex(db.users, UserIdIs(repartidorId)).value;
            && r.res.value == o.(repartidorId := Some(repartidorId), estado := EnCamino)
            && r.db == db.(orders := db.orders[k := r.res.value], users := freed[u := freed[u].(estadoDelivery := Some(EnReparto))]))
    ensures r.db.ingredients == db.ingredients && r.db.tables == db.tables
    ensures Wf(db) ==> Wf(r.db)
  {
    match FirstIndex(db.orders, OrderIdIs(id))
    case None => Reply(db, Err(OrderNotFound))
    case Some(k) =>
      var o := db.orders[k];
      var users := FreeRepartidor(db.users, o);
      SameIdsSameFirst(db.users, users, repartidorId);
      var u := FirstIndex(users, UserIdIs(repartidorId));
      if u.None? then Reply(db.(users := users), Err(RepartidorNotFound))
      else
        var onTheWay := o.(repartidorId := Some(repartidorId), estado := EnCamino);
        var busy := users[u.value := users[u.value].(estadoDelivery := Some(EnReparto))];
        assert busy[u.value].id == repartidorId;
        Reply(db.(orders := db.orders[k := onTheWay], users := busy), Ok(onTheWay))
  }

  /** Two user lists with the same ids position by position find a given id at the same place. */
  lemma SameIdsSameFirst(a: seq<User>, b: seq<User>, id: string)
    requires |a| == |b| && forall i :: 0 <= i < |a| ==> a[i].id == b[i].id
    ensures FirstIndex(a, UserIdIs(id)) == FirstIndex(b, UserIdIs(id))
  {
    match FirstIndex(a, UserIdIs(id))
    case None =>
    case Some(k) => FirstIndexIs(b, UserIdIs(id), k);
  }

  // ----- staff ---------------------------------------------------------------

  /** Whether `u` counts towards restaurant `rest`'s active administrators. */
  predicate ActiveAdminOf(u: User, rest: string)
  {
    u.rol == Admin && !u.isDeleted && u.restaurant == rest
  }

  /** `users.filter(u => u.rol === ADMIN && !u.is_deleted && u.restaurant_id === rest).length`. */
  function ActiveAdmins(users: seq<User>, rest: string): nat
  {
    if |users| == 0 then 0
    else ActiveAdmins(users[..|users| - 1], rest) + (if ActiveAdminOf(users[|users| - 1], rest) then 1 else 0)
  }

  /** Replacing one user changes each restaurant's admin count by what that one user contributed. */
  lemma {:induction false} ActiveAdminsUpdate(users: seq<User>, k: int, u: User, rest: string)
    requires 0 <= k < |users|
    ensures ActiveAdmins(users[k := u], rest) ==
      ActiveAdmins(users, rest) - (if ActiveAdminOf(users[k], rest) then 1 else 0) + (if ActiveAdminOf(u, rest) then 1 else 0)
  {
    var n := |users|;
    if k < n - 1 {
      ActiveAdminsUpdate(users[..n - 1], k, u, rest);
      assert users[k := u][..n - 1] == users[..n - 1][k := u];
    } else {
      assert users[k := u][..n - 1] == users[..n - 1];
    }
  }

  /** `deleteUser`: a soft delete, refused for an unknown user and for the last active admin of the user's restaurant. */
  function DeleteUser(db: Db, id: string): (r: Reply<()>)
    ensures FirstIndex(db.users, UserIdIs(id)).None? <==> r.res == Err(UserNotFound)
    ensures r.res.Err? ==> r.db == db
    ensures r.res.Ok? ==>
      var k := FirstIndex(db.users, UserIdIs(id)).value;
      r.db == db.(users := db.users[k := db.users[k].(isDeleted := true)])
    ensures r.res == Err(LastAdmin) <==>
      && FirstIndex(db.users, UserIdIs(id)).Some?
      && var u := db.users[FirstIndex(db.users, UserIdIs(id)).value];
         u.rol == Admin && ActiveAdmins(db.users, u.restaurant) <= 1
    ensures r.res.Err? ==> r.res == Err(UserNotFound) || r.res == Err(LastAdmin)
    ensures Wf(db) ==> Wf(r.db)
  {
    match FirstIndex(db.users, UserIdIs(id))
    case None => Reply(db, Err(UserNotFound))
    case Some(k) =>
      var u := db.users[k];
      if u.rol == Admin && ActiveAdmins(db.users, u.restaurant) <= 1 then Reply(db, Err(LastAdmin))
      else Reply(db.(users := db.users[k := u.(isDeleted := true)]), Ok(()))
  }

  /** No restaurant that has an active administrator loses its last one through `deleteUser`. */
  lemma DeleteUserKeepsAnAdmin(db: Db, id: string, rest: string)
    requires ActiveAdmins(db.users, rest) >= 1
    ensures ActiveAdmins(DeleteUser(db, id).db.users, rest) >= 1
  {
    var k := FirstIndex(db.users, UserIdIs(id));
    if k.Some? {
      var u := db.users[k.value];
      ActiveAdminsUpdate(db.users, k.value, u.(isDeleted := true), rest);
      if ActiveAdminOf(u, rest) {
        assert u.restaurant == rest;
      }
    }
  }

  // ----- menu --------------------------------------------------------------

  /** `deleteCategory`: refused while any menu item, deleted or not, still points at it; no not-found error. */
  function DeleteCategory(db: Db, id: string): (r: Reply<()>)
    ensures r.res == Err(CategoryInUse) <==> exists i :: 0 <= i < |db.menuItems| && db.menuItems[i].categoryId == id
    ensures r.res.Err? ==> r.res == Err(CategoryInUse) && r.db == db
    ensures r.res.Ok? ==> r.db == db.(categories := Filter(db.categories, CategoryIdIsNot(id)))
    ensures r.res.Ok? ==> forall i :: 0 <= i < |r.db.categories| ==> r.db.categories[i].id != id
    ensures r.res.Ok? ==> forall i :: 0 <= i < |db.categories| && db.categories[i].id != id ==>
      db.categories[i] in r.db.categories
    ensures Wf(db) ==> Wf(r.db)
  {
    if exists i :: 0 <= i < |db.menuItems| && db.menuItems[i].categoryId == id then Reply(db, Err(CategoryInUse))
    else Reply(db.(categories := Filter(db.categories, CategoryIdIsNot(id))), Ok(()))
  }

  /** Keeps every category but the one with the id. */
  function CategoryIdIsNot(id: string): MenuCategory -> bool
  {
    (c: MenuCategory) => c.id != id
  }

  /** The statuses in which an order still needs its menu items. */
  predicate ActiveForMenu(s: OrderStatus)
  {
    s in {Nuevo, EnPreparacion, Listo, EnCamino}
  }

  predicate UsesItem(o: Order, itemId: string)
  {
    exists j :: 0 <= j < |o.items| && o.items[j].menuItemId == itemId
  }

  /** `deleteMenuItem`: refused while an active order contains the item (checked before the lookup); otherwise a soft delete. */
  function DeleteMenuItem(db: Db, id: string): (r: Reply<MenuItem>)
    ensures r.res == Err(ItemInActiveOrder) <==>
      exists i :: 0 <= i < |db.orders| && ActiveForMenu(db.orders[i].estado) && UsesItem(db.orders[i], id)
    ensures r.res == Err(MenuItemNotFound) <==>
      (forall i :: 0 <= i < |db.orders| ==> !(ActiveForMenu(db.orders[i].estado) && UsesItem(db.orders[i], id)))
      && FirstIndex(db.menuItems, MenuItemIdIs(id)).None?
    ensures r.res.Err? ==> r.res == Err(ItemInActiveOrder) || r.res == Err(MenuItemNotFound)
    ensures r.res.Err? ==> r.db == db
    ensures r.res.Ok? ==> r.res.value.isDeleted && r.res.value.id == id
    ensures r.res.Ok? ==>
      var k := FirstIndex(db.menuItems, MenuItemIdIs(id)).value;
      && r.res.value == db.menuItems[k].(isDeleted := true)
      && r.db == db.(menuItems := db.menuItems[k := r.res.value])
    ensures Wf(db) ==> Wf(r.db)
  {
    if exists i :: 0 <= i < |db.orders| && ActiveForMenu(db.orders[i].estado) && UsesItem(db.orders[i], id) then
      Reply(db, Err(ItemInActiveOrder))
    else match FirstIndex(db.menuItems, MenuItemIdIs(id))
      case None => Reply(db, Err(MenuItemNotFound))
      case Some(k) =>
        var m := db.menuItems[k].(isDeleted := true);
        Reply(db.(menuItems := db.menuItems[k := m]), Ok(m))
  }

  /** Keeps every ingredient but the one with the id. */
  function IngredientIdIsNot(id: string): Ingredient -> bool
  {
    (g: Ingredient) => g.id != id
  }

  /** `deleteIngredient`: drops the ingredient and strips it from every recipe. */
  function DeleteIngredient(db: Db, id: string): (r: Reply<()>)
    ensures r.res.Ok?
    ensures forall i :: 0 <= i < |r.db.ingredients| ==> r.db.ingredients[i].id != id
    ensures forall i :: 0 <= i < |db.ingredients| && db.ingredients[i].id != id ==> db.ingredients[i] in r.db.ingredients
    ensures r.db.ingredients == Filter(db.ingredients, IngredientIdIsNot(id))
    ensures r.db.menuItems == MenuWithout(db.menuItems, id)
    ensures r.db == db.(ingredients := r.db.ingredients, menuItems := r.db.menuItems)
  {
    Reply(db.(ingredients := Filter(db.ingredients, IngredientIdIsNot(id)),
              menuItems := MenuWithout(db.menuItems, id)), Ok(()))
  }

  /** After `deleteIngredient`, no order's stock movement touches that ingredient any more. */
  lemma DeleteIngredientClearsNeed(db: Db, id: string, items: seq<OrderItem>)
    ensures Need(items, DeleteIngredient(db, id).db.menuItems, id) == 0
  {
    NeedAfterDelete(items, db.menuItems, id, id);
  }

  /** The categories in the order given, with `orden` renumbered 1, 2, 3, ... */
  function Renumbered(cats: seq<MenuCategory>): (r: seq<MenuCategory>)
    ensures |r| == |cats|
    ensures forall i :: 0 <= i < |cats| ==> r[i] == cats[i].(orden := i + 1)
  {
    seq(|cats|, i requires 0 <= i < |cats| => cats[i].(orden := i + 1))
  }

  predicate HasId(cats: seq<MenuCategory>, id: string)
  {
    exists i :: 0 <= i < |cats| && cats[i].id == id
  }

  lemma RenumberedKeepsIds(cats: seq<MenuCategory>)
    ensures forall id :: HasId(Renumbered(cats), id) <==> HasId(cats, id)
  {
    var r := Renumbered(cats);
    forall id | HasId(cats, id) ensures HasId(r, id) {
      var i :| 0 <= i < |cats| && cats[i].id == id;
      assert r[i].id == id;
    }
  }

  /** The `filter` of `updateCategories`: the categories whose id the renumbered list does not carry, in order. */
  function Unlisted(current: seq<MenuCategory>, reordered: seq<MenuCategory>): (r: seq<MenuCategory>)
    ensures |r| <= |current|
  {
    if |current| == 0 then []
    else if HasId(reordered, current[0].id) then Unlisted(current[1..], reordered)
    else [current[0]] + Unlisted(current[1..], reordered)
  }

  lemma {:induction false} UnlistedOnly(current: seq<MenuCategory>, reordered: seq<MenuCategory>)
    ensures forall i :: 0 <= i < |Unlisted(current, reordered)| ==> !HasId(reordered, Unlisted(current, reordered)[i].id)
  {
    if |current| > 0 {
      UnlistedOnly(current[1..], reordered);
    }
  }

  lemma {:induction false} UnlistedKeeps(current: seq<MenuCategory>, reordered: seq<MenuCategory>)
    ensures forall i :: 0 <= i < |current| && !HasId(reordered, current[i].id) ==> current[i] in Unlisted(current, reordered)
  {
    if |current| > 0 {
      UnlistedKeeps(current[1..], reordered);
      forall i | 1 <= i < |current| && !HasId(reordered, current[i].id) ensures current[i] in Unlisted(current, reordered) {
        assert current[i] == current[1..][i - 1];
      }
    }
  }

  /** The stored list of `updateCategories`: the untouched categories first, then the renumbered ones. */
  function Stored(current: seq<MenuCategory>, cats: seq<MenuCategory>): seq<MenuCategory>
  {
    Unlisted(current, Renumbered(cats)) + Renumbered(cats)
  }

  /** The stored list ends with the given categories, renumbered in their order. */
  lemma StoredEndsRenumbered(current: seq<MenuCategory>, cats: seq<MenuCategory>)
    ensures |Stored(current, cats)| >= |cats|
    ensures Stored(current, cats)[|Stored(current, cats)| - |cats|..] == Renumbered(cats)
  {
    var others := Unlisted(current, Renumbered(cats));
    assert (others + Renumbered(cats))[|others|..] == Renumbered(cats);
  }

  /** No category in front of the renumbered ones carries an id from the list. */
  lemma StoredOthersUnlisted(current: seq<MenuCategory>, cats: seq<MenuCategory>)
    ensures forall i :: 0 <= i < |Stored(current, cats)| - |cats| ==> !HasId(cats, Stored(current, cats)[i].id)
  {
    var reordered := Renumbered(cats);
    var others := Unlisted(current, reordered);
    var all := others + reordered;
    UnlistedOnly(current, reordered);
    forall i | 0 <= i < |all| - |cats| ensures !HasId(cats, all[i].id) {
      assert all[i] == others[i];
      forall k | 0 <= k < |cats| ensures cats[k].id != others[i].id {
        assert reordered[k].id == cats[k].id;
      }
    }
  }

  /** Every category whose id is not in the list is still stored. */
  lemma StoredKeepsUnlisted(current: seq<MenuCategory>, cats: seq<MenuCategory>)
    ensures forall i :: 0 <= i < |current| && !HasId(cats, current[i].id) ==> current[i] in Stored(current, cats)
  {
    var reordered := Renumbered(cats);
    var others := Unlisted(current, reordered);
    RenumberedKeepsIds(cats);
    UnlistedKeeps(current, reordered);
    forall i | 0 <= i < |current| && !HasId(cats, current[i].id) ensures current[i] in others + reordered {
      assert current[i] in others;
    }
  }

  /** The sort key of the category list. */
  function Orden(c: MenuCategory): int
  {
    c.orden
  }

  /** Keeps the categories of one restaurant. */
  function InRestaurant(rest: string): MenuCategory -> bool
  {
    (c: MenuCategory) => c.restaurant == rest
  }

  /**
   * `updateCategories`: the given list is renumbered and stored after every
   * other category; the reply is the first category's restaurant sorted by
   * `orden` (nothing when the list is empty).
   */
  function UpdateCategories(db: Db, cats: seq<MenuCategory>): (r: Reply<seq<MenuCategory>>)
    ensures r.res.Ok?
    ensures r.db == db.(categories := r.db.categories)
    ensures |r.db.categories| >= |cats|
    ensures r.db.categories[|r.db.categories| - |cats|..] == Renumbered(cats)
    ensures forall i :: 0 <= i < |r.db.categories| - |cats| ==> !HasId(cats, r.db.categories[i].id)
    ensures forall i :: 0 <= i < |db.categories| && !HasId(cats, db.categories[i].id) ==> db.categories[i] in r.db.categories
    ensures SortedBy(r.res.value, Orden)
    ensures |cats| == 0 ==> r.res.value == []
    ensures |cats| > 0 ==> multiset(r.res.value) == multiset(Filter(r.db.categories, InRestaurant(cats[0].restaurant)))
  {
    var all := Stored(db.categories, cats);
    StoredEndsRenumbered(db.categories, cats);
    StoredOthersUnlisted(db.categories, cats);
    StoredKeepsUnlisted(db.categories, cats);
    Reply(db.(categories := all), Ok(CategoryReply(all, Renumbered(cats))))
  }

  /** The reply of `updateCategories`: the first category's restaurant, sorted by `orden`. */
  function CategoryReply(all: seq<MenuCategory>, reordered: seq<MenuCategory>): (r: seq<MenuCategory>)
    ensures SortedBy(r, Orden)
    ensures |reordered| == 0 ==> r == []
    ensures |reordered| > 0 ==> multiset(r) == multiset(Filter(all, InRestaurant(reordered[0].restaurant)))
  {
    if |reordered| == 0 then []
    else SortBy(Filter(all, InRestaurant(reordered[0].restaurant)), Orden)
  }

  // ----- tables and customers ------------------------------------------------

  /** `updateTable`: replaces the first table with the same id and restaurant. */
  function UpdateTable(db: Db, t: Table): (r: Reply<Table>)
    ensures FirstIndex(db.tables, SameTable(t)).None? <==> r.res == Err(TableNotFound)
    ensures r.res.Err? ==> r.res == Err(TableNotFound) && r.db == db
    ensures r.res.Ok? ==>
      r.res.value == t && r.db == db.(tables := db.tables[FirstIndex(db.tables, SameTable(t)).value := t])
    ensures Wf(db) && TableConsistent(t) ==> Wf(r.db)
  {
    match FirstIndex(db.tables, SameTable(t))
    case None => Reply(db, Err(TableNotFound))
    case Some(k) => Reply(db.(tables := db.tables[k := t]), Ok(t))
  }

  /**
   * `createCustomer`: puts the new customer in front of the list; `c` already
   * holds the time-stamped id and the unverified, undeleted flags.
   */
  function CreateCustomer(db: Db, c: Customer): (r: Reply<Customer>)
    ensures r.res == Ok(c) && r.db == db.(customers := [c] + db.customers)
    ensures FirstIndex(r.db.customers, CustomerIdIs(c.id)) == Some(0)
    ensures Wf(db) ==> Wf(r.db)
  {
    Reply(db.(customers := [c] + db.customers), Ok(c))
  }

  /** `verifyCustomer`: marks the first customer with the id verified. */
  function VerifyCustomer(db: Db, id: string): (r: Reply<Customer>)
    ensures FirstIndex(db.customers, CustomerIdIs(id)).None? <==> r.res == Err(CustomerNotFound)
    ensures r.res.Err? ==> r.res == Err(CustomerNotFound) && r.db == db
    ensures r.res.Ok? ==> r.res.value.isVerified && r.res.value.id == id
    ensures r.res.Ok? ==> r.res.value == db.customers[FirstIndex(db.customers, CustomerIdIs(id)).value].(isVerified := true)
    ensures r.res.Ok? ==> r.db == db.(customers := db.customers[FirstIndex(db.customers, CustomerIdIs(id)).value := r.res.value])
  {
    match FirstIndex(db.customers, CustomerIdIs(id))
    case None => Reply(db, Err(CustomerNotFound))
    case Some(k) =>
      var c := db.customers[k].(isVerified := true);
      Reply(db.(customers := db.customers[k := c]), Ok(c))
  }

  // ----- properties across operations ------------------------------------------

  /**
   * Stock conservation: taking an order's stock out and then cancelling it
   * from a status with stock out puts every ingredient back where it was.
   */
  lemma DeductThenCancelRestoresStock(db: Db, id: int)
    requires FirstIndex(db.orders, OrderIdIs(id)).Some?
    requires StockDeducted(db.orders[FirstIndex(db.orders, OrderIdIs(id)).value].estado)
    ensures CancelOrder(DeductStock(db, id).db, id).db.ingredients == db.ingredients
  {
    var k := FirstIndex(db.orders, OrderIdIs(id)).value;
    var o := db.orders[k];
    StockRoundTrip(db.ingredients, o.items, db.menuItems);
  }

  /** Cancelling from NUEVO or PENDIENTE_PAGO leaves the stock alone even though the cancel succeeds. */
  lemma CancelBeforeKitchenKeepsStock(db: Db, id: int)
    requires FirstIndex(db.orders, OrderIdIs(id)).Some?
    requires db.orders[FirstIndex(db.orders, OrderIdIs(id)).value].estado in {Nuevo, PendientePago}
    ensures CancelOrder(db, id).res.Ok?
    ensures CancelOrder(db, id).db.ingredients == db.ingredients
  {
  }

  /** A created order's id is new, so looking it up finds the new order itself. */
  lemma CreatedOrderIsFound(db: Db, d: OrderDraft, creadoPorId: string, mozoId: Option<string>)
    ensures var r := CreateOrder(db, d, creadoPorId, mozoId);
      FirstIndex(r.db.orders, OrderIdIs(r.res.value.id)) == Some(0)
  {
  }
}
