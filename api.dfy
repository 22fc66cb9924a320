/**
 * The mock backend: module-level arrays of orders, users, ingredients,
 * tables, menu items, categories and customers, changed in place by each
 * call. Every method is proved to leave the store exactly as the matching
 * function of `StoreSpec` describes and to return what it returns.
 */
module Api {
  import opened Types
  import opened Seqs
  import opened Stock
  import opened Lifecycle
  import S = StoreSpec

  class Store {
    var orders: seq<Order>
    var users: seq<User>
    var ingredients: seq<Ingredient>
    var tables: seq<Table>
    var menuItems: seq<MenuItem>
    var categories: seq<MenuCategory>
    var customers: seq<Customer>

    /** The whole store as a value. */
    function Snapshot(): S.Db
      reads this
    {
      S.Db(orders, users, ingredients, tables, menuItems, categories, customers)
    }

    /** The store as loaded from its saved or seeded data. */
    constructor (db: S.Db)
      ensures Snapshot() == db
    {
      orders := db.orders;
      users := db.users;
      ingredients := db.ingredients;
      tables := db.tables;
      menuItems := db.menuItems;
      categories := db.categories;
      customers := db.customers;
    }

    /** `users[findIndex(id)].estado_delivery = st` when such a user exists. */
    method SetDeliveryState(id: string, st: DeliveryState)
      modifies this
      ensures Snapshot() == old(Snapshot()).(users := S.SetDeliveryState(old(users), id, st))
    {
      var u := FirstIndex(users, UserIdIs(id));
      if u.Some? {
        users := users[u.value := users[u.value].(estadoDelivery := Some(st))];
      }
    }

    method CreateOrder(d: OrderDraft, creadoPorId: string, mozoId: Option<string>) returns (o: Order)
      modifies this
      ensures Snapshot() == S.CreateOrder(old(Snapshot()), d, creadoPorId, mozoId).db
      ensures Ok(o) == S.CreateOrder(old(Snapshot()), d, creadoPorId, mozoId).res
    {
      o := NewOrder(d, NextOrderId(orders), creadoPorId, mozoId);
      orders := [o] + orders;
    }

    method CreatePublicOrder(d: OrderDraft) returns (o: Order)
      modifies this
      ensures Snapshot() == S.CreatePublicOrder(old(Snapshot()), d).db
      ensures Ok(o) == S.CreatePublicOrder(old(Snapshot()), d).res
    {
      o := NewOrder(d, NextOrderId(orders), S.PortalUser, None);
      orders := [o] + orders;
    }

    method UpdateOrderStatus(id: int, st: OrderStatus) returns (r: Result<Order>)
      modifies this
      ensures Snapshot() == S.UpdateOrderStatus(old(Snapshot()), id, st).db
      ensures r == S.UpdateOrderStatus(old(Snapshot()), id, st).res
    {
      var k := FirstIndex(orders, OrderIdIs(id));
      if k.None? {
        return Err(OrderNotFound);
      }
      var order := orders[k.value].(estado := st);
      orders := orders[k.value := order];
      if order.tipo == Delivery && Present(order.repartidorId) && ReleasesDelivery(st) {
        SetDeliveryState(order.repartidorId.value, Disponible);
      }
      r := Ok(order);
    }

    method CancelOrder(id: int) returns (r: Result<Order>)
      modifies this
      ensures Snapshot() == S.CancelOrder(old(Snapshot()), id).db
      ensures r == S.CancelOrder(old(Snapshot()), id).res
    {
      var k := FirstIndex(orders, OrderIdIs(id));
      if k.None? {
        return Err(OrderNotFound);
      }
      var order := orders[k.value];
      if !Cancellable(order.estado) {
        return Err(NotCancellable);
      }
      ghost var db := Snapshot();
      ghost var ings := if StockDeducted(order.estado) then StockAfter(db.ingredients, order.items, db.menuItems, 1) else db.ingredients;
      if StockDeducted(order.estado) {
        ingredients := AdjustStock(ingredients, order.items, menuItems, 1);
      }
      ghost var us := if Present(order.repartidorId) then S.SetDeliveryState(db.users, order.repartidorId.value, Disponible) else db.users;
      if Present(order.repartidorId) {
        SetDeliveryState(order.repartidorId.value, Disponible);
      }
      assert Snapshot() == db.(users := us, ingredients := ings);
      if PresentId(order.tableId) && order.tipo == Sala {
        ReleaseTableOf(order);
      }
      var cancelled := order.(estado := Cancelado);
      orders := orders[k.value := cancelled];
      r := Ok(cancelled);
    }

    /** The table still bound to a cancelled order needs cleaning and loses the order and its waiter. */
    method ReleaseTableOf(order: Order)
      requires order.tableId.Some?
      modifies this
      ensures Snapshot() == old(Snapshot()).(tables := S.FreeBoundTable(old(tables), order))
    {
      var t := FirstIndex(tables, S.BoundTo(order));
      if t.Some? {
        tables := tables[t.value := S.Released(tables[t.value])];
      }
    }

    method DeductStockForOrder(id: int) returns (r: Result<()>)
      modifies this
      ensures Snapshot() == S.DeductStock(old(Snapshot()), id).db
      ensures r == S.DeductStock(old(Snapshot()), id).res
    {
      var k := FirstIndex(orders, OrderIdIs(id));
      if k.None? {
        return Err(OrderNotFound);
      }
      ingredients := AdjustStock(ingredients, orders[k.value].items, menuItems, -1);
      r := Ok(());
    }

    method AddPaymentToOrder(id: int, m: PaymentMethod, amount: int) returns (r: Result<Order>)
      modifies this
      ensures Snapshot() == S.AddPayment(old(Snapshot()), id, m, amount).db
      ensures r == S.AddPayment(old(Snapshot()), id, m, amount).res
    {
      var k := FirstIndex(orders, OrderIdIs(id));
      if k.None? {
        return Err(OrderNotFound);
      }
      var order := orders[k.value];
      order := order.(payments := order.payments + [Payment(Pagado, m, amount)]);
      if TotalPaid(order.payments) >= order.total && order.estado == PendientePago {
        order := order.(estado := PaidStatus(order.tipo));
      }
      orders := orders[k.value := order];
      r := Ok(order);
    }

    method UpdateOrder(id: int, p: S.OrderPatch) returns (r: Result<Order>)
      modifies this
      ensures Snapshot() == S.UpdateOrder(old(Snapshot()), id, p).db
      ensures r == S.UpdateOrder(old(Snapshot()), id, p).res
    {
      var k := FirstIndex(orders, OrderIdIs(id));
      if k.None? {
        return Err(OrderNotFound);
      }
      var order := S.ApplyPatch(orders[k.value], p);
      orders := orders[k.value := order];
      r := Ok(order);
    }

    method AssignRepartidorToOrder(id: int, repartidorId: string) returns (r: Result<Order>)
      modifies this
      ensures Snapshot() == S.AssignRepartidor(old(Snapshot()), id, repartidorId).db
      ensures r == S.AssignRepartidor(old(Snapshot()), id, repartidorId).res
    {
      var k := FirstIndex(orders, OrderIdIs(id));
      if k.None? {
        return Err(OrderNotFound);
      }
      var order := orders[k.value];
      if Present(order.repartidorId) {
        SetDeliveryState(order.repartidorId.value, Disponible);
      }
      var u := FirstIndex(users, UserIdIs(repartidorId));
      if u.None? {
        return Err(RepartidorNotFound);
      }
      users := users[u.value := users[u.value].(estadoDelivery := Some(EnReparto))];
      order := order.(repartidorId := Some(repartidorId), estado := EnCamino);
      orders := orders[k.value := order];
      r := Ok(order);
    }

    method DeleteUser(id: string) returns (r: Result<()>)
      modifies this
      ensures Snapshot() == S.DeleteUser(old(Snapshot()), id).db
      ensures r == S.DeleteUser(old(Snapshot()), id).res
    {
      var k := FirstIndex(users, UserIdIs(id));
      if k.None? {
        return Err(UserNotFound);
      }
      var u := users[k.value];
      if u.rol == Admin && S.ActiveAdmins(users, u.restaurant) <= 1 {
        return Err(LastAdmin);
      }
      users := users[k.value := u.(isDeleted := true)];
      r := Ok(());
    }

    method DeleteCategory(id: string) returns (r: Result<()>)
      modifies this
      ensures Snapshot() == S.DeleteCategory(old(Snapshot()), id).db
      ensures r == S.DeleteCategory(old(Snapshot()), id).res
    {
      if exists i :: 0 <= i < |menuItems| && menuItems[i].categoryId == id {
        return Err(CategoryInUse);
      }
      categories := Filter(categories, S.CategoryIdIsNot(id));
      r := Ok(());
    }

    method DeleteMenuItem(id: string) returns (r: Result<MenuItem>)
      modifies this
      ensures Snapshot() == S.DeleteMenuItem(old(Snapshot()), id).db
      ensures r == S.DeleteMenuItem(old(Snapshot()), id).res
    {
      if exists i :: 0 <= i < |orders| && S.ActiveForMenu(orders[i].estado) && S.UsesItem(orders[i], id) {
        return Err(ItemInActiveOrder);
      }
      var k := FirstIndex(menuItems, MenuItemIdIs(id));
      if k.None? {
        return Err(MenuItemNotFound);
      }
      var item := menuItems[k.value].(isDeleted := true);
      menuItems := menuItems[k.value := item];
      r := Ok(item);
    }

    method DeleteIngredient(id: string)
      modifies this
      ensures Snapshot() == S.DeleteIngredient(old(Snapshot()), id).db
    {
      ingredients := Filter(ingredients, S.IngredientIdIsNot(id));
      menuItems := MenuWithout(menuItems, id);
    }

    method UpdateCategories(cats: seq<MenuCategory>) returns (r: seq<MenuCategory>)
      modifies this
      ensures Snapshot() == S.UpdateCategories(old(Snapshot()), cats).db
      ensures Ok(r) == S.UpdateCategories(old(Snapshot()), cats).res
    {
      var reordered := S.Renumbered(cats);
      var others := S.Unlisted(categories, reordered);
      categories := others + reordered;
      if |reordered| == 0 {
        return [];
      }
      var rest := reordered[0].restaurant;
      r := SortBy(Filter(categories, S.InRestaurant(rest)), S.Orden);
    }

    method UpdateTable(t: Table) returns (r: Result<Table>)
      modifies this
      ensures Snapshot() == S.UpdateTable(old(Snapshot()), t).db
      ensures r == S.UpdateTable(old(Snapshot()), t).res
    {
      var k := FirstIndex(tables, S.SameTable(t));
      if k.None? {
        return Err(TableNotFound);
      }
      tables := tables[k.value := t];
      r := Ok(t);
    }

    method CreateCustomer(c: Customer) returns (r: Customer)
      modifies this
      ensures Snapshot() == S.CreateCustomer(old(Snapshot()), c).db
      ensures Ok(r) == S.CreateCustomer(old(Snapshot()), c).res
    {
      customers := [c] + customers;
      r := c;
    }

    method VerifyCustomer(id: string) returns (r: Result<Customer>)
      modifies this
      ensures Snapshot() == S.VerifyCustomer(old(Snapshot()), id).db
      ensures r == S.VerifyCustomer(old(Snapshot()), id).res
    {
      var k := FirstIndex(customers, CustomerIdIs(id));
      if k.None? {
        return Err(CustomerNotFound);
      }
      var c := customers[k.value].(isVerified := true);
      customers := customers[k.value := c];
      r := Ok(c);
    }
  }
}
