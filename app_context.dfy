/**
 * The application context: the sequences of store calls each screen action
 * triggers. Each flow is a function from the store before to the store after
 * (and what the caller sees), and a method over `Api.Store` runs the same
 * calls in order. Errors the context catches and only reports leave the
 * store as the failing call left it.
 */
module Context {
  import opened Types
  import opened Seqs
  import opened Stock
  import opened Lifecycle
  import S = StoreSpec
  import Api

  // ----- status changes and the stock they take ------------------------------

  /** The status of the order the screen held before the call (`orders.find(...)?.estado`). */
  function PriorStatus(db: S.Db, id: int): (r: Option<OrderStatus>)
    ensures r.None? <==> FirstIndex(db.orders, OrderIdIs(id)).None?
  {
    match FirstIndex(db.orders, OrderIdIs(id))
    case None => None
    case Some(k) => Some(db.orders[k].estado)
  }

  /** Stock is taken only on a move into EN_PREPARACION from any other status. */
  predicate Deducts(prior: Option<OrderStatus>, st: OrderStatus)
  {
    prior != Some(EnPreparacion) && st == EnPreparacion
  }

  /** A replaced order with the same id is still the first one with that id. */
  lemma ReplacedStillFirst(orders: seq<Order>, id: int, k: nat, o: Order)
    requires FirstIndex(orders, OrderIdIs(id)) == Some(k) && o.id == id
    ensures FirstIndex(orders[k := o], OrderIdIs(id)) == Some(k)
  {
    FirstIndexIs(orders[k := o], OrderIdIs(id), k);
  }

  /**
   * The context's `updateOrderStatus`: the store call, then the whole recipe
   * need of the order taken out of stock when `Deducts` holds.
   */
  function UpdateOrderStatusFlow(db: S.Db, id: int, st: OrderStatus): (r: S.Reply<Order>)
    ensures r.res == S.UpdateOrderStatus(db, id, st).res
    ensures r.res.Err? ==> r.db == db
    ensures !Deducts(PriorStatus(db, id), st) ==> r.db == S.UpdateOrderStatus(db, id, st).db
    ensures r.res.Ok? ==>
      var k := FirstIndex(db.orders, OrderIdIs(id)).value;
      && FirstIndex(r.db.orders, OrderIdIs(id)) == Some(k)
      && r.db.orders == db.orders[k := db.orders[k].(estado := st)]
      && r.db.menuItems == db.menuItems
      && r.db.ingredients ==
        (if Deducts(PriorStatus(db, id), st) then StockAfter(db.ingredients, db.orders[k].items, db.menuItems, -1)
         else db.ingredients)
    ensures r.db == S.UpdateOrderStatus(db, id, st).db.(ingredients := r.db.ingredients)
    ensures S.Wf(db) ==> S.Wf(r.db)
  {
    var u := S.UpdateOrderStatus(db, id, st);
    if u.res.Err? then u
    else
      var k := FirstIndex(db.orders, OrderIdIs(id)).value;
      ReplacedStillFirst(db.orders, id, k, u.res.value);
      if !Deducts(PriorStatus(db, id), st) then u
      else S.Reply(S.DeductStock(u.db, id).db, u.res)
  }

  /** Setting EN_PREPARACION a second time takes no more stock: the first call took it once, the second none. */
  lemma EnteringPreparationTwiceDeductsOnce(db: S.Db, id: int)
    requires FirstIndex(db.orders, OrderIdIs(id)).Some?
    ensures var once := UpdateOrderStatusFlow(db, id, EnPreparacion).db;
      UpdateOrderStatusFlow(once, id, EnPreparacion).db.ingredients == once.ingredients
  {
  }

  /**
   * The guard only looks at the previous status, so an order sent back from
   * LISTO to EN_PREPARACION has its recipe need taken out a second time.
   */
  lemma ReentryDeductsAgain(db: S.Db, id: int)
    requires FirstIndex(db.orders, OrderIdIs(id)).Some?
    requires PriorStatus(db, id) != Some(EnPreparacion)
    ensures var k := FirstIndex(db.orders, OrderIdIs(id)).value;
      var a := UpdateOrderStatusFlow(db, id, EnPreparacion).db;
      var b := UpdateOrderStatusFlow(a, id, Listo).db;
      var c := UpdateOrderStatusFlow(b, id, EnPreparacion).db;
      c.ingredients == StockAfter(StockAfter(db.ingredients, db.orders[k].items, db.menuItems, -1),
                                  db.orders[k].items, db.menuItems, -1)
  {
  }

  /** Sending an order to the kitchen and then cancelling it gives every ingredient back. */
  lemma PrepareThenCancelRestoresStock(db: S.Db, id: int)
    requires FirstIndex(db.orders, OrderIdIs(id)).Some?
    requires PriorStatus(db, id) != Some(EnPreparacion)
    ensures S.CancelOrder(UpdateOrderStatusFlow(db, id, EnPreparacion).db, id).res.Ok?
    ensures S.CancelOrder(UpdateOrderStatusFlow(db, id, EnPreparacion).db, id).db.ingredients == db.ingredients
  {
    var k := FirstIndex(db.orders, OrderIdIs(id)).value;
    StockRoundTrip(db.ingredients, db.orders[k].items, db.menuItems);
  }

  // ----- creating an order and binding its table ------------------------------

  /** The order's own waiter: the creator, when the order is SALA and the creator is a MOZO. */
  function MozoFor(user: User, tipo: OrderType): (m: Option<string>)
    ensures m.Some? <==> tipo == Sala && user.rol == Mozo
    ensures m.Some? ==> m.value == user.id
  {
    if tipo == Sala && user.rol == Mozo then Some(user.id) else None
  }

  /** A table taken by an order: OCUPADA, bound to it, served by `mozo`. */
  function Occupied(t: Table, orderId: int, mozo: string): (r: Table)
    ensures S.TableConsistent(r) && r.orderId == Some(orderId) && r.mozoId == Some(mozo)
    ensures r == t.(estado := r.estado, orderId := r.orderId, mozoId := r.mozoId)
  {
    t.(estado := Ocupada, orderId := Some(orderId), mozoId := Some(mozo))
  }

  /** `updateTable` on a copy of the first table with id `tid` replaces that very table. */
  lemma UpdateHitsFirstWithId(tables: seq<Table>, tid: int, t: nat, x: Table)
    requires FirstIndex(tables, TableIdIs(tid)) == Some(t)
    requires x.id == tid && x.restaurant == tables[t].restaurant
    ensures FirstIndex(tables, S.SameTable(x)) == Some(t)
  {
    FirstIndexIs(tables, S.SameTable(x), t);
  }

  /**
   * The context's `createOrder`: refused without a signed-in user; otherwise
   * the store call, then, for a SALA order with a table, that table bound to
   * the new order with the creator as its waiter (a failed table write is
   * only reported).
   */
  function CreateOrderFlow(db: S.Db, user: Option<User>, d: OrderDraft): (r: S.Reply<Order>)
    ensures user.None? <==> r.res == Err(NotAuthenticated)
    ensures user.None? ==> r.db == db
    ensures user.Some? ==> r.res == S.CreateOrder(db, d, user.value.id, MozoFor(user.value, d.tipo)).res
    ensures user.Some? ==> r.db.orders == [r.res.value] + db.orders && |r.db.tables| == |db.tables|
    ensures user.Some? ==> r.db == S.CreateOrder(db, d, user.value.id, MozoFor(user.value, d.tipo)).db.(tables := r.db.tables)
    ensures !(d.tipo == Sala && PresentId(d.tableId)) ==> r.db.tables == db.tables
    ensures S.Wf(db) ==> S.Wf(r.db)
  {
    if user.None? then S.Reply(db, Err(NotAuthenticated))
    else
      var u := user.value;
      var c := S.CreateOrder(db, d, u.id, MozoFor(u, d.tipo));
      var o := c.res.value;
      if o.tipo == Sala && PresentId(o.tableId) then
        match FirstIndex(db.tables, TableIdIs(o.tableId.value))
        case None => c
        case Some(t) => S.Reply(S.UpdateTable(c.db, Occupied(db.tables[t], o.id, u.id)).db, c.res)
      else c
  }

  /**
   * Creating a SALA order for a table binds the first table with that id to
   * the new order, with the creator as waiter, and touches no other table.
   */
  lemma CreateOrderBindsTable(db: S.Db, u: User, d: OrderDraft, t: nat)
    requires d.tipo == Sala && PresentId(d.tableId)
    requires FirstIndex(db.tables, TableIdIs(d.tableId.value)) == Some(t)
    ensures var r := CreateOrderFlow(db, Some(u), d);
      r.db.tables == db.tables[t := Occupied(db.tables[t], r.res.value.id, u.id)]
      && r.db.tables[t].estado == Ocupada
  {
    var o := S.CreateOrder(db, d, u.id, MozoFor(u, d.tipo)).res.value;
    UpdateHitsFirstWithId(db.tables, d.tableId.value, t, Occupied(db.tables[t], o.id, u.id));
  }

  // ----- payments and the table they release ----------------------------------

  /** The table a payment looks at, as written: the first table with the order's table id, whatever it is bound to. */
  function PaidTableAsWritten(tables: seq<Table>, o: Order): (r: Option<nat>)
    ensures r.Some? ==> r.value < |tables| && forall j :: 0 <= j < r.value ==> tables[j].id != tables[r.value].id
    ensures r.Some? ==> PresentId(o.tableId) && tables[r.value].id == o.tableId.value
    ensures r.None? <==> !PresentId(o.tableId) || forall j :: 0 <= j < |tables| ==> tables[j].id != o.tableId.value
  {
    if PresentId(o.tableId) then FirstIndex(tables, TableIdIs(o.tableId.value)) else None
  }

  /** The table a payment should release: that same table, but only while it is still bound to this order. */
  function PaidTable(tables: seq<Table>, o: Order): (r: Option<nat>)
    ensures r.Some? ==> r.value < |tables| && tables[r.value].orderId == Some(o.id)
    ensures r.Some? ==> r == PaidTableAsWritten(tables, o)
    ensures r.Some? <==>
      PaidTableAsWritten(tables, o).Some? && tables[PaidTableAsWritten(tables, o).value].orderId == Some(o.id)
  {
    match PaidTableAsWritten(tables, o)
    case Some(t) => if tables[t].orderId == Some(o.id) then Some(t) else None
    case None => None
  }

  /** After a payment on `o` that leaves `paid` fully paid, a SALA order's table (index `t`) needs cleaning. */
  function SettleTable(db: S.Db, o: Order, paid: Order, t: Option<nat>): (r: S.Db)
    requires t.Some? ==> t.value < |db.tables| && forall j :: 0 <= j < t.value ==> db.tables[j].id != db.tables[t.value].id
    ensures |r.tables| == |db.tables| && r == db.(tables := r.tables)
    ensures forall i :: 0 <= i < |db.tables| && t != Some(i) ==> r.tables[i] == db.tables[i]
    ensures o.tipo == Sala && PresentId(o.tableId) && TotalPaid(paid.payments) >= paid.total && t.Some? ==>
      r.tables[t.value] == S.Released(db.tables[t.value])
    ensures !(o.tipo == Sala && PresentId(o.tableId) && TotalPaid(paid.payments) >= paid.total && t.Some?) ==> r == db
    ensures S.Wf(db) ==> S.Wf(r)
  {
    if o.tipo == Sala && PresentId(o.tableId) && TotalPaid(paid.payments) >= paid.total && t.Some? then
      FirstIndexIs(db.tables, S.SameTable(S.Released(db.tables[t.value])), t.value);
      S.UpdateTable(db, S.Released(db.tables[t.value])).db
    else db
  }

  /** The context's `addPaymentToOrder` as the source has it: the release ignores which order holds the table. */
  function AddPaymentFlowAsWritten(db: S.Db, id: int, m: PaymentMethod, amount: int): (r: S.Reply<Order>)
    ensures r.res == S.AddPayment(db, id, m, amount).res
    ensures r.res.Err? ==> r.db == db
    ensures r.db == S.AddPayment(db, id, m, amount).db.(tables := r.db.tables) && |r.db.tables| == |db.tables|
    ensures r.res.Ok? ==>
      var o := db.orders[FirstIndex(db.orders, OrderIdIs(id)).value];
      var t := PaidTableAsWritten(db.tables, o);
      && (forall i :: 0 <= i < |db.tables| && t != Some(i) ==> r.db.tables[i] == db.tables[i])
      && (o.tipo == Sala && TotalPaid(r.res.value.payments) >= r.res.value.total && t.Some? ==>
            r.db.tables[t.value] == S.Released(db.tables[t.value]))
  {
    var p := S.AddPayment(db, id, m, amount);
    if p.res.Err? then p
    else
      var o := db.orders[FirstIndex(db.orders, OrderIdIs(id)).value];
      S.Reply(SettleTable(p.db, o, p.res.value, PaidTableAsWritten(db.tables, o)), p.res)
  }

  /**
   * The context's `addPaymentToOrder`, releasing the table only while it is
   * still bound to the order being paid.
   */
  function AddPaymentFlow(db: S.Db, id: int, m: PaymentMethod, amount: int): (r: S.Reply<Order>)
    ensures r.res == S.AddPayment(db, id, m, amount).res
    ensures r.res.Err? ==> r.db == db
    ensures r.db == S.AddPayment(db, id, m, amount).db.(tables := r.db.tables)
    ensures r.db.ingredients == db.ingredients && r.db.users == db.users && |r.db.tables| == |db.tables|
    ensures r.res.Ok? ==>
      var o := db.orders[FirstIndex(db.orders, OrderIdIs(id)).value];
      var t := PaidTable(db.tables, o);
      && (forall i :: 0 <= i < |db.tables| && t != Some(i) ==> r.db.tables[i] == db.tables[i])
      && (o.tipo == Sala && TotalPaid(r.res.value.payments) >= r.res.value.total && t.Some? ==>
            r.db.tables[t.value] == S.Released(db.tables[t.value]))
    ensures forall i :: 0 <= i < |db.tables| && db.tables[i].orderId != Some(id) ==> r.db.tables[i] == db.tables[i]
    ensures S.Wf(db) ==> S.Wf(r.db)
  {
    var p := S.AddPayment(db, id, m, amount);
    if p.res.Err? then p
    else
      var o := db.orders[FirstIndex(db.orders, OrderIdIs(id)).value];
      S.Reply(SettleTable(p.db, o, p.res.value, PaidTable(db.tables, o)), p.res)
  }

  /** A payment that completes a SALA order still holding its table leaves that table needing cleaning. */
  lemma PaymentReleasesOwnTable(db: S.Db, id: int, m: PaymentMethod, amount: int)
    requires FirstIndex(db.orders, OrderIdIs(id)).Some?
    requires var o := db.orders[FirstIndex(db.orders, OrderIdIs(id)).value];
      o.tipo == Sala && PresentId(o.tableId) && TotalPaid(o.payments) + amount >= o.total
      && PaidTable(db.tables, o).Some?
    ensures var o := db.orders[FirstIndex(db.orders, OrderIdIs(id)).value];
      var t := PaidTable(db.tables, o).value;
      AddPaymentFlow(db, id, m, amount).db.tables[t] == S.Released(db.tables[t])
  {
    var k := FirstIndex(db.orders, OrderIdIs(id)).value;
    var o := db.orders[k];
    var t := PaidTable(db.tables, o).value;
    var p := S.AddPayment(db, id, m, amount);
    assert p.res == Ok(WithPayment(o, m, amount)) && p.db.tables == db.tables;
    assert TotalPaid(p.res.value.payments) >= p.res.value.total;
    UpdateHitsFirstWithId(db.tables, o.tableId.value, t, S.Released(db.tables[t]));
    assert SettleTable(p.db, o, p.res.value, Some(t)) == S.UpdateTable(p.db, S.Released(db.tables[t])).db;
  }

  /** The store of the counterexample: order 1 is paid in full, and its old table 5 now holds order 2. */
  function TableReuseExample(): S.Db
  {
    var paid := Order(1, "r", None, Some(5), "u", Sala, Entregado, 100, 0, 0, 0, 100, [], None,
                      [Payment(Pagado, Efectivo, 100)], None);
    var next := Order(2, "r", None, Some(5), "u", Sala, Nuevo, 50, 0, 0, 0, 50, [], None, [], None);
    var table := Table(5, "r", "Mesa 5", Ocupada, Some(2), Some("u"), 10, 10, Square);
    S.Db([next, paid], [], [], [table], [], [], [])
  }

  /**
   * As written, one more payment on order 1 (a late tip) releases table 5
   * although order 2 is seated there; the corrected flow leaves it alone.
   */
  lemma LatePaymentReleasesOtherOrdersTable()
    ensures var db := TableReuseExample();
      db.tables[0].orderId == Some(2)
      && AddPaymentFlowAsWritten(db, 1, Efectivo, 10).db.tables[0].orderId == None
      && AddPaymentFlowAsWritten(db, 1, Efectivo, 10).db.tables[0].estado == NecesitaLimpieza
      && AddPaymentFlow(db, 1, Efectivo, 10).db.tables == db.tables
  {
    var db := TableReuseExample();
    var o := db.orders[1];
    assert FirstIndex(db.orders, OrderIdIs(1)) == Some(1);
    assert TotalPaid(o.payments + [Payment(Pagado, Efectivo, 10)]) == 110;
    assert PaidTableAsWritten(db.tables, o) == Some(0);
    assert FirstIndex(db.tables, S.SameTable(S.Released(db.tables[0]))) == Some(0);
  }

  // ----- editing an order ------------------------------------------------------

  /** The patch switches the order to DELIVERY and names a customer (a truthy `customer_id`). */
  predicate GateApplies(p: S.OrderPatch)
  {
    p.tipo == Some(Delivery) && p.customerId.Some? && Present(p.customerId.value)
  }

  /** `customers.find(c => c.id === id)?.is_verified`. */
  predicate VerifiedCustomer(customers: seq<Customer>, id: string)
  {
    match FirstIndex(customers, CustomerIdIs(id))
    case None => false
    case Some(k) => customers[k].isVerified
  }

  /** The context's `updateOrder`: a switch to DELIVERY naming an unverified or unknown customer is refused before any write. */
  function UpdateOrderFlow(db: S.Db, id: int, p: S.OrderPatch): (r: S.Reply<Order>)
    ensures r.res == Err(CustomerNotVerified) <==>
      GateApplies(p) && !VerifiedCustomer(db.customers, p.customerId.value.value)
    ensures r.res == Err(CustomerNotVerified) ==> r.db == db
    ensures r.res != Err(CustomerNotVerified) ==> r == S.UpdateOrder(db, id, p)
    ensures r.res.Ok? && GateApplies(p) ==> VerifiedCustomer(db.customers, p.customerId.value.value)
    ensures S.Wf(db) ==> S.Wf(r.db)
  {
    if GateApplies(p) && !VerifiedCustomer(db.customers, p.customerId.value.value) then
      S.Reply(db, Err(CustomerNotVerified))
    else S.UpdateOrder(db, id, p)
  }

  // ----- cleaning a table -------------------------------------------------------

  /** The context's `cleanTable`: the first table with the id becomes LIBRE with no order and no waiter. */
  function CleanTableFlow(db: S.Db, tableId: int): (r: S.Db)
    ensures FirstIndex(db.tables, TableIdIs(tableId)).None? ==> r == db
    ensures |r.tables| == |db.tables|
    ensures FirstIndex(db.tables, TableIdIs(tableId)).Some? ==>
      var t := FirstIndex(db.tables, TableIdIs(tableId)).value;
      r == db.(tables := db.tables[t := r.tables[t]])
      && r.tables[t].estado == Libre && r.tables[t].orderId == None && r.tables[t].mozoId == None
      && r.tables[t] == db.tables[t].(estado := Libre, orderId := None, mozoId := None)
    ensures S.Wf(db) ==> S.Wf(r)
  {
    match FirstIndex(db.tables, TableIdIs(tableId))
    case None => db
    case Some(t) =>
      var clean := db.tables[t].(estado := Libre, orderId := None, mozoId := None);
      UpdateHitsFirstWithId(db.tables, tableId, t, clean);
      S.UpdateTable(db, clean).db
  }

  /** Paying off a table's order and then cleaning the table brings it back to LIBRE and unbound. */
  lemma PayThenCleanFreesTable(db: S.Db, id: int, m: PaymentMethod, amount: int)
    requires FirstIndex(db.orders, OrderIdIs(id)).Some?
    requires var o := db.orders[FirstIndex(db.orders, OrderIdIs(id)).value];
      o.tipo == Sala && PresentId(o.tableId) && TotalPaid(o.payments) + amount >= o.total
      && PaidTable(db.tables, o).Some?
    ensures var o := db.orders[FirstIndex(db.orders, OrderIdIs(id)).value];
      var after := CleanTableFlow(AddPaymentFlow(db, id, m, amount).db, o.tableId.value);
      var t := PaidTable(db.tables, o).value;
      after.tables[t].estado == Libre && after.tables[t].orderId == None && after.tables[t].mozoId == None
  {
    var o := db.orders[FirstIndex(db.orders, OrderIdIs(id)).value];
    var t := PaidTable(db.tables, o).value;
    PaymentReleasesOwnTable(db, id, m, amount);
    var paid := AddPaymentFlow(db, id, m, amount).db;
    assert forall j :: 0 <= j < |paid.tables| ==> paid.tables[j].id == db.tables[j].id;
    FirstIndexIs(paid.tables, TableIdIs(o.tableId.value), t);
  }

  // ----- the same flows run against the store ----------------------------------

  method UpdateOrderStatus(s: Api.Store, id: int, st: OrderStatus) returns (r: Result<Order>)
    modifies s
    ensures s.Snapshot() == UpdateOrderStatusFlow(old(s.Snapshot()), id, st).db
    ensures r == UpdateOrderStatusFlow(old(s.Snapshot()), id, st).res
  {
    var k := FirstIndex(s.orders, OrderIdIs(id));
    var prior := if k.Some? then Some(s.orders[k.value].estado) else None;
    ghost var before := s.Snapshot();
    r := s.UpdateOrderStatus(id, st);
    if r.Err? {
      return;
    }
    if prior != Some(EnPreparacion) && st == EnPreparacion {
      ReplacedStillFirst(before.orders, id, k.value, r.value);
      var _ := s.DeductStockForOrder(id);
    }
  }

  method CreateOrder(s: Api.Store, user: Option<User>, d: OrderDraft) returns (r: Result<Order>)
    modifies s
    ensures s.Snapshot() == CreateOrderFlow(old(s.Snapshot()), user, d).db
    ensures r == CreateOrderFlow(old(s.Snapshot()), user, d).res
  {
    if user.None? {
      return Err(NotAuthenticated);
    }
    var u := user.value;
    var mozo := if d.tipo == Sala && u.rol == Mozo then Some(u.id) else None;
    var tables := s.tables;
    var o := s.CreateOrder(d, u.id, mozo);
    if o.tipo == Sala && PresentId(o.tableId) {
      var t := FirstIndex(tables, TableIdIs(o.tableId.value));
      if t.Some? {
        var _ := s.UpdateTable(tables[t.value].(estado := Ocupada, orderId := Some(o.id), mozoId := Some(u.id)));
      }
    }
    r := Ok(o);
  }

  method AddPaymentToOrder(s: Api.Store, id: int, m: PaymentMethod, amount: int) returns (r: Result<Order>)
    modifies s
    ensures s.Snapshot() == AddPaymentFlow(old(s.Snapshot()), id, m, amount).db
    ensures r == AddPaymentFlow(old(s.Snapshot()), id, m, amount).res
  {
    var k := FirstIndex(s.orders, OrderIdIs(id));
    var orders := s.orders;
    var tables := s.tables;
    r := s.AddPaymentToOrder(id, m, amount);
    if r.Err? {
      return;
    }
    var original := orders[k.value];
    if original.tipo == Sala && PresentId(original.tableId) && TotalPaid(r.value.payments) >= r.value.total {
      var t := FirstIndex(tables, TableIdIs(original.tableId.value));
      if t.Some? && tables[t.value].orderId == Some(original.id) {
        var _ := s.UpdateTable(tables[t.value].(estado := NecesitaLimpieza, orderId := None, mozoId := None));
      }
    }
  }

  method UpdateOrder(s: Api.Store, id: int, p: S.OrderPatch) returns (r: Result<Order>)
    modifies s
    ensures s.Snapshot() == UpdateOrderFlow(old(s.Snapshot()), id, p).db
    ensures r == UpdateOrderFlow(old(s.Snapshot()), id, p).res
  {
    if p.tipo == Some(Delivery) && p.customerId.Some? && Present(p.customerId.value) {
      var c := FirstIndex(s.customers, CustomerIdIs(p.customerId.value.value));
      if c.None? || !s.customers[c.value].isVerified {
        return Err(CustomerNotVerified);
      }
    }
    r := s.UpdateOrder(id, p);
  }

  method CleanTable(s: Api.Store, tableId: int)
    modifies s
    ensures s.Snapshot() == CleanTableFlow(old(s.Snapshot()), tableId)
  {
    var t := FirstIndex(s.tables, TableIdIs(tableId));
    if t.Some? {
      var _ := s.UpdateTable(s.tables[t.value].(estado := Libre, orderId := None, mozoId := None));
    }
  }
}
