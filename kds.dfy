/**
 * The kitchen display: three columns of orders by status, a drop that moves
 * an order to another column, a click that sends a ready order on, and the
 * preparation time shown on each card.
 */
module Kds {
  import opened Types
  import opened Seqs
  import opened Lifecycle
  import S = StoreSpec
  import Api
  import Context

  /** The kitchen's columns, left to right. */
  const Columns: seq<OrderStatus> := [Nuevo, EnPreparacion, Listo]

  function EstadoIs(st: OrderStatus): Order -> bool
  {
    (o: Order) => o.estado == st
  }

  function OrderKey(o: Order): int
  {
    o.id
  }

  /** The cards of column `st`: the orders in that status, by ascending id. */
  function Column(orders: seq<Order>, st: OrderStatus): (r: seq<Order>)
    ensures forall o :: o in r <==> o in orders && o.estado == st
    ensures SortedBy(r, OrderKey)
    ensures multiset(r) == multiset(Filter(orders, EstadoIs(st)))
  {
    var f := Filter(orders, EstadoIs(st));
    var r := SortBy(f, OrderKey);
    assert forall o :: o in r <==> o in multiset(f);
    r
  }

  /** An order shows in at most one column, and in one exactly when it waits, cooks or is ready. */
  lemma ColumnsPartition(orders: seq<Order>, o: Order)
    requires o in orders
    ensures o in Column(orders, Nuevo) || o in Column(orders, EnPreparacion) || o in Column(orders, Listo)
      <==> o.estado in Columns
    ensures forall st :: o in Column(orders, st) ==> st == o.estado
  {
    var n, p, l := Column(orders, Nuevo), Column(orders, EnPreparacion), Column(orders, Listo);
    assert o in n <==> o.estado == Nuevo;
    assert o in p <==> o.estado == EnPreparacion;
    assert o in l <==> o.estado == Listo;
  }

  /** `orders[i]` is the order `orders.find` returns for `id`. */
  predicate FirstWithId(orders: seq<Order>, id: int, i: int)
  {
    0 <= i < |orders| && orders[i].id == id && forall j :: 0 <= j < i ==> orders[j].id != id
  }

  /**
   * `onDrop`: the status change is sent only when the dragged id parsed,
   * some order has it, and the first such order is not already in the column.
   */
  function DropTarget(orders: seq<Order>, orderId: Option<int>, column: OrderStatus): (r: Option<OrderStatus>)
    ensures r.Some? ==> r.value == column
    ensures r.Some? <==> (orderId.Some? && exists i :: FirstWithId(orders, orderId.value, i) && orders[i].estado != column)
  {
    if orderId.None? then None
    else match FirstIndex(orders, OrderIdIs(orderId.value))
      case None => None
      case Some(k) => if orders[k].estado != column then Some(column) else None
  }

  /** The drop as a change of the store, through the context's status flow. */
  function DropFlow(db: S.Db, orderId: Option<int>, column: OrderStatus): (r: S.Db)
    ensures DropTarget(db.orders, orderId, column).None? ==> r == db
    ensures DropTarget(db.orders, orderId, column).Some? ==>
      r == Context.UpdateOrderStatusFlow(db, orderId.value, column).db
    ensures DropTarget(db.orders, orderId, column).Some? ==>
      var k := FirstIndex(db.orders, OrderIdIs(orderId.value)).value;
      |r.orders| == |db.orders| && r.orders[k].estado == column
    ensures S.Wf(db) ==> S.Wf(r)
  {
    match DropTarget(db.orders, orderId, column)
    case None => db
    case Some(st) => Context.UpdateOrderStatusFlow(db, orderId.value, st).db
  }

  /**
   * Dropping a card into EN_PREPARACION twice takes its stock once: the
   * second drop finds it already in that column and sends nothing.
   */
  lemma DropTwiceIsDropOnce(db: S.Db, id: int)
    requires FirstIndex(db.orders, OrderIdIs(id)).Some?
    ensures var once := DropFlow(db, Some(id), EnPreparacion);
      DropFlow(once, Some(id), EnPreparacion) == once
  {
    var k := FirstIndex(db.orders, OrderIdIs(id)).value;
    if DropTarget(db.orders, Some(id), EnPreparacion).Some? {
      var once := Context.UpdateOrderStatusFlow(db, id, EnPreparacion);
      assert once.res.Ok?;
      assert once.db.orders[k].estado == EnPreparacion;
    }
  }

  /** `handleClick`: a ready card moves on; any other card ignores the click. */
  function ClickFlow(db: S.Db, o: Order): (r: S.Db)
    ensures ClickTarget(o).None? ==> r == db
    ensures ClickTarget(o).Some? ==> r == Context.UpdateOrderStatusFlow(db, o.id, ClickTarget(o).value).db
    ensures ClickTarget(o).Some? && FirstIndex(db.orders, OrderIdIs(o.id)).Some? ==>
      var k := FirstIndex(db.orders, OrderIdIs(o.id)).value;
      |r.orders| == |db.orders| && r.orders[k].estado == ClickTarget(o).value
  {
    match ClickTarget(o)
    case None => db
    case Some(st) => Context.UpdateOrderStatusFlow(db, o.id, st).db
  }

  /** A click on a card never touches the stock: it never sends an order into preparation. */
  lemma ClickKeepsStock(db: S.Db, o: Order)
    ensures ClickFlow(db, o).ingredients == db.ingredients
  {
  }

  /** The menu item a card line refers to, through `new Map(...)`: the last item with the id. */
  function MenuLookup(menu: seq<MenuItem>, id: string): (r: Option<MenuItem>)
    ensures r.Some? <==> exists i :: 0 <= i < |menu| && menu[i].id == id
    ensures r.Some? ==> r.value in menu && r.value.id == id
  {
    match LastIndex(menu, MenuItemIdIs(id))
    case None => None
    case Some(k) => Some(menu[k])
  }

  /** A line's preparation minutes: 0 for a dish no longer on the menu. */
  function LineMinutes(l: OrderItem, menu: seq<MenuItem>): int
  {
    match MenuLookup(menu, l.menuItemId)
    case None => 0
    case Some(m) => m.tiempoPreparacionMin
  }

  function AllMinutes(items: seq<OrderItem>, menu: seq<MenuItem>): (r: seq<int>)
    ensures |r| == |items| && forall i :: 0 <= i < |items| ==> r[i] == LineMinutes(items[i], menu)
  {
    seq(|items|, i requires 0 <= i < |items| => LineMinutes(items[i], menu))
  }

  /** `prepTime`: the longest preparation among the card's lines, and never below 0. */
  function PrepTime(items: seq<OrderItem>, menu: seq<MenuItem>): (r: int)
    ensures r >= 0
    ensures forall i :: 0 <= i < |items| ==> LineMinutes(items[i], menu) <= r
    ensures r == 0 || exists i :: 0 <= i < |items| && LineMinutes(items[i], menu) == r
  {
    MaxOrZero(AllMinutes(items, menu))
  }

  /** Adding lines to an order gives the larger of the two preparation times. */
  lemma PrepTimeAppend(a: seq<OrderItem>, b: seq<OrderItem>, menu: seq<MenuItem>)
    ensures PrepTime(a + b, menu) == if PrepTime(a, menu) >= PrepTime(b, menu) then PrepTime(a, menu) else PrepTime(b, menu)
  {
    var ab := a + b;
    var r := PrepTime(ab, menu);
    forall i | 0 <= i < |a| ensures LineMinutes(a[i], menu) <= r {
      assert ab[i] == a[i];
    }
    forall i | 0 <= i < |b| ensures LineMinutes(b[i], menu) <= r {
      assert ab[|a| + i] == b[i];
    }
    if r != 0 {
      var i :| 0 <= i < |ab| && LineMinutes(ab[i], menu) == r;
      if i < |a| {
        assert ab[i] == a[i];
      } else {
        assert ab[i] == b[i - |a|];
      }
    }
  }

  method Drop(s: Api.Store, orderId: Option<int>, column: OrderStatus)
    modifies s
    ensures s.Snapshot() == DropFlow(old(s.Snapshot()), orderId, column)
  {
    ghost var db := s.Snapshot();
    if orderId.Some? {
      var k := FirstIndex(s.orders, OrderIdIs(orderId.value));
      if k.Some? && s.orders[k.value].estado != column {
        assert DropTarget(db.orders, orderId, column) == Some(column);
        var _ := Context.UpdateOrderStatus(s, orderId.value, column);
      } else {
        assert DropTarget(db.orders, orderId, column).None?;
      }
    }
  }

  method Click(s: Api.Store, o: Order)
    modifies s
    ensures s.Snapshot() == ClickFlow(old(s.Snapshot()), o)
  {
    if o.estado == Listo {
      var st := if o.tipo == ParaLlevar then Entregado else PendientePago;
      var _ := Context.UpdateOrderStatus(s, o.id, st);
    }
  }
}
