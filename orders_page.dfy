/**
 * The rules of the orders screen: what a new order must have before it is
 * sent, the statuses a delivery person may move an order to, when a drag
 * onto a delivery person assigns the order, and the two delivery lists.
 */
module OrdersPage {
  import opened Types
  import opened Seqs
  import opened Lifecycle
  import Cart

  /** The demo restaurant the staff form stamps on every order. */
  const DemoRestaurant := "rest-pizarra-01"

  /**
   * `handleSaveOrder`: refuses an empty cart, a SALA order without a table and
   * a DELIVERY order without a customer, in that order; otherwise the order
   * to create. `selectedTable` is None for the empty selection; the tax and
   * total come from the screen's tax computation.
   */
  function SaveOrder(cart: seq<OrderItem>, tipo: OrderType, selectedTable: Option<int>,
                     selectedCustomer: Option<string>, impuestos: int, total: int): (r: Result<OrderDraft>)
    ensures r == Err(EmptyCart) <==> |cart| == 0
    ensures r == Err(MissingTable) <==> |cart| > 0 && tipo == Sala && selectedTable.None?
    ensures r == Err(MissingCustomer) <==> |cart| > 0 && tipo == Delivery && !Present(selectedCustomer)
    ensures r.Ok? ==> r.value.items == cart && r.value.tipo == tipo && r.value.subtotal == Cart.Subtotal(cart)
    ensures r.Ok? ==> r.value.descuento == 0 && r.value.propina == 0 && r.value.restaurant == DemoRestaurant
    ensures r.Ok? && tipo == Sala ==> r.value.tableId == selectedTable && r.value.tableId.Some? && r.value.customerId == None
    ensures r.Ok? && tipo != Sala ==> r.value.tableId == None && r.value.customerId == selectedCustomer
    ensures r.Ok? && tipo == Delivery ==> Present(r.value.customerId)
  {
    if |cart| == 0 then Err(EmptyCart)
    else if tipo == Sala && selectedTable.None? then Err(MissingTable)
    else if tipo == Delivery && !Present(selectedCustomer) then Err(MissingCustomer)
    else
      Ok(OrderDraft(DemoRestaurant, if tipo == Sala then None else selectedCustomer,
                    if tipo == Sala then selectedTable else None, tipo,
                    Cart.Subtotal(cart), 0, impuestos, 0, total, cart))
  }

  /** `getNextStatusesForRepartidor`: the buttons a delivery person sees for an order in status `st`. */
  function RepartidorNextStatuses(st: OrderStatus): (r: seq<OrderStatus>)
    ensures st == Listo ==> r == [EnCamino]
    ensures st == EnCamino ==> r == [Entregado, Incidencia]
    ensures st == Incidencia ==> r == [Entregado, EnCamino, Devolucion]
    ensures st !in {Listo, EnCamino, Incidencia} ==> r == []
  {
    match st
    case Listo => [EnCamino]
    case EnCamino => [Entregado, Incidencia]
    case Incidencia => [Entregado, EnCamino, Devolucion]
    case _ => []
  }

  /**
   * A delivery person only moves orders forward: every step lands on a
   * delivery status, never back in the kitchen or in payment, the two
   * outcomes ENTREGADO and DEVOLUCION offer no further step, and those are
   * exactly the steps that free the delivery person in the store.
   */
  lemma RepartidorStepsStayOnTheRoad(st: OrderStatus, next: OrderStatus)
    requires next in RepartidorNextStatuses(st)
    ensures st in {Listo, EnCamino, Incidencia}
    ensures next in {EnCamino, Entregado, Incidencia, Devolucion}
    ensures next != st
    ensures RepartidorNextStatuses(next) == [] <==> next in {Entregado, Devolucion}
    ensures ReleasesDelivery(next) <==> next in {Entregado, Devolucion}
  {
  }

  /** `users.filter(u => u.rol === REPARTO)`. */
  function Repartidores(users: seq<User>): (r: seq<User>)
    ensures forall i :: 0 <= i < |r| ==> r[i].rol == Reparto && r[i] in users
  {
    if |users| == 0 then []
    else if users[0].rol == Reparto then [users[0]] + Repartidores(users[1..])
    else Repartidores(users[1..])
  }

  /** No delivery person is missing from the list: every user with the REPARTO role is in it. */
  lemma {:induction false} RepartidoresComplete(users: seq<User>)
    ensures forall i :: 0 <= i < |users| && users[i].rol == Reparto ==> users[i] in Repartidores(users)
  {
    if |users| > 0 {
      RepartidoresComplete(users[1..]);
      forall i | 0 <= i < |users| && users[i].rol == Reparto ensures users[i] in Repartidores(users) {
        if i > 0 {
          assert users[i] == users[1..][i - 1];
        }
      }
    }
  }

  /** Picks the delivery person with the id among all users. */
  function RepartidorIdIs(id: string): User -> bool
  {
    (u: User) => u.rol == Reparto && u.id == id
  }

  /** The first delivery person with the id in the delivery list is the first such user among all users. */
  lemma {:induction false} FirstRepartidor(users: seq<User>, id: string)
    ensures FirstIndex(Repartidores(users), UserIdIs(id)).None? <==> FirstIndex(users, RepartidorIdIs(id)).None?
    ensures FirstIndex(Repartidores(users), UserIdIs(id)).Some? ==>
      Repartidores(users)[FirstIndex(Repartidores(users), UserIdIs(id)).value] == users[FirstIndex(users, RepartidorIdIs(id)).value]
  {
    if |users| > 0 {
      var u0 := users[0];
      var reps, tail := Repartidores(users), Repartidores(users[1..]);
      FirstRepartidor(users[1..], id);
      if u0.rol == Reparto && u0.id == id {
        assert reps[0] == u0;
      } else {
        FirstIndexSkip(users, RepartidorIdIs(id));
        var shift := if u0.rol == Reparto then 1 else 0;
        if u0.rol == Reparto {
          assert reps == [u0] + tail;
          FirstIndexSkip(reps, UserIdIs(id));
          assert reps[1..] == tail;
        } else {
          assert reps == tail;
        }
        if FirstIndex(tail, UserIdIs(id)).Some? {
          var k := FirstIndex(tail, UserIdIs(id)).value;
          var j := FirstIndex(users[1..], RepartidorIdIs(id)).value;
          assert reps[k + shift] == tail[k] == users[1..][j] == users[j + 1];
        }
      }
    }
  }

  /**
   * `handleDrop`: the dragged order is assigned only when its id parsed to a
   * truthy number and the first delivery person with the target id is DISPONIBLE.
   */
  function DropAssigns(orderId: Option<int>, users: seq<User>, repartidorId: string): (r: bool)
    ensures r ==> PresentId(orderId)
    ensures r ==> exists i :: 0 <= i < |users| && users[i].id == repartidorId && users[i].rol == Reparto
                            && users[i].estadoDelivery == Some(Disponible)
    ensures !PresentId(orderId) ==> !r
    ensures r <==>
      && PresentId(orderId)
      && FirstIndex(users, RepartidorIdIs(repartidorId)).Some?
      && users[FirstIndex(users, RepartidorIdIs(repartidorId)).value].estadoDelivery == Some(Disponible)
  {
    var reps := Repartidores(users);
    FirstRepartidor(users, repartidorId);
    match FirstIndex(reps, UserIdIs(repartidorId))
    case None => false
    case Some(k) =>
      assert reps[k] in users;
      PresentId(orderId) && reps[k].estadoDelivery == Some(Disponible)
  }

  /** A delivery person who is already out is never handed a dropped order, whoever else shares the id. */
  lemma BusyRepartidorRefusesDrop(orderId: Option<int>, users: seq<User>, repartidorId: string)
    requires forall i :: 0 <= i < |users| && users[i].id == repartidorId && users[i].rol == Reparto ==>
      users[i].estadoDelivery == Some(EnReparto)
    ensures !DropAssigns(orderId, users, repartidorId)
  {
  }

  function IsDelivery(o: Order): bool { o.tipo == Delivery }

  /** Orders waiting for a delivery person: none assigned, ready, and paid in full. */
  predicate Waiting(o: Order)
  {
    !Present(o.repartidorId) && o.estado == Listo && TotalPaid(o.payments) >= o.total
  }

  /** Orders on the road: a delivery person assigned and not yet delivered, cancelled or returned. */
  predicate OnTheRoad(o: Order)
  {
    Present(o.repartidorId) && o.estado !in {Entregado, Cancelado, Devolucion}
  }

  /** `waitingOrders` over the DELIVERY orders. */
  function WaitingOrders(orders: seq<Order>): (r: seq<Order>)
    ensures forall i :: 0 <= i < |r| ==> r[i] in orders && r[i].tipo == Delivery && Waiting(r[i])
    ensures forall i :: 0 <= i < |orders| && orders[i].tipo == Delivery && Waiting(orders[i]) ==> orders[i] in r
  {
    Filter(Filter(orders, IsDelivery), (o: Order) => Waiting(o))
  }

  /** `activeDeliveries` over the DELIVERY orders. */
  function ActiveDeliveries(orders: seq<Order>): (r: seq<Order>)
    ensures forall i :: 0 <= i < |r| ==> r[i] in orders && r[i].tipo == Delivery && OnTheRoad(r[i])
    ensures forall i :: 0 <= i < |orders| && orders[i].tipo == Delivery && OnTheRoad(orders[i]) ==> orders[i] in r
  {
    Filter(Filter(orders, IsDelivery), (o: Order) => OnTheRoad(o))
  }

  /** No order is both waiting for a delivery person and on the road. */
  lemma WaitingAndActiveDisjoint(orders: seq<Order>)
    ensures forall o :: o in WaitingOrders(orders) ==> o !in ActiveDeliveries(orders)
  {
    var w := WaitingOrders(orders);
    var a := ActiveDeliveries(orders);
    forall o | o in w ensures o !in a {
      var i :| 0 <= i < |w| && w[i] == o;
      assert Waiting(o);
    }
  }
}
