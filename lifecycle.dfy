/**
 * The order lifecycle rules that do not depend on the rest of the store:
 * the initial status by order type, id allocation, which statuses can be
 * cancelled or have had stock taken out, how payments move an order out of
 * PENDIENTE_PAGO, and the one-click status dispatch of the order cards.
 */
module Lifecycle {
  import opened Types
  import opened Seqs

  /** PARA_LLEVAR orders wait for payment; every other type goes straight to the kitchen queue. */
  function InitialStatus(tipo: OrderType): (s: OrderStatus)
    ensures s == PendientePago <==> tipo == ParaLlevar
    ensures s == Nuevo <==> tipo != ParaLlevar
  {
    if tipo == ParaLlevar then PendientePago else Nuevo
  }

  function OrderIds(orders: seq<Order>): (ids: seq<int>)
    ensures |ids| == |orders|
    ensures forall i :: 0 <= i < |orders| ==> ids[i] == orders[i].id
  {
    seq(|orders|, i requires 0 <= i < |orders| => orders[i].id)
  }

  /** `Math.max(...orders.map(o => o.id), 0) + 1`: one past the largest id, and at least 1. */
  function NextOrderId(orders: seq<Order>): (id: int)
    ensures id >= 1
    ensures forall i :: 0 <= i < |orders| ==> orders[i].id < id
    ensures id == 1 || exists i :: 0 <= i < |orders| && orders[i].id == id - 1
  {
    var ids := OrderIds(orders);
    var m := MaxOrZero(ids);
    assert m != 0 ==> exists i :: 0 <= i < |ids| && ids[i] == m;
    m + 1
  }

  /** The record `createOrder` stores: the caller's fields plus id, initial status, no payments and no delivery person. */
  function NewOrder(d: OrderDraft, id: int, creadoPorId: string, mozoId: Option<string>): (o: Order)
    ensures o.id == id && o.creadoPorId == creadoPorId && o.mozoId == mozoId
    ensures o.estado == InitialStatus(d.tipo)
    ensures o.payments == [] && o.repartidorId == None
    ensures o.tipo == d.tipo && o.items == d.items && o.tableId == d.tableId && o.customerId == d.customerId
    ensures o.total == d.total && o.restaurant == d.restaurant
  {
    Order(id, d.restaurant, d.customerId, d.tableId, creadoPorId, d.tipo, InitialStatus(d.tipo),
          d.subtotal, d.descuento, d.impuestos, d.propina, d.total, d.items, None, [], mozoId)
  }

  /** The whitelist `cancelOrder` checks. */
  predicate Cancellable(s: OrderStatus)
  {
    s in {Nuevo, EnPreparacion, Listo, EnCamino, Incidencia, PendientePago}
  }

  /** The statuses in which an order's ingredients have already been taken out of stock. */
  predicate StockDeducted(s: OrderStatus)
  {
    s in {EnPreparacion, Listo, EnCamino, Incidencia}
  }

  /** The statuses that hand a delivery person back (`ENTREGADO`, `CANCELADO`, `DEVOLUCION`). */
  predicate ReleasesDelivery(s: OrderStatus)
  {
    s in {Entregado, Cancelado, Devolucion}
  }

  /** Every status with stock out is cancellable, so a cancel can always give that stock back. */
  lemma DeductedIsCancellable(s: OrderStatus)
    ensures StockDeducted(s) ==> Cancellable(s)
    ensures !Cancellable(s) <==> s in {Entregado, Cancelado, Devolucion}
  {
  }

  /** `order.payments.reduce((sum, p) => sum + p.amount, 0)`. */
  function TotalPaid(payments: seq<Payment>): int
  {
    if |payments| == 0 then 0 else TotalPaid(payments[..|payments| - 1]) + payments[|payments| - 1].amount
  }

  /** Where a fully paid order waiting for payment goes: PARA_LLEVAR enters the kitchen, others are done. */
  function PaidStatus(tipo: OrderType): (s: OrderStatus)
    ensures s != PendientePago
    ensures s == Nuevo <==> tipo == ParaLlevar
  {
    if tipo == ParaLlevar then Nuevo else Entregado
  }

  /** `addPaymentToOrder` on the order record: push one PAGADO payment, then move out of PENDIENTE_PAGO if the sum covers the total. */
  function WithPayment(o: Order, m: PaymentMethod, amount: int): (r: Order)
    ensures r.payments == o.payments + [Payment(Pagado, m, amount)]
    ensures TotalPaid(r.payments) == TotalPaid(o.payments) + amount
    ensures r == o.(payments := r.payments, estado := r.estado)
    ensures r.estado != o.estado <==> o.estado == PendientePago && TotalPaid(r.payments) >= o.total
    ensures r.estado != o.estado ==> r.estado == PaidStatus(o.tipo)
  {
    var payments := o.payments + [Payment(Pagado, m, amount)];
    assert payments[..|payments| - 1] == o.payments;
    var estado := if TotalPaid(payments) >= o.total && o.estado == PendientePago then PaidStatus(o.tipo) else o.estado;
    o.(payments := payments, estado := estado)
  }

  /** A sequence of payments applied one after another. */
  function PayAll(o: Order, payments: seq<(PaymentMethod, int)>): Order
  {
    if |payments| == 0 then o
    else
      var (m, amount) := payments[|payments| - 1];
      WithPayment(PayAll(o, payments[..|payments| - 1]), m, amount)
  }

  /** However many payments arrive, the status moves at most once, and only from PENDIENTE_PAGO to the paid status. */
  lemma {:induction false} PaymentsMoveStatusAtMostOnce(o: Order, payments: seq<(PaymentMethod, int)>)
    ensures PayAll(o, payments).estado == o.estado
         || (o.estado == PendientePago && PayAll(o, payments).estado == PaidStatus(o.tipo))
    ensures PayAll(o, payments).tipo == o.tipo && PayAll(o, payments).total == o.total
  {
    if |payments| > 0 {
      PaymentsMoveStatusAtMostOnce(o, payments[..|payments| - 1]);
    }
  }

  /**
   * The order-card click (orders page and kitchen screen): only a LISTO
   * order reacts; SALA and DELIVERY go to PENDIENTE_PAGO, PARA_LLEVAR to ENTREGADO.
   */
  function ClickTarget(o: Order): (r: Option<OrderStatus>)
    ensures r.Some? <==> o.estado == Listo
    ensures r == Some(PendientePago) <==> o.estado == Listo && o.tipo in {Sala, Delivery}
    ensures r == Some(Entregado) <==> o.estado == Listo && o.tipo == ParaLlevar
  {
    if o.estado != Listo then None
    else match o.tipo
      case Sala => Some(PendientePago)
      case Delivery => Some(PendientePago)
      case ParaLlevar => Some(Entregado)
  }
}
