/**
 * The public ordering portal: the checks on the customer's details, the
 * choice between ordering at once and asking for the verification code,
 * the code check, and the order the portal sends. The cart is the shared
 * `Cart` module.
 */
module CustomerPortal {
  import opened Types
  import opened Text
  import opened Seqs
  import Cart
  import S = StoreSpec
  import Api
  import OrdersPage

  /** The details the customer types in. */
  datatype PortalForm = PortalForm(nombre: string, telefono: string, email: string, direccion: Address)

  // ----- field formats ---------------------------------------------------------

  /** A character `[^\s@]` accepts. */
  predicate Plain(c: char)
  {
    !IsSpace(c) && c != '@'
  }

  predicate AllPlain(s: string)
  {
    forall i :: 0 <= i < |s| ==> Plain(s[i])
  }

  /** The part after `@`: plain characters with a dot that is neither first nor last. */
  predicate DomainOk(d: string)
  {
    AllPlain(d) && exists j :: 1 <= j < |d| - 1 && d[j] == '.'
  }

  /** `/^[^\s@]+@[^\s@]+\.[^\s@]+$/`: one `@` after a non-empty plain part, then a dotted domain. */
  predicate ValidEmail(s: string)
  {
    exists k :: 1 <= k < |s| && s[k] == '@' && AllPlain(s[..k]) && DomainOk(s[k + 1..])
  }

  /** A valid address has exactly one `@`. */
  lemma ValidEmailHasOneAt(s: string)
    requires ValidEmail(s)
    ensures multiset(s)['@'] == 1
  {
    var k :| 1 <= k < |s| && s[k] == '@' && AllPlain(s[..k]) && DomainOk(s[k + 1..]);
    assert s == s[..k] + [s[k]] + s[k + 1..];
    NoAtInPlain(s[..k]);
    NoAtInPlain(s[k + 1..]);
  }

  lemma {:induction false} NoAtInPlain(s: string)
    requires AllPlain(s)
    ensures multiset(s)['@'] == 0
  {
    if |s| > 0 {
      assert s == [s[0]] + s[1..];
      NoAtInPlain(s[1..]);
    }
  }

  /** The address made up for a customer who leaves the e-mail empty is a valid one when the phone is plain. */
  lemma FallbackEmailIsValid(telefono: string)
    requires telefono != "" && AllPlain(telefono)
    ensures ValidEmail(telefono + "@system.com")
  {
    var s := telefono + "@system.com";
    var k := |telefono|;
    assert s[..k] == telefono;
    assert s[k + 1..] == "system.com";
    assert DomainOk("system.com") by {
      assert "system.com"[6] == '.';
    }
  }

  /** `/^\d{7,15}$/` on the phone's digits. */
  predicate PhoneOk(telefono: string)
  {
    7 <= |DigitsOnly(telefono)| <= 15
  }

  /**
   * The checks of `handlePlaceOrder`, in order: name and phone, the street
   * of a delivery, the phone's digit count, and the e-mail's form when one is given.
   */
  function PlaceError(f: PortalForm, tipo: OrderType): (r: Option<Error>)
    ensures r == Some(MissingContact) <==> Trim(f.nombre) == "" || Trim(f.telefono) == ""
    ensures r == Some(MissingStreet) <==> Trim(f.nombre) != "" && Trim(f.telefono) != "" && tipo == Delivery && Trim(f.direccion.calle) == ""
    ensures r.None? ==> Trim(f.nombre) != "" && PhoneOk(f.telefono)
    ensures r.None? ==> Trim(f.email) == "" || ValidEmail(Trim(f.email))
    ensures r.None? && tipo == Delivery ==> Trim(f.direccion.calle) != ""
    ensures r == Some(InvalidPhone) <==>
      Trim(f.nombre) != "" && Trim(f.telefono) != "" && !(tipo == Delivery && Trim(f.direccion.calle) == "")
      && !PhoneOk(f.telefono)
    ensures r == Some(InvalidEmail) <==>
      Trim(f.nombre) != "" && Trim(f.telefono) != "" && !(tipo == Delivery && Trim(f.direccion.calle) == "")
      && PhoneOk(f.telefono) && Trim(f.email) != "" && !ValidEmail(Trim(f.email))
    ensures r.Some? ==> r.value in {MissingContact, MissingStreet, InvalidPhone, InvalidEmail}
  {
    if Trim(f.nombre) == "" || Trim(f.telefono) == "" then Some(MissingContact)
    else if tipo == Delivery && Trim(f.direccion.calle) == "" then Some(MissingStreet)
    else if !PhoneOk(f.telefono) then Some(InvalidPhone)
    else if Trim(f.email) != "" && !ValidEmail(Trim(f.email)) then Some(InvalidEmail)
    else None
  }

  // ----- placing or verifying ----------------------------------------------------------

  /** What the portal does next. */
  datatype Step = PlaceFor(customer: Customer) | AskCode(customer: Customer) | Stop(error: Error)

  /**
   * The profile `createCustomer` makes for a first-time customer: unverified,
   * with `<phone>@system.com` when no e-mail was typed; `id` stands for the
   * time-stamped id and the restaurant is left empty, as the portal sends none.
   */
  function NewCustomer(f: PortalForm, id: string): (c: Customer)
    ensures !c.isVerified && !c.isDeleted && c.id == id
    ensures c.email == (if f.email == "" then f.telefono + "@system.com" else f.email)
  {
    Customer(id, "", f.nombre, f.telefono, if f.email == "" then f.telefono + "@system.com" else f.email, false, f.direccion, false)
  }

  /**
   * `handlePlaceOrder` after the lookup: `found` is the customer the contact
   * lookup returned, `newId` the id `createCustomer` gave (None when it failed).
   * A known customer of a delivery takes the typed address.
   */
  function PlaceDecision(f: PortalForm, tipo: OrderType, found: Option<Customer>, newId: Option<string>): (r: Step)
    ensures PlaceError(f, tipo).Some? ==> r == Stop(PlaceError(f, tipo).value)
    ensures PlaceError(f, tipo).None? && found.Some? ==>
      && !r.Stop? && r.customer.id == found.value.id
      && r.customer.direccion == (if tipo == Delivery then f.direccion else found.value.direccion)
      && (r.PlaceFor? <==> found.value.isVerified)
    ensures PlaceError(f, tipo).None? && found.None? && newId.Some? ==> r == AskCode(NewCustomer(f, newId.value))
    ensures PlaceError(f, tipo).None? && found.None? && newId.None? ==> r == Stop(ProfileNotCreated)
  {
    match PlaceError(f, tipo)
    case Some(e) => Stop(e)
    case None =>
      match found
      case Some(c) =>
        var c' := if tipo == Delivery then c.(direccion := f.direccion) else c;
        if c'.isVerified then PlaceFor(c') else AskCode(c')
      case None =>
        match newId
        case Some(id) => AskCode(NewCustomer(f, id))
        case None => Stop(ProfileNotCreated)
  }

  /** An order is placed at once only for a customer already verified; a first-time customer always gets the code. */
  lemma OnlyVerifiedOrderAtOnce(f: PortalForm, tipo: OrderType, found: Option<Customer>, newId: Option<string>)
    ensures PlaceDecision(f, tipo, found, newId).PlaceFor? ==> PlaceDecision(f, tipo, found, newId).customer.isVerified
    ensures found.None? ==> !PlaceDecision(f, tipo, found, newId).PlaceFor?
  {
  }

  /**
   * The contact lookup hands back the stored customer record itself, so the
   * address the portal writes onto a found customer of a DELIVERY lands in
   * the store: the first stored customer with the found id takes the typed
   * address and nothing else changes.
   */
  function AddressWrite(customers: seq<Customer>, tipo: OrderType, id: string, a: Address): (r: seq<Customer>)
    ensures |r| == |customers|
    ensures tipo != Delivery || FirstIndex(customers, CustomerIdIs(id)).None? ==> r == customers
    ensures tipo == Delivery && FirstIndex(customers, CustomerIdIs(id)).Some? ==>
      var k := FirstIndex(customers, CustomerIdIs(id)).value;
      && r[k] == customers[k].(direccion := a) && r[k].id == id
      && forall i :: 0 <= i < |customers| && i != k ==> r[i] == customers[i]
  {
    match FirstIndex(customers, CustomerIdIs(id))
    case None => customers
    case Some(k) => if tipo == Delivery then customers[k := customers[k].(direccion := a)] else customers
  }

  /**
   * What `handlePlaceOrder` writes to the store: a first-time customer's
   * profile goes in front of the customers before the code is asked for; a
   * found customer of a DELIVERY gets the typed address through the shared
   * record; a verified customer's order is placed at once; nothing else is written.
   */
  function PlaceFlow(db: S.Db, f: PortalForm, tipo: OrderType, found: Option<Customer>, newId: Option<string>,
                     cart: seq<OrderItem>, restaurantId: Option<string>, impuestos: int, total: int): (r: S.Db)
    ensures PlaceDecision(f, tipo, found, newId).Stop? ==> r == db
    ensures PlaceDecision(f, tipo, found, newId).AskCode? && found.Some? ==>
      r == db.(customers := AddressWrite(db.customers, tipo, found.value.id, f.direccion))
    ensures PlaceDecision(f, tipo, found, newId).AskCode? && found.None? ==>
      r.customers == [NewCustomer(f, newId.value)] + db.customers && r == db.(customers := r.customers)
    ensures PlaceDecision(f, tipo, found, newId).PlaceFor? ==>
      && found.Some? && found.value.isVerified
      && |r.orders| == |db.orders| + 1 && r.orders[1..] == db.orders
      && r == db.(orders := r.orders, customers := AddressWrite(db.customers, tipo, found.value.id, f.direccion))
      && r.orders[0].customerId == Some(found.value.id) && r.orders[0].items == cart
    ensures S.Wf(db) ==> S.Wf(r)
  {
    match PlaceDecision(f, tipo, found, newId)
    case Stop(_) => db
    case PlaceFor(c) =>
      var written := db.(customers := AddressWrite(db.customers, tipo, found.value.id, f.direccion));
      S.CreatePublicOrder(written, PortalDraft(c, tipo, cart, restaurantId, impuestos, total)).db
    case AskCode(c) =>
      if found.None? then S.CreateCustomer(db, c).db
      else db.(customers := AddressWrite(db.customers, tipo, found.value.id, f.direccion))
  }

  /** `handlePlaceOrder` against the store: returns the step the page takes next. */
  method PlaceOrder(s: Api.Store, f: PortalForm, tipo: OrderType, found: Option<Customer>, newId: Option<string>,
                    cart: seq<OrderItem>, restaurantId: Option<string>, impuestos: int, total: int) returns (step: Step)
    modifies s
    ensures step == PlaceDecision(f, tipo, found, newId)
    ensures s.Snapshot() == PlaceFlow(old(s.Snapshot()), f, tipo, found, newId, cart, restaurantId, impuestos, total)
  {
    step := PlaceDecision(f, tipo, found, newId);
    match step
    case Stop(_) =>
    case PlaceFor(c) =>
      s.customers := AddressWrite(s.customers, tipo, found.value.id, f.direccion);
      var _ := s.CreatePublicOrder(PortalDraft(c, tipo, cart, restaurantId, impuestos, total));
    case AskCode(c) =>
      if found.None? {
        var _ := s.CreateCustomer(c);
      } else {
        s.customers := AddressWrite(s.customers, tipo, found.value.id, f.direccion);
      }
  }

  /**
   * A first-time customer who then types the right code ends up stored once,
   * in front and verified, with the order placed in their name.
   */
  lemma FirstTimeCustomerVerified(db: S.Db, f: PortalForm, tipo: OrderType, id: string, cart: seq<OrderItem>,
                                  restaurantId: Option<string>, impuestos: int, total: int)
    requires PlaceError(f, tipo).None?
    ensures
      var d1 := PlaceFlow(db, f, tipo, None, Some(id), cart, restaurantId, impuestos, total);
      var r := VerifyFlow(d1, Code, NewCustomer(f, id), tipo, cart, restaurantId, impuestos, total);
      && r.db.customers == [NewCustomer(f, id).(isVerified := true)] + db.customers
      && r.res.Ok? && r.res.value.customerId == Some(id) && r.db.orders[1..] == db.orders
  {
    var c := NewCustomer(f, id);
    assert PlaceDecision(f, tipo, None, Some(id)) == AskCode(c);
    var d1 := PlaceFlow(db, f, tipo, None, Some(id), cart, restaurantId, impuestos, total);
    assert d1.customers == [c] + db.customers && d1 == db.(customers := d1.customers);
    FirstIndexIs(d1.customers, CustomerIdIs(id), 0);
    var v := S.VerifyCustomer(d1, id);
    assert v.db.customers == d1.customers[0 := c.(isVerified := true)];
    ReplaceHead(c, c.(isVerified := true), db.customers);
  }

  /**
   * A known, unverified customer of a DELIVERY is asked for the code, carrying
   * the typed address, and the place step's only write is that address.
   */
  lemma FoundDeliveryAsksCode(db: S.Db, f: PortalForm, c: Customer, cart: seq<OrderItem>,
                              restaurantId: Option<string>, impuestos: int, total: int)
    requires PlaceError(f, Delivery).None? && !c.isVerified
    ensures PlaceDecision(f, Delivery, Some(c), None) == AskCode(c.(direccion := f.direccion))
    ensures PlaceFlow(db, f, Delivery, Some(c), None, cart, restaurantId, impuestos, total)
            == db.(customers := AddressWrite(db.customers, Delivery, c.id, f.direccion))
  {
  }

  /** The address write keeps the written customer where the lookup by id finds it. */
  lemma AddressWriteKeepsFirst(customers: seq<Customer>, id: string, a: Address, k: nat)
    requires k < |customers| && customers[k].id == id
    requires forall j :: 0 <= j < k ==> customers[j].id != id
    ensures
      var w := AddressWrite(customers, Delivery, id, a);
      && FirstIndex(w, CustomerIdIs(id)) == Some(k)
      && w[k := w[k].(isVerified := true)] == customers[k := customers[k].(direccion := a, isVerified := true)]
  {
    FirstIndexIs(customers, CustomerIdIs(id), k);
    var w := AddressWrite(customers, Delivery, id, a);
    FirstIndexIs(w, CustomerIdIs(id), k);
    assert w == customers[k := customers[k].(direccion := a)];
  }

  /** The right code marks exactly the first stored customer with the pending id verified. */
  lemma VerifyFlowCustomers(db: S.Db, pending: Customer, tipo: OrderType, cart: seq<OrderItem>,
                            restaurantId: Option<string>, impuestos: int, total: int, k: nat)
    requires FirstIndex(db.customers, CustomerIdIs(pending.id)) == Some(k)
    ensures VerifyFlow(db, Code, pending, tipo, cart, restaurantId, impuestos, total).db.customers
            == db.customers[k := db.customers[k].(isVerified := true)]
  {
  }

  /**
   * A known, unverified customer of a DELIVERY who then types the right code
   * ends up stored verified and with the address typed at the portal.
   */
  lemma FoundCustomerKeepsTypedAddress(db: S.Db, f: PortalForm, c: Customer, k: nat, cart: seq<OrderItem>,
                                       restaurantId: Option<string>, impuestos: int, total: int)
    requires PlaceError(f, Delivery).None? && !c.isVerified
    requires k < |db.customers| && db.customers[k].id == c.id
    requires forall j :: 0 <= j < k ==> db.customers[j].id != c.id
    ensures
      var d1 := PlaceFlow(db, f, Delivery, Some(c), None, cart, restaurantId, impuestos, total);
      var r := VerifyFlow(d1, Code, c.(direccion := f.direccion), Delivery, cart, restaurantId, impuestos, total);
      r.db.customers == db.customers[k := db.customers[k].(direccion := f.direccion, isVerified := true)]
  {
    var d1 := PlaceFlow(db, f, Delivery, Some(c), None, cart, restaurantId, impuestos, total);
    var w := AddressWrite(db.customers, Delivery, c.id, f.direccion);
    assert d1.customers == w by {
      FoundDeliveryAsksCode(db, f, c, cart, restaurantId, impuestos, total);
    }
    AddressWriteKeepsFirst(db.customers, c.id, f.direccion, k);
    VerifyFlowCustomers(d1, c.(direccion := f.direccion), Delivery, cart, restaurantId, impuestos, total, k);
  }

  /** The demo code every customer is asked for. */
  const Code := "1234"

  /** `handleVerifyCode`: the right code gives the pending customer, now verified; any other is refused. */
  function VerifyCode(code: string, pending: Customer): (r: Result<Customer>)
    ensures r.Ok? <==> code == Code
    ensures r.Ok? ==> r.value == pending.(isVerified := true)
    ensures r.Err? ==> r.error == WrongCode
  {
    if code == Code then Ok(pending.(isVerified := true)) else Err(WrongCode)
  }

  /**
   * `placeOrder`: the order the portal sends for `c`: its customer, the chosen
   * type, no table, no discount and no tip, and the cart as it is.
   */
  function PortalDraft(c: Customer, tipo: OrderType, cart: seq<OrderItem>, restaurantId: Option<string>, impuestos: int, total: int): (d: OrderDraft)
    ensures d.customerId == Some(c.id) && d.tipo == tipo && d.tableId == None
    ensures d.descuento == 0 && d.propina == 0 && d.items == cart && d.subtotal == Cart.Subtotal(cart)
    ensures d.restaurant == if Present(restaurantId) then restaurantId.value else OrdersPage.DemoRestaurant
  {
    OrderDraft(if Present(restaurantId) then restaurantId.value else OrdersPage.DemoRestaurant,
               Some(c.id), None, tipo, Cart.Subtotal(cart), 0, impuestos, 0, total, cart)
  }

  /**
   * The right code marks the stored customer verified (a failed write is only
   * reported) and places the order; a wrong code changes nothing.
   */
  function VerifyFlow(db: S.Db, code: string, pending: Customer, tipo: OrderType, cart: seq<OrderItem>,
                      restaurantId: Option<string>, impuestos: int, total: int): (r: S.Reply<Order>)
    ensures code != Code ==> r == S.Reply(db, Err(WrongCode))
    ensures code == Code ==> r.res.Ok? && r.res.value.customerId == Some(pending.id) && r.res.value.items == cart
    ensures code == Code ==> |r.db.orders| == |db.orders| + 1 && r.db.orders[1..] == db.orders && r.db.orders[0] == r.res.value
    ensures code == Code ==> r.db == S.VerifyCustomer(db, pending.id).db.(orders := r.db.orders)
    ensures S.Wf(db) ==> S.Wf(r.db)
  {
    match VerifyCode(code, pending)
    case Err(e) => S.Reply(db, Err(e))
    case Ok(c) =>
      var d1 := S.VerifyCustomer(db, pending.id).db;
      S.CreatePublicOrder(d1, PortalDraft(c, tipo, cart, restaurantId, impuestos, total))
  }

  /** After the right code the stored customer with the pending id (if any) is verified. */
  lemma VerifiedAfterCode(db: S.Db, pending: Customer, tipo: OrderType, cart: seq<OrderItem>,
                          restaurantId: Option<string>, impuestos: int, total: int, k: nat)
    requires k < |db.customers| && db.customers[k].id == pending.id
    requires forall j :: 0 <= j < k ==> db.customers[j].id != pending.id
    ensures VerifyFlow(db, Code, pending, tipo, cart, restaurantId, impuestos, total).db.customers[k].isVerified
  {
    FirstIndexIs(db.customers, CustomerIdIs(pending.id), k);
  }

  method VerifyAndPlace(s: Api.Store, code: string, pending: Customer, tipo: OrderType, cart: seq<OrderItem>,
                        restaurantId: Option<string>, impuestos: int, total: int) returns (r: Result<Order>)
    modifies s
    ensures s.Snapshot() == VerifyFlow(old(s.Snapshot()), code, pending, tipo, cart, restaurantId, impuestos, total).db
    ensures r == VerifyFlow(old(s.Snapshot()), code, pending, tipo, cart, restaurantId, impuestos, total).res
  {
    if code != "1234" {
      return Err(WrongCode);
    }
    var _ := s.VerifyCustomer(pending.id);
    var o := s.CreatePublicOrder(PortalDraft(pending.(isVerified := true), tipo, cart, restaurantId, impuestos, total));
    r := Ok(o);
  }
}
