/**
 * The customer screen: the form's digit-only fields, the save check that
 * keeps e-mail addresses and phone numbers unique among customers, and the
 * search over name, e-mail and phone digits.
 */
module CustomersPage {
  import opened Types
  import opened Seqs
  import opened Text

  /** The fields of the customer form. */
  datatype CustomerForm = CustomerForm(nombre: string, email: string, telefono: string, direccion: Address)

  datatype Field = Nombre | Email | Telefono | Calle | Ciudad | CodigoPostal

  /** The phone and the postal code hold digits only. */
  predicate DigitFields(f: CustomerForm)
  {
    && (forall i :: 0 <= i < |f.telefono| ==> IsDigit(f.telefono[i]))
    && (forall i :: 0 <= i < |f.direccion.codigoPostal| ==> IsDigit(f.direccion.codigoPostal[i]))
  }

  /**
   * `CustomerModal.handleChange`: the phone and the postal code drop every
   * non-digit typed into them; the other fields take the text as typed.
   */
  function EditForm(f: CustomerForm, field: Field, value: string): (r: CustomerForm)
    ensures DigitFields(f) ==> DigitFields(r)
    ensures field == Telefono ==> r == f.(telefono := r.telefono) && r.telefono == DigitsOnly(value)
    ensures field == Telefono ==> forall d :: IsDigit(d) ==> multiset(r.telefono)[d] == multiset(value)[d]
    ensures field == CodigoPostal ==> r == f.(direccion := f.direccion.(codigoPostal := r.direccion.codigoPostal))
    ensures field == CodigoPostal ==> r.direccion.codigoPostal == DigitsOnly(value)
    ensures field == CodigoPostal ==> forall d :: IsDigit(d) ==> multiset(r.direccion.codigoPostal)[d] == multiset(value)[d]
    ensures field == Nombre ==> r == f.(nombre := value)
    ensures field == Email ==> r == f.(email := value)
    ensures field == Calle ==> r == f.(direccion := f.direccion.(calle := value))
    ensures field == Ciudad ==> r == f.(direccion := f.direccion.(ciudad := value))
  {
    match field
    case Nombre => f.(nombre := value)
    case Email => f.(email := value)
    case Telefono =>
      assert forall d :: IsDigit(d) ==> multiset(DigitsOnly(value))[d] == multiset(value)[d] by {
        forall d | IsDigit(d) ensures multiset(DigitsOnly(value))[d] == multiset(value)[d] {
          DigitsOnlyKeepsDigits(value, d);
        }
      }
      f.(telefono := DigitsOnly(value))
    case Calle => f.(direccion := f.direccion.(calle := value))
    case Ciudad => f.(direccion := f.direccion.(ciudad := value))
    case CodigoPostal =>
      assert forall d :: IsDigit(d) ==> multiset(DigitsOnly(value))[d] == multiset(value)[d] by {
        forall d | IsDigit(d) ensures multiset(DigitsOnly(value))[d] == multiset(value)[d] {
          DigitsOnlyKeepsDigits(value, d);
        }
      }
      f.(direccion := f.direccion.(codigoPostal := DigitsOnly(value)))
  }

  /** Typing the same phone again, in any formatting with the same digits, leaves the form as it is. */
  lemma RetypingPhoneIsStable(f: CustomerForm, value: string)
    requires DigitFields(f) && DigitsOnly(value) == f.telefono
    ensures EditForm(f, Telefono, value) == f
  {
  }

  /** `email.toLowerCase().trim()`. */
  function EmailKey(s: string): string
  {
    Trim(Lower(s))
  }

  /** Lower-casing before trimming gives the same key the name checks use. */
  lemma EmailKeyIsNormalize(s: string)
    ensures EmailKey(s) == Normalize(s)
  {
    TrimLowerCommute(s);
  }

  /** Another customer than the one being edited has the same e-mail key. */
  predicate EmailInUse(email: string, cs: seq<Customer>, editing: Option<string>)
  {
    exists i :: 0 <= i < |cs| && EmailKey(cs[i].email) == EmailKey(email) && editing != Some(cs[i].id)
  }

  /** Another customer than the one being edited has the same phone digits. */
  predicate PhoneInUse(telefono: string, cs: seq<Customer>, editing: Option<string>)
  {
    exists i :: 0 <= i < |cs| && DigitsOnly(cs[i].telefono) == DigitsOnly(telefono) && editing != Some(cs[i].id)
  }

  predicate MissingField(d: CustomerForm)
  {
    EmailKey(d.email) == "" || DigitsOnly(d.telefono) == "" || Trim(d.nombre) == ""
  }

  /**
   * `handleSave`: a missing name, e-mail or phone first, then an e-mail
   * another customer has, then a phone another customer has.
   */
  function SaveError(d: CustomerForm, cs: seq<Customer>, editing: Option<string>): (r: Option<Error>)
    ensures r == Some(MissingContact) <==> MissingField(d)
    ensures r == Some(DuplicateEmail) <==> !MissingField(d) && EmailInUse(d.email, cs, editing)
    ensures r == Some(DuplicatePhone) <==> !MissingField(d) && !EmailInUse(d.email, cs, editing) && PhoneInUse(d.telefono, cs, editing)
    ensures r.None? <==> !MissingField(d) && !EmailInUse(d.email, cs, editing) && !PhoneInUse(d.telefono, cs, editing)
  {
    if MissingField(d) then Some(MissingContact)
    else if EmailInUse(d.email, cs, editing) then Some(DuplicateEmail)
    else if PhoneInUse(d.telefono, cs, editing) then Some(DuplicatePhone)
    else None
  }

  /** No two customers share an e-mail key or phone digits. */
  predicate ContactsDistinct(cs: seq<Customer>)
  {
    Pairwise(cs, ContactsDiffer)
  }

  predicate ContactsDiffer(a: Customer, b: Customer)
  {
    EmailKey(a.email) != EmailKey(b.email) && DigitsOnly(a.telefono) != DigitsOnly(b.telefono)
  }

  /** The customer `createCustomer` puts in front of the list for an accepted new form. */
  function Created(d: CustomerForm, id: string, restaurant: string): (c: Customer)
    ensures c.email == d.email && c.telefono == d.telefono && !c.isVerified && !c.isDeleted
  {
    Customer(id, restaurant, d.nombre, d.telefono, d.email, false, d.direccion, false)
  }

  /** A new customer that passes the save check keeps the contacts of all customers distinct. */
  lemma CreateKeepsContactsDistinct(d: CustomerForm, cs: seq<Customer>, id: string, restaurant: string)
    requires ContactsDistinct(cs) && SaveError(d, cs, None).None?
    ensures ContactsDistinct([Created(d, id, restaurant)] + cs)
  {
    var c := Created(d, id, restaurant);
    forall k | 0 <= k < |cs| ensures ContactsDiffer(c, cs[k]) {
      NotInUse(d, cs, k, c);
    }
    PairwisePrepend(c, cs, ContactsDiffer);
  }

  lemma NotInUse(d: CustomerForm, cs: seq<Customer>, k: int, c: Customer)
    requires 0 <= k < |cs| && !EmailInUse(d.email, cs, None) && !PhoneInUse(d.telefono, cs, None)
    requires c.email == d.email && c.telefono == d.telefono
    ensures ContactsDiffer(c, cs[k])
  {
  }

  /** `filteredCustomers`' test: name or e-mail contains the query, or the phone digits contain its non-empty digits. */
  function Matches(query: string): Customer -> bool
  {
    (c: Customer) =>
      || Contains(Lower(c.nombre), Lower(query))
      || Contains(Lower(c.email), Lower(query))
      || (DigitsOnly(query) != "" && Contains(DigitsOnly(c.telefono), DigitsOnly(query)))
  }

  function FilterCustomers(cs: seq<Customer>, query: string): (r: seq<Customer>)
    ensures forall c :: c in r <==> c in cs && Matches(query)(c)
  {
    Filter(cs, Matches(query))
  }

  /** An empty search box lists every customer. */
  lemma EmptySearchKeepsAll(cs: seq<Customer>)
    ensures FilterCustomers(cs, "") == cs
  {
    forall i | 0 <= i < |cs| ensures Matches("")(cs[i]) {
      assert OccursAt(Lower(cs[i].nombre), Lower(""), 0);
    }
    FilterAll(cs, Matches(""));
  }

  /** Searching a customer's phone number, formatted any way, finds that customer. */
  lemma PhoneSearchFinds(cs: seq<Customer>, c: Customer, query: string)
    requires c in cs && DigitsOnly(query) == DigitsOnly(c.telefono) && DigitsOnly(query) != ""
    ensures c in FilterCustomers(cs, query)
  {
    assert OccursAt(DigitsOnly(c.telefono), DigitsOnly(query), 0);
  }
}
