/** The customer form: its default values, the validation schema, the id of a new
    customer, and the save into the stored customer list (replace in edit mode, push
    otherwise). `Math.random()` is the parameter `n`, already scaled to 0..9999, and the
    email check of the schema library is the parameter `isEmail`. */
module CustomerForm {
  import opened Wrappers
  import opened Text
  import opened Entities
  import opened Store
  import opened Records

  const IdPrefix := "CUST-"
  const CustomersRoute := "/customers"

  /** The form's values; the email is None when the field is absent. */
  datatype Values = Values(name: string, mobile: string, email: Option<string>,
                           altContact: string, address: string, notes: string)

  /** Edit mode holds exactly when a customer id is given. */
  predicate IsEditMode(customerId: string) { customerId != "" }

  /** The default values with `initialData` spread over them. */
  function DefaultValues(initialData: Option<Customer>): (r: Values)
    ensures initialData.None? ==> r == Values("", "", Some(""), "", "", "")
    ensures initialData.Some? ==> r.name == initialData.value.name && r.mobile == initialData.value.mobile
  {
    match initialData
    case None => Values("", "", Some(""), "", "", "")
    case Some(c) =>
      Values(c.name, c.mobile, if c.email.Some? then c.email else Some(""), c.altContact, c.address, c.notes)
  }

  /** The schema as written: a name of at least 2 characters, a mobile of at least 6,
      and an email that is absent or passes the email check. */
  predicate SchemaAsWritten(v: Values, isEmail: string -> bool) {
    |v.name| >= 2 && |v.mobile| >= 6 && (v.email.None? || isEmail(v.email.value))
  }

  /** The empty email field the form starts with fails the check, so a customer whose
      email is left blank can never be saved. */
  lemma BlankEmailBlocksSave(name: string, mobile: string, isEmail: string -> bool)
    requires !isEmail("")
    ensures !SchemaAsWritten(DefaultValues(None).(name := name, mobile := mobile), isEmail)
  {
  }

  /** The schema as the optional email field intends it: a blank email is no email. */
  predicate SchemaAccepts(v: Values, isEmail: string -> bool) {
    |v.name| >= 2 && |v.mobile| >= 6 && (v.email.None? || v.email.value == "" || isEmail(v.email.value))
  }

  /** With the intended schema a blank email is accepted, and on every email that is not
      blank the two schemas agree. */
  lemma SchemaAcceptsBlankEmail(v: Values, isEmail: string -> bool)
    ensures v.email == Some("") ==> (SchemaAccepts(v, isEmail) <==> |v.name| >= 2 && |v.mobile| >= 6)
    ensures v.email != Some("") ==> (SchemaAccepts(v, isEmail) <==> SchemaAsWritten(v, isEmail))
  {
  }

  /** The stored record: the given id with the values. */
  function ToCustomer(id: string, v: Values): Customer {
    Customer(id, v.name, v.mobile, v.email, v.altContact, v.address, v.notes)
  }

  /** The id a save gives the record: the edited customer's, or a fresh "CUST-####". */
  function SavedId(customerId: string, n: nat): (r: string)
    requires n < 10000
    ensures IsEditMode(customerId) ==> r == customerId
    ensures !IsEditMode(customerId) ==> StartsWith(r, IdPrefix) && |r| == 9
                                        && AllDigits(r[5..]) && ParseNat(r[5..]) == n
  {
    if IsEditMode(customerId) then customerId else NewId(IdPrefix, n)
  }

  /** `onSubmit`, reached once the schema accepts the values: the record goes into the
      stored list and the browser returns to the customer list. */
  method Save(store: LocalStore, customerId: string, data: Values, n: nat)
    returns (saved: Customer, toast: string, route: string)
    requires n < 10000
    modifies store
    ensures saved == ToCustomer(SavedId(customerId, n), data)
    ensures store.customers == Some(Upserted(ListOrEmpty(old(store.customers)), CustomerId, customerId, saved))
    ensures toast == (if IsEditMode(customerId) then "Customer updated successfully" else "Customer added successfully")
    ensures route == CustomersRoute
    ensures store.vehicles == old(store.vehicles) && store.inventory == old(store.inventory)
    ensures store.customServices == old(store.customServices) && store.selectedServices == old(store.selectedServices)
  {
    var id := if customerId != "" then customerId else IdPrefix + Pad4(n);
    saved := Customer(id, data.name, data.mobile, data.email, data.altContact, data.address, data.notes);
    var existingCustomers := ListOrEmpty(store.customers);
    if customerId != "" {
      store.customers := Some(Collections.ReplaceWhere(existingCustomers, CustomerId, customerId, saved));
      toast := "Customer updated successfully";
    } else {
      existingCustomers := existingCustomers + [saved];
      store.customers := Some(existingCustomers);
      toast := "Customer added successfully";
    }
    route := CustomersRoute;
  }

  /** The form's submit, validated by the schema as written: values it refuses stay in
      the form and nothing is stored; accepted values are saved. */
  method HandleSubmit(store: LocalStore, customerId: string, data: Values, n: nat, isEmail: string -> bool)
    returns (saved: Option<Customer>)
    requires n < 10000
    modifies store
    ensures !SchemaAsWritten(data, isEmail) ==> saved.None? && store.customers == old(store.customers)
    ensures SchemaAsWritten(data, isEmail) ==>
              saved == Some(ToCustomer(SavedId(customerId, n), data))
              && store.customers == Some(Upserted(ListOrEmpty(old(store.customers)), CustomerId, customerId, saved.value))
    ensures store.vehicles == old(store.vehicles) && store.inventory == old(store.inventory)
    ensures store.customServices == old(store.customServices) && store.selectedServices == old(store.selectedServices)
  {
    if !SchemaAsWritten(data, isEmail) {
      return None;
    }
    var rec, _, _ := Save(store, customerId, data, n);
    saved := Some(rec);
  }

  /** The submit with the intended schema, under which a blank email is no email. */
  method HandleSubmitCorrected(store: LocalStore, customerId: string, data: Values, n: nat, isEmail: string -> bool)
    returns (saved: Option<Customer>)
    requires n < 10000
    modifies store
    ensures !SchemaAccepts(data, isEmail) ==> saved.None? && store.customers == old(store.customers)
    ensures SchemaAccepts(data, isEmail) ==>
              saved == Some(ToCustomer(SavedId(customerId, n), data))
              && store.customers == Some(Upserted(ListOrEmpty(old(store.customers)), CustomerId, customerId, saved.value))
    ensures store.vehicles == old(store.vehicles) && store.inventory == old(store.inventory)
    ensures store.customServices == old(store.customServices) && store.selectedServices == old(store.selectedServices)
  {
    if !SchemaAccepts(data, isEmail) {
      return None;
    }
    var rec, _, _ := Save(store, customerId, data, n);
    saved := Some(rec);
  }

  /** Editing a customer and saving the form unchanged stores the customer as it was. */
  lemma EditUnchanged(c: Customer)
    requires c.id != "" && c.email.Some?
    ensures ToCustomer(SavedId(c.id, 0), DefaultValues(Some(c))) == c
  {
  }
}
