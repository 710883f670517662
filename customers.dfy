/** The customer roster: the search over names and phones, and the customer form. */
module Customers {
  import opened Values
  import opened Text
  import opened Lists

  /** A customer row; phone and e-mail may be missing. */
  datatype Customer = Customer(id: string, name: string, phone: Option<string>, email: Option<string>)

  /** The customer form's fields. */
  datatype CustomerForm = CustomerForm(name: string, phone: string, email: string)

  const BlankCustomerForm := CustomerForm("", "", "")

  /** The name contains the search case-insensitively, or the phone, when there is one,
      contains it exactly as typed. */
  predicate CustomerMatches(c: Customer, search: string)
  {
    Includes(ToLower(c.name), ToLower(search)) || (c.phone.Some? && Includes(c.phone.value, search))
  }

  /** `filteredCustomers`. */
  function FilterCustomers(customers: seq<Customer>, search: string): (r: seq<Customer>)
    ensures forall c :: c in r <==> c in customers && CustomerMatches(c, search)
    ensures forall c :: c in customers && c.phone.None? && Includes(ToLower(c.name), ToLower(search)) ==> c in r
  {
    Filter(customers, (c: Customer) => CustomerMatches(c, search))
  }

  /** The list is searched customer by customer: the result over two parts of the list
      is the two results in a row. */
  lemma FilterCustomersAppend(a: seq<Customer>, b: seq<Customer>, search: string)
    ensures FilterCustomers(a + b, search) == FilterCustomers(a, search) + FilterCustomers(b, search)
  {
    FilterAppend(a, b, (c: Customer) => CustomerMatches(c, search));
  }

  /** An empty search shows every customer, in order. */
  lemma EmptySearchKeepsAllCustomers(customers: seq<Customer>)
    ensures FilterCustomers(customers, "") == customers
  {
    forall i | 0 <= i < |customers| ensures CustomerMatches(customers[i], "") {
      IncludesEmpty(ToLower(customers[i].name));
    }
    FilterKeepsAll(customers, (c: Customer) => CustomerMatches(c, ""));
  }

  /** What the form's submission asks of the store. */
  datatype CustomerRequest = UpdateCustomer(id: string, form: CustomerForm) | InsertCustomer(form: CustomerForm)

  /** The roster's form state. */
  class CustomerScreen {
    var showModal: bool
    var form: CustomerForm
    var editingId: Option<string>

    constructor ()
      ensures !showModal && form == BlankCustomerForm && editingId == None
    {
      showModal := false;
      form := BlankCustomerForm;
      editingId := None;
    }

    /** `openModal(customer)` edits it, with missing phone or e-mail as empty text;
        `openModal()` opens a blank form. */
    method OpenModal(customer: Option<Customer>)
      modifies this
      ensures showModal
      ensures customer.Some? ==>
        editingId == Some(customer.value.id)
        && form == CustomerForm(customer.value.name, TextOr(customer.value.phone), TextOr(customer.value.email))
      ensures customer.None? ==> editingId == None && form == BlankCustomerForm
    {
      showModal := true;
      match customer
      case Some(c) =>
        editingId := Some(c.id);
        form := CustomerForm(c.name, TextOr(c.phone), TextOr(c.email));
      case None =>
        editingId := None;
        form := BlankCustomerForm;
    }

    /** `closeModal`. */
    method CloseModal()
      modifies this
      ensures !showModal && editingId == None && form == BlankCustomerForm
    {
      showModal := false;
      editingId := None;
      form := BlankCustomerForm;
    }

    /** `handleSubmit`: an update of the edited customer, or an insert, never both; the
        form closes when the store accepts it. */
    method Submit(ok: bool) returns (request: CustomerRequest)
      modifies this
      ensures TruthyString(old(editingId)) ==> request == UpdateCustomer(old(editingId).value, old(form))
      ensures !TruthyString(old(editingId)) ==> request == InsertCustomer(old(form))
      ensures ok ==> !showModal && editingId == None && form == BlankCustomerForm
      ensures !ok ==> showModal == old(showModal) && editingId == old(editingId) && form == old(form)
    {
      if TruthyString(editingId) {
        request := UpdateCustomer(editingId.value, form);
      } else {
        request := InsertCustomer(form);
      }
      if ok {
        CloseModal();
      }
    }
  }
}
