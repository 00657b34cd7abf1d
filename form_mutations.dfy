/** The form-validated mutations of crm/schema.py: each mutation fills a Django form,
    saves it when it is valid and otherwise returns the form's errors.

    Of the form machinery, the `clean_*` methods are modelled, together with the
    existence check the two choice fields of `OrderForm` make. Every field is cleaned
    and the errors of all failing fields are collected in field order. */
module FormMutations {
  import opened Wrappers
  import opened Text

  datatype FormCustomer = FormCustomer(id: nat, name: string, email: string, phone: Option<string>)
  datatype FormProduct = FormProduct(id: nat, name: string, price: int)
  datatype FormOrder = FormOrder(id: nat, customerId: nat, productId: nat, quantity: int)

  /** What a mutation returns: the saved object and no errors, or no object and the
      error messages. */
  datatype Payload<T> = Payload(obj: Option<T>, errors: Option<seq<string>>)

  /** Django's message for a choice field given a key that is not in the store. */
  const InvalidChoiceMessage: string := "Select a valid choice. That choice is not one of the available choices."

  // ---------------------------------------------------------------------------
  // clean_email, clean_price, clean_quantity

  /** An email as `clean_email` leaves it: no upper case, no white space at either end. */
  predicate IsNormalEmail(e: string) {
    NoUpper(e) && (e == [] || (!IsSpace(e[0]) && !IsSpace(e[|e| - 1])))
  }

  /** `email.lower().strip()`. */
  function NormalizeEmail(raw: string): (e: string)
    ensures IsNormalEmail(e)
  {
    LowerNoUpper(raw);
    StripKeepsNoUpper(Lower(raw));
    Strip(Lower(raw))
  }

  /** Exactly the emails in normal form are left as they are. */
  lemma NormalEmailFixed(e: string)
    ensures NormalizeEmail(e) == e <==> IsNormalEmail(e)
  {
    if IsNormalEmail(e) {
      LowerOfLowered(e);
      StripOfStripped(e);
    }
  }

  /** Normalising twice is normalising once. */
  lemma NormalizeEmailIdempotent(raw: string)
    ensures NormalizeEmail(NormalizeEmail(raw)) == NormalizeEmail(raw)
  {
    NormalEmailFixed(NormalizeEmail(raw));
  }

  predicate EmailStored(customers: seq<FormCustomer>, email: string) {
    exists i :: 0 <= i < |customers| && customers[i].email == email
  }

  /** `CustomerForm.clean_email`: the normalised email, unless a customer already has it. */
  function CleanEmail(customers: seq<FormCustomer>, raw: string): (r: Result<string, string>)
    ensures r.Ok? <==> !EmailStored(customers, NormalizeEmail(raw))
    ensures r.Ok? ==> r.value == NormalizeEmail(raw)
    ensures r.Err? ==> r.error == "Email already exists"
  {
    var email := NormalizeEmail(raw);
    if EmailStored(customers, email) then Err("Email already exists") else Ok(email)
  }

  /** `ProductForm.clean_price`. */
  function CleanPrice(price: int): (r: Result<int, string>)
    ensures r.Ok? <==> price > 0
    ensures r.Ok? ==> r.value == price
    ensures r.Err? ==> r.error == "Price must be positive"
  {
    if price <= 0 then Err("Price must be positive") else Ok(price)
  }

  /** `OrderForm.clean_quantity`. */
  function CleanQuantity(quantity: int): (r: Result<int, string>)
    ensures r.Ok? <==> quantity > 0
    ensures r.Ok? ==> r.value == quantity
    ensures r.Err? ==> r.error == "Quantity must be greater than 0"
  {
    if quantity <= 0 then Err("Quantity must be greater than 0") else Ok(quantity)
  }

  /** Differently written forms of a stored email are refused: case and surrounding
      white space do not matter. */
  lemma SameNormalFormRefused(customers: seq<FormCustomer>, c: FormCustomer, raw: string)
    requires c.email == NormalizeEmail(raw)
    ensures CleanEmail(customers + [c], raw) == Err("Email already exists")
  {
    assert (customers + [c])[|customers|] == c;
  }

  /** After a customer is saved, submitting the email it was saved with again, in any
      case and with any white space around it, is refused. */
  lemma ResubmissionRefused(customers: seq<FormCustomer>, c: FormCustomer, raw: string, again: string)
    requires CleanEmail(customers, raw).Ok? && c.email == CleanEmail(customers, raw).value
    requires NormalizeEmail(again) == NormalizeEmail(raw)
    ensures CleanEmail(customers + [c], again) == Err("Email already exists")
  {
    SameNormalFormRefused(customers, c, again);
  }

  /** Every saved customer passed `clean_email` against the customers saved before it:
      its email is in normal form and none of them had it. */
  ghost predicate DistinctNormalEmails(customers: seq<FormCustomer>)
    decreases |customers|
  {
    customers == []
    || (var init, last := customers[..|customers| - 1], customers[|customers| - 1];
        DistinctNormalEmails(init) && IsNormalEmail(last.email) && !EmailStored(init, last.email))
  }

  /** So the saved emails are normalised and no two customers share one. */
  lemma {:induction false} DistinctEmailsPairwise(customers: seq<FormCustomer>)
    requires DistinctNormalEmails(customers)
    ensures forall i :: 0 <= i < |customers| ==> IsNormalEmail(customers[i].email)
    ensures forall i, j :: 0 <= i < j < |customers| ==> customers[i].email != customers[j].email
  {
    if customers != [] {
      var n := |customers| - 1;
      var init := customers[..n];
      DistinctEmailsPairwise(init);
      forall i | 0 <= i < |customers| ensures IsNormalEmail(customers[i].email) {
        if i < n {
          assert customers[i] == init[i];
        }
      }
      forall i, j | 0 <= i < j < |customers| ensures customers[i].email != customers[j].email {
        assert customers[i] == init[i];
        if j < n {
          assert customers[j] == init[j];
        }
      }
    }
  }

  /** Saving what `clean_email` let through keeps the emails distinct and normalised. */
  lemma CleanEmailKeepsDistinct(customers: seq<FormCustomer>, c: FormCustomer, raw: string)
    requires DistinctNormalEmails(customers)
    requires CleanEmail(customers, raw).Ok? && c.email == CleanEmail(customers, raw).value
    ensures DistinctNormalEmails(customers + [c])
  {
    assert (customers + [c])[..|customers|] == customers;
  }

  // ---------------------------------------------------------------------------
  // Form errors and payloads

  function ErrorOf<T>(r: Result<T, string>): seq<string> {
    if r.Err? then [r.error] else []
  }

  /** `errors` of `OrderForm`: the customer, product and quantity fields, in that order. */
  function OrderFormErrors(customerExists: bool, productExists: bool, quantity: int): (errs: seq<string>)
    ensures errs == [] <==> customerExists && productExists && quantity > 0
    ensures |errs| == (if customerExists then 0 else 1) + (if productExists then 0 else 1) + (if quantity > 0 then 0 else 1)
  {
    (if customerExists then [] else [InvalidChoiceMessage])
      + (if productExists then [] else [InvalidChoiceMessage])
      + ErrorOf(CleanQuantity(quantity))
  }

  /** The result of a mutation whose form had `errs`, saving `obj` when there were none. */
  function PayloadOf<T>(errs: seq<string>, obj: T): (p: Payload<T>)
    ensures p.obj.Some? != p.errors.Some?
    ensures p.obj.Some? <==> errs == []
    ensures p.obj.Some? ==> p.obj.value == obj
    ensures p.errors.Some? ==> p.errors.value == errs && p.errors.value != []
  {
    if errs == [] then Payload(Some(obj), None) else Payload(None, Some(errs))
  }

  // ---------------------------------------------------------------------------
  // The store

  class FormStore {
    var customers: seq<FormCustomer>
    var products: seq<FormProduct>
    var orders: seq<FormOrder>
    /** Each table has its own auto-increment sequence. */
    var nextCustomerId: nat
    var nextProductId: nat
    var nextOrderId: nat

    /** The store starts empty and its customers are added only through `CreateCustomer`,
        so every stored email passed `clean_email` against the customers before it. */
    ghost predicate Valid()
      reads this
    {
      DistinctNormalEmails(customers)
    }

    constructor ()
      ensures Valid()
      ensures customers == [] && products == [] && orders == []
      ensures nextCustomerId == 1 && nextProductId == 1 && nextOrderId == 1
    {
      customers, products, orders := [], [], [];
      nextCustomerId, nextProductId, nextOrderId := 1, 1, 1;
    }

    function CustomerExists(id: nat): bool
      reads this
    {
      exists i :: 0 <= i < |customers| && customers[i].id == id
    }

    function ProductExists(id: nat): bool
      reads this
    {
      exists i :: 0 <= i < |products| && products[i].id == id
    }

    /** `CreateCustomer.mutate`: the customer is saved with the normalised email. */
    method CreateCustomer(name: string, email: string, phone: Option<string>) returns (p: Payload<FormCustomer>)
      requires Valid()
      modifies this
      ensures Valid()
      ensures products == old(products) && orders == old(orders)
      ensures nextProductId == old(nextProductId) && nextOrderId == old(nextOrderId)
      ensures var c := FormCustomer(old(nextCustomerId), name, NormalizeEmail(email), phone);
        && p == PayloadOf(ErrorOf(CleanEmail(old(customers), email)), c)
        && customers == (if p.obj.Some? then old(customers) + [c] else old(customers))
        && nextCustomerId == (if p.obj.Some? then old(nextCustomerId) + 1 else old(nextCustomerId))
    {
      var cleaned := CleanEmail(customers, email);
      var c := FormCustomer(nextCustomerId, name, NormalizeEmail(email), phone);
      if cleaned.Ok? {
        CleanEmailKeepsDistinct(customers, c, email);
        customers := customers + [c];
        nextCustomerId := nextCustomerId + 1;
        p := Payload(Some(c), None);
      } else {
        p := Payload(None, Some([cleaned.error]));
      }
    }

    /** `CreateProduct.mutate`. */
    method CreateProduct(name: string, price: int) returns (p: Payload<FormProduct>)
      requires Valid()
      modifies this
      ensures Valid()
      ensures customers == old(customers) && orders == old(orders)
      ensures nextCustomerId == old(nextCustomerId) && nextOrderId == old(nextOrderId)
      ensures var item := FormProduct(old(nextProductId), name, price);
        && p == PayloadOf(ErrorOf(CleanPrice(price)), item)
        && products == (if p.obj.Some? then old(products) + [item] else old(products))
        && nextProductId == (if p.obj.Some? then old(nextProductId) + 1 else old(nextProductId))
    {
      var cleaned := CleanPrice(price);
      var item := FormProduct(nextProductId, name, price);
      if cleaned.Ok? {
        products := products + [item];
        nextProductId := nextProductId + 1;
        p := Payload(Some(item), None);
      } else {
        p := Payload(None, Some([cleaned.error]));
      }
    }

    /** `CreateOrder.mutate`. */
    method CreateOrder(customerId: nat, productId: nat, quantity: int) returns (p: Payload<FormOrder>)
      requires Valid()
      modifies this
      ensures Valid()
      ensures customers == old(customers) && products == old(products)
      ensures nextCustomerId == old(nextCustomerId) && nextProductId == old(nextProductId)
      ensures var o := FormOrder(old(nextOrderId), customerId, productId, quantity);
        && p == PayloadOf(OrderFormErrors(old(CustomerExists(customerId)), old(ProductExists(productId)), quantity), o)
        && orders == (if p.obj.Some? then old(orders) + [o] else old(orders))
        && nextOrderId == (if p.obj.Some? then old(nextOrderId) + 1 else old(nextOrderId))
    {
      var customerExists := CustomerExists(customerId);
      var productExists := ProductExists(productId);
      var errs := OrderFormErrors(customerExists, productExists, quantity);
      var o := FormOrder(nextOrderId, customerId, productId, quantity);
      if errs == [] {
        orders := orders + [o];
        nextOrderId := nextOrderId + 1;
        p := Payload(Some(o), None);
      } else {
        p := Payload(None, Some(errs));
      }
    }
  }
}
