/** The create mutations of the GraphQL schema (alx_backend_graphql_crm/crm/schema.py)
    over an abstract store of customers, products and orders.

    A raised exception is an `Err` carrying its message. Prices and amounts are integer
    cents; ids are the store's auto-incremented integer keys. */
module GraphqlMutations {
  import opened Wrappers
  import opened Text
  import opened PhonePattern

  datatype Customer = Customer(id: nat, name: string, email: string, phone: Option<string>)
  datatype CatalogProduct = CatalogProduct(id: nat, name: string, price: int, stock: int)
  datatype Order = Order(id: nat, customerId: nat, productIds: seq<nat>, totalAmount: int, orderDate: string)

  /** One `CustomerInput` row of a bulk request. */
  datatype CustomerInput = CustomerInput(name: string, email: string, phone: Option<string>)

  const CustomerCreatedMessage: string := "Customer created successfully."

  // ---------------------------------------------------------------------------
  // Customers

  predicate EmailTaken(customers: seq<Customer>, email: string) {
    exists i :: 0 <= i < |customers| && customers[i].email == email
  }

  /** `if phone and ...`: a missing or empty phone is not checked. */
  predicate PhoneGiven(phone: Option<string>) {
    phone.Some? && phone.value != []
  }

  predicate PhoneRejected(phone: Option<string>) {
    PhoneGiven(phone) && !PhoneAccepted(phone.value)
  }

  /** Why `CreateCustomer` refuses, if it does: the email check comes first. */
  function CreateCustomerError(customers: seq<Customer>, email: string, phone: Option<string>): Option<string> {
    if EmailTaken(customers, email) then Some("Email already exists")
    else if PhoneRejected(phone) then Some("Invalid phone format")
    else None
  }

  /** A taken email is reported whatever the phone; otherwise the phone is refused exactly
      when it is given and has neither accepted shape. */
  lemma CreateCustomerRules(customers: seq<Customer>, email: string, phone: Option<string>)
    ensures EmailTaken(customers, email) ==> CreateCustomerError(customers, email, phone) == Some("Email already exists")
    ensures !EmailTaken(customers, email) ==>
      ((CreateCustomerError(customers, email, phone) == Some("Invalid phone format"))
         <==> PhoneGiven(phone) && !IsValidPhone(phone.value))
    ensures CreateCustomerError(customers, email, phone) == None
        <==> !EmailTaken(customers, email) && (!PhoneGiven(phone) || IsValidPhone(phone.value))
  {
    if phone.Some? {
      PhoneAcceptedMeaning(phone.value);
    }
  }

  // ---------------------------------------------------------------------------
  // Bulk creation

  datatype RowVerdict = RowCreated(customer: Customer) | RowRejected(reason: string)

  /** Why one bulk row is refused, if it is, against the customers stored so far. */
  function RowRejection(customers: seq<Customer>, row: CustomerInput): Option<string> {
    if EmailTaken(customers, row.email) then Some("Email already exists: " + row.email)
    else if PhoneRejected(row.phone) then Some("Invalid phone format: " + row.phone.value)
    else None
  }

  /** The store, the next id and the verdicts so far. */
  datatype BulkState = BulkState(customers: seq<Customer>, nextId: nat, verdicts: seq<RowVerdict>)

  /** One row: refused, or created with the next id and added to the store. */
  function BulkStep(st: BulkState, row: CustomerInput): BulkState {
    match RowRejection(st.customers, row)
    case Some(reason) => st.(verdicts := st.verdicts + [RowRejected(reason)])
    case None =>
      var c := Customer(st.nextId, row.name, row.email, row.phone);
      BulkState(st.customers + [c], st.nextId + 1, st.verdicts + [RowCreated(c)])
  }

  function BulkRun(customers: seq<Customer>, nextId: nat, rows: seq<CustomerInput>): (r: BulkState)
    ensures |r.verdicts| == |rows|
  {
    if rows == [] then BulkState(customers, nextId, [])
    else BulkStep(BulkRun(customers, nextId, rows[..|rows| - 1]), rows[|rows| - 1])
  }

  /** The `created` list: the created customers in row order. */
  function CreatedOf(vs: seq<RowVerdict>): seq<Customer> {
    if vs == [] then []
    else CreatedOf(vs[..|vs| - 1]) + (if vs[|vs| - 1].RowCreated? then [vs[|vs| - 1].customer] else [])
  }

  /** The message for a refused row, numbered from 1. */
  function RowError(idx: nat, reason: string): string {
    "Row " + NatToString(idx + 1) + ": " + reason
  }

  /** The `errors` list: one numbered message per refused row, in row order. */
  function ErrorsOf(vs: seq<RowVerdict>): seq<string> {
    if vs == [] then []
    else ErrorsOf(vs[..|vs| - 1]) + (if vs[|vs| - 1].RowRejected? then [RowError(|vs| - 1, vs[|vs| - 1].reason)] else [])
  }

  lemma VerdictsSnoc(vs: seq<RowVerdict>, v: RowVerdict)
    ensures CreatedOf(vs + [v]) == CreatedOf(vs) + (if v.RowCreated? then [v.customer] else [])
    ensures ErrorsOf(vs + [v]) == ErrorsOf(vs) + (if v.RowRejected? then [RowError(|vs|, v.reason)] else [])
  {
    assert (vs + [v])[..|vs|] == vs;
  }

  lemma BulkRunStep(customers: seq<Customer>, nextId: nat, rows: seq<CustomerInput>, i: nat)
    requires i < |rows|
    ensures BulkRun(customers, nextId, rows[..i + 1]) == BulkStep(BulkRun(customers, nextId, rows[..i]), rows[i])
  {
    assert rows[..i + 1][..i] == rows[..i];
  }

  /** Every row is accounted for exactly once: created or reported. */
  lemma {:induction false} BulkAccounting(vs: seq<RowVerdict>)
    ensures |CreatedOf(vs)| + |ErrorsOf(vs)| == |vs|
  {
    if vs != [] {
      BulkAccounting(vs[..|vs| - 1]);
    }
  }

  /** The store after the batch is the store before it followed by the created customers. */
  lemma {:induction false} BulkStoreGrows(customers: seq<Customer>, nextId: nat, rows: seq<CustomerInput>)
    ensures var r := BulkRun(customers, nextId, rows);
      r.customers == customers + CreatedOf(r.verdicts) && r.nextId == nextId + |CreatedOf(r.verdicts)|
  {
    if rows != [] {
      var prev := BulkRun(customers, nextId, rows[..|rows| - 1]);
      BulkStoreGrows(customers, nextId, rows[..|rows| - 1]);
      var r := BulkRun(customers, nextId, rows);
      assert r.verdicts[..|r.verdicts| - 1] == prev.verdicts;
    }
  }

  /** Later rows never change the verdicts of earlier ones, and the store only grows. */
  lemma {:induction false} BulkRunPrefix(customers: seq<Customer>, nextId: nat, rows: seq<CustomerInput>, j: nat)
    requires j <= |rows|
    ensures var r, p := BulkRun(customers, nextId, rows), BulkRun(customers, nextId, rows[..j]);
      p.verdicts == r.verdicts[..j] && |p.customers| <= |r.customers| && p.customers == r.customers[..|p.customers|]
  {
    if j < |rows| {
      var init := rows[..|rows| - 1];
      assert init[..j] == rows[..j];
      BulkRunPrefix(customers, nextId, init, j);
      var q := BulkRun(customers, nextId, init);
      var r := BulkRun(customers, nextId, rows);
      assert r.verdicts[..|init|] == q.verdicts;
      assert r.customers[..|q.customers|] == q.customers;
    } else {
      assert rows[..j] == rows;
    }
  }

  /** The verdict of row k is decided against the store left by rows 0..k-1. */
  lemma BulkVerdictAt(customers: seq<Customer>, nextId: nat, rows: seq<CustomerInput>, k: nat)
    requires k < |rows|
    ensures var prev := BulkRun(customers, nextId, rows[..k]);
      BulkRun(customers, nextId, rows).verdicts[k]
        == match RowRejection(prev.customers, rows[k])
           case Some(reason) => RowRejected(reason)
           case None => RowCreated(Customer(prev.nextId, rows[k].name, rows[k].email, rows[k].phone))
  {
    BulkRunPrefix(customers, nextId, rows, k + 1);
    BulkRunStep(customers, nextId, rows, k);
  }

  /** A row repeating the email of an earlier row of the same batch that was created is
      refused with "Email already exists". */
  lemma BulkRejectsBatchDuplicate(customers: seq<Customer>, nextId: nat, rows: seq<CustomerInput>, i: nat, j: nat)
    requires i < j < |rows| && rows[i].email == rows[j].email
    requires BulkRun(customers, nextId, rows).verdicts[i].RowCreated?
    ensures BulkRun(customers, nextId, rows).verdicts[j] == RowRejected("Email already exists: " + rows[j].email)
  {
    var r := BulkRun(customers, nextId, rows);
    var pi := BulkRun(customers, nextId, rows[..i]);
    BulkVerdictAt(customers, nextId, rows, i);
    var c := r.verdicts[i].customer;
    assert c.email == rows[i].email;
    // The store before row i+1 ends with c.
    var pi1 := BulkRun(customers, nextId, rows[..i + 1]);
    BulkRunStep(customers, nextId, rows, i);
    assert pi1.customers == pi.customers + [c];
    // The store before row j extends it.
    var pre := rows[..j];
    assert pre[..i + 1] == rows[..i + 1];
    BulkRunPrefix(customers, nextId, pre, i + 1);
    var pj := BulkRun(customers, nextId, pre);
    var at := |pi1.customers| - 1;
    assert pj.customers[at] == pi1.customers[at] == c;
    assert EmailTaken(pj.customers, rows[j].email);
    BulkVerdictAt(customers, nextId, rows, j);
  }

  // ---------------------------------------------------------------------------
  // Products

  /** Why `CreateProduct` refuses, if it does: the price check comes first. */
  function CreateProductError(price: int, stock: int): Option<string> {
    if price <= 0 then Some("Price must be positive")
    else if stock < 0 then Some("Stock cannot be negative")
    else None
  }

  /** The `stock` argument, 0 when omitted. */
  function StockArgument(stock: Option<int>): int {
    stock.GetOr(0)
  }

  // ---------------------------------------------------------------------------
  // Orders

  predicate CustomerExists(customers: seq<Customer>, id: nat) {
    exists i :: 0 <= i < |customers| && customers[i].id == id
  }

  function StoreIds(ps: seq<CatalogProduct>): set<nat> {
    if ps == [] then {} else StoreIds(ps[..|ps| - 1]) + {ps[|ps| - 1].id}
  }

  lemma {:induction false} StoreIdsMember(ps: seq<CatalogProduct>, x: nat)
    ensures x in StoreIds(ps) <==> exists k :: 0 <= k < |ps| && ps[k].id == x
  {
    if ps != [] {
      var init := ps[..|ps| - 1];
      StoreIdsMember(init, x);
      if x in StoreIds(init) {
        var k :| 0 <= k < |init| && init[k].id == x;
        assert ps[k] == init[k];
      }
      if exists k :: 0 <= k < |ps| && ps[k].id == x {
        var k :| 0 <= k < |ps| && ps[k].id == x;
        if k < |init| {
          assert init[k] == ps[k];
        }
      }
    }
  }

  function Elems(ids: seq<nat>): set<nat> {
    set x | x in ids
  }

  predicate NoDup(ids: seq<nat>) {
    forall i, j :: 0 <= i < j < |ids| ==> ids[i] != ids[j]
  }

  predicate DistinctIds(ps: seq<CatalogProduct>) {
    forall i, j :: 0 <= i < j < |ps| ==> ps[i].id != ps[j].id
  }

  /** `Product.objects.filter(pk__in=product_ids)`, in store order. */
  function Matched(ps: seq<CatalogProduct>, ids: seq<nat>): (r: seq<CatalogProduct>)
    ensures |r| <= |ps|
    ensures forall k :: 0 <= k < |r| ==> r[k] in ps && r[k].id in ids
  {
    if ps == [] then []
    else
      var init, last := ps[..|ps| - 1], ps[|ps| - 1];
      assert ps == init + [last];
      Matched(init, ids) + (if last.id in ids then [last] else [])
  }

  /** A product is matched exactly when it is in the store and its id was requested:
      none is missed. */
  lemma {:induction false} MatchedMembers(ps: seq<CatalogProduct>, ids: seq<nat>, p: CatalogProduct)
    ensures p in Matched(ps, ids) <==> p in ps && p.id in ids
  {
    if ps != [] {
      var init, last := ps[..|ps| - 1], ps[|ps| - 1];
      MatchedMembers(init, ids, p);
      assert ps == init + [last];
    }
  }

  function PriceSum(ps: seq<CatalogProduct>): int {
    if ps == [] then 0 else PriceSum(ps[..|ps| - 1]) + ps[|ps| - 1].price
  }

  function IdsOf(ps: seq<CatalogProduct>): (r: seq<nat>)
    ensures |r| == |ps| && forall k :: 0 <= k < |ps| ==> r[k] == ps[k].id
  {
    if ps == [] then [] else IdsOf(ps[..|ps| - 1]) + [ps[|ps| - 1].id]
  }

  /** Why `CreateOrder` refuses, if it does, in the order of the checks. */
  function CreateOrderError(customers: seq<Customer>, products: seq<CatalogProduct>, customerId: nat,
                            productIds: seq<nat>): Option<string> {
    if !CustomerExists(customers, customerId) then Some("Invalid customer ID")
    else
      var m := Matched(products, productIds);
      if m == [] then Some("At least one valid product is required")
      else if |m| != |productIds| then Some("One or more product IDs are invalid")
      else None
  }

  /** With distinct store ids, the matched products are as many as the distinct requested
      ids that exist. */
  lemma {:induction false} MatchedCount(ps: seq<CatalogProduct>, ids: seq<nat>)
    requires DistinctIds(ps)
    ensures |Matched(ps, ids)| == |Elems(ids) * StoreIds(ps)|
  {
    if ps != [] {
      var init, last := ps[..|ps| - 1], ps[|ps| - 1];
      assert DistinctIds(init);
      MatchedCount(init, ids);
      StoreIdsMember(init, last.id);
      assert last.id !in StoreIds(init) by {
        forall k | 0 <= k < |init| ensures init[k].id != last.id {
          assert init[k] == ps[k];
        }
      }
      var a := Elems(ids) * StoreIds(init);
      if last.id in ids {
        assert Elems(ids) * StoreIds(ps) == a + {last.id};
      } else {
        assert Elems(ids) * StoreIds(ps) == a;
      }
    }
  }

  /** A list has as many distinct elements as entries exactly when it has no duplicate. */
  lemma {:induction false} ElemsCount(ids: seq<nat>)
    ensures |Elems(ids)| <= |ids|
    ensures |Elems(ids)| == |ids| <==> NoDup(ids)
  {
    if ids != [] {
      var init, last := ids[..|ids| - 1], ids[|ids| - 1];
      ElemsCount(init);
      assert ids == init + [last];
      assert Elems(ids) == Elems(init) + {last};
      if last in init {
        assert Elems(ids) == Elems(init);
        var k :| 0 <= k < |init| && init[k] == last;
        assert ids[k] == ids[|ids| - 1];
      } else {
        assert NoDup(ids) <==> NoDup(init) by {
          if NoDup(init) {
            forall i, j | 0 <= i < j < |ids| ensures ids[i] != ids[j] {
              if j == |ids| - 1 {
                assert ids[i] == init[i];
              } else {
                assert ids[i] == init[i] && ids[j] == init[j];
              }
            }
          }
          if NoDup(ids) {
            forall i, j | 0 <= i < j < |init| ensures init[i] != init[j] {
              assert ids[i] == init[i] && ids[j] == init[j];
            }
          }
        }
      }
    }
  }

  lemma {:induction false} SubsetSmaller(a: set<nat>, b: set<nat>)
    requires a <= b
    ensures |a| <= |b|
    decreases |a|
  {
    if a != {} {
      var x :| x in a;
      SubsetSmaller(a - {x}, b - {x});
    }
  }

  lemma SubsetOfSameSize(a: set<nat>, b: set<nat>)
    requires a <= b && |a| == |b|
    ensures a == b
  {
    if a != b {
      var x :| x in b && x !in a;
      SubsetSmaller(a, b - {x});
    }
  }

  /** With distinct store ids and an existing customer, `CreateOrder` succeeds exactly
      when the requested ids are non-empty, pairwise distinct and all in the store; so a
      repeated id is refused as well as a missing one. */
  lemma CreateOrderAccepts(customers: seq<Customer>, products: seq<CatalogProduct>, customerId: nat, productIds: seq<nat>)
    requires DistinctIds(products) && CustomerExists(customers, customerId)
    ensures CreateOrderError(customers, products, customerId, productIds) == None
        <==> productIds != [] && NoDup(productIds) && forall id :: id in productIds ==> id in StoreIds(products)
  {
    var m := Matched(products, productIds);
    var e, s := Elems(productIds), StoreIds(products);
    MatchedCount(products, productIds);
    ElemsCount(productIds);
    SubsetSmaller(e * s, e);
    if productIds != [] && NoDup(productIds) && forall id :: id in productIds ==> id in s {
      assert e * s == e;
      assert productIds[0] in e;
    }
    if m != [] && |m| == |productIds| {
      SubsetOfSameSize(e * s, e);
      forall id | id in productIds ensures id in s {
        assert id in e;
      }
    }
  }

  /** Every matched product counts once in the total; with positive prices an accepted
      order has a positive total. */
  lemma {:induction false} PriceSumPositive(ps: seq<CatalogProduct>)
    requires forall k :: 0 <= k < |ps| ==> ps[k].price > 0
    ensures ps != [] ==> PriceSum(ps) > 0
    ensures PriceSum(ps) >= 0
  {
    if ps != [] {
      PriceSumPositive(ps[..|ps| - 1]);
    }
  }

  /** Products with positive prices give a positive total to any non-empty order. */
  lemma MatchedTotalPositive(ps: seq<CatalogProduct>, ids: seq<nat>)
    requires forall i :: 0 <= i < |ps| ==> ps[i].price > 0
    ensures Matched(ps, ids) != [] ==> PriceSum(Matched(ps, ids)) > 0
  {
    var m := Matched(ps, ids);
    forall k | 0 <= k < |m| ensures m[k].price > 0 {
      assert m[k] in ps;
    }
    PriceSumPositive(m);
  }

  // ---------------------------------------------------------------------------
  // The store

  class CrmStore {
    var customers: seq<Customer>
    var products: seq<CatalogProduct>
    var orders: seq<Order>
    var nextCustomerId: nat
    var nextProductId: nat
    var nextOrderId: nat

    /** Ids increase with insertion and stay below the next id to hand out; prices are
        positive, as `CreateProduct` enforces. */
    ghost predicate Valid()
      reads this
    {
      && (forall i, j :: 0 <= i < j < |customers| ==> customers[i].id < customers[j].id)
      && (forall i :: 0 <= i < |customers| ==> customers[i].id < nextCustomerId)
      && (forall i, j :: 0 <= i < j < |products| ==> products[i].id < products[j].id)
      && (forall i :: 0 <= i < |products| ==> products[i].id < nextProductId && products[i].price > 0)
      && (forall i :: 0 <= i < |orders| ==> orders[i].id < nextOrderId)
    }

    constructor ()
      ensures Valid()
      ensures customers == [] && products == [] && orders == []
      ensures nextCustomerId == 1 && nextProductId == 1 && nextOrderId == 1
    {
      customers, products, orders := [], [], [];
      nextCustomerId, nextProductId, nextOrderId := 1, 1, 1;
    }

    /** `Customer.objects.create`. */
    method AddCustomer(name: string, email: string, phone: Option<string>) returns (c: Customer)
      requires Valid()
      modifies this
      ensures Valid()
      ensures c == Customer(old(nextCustomerId), name, email, phone)
      ensures customers == old(customers) + [c] && nextCustomerId == old(nextCustomerId) + 1
      ensures products == old(products) && orders == old(orders)
      ensures nextProductId == old(nextProductId) && nextOrderId == old(nextOrderId)
    {
      c := Customer(nextCustomerId, name, email, phone);
      customers := customers + [c];
      nextCustomerId := nextCustomerId + 1;
    }

    /** `CreateCustomer.mutate`. */
    method CreateCustomer(name: string, email: string, phone: Option<string>) returns (r: Result<(Customer, string), string>)
      requires Valid()
      modifies this
      ensures Valid()
      ensures products == old(products) && orders == old(orders)
      ensures nextProductId == old(nextProductId) && nextOrderId == old(nextOrderId)
      ensures match CreateCustomerError(old(customers), email, phone)
              case Some(e) => r == Err(e) && customers == old(customers) && nextCustomerId == old(nextCustomerId)
              case None =>
                var c := Customer(old(nextCustomerId), name, email, phone);
                && r == Ok((c, CustomerCreatedMessage)) && customers == old(customers) + [c]
                && nextCustomerId == old(nextCustomerId) + 1
    {
      if EmailTaken(customers, email) {
        return Err("Email already exists");
      }
      if PhoneGiven(phone) && !PhoneAccepted(phone.value) {
        return Err("Invalid phone format");
      }
      var c := AddCustomer(name, email, phone);
      r := Ok((c, CustomerCreatedMessage));
    }

    /** The body of the loop of `BulkCreateCustomers.mutate` for one row: the checks,
        then the insertion when they pass. */
    method CreateRow(row: CustomerInput, ghost st: BulkState) returns (v: RowVerdict)
      requires Valid() && customers == st.customers && nextCustomerId == st.nextId
      modifies this
      ensures Valid()
      ensures products == old(products) && orders == old(orders)
      ensures nextProductId == old(nextProductId) && nextOrderId == old(nextOrderId)
      ensures BulkStep(st, row) == BulkState(customers, nextCustomerId, st.verdicts + [v])
    {
      if EmailTaken(customers, row.email) {
        return RowRejected("Email already exists: " + row.email);
      }
      if PhoneGiven(row.phone) && !PhoneAccepted(row.phone.value) {
        return RowRejected("Invalid phone format: " + row.phone.value);
      }
      var c := AddCustomer(row.name, row.email, row.phone);
      v := RowCreated(c);
    }

    /** `BulkCreateCustomers.mutate`: row by row, each row checked against the store as
        the earlier rows left it. */
    method BulkCreateCustomers(rows: seq<CustomerInput>) returns (created: seq<Customer>, errors: seq<string>)
      requires Valid()
      modifies this
      ensures Valid()
      ensures var run := BulkRun(old(customers), old(nextCustomerId), rows);
        && customers == run.customers && nextCustomerId == run.nextId
        && created == CreatedOf(run.verdicts) && errors == ErrorsOf(run.verdicts)
      ensures products == old(products) && orders == old(orders)
      ensures nextProductId == old(nextProductId) && nextOrderId == old(nextOrderId)
    {
      ghost var c0, n0 := customers, nextCustomerId;
      created, errors := [], [];
      ghost var run := BulkRun(c0, n0, []);
      var idx := 0;
      while idx < |rows|
        invariant 0 <= idx <= |rows|
        invariant Valid()
        invariant products == old(products) && orders == old(orders)
        invariant nextProductId == old(nextProductId) && nextOrderId == old(nextOrderId)
        invariant run == BulkRun(c0, n0, rows[..idx])
        invariant customers == run.customers && nextCustomerId == run.nextId
        invariant created == CreatedOf(run.verdicts) && errors == ErrorsOf(run.verdicts)
      {
        BulkRunStep(c0, n0, rows, idx);
        var v := CreateRow(rows[idx], run);
        VerdictsSnoc(run.verdicts, v);
        if v.RowCreated? {
          created := created + [v.customer];
        } else {
          errors := errors + [RowError(idx, v.reason)];
        }
        run := BulkState(customers, nextCustomerId, run.verdicts + [v]);
        idx := idx + 1;
      }
      assert rows[..|rows|] == rows;
    }

    /** `Product.objects.create`. */
    method AddProduct(name: string, price: int, stock: int) returns (p: CatalogProduct)
      requires Valid() && price > 0
      modifies this
      ensures Valid()
      ensures p == CatalogProduct(old(nextProductId), name, price, stock)
      ensures products == old(products) + [p] && nextProductId == old(nextProductId) + 1
      ensures customers == old(customers) && orders == old(orders)
      ensures nextCustomerId == old(nextCustomerId) && nextOrderId == old(nextOrderId)
    {
      p := CatalogProduct(nextProductId, name, price, stock);
      products := products + [p];
      nextProductId := nextProductId + 1;
    }

    /** `CreateProduct.mutate`; an omitted stock is 0. */
    method CreateProduct(name: string, price: int, stock: Option<int>) returns (r: Result<CatalogProduct, string>)
      requires Valid()
      modifies this
      ensures Valid()
      ensures customers == old(customers) && orders == old(orders)
      ensures nextCustomerId == old(nextCustomerId) && nextOrderId == old(nextOrderId)
      ensures match CreateProductError(price, StockArgument(stock))
              case Some(e) => r == Err(e) && products == old(products) && nextProductId == old(nextProductId)
              case None =>
                var p := CatalogProduct(old(nextProductId), name, price, StockArgument(stock));
                r == Ok(p) && products == old(products) + [p] && nextProductId == old(nextProductId) + 1
    {
      var s := stock.GetOr(0);
      if price <= 0 {
        return Err("Price must be positive");
      }
      if s < 0 {
        return Err("Stock cannot be negative");
      }
      var p := AddProduct(name, price, s);
      r := Ok(p);
    }

    /** `CreateOrder.mutate`; `now` stands for `timezone.now()`. */
    method CreateOrder(customerId: nat, productIds: seq<nat>, orderDate: Option<string>, now: string)
        returns (r: Result<Order, string>)
      requires Valid()
      modifies this
      ensures Valid()
      ensures customers == old(customers) && products == old(products)
      ensures nextCustomerId == old(nextCustomerId) && nextProductId == old(nextProductId)
      ensures match CreateOrderError(old(customers), old(products), customerId, productIds)
              case Some(e) => r == Err(e) && orders == old(orders) && nextOrderId == old(nextOrderId)
              case None =>
                var m := Matched(old(products), productIds);
                var o := Order(old(nextOrderId), customerId, IdsOf(m), PriceSum(m), orderDate.GetOr(now));
                && r == Ok(o) && orders == old(orders) + [o] && o.totalAmount > 0
                && nextOrderId == old(nextOrderId) + 1
    {
      if !CustomerExists(customers, customerId) {
        return Err("Invalid customer ID");
      }
      var matched := Matched(products, productIds);
      if matched == [] {
        return Err("At least one valid product is required");
      }
      if |matched| != |productIds| {
        return Err("One or more product IDs are invalid");
      }
      MatchedTotalPositive(products, productIds);
      var o := Order(nextOrderId, customerId, IdsOf(matched), PriceSum(matched), orderDate.GetOr(now));
      orders := orders + [o];
      nextOrderId := nextOrderId + 1;
      r := Ok(o);
    }

    /** The store's ids are distinct, so `CreateOrderAccepts` applies to it. */
    lemma ValidIdsDistinct()
      requires Valid()
      ensures DistinctIds(products)
    {
    }
  }
}
