/** The restock policy of the low-stock job (crm/cron.py): which products qualify,
    what their new stock is, and what the store looks like after the job has saved
    some number of the qualifying products. Pure: the job itself is in LowStockJob. */
module RestockPolicy {

  /** CRM_CRON_CONFIG in crm/settings.py; crm/cron.py writes the same two values inline. */
  const DefaultThreshold: int := 10
  const DefaultRestockAmount: int := 10

  datatype Product = Product(id: nat, name: string, stock: int)

  /** One entry of `updated_products` on the database path. */
  datatype RestockRecord = RestockRecord(id: nat, name: string, oldStock: int, newStock: int)

  /** `Product.objects.filter(stock__lt=threshold)`: strictly below. */
  predicate IsLow(p: Product, threshold: int) {
    p.stock < threshold
  }

  /** Number of qualifying products, counted from the front of the store. */
  function CountLow(s: seq<Product>, threshold: int): (n: nat)
    ensures n <= |s|
  {
    if s == [] then 0
    else CountLow(s[..|s| - 1], threshold) + (if IsLow(s[|s| - 1], threshold) then 1 else 0)
  }

  /** The qualifying products in store iteration order. */
  function Candidates(s: seq<Product>, threshold: int): (r: seq<Product>)
    ensures |r| == CountLow(s, threshold)
    ensures forall k :: 0 <= k < |r| ==> IsLow(r[k], threshold) && r[k] in s
    ensures forall p :: p in s && IsLow(p, threshold) ==> p in r
  {
    if s == [] then []
    else
      var init, last := s[..|s| - 1], s[|s| - 1];
      assert s == init + [last];
      Candidates(init, threshold) + (if IsLow(last, threshold) then [last] else [])
  }

  /** `product.stock += amount`: an increment, not a top-up to the threshold. */
  function Restocked(p: Product, amount: int): Product {
    p.(stock := p.stock + amount)
  }

  function RecordOf(p: Product, amount: int): RestockRecord {
    RestockRecord(p.id, p.name, p.stock, p.stock + amount)
  }

  /** What `updated_products` holds after a complete pass over the store. */
  function Records(s: seq<Product>, threshold: int, amount: int): (r: seq<RestockRecord>)
    ensures |r| == CountLow(s, threshold)
    ensures forall k :: 0 <= k < |r| ==> r[k].newStock == r[k].oldStock + amount && r[k].oldStock < threshold
  {
    if s == [] then []
    else
      var init, last := s[..|s| - 1], s[|s| - 1];
      Records(init, threshold, amount) + (if IsLow(last, threshold) then [RecordOf(last, amount)] else [])
  }

  /** The store after the job has saved the first `budget` qualifying products and
      left everything else as it was. */
  function RestockedStore(s: seq<Product>, threshold: int, amount: int, budget: nat): (r: seq<Product>)
    ensures |r| == |s|
  {
    if s == [] then []
    else
      var init, last := s[..|s| - 1], s[|s| - 1];
      RestockedStore(init, threshold, amount, budget)
        + [if IsLow(last, threshold) && CountLow(init, threshold) < budget then Restocked(last, amount) else last]
  }

  function RestockEach(s: seq<Product>, amount: int): (r: seq<Product>)
    ensures |r| == |s| && forall k :: 0 <= k < |s| ==> r[k] == Restocked(s[k], amount)
  {
    if s == [] then [] else RestockEach(s[..|s| - 1], amount) + [Restocked(s[|s| - 1], amount)]
  }

  // ---------------------------------------------------------------------------
  // Lemmas

  lemma {:induction false} CountLowMonotone(s: seq<Product>, threshold: int, i: nat, j: nat)
    requires i <= j <= |s|
    ensures CountLow(s[..i], threshold) <= CountLow(s[..j], threshold)
  {
    if i < j {
      CountLowMonotone(s, threshold, i, j - 1);
      assert s[..j][..j - 1] == s[..j - 1];
    }
  }

  /** The store after the job, position by position: a product changes exactly when it
      qualifies and fewer than `budget` qualifying products precede it; it then gains
      `amount` and keeps its id and name. */
  lemma {:induction false} RestockedStoreAt(s: seq<Product>, threshold: int, amount: int, budget: nat)
    ensures var r := RestockedStore(s, threshold, amount, budget);
      && |r| == |s|
      && forall i :: 0 <= i < |s| ==>
           r[i] == if IsLow(s[i], threshold) && CountLow(s[..i], threshold) < budget
                   then Restocked(s[i], amount) else s[i]
  {
    if s != [] {
      var init := s[..|s| - 1];
      RestockedStoreAt(init, threshold, amount, budget);
      forall i | 0 <= i < |s| - 1 ensures s[..i] == init[..i] {}
    }
  }

  /** A product at or above the threshold is never touched, whatever the budget. */
  lemma NotLowUntouched(s: seq<Product>, threshold: int, amount: int, budget: nat, i: nat)
    requires i < |s| && !IsLow(s[i], threshold)
    ensures RestockedStore(s, threshold, amount, budget)[i] == s[i]
  {
    RestockedStoreAt(s, threshold, amount, budget);
  }

  /** With nothing failing, every qualifying product ends at exactly old stock + amount
      and every other product is unchanged. */
  lemma FullRestock(s: seq<Product>, threshold: int, amount: int, budget: nat)
    requires CountLow(s, threshold) <= budget
    ensures var r := RestockedStore(s, threshold, amount, budget);
      && |r| == |s|
      && forall i :: 0 <= i < |s| ==>
           && r[i].id == s[i].id && r[i].name == s[i].name
           && r[i].stock == if s[i].stock < threshold then s[i].stock + amount else s[i].stock
  {
    RestockedStoreAt(s, threshold, amount, budget);
    forall i | 0 <= i < |s| && IsLow(s[i], threshold) ensures CountLow(s[..i], threshold) < budget {
      LowWithinBudget(s, threshold, budget, i);
    }
  }

  /** When the budget covers every qualifying product, each one finds budget left. */
  lemma LowWithinBudget(s: seq<Product>, threshold: int, budget: nat, i: nat)
    requires CountLow(s, threshold) <= budget
    requires i < |s| && IsLow(s[i], threshold)
    ensures CountLow(s[..i], threshold) < budget
  {
    CountLowMonotone(s, threshold, i + 1, |s|);
    var p := s[..i + 1];
    assert p[..|p| - 1] == s[..i] && p[|p| - 1] == s[i];
    assert s[..|s|] == s;
  }

  /** A zero budget (the store query itself failed) leaves the store as it was. */
  lemma ZeroBudgetUnchanged(s: seq<Product>, threshold: int, amount: int)
    ensures RestockedStore(s, threshold, amount, 0) == s
  {
    RestockedStoreAt(s, threshold, amount, 0);
  }

  /** Extending a prefix of the store by one product, for loops that walk the store. */
  lemma PrefixStep(s: seq<Product>, i: nat, threshold: int, amount: int, budget: nat)
    requires i < |s|
    ensures CountLow(s[..i + 1], threshold) == CountLow(s[..i], threshold) + (if IsLow(s[i], threshold) then 1 else 0)
    ensures Records(s[..i + 1], threshold, amount)
         == Records(s[..i], threshold, amount) + (if IsLow(s[i], threshold) then [RecordOf(s[i], amount)] else [])
    ensures RestockedStore(s[..i + 1], threshold, amount, budget)
         == RestockedStore(s[..i], threshold, amount, budget)
            + [if IsLow(s[i], threshold) && CountLow(s[..i], threshold) < budget then Restocked(s[i], amount) else s[i]]
  {
    assert s[..i + 1][..i] == s[..i];
  }

  /** One step of the restock loop on the whole store: the restocked prefix grows by one
      position and the untouched suffix shrinks by one. */
  lemma StoreStep(s: seq<Product>, i: nat, threshold: int, amount: int, budget: nat, cur: seq<Product>)
    requires i < |s| && cur == RestockedStore(s[..i], threshold, amount, budget) + s[i..]
    ensures var saves := IsLow(s[i], threshold) && CountLow(s[..i], threshold) < budget;
      (if saves then cur[i := Restocked(s[i], amount)] else cur)
        == RestockedStore(s[..i + 1], threshold, amount, budget) + s[i + 1..]
  {
    PrefixStep(s, i, threshold, amount, budget);
    assert s[i..] == [s[i]] + s[i + 1..];
  }

  /** No product below the threshold means no candidates. */
  lemma {:induction false} NoneLowCountsZero(s: seq<Product>, threshold: int)
    requires forall i :: 0 <= i < |s| ==> !IsLow(s[i], threshold)
    ensures CountLow(s, threshold) == 0
  {
    if s != [] {
      NoneLowCountsZero(s[..|s| - 1], threshold);
    }
  }

  /** When nothing qualifies, the store is unchanged. */
  lemma {:induction false} NoCandidatesUnchanged(s: seq<Product>, threshold: int, amount: int, budget: nat)
    requires CountLow(s, threshold) == 0
    ensures RestockedStore(s, threshold, amount, budget) == s
  {
    if s != [] {
      NoCandidatesUnchanged(s[..|s| - 1], threshold, amount, budget);
      assert s == s[..|s| - 1] + [s[|s| - 1]];
    }
  }

  /** Once `budget` qualifying products lie before position i, the store from i on is the
      original one: an abort stops the remaining candidates and keeps the earlier saves. */
  lemma {:induction false} BeyondBudget(s: seq<Product>, threshold: int, amount: int, budget: nat, i: nat)
    requires i <= |s| && CountLow(s[..i], threshold) >= budget
    ensures RestockedStore(s, threshold, amount, budget)
         == RestockedStore(s[..i], threshold, amount, budget) + s[i..]
  {
    if i < |s| {
      var init := s[..|s| - 1];
      assert init[..i] == s[..i];
      BeyondBudget(init, threshold, amount, budget, i);
      CountLowMonotone(s, threshold, i, |s| - 1);
      assert init == s[..|s| - 1];
      assert s[i..] == init[i..] + [s[|s| - 1]];
    } else {
      assert s[..i] == s;
    }
  }

  /** Records list the qualifying products one for one, in store order. */
  lemma {:induction false} RecordsFollowCandidates(s: seq<Product>, threshold: int, amount: int)
    ensures var c := Candidates(s, threshold);
      |Records(s, threshold, amount)| == |c|
      && forall k :: 0 <= k < |c| ==> Records(s, threshold, amount)[k] == RecordOf(c[k], amount)
  {
    if s != [] {
      RecordsFollowCandidates(s[..|s| - 1], threshold, amount);
    }
  }

  /** Running the selection again after a complete restock (a budget covering every
      qualifying product) picks exactly the products that were below
      `threshold - amount`, now restocked. */
  lemma {:induction false} ReselectAfterRestock(s: seq<Product>, threshold: int, amount: int, budget: nat)
    requires amount >= 0 && CountLow(s, threshold) <= budget
    ensures Candidates(RestockedStore(s, threshold, amount, budget), threshold)
         == RestockEach(Candidates(s, threshold - amount), amount)
  {
    if s != [] {
      var init, last := s[..|s| - 1], s[|s| - 1];
      ReselectAfterRestock(init, threshold, amount, budget);
      var r := RestockedStore(s, threshold, amount, budget);
      var ri := RestockedStore(init, threshold, amount, budget);
      var lastAfter := if IsLow(last, threshold) then Restocked(last, amount) else last;
      assert r == ri + [lastAfter];
      assert r[..|r| - 1] == ri;
      assert IsLow(lastAfter, threshold) <==> IsLow(last, threshold - amount);
      var ce := Candidates(init, threshold - amount);
      if IsLow(last, threshold - amount) {
        assert (ce + [last])[..|ce + [last]| - 1] == ce;
      } else {
        assert ce + [] == ce;
      }
    }
  }

  /** With the configured threshold and amount (both 10) and non-negative stock, one
      complete run leaves no product below the threshold. */
  lemma DefaultRunClearsLowStock(s: seq<Product>)
    requires forall i :: 0 <= i < |s| ==> s[i].stock >= 0
    ensures Candidates(RestockedStore(s, DefaultThreshold, DefaultRestockAmount, |s|), DefaultThreshold) == []
  {
    ReselectAfterRestock(s, DefaultThreshold, DefaultRestockAmount, |s|);
  }

  /** Three products with stock 5, 12 and 3: the first and the last become 15 and 13,
      the middle one is untouched, and two records are produced. */
  lemma ThreeProductScenario()
    ensures var s := [Product(1, "A", 5), Product(2, "B", 12), Product(3, "C", 3)];
      && RestockedStore(s, DefaultThreshold, DefaultRestockAmount, |s|)
         == [Product(1, "A", 15), Product(2, "B", 12), Product(3, "C", 13)]
      && Records(s, DefaultThreshold, DefaultRestockAmount)
         == [RestockRecord(1, "A", 5, 15), RestockRecord(3, "C", 3, 13)]
  {
    var s := [Product(1, "A", 5), Product(2, "B", 12), Product(3, "C", 3)];
    assert s[..2] == [Product(1, "A", 5), Product(2, "B", 12)];
    assert s[..2][..1] == [Product(1, "A", 5)];
    assert s[..2][..1][..0] == [];
    FullRestock(s, DefaultThreshold, DefaultRestockAmount, |s|);
  }
}
