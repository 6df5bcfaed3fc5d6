/** The aggregates the client derives from its cart: the badge count
    (`getCartCount`) and the displayed amount (`getCartAmount`), which prices
    each entry through the first catalog product with that id. */
module CartTotals {
  import opened Wrappers
  import opened Cart

  /** Some key of a non-empty cart; sums below do not depend on which. */
  ghost function PickId(c: CartItems): (id: string)
    requires c != map[]
    ensures id in c
  {
    var k :| k in c; k
  }

  /** Reference definition of the cart count: the sum of all stored quantities,
      zero and negative ones included. */
  ghost function Count(c: CartItems): int
    decreases c.Keys
  {
    if c == map[] then 0 else
      var k := PickId(c);
      c[k] + Count(c - {k})
  }

  /** The sum can be split off at any key, not only at the one `Count` picks. */
  lemma {:induction false} CountRemove(c: CartItems, k: string)
    requires k in c
    ensures Count(c) == c[k] + Count(c - {k})
    decreases c.Keys
  {
    var j := PickId(c);
    if j != k {
      CountRemove(c - {j}, k);
      CountRemove(c - {k}, j);
      assert c - {j} - {k} == c - {k} - {j};
    }
  }

  /** Writing one key changes the count by the difference of the quantities. */
  lemma CountWrite(c: CartItems, id: string, q: int)
    ensures Count(c[id := q]) == Count(c) - Quantity(c, id) + q
  {
    var r := c[id := q];
    CountRemove(r, id);
    assert r - {id} == c - {id};
    if id in c {
      CountRemove(c, id);
    } else {
      assert c - {id} == c;
    }
  }

  /** `getCartCount`: folds the quantities with `+` starting from 0. */
  method CartCount(c: CartItems) returns (n: int)
    ensures n == Count(c)
  {
    n := 0;
    var rest := c;
    while rest != map[]
      invariant n + Count(rest) == Count(c)
      decreases rest.Keys
    {
      var id :| id in rest;
      CountRemove(rest, id);
      n := n + rest[id];
      rest := rest - {id};
    }
  }

  /** An empty cart counts 0, an add counts one more. */
  lemma CountAfterAdd(c: CartItems, id: string)
    ensures Count(map[]) == 0
    ensures Count(AddToCart(c, id)) == Count(c) + 1
  {
    CountWrite(c, id, Quantity(c, id) + 1);
  }

  /** A remove counts one less exactly when the entry was truthy (present and not 0). */
  lemma CountAfterRemove(c: CartItems, id: string)
    ensures Count(RemoveFromCart(c, id)) == Count(c) - (if id in c && c[id] != 0 then 1 else 0)
  {
    if id in c && c[id] != 0 {
      if c[id] == 1 {
        CountRemove(c, id);
      } else {
        CountWrite(c, id, c[id] - 1);
      }
    }
  }

  /** An update replaces the entry's share of the count by the new quantity. */
  lemma CountAfterUpdate(c: CartItems, id: string, q: int)
    ensures Count(UpdateCartItem(c, id, q)) == Count(c) - Quantity(c, id) + q
  {
    CountWrite(c, id, q);
  }

  /** A catalog product; `offerPrice` is an exact decimal here. */
  datatype Product = Product(id: string, offerPrice: real)

  /** Index of the first product whose id is `id`, as `products.find` returns it. */
  function FindIndex(catalog: seq<Product>, id: string): (r: Option<nat>)
    ensures r.Some? ==> r.value < |catalog| && catalog[r.value].id == id
    ensures r.Some? ==> forall j :: 0 <= j < r.value ==> catalog[j].id != id
    ensures r.None? <==> forall j :: 0 <= j < |catalog| ==> catalog[j].id != id
    decreases |catalog|
  {
    if |catalog| == 0 then None
    else if catalog[0].id == id then Some(0)
    else match FindIndex(catalog[1..], id)
      case Some(i) => Some(i + 1)
      case None => None
  }

  /** What one cart entry adds to the amount (the body of the loop over cart
      keys): price times quantity when the id resolves and the quantity is
      positive, otherwise nothing. */
  function Contribution(catalog: seq<Product>, id: string, q: int): real {
    var item := FindIndex(catalog, id);
    if item.Some? && q > 0 then catalog[item.value].offerPrice * q as real else 0.0
  }

  /** Reference definition of the exact (unrounded) amount of a cart. */
  ghost function Subtotal(c: CartItems, catalog: seq<Product>): real
    decreases c.Keys
  {
    if c == map[] then 0.0 else
      var k := PickId(c);
      Contribution(catalog, k, c[k]) + Subtotal(c - {k}, catalog)
  }

  lemma {:induction false} SubtotalRemove(c: CartItems, catalog: seq<Product>, k: string)
    requires k in c
    ensures Subtotal(c, catalog) == Contribution(catalog, k, c[k]) + Subtotal(c - {k}, catalog)
    decreases c.Keys
  {
    var j := PickId(c);
    if j != k {
      SubtotalRemove(c - {j}, catalog, k);
      SubtotalRemove(c - {k}, catalog, j);
      assert c - {j} - {k} == c - {k} - {j};
    }
  }

  /** Entries whose id has no product, and entries with a zero or negative
      quantity, can be dropped without changing the amount. */
  lemma SubtotalSkips(c: CartItems, catalog: seq<Product>, id: string)
    requires id in c
    requires FindIndex(catalog, id).None? || c[id] <= 0
    ensures Subtotal(c, catalog) == Subtotal(c - {id}, catalog)
  {
    SubtotalRemove(c, catalog, id);
  }

  /** With non-negative prices the exact amount is never negative. */
  lemma {:induction false} SubtotalNonNegative(c: CartItems, catalog: seq<Product>)
    requires forall j :: 0 <= j < |catalog| ==> catalog[j].offerPrice >= 0.0
    ensures Subtotal(c, catalog) >= 0.0
    decreases c.Keys
  {
    if c != map[] {
      var k := PickId(c);
      SubtotalNonNegative(c - {k}, catalog);
    }
  }

  /** The price one more unit of `id` adds: its offer price, or nothing when unresolved. */
  function UnitPrice(catalog: seq<Product>, id: string): real {
    match FindIndex(catalog, id)
    case Some(i) => catalog[i].offerPrice
    case None => 0.0
  }

  lemma ContributionStep(catalog: seq<Product>, id: string, q: int)
    requires q >= 0
    ensures Contribution(catalog, id, q + 1) == Contribution(catalog, id, q) + UnitPrice(catalog, id)
  {
  }

  /** Adding one unit over a non-negative entry raises the amount by exactly the
      unit price: the product's offer price, or nothing for an unresolved id. */
  lemma SubtotalAfterAdd(c: CartItems, catalog: seq<Product>, id: string)
    requires Quantity(c, id) >= 0
    ensures Subtotal(AddToCart(c, id), catalog) == Subtotal(c, catalog) + UnitPrice(catalog, id)
  {
    var r := AddToCart(c, id);
    SubtotalRemove(r, catalog, id);
    assert r - {id} == c - {id};
    ContributionStep(catalog, id, Quantity(c, id));
    if id in c {
      SubtotalRemove(c, catalog, id);
    } else {
      assert c - {id} == c;
      assert Contribution(catalog, id, 0) == 0.0;
    }
  }

  /** The amount is a whole number of cents. */
  predicate IsCents(x: real) {
    (x * 100.0).Floor as real == x * 100.0
  }

  /** `Math.floor(total * 100) / 100`: truncation to cents, towards minus infinity. */
  function Floor2(x: real): (r: real)
    ensures IsCents(r)
    ensures r <= x < r + 0.01
  {
    var f := (x * 100.0).Floor;
    assert (f as real / 100.0) * 100.0 == f as real;
    f as real / 100.0
  }

  /** Floor2 picks the only whole-cent value within one cent below `x`. */
  lemma Floor2Unique(x: real, y: real)
    requires IsCents(y)
    requires y <= x < y + 0.01
    ensures y == Floor2(x)
  {
    var n := (y * 100.0).Floor;
    var m := (x * 100.0).Floor;
    assert n as real <= x * 100.0 < n as real + 1.0;
    assert m as real <= x * 100.0 < m as real + 1.0;
    assert n == m;
  }

  /** The loop of `getCartAmount`: visits every cart key and adds the priced
      share of the entries that resolve and are positive. */
  method ExactAmount(c: CartItems, catalog: seq<Product>) returns (total: real)
    ensures total == Subtotal(c, catalog)
  {
    total := 0.0;
    var rest := c;
    while rest != map[]
      invariant total + Subtotal(rest, catalog) == Subtotal(c, catalog)
      decreases rest.Keys
    {
      var id :| id in rest;
      SubtotalRemove(rest, catalog, id);
      total := total + Contribution(catalog, id, rest[id]);
      rest := rest - {id};
    }
  }

  /** `getCartAmount`: the exact amount truncated to cents, so never above the
      exact amount and less than one cent below it. */
  method CartAmount(c: CartItems, catalog: seq<Product>) returns (amount: real)
    ensures amount == Floor2(Subtotal(c, catalog))
    ensures IsCents(amount)
    ensures amount <= Subtotal(c, catalog) < amount + 0.01
  {
    var total := ExactAmount(c, catalog);
    amount := Floor2(total);
  }

  /** Worked example: three units at 19.999 and one at 5 give 64.997, shown as 64.99. */
  lemma AmountExample()
    ensures Floor2(Subtotal(map["A" := 3, "B" := 1], [Product("A", 19.999), Product("B", 5.0)])) == 64.99
  {
    var catalog := [Product("A", 19.999), Product("B", 5.0)];
    var c := map["A" := 3, "B" := 1];
    SubtotalRemove(c, catalog, "A");
    assert c - {"A"} == map["B" := 1];
    SubtotalRemove(map["B" := 1], catalog, "B");
    assert map["B" := 1] - {"B"} == map[];
    assert FindIndex(catalog, "A") == Some(0);
    assert FindIndex(catalog, "B") == Some(1);
    assert Subtotal(c, catalog) == 64.997;
    Floor2Unique(64.997, 64.99);
  }
}
