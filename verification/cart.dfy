/** The client's working cart (the `cartItems` state of `AppContextProvider`)
    and the three actions that produce a new cart from the old one. Each action
    clones the object and changes at most one key, so each is a pure map transformer. */
module Cart {

  /** Product id to quantity. Quantities are whatever the actions stored:
      nothing in the client keeps them positive. */
  type CartItems = map<string, int>

  /** The value `cartData[id] || 0` reads for a present numeric entry or an absent one. */
  function Quantity(c: CartItems, id: string): int {
    if id in c then c[id] else 0
  }

  /** Every key other than `id` is present in both carts or in neither, with the same quantity. */
  ghost predicate OthersUnchanged(c: CartItems, r: CartItems, id: string) {
    forall k :: k != id ==> (k in c <==> k in r) && (k in c ==> r[k] == c[k])
  }

  /** The invariant an idealised cart would keep: no zero or negative quantity. */
  predicate AllPositive(c: CartItems) {
    forall k :: k in c ==> c[k] > 0
  }

  /** `addToCart(itemId)`: one more of `id`, creating the entry at 1 when absent. */
  function AddToCart(c: CartItems, id: string): (r: CartItems)
    ensures id in r && r[id] == Quantity(c, id) + 1
    ensures r.Keys == c.Keys + {id}
    ensures OthersUnchanged(c, r, id)
    ensures AllPositive(c) ==> AllPositive(r)
  {
    c[id := Quantity(c, id) + 1]
  }

  /** `updateCartItem(itemId, quantity)`: stores `q` verbatim, whatever its sign;
      a zero or negative `q` leaves a zero or negative entry, not a deletion. */
  function UpdateCartItem(c: CartItems, id: string, q: int): (r: CartItems)
    ensures id in r && r[id] == q
    ensures r.Keys == c.Keys + {id}
    ensures OthersUnchanged(c, r, id)
    ensures AllPositive(r) <==> AllPositive(c - {id}) && q > 0
  {
    var r := c[id := q];
    assert forall k :: k in c - {id} ==> k in r && r[k] == (c - {id})[k];
    r
  }

  /** `removeFromCart(itemId)`: acts only on a truthy entry (present and not 0);
      decrements it and deletes the key when it reaches exactly 0. */
  function RemoveFromCart(c: CartItems, id: string): (r: CartItems)
    ensures id !in c || c[id] == 0 ==> r == c
    ensures id in r <==> id in c && c[id] != 1
    ensures id in c && c[id] != 0 && c[id] != 1 ==> r[id] == c[id] - 1
    ensures OthersUnchanged(c, r, id)
    ensures r.Keys <= c.Keys
    ensures AllPositive(c) ==> AllPositive(r)
  {
    if id in c && c[id] != 0 then
      var q := c[id] - 1;
      if q == 0 then c - {id} else c[id := q]
    else
      c
  }

  /** Removing what was just added restores the cart exactly when the entry was
      absent or neither 0 nor -1: a 0 entry is deleted by the remove, and a -1
      entry becomes 0, which the remove then ignores. */
  lemma RemoveUndoesAdd(c: CartItems, id: string)
    ensures RemoveFromCart(AddToCart(c, id), id) == c <==> id !in c || (c[id] != 0 && c[id] != -1)
  {
    var r := RemoveFromCart(AddToCart(c, id), id);
    if id !in c || (c[id] != 0 && c[id] != -1) {
      assert r.Keys == c.Keys;
    } else if c[id] == 0 {
      assert id !in r;
    } else {
      assert r[id] == 0;
    }
  }

  /** Adding back what was just removed restores a cart whose entry was positive. */
  lemma AddUndoesRemove(c: CartItems, id: string)
    requires id in c && c[id] > 0
    ensures AddToCart(RemoveFromCart(c, id), id) == c
  {
  }

  /** Adding then removing a zero entry deletes it: the cart does not come back. */
  lemma AddRemoveDropsZeroEntry(c: CartItems, id: string)
    requires id in c && c[id] == 0
    ensures RemoveFromCart(AddToCart(c, id), id) == c - {id}
    ensures RemoveFromCart(AddToCart(c, id), id) != c
  {
  }

  /** One user action on the cart. */
  datatype CartAction = Add(id: string) | Update(id: string, quantity: int) | Remove(id: string)

  function Apply(c: CartItems, a: CartAction): CartItems {
    match a
    case Add(id) => AddToCart(c, id)
    case Update(id, q) => UpdateCartItem(c, id, q)
    case Remove(id) => RemoveFromCart(c, id)
  }

  /** The cart after the actions, applied left to right. */
  function ApplyAll(c: CartItems, actions: seq<CartAction>): CartItems
    decreases |actions|
  {
    if |actions| == 0 then c else ApplyAll(Apply(c, actions[0]), actions[1..])
  }

  /** An action that cannot introduce a zero or negative entry: an add, a remove,
      or an update with a positive quantity. */
  predicate KeepsPositive(a: CartAction) {
    !a.Update? || a.quantity > 0
  }

  /** Any run of adds, removes and positive updates keeps every quantity positive. */
  lemma {:induction false} ApplyAllKeepsPositive(c: CartItems, actions: seq<CartAction>)
    requires AllPositive(c)
    requires forall i :: 0 <= i < |actions| ==> KeepsPositive(actions[i])
    ensures AllPositive(ApplyAll(c, actions))
    decreases |actions|
  {
    if |actions| > 0 {
      var c' := Apply(c, actions[0]);
      assert KeepsPositive(actions[0]);
      assert AllPositive(c');
      assert forall i :: 0 <= i < |actions[1..]| ==> KeepsPositive(actions[1..][i]) by {
        forall i | 0 <= i < |actions[1..]|
          ensures KeepsPositive(actions[1..][i])
        {
          assert actions[1..][i] == actions[i + 1];
        }
      }
      ApplyAllKeepsPositive(c', actions[1..]);
    }
  }

  /** The positivity invariant does not hold for all action sequences: an update
      to 0 stores a zero entry, and a later remove leaves it in place. */
  lemma UpdateToZeroIsKept(id: string)
    ensures ApplyAll(map[], [Add(id), Update(id, 0), Remove(id)]) == map[id := 0]
    ensures !AllPositive(ApplyAll(map[], [Add(id), Update(id, 0), Remove(id)]))
  {
    var acts := [Add(id), Update(id, 0), Remove(id)];
    var c1 := AddToCart(map[], id);
    var c2 := UpdateCartItem(c1, id, 0);
    assert c2 == map[id := 0];
    assert ApplyAll(map[], acts) == ApplyAll(c1, acts[1..]);
    assert ApplyAll(c1, acts[1..]) == ApplyAll(c2, acts[2..]);
    assert ApplyAll(c2, acts[2..]) == ApplyAll(RemoveFromCart(c2, id), acts[3..]);
  }
}
