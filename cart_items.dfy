/** Cart line items and the array helpers the cart store uses on them:
    `find` (first item with an id), `filter` (drop every item with an id)
    and the two `forEach` passes that rewrite the amount of matching items. */
module CartItems {

  datatype Option<T> = None | Some(value: T)

  /** A cart line: a product id and the quantity chosen for it. Product
      metadata (title, price, image) is carried along by the store but never
      inspected, so it is not part of the model. */
  datatype Item = Item(id: int, amount: int)

  predicate HasId(cart: seq<Item>, id: int)
  {
    exists k :: 0 <= k < |cart| && cart[k].id == id
  }

  /** No two lines share an id. */
  predicate UniqueIds(cart: seq<Item>)
  {
    forall i, j :: 0 <= i < j < |cart| ==> cart[i].id != cart[j].id
  }

  /** Every line holds at least one unit. */
  predicate AmountsPositive(cart: seq<Item>)
  {
    forall k :: 0 <= k < |cart| ==> cart[k].amount >= 1
  }

  /** The invariant the cart store keeps on every cart it commits. */
  predicate Wellformed(cart: seq<Item>)
  {
    UniqueIds(cart) && AmountsPositive(cart)
  }

  /** `cart.find(item => item.id === id)`, as the position of the item found:
      the first line with that id, or None when there is none. */
  function FirstMatch(cart: seq<Item>, id: int): (r: Option<nat>)
    ensures r.None? <==> !HasId(cart, id)
    ensures r.Some? ==> r.value < |cart| && cart[r.value].id == id
    ensures r.Some? ==> forall j :: 0 <= j < r.value ==> cart[j].id != id
  {
    if cart == [] then None
    else if cart[0].id == id then Some(0)
    else match FirstMatch(cart[1..], id)
      case None => None
      case Some(k) => Some(k + 1)
  }

  /** Under unique ids the line `find` returns is the only line with that id. */
  lemma FirstMatchUnique(cart: seq<Item>, id: int, k: nat)
    requires UniqueIds(cart)
    requires k < |cart| && cart[k].id == id
    ensures FirstMatch(cart, id) == Some(k)
  {
  }

  /** A line with its amount replaced when its id matches; other lines as they are. */
  function Retouch(item: Item, id: int, amount: int): Item
  {
    if item.id == id then item.(amount := amount) else item
  }

  /** The cart after `forEach(p => { if (p.id === id) p.amount += 1 })`. */
  function Incremented(cart: seq<Item>, id: int): (r: seq<Item>)
    ensures |r| == |cart|
    ensures forall k :: 0 <= k < |r| ==> r[k].id == cart[k].id
    ensures forall k :: 0 <= k < |r| && cart[k].id != id ==> r[k] == cart[k]
    ensures forall k :: 0 <= k < |r| && cart[k].id == id ==> r[k].amount == cart[k].amount + 1
  {
    seq(|cart|, k requires 0 <= k < |cart| => Retouch(cart[k], id, cart[k].amount + 1))
  }

  /** The cart after `forEach(p => { if (p.id === id) p.amount = amount })`. */
  function WithAmount(cart: seq<Item>, id: int, amount: int): (r: seq<Item>)
    ensures |r| == |cart|
    ensures forall k :: 0 <= k < |r| ==> r[k].id == cart[k].id
    ensures forall k :: 0 <= k < |r| && cart[k].id != id ==> r[k] == cart[k]
    ensures forall k :: 0 <= k < |r| && cart[k].id == id ==> r[k].amount == amount
  {
    seq(|cart|, k requires 0 <= k < |cart| => Retouch(cart[k], id, amount))
  }

  /** The cart after `filter(p => p.id !== id)`. */
  function Without(cart: seq<Item>, id: int): (r: seq<Item>)
    ensures |r| <= |cart|
    ensures !HasId(r, id)
    ensures HasId(cart, id) ==> |r| < |cart|
  {
    if cart == [] then []
    else (if cart[0].id == id then [] else [cart[0]]) + Without(cart[1..], id)
  }

  /** Under unique ids, incrementing matching lines changes exactly the one
      line with that id, by one, and leaves the order and every other line. */
  lemma IncrementedIsPointUpdate(cart: seq<Item>, id: int, k: nat)
    requires UniqueIds(cart)
    requires k < |cart| && cart[k].id == id
    ensures Incremented(cart, id) == cart[k := cart[k].(amount := cart[k].amount + 1)]
  {
  }

  /** Under unique ids, setting the amount of matching lines changes exactly the
      one line with that id and leaves the order and every other line. */
  lemma WithAmountIsPointUpdate(cart: seq<Item>, id: int, amount: int, k: nat)
    requires UniqueIds(cart)
    requires k < |cart| && cart[k].id == id
    ensures WithAmount(cart, id, amount) == cart[k := cart[k].(amount := amount)]
  {
  }

  /** The filter keeps exactly the lines whose id differs. */
  lemma {:induction false} WithoutMembers(cart: seq<Item>, id: int, x: Item)
    ensures x in Without(cart, id) <==> x in cart && x.id != id
  {
    if cart != [] {
      WithoutMembers(cart[1..], id, x);
      assert cart == [cart[0]] + cart[1..];
    }
  }

  /** Filtering out an id that no line has gives the cart back. */
  lemma {:induction false} WithoutAbsent(cart: seq<Item>, id: int)
    requires !HasId(cart, id)
    ensures Without(cart, id) == cart
  {
    if cart != [] {
      forall j | 0 <= j < |cart[1..]| ensures cart[1..][j].id != id {
        assert cart[1..][j] == cart[j + 1];
      }
      WithoutAbsent(cart[1..], id);
    }
  }

  /** Under unique ids, removing a present id deletes exactly its one line and
      keeps the relative order of all the others. */
  lemma {:induction false} WithoutUnique(cart: seq<Item>, id: int, k: nat)
    requires UniqueIds(cart)
    requires k < |cart| && cart[k].id == id
    ensures Without(cart, id) == cart[..k] + cart[k + 1..]
  {
    if k == 0 {
      forall j | 0 <= j < |cart[1..]| ensures cart[1..][j].id != id {
        assert cart[0].id != cart[j + 1].id;
      }
      WithoutAbsent(cart[1..], id);
    } else {
      assert cart[0].id != id;
      assert UniqueIds(cart[1..]) by {
        forall i, j | 0 <= i < j < |cart[1..]| ensures cart[1..][i].id != cart[1..][j].id {
          assert cart[i + 1].id != cart[j + 1].id;
        }
      }
      WithoutUnique(cart[1..], id, k - 1);
      assert cart[1..][..k - 1] == cart[1..k];
      assert cart[1..][k..] == cart[k + 1..];
      assert cart[..k] == [cart[0]] + cart[1..k];
    }
  }

  /** Removing one line from a cart with unique ids keeps the ids unique. */
  lemma DeleteKeepsUnique(cart: seq<Item>, k: nat)
    requires UniqueIds(cart)
    requires k < |cart|
    ensures UniqueIds(cart[..k] + cart[k + 1..])
  {
  }

  /** The loop of the first `forEach` pass: bump the amount of every matching
      line by one, walking the cart from the front. */
  method IncrementMatching(cart: seq<Item>, id: int) returns (r: seq<Item>)
    ensures r == Incremented(cart, id)
  {
    r := cart;
    var i := 0;
    while i < |r|
      invariant 0 <= i <= |r| == |cart|
      invariant forall k :: 0 <= k < i ==> r[k] == Retouch(cart[k], id, cart[k].amount + 1)
      invariant forall k :: i <= k < |r| ==> r[k] == cart[k]
    {
      if r[i].id == id {
        r := r[i := r[i].(amount := r[i].amount + 1)];
      }
      i := i + 1;
    }
  }

  /** The loop of the second `forEach` pass: set the amount of every matching
      line, walking the cart from the front. */
  method AssignMatching(cart: seq<Item>, id: int, amount: int) returns (r: seq<Item>)
    ensures r == WithAmount(cart, id, amount)
  {
    r := cart;
    var i := 0;
    while i < |r|
      invariant 0 <= i <= |r| == |cart|
      invariant forall k :: 0 <= k < i ==> r[k] == Retouch(cart[k], id, amount)
      invariant forall k :: i <= k < |r| ==> r[k] == cart[k]
    {
      if r[i].id == id {
        r := r[i := r[i].(amount := amount)];
      }
      i := i + 1;
    }
  }
}
