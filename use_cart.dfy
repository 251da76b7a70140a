/** The cart store of `useCart`: the cart held in component state, its copy
    in the `@RocketShoes:cart` storage slot, and the three operations that
    change both. The remote product and stock lookups are given to each
    operation as their results; toast and console messages are appended to a
    log. */
module UseCart {
  import opened CartItems

  /** What the storage slot holds: nothing (key missing or empty), text that
      does not parse, or a stored cart. */
  datatype Slot = Empty | Garbled | Holds(items: seq<Item>)

  /** The result of `GET products/{id}`. */
  datatype ProductLookup = ProductFound | ProductMissing | ProductFailed

  /** The result of `GET stock/{id}`. */
  datatype StockLookup = StockOk(amount: int) | StockFailed

  /** The messages the store emits: four toasts and one console diagnostic. */
  datatype Notice = AddFailed | RemoveFailed | UpdateFailed | OutOfStock | ParseError

  /** How one operation ends: a new cart is committed to state and storage,
      the call is rejected with one message, or it returns without effect. */
  datatype Outcome = Commit(cart: seq<Item>) | Reject(notice: Notice) | Skip

  /** The wording of each message, as the toasts and the console show it. */
  function Text(n: Notice): (r: string)
    ensures |r| > 0
  {
    match n
    case AddFailed => "Erro na adição do produto"
    case RemoveFailed => "Erro na remoção do produto"
    case UpdateFailed => "Erro na alteração de quantidade do produto"
    case OutOfStock => "Quantidade solicitada fora de estoque"
    case ParseError => "Could not parse localStorage cart data"
  }

  /** Every message has its own wording. */
  lemma TextsDistinct(a: Notice, b: Notice)
    ensures Text(a) == Text(b) <==> a == b
  {
  }

  /** The cart the provider starts with: the stored cart when the slot holds
      one that parses, and the empty cart otherwise. */
  function LoadCart(slot: Slot): (r: seq<Item>)
    ensures slot.Holds? ==> r == slot.items
    ensures !slot.Holds? ==> r == []
  {
    match slot
    case Holds(items) => items
    case _ => []
  }

  /** Loading reports on the console only when the slot does not parse. */
  function LoadNotices(slot: Slot): (r: seq<Notice>)
    ensures r == [] || r == [ParseError]
    ensures r == [ParseError] <==> slot.Garbled?
  {
    if slot.Garbled? then [ParseError] else []
  }

  /** `addProduct(id)` on `cart`, given what the product and stock lookups
      returned. */
  function AddOutcome(cart: seq<Item>, id: int, product: ProductLookup, stock: StockLookup): (r: Outcome)
    ensures r.Reject? ==> r.notice == AddFailed || r.notice == OutOfStock
    ensures r.Reject? && r.notice == AddFailed <==> !product.ProductFound? || stock.StockFailed?
    ensures r.Skip? ==> !HasId(cart, id) && stock.StockOk? && stock.amount < 1
    ensures r.Commit? ==> stock.StockOk? && HasId(r.cart, id) && |r.cart| >= |cart|
  {
    if !product.ProductFound? || stock.StockFailed? then Reject(AddFailed)
    else match FirstMatch(cart, id)
      case Some(k) =>
        if stock.amount >= cart[k].amount + 1 then Commit(Incremented(cart, id))
        else Reject(OutOfStock)
      case None =>
        if stock.amount >= 1 then
          var appended := cart + [Item(id, 1)];
          assert appended[|cart|].id == id;
          Commit(appended)
        else Skip
  }

  /** `removeProduct(id)` on `cart`; stock is never consulted. */
  function RemoveOutcome(cart: seq<Item>, id: int): (r: Outcome)
    ensures !r.Skip?
    ensures r.Commit? <==> HasId(cart, id)
    ensures r.Reject? ==> r.notice == RemoveFailed
    ensures r.Commit? ==> !HasId(r.cart, id) && |r.cart| < |cart|
  {
    if FirstMatch(cart, id).Some? then Commit(Without(cart, id)) else Reject(RemoveFailed)
  }

  /** `updateProductAmount({ productId: id, amount })` on `cart`, given what
      the stock lookup returned. */
  function UpdateOutcome(cart: seq<Item>, id: int, amount: int, stock: StockLookup): (r: Outcome)
    ensures r.Reject? ==> r.notice == UpdateFailed || r.notice == OutOfStock
    ensures r.Reject? && r.notice == UpdateFailed <==> !HasId(cart, id) || stock.StockFailed?
    ensures r.Skip? <==> HasId(cart, id) && stock.StockOk? && amount <= 0
    ensures r.Commit? ==> stock.StockOk? && 0 < amount <= stock.amount && |r.cart| == |cart|
  {
    if FirstMatch(cart, id).None? then Reject(UpdateFailed)
    else if stock.StockFailed? then Reject(UpdateFailed)
    else if amount <= 0 then Skip
    else if stock.amount >= amount then Commit(WithAmount(cart, id, amount))
    else Reject(OutOfStock)
  }

  // addProduct

  /** A missing product or a failed lookup rejects the call with the generic
      addition message, whatever the cart holds. */
  lemma AddFails(cart: seq<Item>, id: int, product: ProductLookup, stock: StockLookup)
    requires !product.ProductFound? || stock.StockFailed?
    ensures AddOutcome(cart, id, product, stock) == Reject(AddFailed)
  {
  }

  /** On a product already in the cart: with stock for one more unit exactly
      that line goes up by one and nothing else moves; otherwise the call is
      rejected as out of stock. */
  lemma AddExisting(cart: seq<Item>, id: int, k: nat, stock: StockLookup)
    requires UniqueIds(cart)
    requires k < |cart| && cart[k].id == id
    requires stock.StockOk?
    ensures AddOutcome(cart, id, ProductFound, stock) ==
      if stock.amount >= cart[k].amount + 1
      then Commit(cart[k := cart[k].(amount := cart[k].amount + 1)])
      else Reject(OutOfStock)
  {
  }

  /** On a product not in the cart: with at least one unit in stock a line of
      amount 1 is appended at the end; otherwise nothing happens and nothing
      is reported. */
  lemma AddNew(cart: seq<Item>, id: int, stock: StockLookup)
    requires !HasId(cart, id)
    requires stock.StockOk?
    ensures AddOutcome(cart, id, ProductFound, stock) ==
      if stock.amount >= 1 then Commit(cart + [Item(id, 1)]) else Skip
  {
  }

  // removeProduct

  /** Removing an id the cart does not hold is rejected with the removal
      message. */
  lemma RemoveAbsent(cart: seq<Item>, id: int)
    requires !HasId(cart, id)
    ensures RemoveOutcome(cart, id) == Reject(RemoveFailed)
  {
  }

  /** Removing a present id commits the cart of exactly the lines with
      another id. */
  lemma RemovePresent(cart: seq<Item>, id: int)
    requires HasId(cart, id)
    ensures RemoveOutcome(cart, id).Commit?
    ensures forall x :: x in RemoveOutcome(cart, id).cart <==> x in cart && x.id != id
  {
    forall x ensures x in RemoveOutcome(cart, id).cart <==> x in cart && x.id != id {
      WithoutMembers(cart, id, x);
    }
  }

  /** Under unique ids, removing the id of line k deletes that line and keeps
      the others in their order. */
  lemma RemoveExisting(cart: seq<Item>, id: int, k: nat)
    requires UniqueIds(cart)
    requires k < |cart| && cart[k].id == id
    ensures RemoveOutcome(cart, id) == Commit(cart[..k] + cart[k + 1..])
  {
    WithoutUnique(cart, id, k);
  }

  // updateProductAmount

  /** An absent id is rejected with the update message, whatever the amount:
      presence is checked first. */
  lemma UpdateAbsent(cart: seq<Item>, id: int, amount: int, stock: StockLookup)
    requires !HasId(cart, id)
    ensures UpdateOutcome(cart, id, amount, stock) == Reject(UpdateFailed)
  {
  }

  /** On a present id a failed stock lookup is rejected with the update
      message, whatever the amount. */
  lemma UpdateStockFails(cart: seq<Item>, id: int, amount: int)
    requires HasId(cart, id)
    ensures UpdateOutcome(cart, id, amount, StockFailed) == Reject(UpdateFailed)
  {
  }

  /** On a present id an amount of zero or less, once the stock lookup has
      answered, returns silently with no change. */
  lemma UpdateBelowFloor(cart: seq<Item>, id: int, amount: int, stock: StockLookup)
    requires HasId(cart, id)
    requires stock.StockOk? && amount <= 0
    ensures UpdateOutcome(cart, id, amount, stock) == Skip
  {
  }

  /** On a present id and a positive amount: with that much stock exactly that
      line takes the amount; otherwise the call is rejected as out of stock. */
  lemma UpdateExisting(cart: seq<Item>, id: int, k: nat, amount: int, stock: StockLookup)
    requires UniqueIds(cart)
    requires k < |cart| && cart[k].id == id
    requires stock.StockOk? && amount > 0
    ensures UpdateOutcome(cart, id, amount, stock) ==
      if stock.amount >= amount
      then Commit(cart[k := cart[k].(amount := amount)])
      else Reject(OutOfStock)
  {
  }

  // Invariants kept by every commit

  lemma AddKeepsWellformed(cart: seq<Item>, id: int, product: ProductLookup, stock: StockLookup)
    requires Wellformed(cart)
    requires AddOutcome(cart, id, product, stock).Commit?
    ensures Wellformed(AddOutcome(cart, id, product, stock).cart)
  {
  }

  lemma RemoveKeepsWellformed(cart: seq<Item>, id: int)
    requires Wellformed(cart)
    requires RemoveOutcome(cart, id).Commit?
    ensures Wellformed(RemoveOutcome(cart, id).cart)
  {
    var k := FirstMatch(cart, id).value;
    WithoutUnique(cart, id, k);
    DeleteKeepsUnique(cart, k);
    var r := RemoveOutcome(cart, id).cart;
    forall j | 0 <= j < |r| ensures r[j].amount >= 1 {
      assert r[j] == if j < k then cart[j] else cart[j + 1];
    }
  }

  lemma UpdateKeepsWellformed(cart: seq<Item>, id: int, amount: int, stock: StockLookup)
    requires Wellformed(cart)
    requires UpdateOutcome(cart, id, amount, stock).Commit?
    ensures Wellformed(UpdateOutcome(cart, id, amount, stock).cart)
  {
  }

  /** After a successful add the line of that product holds no more than the
      stock the call observed. The bound needs unique ids: the stock check
      reads only the first matching line while the increment raises every
      matching line, so a hand-edited slot holding [1×1, 1×5] with stock 2
      commits [1×2, 1×6]. */
  lemma AddStockBound(cart: seq<Item>, id: int, product: ProductLookup, stock: StockLookup)
    requires UniqueIds(cart)
    requires AddOutcome(cart, id, product, stock).Commit?
    ensures stock.StockOk?
    ensures HasId(AddOutcome(cart, id, product, stock).cart, id)
    ensures forall x :: x in AddOutcome(cart, id, product, stock).cart && x.id == id ==> x.amount <= stock.amount
  {
  }

  /** After a successful update the line of that product holds no more than
      the stock the call observed. */
  lemma UpdateStockBound(cart: seq<Item>, id: int, amount: int, stock: StockLookup)
    requires UpdateOutcome(cart, id, amount, stock).Commit?
    ensures stock.StockOk?
    ensures HasId(UpdateOutcome(cart, id, amount, stock).cart, id)
    ensures forall x :: x in UpdateOutcome(cart, id, amount, stock).cart && x.id == id ==> x.amount <= stock.amount
  {
  }

  // Scenarios

  /** Empty cart, five in stock: adding twice gives one line of amount 2. */
  lemma AddTwiceScenario()
    ensures AddOutcome([], 1, ProductFound, StockOk(5)) == Commit([Item(1, 1)])
    ensures AddOutcome([Item(1, 1)], 1, ProductFound, StockOk(5)) == Commit([Item(1, 2)])
  {
    assert [] + [Item(1, 1)] == [Item(1, 1)];
    assert Incremented([Item(1, 1)], 1) == [Item(1, 2)];
  }

  /** Three held, three in stock: adding one more is out of stock. */
  lemma AddOverStockScenario()
    ensures AddOutcome([Item(1, 3)], 1, ProductFound, StockOk(3)) == Reject(OutOfStock)
  {
  }

  /** Stock one, asking for five is out of stock. */
  lemma UpdateOverStockScenario()
    ensures UpdateOutcome([Item(3, 2)], 3, 5, StockOk(1)) == Reject(OutOfStock)
  {
  }

  /** The cart provider's state together with the storage slot it writes. */
  class Store {
    var cart: seq<Item>
    var stored: Slot
    var log: seq<Notice>

    /** The lazy `useState` initialiser: read the slot once. */
    constructor (slot: Slot)
      ensures cart == LoadCart(slot) && stored == slot && log == LoadNotices(slot)
    {
      var initial: seq<Item> := [];
      log := [];
      match slot {
        case Holds(items) => initial := items;
        case Garbled => log := [ParseError];
        case Empty =>
      }
      cart := initial;
      stored := slot;
    }

    /** The state after an operation that started from `cart0`, `stored0`
        and `log0` and ended with `o`: a commit replaces the cart and writes
        the same cart to storage; a rejection adds one message and nothing
        else; a skip changes nothing. */
    ghost predicate Settled(cart0: seq<Item>, stored0: Slot, log0: seq<Notice>, o: Outcome)
      reads this
    {
      match o
      case Commit(c) => cart == c && stored == Holds(c) && log == log0
      case Reject(n) => cart == cart0 && stored == stored0 && log == log0 + [n]
      case Skip => cart == cart0 && stored == stored0 && log == log0
    }

    /** `setCart(newCart)` followed by writing the same cart to storage. */
    method Persist(newCart: seq<Item>)
      modifies this
      ensures cart == newCart && stored == Holds(newCart) && log == old(log)
    {
      cart := newCart;
      stored := Holds(newCart);
    }

    /** `toast.error` with the text of `n`. */
    method Notify(n: Notice)
      modifies this
      ensures cart == old(cart) && stored == old(stored) && log == old(log) + [n]
    {
      log := log + [n];
    }

    method AddProduct(id: int, product: ProductLookup, stock: StockLookup)
      modifies this
      ensures Settled(old(cart), old(stored), old(log), AddOutcome(old(cart), id, product, stock))
      ensures Wellformed(old(cart)) ==> Wellformed(cart)
    {
      if !product.ProductFound? {
        Notify(AddFailed);
        return;
      }
      var newCart := cart;
      var inCart := FirstMatch(newCart, id);
      if stock.StockFailed? {
        Notify(AddFailed);
        return;
      }
      if inCart.Some? {
        if stock.amount >= newCart[inCart.value].amount + 1 {
          newCart := IncrementMatching(newCart, id);
          if Wellformed(cart) { AddKeepsWellformed(cart, id, product, stock); }
          Persist(newCart);
        } else {
          Notify(OutOfStock);
        }
      } else if stock.amount >= 1 {
        newCart := cart + [Item(id, 1)];
        if Wellformed(cart) { AddKeepsWellformed(cart, id, product, stock); }
        Persist(newCart);
      }
    }

    method RemoveProduct(id: int)
      modifies this
      ensures Settled(old(cart), old(stored), old(log), RemoveOutcome(old(cart), id))
      ensures Wellformed(old(cart)) ==> Wellformed(cart)
    {
      var newCart := cart;
      var inCart := FirstMatch(newCart, id);
      if inCart.Some? {
        newCart := Without(newCart, id);
        if Wellformed(cart) { RemoveKeepsWellformed(cart, id); }
        Persist(newCart);
      } else {
        Notify(RemoveFailed);
      }
    }

    method UpdateProductAmount(id: int, amount: int, stock: StockLookup)
      modifies this
      ensures Settled(old(cart), old(stored), old(log), UpdateOutcome(old(cart), id, amount, stock))
      ensures Wellformed(old(cart)) ==> Wellformed(cart)
    {
      var newCart := cart;
      var inCart := FirstMatch(newCart, id);
      if inCart.None? {
        Notify(UpdateFailed);
        return;
      }
      if stock.StockFailed? {
        Notify(UpdateFailed);
        return;
      }
      if amount <= 0 {
        return;
      }
      if stock.amount >= amount {
        newCart := AssignMatching(newCart, id, amount);
        if Wellformed(cart) { UpdateKeepsWellformed(cart, id, amount, stock); }
        Persist(newCart);
      } else {
        Notify(OutOfStock);
      }
    }
  }
}
