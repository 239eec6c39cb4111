/** The cart engine as the provider runs it: the current cart and the stored
    snapshot are fields, each mutation works on a copy of the cart, changes the
    copy and, when every check passes, commits it to storage and to the state.
    A rejected mutation returns the error and changes neither field. */
module CartProvider {
  import opened CartSpec

  /** What a mutation reports back: success, or the check that rejected it. */
  datatype Status = Done | Failed(error: Error)

  /** Linear search for the first entry with identifier `id`; -1 when there is none. */
  method FindIndex(items: seq<Item>, id: int) returns (k: int)
    ensures -1 <= k < |items|
    ensures k >= 0 ==> items[k].id == id && forall j :: 0 <= j < k ==> items[j].id != id
    ensures k < 0 <==> !InCart(items, id)
    ensures k >= 0 ==> k == IndexOf(items, id)
  {
    var i := 0;
    while i < |items|
      invariant 0 <= i <= |items|
      invariant forall j :: 0 <= j < i ==> items[j].id != id
    {
      if items[i].id == id {
        return i;
      }
      i := i + 1;
    }
    return -1;
  }

  class Provider {
    /** The cart published to consumers. */
    var cart: seq<Item>
    /** The snapshot under the storage key; `None` until something is written. */
    var stored: Option<seq<Item>>

    /** Memory and storage agree: the snapshot is the cart, or nothing has been
        stored yet and the cart is empty. */
    ghost predicate Synced()
      reads this
    {
      stored == Some(cart) || (stored.None? && cart == [])
    }

    ghost predicate Valid()
      reads this
    {
      Synced() && WellFormed(cart)
    }

    /** Start-up: the cart is the stored snapshot if there is one, else empty. */
    constructor (snapshot: Option<seq<Item>>)
      ensures stored == snapshot
      ensures snapshot.Some? ==> cart == snapshot.value
      ensures snapshot.None? ==> cart == []
      ensures Synced()
      ensures snapshot.Some? && WellFormed(snapshot.value) ==> Valid()
      ensures snapshot.None? ==> Valid()
    {
      stored := snapshot;
      if snapshot.Some? {
        cart := snapshot.value;
      } else {
        cart := [];
      }
    }

    /** Writes the full cart under the storage key and publishes it. */
    method Commit(next: seq<Item>)
      modifies this
      ensures cart == next && stored == Some(next)
      ensures Synced()
    {
      stored := Some(next);
      cart := next;
    }

    method AddProduct(productId: int, stock: Option<int>, product: Option<Item>) returns (status: Status)
      modifies this
      ensures match Add(old(cart), productId, stock, product)
        case Ok(next) => status == Done && cart == next && stored == Some(next)
        case Err(e) => status == Failed(e) && cart == old(cart) && stored == old(stored)
      ensures old(Synced()) ==> Synced()
      ensures old(Valid()) && CatalogAnswers(productId, product) ==> Valid()
    {
      if WellFormed(cart) && CatalogAnswers(productId, product) {
        AddPreservesWellFormed(cart, productId, stock, product);
      }
      if stock.None? {
        return Failed(StockMissing);
      }
      if stock.value <= 0 {
        return Failed(OutOfStock);
      }
      var memoryCart := cart;
      var k := FindIndex(memoryCart, productId);
      if k >= 0 {
        if memoryCart[k].amount >= stock.value {
          return Failed(OutOfStock);
        }
        memoryCart := memoryCart[k := memoryCart[k].(amount := memoryCart[k].amount + 1)];
        Commit(memoryCart);
        return Done;
      }
      if product.None? {
        return Failed(ProductNotFound);
      }
      Commit(memoryCart + [product.value.(amount := 1)]);
      return Done;
    }

    method RemoveProduct(productId: int) returns (status: Status)
      modifies this
      ensures match Remove(old(cart), productId)
        case Ok(next) => status == Done && cart == next && stored == Some(next)
        case Err(e) => status == Failed(e) && cart == old(cart) && stored == old(stored)
      ensures old(Synced()) ==> Synced()
      ensures old(Valid()) ==> Valid()
    {
      if WellFormed(cart) {
        RemovePreservesWellFormed(cart, productId);
      }
      var products := cart;
      var k := FindIndex(products, productId);
      if k < 0 {
        return Failed(NotInCart);
      }
      products := products[..k] + products[k + 1..];
      Commit(products);
      return Done;
    }

    method UpdateProductAmount(productId: int, amount: int, stock: Option<int>) returns (status: Status)
      modifies this
      ensures match Update(old(cart), productId, amount, stock)
        case Ok(next) => status == Done && cart == next && stored == Some(next)
        case Err(e) => status == Failed(e) && cart == old(cart) && stored == old(stored)
      ensures old(Synced()) ==> Synced()
      ensures old(Valid()) ==> Valid()
    {
      if WellFormed(cart) {
        UpdatePreservesWellFormed(cart, productId, amount, stock);
      }
      if amount <= 0 {
        return Failed(InvalidAmount);
      }
      var products := cart;
      var k := FindIndex(products, productId);
      if k < 0 {
        return Failed(NotInCart);
      }
      if stock.None? {
        return Failed(StockMissing);
      }
      if amount > stock.value {
        return Failed(OutOfStock);
      }
      products := products[k := products[k].(amount := amount)];
      Commit(products);
      return Done;
    }
  }

  /** The add-to-stock-limit scenario run against the engine: from an empty cart
      with five units in stock, the first add creates the entry with one unit,
      the fifth reaches five, and the sixth is rejected without a change. */
  method ScenarioAddUpToStock()
  {
    var p := new Provider(None);
    assert IndexOf([], 1) == 0;
    var s := p.AddProduct(1, Some(5), Some(Item(1, 0)));
    assert s == Done && p.cart == [Item(1, 1)];
    assert IndexOf([Item(1, 1)], 1) == 0;
    s := p.AddProduct(1, Some(5), None);
    assert p.cart == [Item(1, 2)];
    assert IndexOf([Item(1, 2)], 1) == 0;
    s := p.AddProduct(1, Some(5), None);
    assert p.cart == [Item(1, 3)];
    assert IndexOf([Item(1, 3)], 1) == 0;
    s := p.AddProduct(1, Some(5), None);
    assert p.cart == [Item(1, 4)];
    assert IndexOf([Item(1, 4)], 1) == 0;
    s := p.AddProduct(1, Some(5), None);
    assert p.cart == [Item(1, 5)];
    assert p.stored == Some([Item(1, 5)]);
    assert IndexOf([Item(1, 5)], 1) == 0;
    s := p.AddProduct(1, Some(5), None);
    assert s == Failed(OutOfStock) && p.cart == [Item(1, 5)];
  }
}
