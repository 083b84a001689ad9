/**
 * app/composables/useCart.ts: the point-of-sale cart, a list of items kept
 * in insertion order with at most one item per product.
 */
module Cart {
  import opened Wrappers
  import opened Catalogue

  /** A `CartItem`; `price` is the unit price in cents captured when the item was added. */
  datatype CartItem = CartItem(productId: Id, name: string, price: int, quantity: int, sku: string, unit: string)

  /** `findIndex(item => item.productId === productId)` */
  function FindIndex(items: seq<CartItem>, productId: Id): (i: int)
    ensures -1 <= i < |items|
    ensures i == -1 <==> forall j :: 0 <= j < |items| ==> items[j].productId != productId
    ensures i >= 0 ==> items[i].productId == productId && forall j :: 0 <= j < i ==> items[j].productId != productId
  {
    if items == [] then -1
    else if items[0].productId == productId then 0
    else
      var j := FindIndex(items[1..], productId);
      assert forall k :: 1 <= k < |items| ==> items[k] == items[1..][k - 1];
      if j == -1 then -1 else j + 1
  }

  /** No two items are for the same product. */
  predicate DistinctIds(items: seq<CartItem>) {
    forall i, j :: 0 <= i < j < |items| ==> items[i].productId != items[j].productId
  }

  predicate Holds(items: seq<CartItem>, productId: Id) {
    exists i :: 0 <= i < |items| && items[i].productId == productId
  }

  /** The item `addToCart` pushes for a product not yet in the cart. */
  function ItemFor(p: Product): CartItem {
    CartItem(p.id, p.name, p.unitPrice, 1, p.sku, p.unit)
  }

  /** The cart after `addToCart(p)`. */
  function Added(items: seq<CartItem>, p: Product): seq<CartItem> {
    var i := FindIndex(items, p.id);
    if i >= 0 then items[i := items[i].(quantity := items[i].quantity + 1)] else items + [ItemFor(p)]
  }

  /** The cart after `removeFromCart(productId)`. */
  function Removed(items: seq<CartItem>, productId: Id): seq<CartItem> {
    var i := FindIndex(items, productId);
    if i >= 0 then items[..i] + items[i + 1..] else items
  }

  /** The cart after `updateQuantity(productId, quantity)`. */
  function WithQuantity(items: seq<CartItem>, productId: Id, quantity: int): seq<CartItem> {
    var i := FindIndex(items, productId);
    if i < 0 then items
    else if quantity <= 0 then Removed(items, productId)
    else items[i := items[i].(quantity := quantity)]
  }

  function QuantityOf(x: CartItem): int {
    x.quantity
  }

  function LineTotal(x: CartItem): int {
    x.price * x.quantity
  }

  /** `reduce((sum, item) => sum + f(item), 0)` */
  function SumOf(items: seq<CartItem>, f: CartItem -> int): int {
    if items == [] then 0 else f(items[0]) + SumOf(items[1..], f)
  }

  class Cart {
    /** The `cartItems` state. */
    var items: seq<CartItem>

    constructor ()
      ensures items == []
    {
      items := [];
    }

    /** `addToCart(p)`: one more of an item already held, else a new item of quantity 1 at the end. */
    method AddToCart(p: Product)
      modifies this
      ensures items == Added(old(items), p)
      ensures TotalItems() == old(TotalItems()) + 1
      ensures DistinctIds(old(items)) ==> DistinctIds(items)
    {
      AddedTotals(items, p);
      if DistinctIds(items) {
        AddedKeepsDistinct(items, p);
      }
      var i := FindIndex(items, p.id);
      if i >= 0 {
        items := items[i := items[i].(quantity := items[i].quantity + 1)];
      } else {
        items := items + [ItemFor(p)];
      }
    }

    /** `removeFromCart(productId)`: splice out the first matching item. */
    method RemoveFromCart(productId: Id)
      modifies this
      ensures items == Removed(old(items), productId)
      ensures DistinctIds(old(items)) ==> DistinctIds(items) && !Holds(items, productId)
    {
      RemovedProperties(items, productId);
      var i := FindIndex(items, productId);
      if i != -1 {
        items := items[..i] + items[i + 1..];
      }
    }

    /** `updateQuantity(productId, quantity)`: set a positive quantity, remove on zero or less. */
    method UpdateQuantity(productId: Id, quantity: int)
      modifies this
      ensures items == WithQuantity(old(items), productId, quantity)
      ensures DistinctIds(old(items)) ==> DistinctIds(items)
    {
      WithQuantityProperties(items, productId, quantity);
      var i := FindIndex(items, productId);
      if i >= 0 {
        if quantity <= 0 {
          RemoveFromCart(productId);
        } else {
          items := items[i := items[i].(quantity := quantity)];
        }
      }
    }

    /** `clearCart()` */
    method ClearCart()
      modifies this
      ensures items == []
      ensures Total() == 0 && TotalItems() == 0
    {
      items := [];
    }

    /** `total`: the sum of price times quantity. */
    function Total(): int
      reads this
    {
      SumOf(items, LineTotal)
    }

    /** `totalItems`: the sum of the quantities. */
    function TotalItems(): int
      reads this
    {
      SumOf(items, QuantityOf)
    }
  }

  // ---------------------------------------------------------------------------
  // Properties
  // ---------------------------------------------------------------------------

  /** A sum splits around any index. */
  lemma {:induction false} SumSplit(items: seq<CartItem>, i: nat, f: CartItem -> int)
    requires i < |items|
    ensures SumOf(items, f) == SumOf(items[..i], f) + f(items[i]) + SumOf(items[i + 1..], f)
  {
    if i > 0 {
      SumSplit(items[1..], i - 1, f);
      assert items[1..][..i - 1] == items[1..i];
      assert items[1..][i - 1 + 1..] == items[i + 1..];
      assert items[..i][1..] == items[1..i];
    }
  }

  /** Replacing one item changes a sum by the difference of that item's terms. */
  lemma SumReplace(items: seq<CartItem>, i: nat, x: CartItem, f: CartItem -> int)
    requires i < |items|
    ensures SumOf(items[i := x], f) == SumOf(items, f) - f(items[i]) + f(x)
  {
    SumSplit(items, i, f);
    SumSplit(items[i := x], i, f);
    assert items[i := x][..i] == items[..i];
    assert items[i := x][i + 1..] == items[i + 1..];
  }

  /** Appending one item adds its term. */
  lemma SumAppend(items: seq<CartItem>, x: CartItem, f: CartItem -> int)
    ensures SumOf(items + [x], f) == SumOf(items, f) + f(x)
  {
    SumSplit(items + [x], |items|, f);
    assert (items + [x])[..|items|] == items;
    assert (items + [x])[|items| + 1..] == [];
  }

  /** Splicing out one item subtracts its term. */
  lemma SumRemove(items: seq<CartItem>, i: nat, f: CartItem -> int)
    requires i < |items|
    ensures SumOf(items[..i] + items[i + 1..], f) == SumOf(items, f) - f(items[i])
  {
    SumSplit(items, i, f);
    SumConcat(items[..i], items[i + 1..], f);
  }

  lemma {:induction false} SumConcat(a: seq<CartItem>, b: seq<CartItem>, f: CartItem -> int)
    ensures SumOf(a + b, f) == SumOf(a, f) + SumOf(b, f)
  {
    if a == [] {
      assert a + b == b;
    } else {
      assert (a + b)[0] == a[0];
      assert (a + b)[1..] == a[1..] + b;
      SumConcat(a[1..], b, f);
    }
  }

  /**
   * `addToCart` raises the item count by exactly one. For a product already
   * held, the length stays and the total grows by that item's price; for a
   * new one, an item of quantity 1 at the product's unit price is appended.
   */
  lemma AddedTotals(items: seq<CartItem>, p: Product)
    ensures SumOf(Added(items, p), QuantityOf) == SumOf(items, QuantityOf) + 1
    ensures Holds(items, p.id) ==>
      var i := FindIndex(items, p.id);
      |Added(items, p)| == |items|
      && Added(items, p)[i].quantity == items[i].quantity + 1
      && SumOf(Added(items, p), LineTotal) == SumOf(items, LineTotal) + items[i].price
    ensures !Holds(items, p.id) ==>
      Added(items, p) == items + [CartItem(p.id, p.name, p.unitPrice, 1, p.sku, p.unit)]
      && SumOf(Added(items, p), LineTotal) == SumOf(items, LineTotal) + p.unitPrice
  {
    var i := FindIndex(items, p.id);
    if i >= 0 {
      var x := items[i].(quantity := items[i].quantity + 1);
      SumReplace(items, i, x, QuantityOf);
      SumReplace(items, i, x, LineTotal);
      assert LineTotal(x) == LineTotal(items[i]) + items[i].price;
    } else {
      SumAppend(items, ItemFor(p), QuantityOf);
      SumAppend(items, ItemFor(p), LineTotal);
    }
  }

  /** `addToCart` keeps product ids distinct, and the product is held afterwards. */
  lemma AddedKeepsDistinct(items: seq<CartItem>, p: Product)
    requires DistinctIds(items)
    ensures DistinctIds(Added(items, p))
    ensures Holds(Added(items, p), p.id)
  {
    var r := Added(items, p);
    var i := FindIndex(items, p.id);
    if i >= 0 {
      assert r[i].productId == p.id;
    } else {
      assert r[|items|].productId == p.id;
    }
  }

  /**
   * `removeFromCart`: an absent product changes nothing; otherwise exactly
   * one item goes, the others keep their order, and with distinct ids no
   * item for the product is left.
   */
  lemma RemovedProperties(items: seq<CartItem>, productId: Id)
    ensures !Holds(items, productId) ==> Removed(items, productId) == items
    ensures Holds(items, productId) ==>
      var i := FindIndex(items, productId);
      |Removed(items, productId)| == |items| - 1
      && (forall j :: 0 <= j < i ==> Removed(items, productId)[j] == items[j])
      && (forall j :: i < j < |items| ==> Removed(items, productId)[j - 1] == items[j])
      && SumOf(Removed(items, productId), QuantityOf) == SumOf(items, QuantityOf) - items[i].quantity
    ensures DistinctIds(items) ==> DistinctIds(Removed(items, productId)) && !Holds(Removed(items, productId), productId)
  {
    var i := FindIndex(items, productId);
    HoldsIff(items, productId);
    if i >= 0 {
      assert Removed(items, productId) == items[..i] + items[i + 1..];
      SumRemove(items, i, QuantityOf);
      SpliceShape(items, i);
      if DistinctIds(items) {
        SpliceDistinct(items, i);
      }
    } else {
      assert Removed(items, productId) == items;
    }
  }

  /** A product is held exactly when `findIndex` finds it. */
  lemma HoldsIff(items: seq<CartItem>, productId: Id)
    ensures Holds(items, productId) <==> FindIndex(items, productId) >= 0
  {
    var i := FindIndex(items, productId);
    if i >= 0 {
      assert items[i].productId == productId;
    }
  }

  /** Where the items of a splice come from. */
  lemma SpliceShape(items: seq<CartItem>, i: nat)
    requires i < |items|
    ensures |items[..i] + items[i + 1..]| == |items| - 1
    ensures forall j :: 0 <= j < i ==> (items[..i] + items[i + 1..])[j] == items[j]
    ensures forall j :: i < j < |items| ==> (items[..i] + items[i + 1..])[j - 1] == items[j]
  {
  }

  /** Splicing out an item of a cart with distinct ids leaves distinct ids and no item for that product. */
  lemma SpliceDistinct(items: seq<CartItem>, i: nat)
    requires i < |items| && DistinctIds(items)
    ensures DistinctIds(items[..i] + items[i + 1..])
    ensures !Holds(items[..i] + items[i + 1..], items[i].productId)
  {
    var r := items[..i] + items[i + 1..];
    SpliceShape(items, i);
    forall a, b | 0 <= a < b < |r| ensures r[a].productId != r[b].productId {
      var a' := if a < i then a else a + 1;
      var b' := if b < i then b else b + 1;
      assert r[if a < i then a else a' - 1] == items[a'];
      assert r[if b < i then b else b' - 1] == items[b'];
    }
    forall j | 0 <= j < |r| ensures r[j].productId != items[i].productId {
      var j' := if j < i then j else j + 1;
      assert r[if j < i then j else j' - 1] == items[j'];
    }
  }

  /**
   * `updateQuantity`: an absent product changes nothing; zero or less
   * removes; a positive quantity is set on that item alone.
   */
  lemma WithQuantityProperties(items: seq<CartItem>, productId: Id, quantity: int)
    ensures !Holds(items, productId) ==> WithQuantity(items, productId, quantity) == items
    ensures Holds(items, productId) && quantity <= 0 ==> WithQuantity(items, productId, quantity) == Removed(items, productId)
    ensures Holds(items, productId) && quantity > 0 ==>
      var i := FindIndex(items, productId);
      var r := WithQuantity(items, productId, quantity);
      |r| == |items| && r[i].quantity == quantity && r[i].productId == productId
      && (forall j :: 0 <= j < |items| && j != i ==> r[j] == items[j])
    ensures DistinctIds(items) ==> DistinctIds(WithQuantity(items, productId, quantity))
  {
    var i := FindIndex(items, productId);
    HoldsIff(items, productId);
    if i >= 0 && quantity > 0 {
      var r := items[i := items[i].(quantity := quantity)];
      assert WithQuantity(items, productId, quantity) == r;
      if DistinctIds(items) {
        assert forall j :: 0 <= j < |r| ==> r[j].productId == items[j].productId;
      }
    } else if i >= 0 {
      assert WithQuantity(items, productId, quantity) == Removed(items, productId);
      RemovedProperties(items, productId);
    } else {
      assert WithQuantity(items, productId, quantity) == items;
    }
  }
}
