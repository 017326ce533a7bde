/**
 * The cart of the point-of-sale hook and the sale arithmetic over it: effective prices,
 * subtotal and profit, and the list transformations behind add, update and remove.
 */
module Cart {
  import opened Wrappers
  import opened Seqs
  import opened Catalog

  /** A cart line: the product as it was when added (a snapshot), a quantity and an optional override price. */
  datatype CartItem = CartItem(product: Product, quantity: int, finalPrice: Option<int>)

  /** `item.finalPrice || item.product.sellPrice`: an override of 0 is falsy, so it falls back to the sell price. */
  function EffectivePrice(item: CartItem): (price: int)
    ensures item.finalPrice.Some? && item.finalPrice.value != 0 ==> price == item.finalPrice.value
    ensures item.finalPrice.None? || item.finalPrice == Some(0) ==> price == item.product.sellPrice
  {
    match item.finalPrice
    case Some(p) => if p != 0 then p else item.product.sellPrice
    case None => item.product.sellPrice
  }

  /** The subtotal `reduce`: effective price times quantity, summed left to right from 0. */
  function Subtotal(cart: seq<CartItem>): (total: int)
    ensures (forall i :: 0 <= i < |cart| ==> cart[i].quantity >= 0 && EffectivePrice(cart[i]) >= 0) ==> total >= 0
  {
    if cart == [] then 0
    else Subtotal(cart[..|cart| - 1]) + EffectivePrice(cart[|cart| - 1]) * cart[|cart| - 1].quantity
  }

  /** The profit `reduce`: effective price minus cost price, times quantity, summed left to right from 0. */
  function Profit(cart: seq<CartItem>): (profit: int)
    ensures (forall i :: 0 <= i < |cart| ==> cart[i].quantity >= 0 && EffectivePrice(cart[i]) >= cart[i].product.costPrice) ==>
      profit >= 0
  {
    if cart == [] then 0
    else
      var item := cart[|cart| - 1];
      Profit(cart[..|cart| - 1]) + (EffectivePrice(item) - item.product.costPrice) * item.quantity
  }

  /** What the sold goods cost: cost price times quantity, summed. */
  function CostOfGoods(cart: seq<CartItem>): int {
    if cart == [] then 0
    else CostOfGoods(cart[..|cart| - 1]) + cart[|cart| - 1].product.costPrice * cart[|cart| - 1].quantity
  }

  /** The subtotal of two carts put together is the sum of their subtotals. */
  lemma {:induction false} SubtotalAppend(a: seq<CartItem>, b: seq<CartItem>)
    ensures Subtotal(a + b) == Subtotal(a) + Subtotal(b)
    decreases |b|
  {
    if b == [] {
      assert a + b == a;
    } else {
      assert (a + b)[..|a + b| - 1] == a + b[..|b| - 1];
      SubtotalAppend(a, b[..|b| - 1]);
    }
  }

  /** The subtotal is a sum over the entries: the first entry's line total plus the rest's. */
  lemma SubtotalCons(item: CartItem, rest: seq<CartItem>)
    ensures Subtotal([item] + rest) == EffectivePrice(item) * item.quantity + Subtotal(rest)
  {
    SubtotalAppend([item], rest);
  }

  /** Profit is revenue minus the cost of goods, entry by entry summed. */
  lemma {:induction false} ProfitIsSubtotalMinusCost(cart: seq<CartItem>)
    ensures Profit(cart) == Subtotal(cart) - CostOfGoods(cart)
  {
    if cart != [] {
      ProfitIsSubtotalMinusCost(cart[..|cart| - 1]);
    }
  }

  /** One line of two units at 10000 that cost 6000 each: subtotal 20000, profit 8000. */
  lemma SingleLineSale(p: Product)
    requires p.sellPrice == 10000 && p.costPrice == 6000
    ensures Subtotal([CartItem(p, 2, None)]) == 20000
    ensures Profit([CartItem(p, 2, None)]) == 8000
  {
  }

  predicate InCart(cart: seq<CartItem>, id: string) {
    exists i :: 0 <= i < |cart| && cart[i].product.id == id
  }

  /** No product appears on two cart lines. */
  predicate UniqueIds(cart: seq<CartItem>) {
    forall i, j :: 0 <= i < j < |cart| ==> cart[i].product.id != cart[j].product.id
  }

  /**
   * The `find` of `addToCart`: the first line for the product, searching from the front. This is
   * `Seqs.Find` with the product-id test written out first-order (`FindItemIsFind`), which keeps
   * the cart proofs free of higher-order reasoning.
   */
  function FindItem(cart: seq<CartItem>, id: string): (r: Option<CartItem>)
    ensures r.Some? <==> InCart(cart, id)
    ensures r.Some? ==> r.value in cart && r.value.product.id == id
    decreases |cart|
  {
    if cart == [] then None
    else if cart[0].product.id == id then Some(cart[0])
    else
      var r := FindItem(cart[1..], id);
      assert InCart(cart[1..], id) ==> InCart(cart, id);
      assert InCart(cart, id) ==> InCart(cart[1..], id) by {
        if InCart(cart, id) {
          var i :| 0 <= i < |cart| && cart[i].product.id == id;
          assert cart[1..][i - 1].product.id == id;
        }
      }
      r
  }
  /** The line `FindItem` returns is the first line for the product: no earlier line has that id. */
  lemma {:induction false} FindItemFirst(cart: seq<CartItem>, id: string)
    ensures FindItem(cart, id).Some? ==>
      exists k :: 0 <= k < |cart| && cart[k] == FindItem(cart, id).value && forall j :: 0 <= j < k ==> cart[j].product.id != id
    decreases |cart|
  {
    if cart != [] && cart[0].product.id != id && FindItem(cart, id).Some? {
      FindItemFirst(cart[1..], id);
      var k :| 0 <= k < |cart[1..]| && cart[1..][k] == FindItem(cart[1..], id).value
        && forall j :: 0 <= j < k ==> cart[1..][j].product.id != id;
      assert cart[k + 1] == FindItem(cart, id).value;
      assert forall j :: 1 <= j < k + 1 ==> cart[j] == cart[1..][j - 1];
    }
  }

  /** `FindItem` is the generic `find` with the product-id test. */
  lemma FindItemIsFind(cart: seq<CartItem>, id: string)
    ensures FindItem(cart, id) == Find(cart, (item: CartItem) => item.product.id == id)
  {
    var p := (item: CartItem) => item.product.id == id;
    var r := Find(cart, p);
    FindItemFirst(cart, id);
    if r.Some? {
      var k1 :| 0 <= k1 < |cart| && cart[k1] == r.value && p(cart[k1]) && forall j :: 0 <= j < k1 ==> !p(cart[j]);
      var k2 :| 0 <= k2 < |cart| && cart[k2] == FindItem(cart, id).value && forall j :: 0 <= j < k2 ==> cart[j].product.id != id;
      assert k1 == k2;
    }
  }



  /** The test `removeFromCart` keeps lines with. */
  function OtherProduct(id: string): CartItem -> bool {
    (item: CartItem) => item.product.id != id
  }

  /** The list `removeFromCart` leaves: every line of other products, in order. */
  function Removed(cart: seq<CartItem>, id: string): (r: seq<CartItem>)
    ensures !InCart(r, id)
  {
    Filter(cart, OtherProduct(id))
  }

  /** Removal drops exactly the lines of that product: every other line keeps its multiplicity. */
  lemma RemovedCount(cart: seq<CartItem>, id: string, x: CartItem)
    ensures multiset(Removed(cart, id))[x] == if x.product.id == id then 0 else multiset(cart)[x]
  {
    FilterCount(cart, OtherProduct(id), x);
  }

  /** Removing a product that is not in the cart changes nothing. */
  lemma RemoveAbsent(cart: seq<CartItem>, id: string)
    requires !InCart(cart, id)
    ensures Removed(cart, id) == cart
  {
    FilterKeepsAll(cart, OtherProduct(id));
  }

  /** With unique ids, removing the product on line `k` closes the gap and keeps every other line in order. */
  lemma RemoveIsSplice(cart: seq<CartItem>, id: string, k: nat)
    requires UniqueIds(cart)
    requires k < |cart| && cart[k].product.id == id
    ensures Removed(cart, id) == cart[..k] + cart[k + 1..]
  {
    var keep := OtherProduct(id);
    var before, after := cart[..k], cart[k + 1..];
    assert cart == before + ([cart[k]] + after);
    assert forall i :: 0 <= i < |before| ==> keep(before[i]) by {
      forall i | 0 <= i < |before| ensures keep(before[i]) {
        assert before[i] == cart[i];
      }
    }
    assert forall i :: 0 <= i < |after| ==> keep(after[i]) by {
      forall i | 0 <= i < |after| ensures keep(after[i]) {
        assert after[i] == cart[k + 1 + i];
      }
    }
    FilterKeepsAll(before, keep);
    FilterKeepsAll(after, keep);
    FilterAppend([cart[k]], after, keep);
    assert Filter([cart[k]] + after, keep) == after;
    FilterAppend(before, [cart[k]] + after, keep);
  }

  /** Removal keeps product ids unique. */
  lemma {:induction false} RemoveKeepsIdsUnique(cart: seq<CartItem>, id: string)
    requires UniqueIds(cart)
    ensures UniqueIds(Removed(cart, id))
  {
    if cart != [] {
      var rest := cart[1..];
      RemoveKeepsIdsUnique(rest, id);
      var r := Removed(rest, id);
      assert Removed(cart, id) == (if cart[0].product.id != id then [cart[0]] else []) + r;
      forall j | 0 <= j < |r|
        ensures r[j].product.id != cart[0].product.id
      {
        var k :| 0 <= k < |rest| && rest[k] == r[j];
        assert rest[k] == cart[k + 1];
      }
    }
  }

  /** The list `updateCartQuantity` leaves for a positive quantity: the product's lines get the new quantity and override. */
  function Requantified(cart: seq<CartItem>, id: string, quantity: int, finalPrice: Option<int>): (r: seq<CartItem>)
    ensures |r| == |cart|
    ensures forall i :: 0 <= i < |cart| && cart[i].product.id == id ==>
      r[i] == CartItem(cart[i].product, quantity, finalPrice)
    ensures forall i :: 0 <= i < |cart| && cart[i].product.id != id ==> r[i] == cart[i]
  {
    Map(cart, (item: CartItem) => if item.product.id == id then item.(quantity := quantity, finalPrice := finalPrice) else item)
  }

  /** `updateCartQuantity`: a quantity of zero or less removes the product, any other replaces quantity and override. */
  function QuantityUpdated(cart: seq<CartItem>, id: string, quantity: int, finalPrice: Option<int>): (r: seq<CartItem>)
    ensures |r| <= |cart|
    ensures quantity <= 0 ==> !InCart(r, id)
    ensures quantity > 0 ==> |r| == |cart|
  {
    if quantity <= 0 then Removed(cart, id) else Requantified(cart, id, quantity, finalPrice)
  }

  /** With unique ids, a positive update rewrites the one line of that product and nothing else. */
  lemma UpdateIsPointUpdate(cart: seq<CartItem>, id: string, k: nat, quantity: int, finalPrice: Option<int>)
    requires UniqueIds(cart)
    requires k < |cart| && cart[k].product.id == id
    requires quantity > 0
    ensures QuantityUpdated(cart, id, quantity, finalPrice) == cart[k := CartItem(cart[k].product, quantity, finalPrice)]
  {
  }

  /** Updating a product that is not in the cart changes nothing, whatever the quantity. */
  lemma UpdateAbsent(cart: seq<CartItem>, id: string, quantity: int, finalPrice: Option<int>)
    requires !InCart(cart, id)
    ensures QuantityUpdated(cart, id, quantity, finalPrice) == cart
  {
    if quantity <= 0 {
      RemoveAbsent(cart, id);
    } else {
      var r := Requantified(cart, id, quantity, finalPrice);
      assert forall i :: 0 <= i < |cart| ==> r[i] == cart[i];
    }
  }

  /** Updating quantities keeps product ids unique. */
  lemma UpdateKeepsIdsUnique(cart: seq<CartItem>, id: string, quantity: int, finalPrice: Option<int>)
    requires UniqueIds(cart)
    ensures UniqueIds(QuantityUpdated(cart, id, quantity, finalPrice))
  {
    if quantity <= 0 {
      RemoveKeepsIdsUnique(cart, id);
    }
  }

  /**
   * `addToCart`: a product already in the cart goes through `updateCartQuantity` with the summed
   * quantity and the new override (an omitted override clears the old one); any other product is
   * appended as a new last line, whatever its quantity.
   */
  function AddedToCart(cart: seq<CartItem>, product: Product, quantity: int, customPrice: Option<int>): (r: seq<CartItem>)
    ensures |r| <= |cart| + 1
    ensures InCart(cart, product.id) ==> |r| <= |cart|
  {
    match FindItem(cart, product.id)
    case Some(existing) => QuantityUpdated(cart, product.id, existing.quantity + quantity, customPrice)
    case None => cart + [CartItem(product, quantity, customPrice)]
  }

  /** Adding a product that is already on line `k` sums the quantities on that line and adopts the new override. */
  lemma AddExisting(cart: seq<CartItem>, product: Product, quantity: int, customPrice: Option<int>, k: nat)
    requires UniqueIds(cart)
    requires k < |cart| && cart[k].product.id == product.id
    ensures cart[k].quantity + quantity > 0 ==>
      AddedToCart(cart, product, quantity, customPrice)
        == cart[k := CartItem(cart[k].product, cart[k].quantity + quantity, customPrice)]
    ensures cart[k].quantity + quantity <= 0 ==>
      AddedToCart(cart, product, quantity, customPrice) == cart[..k] + cart[k + 1..]
  {
    var found := FindItem(cart, product.id);
    var i :| 0 <= i < |cart| && cart[i] == found.value;
    assert i == k;
    if cart[k].quantity + quantity > 0 {
      UpdateIsPointUpdate(cart, product.id, k, cart[k].quantity + quantity, customPrice);
    } else {
      RemoveIsSplice(cart, product.id, k);
    }
  }

  /** Adding a product that is not in the cart appends it, even with a quantity of zero or less. */
  lemma AddNew(cart: seq<CartItem>, product: Product, quantity: int, customPrice: Option<int>)
    requires !InCart(cart, product.id)
    ensures AddedToCart(cart, product, quantity, customPrice) == cart + [CartItem(product, quantity, customPrice)]
  {
  }

  /** Adding keeps product ids unique. */
  lemma AddKeepsIdsUnique(cart: seq<CartItem>, product: Product, quantity: int, customPrice: Option<int>)
    requires UniqueIds(cart)
    ensures UniqueIds(AddedToCart(cart, product, quantity, customPrice))
  {
    match FindItem(cart, product.id)
    case Some(existing) =>
      UpdateKeepsIdsUnique(cart, product.id, existing.quantity + quantity, customPrice);
    case None =>
  }

  /**
   * Adding the same new product twice leaves one line at the end with the summed quantity and the
   * second call's override.
   */
  lemma AddTwice(cart: seq<CartItem>, product: Product, q1: int, q2: int, price1: Option<int>, price2: Option<int>)
    requires UniqueIds(cart) && !InCart(cart, product.id)
    requires q1 + q2 > 0
    ensures AddedToCart(AddedToCart(cart, product, q1, price1), product, q2, price2)
      == cart + [CartItem(product, q1 + q2, price2)]
  {
    var once := AddedToCart(cart, product, q1, price1);
    assert once == cart + [CartItem(product, q1, price1)];
    AddKeepsIdsUnique(cart, product, q1, price1);
    AddExisting(once, product, q2, price2, |cart|);
  }
}
