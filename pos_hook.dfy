/**
 * The point-of-sale hook: the held cart and product list, and the sale commit that turns a cart
 * into a receipt through an ordered series of backend requests. The backend itself is not
 * modelled: its replies are parameters, and the requests the hook makes are returned in order.
 */
module PosHook {
  import opened Wrappers
  import opened Seqs
  import opened Catalog
  import opened Cart

  /** The signed-in user (only the id is used here). */
  datatype User = User(id: string)

  /** A completed sale as the hook hands it back. */
  datatype Receipt = Receipt(
    id: string,
    items: seq<CartItem>,
    subtotal: int,
    discount: int,
    total: int,
    profit: int,
    timestamp: string,
    paymentMethod: Option<string>)

  /** The `receipts` insert payload. */
  datatype ReceiptRecord = ReceiptRecord(
    userId: string,
    subtotal: int,
    discount: int,
    total: int,
    profit: int,
    paymentMethod: Option<string>,
    receiptNumber: string)

  /** One `receipt_items` insert row: the sale's prices are copied onto it. */
  datatype ReceiptItemRecord = ReceiptItemRecord(
    receiptId: string,
    productId: string,
    productName: string,
    quantity: int,
    sellPrice: int,
    costPrice: int,
    finalPrice: int)

  /** A request to the backend. */
  datatype BackendCall =
    | GenerateInvoiceNumber(isManual: bool)
    | InsertReceipt(record: ReceiptRecord)
    | InsertReceiptItems(records: seq<ReceiptItemRecord>)
    | UpdateProductRow(productId: string, data: Row)
    | InsertProductRow(row: Row)

  /** The receipt row the backend returns from the insert: its generated id and creation time. */
  datatype StoredReceipt = StoredReceipt(id: string, createdAt: string)

  /**
   * The backend's replies during one sale: the invoice number (or an error), the stored
   * receipt (or an error), whether the line items were inserted, and whether the i-th stock
   * update succeeded (an update past the end of the list succeeds).
   */
  datatype SaleReplies = SaleReplies(
    invoiceNumber: Option<string>,
    storedReceipt: Option<StoredReceipt>,
    itemsInserted: bool,
    stockUpdated: seq<bool>)

  function StockUpdateReply(replies: SaleReplies, i: nat): bool {
    if i < |replies.stockUpdated| then replies.stockUpdated[i] else true
  }

  /** The line-item row of one cart entry, with the effective price as `final_price`. */
  function ItemRecord(receiptId: string, item: CartItem): ReceiptItemRecord {
    ReceiptItemRecord(receiptId, item.product.id, item.product.name, item.quantity,
      item.product.sellPrice, item.product.costPrice, EffectivePrice(item))
  }

  /** The line-item rows of a sale, one per cart entry in cart order, with the sale's prices copied. */
  function ItemRecords(receiptId: string, cart: seq<CartItem>): (records: seq<ReceiptItemRecord>)
    ensures |records| == |cart|
    ensures forall i :: 0 <= i < |cart| ==>
      && records[i].receiptId == receiptId
      && records[i].productId == cart[i].product.id
      && records[i].productName == cart[i].product.name
      && records[i].quantity == cart[i].quantity
      && records[i].sellPrice == cart[i].product.sellPrice
      && records[i].costPrice == cart[i].product.costPrice
      && records[i].finalPrice == EffectivePrice(cart[i])
  {
    Map(cart, (item: CartItem) => ItemRecord(receiptId, item))
  }

  /** The stock update a sold line causes: the line's product snapshot stock minus the quantity, unclamped. */
  function StockUpdate(item: CartItem): BackendCall {
    UpdateProductRow(item.product.id, UpdateColumns(StockPatch(item.product.stock - item.quantity)))
  }

  /** The stock updates of a sale, issued line after line. */
  function StockUpdates(cart: seq<CartItem>): seq<BackendCall> {
    if cart == [] then [] else StockUpdates(cart[..|cart| - 1]) + [StockUpdate(cart[|cart| - 1])]
  }

  /** The stock updates of a cart prefix grow by one entry's update per entry. */
  lemma StockUpdatesSnoc(cart: seq<CartItem>, i: nat)
    requires i < |cart|
    ensures StockUpdates(cart[..i + 1]) == StockUpdates(cart[..i]) + [StockUpdate(cart[i])]
  {
    assert cart[..i + 1][..i] == cart[..i];
  }

  /** One stock update per cart entry, in cart order, each writing only the `stock` column. */
  lemma {:induction false} StockUpdatesSpec(cart: seq<CartItem>)
    ensures |StockUpdates(cart)| == |cart|
    ensures forall i :: 0 <= i < |cart| ==>
      StockUpdates(cart)[i]
        == UpdateProductRow(cart[i].product.id, map["stock" := Number(cart[i].product.stock - cart[i].quantity)])
  {
    if cart != [] {
      var n := |cart| - 1;
      StockUpdatesSpec(cart[..n]);
      StockPatchColumns(cart[n].product.stock - cart[n].quantity);
    }
  }

  /** A sale goes through: a user, a non-empty cart, and the first three backend steps succeed. */
  predicate Commits(user: Option<User>, cart: seq<CartItem>, replies: SaleReplies) {
    && user.Some? && cart != []
    && replies.invoiceNumber.Some? && replies.storedReceipt.Some? && replies.itemsInserted
  }

  /** The `receipts` row of a sale. */
  function SaleRecord(user: User, cart: seq<CartItem>, paymentMethod: Option<string>, discount: int, number: string): ReceiptRecord {
    var subtotal := Subtotal(cart);
    ReceiptRecord(user.id, subtotal, discount, subtotal - discount, Profit(cart), paymentMethod, number)
  }

  /**
   * The requests of a sale, in order: invoice number, receipt, line items, then one stock update
   * per line. The first failing step ends the sequence; failed stock updates do not.
   */
  function SaleCalls(user: Option<User>, cart: seq<CartItem>, paymentMethod: Option<string>, discount: int,
                     isManual: bool, replies: SaleReplies): (calls: seq<BackendCall>)
    ensures calls == [] <==> user.None? || cart == []
    ensures calls != [] ==> calls[0] == GenerateInvoiceNumber(isManual)
  {
    if user.None? || cart == [] then []
    else
      var invoice := GenerateInvoiceNumber(isManual);
      match replies.invoiceNumber
      case None => [invoice]
      case Some(number) =>
        var receipt := InsertReceipt(SaleRecord(user.value, cart, paymentMethod, discount, number));
        match replies.storedReceipt
        case None => [invoice, receipt]
        case Some(stored) =>
          var items := InsertReceiptItems(ItemRecords(stored.id, cart));
          if replies.itemsInserted then [invoice, receipt, items] + StockUpdates(cart) else [invoice, receipt, items]
  }

  /** The receipt a sale returns: the cart snapshot with its totals, or nothing. */
  function SaleReceipt(user: Option<User>, cart: seq<CartItem>, paymentMethod: Option<string>, discount: int,
                       replies: SaleReplies): (r: Option<Receipt>)
    ensures r.Some? <==> Commits(user, cart, replies)
    ensures r.Some? ==> r.value.items == cart && r.value.paymentMethod == paymentMethod
    ensures r.Some? ==>
      && r.value.id == replies.storedReceipt.value.id
      && r.value.discount == discount
      && r.value.timestamp == replies.storedReceipt.value.createdAt
  {
    if Commits(user, cart, replies) then
      var subtotal := Subtotal(cart);
      Some(Receipt(replies.storedReceipt.value.id, cart, subtotal, discount, subtotal - discount,
        Profit(cart), replies.storedReceipt.value.createdAt, paymentMethod))
    else None
  }

  /** Without a user, or with an empty cart, a sale returns nothing and makes no request. */
  lemma NoSaleWithoutUserOrItems(user: Option<User>, cart: seq<CartItem>, paymentMethod: Option<string>,
                                 discount: int, isManual: bool, replies: SaleReplies)
    requires user.None? || cart == []
    ensures SaleCalls(user, cart, paymentMethod, discount, isManual, replies) == []
    ensures SaleReceipt(user, cart, paymentMethod, discount, replies) == None
  {
  }

  /**
   * A returned receipt carries the cart it was made from, a total of subtotal minus discount
   * (unclamped), and a profit of subtotal minus cost of goods; the stored receipt row carries the
   * same figures.
   */
  lemma SaleTotals(user: Option<User>, cart: seq<CartItem>, paymentMethod: Option<string>, discount: int,
                   isManual: bool, replies: SaleReplies)
    requires SaleReceipt(user, cart, paymentMethod, discount, replies).Some?
    ensures var r := SaleReceipt(user, cart, paymentMethod, discount, replies).value;
      && r.items == cart
      && r.subtotal == Subtotal(cart)
      && r.total == r.subtotal - discount
      && r.profit == Subtotal(cart) - CostOfGoods(cart)
      && SaleCalls(user, cart, paymentMethod, discount, isManual, replies)[1]
        == InsertReceipt(ReceiptRecord(user.value.id, r.subtotal, discount, r.total, r.profit, paymentMethod,
                                       replies.invoiceNumber.value))
  {
    ProfitIsSubtotalMinusCost(cart);
  }

  /**
   * A sale that goes through makes exactly three requests before the stock updates, then one
   * update per line in cart order, each setting `stock` to the line's snapshot stock minus the
   * quantity sold and writing no other column.
   */
  lemma SaleStockUpdates(user: Option<User>, cart: seq<CartItem>, paymentMethod: Option<string>, discount: int,
                         isManual: bool, replies: SaleReplies)
    requires Commits(user, cart, replies)
    ensures var calls := SaleCalls(user, cart, paymentMethod, discount, isManual, replies);
      && |calls| == 3 + |cart|
      && forall i :: 0 <= i < |cart| ==>
        calls[3 + i] == UpdateProductRow(cart[i].product.id, map["stock" := Number(cart[i].product.stock - cart[i].quantity)])
  {
    var calls := SaleCalls(user, cart, paymentMethod, discount, isManual, replies);
    SaleInsertsItems(user, cart, paymentMethod, discount, isManual, replies);
    StockUpdatesSpec(cart);
    forall i | 0 <= i < |cart|
      ensures calls[3 + i] == UpdateProductRow(cart[i].product.id, map["stock" := Number(cart[i].product.stock - cart[i].quantity)])
    {
      assert calls[3 + i] == calls[3..][i];
    }
  }

  /** A sale that fails makes no stock update: only a sale that goes through touches stock. */
  lemma NoStockUpdateOnFailure(user: Option<User>, cart: seq<CartItem>, paymentMethod: Option<string>, discount: int,
                               isManual: bool, replies: SaleReplies)
    requires !Commits(user, cart, replies)
    ensures |SaleCalls(user, cart, paymentMethod, discount, isManual, replies)| <= 3
    ensures forall c :: c in SaleCalls(user, cart, paymentMethod, discount, isManual, replies) ==> !c.UpdateProductRow?
  {
  }

  /** Without an invoice number, the sale stops after asking for one. */
  lemma SaleStopsWithoutInvoice(user: Option<User>, cart: seq<CartItem>, paymentMethod: Option<string>,
                                discount: int, isManual: bool, replies: SaleReplies)
    requires user.Some? && cart != [] && replies.invoiceNumber.None?
    ensures SaleCalls(user, cart, paymentMethod, discount, isManual, replies) == [GenerateInvoiceNumber(isManual)]
  {
  }

  /**
   * With an invoice number, the second request inserts the `receipts` row with the sale's figures;
   * if the backend stores no row, the sale stops there.
   */
  lemma SaleInsertsReceipt(user: Option<User>, cart: seq<CartItem>, paymentMethod: Option<string>,
                           discount: int, isManual: bool, replies: SaleReplies)
    requires user.Some? && cart != [] && replies.invoiceNumber.Some?
    ensures var calls := SaleCalls(user, cart, paymentMethod, discount, isManual, replies);
      && |calls| >= 2
      && calls[1] == InsertReceipt(ReceiptRecord(user.value.id, Subtotal(cart), discount, Subtotal(cart) - discount,
                                                 Profit(cart), paymentMethod, replies.invoiceNumber.value))
      && (replies.storedReceipt.None? ==> |calls| == 2)
  {
  }

  /**
   * With a stored receipt, the third request inserts the line items under the stored receipt's id;
   * if that insert fails, the sale stops there.
   */
  lemma SaleInsertsItems(user: Option<User>, cart: seq<CartItem>, paymentMethod: Option<string>,
                         discount: int, isManual: bool, replies: SaleReplies)
    requires user.Some? && cart != [] && replies.invoiceNumber.Some? && replies.storedReceipt.Some?
    ensures var calls := SaleCalls(user, cart, paymentMethod, discount, isManual, replies);
      && |calls| >= 3
      && calls[2] == InsertReceiptItems(ItemRecords(replies.storedReceipt.value.id, cart))
      && (!replies.itemsInserted ==> |calls| == 3)
      && (replies.itemsInserted ==> calls[3..] == StockUpdates(cart))
  {
  }

  /**
   * The first three steps of a sale, one request each: the invoice number, then the `receipts`
   * row with the sale's figures, then the line items of the stored receipt. A step that fails ends
   * the requests there.
   */
  lemma SaleCallsSteps(user: Option<User>, cart: seq<CartItem>, paymentMethod: Option<string>, discount: int,
                       isManual: bool, replies: SaleReplies)
    requires user.Some? && cart != []
    ensures var calls := SaleCalls(user, cart, paymentMethod, discount, isManual, replies);
      && (replies.invoiceNumber.None? ==> calls == [GenerateInvoiceNumber(isManual)])
      && (replies.invoiceNumber.Some? ==> |calls| >= 2 && calls[1] == InsertReceipt(ReceiptRecord(user.value.id,
            Subtotal(cart), discount, Subtotal(cart) - discount, Profit(cart), paymentMethod, replies.invoiceNumber.value)))
      && (replies.invoiceNumber.Some? && replies.storedReceipt.None? ==> |calls| == 2)
      && (replies.invoiceNumber.Some? && replies.storedReceipt.Some? ==>
            |calls| >= 3 && calls[2] == InsertReceiptItems(ItemRecords(replies.storedReceipt.value.id, cart)))
      && (replies.invoiceNumber.Some? && replies.storedReceipt.Some? && !replies.itemsInserted ==> |calls| == 3)
  {
    if replies.invoiceNumber.None? {
      SaleStopsWithoutInvoice(user, cart, paymentMethod, discount, isManual, replies);
    } else {
      SaleInsertsReceipt(user, cart, paymentMethod, discount, isManual, replies);
      if replies.storedReceipt.Some? {
        SaleInsertsItems(user, cart, paymentMethod, discount, isManual, replies);
      }
    }
  }

  /** The state the hook holds. */
  class Pos {
    var products: seq<Product>
    var cart: seq<CartItem>
    var loading: bool

    constructor()
      ensures products == [] && cart == [] && loading
    {
      products, cart, loading := [], [], true;
    }

    /**
     * `loadProducts`: with a user and a successful fetch, the product list becomes the fetched
     * rows mapped field by field; otherwise it is kept. Loading ends either way.
     */
    method LoadProducts(user: Option<User>, fetched: Option<seq<Row>>)
      requires fetched.Some? ==> forall i :: 0 <= i < |fetched.value| ==> IsProductRow(fetched.value[i])
      modifies this`products, this`loading
      ensures !loading
      ensures user.Some? && fetched.Some? ==>
        |products| == |fetched.value| &&
        forall i :: 0 <= i < |products| ==> products[i] == FromRow(fetched.value[i])
      ensures user.None? || fetched.None? ==> products == old(products)
    {
      if user.None? {
        loading := false;
        return;
      }
      if fetched.Some? {
        var rows := fetched.value;
        products := seq(|rows|, i requires 0 <= i < |rows| => FromRow(rows[i]));
      }
      loading := false;
    }

    /**
     * `addProduct`: inserts the product's row under the user's id and reports whether it was
     * stored. Without a user the payload cannot be built: nothing is sent and the error is
     * swallowed.
     */
    method AddProduct(user: Option<User>, data: NewProduct, inserted: bool) returns (call: Option<BackendCall>, added: bool)
      ensures user.None? ==> call == None && !added
      ensures user.Some? ==> call == Some(InsertProductRow(InsertRow(data, user.value.id))) && added == inserted
    {
      if user.None? {
        return None, false;
      }
      call := Some(InsertProductRow(InsertRow(data, user.value.id)));
      added := inserted;
    }

    /**
     * `updateProduct`: builds the update payload field by field and sends it. A failed update
     * is reported through `saved` only: the error never reaches the caller.
     */
    method UpdateProduct(productId: string, updates: ProductPatch, succeeded: bool) returns (call: BackendCall, saved: bool)
      ensures call == UpdateProductRow(productId, UpdateColumns(updates))
      ensures saved == succeeded
    {
      var data: Row := map[];
      if updates.name.Some? { data := data["name" := Text(updates.name.value)]; }
      assert data == ColumnsUpTo(updates, 1);
      if updates.costPrice.Some? { data := data["cost_price" := Number(updates.costPrice.value)]; }
      assert data == ColumnsUpTo(updates, 2);
      if updates.sellPrice.Some? { data := data["sell_price" := Number(updates.sellPrice.value)]; }
      assert data == ColumnsUpTo(updates, 3);
      if updates.stock.Some? { data := data["stock" := Number(updates.stock.value)]; }
      assert data == ColumnsUpTo(updates, 4);
      if updates.barcode.Some? { data := data["barcode" := Text(updates.barcode.value)]; }
      assert data == ColumnsUpTo(updates, 5);
      if updates.category.Some? { data := data["category" := Text(updates.category.value)]; }
      assert data == ColumnsUpTo(updates, 6);
      if updates.isPhotocopy.Some? { data := data["is_photocopy" := Bool(updates.isPhotocopy.value)]; }
      assert data == ColumnsUpTo(updates, 7);
      ColumnsUpToAll(updates);
      call := UpdateProductRow(productId, data);
      saved := succeeded;
    }

    /**
     * `processTransaction`: computes the totals over the given cart, then asks for an invoice
     * number, stores the receipt, stores the line items and updates stock line by line; the first
     * backend error ends the sale with no receipt, and nothing already done is undone.
     */
    method ProcessTransaction(user: Option<User>, replies: SaleReplies, cart: seq<CartItem>,
                              paymentMethod: Option<string> := None, discount: int := 0, isManual: bool := false)
      returns (receipt: Option<Receipt>, calls: seq<BackendCall>)
      ensures receipt.Some? <==> Commits(user, cart, replies)
      ensures receipt == SaleReceipt(user, cart, paymentMethod, discount, replies)
      ensures calls == SaleCalls(user, cart, paymentMethod, discount, isManual, replies)
    {
      if user.None? || |cart| == 0 {
        return None, [];
      }
      var subtotal := Subtotal(cart);
      var total := subtotal - discount;
      var profit := Profit(cart);

      var invoiceCall := GenerateInvoiceNumber(isManual);
      if replies.invoiceNumber.None? {
        return None, [invoiceCall];
      }
      var number := replies.invoiceNumber.value;

      var receiptCall := InsertReceipt(ReceiptRecord(user.value.id, subtotal, discount, total, profit, paymentMethod, number));
      if replies.storedReceipt.None? {
        return None, [invoiceCall, receiptCall];
      }
      var stored := replies.storedReceipt.value;

      var itemsCall := InsertReceiptItems(ItemRecords(stored.id, cart));
      if !replies.itemsInserted {
        return None, [invoiceCall, receiptCall, itemsCall];
      }

      var updates := UpdateStock(cart, replies);
      calls := [invoiceCall, receiptCall, itemsCall] + updates;
      receipt := Some(Receipt(stored.id, cart, subtotal, discount, total, profit, stored.createdAt, paymentMethod));
    }

    /** The stock loop of `processTransaction`: one `updateProduct` per line, whose failures are swallowed. */
    method UpdateStock(cart: seq<CartItem>, replies: SaleReplies) returns (calls: seq<BackendCall>)
      ensures calls == StockUpdates(cart)
    {
      calls := [];
      for i := 0 to |cart|
        invariant calls == StockUpdates(cart[..i])
      {
        var item := cart[i];
        var call, _ := UpdateProduct(item.product.id, StockPatch(item.product.stock - item.quantity), StockUpdateReply(replies, i));
        StockUpdatesSnoc(cart, i);
        calls := calls + [call];
      }
      assert cart[..|cart|] == cart;
    }

    /** The hook's exported `processTransaction`: commits the held cart and clears it exactly when a receipt comes back. */
    method ProcessTransactionWrapper(user: Option<User>, replies: SaleReplies,
                                     paymentMethod: Option<string> := None, discount: int := 0, isManual: bool := false)
      returns (receipt: Option<Receipt>, calls: seq<BackendCall>)
      modifies this`cart
      ensures receipt == SaleReceipt(user, old(cart), paymentMethod, discount, replies)
      ensures calls == SaleCalls(user, old(cart), paymentMethod, discount, isManual, replies)
      ensures receipt.Some? ==> cart == []
      ensures receipt.None? ==> cart == old(cart)
    {
      receipt, calls := ProcessTransaction(user, replies, cart, paymentMethod, discount, isManual);
      if receipt.Some? {
        ClearCart();
      }
    }

    /**
     * `addToCart`: merges into the product's line if there is one, otherwise appends a new line.
     * A cart whose product ids are unique keeps them unique (by `Cart.AddKeepsIdsUnique`).
     */
    method AddToCart(product: Product, quantity: int := 1, customPrice: Option<int> := None)
      modifies this`cart
      ensures cart == AddedToCart(old(cart), product, quantity, customPrice)
      ensures UniqueIds(old(cart)) ==> UniqueIds(cart)
    {
      var existing := FindItem(cart, product.id);
      match existing
      case Some(line) =>
        UpdateCartQuantity(product.id, line.quantity + quantity, customPrice);
      case None =>
        if UniqueIds(cart) {
          AddKeepsIdsUnique(cart, product, quantity, customPrice);
        }
        cart := cart + [CartItem(product, quantity, customPrice)];
    }

    /** `updateCartQuantity`: zero or less removes the product; otherwise its line takes the quantity and override. */
    method UpdateCartQuantity(productId: string, quantity: int, finalPrice: Option<int> := None)
      modifies this`cart
      ensures cart == QuantityUpdated(old(cart), productId, quantity, finalPrice)
      ensures UniqueIds(old(cart)) ==> UniqueIds(cart)
    {
      if UniqueIds(cart) {
        UpdateKeepsIdsUnique(cart, productId, quantity, finalPrice);
      }
      if quantity <= 0 {
        RemoveFromCart(productId);
        return;
      }
      cart := Requantified(cart, productId, quantity, finalPrice);
    }

    /** `removeFromCart`: drops the product's lines and keeps the rest in order. */
    method RemoveFromCart(productId: string)
      modifies this`cart
      ensures cart == Removed(old(cart), productId)
      ensures UniqueIds(old(cart)) ==> UniqueIds(cart)
    {
      if UniqueIds(cart) {
        RemoveKeepsIdsUnique(cart, productId);
      }
      cart := Removed(cart, productId);
    }

    /** `clearCart`. */
    method ClearCart()
      modifies this`cart
      ensures cart == []
    {
      cart := [];
    }
  }
}
