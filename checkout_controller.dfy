/**
 * POST /api/checkout and GET /api/orders/:receiptId. Checkout validates the
 * customer fields, snapshots the guest cart, freezes each line's current
 * price, saves a `completed` order and only then empties the cart. The
 * receipt id and the outcome of the two store writes come in as parameters.
 */
module CheckoutController {

  import opened Optional
  import opened Seqs
  import opened Text
  import opened Store
  import CartController

  /** How the two writes at the end of checkout fare: `order.save()` and `deleteMany`. */
  datatype StoreFault = NoFault | SaveFails | ClearFails

  /** One line of the receipt body: re-derived from the snapshot, not re-read from the catalogue. */
  datatype ReceiptLine = ReceiptLine(name: string, qty: int, price: nat, subtotal: int)

  datatype CheckoutResponse =
    | Created(message: string, receiptId: string, total: int, name: string, email: string, items: seq<ReceiptLine>)
    | BadRequest(message: string)
    | ServerError(message: string)

  datatype OrderLookup = Found(order: Order) | OrderNotFound(message: string)

  /** The map over the snapshot either freezes every line or throws on an orphaned one. */
  datatype Freeze = Frozen(items: seq<OrderItem>, total: int) | MissingProduct

  const NameEmailRequired := "Name and email are required"
  const EmailInvalid := "Please provide a valid email address"
  const CartEmpty := "Cart is empty. Add items before checkout."
  const OrderPlaced := "Order placed successfully"
  const CheckoutFailed := "Server error while processing checkout"
  const OrderMissing := "Order not found"
  const Completed := "completed"

  /** JavaScript truthiness of a request field: present and not the empty string. */
  predicate Truthy(s: Option<string>)
  {
    s.Some? && s.value != ""
  }

  /** The request checks: the 400 message they produce, or None when name and email pass. */
  function CustomerError(name: Option<string>, email: Option<string>): (r: Option<string>)
    ensures r.None? <==> Truthy(name) && Truthy(email) && EmailPattern(email.value)
    ensures !Truthy(name) || !Truthy(email) ==> r == Some(NameEmailRequired)
    ensures Truthy(name) && Truthy(email) && !EmailPattern(email.value) ==> r == Some(EmailInvalid)
  {
    if !Truthy(name) || !Truthy(email) then Some(NameEmailRequired)
    else
      EmailPatternIff(email.value);
      if !IsEmail(email.value) then Some(EmailInvalid) else None
  }

  /** A non-empty name of white space only passes the `!name` check and is then stored as "". */
  lemma BlankNameAccepted(name: string, email: string)
    requires name != "" && AllSpace(name) && email != "" && EmailPattern(email)
    ensures CustomerError(Some(name), Some(email)) == None
    ensures Trim(name) == ""
  {
    TrimEmptyIff(name);
  }

  predicate AllResolve(lines: seq<CartLine>, products: map<ProductId, Product>)
  {
    forall i :: 0 <= i < |lines| ==> lines[i].productId in products
  }

  function FrozenItem(l: CartLine, products: map<ProductId, Product>): OrderItem
    requires l.productId in products
  {
    OrderItem(l.productId, l.qty, products[l.productId].price)
  }

  /** The order lines: each cart line's product and qty with the catalogue price of the moment. */
  function FrozenItems(lines: seq<CartLine>, products: map<ProductId, Product>): seq<OrderItem>
    requires AllResolve(lines, products)
  {
    if lines == [] then [] else [FrozenItem(lines[0], products)] + FrozenItems(lines[1..], products)
  }

  lemma {:induction false} FrozenItemsSpec(lines: seq<CartLine>, products: map<ProductId, Product>)
    requires AllResolve(lines, products)
    ensures |FrozenItems(lines, products)| == |lines|
    ensures forall i :: 0 <= i < |lines| ==>
      FrozenItems(lines, products)[i] == OrderItem(lines[i].productId, lines[i].qty, products[lines[i].productId].price)
  {
    if lines != [] {
      FrozenItemsSpec(lines[1..], products);
      var r := FrozenItems(lines, products);
      assert r[1..] == FrozenItems(lines[1..], products);
      forall i | 0 < i < |lines|
        ensures r[i] == OrderItem(lines[i].productId, lines[i].qty, products[lines[i].productId].price)
      {
        assert r[i] == r[1..][i - 1];
        assert lines[i] == lines[1..][i - 1];
      }
    }
  }

  /** The sum of price * qty over the order lines. */
  function OrderTotal(items: seq<OrderItem>): int
  {
    if items == [] then 0 else items[0].price * items[0].qty + OrderTotal(items[1..])
  }

  lemma {:induction false} OrderTotalAppend(items: seq<OrderItem>, x: OrderItem)
    ensures OrderTotal(items + [x]) == OrderTotal(items) + x.price * x.qty
  {
    if items != [] {
      assert (items + [x])[1..] == items[1..] + [x];
      OrderTotalAppend(items[1..], x);
    }
  }

  /** With every product resolving, the frozen order total is the cart's total as the cart view shows it. */
  lemma {:induction false} OrderTotalIsCartTotal(lines: seq<CartLine>, products: map<ProductId, Product>)
    requires AllResolve(lines, products)
    ensures OrderTotal(FrozenItems(lines, products)) == CartController.ComputeTotal(lines, products)
    ensures OrderTotal(FrozenItems(lines, products)) == CartController.Total(CartController.Populate(lines, products))
  {
    if lines != [] {
      OrderTotalIsCartTotal(lines[1..], products);
      assert FrozenItems(lines, products)[1..] == FrozenItems(lines[1..], products);
    }
    CartController.ViewTotalIsComputeTotal(lines, products);
  }

  /** The `cartItems.map(...)` with its running `total`: freeze each line, or fail at the first orphan. */
  method FreezeLines(lines: seq<CartLine>, products: map<ProductId, Product>) returns (r: Freeze)
    ensures r.MissingProduct? <==> !AllResolve(lines, products)
    ensures r.Frozen? ==> r.items == FrozenItems(lines, products) && r.total == OrderTotal(r.items)
  {
    var items: seq<OrderItem> := [];
    var total := 0;
    var i := 0;
    while i < |lines|
      invariant 0 <= i <= |lines|
      invariant AllResolve(lines[..i], products)
      invariant |items| == i
      invariant forall k :: 0 <= k < i ==> items[k] == FrozenItem(lines[k], products)
      invariant total == OrderTotal(items)
    {
      if lines[i].productId !in products {
        return MissingProduct;
      }
      var item := FrozenItem(lines[i], products);
      OrderTotalAppend(items, item);
      total := total + item.price * item.qty;
      items := items + [item];
      assert lines[..i + 1] == lines[..i] + [lines[i]];
      i := i + 1;
    }
    assert lines[..i] == lines;
    FrozenItemsSpec(lines, products);
    return Frozen(items, total);
  }

  /** The order checkout saves for this snapshot and customer. */
  function PlacedOrder(lines: seq<CartLine>, products: map<ProductId, Product>, name: string, email: string, receiptId: string): Order
    requires AllResolve(lines, products)
  {
    var items := FrozenItems(lines, products);
    Order(receiptId, items, OrderTotal(items), Trim(name), ToLower(Trim(email)), Completed)
  }

  /** The receipt's item list, with each subtotal price * qty. */
  function ReceiptLines(lines: seq<CartLine>, products: map<ProductId, Product>): seq<ReceiptLine>
    requires AllResolve(lines, products)
  {
    if lines == [] then []
    else
      var p := products[lines[0].productId];
      [ReceiptLine(p.name, lines[0].qty, p.price, p.price * lines[0].qty)] + ReceiptLines(lines[1..], products)
  }

  lemma {:induction false} ReceiptLinesSpec(lines: seq<CartLine>, products: map<ProductId, Product>)
    requires AllResolve(lines, products)
    ensures |ReceiptLines(lines, products)| == |lines|
    ensures forall i :: 0 <= i < |lines| ==>
      var p := products[lines[i].productId];
      ReceiptLines(lines, products)[i] == ReceiptLine(p.name, lines[i].qty, p.price, p.price * lines[i].qty)
  {
    if lines != [] {
      ReceiptLinesSpec(lines[1..], products);
      var r := ReceiptLines(lines, products);
      assert r[1..] == ReceiptLines(lines[1..], products);
      forall i | 0 < i < |lines|
        ensures var p := products[lines[i].productId];
          r[i] == ReceiptLine(p.name, lines[i].qty, p.price, p.price * lines[i].qty)
      {
        assert r[i] == r[1..][i - 1];
        assert lines[i] == lines[1..][i - 1];
      }
    }
  }

  /**
   * The end of the checkout: save the order, then empty the cart, then send
   * the receipt. A failing save leaves everything as it was; a failing
   * clear leaves the saved order and the cart both in place.
   */
  method SaveAndClear(db: Database, order: Order, receipt: seq<ReceiptLine>, fault: StoreFault)
    returns (resp: CheckoutResponse)
    requires db.Valid()
    modifies db
    ensures db.Valid()
    ensures db.products == old(db.products) && db.nextLineId == old(db.nextLineId)
    ensures fault == SaveFails ==>
      resp == ServerError(CheckoutFailed) && db.cartItems == old(db.cartItems) && db.orders == old(db.orders)
    ensures fault == ClearFails ==>
      resp == ServerError(CheckoutFailed) && db.cartItems == old(db.cartItems) && db.orders == old(db.orders) + [order]
    ensures fault == NoFault ==>
      && db.cartItems == [] && db.orders == old(db.orders) + [order]
      && resp == Created(OrderPlaced, order.receiptId, order.total, order.name, order.email, receipt)
  {
    if fault == SaveFails {
      return ServerError(CheckoutFailed);
    }
    db.orders := db.orders + [order];
    if fault == ClearFails {
      return ServerError(CheckoutFailed);
    }
    db.cartItems := [];
    resp := Created(OrderPlaced, order.receiptId, order.total, order.name, order.email, receipt);
  }

  /** POST /api/checkout */
  method ProcessCheckout(db: Database, name: Option<string>, email: Option<string>, receiptId: string, fault: StoreFault)
    returns (resp: CheckoutResponse)
    requires db.Valid()
    modifies db
    ensures db.Valid()
    ensures db.products == old(db.products) && db.nextLineId == old(db.nextLineId)
    ensures CustomerError(name, email).Some? ==>
      resp == BadRequest(CustomerError(name, email).value)
      && db.cartItems == old(db.cartItems) && db.orders == old(db.orders)
    ensures CustomerError(name, email).None? && old(db.cartItems) == [] ==>
      resp == BadRequest(CartEmpty) && db.cartItems == old(db.cartItems) && db.orders == old(db.orders)
    ensures CustomerError(name, email).None? && !AllResolve(old(db.cartItems), db.products) ==>
      resp == ServerError(CheckoutFailed) && db.cartItems == old(db.cartItems) && db.orders == old(db.orders)
    ensures CustomerError(name, email).None? && old(db.cartItems) != [] && AllResolve(old(db.cartItems), db.products) ==>
      var order := PlacedOrder(old(db.cartItems), db.products, name.value, email.value, receiptId);
      && order.total == old(CartController.Total(CartController.Populate(db.cartItems, db.products)))
      && (fault == SaveFails ==>
            resp == ServerError(CheckoutFailed) && db.cartItems == old(db.cartItems) && db.orders == old(db.orders))
      && (fault == ClearFails ==>
            resp == ServerError(CheckoutFailed) && db.cartItems == old(db.cartItems) && db.orders == old(db.orders) + [order])
      && (fault == NoFault ==>
            && db.cartItems == [] && db.orders == old(db.orders) + [order]
            && resp == Created(OrderPlaced, receiptId, order.total, order.name, order.email,
                               ReceiptLines(old(db.cartItems), db.products)))
  {
    var err := CustomerError(name, email);
    if err.Some? {
      return BadRequest(err.value);
    }
    var snapshot := db.cartItems;
    if |snapshot| == 0 {
      return BadRequest(CartEmpty);
    }
    var frozen := FreezeLines(snapshot, db.products);
    if frozen.MissingProduct? {
      return ServerError(CheckoutFailed);
    }
    OrderTotalIsCartTotal(snapshot, db.products);
    var order := Order(receiptId, frozen.items, frozen.total, Trim(name.value), ToLower(Trim(email.value)), Completed);
    assert order == PlacedOrder(snapshot, db.products, name.value, email.value, receiptId);
    resp := SaveAndClear(db, order, ReceiptLines(snapshot, db.products), fault);
  }

  /** `Order.findOne({ receiptId })`: the index of the first order with that receipt id, or `|orders|`. */
  function OrderIndex(orders: seq<Order>, receiptId: string): (i: nat)
    ensures i <= |orders|
    ensures i < |orders| ==> orders[i].receiptId == receiptId
    ensures forall k :: 0 <= k < i ==> orders[k].receiptId != receiptId
  {
    FirstIndex(orders, HasReceipt(receiptId))
  }

  function HasReceipt(receiptId: string): Order -> bool
  {
    (o: Order) => o.receiptId == receiptId
  }

  /** Saving an order never changes what an earlier receipt id finds, and a fresh id finds the new order. */
  lemma FindAfterSave(orders: seq<Order>, o: Order, receiptId: string)
    ensures OrderIndex(orders, receiptId) < |orders| ==>
      OrderIndex(orders + [o], receiptId) == OrderIndex(orders, receiptId)
    ensures OrderIndex(orders, receiptId) == |orders| && o.receiptId == receiptId ==>
      OrderIndex(orders + [o], receiptId) == |orders|
  {
    FirstIndexAppend(orders, o, HasReceipt(receiptId));
  }

  /** GET /api/orders/:receiptId */
  method GetOrderByReceiptId(db: Database, receiptId: string) returns (resp: OrderLookup)
    ensures resp.OrderNotFound? <==> forall k :: 0 <= k < |db.orders| ==> db.orders[k].receiptId != receiptId
    ensures resp.OrderNotFound? ==> resp.message == OrderMissing
    ensures resp.Found? ==> resp.order.receiptId == receiptId && resp.order == db.orders[OrderIndex(db.orders, receiptId)]
  {
    var i := OrderIndex(db.orders, receiptId);
    if i == |db.orders| {
      return OrderNotFound(OrderMissing);
    }
    return Found(db.orders[i]);
  }

}
