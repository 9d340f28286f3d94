/**
 * The guest cart endpoints: GET, POST, PUT /:id, DELETE /:id and DELETE on
 * /api/cart. Each controller reads or changes `db.cartItems`; every response
 * that carries the cart recomputes the view: lines whose product has been
 * deleted are dropped, and the total is the sum of price * qty over the rest.
 */
module CartController {

  import opened Optional
  import opened Seqs
  import opened Store

  /** A cart line after `populate('productId')` found its product. */
  datatype ViewLine = ViewLine(line: CartLine, product: Product)

  /** The `{ cartItems, total }` part of a cart response; the total in cents. */
  datatype CartView = CartView(cartItems: seq<ViewLine>, total: int)

  datatype CartResponse =
    | Ok(message: string, view: CartView)
    | BadRequest(message: string)
    | NotFound(message: string)

  const AddInvalid := "Product ID and quantity (minimum 1) are required"
  const ProductMissing := "Product not found"
  const ItemAdded := "Item added to cart successfully"
  const ItemUpdated := "Cart item updated successfully"
  const QtyInvalid := "Quantity must be at least 1"
  const LineMissing := "Cart item not found"
  const ItemRemoved := "Item removed from cart successfully"
  const Cleared := "Cart cleared successfully"

  /** The populated lines minus the orphans: each line whose product exists, joined with it, in order. */
  function Populate(lines: seq<CartLine>, products: map<ProductId, Product>): seq<ViewLine>
  {
    if lines == [] then []
    else
      (if lines[0].productId in products then [ViewLine(lines[0], products[lines[0].productId])] else [])
      + Populate(lines[1..], products)
  }

  /** The view holds each line whose product exists, paired with that product, and nothing else. */
  lemma {:induction false} PopulateSpec(lines: seq<CartLine>, products: map<ProductId, Product>)
    ensures var r := Populate(lines, products);
      && |r| <= |lines|
      && (forall i :: 0 <= i < |r| ==>
            r[i].line in lines && r[i].line.productId in products && r[i].product == products[r[i].line.productId])
      && (forall i :: 0 <= i < |lines| && lines[i].productId in products ==>
            ViewLine(lines[i], products[lines[i].productId]) in r)
  {
    if lines != [] {
      PopulateSpec(lines[1..], products);
      var rest := Populate(lines[1..], products);
      var r := Populate(lines, products);
      var head := if lines[0].productId in products then [ViewLine(lines[0], products[lines[0].productId])] else [];
      assert r == head + rest;
      forall i | 0 <= i < |r|
        ensures r[i].line in lines && r[i].line.productId in products && r[i].product == products[r[i].line.productId]
      {
        if i >= |head| {
          assert r[i] == rest[i - |head|];
          assert rest[i - |head|].line in lines[1..];
        }
      }
      forall i | 0 <= i < |lines| && lines[i].productId in products
        ensures ViewLine(lines[i], products[lines[i].productId]) in r
      {
        if i > 0 {
          assert lines[i] == lines[1..][i - 1];
        }
      }
    }
  }

  function Subtotal(v: ViewLine): int
  {
    v.product.price * v.line.qty
  }

  /** `validCartItems.reduce((sum, item) => sum + item.productId.price * item.qty, 0)` */
  function Total(view: seq<ViewLine>): int
  {
    if view == [] then 0 else Subtotal(view[0]) + Total(view[1..])
  }

  function ViewOf(lines: seq<CartLine>, products: map<ProductId, Product>): CartView
  {
    var v := Populate(lines, products);
    CartView(v, Total(v))
  }

  /** What one line contributes to the cart total: price * qty, or nothing for an orphaned line. */
  function LineAmount(l: CartLine, products: map<ProductId, Product>): int
  {
    if l.productId in products then products[l.productId].price * l.qty else 0
  }

  /** The cart total as a sum over all lines that skips unresolved products instead of filtering first. */
  function ComputeTotal(lines: seq<CartLine>, products: map<ProductId, Product>): int
  {
    if lines == [] then 0 else LineAmount(lines[0], products) + ComputeTotal(lines[1..], products)
  }

  /** The lines whose product still exists. */
  function ResolvedLines(lines: seq<CartLine>, products: map<ProductId, Product>): seq<CartLine>
  {
    Filter(lines, (l: CartLine) => l.productId in products)
  }

  function LinesOf(view: seq<ViewLine>): (r: seq<CartLine>)
    ensures |r| == |view|
  {
    if view == [] then [] else [view[0].line] + LinesOf(view[1..])
  }

  /** The lines for product `p`. */
  function LinesFor(lines: seq<CartLine>, p: ProductId): seq<CartLine>
  {
    Filter(lines, (l: CartLine) => l.productId == p)
  }

  /** The view keeps exactly the lines whose product resolves, in their stored order. */
  lemma {:induction false} PopulateKeepsResolved(lines: seq<CartLine>, products: map<ProductId, Product>)
    ensures LinesOf(Populate(lines, products)) == ResolvedLines(lines, products)
  {
    if lines != [] {
      PopulateKeepsResolved(lines[1..], products);
      var head := if lines[0].productId in products then [ViewLine(lines[0], products[lines[0].productId])] else [];
      LinesOfAppend(head, Populate(lines[1..], products));
    }
  }

  lemma {:induction false} LinesOfAppend(u: seq<ViewLine>, v: seq<ViewLine>)
    ensures LinesOf(u + v) == LinesOf(u) + LinesOf(v)
  {
    if u != [] {
      assert (u + v)[1..] == u[1..] + v;
      LinesOfAppend(u[1..], v);
    } else {
      assert u + v == v;
    }
  }

  /** The filter-then-reduce total of the view equals the sum that skips orphaned lines. */
  lemma {:induction false} ViewTotalIsComputeTotal(lines: seq<CartLine>, products: map<ProductId, Product>)
    ensures Total(Populate(lines, products)) == ComputeTotal(lines, products)
  {
    if lines != [] {
      ViewTotalIsComputeTotal(lines[1..], products);
      var rest := Populate(lines[1..], products);
      if lines[0].productId in products {
        var v := ViewLine(lines[0], products[lines[0].productId]);
        assert Populate(lines, products) == [v] + rest;
        assert ([v] + rest)[1..] == rest;
      } else {
        assert Populate(lines, products) == rest;
      }
    }
  }

  lemma {:induction false} ComputeTotalAppend(a: seq<CartLine>, b: seq<CartLine>, products: map<ProductId, Product>)
    ensures ComputeTotal(a + b, products) == ComputeTotal(a, products) + ComputeTotal(b, products)
  {
    if a == [] {
      assert a + b == b;
    } else {
      assert (a + b)[1..] == a[1..] + b;
      ComputeTotalAppend(a[1..], b, products);
    }
  }

  /** Changing one line's quantity changes the total by exactly that line's change. */
  lemma TotalAfterSetQty(lines: seq<CartLine>, products: map<ProductId, Product>, i: nat, q: int)
    requires i < |lines|
    ensures ComputeTotal(lines[i := lines[i].(qty := q)], products)
         == ComputeTotal(lines, products) - LineAmount(lines[i], products) + LineAmount(lines[i].(qty := q), products)
  {
    var l' := lines[i].(qty := q);
    assert lines == lines[..i] + [lines[i]] + lines[i + 1..];
    assert lines[i := l'] == lines[..i] + [l'] + lines[i + 1..];
    ComputeTotalAppend(lines[..i] + [lines[i]], lines[i + 1..], products);
    ComputeTotalAppend(lines[..i], [lines[i]], products);
    ComputeTotalAppend(lines[..i] + [l'], lines[i + 1..], products);
    ComputeTotalAppend(lines[..i], [l'], products);
  }

  /** Deleting one line lowers the total by exactly what that line contributed. */
  lemma TotalAfterRemove(lines: seq<CartLine>, products: map<ProductId, Product>, i: nat)
    requires i < |lines|
    ensures ComputeTotal(lines[..i] + lines[i + 1..], products)
         == ComputeTotal(lines, products) - LineAmount(lines[i], products)
  {
    assert lines == lines[..i] + [lines[i]] + lines[i + 1..];
    ComputeTotalAppend(lines[..i] + [lines[i]], lines[i + 1..], products);
    ComputeTotalAppend(lines[..i], [lines[i]], products);
    ComputeTotalAppend(lines[..i], lines[i + 1..], products);
  }

  /** Appending a line raises the total by exactly what that line contributes. */
  lemma TotalAfterAppend(lines: seq<CartLine>, products: map<ProductId, Product>, l: CartLine)
    ensures ComputeTotal(lines + [l], products) == ComputeTotal(lines, products) + LineAmount(l, products)
  {
    ComputeTotalAppend(lines, [l], products);
  }

  /** A product no line refers to has no lines. */
  lemma {:induction false} NoLineFor(lines: seq<CartLine>, p: ProductId)
    requires forall k :: 0 <= k < |lines| ==> lines[k].productId != p
    ensures LinesFor(lines, p) == []
  {
    if lines != [] {
      NoLineFor(lines[1..], p);
      assert LinesFor(lines, p) == [] + LinesFor(lines[1..], p);
    }
  }

  /** In a valid cart a product that has a line has exactly one. */
  lemma {:induction false} OneLinePerProduct(lines: seq<CartLine>, next: nat, p: ProductId)
    requires ValidLines(lines, next)
    requires LineForProduct(lines, p) < |lines|
    ensures |LinesFor(lines, p)| == 1
  {
    var rest := LinesFor(lines[1..], p);
    assert LinesFor(lines, p) == (if lines[0].productId == p then [lines[0]] else []) + rest;
    assert ValidLines(lines[1..], next);
    if lines[0].productId != p {
      OneLinePerProduct(lines[1..], next, p);
    } else {
      forall k | 0 <= k < |lines| - 1 ensures lines[1..][k].productId != p {
        assert lines[1..][k] == lines[k + 1];
      }
      NoLineFor(lines[1..], p);
    }
  }

  /** Deleting a line from a valid cart leaves a valid cart in which no line has the deleted id. */
  lemma RemoveKeepsValid(lines: seq<CartLine>, next: nat, i: nat)
    requires ValidLines(lines, next) && i < |lines|
    ensures ValidLines(lines[..i] + lines[i + 1..], next)
    ensures forall l :: l in lines[..i] + lines[i + 1..] ==> l.id != lines[i].id
  {
    var r := lines[..i] + lines[i + 1..];
    assert forall k :: 0 <= k < |r| ==> r[k] == lines[if k < i then k else k + 1];
  }

  /** GET /api/cart */
  method GetCart(db: Database) returns (view: CartView)
    ensures view == ViewOf(db.cartItems, db.products)
    ensures view.total == ComputeTotal(db.cartItems, db.products)
  {
    view := ViewOf(db.cartItems, db.products);
    ViewTotalIsComputeTotal(db.cartItems, db.products);
  }

  /** The lines after adding `q` of product `p`: merged into `p`'s line if it has one, else a new line `next`. */
  function MergeLine(lines: seq<CartLine>, next: nat, p: ProductId, q: int): seq<CartLine>
  {
    var i := LineForProduct(lines, p);
    if i < |lines| then lines[i := lines[i].(qty := lines[i].qty + q)] else lines + [CartLine(next, p, q)]
  }

  /** The id counter after a merge: it moves on only when a new line was created. */
  function NextAfterMerge(lines: seq<CartLine>, next: nat, p: ProductId): nat
  {
    if LineForProduct(lines, p) < |lines| then next else next + 1
  }

  /** Adding a positive quantity keeps the cart valid. */
  lemma MergeKeepsValid(lines: seq<CartLine>, next: nat, p: ProductId, q: int)
    requires ValidLines(lines, next) && q >= 1
    ensures ValidLines(MergeLine(lines, next, p, q), NextAfterMerge(lines, next, p))
  {
    var i := LineForProduct(lines, p);
    var r := MergeLine(lines, next, p, q);
    if i == |lines| {
      assert forall k :: 0 <= k < |lines| ==> r[k] == lines[k];
    }
  }

  /** After adding product `p` the cart holds exactly one line for it. */
  lemma MergeOneLine(lines: seq<CartLine>, next: nat, p: ProductId, q: int)
    requires ValidLines(lines, next) && q >= 1
    ensures |LinesFor(MergeLine(lines, next, p, q), p)| == 1
  {
    var i := LineForProduct(lines, p);
    var r := MergeLine(lines, next, p, q);
    MergeKeepsValid(lines, next, p, q);
    if i < |lines| {
      assert r[i].productId == p;
    } else {
      assert r[|r| - 1].productId == p;
    }
    OneLinePerProduct(r, NextAfterMerge(lines, next, p), p);
  }

  /** Adding `q` of an existing product raises the total by exactly price * q. */
  lemma MergeTotal(lines: seq<CartLine>, next: nat, p: ProductId, q: int, products: map<ProductId, Product>)
    requires p in products
    ensures ComputeTotal(MergeLine(lines, next, p, q), products) == ComputeTotal(lines, products) + products[p].price * q
  {
    var i := LineForProduct(lines, p);
    if i < |lines| {
      TotalAfterSetQty(lines, products, i, lines[i].qty + q);
    } else {
      TotalAfterAppend(lines, products, CartLine(next, p, q));
    }
  }

  /** POST /api/cart: merge `qty` into the product's line, or start a new line for it. */
  method AddToCart(db: Database, productId: Option<ProductId>, qty: Option<int>) returns (resp: CartResponse)
    requires db.Valid()
    modifies db
    ensures db.Valid()
    ensures db.products == old(db.products) && db.orders == old(db.orders)
    ensures productId.None? || qty.None? || qty.value < 1 ==>
      resp == BadRequest(AddInvalid) && db.cartItems == old(db.cartItems) && db.nextLineId == old(db.nextLineId)
    ensures productId.Some? && qty.Some? && qty.value >= 1 && productId.value !in db.products ==>
      resp == NotFound(ProductMissing) && db.cartItems == old(db.cartItems) && db.nextLineId == old(db.nextLineId)
    ensures productId.Some? && qty.Some? && qty.value >= 1 && productId.value in db.products ==>
      var (p, q) := (productId.value, qty.value);
      var merged := LineForProduct(old(db.cartItems), p) < |old(db.cartItems)|;
      && db.cartItems == MergeLine(old(db.cartItems), old(db.nextLineId), p, q)
      && db.nextLineId == NextAfterMerge(old(db.cartItems), old(db.nextLineId), p)
      && |LinesFor(db.cartItems, p)| == 1
      && resp == Ok(if merged then ItemUpdated else ItemAdded, ViewOf(db.cartItems, db.products))
      && resp.view.total == old(ComputeTotal(db.cartItems, db.products)) + db.products[p].price * q
  {
    if productId.None? || qty.None? || qty.value < 1 {
      return BadRequest(AddInvalid);
    }
    var p, q := productId.value, qty.value;
    if p !in db.products {
      return NotFound(ProductMissing);
    }
    MergeKeepsValid(db.cartItems, db.nextLineId, p, q);
    MergeOneLine(db.cartItems, db.nextLineId, p, q);
    MergeTotal(db.cartItems, db.nextLineId, p, q, db.products);
    ghost var merged := MergeLine(db.cartItems, db.nextLineId, p, q);
    ghost var next := NextAfterMerge(db.cartItems, db.nextLineId, p);
    var i := LineForProduct(db.cartItems, p);
    var message;
    if i < |db.cartItems| {
      db.cartItems := db.cartItems[i := db.cartItems[i].(qty := db.cartItems[i].qty + q)];
      message := ItemUpdated;
    } else {
      db.cartItems := db.cartItems + [CartLine(db.nextLineId, p, q)];
      db.nextLineId := db.nextLineId + 1;
      message := ItemAdded;
    }
    assert db.cartItems == merged && db.nextLineId == next;
    ViewTotalIsComputeTotal(db.cartItems, db.products);
    resp := Ok(message, ViewOf(db.cartItems, db.products));
  }

  /** PUT /api/cart/:id: set the line's quantity outright. */
  method UpdateCartItem(db: Database, id: LineId, qty: Option<int>) returns (resp: CartResponse)
    requires db.Valid()
    modifies db
    ensures db.Valid()
    ensures db.products == old(db.products) && db.orders == old(db.orders) && db.nextLineId == old(db.nextLineId)
    ensures qty.None? || qty.value < 1 ==>
      resp == BadRequest(QtyInvalid) && db.cartItems == old(db.cartItems)
    ensures qty.Some? && qty.value >= 1 && LineWithId(old(db.cartItems), id) == |old(db.cartItems)| ==>
      resp == NotFound(LineMissing) && db.cartItems == old(db.cartItems)
    ensures qty.Some? && qty.value >= 1 && LineWithId(old(db.cartItems), id) < |old(db.cartItems)| ==>
      var i := LineWithId(old(db.cartItems), id);
      && db.cartItems == old(db.cartItems)[i := old(db.cartItems)[i].(qty := qty.value)]
      && resp == Ok(ItemUpdated, ViewOf(db.cartItems, db.products))
      && resp.view.total == old(ComputeTotal(db.cartItems, db.products))
           - LineAmount(old(db.cartItems)[i], db.products) + LineAmount(db.cartItems[i], db.products)
  {
    if qty.None? || qty.value < 1 {
      return BadRequest(QtyInvalid);
    }
    var i := LineWithId(db.cartItems, id);
    if i == |db.cartItems| {
      return NotFound(LineMissing);
    }
    TotalAfterSetQty(db.cartItems, db.products, i, qty.value);
    db.cartItems := db.cartItems[i := db.cartItems[i].(qty := qty.value)];
    ViewTotalIsComputeTotal(db.cartItems, db.products);
    resp := Ok(ItemUpdated, ViewOf(db.cartItems, db.products));
  }

  /** DELETE /api/cart/:id: delete that line and only that line. */
  method RemoveFromCart(db: Database, id: LineId) returns (resp: CartResponse)
    requires db.Valid()
    modifies db
    ensures db.Valid()
    ensures db.products == old(db.products) && db.orders == old(db.orders) && db.nextLineId == old(db.nextLineId)
    ensures LineWithId(old(db.cartItems), id) == |old(db.cartItems)| ==>
      resp == NotFound(LineMissing) && db.cartItems == old(db.cartItems)
    ensures LineWithId(old(db.cartItems), id) < |old(db.cartItems)| ==>
      var i := LineWithId(old(db.cartItems), id);
      && db.cartItems == old(db.cartItems)[..i] + old(db.cartItems)[i + 1..]
      && (forall k :: 0 <= k < |db.cartItems| ==> db.cartItems[k].id != id)
      && resp == Ok(ItemRemoved, ViewOf(db.cartItems, db.products))
      && resp.view.total == old(ComputeTotal(db.cartItems, db.products)) - LineAmount(old(db.cartItems)[i], db.products)
  {
    var i := LineWithId(db.cartItems, id);
    if i == |db.cartItems| {
      return NotFound(LineMissing);
    }
    TotalAfterRemove(db.cartItems, db.products, i);
    RemoveKeepsValid(db.cartItems, db.nextLineId, i);
    db.cartItems := db.cartItems[..i] + db.cartItems[i + 1..];
    ViewTotalIsComputeTotal(db.cartItems, db.products);
    resp := Ok(ItemRemoved, ViewOf(db.cartItems, db.products));
  }

  /** DELETE /api/cart: delete every guest line; succeeds on an empty cart too. */
  method ClearCart(db: Database) returns (message: string)
    requires db.Valid()
    modifies db
    ensures db.Valid()
    ensures db.products == old(db.products) && db.orders == old(db.orders) && db.nextLineId == old(db.nextLineId)
    ensures db.cartItems == [] && message == Cleared
  {
    db.cartItems := [];
    message := Cleared;
  }

}
