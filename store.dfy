/**
 * The MongoDB collections the backend controllers read and write, held in
 * memory: the products (read-only to the cart and checkout), the guest cart
 * lines in insertion order, and the orders.
 */
module Store {

  import opened Seqs

  type ProductId = nat
  type LineId = nat

  /** A catalogue product as the cart and checkout see it; the price is in integer cents. */
  datatype Product = Product(name: string, price: nat)

  /** A guest cart document; the schema requires `qty >= 1`. */
  datatype CartLine = CartLine(id: LineId, productId: ProductId, qty: int)

  /** An order line: product, quantity and the price frozen at checkout. */
  datatype OrderItem = OrderItem(productId: ProductId, qty: int, price: nat)

  datatype Order = Order(
    receiptId: string,
    cartItems: seq<OrderItem>,
    total: int,
    name: string,
    email: string,
    status: string)

  /** The schema invariant (`qty >= 1`), ids issued below `next` and distinct, and one line per product. */
  predicate ValidLines(lines: seq<CartLine>, next: nat)
  {
    && (forall i :: 0 <= i < |lines| ==> 1 <= lines[i].qty && lines[i].id < next)
    && (forall i, j :: 0 <= i < j < |lines| ==> lines[i].id != lines[j].id)
    && (forall i, j :: 0 <= i < j < |lines| ==> lines[i].productId != lines[j].productId)
  }

  /** `CartItem.findOne({ productId, userId: 'guest' })`: the first line for `p`, or `|lines|`. */
  function LineForProduct(lines: seq<CartLine>, p: ProductId): (i: nat)
    ensures i <= |lines|
    ensures i < |lines| ==> lines[i].productId == p
    ensures forall k :: 0 <= k < i ==> lines[k].productId != p
  {
    FirstIndex(lines, (l: CartLine) => l.productId == p)
  }

  /** `CartItem.findById(id)`: the index of the line with that id, or `|lines|`. */
  function LineWithId(lines: seq<CartLine>, id: LineId): (i: nat)
    ensures i <= |lines|
    ensures i < |lines| ==> lines[i].id == id
    ensures forall k :: 0 <= k < i ==> lines[k].id != id
  {
    FirstIndex(lines, (l: CartLine) => l.id == id)
  }

  class Database {
    var products: map<ProductId, Product>
    var cartItems: seq<CartLine>
    var nextLineId: nat
    var orders: seq<Order>

    ghost predicate Valid()
      reads this
    {
      ValidLines(cartItems, nextLineId)
    }

    constructor (products: map<ProductId, Product>)
      ensures Valid()
      ensures this.products == products && cartItems == [] && orders == []
    {
      this.products := products;
      cartItems := [];
      nextLineId := 0;
      orders := [];
    }
  }

}
