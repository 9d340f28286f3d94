/**
 * The client-side cart state machine: `cartReducer`, its `calculateTotal`,
 * and the read helpers `getItemCount`, `isInCart` and `getCartItem`. Reading
 * `_id` of a null `productId` throws a TypeError in JavaScript; the model
 * returns `TypeError` there instead of a state.
 */
module CartContext {

  import opened Optional
  import opened Seqs
  import Store
  import CartController

  /** The populated product an item carries under `productId`, as far as the client reads it. */
  datatype ProductRef = ProductRef(id: Store.ProductId, price: int)

  /** A cart item as the client holds it: `_id`, `productId` (null once the product is deleted), `qty`. */
  datatype Item = Item(id: Store.LineId, product: Option<ProductRef>, qty: int)

  datatype CartState = CartState(items: seq<Item>, total: int, loading: bool, error: Option<string>)

  datatype Action =
    | SetLoading(loading: bool)
    | SetError(message: string)
    | SetCart(cartItems: Option<seq<Item>>, total: Option<int>)
    | AddItem(item: Item)
    | UpdateItem(payload: Option<Item>)
    | RemoveItem(id: Store.LineId)
    | ClearCart
    | Unknown(kind: string)

  /** The result of evaluating JavaScript that may throw a TypeError. */
  datatype Eval<T> = Value(value: T) | TypeError

  const InitialState := CartState([], 0, false, None)

  predicate Linked(item: Item)
  {
    item.product.Some?
  }

  predicate AllLinked(items: seq<Item>)
  {
    forall k :: 0 <= k < |items| ==> Linked(items[k])
  }

  /** `item.productId._id === payload.productId._id`, on items whose product is present. */
  predicate SameProduct(a: Item, b: Item)
  {
    a.product.Some? && b.product.Some? && a.product.value.id == b.product.value.id
  }

  /** `(item.productId?.price || 0) * (item.qty || 0)` */
  function ItemAmount(item: Item): int
  {
    (if item.product.Some? then item.product.value.price else 0) * item.qty
  }

  /** `calculateTotal`, in cents: rounding to cents is the identity. */
  function CalculateTotal(items: seq<Item>): int
  {
    if items == [] then 0 else ItemAmount(items[0]) + CalculateTotal(items[1..])
  }

  /** The `map` of ADD_ITEM: every item of the payload's product gets the payload's qty added. */
  function MergeQty(items: seq<Item>, payload: Item): (r: seq<Item>)
    ensures |r| == |items|
    ensures forall k :: 0 <= k < |items| ==>
      r[k] == if SameProduct(items[k], payload) then items[k].(qty := items[k].qty + payload.qty) else items[k]
  {
    if items == [] then []
    else
      [if SameProduct(items[0], payload) then items[0].(qty := items[0].qty + payload.qty) else items[0]]
      + MergeQty(items[1..], payload)
  }

  /**
   * `items.find(item => item.productId._id === payload.productId._id)`: the
   * first item of the payload's product; each comparison reads both `_id`s,
   * so it throws at the first item reached while either product is null.
   */
  function FindSame(items: seq<Item>, payload: Item): Eval<Option<Item>>
  {
    if items == [] then Value(None)
    else if !Linked(items[0]) || !Linked(payload) then TypeError
    else if SameProduct(items[0], payload) then Value(Some(items[0]))
    else FindSame(items[1..], payload)
  }

  /** The `map` of ADD_ITEM, as it runs: it reads both `_id`s for every item, so any null product throws. */
  function MapMerge(items: seq<Item>, payload: Item): Eval<seq<Item>>
  {
    if items == [] then Value([])
    else if !Linked(items[0]) || !Linked(payload) then TypeError
    else
      match MapMerge(items[1..], payload)
      case TypeError => TypeError
      case Value(rest) =>
        Value([if SameProduct(items[0], payload) then items[0].(qty := items[0].qty + payload.qty) else items[0]] + rest)
  }

  /** ADD_ITEM's new item list: `find`, then `map` when it found an item and append the payload otherwise. */
  function AddToItems(items: seq<Item>, payload: Item): Eval<seq<Item>>
  {
    match FindSame(items, payload)
    case TypeError => TypeError
    case Value(None) => Value(items + [payload])
    case Value(Some(_)) => MapMerge(items, payload)
  }

  /** UPDATE_ITEM's new item list: every item with the payload's `_id` is replaced by the payload. */
  function ReplaceItems(items: seq<Item>, payload: Option<Item>): Eval<seq<Item>>
  {
    if items == [] then Value([])
    else if payload.None? then TypeError
    else Value(ReplaceById(items, payload.value))
  }

  function ReplaceById(items: seq<Item>, payload: Item): (r: seq<Item>)
    ensures |r| == |items|
    ensures forall k :: 0 <= k < |items| ==> r[k] == if items[k].id == payload.id then payload else items[k]
  {
    if items == [] then [] else [if items[0].id == payload.id then payload else items[0]] + ReplaceById(items[1..], payload)
  }

  /** REMOVE_ITEM's new item list. */
  function WithoutId(items: seq<Item>, id: Store.LineId): seq<Item>
  {
    Filter(items, OtherThan(id))
  }

  /** `item => item._id !== id` */
  function OtherThan(id: Store.LineId): Item -> bool
  {
    (item: Item) => item.id != id
  }

  /** `cartReducer(state, action)` */
  function Reduce(state: CartState, action: Action): Eval<CartState>
  {
    match action
    case SetLoading(b) => Value(state.(loading := b, error := None))
    case SetError(m) => Value(state.(loading := false, error := Some(m)))
    case SetCart(cartItems, total) =>
      var items := if cartItems.Some? then cartItems.value else [];
      var t := if total.Some? && total.value != 0 then total.value else CalculateTotal(items);
      Value(state.(loading := false, items := items, total := t, error := None))
    case AddItem(payload) =>
      (match AddToItems(state.items, payload)
       case TypeError => TypeError
       case Value(items) => Value(state.(items := items, total := CalculateTotal(items))))
    case UpdateItem(payload) =>
      (match ReplaceItems(state.items, payload)
       case TypeError => TypeError
       case Value(items) => Value(state.(items := items, total := CalculateTotal(items))))
    case RemoveItem(id) =>
      var items := WithoutId(state.items, id);
      Value(state.(items := items, total := CalculateTotal(items)))
    case ClearCart => Value(state.(items := [], total := 0))
    case Unknown(_) => Value(state)
  }

  /** `getItemCount()`: the sum of the quantities. */
  function ItemCount(items: seq<Item>): int
  {
    if items == [] then 0 else items[0].qty + ItemCount(items[1..])
  }

  /** `isInCart(p)`: `some` stops at the first match, and throws on a null product before it. */
  function IsInCart(items: seq<Item>, p: Store.ProductId): Eval<bool>
  {
    if items == [] then Value(false)
    else if items[0].product.None? then TypeError
    else if items[0].product.value.id == p then Value(true)
    else IsInCart(items[1..], p)
  }

  /** `getCartItem(p)`: the first item of product `p`, found the same way. */
  function GetCartItem(items: seq<Item>, p: Store.ProductId): Eval<Option<Item>>
  {
    if items == [] then Value(None)
    else if items[0].product.None? then TypeError
    else if items[0].product.value.id == p then Value(Some(items[0]))
    else GetCartItem(items[1..], p)
  }

  predicate HasProduct(item: Item, p: Store.ProductId)
  {
    item.product.Some? && item.product.value.id == p
  }

  // ---- totals ----

  lemma {:induction false} CalculateTotalAppend(a: seq<Item>, b: seq<Item>)
    ensures CalculateTotal(a + b) == CalculateTotal(a) + CalculateTotal(b)
  {
    if a == [] {
      assert a + b == b;
    } else {
      assert (a + b)[1..] == a[1..] + b;
      CalculateTotalAppend(a[1..], b);
    }
  }

  lemma {:induction false} ItemCountAppend(a: seq<Item>, b: seq<Item>)
    ensures ItemCount(a + b) == ItemCount(a) + ItemCount(b)
  {
    if a == [] {
      assert a + b == b;
    } else {
      assert (a + b)[1..] == a[1..] + b;
      ItemCountAppend(a[1..], b);
    }
  }

  /** How many items belong to the payload's product. */
  function MatchCount(items: seq<Item>, payload: Item): nat
  {
    if items == [] then 0 else (if SameProduct(items[0], payload) then 1 else 0) + MatchCount(items[1..], payload)
  }

  /** The summed unit price of the items of the payload's product (the client's snapshot of each). */
  function MatchPrice(items: seq<Item>, payload: Item): int
  {
    if items == [] then 0
    else (if SameProduct(items[0], payload) then items[0].product.value.price else 0) + MatchPrice(items[1..], payload)
  }

  /** Merging adds the payload's qty to the count once per matching item. */
  lemma {:induction false} MergeQtyCount(items: seq<Item>, payload: Item)
    ensures ItemCount(MergeQty(items, payload)) == ItemCount(items) + MatchCount(items, payload) * payload.qty
  {
    if items != [] {
      MergeQtyCount(items[1..], payload);
      var m := MergeQty(items, payload);
      assert m[1..] == MergeQty(items[1..], payload);
      var c := MatchCount(items[1..], payload);
      if SameProduct(items[0], payload) {
        assert m[0].qty == items[0].qty + payload.qty;
        assert (1 + c) * payload.qty == payload.qty + c * payload.qty;
      } else {
        assert m[0] == items[0];
      }
    }
  }

  /** Merging adds qty times each matching item's price to the total. */
  lemma {:induction false} MergeQtyTotal(items: seq<Item>, payload: Item)
    ensures CalculateTotal(MergeQty(items, payload)) == CalculateTotal(items) + MatchPrice(items, payload) * payload.qty
  {
    if items != [] {
      MergeQtyTotal(items[1..], payload);
      var m := MergeQty(items, payload);
      assert m[1..] == MergeQty(items[1..], payload);
      var rest := MatchPrice(items[1..], payload);
      if SameProduct(items[0], payload) {
        var price := items[0].product.value.price;
        assert m[0] == items[0].(qty := items[0].qty + payload.qty);
        assert ItemAmount(m[0]) == price * (items[0].qty + payload.qty);
        assert price * (items[0].qty + payload.qty) == price * items[0].qty + price * payload.qty;
        assert (price + rest) * payload.qty == price * payload.qty + rest * payload.qty;
      } else {
        assert m[0] == items[0];
      }
    }
  }

  // ---- the reducer's cases ----

  /** ADD_ITEM of a product already in the cart: same length, qty added to its items, others untouched. */
  lemma AddItemMerges(state: CartState, payload: Item, k: nat)
    requires AllLinked(state.items) && Linked(payload)
    requires k < |state.items| && SameProduct(state.items[k], payload)
    ensures Reduce(state, AddItem(payload)).Value?
    ensures var s' := Reduce(state, AddItem(payload)).value;
      && |s'.items| == |state.items|
      && (forall j :: 0 <= j < |state.items| ==>
            s'.items[j] == if SameProduct(state.items[j], payload)
                           then state.items[j].(qty := state.items[j].qty + payload.qty) else state.items[j])
      && s'.total == CalculateTotal(s'.items)
      && s'.loading == state.loading && s'.error == state.error
  {
    var m := MergeQty(state.items, payload);
    AddToItemsMerges(state.items, payload, k);
    assert Reduce(state, AddItem(payload)) == Value(state.(items := m, total := CalculateTotal(m)));
  }

  /** After ADD_ITEM merges, the count grows by qty per matching item and the total by qty times their prices. */
  lemma AddItemMergeTotals(state: CartState, payload: Item, k: nat)
    requires AllLinked(state.items) && Linked(payload)
    requires k < |state.items| && SameProduct(state.items[k], payload)
    ensures Reduce(state, AddItem(payload)).Value?
    ensures var s' := Reduce(state, AddItem(payload)).value;
      && s'.total == CalculateTotal(state.items) + MatchPrice(state.items, payload) * payload.qty
      && ItemCount(s'.items) == ItemCount(state.items) + MatchCount(state.items, payload) * payload.qty
  {
    var m := MergeQty(state.items, payload);
    AddToItemsMerges(state.items, payload, k);
    assert Reduce(state, AddItem(payload)) == Value(state.(items := m, total := CalculateTotal(m)));
    MergeQtyCount(state.items, payload);
    MergeQtyTotal(state.items, payload);
  }

  /** `find` gives no item exactly when every product is present (the payload's too, once it is compared) and none matches. */
  lemma {:induction false} FindSameNone(items: seq<Item>, payload: Item)
    ensures FindSame(items, payload) == Value(None)
        <==> AllLinked(items) && (items != [] ==> Linked(payload))
             && forall k :: 0 <= k < |items| ==> !SameProduct(items[k], payload)
  {
    if items != [] && Linked(items[0]) && Linked(payload) && !SameProduct(items[0], payload) {
      FindSameNone(items[1..], payload);
      assert forall k :: 1 <= k < |items| ==> items[k] == items[1..][k - 1];
    }
  }

  /** `find` throws only when some item, or (for a non-empty cart) the payload, has a null product. */
  lemma {:induction false} FindSameThrows(items: seq<Item>, payload: Item)
    ensures FindSame(items, payload).TypeError? ==> !AllLinked(items) || (items != [] && !Linked(payload))
  {
    if items != [] && Linked(items[0]) && Linked(payload) && !SameProduct(items[0], payload) {
      FindSameThrows(items[1..], payload);
      assert forall k :: 1 <= k < |items| ==> items[k] == items[1..][k - 1];
    }
  }

  /** When `find` gives an item, it is the first item of the payload's product, and every item before it is present. */
  lemma {:induction false} FindSameFirst(items: seq<Item>, payload: Item)
    requires FindSame(items, payload).Value? && FindSame(items, payload).value.Some?
    ensures Linked(payload)
    ensures exists k :: 0 <= k < |items| && items[k] == FindSame(items, payload).value.value
              && SameProduct(items[k], payload)
              && forall j :: 0 <= j < k ==> Linked(items[j]) && !SameProduct(items[j], payload)
  {
    if !SameProduct(items[0], payload) {
      FindSameFirst(items[1..], payload);
      var k :| 0 <= k < |items[1..]| && items[1..][k] == FindSame(items, payload).value.value
        && SameProduct(items[1..][k], payload)
        && forall j :: 0 <= j < k ==> Linked(items[1..][j]) && !SameProduct(items[1..][j], payload);
      assert items[k + 1] == items[1..][k];
      forall j | 0 <= j < k + 1 ensures Linked(items[j]) && !SameProduct(items[j], payload) {
        if j > 0 {
          assert items[j] == items[1..][j - 1];
        }
      }
    } else {
      assert items[0] == FindSame(items, payload).value.value;
    }
  }

  /** The `map` throws exactly when some product is null, and otherwise adds the qty to the payload's items. */
  lemma {:induction false} MapMergeSpec(items: seq<Item>, payload: Item)
    ensures MapMerge(items, payload).TypeError? <==> items != [] && (!AllLinked(items) || !Linked(payload))
    ensures MapMerge(items, payload).Value? ==> MapMerge(items, payload).value == MergeQty(items, payload)
  {
    if items != [] && Linked(items[0]) && Linked(payload) {
      MapMergeSpec(items[1..], payload);
      assert AllLinked(items) <==> AllLinked(items[1..]) by {
        assert forall k :: 1 <= k < |items| ==> items[k] == items[1..][k - 1];
      }
    }
  }

  /** When every product is present and one item has the payload's product, the new list is the merged one. */
  lemma AddToItemsMerges(items: seq<Item>, payload: Item, k: nat)
    requires AllLinked(items) && Linked(payload)
    requires k < |items| && SameProduct(items[k], payload)
    ensures AddToItems(items, payload) == Value(MergeQty(items, payload))
  {
    FindSameNone(items, payload);
    FindSameThrows(items, payload);
    MapMergeSpec(items, payload);
  }

  /** ADD_ITEM of a product not in the cart: the payload is appended and the total grows by its amount. */
  lemma AddItemAppends(state: CartState, payload: Item)
    requires AllLinked(state.items)
    requires state.items != [] ==> Linked(payload)
    requires forall j :: 0 <= j < |state.items| ==> !SameProduct(state.items[j], payload)
    ensures Reduce(state, AddItem(payload)).Value?
    ensures var s' := Reduce(state, AddItem(payload)).value;
      && s'.items == state.items + [payload]
      && s'.total == CalculateTotal(state.items) + ItemAmount(payload)
      && ItemCount(s'.items) == ItemCount(state.items) + payload.qty
      && s'.loading == state.loading && s'.error == state.error
  {
    FindSameNone(state.items, payload);
    CalculateTotalAppend(state.items, [payload]);
    ItemCountAppend(state.items, [payload]);
  }

  /**
   * ADD_ITEM throws exactly when an item, or (for a non-empty cart) the
   * payload, has no product: a null before the first match stops `find`, one
   * after it stops the `map`.
   */
  lemma AddItemThrowsIff(state: CartState, payload: Item)
    ensures Reduce(state, AddItem(payload)).TypeError?
        <==> !AllLinked(state.items) || (state.items != [] && !Linked(payload))
  {
    FindSameNone(state.items, payload);
    FindSameThrows(state.items, payload);
    MapMergeSpec(state.items, payload);
    var f := FindSame(state.items, payload);
    if f.Value? && f.value.Some? {
      FindSameFirst(state.items, payload);
    }
  }

  /** UPDATE_ITEM replaces exactly the items with the payload's `_id`; an absent payload throws on a non-empty cart. */
  lemma UpdateItemReplaces(state: CartState, payload: Option<Item>)
    ensures Reduce(state, UpdateItem(payload)).TypeError? <==> payload.None? && state.items != []
    ensures payload.Some? ==>
      var s' := Reduce(state, UpdateItem(payload)).value;
      && |s'.items| == |state.items|
      && (forall j :: 0 <= j < |state.items| ==>
            s'.items[j] == if state.items[j].id == payload.value.id then payload.value else state.items[j])
      && s'.total == CalculateTotal(s'.items)
  {
  }

  /** The filtered list has no item with the id and keeps every other item as often as it occurred, in order. */
  lemma WithoutIdSpec(items: seq<Item>, id: Store.LineId, x: Item)
    ensures forall j :: 0 <= j < |WithoutId(items, id)| ==> WithoutId(items, id)[j].id != id
    ensures multiset(WithoutId(items, id))[x] == (if x.id == id then 0 else multiset(items)[x])
    ensures IsSubsequence(WithoutId(items, id), items)
  {
    var r := WithoutId(items, id);
    forall j | 0 <= j < |r| ensures r[j].id != id {
      assert OtherThan(id)(r[j]);
    }
    FilterCount(items, OtherThan(id), x);
    FilterIsSubsequence(items, OtherThan(id));
  }

  /** REMOVE_ITEM drops every item with that `_id`, keeps every other one as often as it occurred and in order. */
  lemma RemoveItemDrops(state: CartState, id: Store.LineId, x: Item)
    ensures Reduce(state, RemoveItem(id)).Value?
    ensures var s' := Reduce(state, RemoveItem(id)).value;
      && (forall j :: 0 <= j < |s'.items| ==> s'.items[j].id != id)
      && multiset(s'.items)[x] == (if x.id == id then 0 else multiset(state.items)[x])
      && IsSubsequence(s'.items, state.items)
      && s'.total == CalculateTotal(s'.items)
  {
    var r := WithoutId(state.items, id);
    assert Reduce(state, RemoveItem(id)) == Value(state.(items := r, total := CalculateTotal(r)));
    WithoutIdSpec(state.items, id, x);
  }

  /** SET_LOADING sets the flag and clears the error; SET_ERROR stops loading and records the message; neither touches the items. */
  lemma LoadingAndErrorFlags(state: CartState, b: bool, m: string)
    ensures Reduce(state, SetLoading(b)) == Value(state.(loading := b, error := None))
    ensures Reduce(state, SetError(m)) == Value(CartState(state.items, state.total, false, Some(m)))
  {
  }

  /** CLEAR_CART empties the items and the total and leaves `loading` and `error` alone; unknown actions change nothing. */
  lemma ClearAndUnknown(state: CartState, kind: string)
    ensures Reduce(state, ClearCart) == Value(CartState([], 0, state.loading, state.error))
    ensures Reduce(state, Unknown(kind)) == Value(state)
  {
  }

  /** SET_CART takes the payload's items (or none), its total when non-zero and the computed one otherwise. */
  lemma SetCartTakesPayload(state: CartState, cartItems: Option<seq<Item>>, total: Option<int>)
    ensures var s' := Reduce(state, SetCart(cartItems, total)).value;
      && s'.items == (if cartItems.Some? then cartItems.value else [])
      && s'.total == (if total.Some? && total.value != 0 then total.value else CalculateTotal(s'.items))
      && !s'.loading && s'.error == None
  {
  }

  // ---- the read helpers ----

  /** With every product present, `isInCart` answers whether some item has product `p`. */
  lemma {:induction false} IsInCartIff(items: seq<Item>, p: Store.ProductId)
    requires AllLinked(items)
    ensures IsInCart(items, p) == Value(exists k :: 0 <= k < |items| && HasProduct(items[k], p))
  {
    if items != [] {
      IsInCartIff(items[1..], p);
      if !HasProduct(items[0], p) {
        assert (exists k :: 0 <= k < |items| && HasProduct(items[k], p))
           <==> (exists k :: 0 <= k < |items[1..]| && HasProduct(items[1..][k], p)) by {
          if exists k :: 0 <= k < |items| && HasProduct(items[k], p) {
            var k :| 0 <= k < |items| && HasProduct(items[k], p);
            assert items[1..][k - 1] == items[k];
          }
        }
      }
    }
  }

  /** `getCartItem` returns the first item of product `p`, or nothing when none has it. */
  lemma {:induction false} GetCartItemFirst(items: seq<Item>, p: Store.ProductId)
    requires AllLinked(items)
    ensures GetCartItem(items, p).Value?
    ensures GetCartItem(items, p).value.None? <==> forall k :: 0 <= k < |items| ==> !HasProduct(items[k], p)
    ensures GetCartItem(items, p).value.Some? ==>
      exists k :: 0 <= k < |items| && items[k] == GetCartItem(items, p).value.value && HasProduct(items[k], p)
        && forall j :: 0 <= j < k ==> !HasProduct(items[j], p)
  {
    if items != [] && !HasProduct(items[0], p) {
      GetCartItemFirst(items[1..], p);
      if GetCartItem(items, p).value.Some? {
        var k :| 0 <= k < |items[1..]| && items[1..][k] == GetCartItem(items, p).value.value
          && HasProduct(items[1..][k], p) && forall j :: 0 <= j < k ==> !HasProduct(items[1..][j], p);
        assert items[k + 1] == items[1..][k];
        assert forall j :: 0 <= j < k + 1 ==> !HasProduct(items[j], p) by {
          forall j | 0 <= j < k + 1 ensures !HasProduct(items[j], p) {
            if j > 0 {
              assert items[j] == items[1..][j - 1];
            }
          }
        }
      }
    }
  }

  /** `isInCart` and `getCartItem` always agree, throws included. */
  lemma {:induction false} IsInCartAgrees(items: seq<Item>, p: Store.ProductId)
    ensures IsInCart(items, p).TypeError? <==> GetCartItem(items, p).TypeError?
    ensures IsInCart(items, p) == Value(true) <==> GetCartItem(items, p).Value? && GetCartItem(items, p).value.Some?
  {
    if items != [] && items[0].product.Some? && items[0].product.value.id != p {
      IsInCartAgrees(items[1..], p);
    }
  }

  // ---- agreement with the server's cart view ----

  /** The client item the server's populated line becomes. */
  function ToClient(view: seq<CartController.ViewLine>): (r: seq<Item>)
    ensures |r| == |view|
  {
    if view == [] then []
    else
      var v := view[0];
      [Item(v.line.id, Some(ProductRef(v.line.productId, v.product.price)), v.line.qty)] + ToClient(view[1..])
  }

  /** The client's `calculateTotal` over the server's view equals the server's total. */
  lemma {:induction false} ClientTotalMatchesServer(view: seq<CartController.ViewLine>)
    ensures CalculateTotal(ToClient(view)) == CartController.Total(view)
  {
    if view != [] {
      ClientTotalMatchesServer(view[1..]);
      assert ToClient(view)[1..] == ToClient(view[1..]);
    }
  }

  /** Loading a server cart response with SET_CART always shows the server's total, whichever branch of `||` runs. */
  lemma SetCartShowsServerTotal(state: CartState, view: CartController.CartView)
    requires view.total == CartController.Total(view.cartItems)
    ensures var s' := Reduce(state, SetCart(Some(ToClient(view.cartItems)), Some(view.total))).value;
      s'.total == view.total && s'.items == ToClient(view.cartItems)
  {
    ClientTotalMatchesServer(view.cartItems);
  }

  // ---- the state over a run of actions ----

  /** The shown total is the total of the shown items. */
  predicate TotalMatches(state: CartState)
  {
    state.total == CalculateTotal(state.items)
  }

  /** A SET_CART whose total, when it is used, is that of its items, as the server's responses are. */
  predicate HonestAction(action: Action)
  {
    action.SetCart? && action.total.Some? && action.total.value != 0 ==>
      action.total.value == CalculateTotal(if action.cartItems.Some? then action.cartItems.value else [])
  }

  /** The actions dispatched in turn; a throw ends the run. */
  function Run(state: CartState, actions: seq<Action>): Eval<CartState>
    decreases |actions|
  {
    if actions == [] then Value(state)
    else
      match Reduce(state, actions[0])
      case TypeError => TypeError
      case Value(next) => Run(next, actions[1..])
  }

  /** One reducer step keeps the total equal to the items' total, given an honest SET_CART. */
  lemma ReduceKeepsTotal(state: CartState, action: Action)
    requires TotalMatches(state) && HonestAction(action)
    ensures Reduce(state, action).Value? ==> TotalMatches(Reduce(state, action).value)
  {
  }

  /** From `initialState`, every run of honest actions that does not throw shows the total of its items. */
  lemma {:induction false} RunKeepsTotal(state: CartState, actions: seq<Action>)
    requires TotalMatches(state)
    requires forall i :: 0 <= i < |actions| ==> HonestAction(actions[i])
    ensures Run(state, actions).Value? ==> TotalMatches(Run(state, actions).value)
    decreases |actions|
  {
    if actions != [] {
      ReduceKeepsTotal(state, actions[0]);
      var r := Reduce(state, actions[0]);
      if r.Value? {
        RunKeepsTotal(r.value, actions[1..]);
      }
    }
  }

  /** The provider starts from `initialState`, whose total is that of its (no) items. */
  lemma InitialRunKeepsTotal(actions: seq<Action>)
    requires forall i :: 0 <= i < |actions| ==> HonestAction(actions[i])
    ensures Run(InitialState, actions).Value? ==> TotalMatches(Run(InitialState, actions).value)
  {
    RunKeepsTotal(InitialState, actions);
  }

  // ---- the quantity update round trip ----

  /**
   * `updateCartItem` as written: UPDATE_ITEM with `response.data.cartItem`.
   * A successful PUT answers `message`, `cartItems` and `total` (an `Ok`
   * response has no other field), so that payload is `undefined`.
   */
  function AfterUpdateAsWritten(state: CartState, resp: CartController.CartResponse): Eval<CartState>
    requires resp.Ok?
  {
    Reduce(state, UpdateItem(None))
  }

  /** Any successful quantity update on a non-empty cart makes the reducer throw. */
  lemma UpdateAsWrittenThrows(state: CartState, resp: CartController.CartResponse)
    requires resp.Ok? && state.items != []
    ensures AfterUpdateAsWritten(state, resp).TypeError?
  {
  }

  /** `updateCartItem` as intended: SET_CART with the response body, as `addToCart` does. */
  function AfterUpdate(state: CartState, resp: CartController.CartResponse): Eval<CartState>
    requires resp.Ok?
  {
    Reduce(state, SetCart(Some(ToClient(resp.view.cartItems)), Some(resp.view.total)))
  }

  /** With SET_CART the client shows exactly the server's lines and total after the update. */
  lemma AfterUpdateShowsServerCart(state: CartState, resp: CartController.CartResponse)
    requires resp.Ok? && resp.view.total == CartController.Total(resp.view.cartItems)
    ensures AfterUpdate(state, resp).Value?
    ensures AfterUpdate(state, resp).value.items == ToClient(resp.view.cartItems)
    ensures AfterUpdate(state, resp).value.total == resp.view.total
  {
    SetCartShowsServerTotal(state, resp.view);
  }

}
