/**
 * The cart drawer (src/components/Cart.tsx): the money total, the empty-cart view, and the
 * requests its minus, plus and remove buttons send to the storefront's cart updaters.
 */
module CartPanel {
  import opened Storefront

  /** What one line costs: its unit price times its quantity, in cents. */
  function Subtotal(x: CartItem): int {
    x.product.price * x.quantity
  }

  /** `items.reduce((sum, item) => sum + item.price * item.quantity, 0)`, in cents. */
  function CartTotal(items: seq<CartItem>): int {
    if items == [] then 0 else Subtotal(items[0]) + CartTotal(items[1..])
  }

  /** What the drawer shows: the empty-cart message, or the lines with the total. */
  datatype View = EmptyCart | Lines(total: int)

  function ViewOf(items: seq<CartItem>): (v: View)
    ensures v.EmptyCart? <==> |items| == 0
    ensures v.Lines? ==> v.total == CartTotal(items)
  {
    if |items| == 0 then EmptyCart else Lines(CartTotal(items))
  }

  /** A button's request to the storefront: `onUpdateQuantity(id, size, q)` or `onRemoveItem(id, size)`. */
  datatype Request =
    | UpdateRequest(id: int, size: string, quantity: int)
    | RemoveRequest(id: int, size: string)

  /** The minus button of a line. */
  function MinusClicked(item: CartItem): Request {
    UpdateRequest(item.product.id, item.selectedSize, item.quantity - 1)
  }

  /** The plus button of a line. */
  function PlusClicked(item: CartItem): Request {
    UpdateRequest(item.product.id, item.selectedSize, item.quantity + 1)
  }

  /** The remove (X) button of a line. */
  function RemoveClicked(item: CartItem): Request {
    RemoveRequest(item.product.id, item.selectedSize)
  }

  /** The storefront handler the request reaches. */
  function Apply(items: seq<CartItem>, r: Request): seq<CartItem> {
    match r
    case UpdateRequest(id, size, q) => UpdateQuantity(items, id, size, q)
    case RemoveRequest(id, size) => RemoveFromCart(items, id, size)
  }

  /** The cart invariant: one line per key, and every line holds at least one unit. */
  predicate WellFormed(items: seq<CartItem>) {
    UniqueKeys(items) && forall i :: 0 <= i < |items| ==> items[i].quantity >= 1
  }

  // ================================================================ lemmas

  lemma {:induction false} CartTotalAppend(a: seq<CartItem>, b: seq<CartItem>)
    ensures CartTotal(a + b) == CartTotal(a) + CartTotal(b)
  {
    if a != [] {
      assert (a + b)[0] == a[0] && (a + b)[1..] == a[1..] + b;
      CartTotalAppend(a[1..], b);
    } else {
      assert a + b == b;
    }
  }

  /** The total of a cart whose prices and quantities are non-negative is non-negative. */
  lemma {:induction false} CartTotalNonNegative(items: seq<CartItem>)
    requires forall i :: 0 <= i < |items| ==> items[i].product.price >= 0 && items[i].quantity >= 0
    ensures CartTotal(items) >= 0
  {
    if items != [] {
      assert forall i :: 0 <= i < |items[1..]| ==> items[1..][i] == items[i + 1];
      CartTotalNonNegative(items[1..]);
    }
  }

  /** Changing the quantity of line `i` to `q` moves the total by its price times the change. */
  lemma {:induction false} CartTotalUpdate(items: seq<CartItem>, i: int, q: int)
    requires 0 <= i < |items|
    ensures CartTotal(items[i := items[i].(quantity := q)])
         == CartTotal(items) + items[i].product.price * (q - items[i].quantity)
  {
    var r := items[i := items[i].(quantity := q)];
    if i == 0 {
      assert r[1..] == items[1..];
    } else {
      assert r[1..] == items[1..][i - 1 := items[i].(quantity := q)];
      CartTotalUpdate(items[1..], i - 1, q);
    }
  }

  /** In a cart with unique keys, setting a non-zero quantity on line `i`'s key changes that line only. */
  lemma SetQuantityAt(items: seq<CartItem>, i: int, q: int)
    requires UniqueKeys(items) && 0 <= i < |items| && q != 0
    ensures UpdateQuantity(items, items[i].product.id, items[i].selectedSize, q) == items[i := items[i].(quantity := q)]
  {
    var id, size := items[i].product.id, items[i].selectedSize;
    var r := UpdateQuantity(items, id, size, q);
    forall j | 0 <= j < |items| ensures r[j] == items[i := items[i].(quantity := q)][j] {
      if j < i {
        assert !Matches(items[i], items[j].product.id, items[j].selectedSize);
      } else if j > i {
        assert !Matches(items[j], id, size);
      }
    }
  }

  /**
   * The minus button on line `i` of a well-formed cart: a line at one unit is removed, any
   * other loses one unit, and the cart stays well formed.
   */
  lemma MinusOnLine(items: seq<CartItem>, i: int)
    requires WellFormed(items) && 0 <= i < |items|
    ensures items[i].quantity == 1 ==> Apply(items, MinusClicked(items[i])) == items[..i] + items[i + 1..]
    ensures items[i].quantity > 1 ==>
      Apply(items, MinusClicked(items[i])) == items[i := items[i].(quantity := items[i].quantity - 1)]
    ensures WellFormed(Apply(items, MinusClicked(items[i])))
  {
    if items[i].quantity == 1 {
      RemoveFromCartExact(items, i);
      DropLine(items, i);
    } else {
      SetLine(items, i, items[i].quantity - 1);
    }
  }

  /** Dropping line `i` of a well-formed cart leaves a well-formed cart. */
  lemma DropLine(items: seq<CartItem>, i: int)
    requires WellFormed(items) && 0 <= i < |items|
    ensures WellFormed(items[..i] + items[i + 1..])
  {
    RemoveFromCartExact(items, i);
    RemoveFromCartUnique(items, items[i].product.id, items[i].selectedSize);
    DropLinePositive(items, i, items[..i] + items[i + 1..]);
  }

  /** Dropping a line keeps every remaining line at one unit or more. */
  lemma DropLinePositive(items: seq<CartItem>, i: int, r: seq<CartItem>)
    requires 0 <= i < |items| && forall k :: 0 <= k < |items| ==> items[k].quantity >= 1
    requires r == items[..i] + items[i + 1..]
    ensures forall k :: 0 <= k < |r| ==> r[k].quantity >= 1
  {
    forall k | 0 <= k < |r| ensures r[k].quantity >= 1 {
      if k < i { assert r[k] == items[k]; } else { assert r[k] == items[k + 1]; }
    }
  }

  /** Dropping line `i` takes that line's amount off the total. */
  lemma {:induction false} DropLineTotal(items: seq<CartItem>, i: int)
    requires 0 <= i < |items|
    ensures CartTotal(items[..i] + items[i + 1..]) == CartTotal(items) - Subtotal(items[i])
  {
    var x, before, after := items[i], items[..i], items[i + 1..];
    calc {
      CartTotal(items);
      { assert items == before + ([x] + after); CartTotalAppend(before, [x] + after); }
      CartTotal(before) + CartTotal([x] + after);
      { CartTotalAppend([x], after); CartTotalSingle(x); }
      CartTotal(before) + Subtotal(x) + CartTotal(after);
      { CartTotalAppend(before, after); }
      CartTotal(before + after) + Subtotal(x);
    }
  }

  lemma CartTotalSingle(x: CartItem)
    ensures CartTotal([x]) == Subtotal(x)
  {
    assert [x][1..] == [];
  }

  /** Giving line `i` of a well-formed cart a positive quantity keeps the cart well formed. */
  lemma SetLine(items: seq<CartItem>, i: int, q: int)
    requires WellFormed(items) && 0 <= i < |items| && q >= 1
    ensures UpdateQuantity(items, items[i].product.id, items[i].selectedSize, q) == items[i := items[i].(quantity := q)]
    ensures WellFormed(items[i := items[i].(quantity := q)])
  {
    SetQuantityAt(items, i, q);
    UpdateQuantityUnique(items, items[i].product.id, items[i].selectedSize, q);
  }

  /** The plus button on line `i`: that line gains one unit, the cart stays well formed, and the total rises by its price. */
  lemma PlusOnLine(items: seq<CartItem>, i: int)
    requires WellFormed(items) && 0 <= i < |items|
    ensures Apply(items, PlusClicked(items[i])) == items[i := items[i].(quantity := items[i].quantity + 1)]
    ensures WellFormed(Apply(items, PlusClicked(items[i])))
    ensures CartTotal(Apply(items, PlusClicked(items[i]))) == CartTotal(items) + items[i].product.price
  {
    var q := items[i].quantity + 1;
    assert Apply(items, PlusClicked(items[i])) == UpdateQuantity(items, items[i].product.id, items[i].selectedSize, q);
    SetLine(items, i, q);
    CartTotalUpdate(items, i, q);
  }

  /** The remove button on line `i`: exactly that line goes, the rest keep their order, and the total drops by its amount. */
  lemma RemoveOnLine(items: seq<CartItem>, i: int)
    requires WellFormed(items) && 0 <= i < |items|
    ensures Apply(items, RemoveClicked(items[i])) == items[..i] + items[i + 1..]
    ensures WellFormed(Apply(items, RemoveClicked(items[i])))
    ensures CartTotal(Apply(items, RemoveClicked(items[i])))
         == CartTotal(items) - Subtotal(items[i])
  {
    RemoveFromCartExact(items, i);
    DropLine(items, i);
    DropLineTotal(items, i);
  }

  /** In a cart with unique keys, two lines with the same key are the same line. */
  lemma SameKeySameLine(items: seq<CartItem>, i: int, j: int)
    requires UniqueKeys(items) && 0 <= i < |items| && 0 <= j < |items|
    requires Matches(items[j], items[i].product.id, items[i].selectedSize)
    ensures i == j
  {
  }

  /** Adding to an existing line is what the plus button on that line does. */
  lemma {:induction false} BumpIsPlus(items: seq<CartItem>, i: int)
    requires UniqueKeys(items) && 0 <= i < |items| && items[i].quantity >= 1
    ensures AddToCart(items, items[i].product, items[i].selectedSize) == Apply(items, PlusClicked(items[i]))
  {
    AddAt(items, i);
    SetQuantityAt(items, i, items[i].quantity + 1);
  }

  /** In a cart with one line per key, adding a line's product in its size adds one unit to that line only. */
  lemma {:induction false} AddAt(items: seq<CartItem>, i: int)
    requires UniqueKeys(items) && 0 <= i < |items|
    ensures AddToCart(items, items[i].product, items[i].selectedSize) == items[i := items[i].(quantity := items[i].quantity + 1)]
  {
    assert Matches(items[i], items[i].product.id, items[i].selectedSize);
    BumpAt(items, i);
  }

  /** In a cart with one line per key, bumping a line's key adds one unit to that line only. */
  lemma BumpAt(items: seq<CartItem>, i: int)
    requires UniqueKeys(items) && 0 <= i < |items|
    ensures Bump(items, items[i].product.id, items[i].selectedSize) == items[i := items[i].(quantity := items[i].quantity + 1)]
  {
    var id, size := items[i].product.id, items[i].selectedSize;
    var r := Bump(items, id, size);
    forall j | 0 <= j < |items| ensures r[j] == items[i := items[i].(quantity := items[i].quantity + 1)][j] {
      if j < i {
        assert !Matches(items[i], items[j].product.id, items[j].selectedSize);
      } else if j > i {
        assert !Matches(items[j], id, size);
      }
    }
  }

  /** Appending a fresh line of one unit keeps a well-formed cart well formed and adds the product's price. */
  lemma AddNewLine(items: seq<CartItem>, product: Product, size: string)
    requires WellFormed(items) && !HasLine(items, product.id, size)
    ensures WellFormed(items + [CartItem(product, 1, size)])
    ensures CartTotal(items + [CartItem(product, 1, size)]) == CartTotal(items) + product.price
  {
    AddToCartUnique(items, product, size);
    var r := items + [CartItem(product, 1, size)];
    assert forall k :: 0 <= k < |items| ==> r[k] == items[k];
    CartTotalAppend(items, [CartItem(product, 1, size)]);
  }

  /**
   * Adding to a well-formed cart keeps it well formed and raises the total by one unit's price:
   * the stored line's price when the line exists, the product's price otherwise.
   */
  lemma AddToCartOnTotals(items: seq<CartItem>, product: Product, size: string)
    requires WellFormed(items)
    ensures WellFormed(AddToCart(items, product, size))
    ensures !HasLine(items, product.id, size) ==>
      CartTotal(AddToCart(items, product, size)) == CartTotal(items) + product.price
    ensures forall i :: 0 <= i < |items| && Matches(items[i], product.id, size) ==>
      CartTotal(AddToCart(items, product, size)) == CartTotal(items) + items[i].product.price
  {
    var r := AddToCart(items, product, size);
    if HasLine(items, product.id, size) {
      var i :| 0 <= i < |items| && Matches(items[i], product.id, size);
      BumpIsPlus(items, i);
      PlusOnLine(items, i);
      forall j | 0 <= j < |items| && Matches(items[j], product.id, size)
        ensures CartTotal(r) == CartTotal(items) + items[j].product.price
      {
        SameKeySameLine(items, i, j);
      }
    } else {
      AddNewLine(items, product, size);
    }
  }
}
