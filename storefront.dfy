/**
 * The storefront page's cart and catalogue logic (src/App.tsx): the cart updaters that
 * `setCartItems` applies to the previous list, the item count shown on the cart icon, and the
 * category and gender filters in front of the product grid. Prices are integer cents.
 */
module Storefront {
  import opened Wrappers

  /** A catalogue product. `images` and `gender` are optional in the source's type. */
  datatype Product = Product(
    id: int,
    name: string,
    price: int,
    image: string,
    images: Option<seq<string>>,
    category: string,
    gender: Option<string>,
    sizes: seq<string>)

  /** A cart line: `{...product, quantity, selectedSize}`. */
  datatype CartItem = CartItem(product: Product, quantity: int, selectedSize: string)

  /** The line is the one for product `id` in size `size`. */
  predicate Matches(item: CartItem, id: int, size: string) {
    item.product.id == id && item.selectedSize == size
  }

  /** Some line of the cart is keyed `(id, size)`. */
  predicate HasLine(items: seq<CartItem>, id: int, size: string) {
    exists i :: 0 <= i < |items| && Matches(items[i], id, size)
  }

  /** No two lines share a `(id, selectedSize)` key. */
  predicate UniqueKeys(items: seq<CartItem>) {
    forall i, j :: 0 <= i < j < |items| ==> !Matches(items[j], items[i].product.id, items[i].selectedSize)
  }

  /** How many lines are keyed `(id, size)`. */
  function CountLines(items: seq<CartItem>, id: int, size: string): nat {
    if items == [] then 0
    else (if Matches(items[0], id, size) then 1 else 0) + CountLines(items[1..], id, size)
  }

  // ================================================================ cart updaters

  /** `prevItems.map(item => matches ? {...item, quantity: item.quantity + 1} : item)`. */
  function Bump(items: seq<CartItem>, id: int, size: string): (r: seq<CartItem>)
    ensures |r| == |items|
    ensures forall i :: 0 <= i < |items| ==>
      r[i] == if Matches(items[i], id, size) then items[i].(quantity := items[i].quantity + 1) else items[i]
  {
    if items == [] then []
    else [if Matches(items[0], id, size) then items[0].(quantity := items[0].quantity + 1) else items[0]]
         + Bump(items[1..], id, size)
  }

  /** `addToCart(product, selectedSize)`: one more of an existing line, or a new line of one at the end. */
  function AddToCart(items: seq<CartItem>, product: Product, size: string): (r: seq<CartItem>)
    ensures HasLine(items, product.id, size) ==> |r| == |items| && forall i :: 0 <= i < |items| ==>
      r[i] == if Matches(items[i], product.id, size) then items[i].(quantity := items[i].quantity + 1) else items[i]
    ensures !HasLine(items, product.id, size) ==>
      |r| == |items| + 1 && r[..|items|] == items && r[|items|] == CartItem(product, 1, size)
  {
    if HasLine(items, product.id, size) then Bump(items, product.id, size)
    else items + [CartItem(product, 1, size)]
  }

  /** `prevItems.filter(item => !matches)`. */
  function RemoveFromCart(items: seq<CartItem>, id: int, size: string): (r: seq<CartItem>)
    ensures forall x :: x in r <==> x in items && !Matches(x, id, size)
    ensures |r| == |items| - CountLines(items, id, size)
    ensures IsSublist(r, items)
  {
    if items == [] then []
    else
      var rest := RemoveFromCart(items[1..], id, size);
      if Matches(items[0], id, size) then rest
      else
        assert ([items[0]] + rest)[1..] == rest;
        [items[0]] + rest
  }

  /** `prevItems.map(item => matches ? {...item, quantity} : item)`. */
  function SetQuantity(items: seq<CartItem>, id: int, size: string, quantity: int): (r: seq<CartItem>)
    ensures |r| == |items|
    ensures forall i :: 0 <= i < |items| ==>
      r[i] == if Matches(items[i], id, size) then items[i].(quantity := quantity) else items[i]
  {
    if items == [] then []
    else [if Matches(items[0], id, size) then items[0].(quantity := quantity) else items[0]]
         + SetQuantity(items[1..], id, size, quantity)
  }

  /** `updateQuantity(id, selectedSize, quantity)`: a quantity of 0 removes the line. */
  function UpdateQuantity(items: seq<CartItem>, id: int, size: string, quantity: int): (r: seq<CartItem>)
    ensures quantity == 0 ==> r == RemoveFromCart(items, id, size)
    ensures quantity != 0 ==> |r| == |items| && forall i :: 0 <= i < |items| ==>
      r[i] == if Matches(items[i], id, size) then items[i].(quantity := quantity) else items[i]
  {
    if quantity == 0 then RemoveFromCart(items, id, size) else SetQuantity(items, id, size, quantity)
  }

  /** `cartItems.reduce((sum, item) => sum + item.quantity, 0)`. */
  function TotalItems(items: seq<CartItem>): int {
    if items == [] then 0 else items[0].quantity + TotalItems(items[1..])
  }

  // ================================================================ cart lemmas

  lemma {:induction false} TotalItemsAppend(a: seq<CartItem>, b: seq<CartItem>)
    ensures TotalItems(a + b) == TotalItems(a) + TotalItems(b)
  {
    if a != [] {
      assert (a + b)[0] == a[0] && (a + b)[1..] == a[1..] + b;
      TotalItemsAppend(a[1..], b);
    } else {
      assert a + b == b;
    }
  }

  lemma {:induction false} BumpTotal(items: seq<CartItem>, id: int, size: string)
    ensures TotalItems(Bump(items, id, size)) == TotalItems(items) + CountLines(items, id, size)
  {
    if items != [] {
      BumpTotal(items[1..], id, size);
      assert Bump(items, id, size)[1..] == Bump(items[1..], id, size);
    }
  }

  /** A cart with unique keys has exactly one line for every key it holds. */
  lemma {:induction false} CountLinesUnique(items: seq<CartItem>, id: int, size: string)
    requires UniqueKeys(items)
    ensures CountLines(items, id, size) == if HasLine(items, id, size) then 1 else 0
  {
    if items != [] {
      CountLinesUnique(items[1..], id, size);
      if Matches(items[0], id, size) {
        assert !HasLine(items[1..], id, size) by {
          forall j | 0 <= j < |items[1..]| ensures !Matches(items[1..][j], id, size) {
            assert items[1..][j] == items[j + 1];
          }
        }
      } else {
        assert HasLine(items, id, size) == HasLine(items[1..], id, size) by {
          if HasLine(items, id, size) {
            var i :| 0 <= i < |items| && Matches(items[i], id, size);
            assert items[1..][i - 1] == items[i];
          }
          if HasLine(items[1..], id, size) {
            var i :| 0 <= i < |items[1..]| && Matches(items[1..][i], id, size);
            assert items[i + 1] == items[1..][i];
          }
        }
      }
    }
  }

  /** Adding to a cart raises the item count by exactly one. */
  lemma AddToCartTotalItems(items: seq<CartItem>, product: Product, size: string)
    requires UniqueKeys(items)
    ensures TotalItems(AddToCart(items, product, size)) == TotalItems(items) + 1
  {
    if HasLine(items, product.id, size) {
      BumpTotal(items, product.id, size);
      CountLinesUnique(items, product.id, size);
    } else {
      TotalItemsAppend(items, [CartItem(product, 1, size)]);
    }
  }

  /** Adding keeps the cart length when the line exists and grows it by one otherwise. */
  lemma AddToCartLength(items: seq<CartItem>, product: Product, size: string)
    ensures |AddToCart(items, product, size)| == |items| + (if HasLine(items, product.id, size) then 0 else 1)
  {
  }

  /** Adding never creates a second line for a key. */
  lemma AddToCartUnique(items: seq<CartItem>, product: Product, size: string)
    requires UniqueKeys(items)
    ensures UniqueKeys(AddToCart(items, product, size))
  {
    var r := AddToCart(items, product, size);
    if HasLine(items, product.id, size) {
      forall i, j | 0 <= i < j < |r| ensures !Matches(r[j], r[i].product.id, r[i].selectedSize) {
        assert Matches(r[j], r[i].product.id, r[i].selectedSize) == Matches(items[j], items[i].product.id, items[i].selectedSize);
      }
    } else {
      forall i, j | 0 <= i < j < |r| ensures !Matches(r[j], r[i].product.id, r[i].selectedSize) {
        if j == |items| {
          assert r[i] == items[i];
        }
      }
    }
  }

  lemma {:induction false} RemoveFromCartAppend(a: seq<CartItem>, b: seq<CartItem>, id: int, size: string)
    ensures RemoveFromCart(a + b, id, size) == RemoveFromCart(a, id, size) + RemoveFromCart(b, id, size)
  {
    if a != [] {
      var head := if Matches(a[0], id, size) then [] else [a[0]];
      assert (a + b)[0] == a[0] && (a + b)[1..] == a[1..] + b;
      assert RemoveFromCart(a, id, size) == head + RemoveFromCart(a[1..], id, size);
      assert RemoveFromCart(a + b, id, size) == head + RemoveFromCart(a[1..] + b, id, size);
      RemoveFromCartAppend(a[1..], b, id, size);
    } else {
      assert a + b == b;
    }
  }

  lemma {:induction false} RemoveFromCartAbsent(items: seq<CartItem>, id: int, size: string)
    requires !HasLine(items, id, size)
    ensures RemoveFromCart(items, id, size) == items
  {
    if items != [] {
      assert !HasLine(items[1..], id, size) by {
        forall j | 0 <= j < |items[1..]| ensures !Matches(items[1..][j], id, size) {
          assert items[1..][j] == items[j + 1];
        }
      }
      RemoveFromCartAbsent(items[1..], id, size);
      assert !Matches(items[0], id, size);
      assert [items[0]] + items[1..] == items;
    }
  }

  /** The lines before and after line `i` of a cart with unique keys do not carry its key. */
  lemma UniqueKeysAround(items: seq<CartItem>, i: int)
    requires UniqueKeys(items) && 0 <= i < |items|
    ensures !HasLine(items[..i], items[i].product.id, items[i].selectedSize)
    ensures !HasLine(items[i + 1..], items[i].product.id, items[i].selectedSize)
  {
    var id, size := items[i].product.id, items[i].selectedSize;
    forall j | 0 <= j < |items[..i]| ensures !Matches(items[..i][j], id, size) {
      assert items[..i][j] == items[j];
    }
    var after := items[i + 1..];
    forall j | 0 <= j < |after| ensures !Matches(after[j], id, size) {
      assert after[j] == items[i + 1 + j];
    }
  }

  /**
   * In a cart with unique keys, removing the key of line `i` drops exactly that line and keeps
   * every other line in its original order.
   */
  lemma RemoveFromCartExact(items: seq<CartItem>, i: int)
    requires UniqueKeys(items) && 0 <= i < |items|
    ensures RemoveFromCart(items, items[i].product.id, items[i].selectedSize) == items[..i] + items[i + 1..]
  {
    UniqueKeysAround(items, i);
    assert items == items[..i] + [items[i]] + items[i + 1..];
    RemoveOneLine(items[..i], items[i], items[i + 1..]);
  }

  /** Removing the key of `x` from `before + [x] + after`, where only `x` carries it, leaves `before + after`. */
  lemma RemoveOneLine(before: seq<CartItem>, x: CartItem, after: seq<CartItem>)
    requires !HasLine(before, x.product.id, x.selectedSize) && !HasLine(after, x.product.id, x.selectedSize)
    ensures RemoveFromCart(before + [x] + after, x.product.id, x.selectedSize) == before + after
  {
    var id, size := x.product.id, x.selectedSize;
    assert RemoveFromCart([x], id, size) == [] by {
      assert [x][1..] == [];
    }
    RemoveFromCartAbsent(before, id, size);
    RemoveFromCartAbsent(after, id, size);
    RemoveFromCartAppend(before, [x], id, size);
    assert RemoveFromCart(before + [x], id, size) == before;
    RemoveFromCartAppend(before + [x], after, id, size);
  }

  /** Removing a key the cart does not hold leaves it unchanged. */
  lemma RemoveFromCartMissing(items: seq<CartItem>, id: int, size: string)
    requires !HasLine(items, id, size)
    ensures RemoveFromCart(items, id, size) == items
    ensures UpdateQuantity(items, id, size, 0) == items
  {
    RemoveFromCartAbsent(items, id, size);
  }

  /** Removing never creates a second line for a key. */
  lemma {:induction false} RemoveFromCartUnique(items: seq<CartItem>, id: int, size: string)
    requires UniqueKeys(items)
    ensures UniqueKeys(RemoveFromCart(items, id, size))
  {
    if items != [] {
      assert UniqueKeys(items[1..]) by {
        forall i, j | 0 <= i < j < |items[1..]|
          ensures !Matches(items[1..][j], items[1..][i].product.id, items[1..][i].selectedSize)
        {
          assert items[1..][i] == items[i + 1] && items[1..][j] == items[j + 1];
        }
      }
      RemoveFromCartUnique(items[1..], id, size);
      var rest := RemoveFromCart(items[1..], id, size);
      if !Matches(items[0], id, size) {
        var r := [items[0]] + rest;
        forall i, j | 0 <= i < j < |r| ensures !Matches(r[j], r[i].product.id, r[i].selectedSize) {
          if i == 0 {
            assert r[j] in rest;
            assert r[j] in items[1..];
            var k :| 0 <= k < |items[1..]| && items[1..][k] == r[j];
            assert items[k + 1] == r[j];
          } else {
            assert r[i] == rest[i - 1] && r[j] == rest[j - 1];
          }
        }
      }
    }
  }

  /** Changing a quantity never creates a second line for a key. */
  lemma UpdateQuantityUnique(items: seq<CartItem>, id: int, size: string, quantity: int)
    requires UniqueKeys(items)
    ensures UniqueKeys(UpdateQuantity(items, id, size, quantity))
  {
    if quantity == 0 {
      RemoveFromCartUnique(items, id, size);
    } else {
      var r := UpdateQuantity(items, id, size, quantity);
      forall i, j | 0 <= i < j < |r| ensures !Matches(r[j], r[i].product.id, r[i].selectedSize) {
        assert Matches(r[j], r[i].product.id, r[i].selectedSize) == Matches(items[j], items[i].product.id, items[i].selectedSize);
      }
    }
  }

  /** Setting a quantity on a key the cart does not hold leaves it unchanged. */
  lemma {:induction false} UpdateQuantityMissing(items: seq<CartItem>, id: int, size: string, quantity: int)
    requires !HasLine(items, id, size)
    ensures UpdateQuantity(items, id, size, quantity) == items
  {
    if quantity == 0 {
      RemoveFromCartAbsent(items, id, size);
    } else {
      var r := UpdateQuantity(items, id, size, quantity);
      forall i | 0 <= i < |items| ensures r[i] == items[i] {
        assert !Matches(items[i], id, size);
      }
    }
  }

  // ================================================================ catalogue

  /** `a` is `b` with some elements left out, the rest in their original order. */
  predicate IsSublist<T(==)>(a: seq<T>, b: seq<T>)
    decreases |b|
  {
    if a == [] then true
    else if b == [] then false
    else (a[0] == b[0] && IsSublist(a[1..], b[1..])) || IsSublist(a, b[1..])
  }

  /** `products.filter(keep)`. */
  function Keep(products: seq<Product>, keep: Product -> bool): (r: seq<Product>)
    ensures forall p :: p in r <==> p in products && keep(p)
    ensures IsSublist(r, products)
    ensures forall p :: multiset(r)[p] == if keep(p) then multiset(products)[p] else 0
  {
    if products == [] then []
    else
      var rest := Keep(products[1..], keep);
      assert products == [products[0]] + products[1..];
      if keep(products[0]) then
        assert ([products[0]] + rest)[1..] == rest;
        [products[0]] + rest
      else rest
  }

  /** The category filter: everything for "Todos", otherwise the products of that category. */
  function ByCategory(products: seq<Product>, category: string): (r: seq<Product>)
    ensures IsSublist(r, products)
    ensures category == "Todos" ==> r == products
    ensures category != "Todos" ==> forall p :: p in r <==> p in products && p.category == category
  {
    IsSublistReflexive(products);
    if category == "Todos" then products else Keep(products, (p: Product) => p.category == category)
  }

  /** Only shirts and trousers are told apart by gender; other categories pass any gender filter. */
  predicate GenderAgnostic(p: Product) {
    p.category != "Camisetas" && p.category != "Cal\U{E7}as"
  }

  /** The gender filter: everything for "Todos", otherwise products of that gender or of a category without gender. */
  function ByGender(products: seq<Product>, gender: string): (r: seq<Product>)
    ensures IsSublist(r, products)
    ensures gender == "Todos" ==> r == products
    ensures gender != "Todos" ==> forall p :: p in r <==> p in products && (p.gender == Some(gender) || GenderAgnostic(p))
  {
    IsSublistReflexive(products);
    if gender == "Todos" then products else Keep(products, (p: Product) => p.gender == Some(gender) || GenderAgnostic(p))
  }

  /** `selectedGender && selectedCategory`: the grid is shown once both have been chosen. */
  predicate ShowProducts(gender: string, category: string) {
    gender != "" && category != ""
  }

  /** Both selections start empty. */
  const InitialGender: string := ""
  const InitialCategory: string := ""

  /** The product grid: `None` while a choice is missing, else the doubly filtered catalogue. */
  function VisibleProducts(products: seq<Product>, gender: string, category: string): (r: Option<seq<Product>>)
    ensures r.Some? <==> gender != "" && category != ""
    ensures r.Some? ==> IsSublist(r.value, products)
    ensures r.Some? && gender != "Todos" && category != "Todos" ==> forall p :: p in r.value <==>
      p in products && p.category == category && (p.gender == Some(gender) || GenderAgnostic(p))
  {
    if ShowProducts(gender, category) then
      var byCategory := ByCategory(products, category);
      var both := ByGender(byCategory, gender);
      IsSublistTransitive(both, byCategory, products);
      Some(both)
    else None
  }

  /** Nothing is shown before the shopper has picked a gender and a category. */
  lemma NothingShownInitially(products: seq<Product>)
    ensures VisibleProducts(products, InitialGender, InitialCategory) == None
  {
  }

  lemma {:induction false} IsSublistReflexive<T>(a: seq<T>)
    ensures IsSublist(a, a)
    decreases |a|
  {
    if a != [] {
      IsSublistReflexive(a[1..]);
    }
  }

  lemma {:induction false} IsSublistTransitive<T>(a: seq<T>, b: seq<T>, c: seq<T>)
    requires IsSublist(a, b) && IsSublist(b, c)
    ensures IsSublist(a, c)
    decreases |c|
  {
    if a != [] && b != [] && c != [] {
      if b[0] == c[0] && IsSublist(b[1..], c[1..]) {
        if a[0] == b[0] && IsSublist(a[1..], b[1..]) {
          IsSublistTransitive(a[1..], b[1..], c[1..]);
        } else {
          IsSublistTransitive(a, b[1..], c[1..]);
        }
      } else {
        IsSublistTransitive(a, b, c[1..]);
      }
    }
  }
}
