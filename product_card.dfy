/**
 * A product card of the catalogue grid (src/components/ProductCard.tsx): the image list with its
 * fallback, the carousel index moved by the arrows and the dots, the initially selected size, and
 * the add-to-cart button.
 */
module ProductCard {
  import opened Wrappers
  import opened Storefront

  /** `product.images || [product.image]`: an image list, even an empty one, is truthy and wins. */
  function Images(p: Product): (imgs: seq<string>)
    ensures p.images.None? ==> imgs == [p.image]
    ensures p.images.Some? ==> imgs == p.images.value
  {
    if p.images.Some? then p.images.value else [p.image]
  }

  /** Arrows and dots are shown only for more than one image. */
  predicate HasMultipleImages(imgs: seq<string>) {
    |imgs| > 1
  }

  /** JavaScript's `a % n` for `n > 0`: the remainder takes the sign of `a`. */
  function JsRem(a: int, n: int): (r: int)
    requires n > 0
    ensures a >= 0 ==> r == a % n
    ensures -n < r < n
  {
    if a >= 0 then a % n else -((-a) % n)
  }

  /** `(prev + 1) % images.length`: one image on, wrapping from the last to the first. */
  function Next(i: int, n: int): (r: int)
    requires n >= 1
    ensures 0 <= i < n ==> r == if i == n - 1 then 0 else i + 1
  {
    JsRem(i + 1, n)
  }

  /** `(prev - 1 + images.length) % images.length`: one image back, wrapping from the first to the last. */
  function Prev(i: int, n: int): (r: int)
    requires n >= 1
    ensures 0 <= i < n ==> r == if i == 0 then n - 1 else i - 1
  {
    JsRem(i - 1 + n, n)
  }

  /** The arrows never leave the image list. */
  lemma ArrowsStayInRange(i: int, n: int)
    requires 0 <= i < n
    ensures 0 <= Next(i, n) < n && 0 <= Prev(i, n) < n
  {
  }

  /** Back then forward, or forward then back, returns to the same image. */
  lemma PrevNextInverse(i: int, n: int)
    requires 0 <= i < n
    ensures Prev(Next(i, n), n) == i
    ensures Next(Prev(i, n), n) == i
  {
  }

  /** `k` presses of the next arrow. */
  function Advance(i: int, n: int, k: nat): int
    requires n >= 1
  {
    if k == 0 then i else Next(Advance(i, n, k - 1), n)
  }

  /** Before the last image is reached, `k` presses of the next arrow move exactly `k` images on. */
  lemma {:induction false} AdvanceLinear(i: int, n: int, k: nat)
    requires 0 <= i && i + k < n
    ensures Advance(i, n, k) == i + k
  {
    if k > 0 {
      AdvanceLinear(i, n, k - 1);
    }
  }

  /** Pressing `a` times and then `b` times is pressing `a + b` times. */
  lemma {:induction false} AdvanceCompose(i: int, n: int, a: nat, b: nat)
    requires n >= 1
    ensures Advance(i, n, a + b) == Advance(Advance(i, n, a), n, b)
  {
    if b > 0 {
      AdvanceCompose(i, n, a, b - 1);
    }
  }

  /** Pressing the next arrow once per image comes back to the starting image. */
  lemma FullCycle(i: int, n: int)
    requires 0 <= i < n
    ensures Advance(i, n, n) == i
  {
    AdvanceLinear(i, n, n - 1 - i);
    assert Advance(i, n, n - i) == 0;
    AdvanceLinear(0, n, i);
    AdvanceCompose(i, n, n - i, i);
  }

  /** With one image the arrows would not move. */
  lemma SingleImage()
    ensures Next(0, 1) == 0 && Prev(0, 1) == 0
  {
  }

  // ================================================================ the card's state

  /** `selectedSize`, `isAdded` and `currentImageIndex`. A product without sizes has no selected size. */
  datatype CardState = CardState(selectedSize: Option<string>, isAdded: bool, index: int)

  /** The card starts on the first image with the first size selected. */
  function Initial(p: Product): (s: CardState)
    ensures s.index == 0 && !s.isAdded
    ensures |p.sizes| > 0 ==> s.selectedSize == Some(p.sizes[0])
    ensures |p.sizes| == 0 ==> s.selectedSize == None
  {
    CardState(if |p.sizes| > 0 then Some(p.sizes[0]) else None, false, 0)
  }

  /** The carousel events. */
  datatype Click = NextArrow | PrevArrow | Dot(k: int)

  /** The index after a click; arrows and dots act only when they are shown, and a dot selects its own image. */
  function Clicked(s: CardState, imgs: seq<string>, c: Click): (t: CardState)
    ensures t.selectedSize == s.selectedSize && t.isAdded == s.isAdded
    ensures !HasMultipleImages(imgs) ==> t == s
    ensures HasMultipleImages(imgs) && c.Dot? ==> t.index == c.k
  {
    match c
    case NextArrow => if HasMultipleImages(imgs) then s.(index := Next(s.index, |imgs|)) else s
    case PrevArrow => if HasMultipleImages(imgs) then s.(index := Prev(s.index, |imgs|)) else s
    case Dot(k) => if HasMultipleImages(imgs) then s.(index := k) else s
  }

  /** Only the dots the card draws can be clicked: one per image. */
  predicate ValidClick(imgs: seq<string>, c: Click) {
    c.Dot? ==> 0 <= c.k < |imgs|
  }

  /** The shown image is always one of the product's images, from the first render through any clicks. */
  lemma IndexStaysInRange(p: Product, s: CardState, c: Click)
    requires |Images(p)| >= 1 && 0 <= s.index < |Images(p)| && ValidClick(Images(p), c)
    ensures 0 <= Clicked(s, Images(p), c).index < |Images(p)|
  {
    if HasMultipleImages(Images(p)) {
      ArrowsStayInRange(s.index, |Images(p)|);
    }
  }

  /** `handleAddToCart`: the product goes to the cart with the selected size and the card shows it was added. */
  function AddClicked(p: Product, s: CardState): (r: (Product, Option<string>, CardState))
    ensures r.0 == p && r.1 == s.selectedSize
    ensures r.2.isAdded && r.2.index == s.index && r.2.selectedSize == s.selectedSize
  {
    (p, s.selectedSize, s.(isAdded := true))
  }
}
