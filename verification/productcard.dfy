/**
  The product card: wishlist membership, the add-to-cart and wishlist-toggle
  handlers, the discount badge and the star rating. The product detail and
  wishlist pages reuse the membership test, the toggle rule and the badge.
 */
module ProductCard {
  import opened Types
  import opened Store
  import Seqs

  /** Whether the wishlist already holds a product with this id. */
  function IsInWishlist(wishlist: seq<WishlistItem>, productId: string): (r: bool)
    ensures r <==> exists i :: 0 <= i < |wishlist| && wishlist[i].product.id == productId
  {
    Seqs.Any(wishlist, (w: WishlistItem) => w.product.id == productId)
  }

  /** The card's cart button adds one unit of its product. */
  function HandleAddToCart(product: Product): (r: Action)
    ensures r.AddToCart? && r.product == product && r.quantity == 1
  {
    AddToCart(product, 1)
  }

  /** The heart button: removes the product (by product id) when it is
      listed, adds it when it is not; so it never adds a listed product. */
  function HandleToggleWishlist(wishlist: seq<WishlistItem>, product: Product): (r: Action)
    ensures r.RemoveFromWishlist? || r.AddToWishlist?
    ensures r == RemoveFromWishlist(product.id) <==> IsInWishlist(wishlist, product.id)
    ensures r == AddToWishlist(product) <==> !IsInWishlist(wishlist, product.id)
    ensures r.AddToWishlist? ==> forall i :: 0 <= i < |wishlist| ==> wishlist[i].product.id != product.id
  {
    if IsInWishlist(wishlist, product.id) then RemoveFromWishlist(product.id)
    else AddToWishlist(product)
  }

  function ProductIds(wishlist: seq<WishlistItem>): (r: seq<string>)
    ensures |r| == |wishlist|
    ensures forall i :: 0 <= i < |r| ==> r[i] == wishlist[i].product.id
  {
    if |wishlist| == 0 then [] else ProductIds(wishlist[..|wishlist| - 1]) + [wishlist[|wishlist| - 1].product.id]
  }

  /** The toggle is what keeps the wishlist free of duplicates: when the
      listed product ids are distinct and the toggle adds, the added id is
      new, so the ids with it appended are still distinct. */
  lemma ToggleKeepsIdsDistinct(wishlist: seq<WishlistItem>, product: Product)
    requires Seqs.Distinct(ProductIds(wishlist))
    ensures HandleToggleWishlist(wishlist, product).AddToWishlist? ==>
      Seqs.Distinct(ProductIds(wishlist) + [product.id])
  {
  }

  /** `Math.round`: the integer nearest to `x`, halves rounding up. */
  function Round(x: real): (r: int)
    ensures x - 0.5 < r as real <= x + 0.5
  {
    (x + 0.5).Floor
  }

  /** The percentage off: `round((originalPrice - price) / originalPrice * 100)`. */
  function DiscountPercent(price: int, originalPrice: int): (r: int)
    requires originalPrice != 0
    ensures 0 <= price <= originalPrice ==> 0 <= r <= 100
  {
    var x := (originalPrice - price) as real / originalPrice as real * 100.0;
    assert 0 <= price <= originalPrice ==> 0.0 <= x <= 100.0 by {
      if 0 <= price <= originalPrice {
        assert (originalPrice - price) as real <= originalPrice as real;
      }
    }
    Round(x)
  }

  /** For a positive original price the percentage is the integer quotient
      (200 * (op - p) + op) div (2 * op), with no real arithmetic. */
  lemma DiscountIntegerFormula(price: int, originalPrice: int)
    requires originalPrice > 0
    ensures DiscountPercent(price, originalPrice)
      == (200 * (originalPrice - price) + originalPrice) / (2 * originalPrice)
  {
    var n := 200 * (originalPrice - price) + originalPrice;
    var d := 2 * originalPrice;
    var k := n / d;
    var x := (originalPrice - price) as real / originalPrice as real * 100.0;
    var a := (originalPrice - price) as real;
    var o := originalPrice as real;
    assert n as real == 200.0 * a + o;
    assert d as real == 2.0 * o;
    assert (x + 0.5) * (2.0 * o) == 200.0 * a + o;
    QuotientUnique(x + 0.5, n as real, d as real);
    assert k * d <= n < k * d + d;
    assert (k * d) as real <= n as real < (k * d + d) as real;
    assert k as real <= n as real / d as real < (k + 1) as real;
  }

  lemma QuotientUnique(y: real, num: real, den: real)
    requires den != 0.0 && y * den == num
    ensures y == num / den
  {
  }

  /** 800 instead of 1000 is 20% off. */
  lemma DiscountExample()
    ensures DiscountPercent(800, 1000) == 20
  {
  }

  /** The badge percentage: only when `originalPrice` is present and truthy,
      that is non-zero, so the division is always defined. */
  function DiscountBadge(p: Product): (r: Option<int>)
    ensures r.Some? <==> p.originalPrice.Some? && p.originalPrice.value != 0
    ensures r.Some? ==> r.value == DiscountPercent(p.price, p.originalPrice.value)
  {
    match p.originalPrice
    case None => None
    case Some(op) => if op != 0 then Some(DiscountPercent(p.price, op)) else None
  }

  /** What occupies the badge position of a card. */
  datatype BadgeSlot = NoBadge | StrayText(text: string) | Badge(percent: int)

  /** The JSX `{product.originalPrice && (<badge/>)}` as written: when the
      original price is 0 the expression evaluates to the number 0, which
      React renders as the text "0". */
  function BadgeSlotAsWritten(p: Product): (r: BadgeSlot)
    ensures r.StrayText? <==> p.originalPrice == Some(0)
    ensures r.Badge? ==> Some(r.percent) == DiscountBadge(p)
  {
    match p.originalPrice
    case None => NoBadge
    case Some(op) => if op == 0 then StrayText("0") else Badge(DiscountPercent(p.price, op))
  }

  /** A product whose original price is 0 shows a stray "0" in place of a badge. */
  lemma StrayZeroExample(p: Product)
    requires p.originalPrice == Some(0)
    ensures BadgeSlotAsWritten(p) == StrayText("0")
  {
  }

  /** The evidently intended slot: a badge exactly when the guard passes,
      otherwise nothing, and never stray text. */
  function BadgeSlotIntended(p: Product): (r: BadgeSlot)
    ensures !r.StrayText?
    ensures r.Badge? <==> DiscountBadge(p).Some?
    ensures r.Badge? ==> r.percent == DiscountBadge(p).value
  {
    match DiscountBadge(p)
    case None => NoBadge
    case Some(d) => Badge(d)
  }

  /** The two slots differ only on an original price of 0. */
  lemma BadgeSlotsAgreeOffZero(p: Product)
    ensures p.originalPrice != Some(0) <==> BadgeSlotAsWritten(p) == BadgeSlotIntended(p)
  {
  }

  /** Star `i` (of 0..4) is filled when `i < n`. */
  function Stars(count: nat, n: int): (r: seq<bool>)
    ensures |r| == count
    ensures forall i :: 0 <= i < count ==> (r[i] <==> i < n)
  {
    if count == 0 then [] else Stars(count - 1, n) + [count - 1 < n]
  }

  function CountFilled(s: seq<bool>): nat
  {
    if |s| == 0 then 0 else CountFilled(s[..|s| - 1]) + (if s[|s| - 1] then 1 else 0)
  }

  function Clamp(x: int, lo: int, hi: int): int
  {
    if x < lo then lo else if x > hi then hi else x
  }

  lemma {:induction false} CountStars(count: nat, n: int)
    ensures CountFilled(Stars(count, n)) == Clamp(n, 0, count)
  {
    if count > 0 {
      var s := Stars(count, n);
      assert s[..count - 1] == Stars(count - 1, n);
      CountStars(count - 1, n);
    }
  }

  /** The five rating stars: star `i` is filled when `i < floor(rating)`. */
  function StarRow(rating: real): (r: seq<bool>)
    ensures |r| == 5
    ensures forall i :: 0 <= i < 5 ==> (r[i] <==> i < rating.Floor)
  {
    Stars(5, rating.Floor)
  }

  /** The number of filled stars is floor(rating) clamped to 0..5. */
  function FilledStars(rating: real): (r: nat)
    ensures r == Clamp(rating.Floor, 0, 5)
    ensures 0.0 <= rating <= 5.0 ==> r as real <= rating < r as real + 1.0 || r == 5
  {
    CountStars(5, rating.Floor);
    CountFilled(StarRow(rating))
  }
}
