/**
  The product detail page: the lookup by route id, the quantity selector,
  the add-to-cart and wishlist handlers, and the related-products strip.
 */
module ProductDetail {
  import opened Types
  import opened Store
  import Seqs
  import ProductCard

  function HasId(id: string): Product -> bool
  {
    (p: Product) => p.id == id
  }

  /** `products.find(p => p.id === id)`: the first catalogue product with the
      route's id; `None` renders the not-found view. */
  function FindProduct(catalogue: seq<Product>, id: string): (r: Option<Product>)
    ensures r.None? <==> forall j :: 0 <= j < |catalogue| ==> catalogue[j].id != id
    ensures r.Some? ==> r.value.id == id && exists i :: Seqs.IsFirstMatch(catalogue, HasId(id), i) && catalogue[i] == r.value
  {
    Seqs.Find(catalogue, HasId(id))
  }

  /** The rating stars and the discount slot of the detail page, which use the
      card's rules; the slot's guard is the same `originalPrice && (...)`. */
  datatype Highlights = Highlights(stars: seq<bool>, badge: ProductCard.BadgeSlot)

  function ProductHighlights(product: Product): (r: Highlights)
    ensures |r.stars| == 5
    ensures forall i :: 0 <= i < 5 ==> (r.stars[i] <==> i < product.rating.Floor)
    ensures r.badge.Badge? <==> ProductCard.DiscountBadge(product).Some?
    ensures r.badge.Badge? ==> r.badge.percent == ProductCard.DiscountBadge(product).value
    ensures r.badge.StrayText? <==> product.originalPrice == Some(0)
  {
    Highlights(ProductCard.StarRow(product.rating), ProductCard.BadgeSlotAsWritten(product))
  }

  /** The selector's starting quantity. */
  const InitialQuantity: int := 1

  /** Minus: `Math.max(1, quantity - 1)`, never below 1. */
  function Decrement(quantity: int): (r: int)
    ensures r >= 1
    ensures quantity >= 2 ==> r == quantity - 1
    ensures quantity <= 2 ==> r == 1
  {
    if quantity - 1 >= 1 then quantity - 1 else 1
  }

  /** Plus: one more, with no upper bound. */
  function Increment(quantity: int): int
  {
    quantity + 1
  }

  datatype Press = Minus | Plus

  function ApplyPresses(quantity: int, presses: seq<Press>): int
    decreases |presses|
  {
    if |presses| == 0 then quantity
    else
      var q := if presses[0] == Minus then Decrement(quantity) else Increment(quantity);
      ApplyPresses(q, presses[1..])
  }

  /** From the initial quantity, any run of presses leaves a quantity of at
      least 1 and at most one more per press. Minus undoes plus. */
  lemma {:induction false} SelectorStaysPositive(quantity: int, presses: seq<Press>)
    requires quantity >= InitialQuantity
    ensures 1 <= ApplyPresses(quantity, presses) <= quantity + |presses|
    ensures Decrement(Increment(quantity)) == quantity
    decreases |presses|
  {
    if |presses| > 0 {
      var q := if presses[0] == Minus then Decrement(quantity) else Increment(quantity);
      SelectorStaysPositive(q, presses[1..]);
    }
  }

  /** The add-to-cart button: disabled when out of stock; otherwise adds the
      selected quantity of this product, exactly. */
  function ClickAddToCart(product: Product, quantity: int): (r: seq<Action>)
    ensures |r| <= 1
    ensures |r| == 1 <==> product.inStock
    ensures |r| == 1 ==> r[0] == AddToCart(product, quantity)
  {
    if product.inStock then [AddToCart(product, quantity)] else []
  }

  /** The detail page's wishlist button follows the card's rule. */
  function HandleToggleWishlist(wishlist: seq<WishlistItem>, product: Product): (r: Action)
    ensures r == RemoveFromWishlist(product.id) <==> exists i :: 0 <= i < |wishlist| && wishlist[i].product.id == product.id
    ensures r == AddToWishlist(product) <==> forall i :: 0 <= i < |wishlist| ==> wishlist[i].product.id != product.id
  {
    ProductCard.HandleToggleWishlist(wishlist, product)
  }

  function IsRelated(product: Product): Product -> bool
  {
    (p: Product) => p.category == product.category && p.id != product.id
  }

  /** Up to four other products of the same category, in catalogue order. */
  function RelatedProducts(catalogue: seq<Product>, product: Product): (r: seq<Product>)
    ensures |r| <= 4
    ensures forall i :: 0 <= i < |r| ==> r[i] in catalogue && r[i].category == product.category && r[i].id != product.id
    ensures r <= Seqs.Filter(catalogue, IsRelated(product))
    ensures |r| == Seqs.Min(4, |Seqs.Filter(catalogue, IsRelated(product))|)
  {
    Seqs.Take(Seqs.Filter(catalogue, IsRelated(product)), 4)
  }

  /** With at most four candidates, every one of them is shown; and
      products appended to the catalogue never displace earlier ones. */
  lemma RelatedProductsComplete(catalogue: seq<Product>, more: seq<Product>, product: Product)
    ensures |Seqs.Filter(catalogue, IsRelated(product))| <= 4 ==>
      forall p :: p in catalogue && p.category == product.category && p.id != product.id ==> p in RelatedProducts(catalogue, product)
    ensures RelatedProducts(catalogue, product) <= RelatedProducts(catalogue + more, product)
  {
    Seqs.FilterAppend(catalogue, more, IsRelated(product));
    if |Seqs.Filter(catalogue, IsRelated(product))| <= 4 {
      forall p | p in catalogue && p.category == product.category && p.id != product.id
        ensures p in RelatedProducts(catalogue, product)
      {
        var i :| 0 <= i < |catalogue| && catalogue[i] == p;
        assert IsRelated(product)(catalogue[i]);
      }
    }
  }
}
