/**
  The wishlist page: removal, moving an entry to the cart, the empty state
  and the disabled state of the cart button.
 */
module Wishlist {
  import opened Types
  import opened Store
  import Seqs
  import Text
  import ProductCard

  /** The remove button removes by the entry's product id, not its own id. */
  function RemoveClicked(item: WishlistItem): (r: Action)
    ensures r.RemoveFromWishlist? && r.productId == item.product.id
  {
    RemoveFromWishlist(item.product.id)
  }

  function HasProductId(productId: string): WishlistItem -> bool
  {
    (w: WishlistItem) => w.product.id == productId
  }

  /** Looks the product up in the wishlist and, only if it is there, adds one
      unit of the first matching entry's product to the cart. */
  function AddToCartFromWishlist(wishlist: seq<WishlistItem>, productId: string): (r: seq<Action>)
    ensures |r| <= 1
    ensures |r| == 0 <==> !ProductCard.IsInWishlist(wishlist, productId)
    ensures |r| == 1 ==> r[0].AddToCart? && r[0].quantity == 1 && r[0].product.id == productId
    ensures |r| == 1 ==> exists i :: Seqs.IsFirstMatch(wishlist, HasProductId(productId), i) && r[0].product == wishlist[i].product
  {
    match Seqs.Find(wishlist, HasProductId(productId))
    case None => []
    case Some(item) => [AddToCart(item.product, 1)]
  }

  /** What the wishlist page renders: the empty state, or the entries with a
      count label and, per entry, the badge and the cart button's state. */
  datatype EntryView = EntryView(badge: ProductCard.BadgeSlot, addDisabled: bool)

  datatype WishlistView = EmptyWishlist | Entries(countLabel: string, entries: seq<EntryView>)

  /** One card, with the badge guard as written: `originalPrice && (...)`,
      which shows a stray "0" for an original price of 0. */
  function Entry(item: WishlistItem): EntryView
  {
    EntryView(ProductCard.BadgeSlotAsWritten(item.product), !item.product.inStock)
  }

  function WishlistPage(wishlist: seq<WishlistItem>): (r: WishlistView)
    ensures r.EmptyWishlist? <==> |wishlist| == 0
    ensures r.Entries? ==> (r.countLabel == "items" <==> |wishlist| > 1)
    ensures r.Entries? ==> |r.entries| == |wishlist| && forall i :: 0 <= i < |wishlist| ==>
      && (r.entries[i].addDisabled <==> !wishlist[i].product.inStock)
      && (r.entries[i].badge.Badge? <==> ProductCard.DiscountBadge(wishlist[i].product).Some?)
      && (r.entries[i].badge.StrayText? <==> wishlist[i].product.originalPrice == Some(0))
  {
    if |wishlist| == 0 then EmptyWishlist
    else Entries(Text.ItemNoun(|wishlist|), seq(|wishlist|, i requires 0 <= i < |wishlist| => Entry(wishlist[i])))
  }

  /** Each card's badge is the intended one exactly when its product's
      original price is not 0; at 0 the card shows the stray "0". */
  lemma EntriesAgreeOffZero(wishlist: seq<WishlistItem>)
    requires |wishlist| > 0
    ensures forall i :: 0 <= i < |wishlist| ==>
      ((WishlistPage(wishlist).entries[i].badge == ProductCard.BadgeSlotIntended(wishlist[i].product))
       <==> (wishlist[i].product.originalPrice != Some(0)))
  {
  }
}
