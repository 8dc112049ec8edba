/**
  The site header: the search form, the cart and wishlist badges, and the
  account link.
 */
module Header {
  import opened Types
  import opened Store
  import Seqs
  import Text

  /** What submitting the search form leaves behind: where it navigated, if
      anywhere, and the query box's new contents. */
  datatype SearchOutcome = SearchOutcome(navigate: Option<Route>, query: string)

  /** A query that is blank after trimming does nothing; any other query
      navigates to the product search with the query as typed (untrimmed)
      and clears the box. */
  function HandleSearch(query: string): (r: SearchOutcome)
    ensures r.navigate.None? <==> forall i :: 0 <= i < |query| ==> Text.IsSpace(query[i])
    ensures r.navigate.None? ==> r.query == query
    ensures r.navigate.Some? ==> r.navigate.value == ProductSearch(query) && r.query == ""
  {
    Text.TrimEmptyIff(query);
    if Text.Trim(query) != [] then SearchOutcome(Some(ProductSearch(query)), "")
    else SearchOutcome(None, query)
  }

  /** Submitting twice in a row navigates at most once: the first search that
      navigates empties the box, so the second does nothing. */
  lemma SearchNavigatesOnce(query: string)
    ensures HandleSearch(query).navigate.Some? ==> HandleSearch(HandleSearch(query).query).navigate.None?
  {
  }

  function Quantity(item: CartItem): int
  {
    item.quantity
  }

  /** The cart badge count: the total of the rows' quantities. */
  function CartItemsCount(cart: seq<CartItem>): (r: int)
    ensures r == Seqs.Sum(cart, Quantity)
  {
    Seqs.Reduce(0, cart, Quantity)
  }

  /** The count is of units, not rows: with every quantity at least 1 it is at
      least the number of rows, so the badge shows exactly when the cart has
      a row; one row of three counts 3. */
  lemma CartCountCountsUnits(cart: seq<CartItem>, item: CartItem)
    requires forall i :: 0 <= i < |cart| ==> cart[i].quantity >= 1
    ensures CartItemsCount(cart) >= |cart|
    ensures CartBadge(cart).Some? <==> |cart| > 0
    ensures item.quantity == 3 ==> CartItemsCount([item]) == 3
  {
    Seqs.SumAtLeastLength(cart, Quantity);
    assert [item][..0] == [];
  }

  /** The badge: present exactly when the count is positive, showing it. */
  function CartBadge(cart: seq<CartItem>): (r: Option<int>)
    ensures r.Some? <==> Seqs.Sum(cart, Quantity) > 0
    ensures r.Some? ==> r.value == Seqs.Sum(cart, Quantity)
  {
    var count := CartItemsCount(cart);
    if count > 0 then Some(count) else None
  }

  /** The wishlist badge counts entries, and shows only when there are any. */
  function WishlistBadge(wishlist: seq<WishlistItem>): (r: Option<int>)
    ensures r.Some? <==> |wishlist| > 0
    ensures r.Some? ==> r.value == |wishlist|
  {
    var count := |wishlist|;
    if count > 0 then Some(count) else None
  }

  /** The account icon leads to the profile when signed in, else to login. */
  function AccountTarget(isAuthenticated: bool): (r: Route)
    ensures r == ProfilePage <==> isAuthenticated
    ensures r == LoginPage <==> !isAuthenticated
  {
    if isAuthenticated then ProfilePage else LoginPage
  }
}
