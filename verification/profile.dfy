/**
  The profile page: logout, the redirect for visitors who are not signed
  in, the wishlist preview and the order list's labels.
 */
module Profile {
  import opened Types
  import opened Store
  import Seqs
  import Text

  /** Logout dispatches exactly one action, `Logout`, then goes home. */
  function HandleLogout(): (r: Response)
    ensures r.actions == [Logout] && r.navigate == Some(Root)
  {
    Response([Logout], Some(Root))
  }

  /** A visitor who is not signed in is sent to login and sees nothing. */
  datatype ProfileView = Redirect(to: Route) | Account

  function ProfilePage(isAuthenticated: bool): (r: ProfileView)
    ensures r == Redirect(LoginPage) <==> !isAuthenticated
    ensures r == Account <==> isAuthenticated
  {
    if !isAuthenticated then Redirect(LoginPage) else Account
  }

  /** The wishlist tab previews the first six entries, in order. */
  function WishlistPreview(wishlist: seq<WishlistItem>): (r: seq<WishlistItem>)
    ensures |r| <= 6 && r <= wishlist
    ensures |wishlist| <= 6 ==> r == wishlist
    ensures |wishlist| > 6 ==> |r| == 6
  {
    Seqs.Take(wishlist, 6)
  }

  /** The status chip shows the status with its first letter upper-cased. */
  function StatusLabel(s: OrderStatus): (r: string)
    ensures |r| == |StatusName(s)| && r[1..] == StatusName(s)[1..]
    ensures 'A' <= r[0] <= 'Z' && r[0] as int == StatusName(s)[0] as int - 32
  {
    Text.Capitalize(StatusName(s))
  }

  /** Distinct statuses get distinct labels. */
  lemma StatusLabelsDistinct(s: OrderStatus, s': OrderStatus)
    ensures StatusLabel(s) == StatusLabel(s') ==> s == s'
    ensures StatusLabel(Pending) == "Pending" && StatusLabel(Cancelled) == "Cancelled"
  {
  }

  datatype Chip = Green | Blue | Yellow | Gray

  /** The chip colour: delivered green, shipped blue, processing yellow, and
      the other two (pending, cancelled) gray. */
  function StatusChip(s: OrderStatus): (r: Chip)
    ensures r == Gray <==> s == Pending || s == Cancelled
    ensures r == Green <==> s == Delivered
    ensures r == Blue <==> s == Shipped
    ensures r == Yellow <==> s == Processing
  {
    var name := StatusName(s);
    if name == "delivered" then Green
    else if name == "shipped" then Blue
    else if name == "processing" then Yellow
    else Gray
  }

  /** An order's line: its status label and "N item(s)". */
  function OrderCountNoun(order: Order): (r: string)
    ensures r == "items" <==> |order.items| != 1
    ensures r == "item" <==> |order.items| == 1
  {
    Text.ItemNoun(|order.items|)
  }
}
