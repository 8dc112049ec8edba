/**
  What the page handlers hand to the application store. The store's reducer
  is not part of this model: handlers are specified by the actions they emit
  and the route they navigate to, never by what the store does with them.
 */
module Store {
  import opened Types

  datatype Action =
    | AddToCart(product: Product, quantity: int)
    | RemoveFromCart(itemId: string)
    | UpdateCartQuantity(itemId: string, quantity: int)
    | AddToWishlist(product: Product)
    | RemoveFromWishlist(productId: string)
    | Logout

  /** Navigation targets named by the handlers. A search carries the raw
      query; its URL encoding is not modelled. */
  datatype Route = Root | LoginPage | ProfilePage | ProductSearch(query: string)

  /** The effects of one user event: the actions dispatched, in order, then
      at most one navigation. */
  datatype Response = Response(actions: seq<Action>, navigate: Option<Route>)
}
