# Furniture storefront: client-side commerce logic

A Dafny model of the decisions a React furniture storefront makes inside its
page handlers. The model covers:

- the cart page's order summary: subtotal, the free-shipping threshold, 18% GST and the total;
- the cart's +/- and remove buttons;
- the header's search guard, badges and account link;
- the product card's and detail page's wishlist toggle, add-to-cart, discount badge and stars;
- the detail page's product lookup, quantity selector and related products;
- the wishlist page's lookup-then-add-to-cart, cart-button state and discount badges;
- the home page's featured and trending selections and category grid;
- the profile page's logout, redirect, wishlist preview and order labels.

Each handler is a pure function. It returns the store `Action`s it dispatches,
and the `Route` it navigates to where it navigates. The store's reducer is not
modelled. No contract says what the store does with an action.

The records of `src/types/index.ts` are datatypes in `types.dfy`:

- On `Product`, only `originalPrice`, `features` and `dimensions` are `Option`s. Every other field is always present.
- A `CartItem` has its own `id` besides its `product`.
- An `Order` holds a list of `CartItem`s and a status. The status is one of exactly five constructors.
- A `User` holds lists of `Address`es and `Order`s.

Prices, quantities and review counts are `int`. The rating is an exact `real`.
Tax and total are exact `real`s: `0.18` is exactly 18/100.

`Math.round` is modelled as floor(x + 1/2) on the exact quotient. For a
positive original price, the discount is also proved equal to an integer-only
formula. The source divides in floating point, so at exact halves it can
round down where the model rounds up (see "## Left out").

Array operations are modelled in `seqs.dfy`:

- `reduce` is a left fold, proved equal to a reference sum.
- `filter` is proved to commute with concatenation, so it keeps catalogue order.
- `find` is specified as the first match, and `some` as "find finds something".

The product card's cart button has no `disabled` attribute. The model therefore
emits the add for an out-of-stock product too. The detail and wishlist pages
disable their buttons when the product is out of stock.

`String.prototype.trim` strips the ECMAScript white-space and line-terminator
code points.

The code only tests that `originalPrice` is truthy: present and non-zero. A
negative original price still gets a badge. The model follows the code.

## Model

| member | source | states |
|---|---|---|
| Types.ParseStatus | src/types/index.ts:36 | only the five status literals are accepted, and an accepted literal names the status it was read as |
| Types.StatusNameRoundTrip | src/types/index.ts:36 | each status reads back from its literal, and distinct statuses have distinct literals |
| Seqs.Reduce | src/pages/Cart.tsx:25 | the front-to-back `reduce` from an accumulator equals the accumulator plus the reference sum |
| Seqs.Filter | src/pages/ProductDetail.tsx:273 | the filter keeps exactly the elements satisfying the predicate and never grows the list |
| Seqs.FilterAppend | src/pages/ProductDetail.tsx:273 | filtering a concatenation is concatenating the filtered parts, so the order of the input is kept |
| Seqs.Take | src/pages/ProductDetail.tsx:274 | `slice(0, n)` is a prefix of length min(n, length) |
| Seqs.FirstIndex | src/pages/ProductDetail.tsx:15 | the returned position holds a match with no match before it; none is returned only when nothing matches |
| Seqs.Find | src/pages/Wishlist.tsx:17 | `find` returns the element at the first matching position, and returns nothing exactly when no element matches |
| Seqs.Any | src/components/Product/ProductCard.tsx:16 | `some` holds exactly when some position matches |
| Seqs.AnyIffFound | src/components/Product/ProductCard.tsx:16 | `some` holds exactly when `find` returns an element |
| Text.TrimStart | src/components/Layout/Header.tsx:15 | leading white space is dropped: the result is a suffix that starts with a non-space, and all that was dropped was space |
| Text.TrimEnd | src/components/Layout/Header.tsx:15 | trailing white space is dropped: the result is a prefix that ends with a non-space, and all that was dropped was space |
| Text.TrimEmptyIff | src/components/Layout/Header.tsx:15 | a string trims to empty exactly when every character is white space |
| Text.Capitalize | src/pages/Profile.tsx:172 | the first character is upper-cased and the rest is unchanged, length kept |
| Text.ItemNoun | src/pages/Profile.tsx:177 | the noun is "item" with an "s" added exactly when the count is not 1 |
| Cart.Subtotal | src/pages/Cart.tsx:25 | the subtotal is the sum of price times quantity over the cart's rows |
| Cart.SubtotalOfRows | src/pages/Cart.tsx:25 | the empty cart's subtotal is 0, and appending a row adds its price times quantity |
| Cart.SubtotalNonNegative | src/pages/Cart.tsx:25 | non-negative prices and quantities give a non-negative subtotal |
| Cart.Shipping | src/pages/Cart.tsx:26 | shipping is free exactly when the subtotal is strictly above 10000, and otherwise the fee is 500 |
| Cart.ShippingAtThreshold | src/pages/Cart.tsx:26 | a subtotal of exactly 10000 still pays 500; 10001 ships free |
| Cart.Tax | src/pages/Cart.tsx:27 | the tax is exactly 18/100 of the subtotal |
| Cart.OrderSummary | src/pages/Cart.tsx:25-28 | the summary's subtotal is the reference sum, shipping obeys the threshold, tax is 18% and the total is their sum |
| Cart.TotalFormula | src/pages/Cart.tsx:26-28 | the total is 1.18 times the subtotal, plus 500 when the subtotal is at most 10000 |
| Cart.SummaryExample | src/pages/Cart.tsx:25-28 | items priced 6000 and 5000 give subtotal 11000, free shipping, tax 1980 and total 12980 |
| Cart.FreeShippingGap | src/pages/Cart.tsx:176-178 | the hint appears exactly when shipping is charged; its amount is non-negative and brings the subtotal to 10000 |
| Cart.FreeShippingGapBounded | src/pages/Cart.tsx:176-178 | with non-negative prices and quantities, the hinted amount is between 0 and 10000 |
| Cart.CartPage | src/pages/Cart.tsx:30-62 | the empty view shows exactly when the cart has no rows; otherwise the summary and hint are shown, and the label says "items" exactly when there is more than one row |
| Cart.UpdateQuantity | src/pages/Cart.tsx:11-18 | a quantity of 0 or less emits only a removal, and any other quantity an update to that quantity; either keeps the row's id, and no update asks for less than 1 |
| Cart.RemoveItem | src/pages/Cart.tsx:20-23 | the trash button emits a removal keyed by the cart row's id |
| Cart.QuantityButtons | src/pages/Cart.tsx:108-115 | minus on a row of one removes it, and on a larger row it decrements; plus emits the quantity plus one |
| Header.HandleSearch | src/components/Layout/Header.tsx:13-19 | an all-white-space query does nothing and keeps the box; any other query navigates to the search with the query as typed and empties the box |
| Header.SearchNavigatesOnce | src/components/Layout/Header.tsx:13-19 | a second submit right after a search that navigated does nothing |
| Header.CartItemsCount | src/components/Layout/Header.tsx:21 | the cart count is the sum of the rows' quantities |
| Header.CartCountCountsUnits | src/components/Layout/Header.tsx:21 | with positive quantities, the count is at least the number of rows and the badge shows exactly when the cart has a row; one row of three counts 3 |
| Header.CartBadge | src/components/Layout/Header.tsx:82-91 | the badge shows exactly when the quantity total is positive, and shows that total |
| Header.WishlistBadge | src/components/Layout/Header.tsx:96-105 | the wishlist badge shows the number of entries, and only when there is at least one |
| Header.AccountTarget | src/components/Layout/Header.tsx:108 | the account icon leads to the profile exactly when signed in, and to login exactly when not |
| ProductCard.IsInWishlist | src/components/Product/ProductCard.tsx:16 | membership holds exactly when some entry's product id equals the product's id |
| ProductCard.HandleAddToCart | src/components/Product/ProductCard.tsx:18-22 | the card's cart button adds exactly one unit of its product |
| ProductCard.HandleToggleWishlist | src/components/Product/ProductCard.tsx:24-33 | a listed product is removed by its product id and an unlisted one is added; an add is never emitted for a listed product |
| ProductCard.ToggleKeepsIdsDistinct | src/components/Product/ProductCard.tsx:24-33 | if the listed product ids are distinct and the toggle adds, they stay distinct with the new id appended |
| ProductCard.Round | src/components/Product/ProductCard.tsx:54 | `Math.round` gives the integer within one half of its argument, halves going up |
| ProductCard.DiscountPercent | src/components/Product/ProductCard.tsx:54 | for a price between 0 and the original price, the percentage off is in 0..100 |
| ProductCard.DiscountIntegerFormula | src/components/Product/ProductCard.tsx:54 | for a positive original price, the rounded percentage equals (200(op - p) + op) div (2 op) |
| ProductCard.DiscountExample | src/components/Product/ProductCard.tsx:54 | price 800 with original price 1000 is 20% off |
| ProductCard.DiscountBadge | src/components/Product/ProductCard.tsx:52-54 | a percentage is computed exactly when the original price is present and non-zero, so there is never a division by zero |
| ProductCard.BadgeSlotAsWritten | src/components/Product/ProductCard.tsx:52-56 | as written, the badge position shows the text "0" exactly when the original price is 0 |
| ProductCard.StrayZeroExample | src/components/Product/ProductCard.tsx:52 | every product with original price 0 shows the stray "0" |
| ProductCard.BadgeSlotIntended | src/components/Product/ProductCard.tsx:52-56 | the intended slot never shows stray text, and shows a badge exactly when the guard passes |
| ProductCard.BadgeSlotsAgreeOffZero | src/components/Product/ProductCard.tsx:52 | the as-written and intended slots agree exactly when the original price is not 0 |
| ProductCard.StarRow | src/components/Product/ProductCard.tsx:100-104 | there are five stars, and star i is filled exactly when i is below floor(rating) |
| ProductCard.FilledStars | src/components/Product/ProductCard.tsx:100-104 | the number of filled stars is floor(rating) clamped to 0..5 |
| ProductDetail.FindProduct | src/pages/ProductDetail.tsx:15-28 | the lookup returns the first catalogue product with the route id; the not-found view shows exactly when no product has it |
| ProductDetail.ProductHighlights | src/pages/ProductDetail.tsx:130-151 | the detail page shows five stars, star i filled exactly when i is below floor(rating); its discount slot shows the card's percentage exactly when the guard passes, and a stray "0" exactly when the original price is 0 |
| ProductDetail.Decrement | src/pages/ProductDetail.tsx:188 | minus never goes below 1, and it decrements whenever the quantity is at least 2 |
| ProductDetail.SelectorStaysPositive | src/pages/ProductDetail.tsx:12-195 | from 1, any run of presses keeps the quantity between 1 and one more per press; minus undoes plus |
| ProductDetail.ClickAddToCart | src/pages/ProductDetail.tsx:33-36 | the enabled button adds exactly the selected quantity of the product; the button is disabled out of stock, so nothing is emitted then |
| ProductDetail.HandleToggleWishlist | src/pages/ProductDetail.tsx:38-46 | the detail page follows the card's rule: remove by product id when listed, add when not |
| ProductDetail.RelatedProducts | src/pages/ProductDetail.tsx:272-274 | at most four catalogue products of the same category other than the product itself, a prefix of the catalogue-ordered candidates |
| ProductDetail.RelatedProductsComplete | src/pages/ProductDetail.tsx:272-274 | with at most four candidates all are shown; products appended to the catalogue never displace earlier picks |
| Wishlist.RemoveClicked | src/pages/Wishlist.tsx:80 | removal is keyed by the entry's product id, not by the entry's own id |
| Wishlist.AddToCartFromWishlist | src/pages/Wishlist.tsx:16-22 | one unit of the first matching entry's product is added when the product is listed; nothing is emitted otherwise |
| Wishlist.WishlistPage | src/pages/Wishlist.tsx:24-119 | the empty view shows exactly when the wishlist is empty; otherwise each entry's cart button is disabled exactly when out of stock, its badge shows exactly when the guard passes, and a stray "0" shows exactly when the original price is 0 |
| Wishlist.EntriesAgreeOffZero | src/pages/Wishlist.tsx:86-90 | each wishlist card's badge slot equals the intended slot exactly when its product's original price is not 0 |
| Home.FeaturedProducts | src/pages/Home.tsx:9 | the featured products are the first min(6, n) catalogue products, in order |
| Home.TrendingProducts | src/pages/Home.tsx:10 | at most four catalogue products, each rated at least 4.7, taken in catalogue order |
| Home.TrendingOrder | src/pages/Home.tsx:10 | products later in the catalogue never displace four earlier trending picks; with at most four candidates, all of them trend |
| Home.CategoryGrid | src/pages/Home.tsx:84 | the grid shows every category except the first, in order |
| Home.CategoryImageId | src/pages/Home.tsx:98-113 | the picture id agrees with the fixed table for the six named categories, and is 1148955 for any other id |
| Profile.HandleLogout | src/pages/Profile.tsx:13-17 | logout emits exactly one action, Logout, then navigates to the root |
| Profile.ProfilePage | src/pages/Profile.tsx:19-22 | a visitor who is not signed in is redirected to login and sees no account page |
| Profile.WishlistPreview | src/pages/Profile.tsx:208 | the preview is a prefix of the wishlist: all of it when it has at most six entries, else the first six |
| Profile.StatusLabel | src/pages/Profile.tsx:172 | the label is the status literal with its first letter upper-cased |
| Profile.StatusLabelsDistinct | src/pages/Profile.tsx:172 | distinct statuses get distinct labels, e.g. "Pending" and "Cancelled" |
| Profile.StatusChip | src/pages/Profile.tsx:166-171 | the chip is green exactly for delivered, blue exactly for shipped, yellow exactly for processing, and gray exactly for pending and cancelled |
| Profile.OrderCountNoun | src/pages/Profile.tsx:177 | an order with exactly one row is labelled "item", and any other count "items" |

## Findings

| source | as written | input that shows it | evidently intended | confidence | as-written member | corrected member |
|---|---|---|---|---|---|---|
| src/pages/Wishlist.tsx:86 | `{item.product.originalPrice && (badge)}` evaluates to the number 0 when the original price is 0, and React renders that 0 as text | a wishlist entry whose product has `originalPrice` 0 | no badge and nothing rendered | medium, not executed | Wishlist.WishlistPage | ProductCard.BadgeSlotIntended |
| src/components/Product/ProductCard.tsx:52 | `{product.originalPrice && (badge)}` evaluates to the number 0 when the original price is 0, and React renders that 0 as text | a product whose `originalPrice` is 0 | no badge and nothing rendered | medium, not executed | ProductCard.BadgeSlotAsWritten | ProductCard.BadgeSlotIntended |

`ProductCard.StrayZeroExample` shows the stray "0" for every such product.
`ProductCard.BadgeSlotsAgreeOffZero` shows that the two slots differ only there.
`Wishlist.EntriesAgreeOffZero` shows the same for each wishlist card. The
detail page's slot (`ProductDetail.ProductHighlights`, ProductDetail.tsx:146)
is modelled as written too. The same `&&` guard also sits in front of the
struck-through price at ProductCard.tsx:114 and Wishlist.tsx:105.

## Left out

- The store reducer (`src/context/AppContext.tsx`) is not part of this model. Merging rows on add, wishlist uniqueness in the store and what logout resets are not modelled.
- Toast notifications, React hooks, state setters and re-rendering are UI plumbing. A navigation appears only as the `Route` it targets.
- `encodeURIComponent` is a library call. The search route carries the query as typed.
- `subtotal * 0.18` runs in floating point, and `toLocaleString` formats currency. The model uses exact arithmetic and no display formatting.
- Prices and quantities are JavaScript numbers. The model uses integers, so fractional prices are not modelled.
- ProductCard.DiscountPercent: computes the percentage on exact reals. The source computes `(op - p) / op * 100` in binary doubles, which can land just below a half and round down: for price 14300 and original price 20000 the page shows 28% where the model gives 29. The 0..100 bound and the integer formula are proved for the exact quotient only.
- Text.UpperChar: only upper-cases ASCII letters, not the full Unicode case mapping of `toUpperCase`. Every status literal is ASCII.
- Dates (`addedAt`, `orderDate`, `estimatedDelivery`, `toLocaleDateString`) are left out of the datatypes. Images, URIs, animations and markup are left out too.
- The detail page's image gallery (`selectedImage`), the profile page's tab switching, its settings toggles and its empty-orders message are presentation only.
- The login and registration pages and the `LOGIN`/`REGISTER` actions are outside the modelled pages.
- `src/App.tsx` (routes) and `src/components/Layout/Footer.tsx` (static links) are markup without logic.
- The static catalogue (`src/data/products.ts`) is not part of this model. The catalogue and the category list are inputs.
- Whether the card's "Out of Stock" overlay stops clicks on the card's buttons depends on layout, which is not modelled.
