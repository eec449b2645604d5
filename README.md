# Shake & Sip storefront: the shopping session

This project models the shopping-session state of the Shake & Sip cocktail-kit
storefront, a single-page React app. All of that state lives in the `App`
component of `index.tsx`. It consists of:

- the static catalog of five kits (`PRODUCTS`);
- the cart, an ordered list of `{product, quantity}` lines;
- the wishlist, a list of product ids;
- the order history, most recent first;
- the search box text.

Two derived values are read off the cart: `cartCount`, the number of items, and
`cartTotal`, the sum of price × quantity. The home page lists `filteredProducts`,
the catalog entries whose names contain the search text when case is ignored.

The actions each pass an updater `prev => ...` to a state setter:

- `addToCart` adds one of a product;
- `removeFromCart` drops a product's line;
- `updateQuantity` changes a line by a delta, never going below 1;
- `toggleWishlist` flips an id's membership in the wishlist;
- `handleCheckout` turns the cart into a "Paid" order at the head of the history and empties the cart.

The model follows that split:

- Each updater is a pure function: `Cart.AddLine`, `Cart.RemoveLine`,
  `Cart.Adjust`, `Wishlist.Toggle` and `Orders.NewOrder`.
- The session is a class, `Storefront.Session`. Its fields are the `useState`
  variables. Each action is a method that overwrites its field with the
  updater's result.
- Each method keeps the class invariant `Valid()`:
  - at most one cart line per product id;
  - every cart line holds a catalog product;
  - every quantity at least 1;
  - a duplicate-free wishlist;
  - every recorded order is a well-formed snapshot whose total is its sum of price × quantity.

Files:

- `wrappers.dfy`: `Option`, the result of `Array.prototype.find`.
- `text.dfy`: ASCII `toLowerCase`, `String.prototype.includes` with an
  independent "occurs at position i" definition, and the decimal rendering of
  the order number.
- `sequences.dfy`: the "is a subsequence of" relation used to state order preservation.
- `catalog.dfy`: `Product`, the five catalog entries, and the search filter.
- `cart.dfy`: cart lines, the three cart updaters, the `reduce` folds for
  count and total, the cart invariants and their lemmas.
- `wishlist.dfy`: the wishlist toggle.
- `orders.dfy`: the order record and its id format.
- `session.dfy`: the `Session` class, and a client method `CheckoutExample`. It
  checks that two Bacardi kits and one orange kit cost 2 × 1150 + 850 = 3150, and
  that checkout records an order of 3150 with both lines and empties the cart.

Prices, quantities and deltas are integers. Every catalog price is a whole
number, and the cart page passes deltas of -1 and +1 only. `cartCount` and
`cartTotal` are modelled as the left-to-right fold that `reduce` performs
(`Cart.SumFrom`). Its contract proves that fold equal to a plain recursive sum
(`Cart.Sum`), and every other property is stated against that sum.

The model follows the code where a design-level description could be read
differently. `addToCart` increments every line that carries the product's id,
because it uses `prev.map`. `removeFromCart` drops every such line, because it
uses `prev.filter`. Under the invariant there is at most one such line, so both
agree with the one-line reading. Checkout has no guard against an empty cart:
it records a "Paid" order with no items and total 0.

## Model

| member | source | states |
|---|---|---|
| `Text.LowerChar` | index.tsx:95 | ASCII case folding: the result is never an upper-case letter; an upper-case letter moves up by 32 code points; every other character is unchanged |
| `Text.ToLower` | index.tsx:95 | `toLowerCase` keeps the length and folds each character independently |
| `Text.ToLowerIdempotent` | index.tsx:95 | lower-casing an already lower-cased string changes nothing |
| `Text.ContainsIff` | index.tsx:95 | `includes` (prefix of some suffix) holds exactly when the query occurs at some position of the text, both directions |
| `Text.Contains` | index.tsx:95 | `includes` holds for the empty query, and only when the query is no longer than the text |
| `Text.ContainsChar` | index.tsx:95 | every character of a contained query occurs in the text |
| `Text.Decimal` | index.tsx:129 | the rendering of a number is a non-empty string of digits |
| `Text.DecimalRoundTrip` | index.tsx:129 | reading the rendered digits back gives the number |
| `Text.DecimalLength` | index.tsx:129 | a positive number with k decimal digits renders as exactly k characters |
| `Catalog.CatalogWellFormed` | index.tsx:20-56 | catalog ids are pairwise distinct and every price is positive |
| `Catalog.CatalogIdDetermines` | index.tsx:20-56 | two catalog entries with the same id are the same entry |
| `Catalog.Matches` | index.tsx:95 | the filter callback accepts every product for an empty query, and only queries no longer than the product's name |
| `Catalog.Filter` | index.tsx:94-96 | a product is in the result exactly when it is in the list and its lower-cased name contains the lower-cased query |
| `Catalog.FilterKeepsOrder` | index.tsx:94-96 | the filtered list is a subsequence of the catalog, so catalog order is kept |
| `Catalog.FilterEmptyQuery` | index.tsx:94-96 | an empty query returns the whole list unchanged |
| `Catalog.NoVodka` | index.tsx:95 | a name without the letter v, in either case, does not match "vodka" |
| `Catalog.CranberryMatchesVodka` | index.tsx:37 | the cranberry kit's lower-cased name contains "vodka" |
| `Catalog.FilterVodka` | index.tsx:94-96 | searching "vodka" returns exactly the cranberry vodka kit |
| `Cart.Find` | index.tsx:101 | `find` returns a line exactly when some line has the id; the line has that id and no earlier line does |
| `Cart.Increment` | index.tsx:103 | the mapped cart has the same length, and each line gains one if it has the id and is unchanged otherwise |
| `Cart.AddLine` | index.tsx:100-106 | with a line for the product's id, the cart keeps its length and every line with that id gains one while the others stay; without one, `{product, quantity: 1}` is appended at the end |
| `Cart.AddLineExisting` | index.tsx:101-103 | with one line per id, adding a product already present raises that line's quantity by exactly 1 and leaves the length and every other line unchanged |
| `Cart.AddLineKeepsWellFormed` | index.tsx:99-106 | adding keeps at most one line per id and every quantity at least 1 |
| `Cart.AddLineCountTotal` | index.tsx:91-106 | adding a product raises the item count by 1 and the total by the product's price |
| `Cart.CatalogPricesAgree` | index.tsx:20-56 | lines and a product taken from the catalog agree on the price of each id, which discharges the precondition of the total lemma |
| `Cart.AddLineKeepsCatalogLines` | index.tsx:99-106 | adding a catalog product keeps every cart line a catalog product |
| `Cart.RemoveAdjustKeepCatalogLines` | index.tsx:109-121 | removing a line and changing a quantity keep every cart line a catalog product |
| `Cart.AddRepeatedly` | index.tsx:99-106 | starting from an empty cart, n adds of one product leave exactly one line with quantity n |
| `Cart.RemoveLine` | index.tsx:110 | a line remains exactly when it was in the cart and has another id; no line with the id remains; the cart does not grow |
| `Cart.RemoveLineAbsent` | index.tsx:110 | removing an id that has no line leaves the cart unchanged |
| `Cart.RemoveLineKeepsOrder` | index.tsx:110 | the remaining lines keep their relative order |
| `Cart.RemoveLineAt` | index.tsx:110 | with one line per id, removing the id of line k yields the cart with exactly line k cut out |
| `Cart.RemoveLineCountTotal` | index.tsx:91-92 | removing line k takes its quantity off the count and its price × quantity off the total |
| `Cart.RemoveLineKeepsWellFormed` | index.tsx:110 | removing keeps at most one line per id and every quantity at least 1 |
| `Cart.Adjust` | index.tsx:114-120 | the mapped cart has the same length, and each line is clamp-adjusted if it has the id and unchanged otherwise |
| `Cart.AdjustClamps` | index.tsx:114-117 | the matching line keeps its product and gets `quantity + delta` when that is at least 1, and 1 otherwise; it is never removed |
| `Cart.AdjustOthers` | index.tsx:114-120 | lines for other ids are unchanged, and an absent id leaves the cart unchanged |
| `Cart.DecrementAtOne` | index.tsx:116 | decrementing a line whose quantity is 1 leaves the cart unchanged |
| `Cart.PlusOneIsIncrement` | index.tsx:103 | on a cart with positive quantities, a delta of +1 acts exactly as the increment of `addToCart` |
| `Cart.AdjustKeepsWellFormed` | index.tsx:114-120 | changing a quantity keeps at most one line per id and every quantity at least 1 |
| `Cart.SumFrom` | index.tsx:91-92 | the left-to-right `reduce` fold equals its starting value plus the recursive sum |
| `Cart.Count` | index.tsx:91 | `cartCount` is the sum of the quantities |
| `Cart.Total` | index.tsx:92 | `cartTotal` is the sum of price × quantity |
| `Cart.CountPositiveIffNonEmpty` | index.tsx:91 | with positive quantities the count is at least the number of lines, and positive exactly when the cart has lines |
| `Wishlist.Without` | index.tsx:124 | an id remains exactly when it was listed and differs from the removed id |
| `Wishlist.Toggle` | index.tsx:124 | toggling flips the membership of the id and of no other id |
| `Wishlist.ToggleAppends` | index.tsx:124 | an absent id is appended at the end |
| `Wishlist.WithoutAbsent` | index.tsx:124 | filtering out an unlisted id leaves the list unchanged |
| `Wishlist.ToggleTwice` | index.tsx:124 | toggling twice restores membership, and restores the exact list when the id was absent |
| `Wishlist.WithoutKeepsNoDuplicates` | index.tsx:124 | filtering keeps a duplicate-free list duplicate-free |
| `Wishlist.ToggleKeepsNoDuplicates` | index.tsx:124 | toggling keeps the wishlist free of duplicates |
| `Orders.OrderId` | index.tsx:129 | the id is "ORD-" and five digits, and those digits read back as the random roll plus 10000 |
| `Orders.NewOrder` | index.tsx:128-134 | the order's items are the cart, its total is the sum of price × quantity, its status is "Paid", its date is the given date and its id has the order-id format |
| `Orders.NewOrderRecorded` | index.tsx:127-134 | an order built from a well-formed cart is well formed and its total matches its items |
| `Storefront.Session.constructor` | index.tsx:84-88 | a fresh session has an empty cart, wishlist, history and search text, and satisfies the invariant |
| `Storefront.Session.CartCount` | index.tsx:91 | the derived count is the sum of quantities, and it is positive exactly when the cart has lines |
| `Storefront.Session.CartTotal` | index.tsx:92 | the derived total is the sum of price × quantity over the current cart |
| `Storefront.Session.FilteredProducts` | index.tsx:94-96 | exactly the catalog products matching the search text, in catalog order; the whole catalog when the text is empty |
| `Storefront.Session.SetSearchQuery` | index.tsx:87 | only the search text changes |
| `Storefront.Session.AddToCart` | index.tsx:99-107 | the cart becomes the add updater applied to the old cart, the item count rises by 1 and the total by the product's price, the invariant is kept, and the other fields are unchanged |
| `Storefront.Session.RemoveFromCart` | index.tsx:109-111 | the cart becomes the filter updater applied to the old cart, the invariant is kept, and the other fields are unchanged |
| `Storefront.Session.UpdateQuantity` | index.tsx:113-121 | the cart becomes the clamped map applied to the old cart, the invariant is kept, and the other fields are unchanged |
| `Storefront.Session.ToggleWishlist` | index.tsx:123-125 | the wishlist membership of the id flips, the wishlist stays duplicate-free, and the other fields are unchanged |
| `Storefront.Session.Checkout` | index.tsx:127-138 | exactly one order is prepended, holding the pre-checkout cart, its total and status "Paid"; earlier orders, the wishlist and the search text are unchanged; the cart is empty |

## Left out

- The JSX components (`Logo`, `Header`, `Sidebar`, `ProductCard`, the pages) are presentation only.
- framer-motion animation, the image `onError` fallback, `window.scrollTo` and `createRoot` are presentation only.
- The `page` state, including `setPage('success')` at the end of `handleCheckout`, is navigation with no invariant.
- `isMenuOpen` and `showContents` are menu and card toggles with no invariant.
- The mock sign-in and sign-out (`user`) is a stub that stores a fixed email.
- `Math.random` and `new Date().toLocaleDateString()` are nondeterministic or foreign calls. `Storefront.Session.Checkout` takes the rolled value `Math.floor(Math.random() * 90000)` and the date string as parameters.
- React scheduling is not modelled: batching, `useMemo` caching, and `handleCheckout` reading `cart` and `cartTotal` from the render closure. Each action reads and writes the current session state atomically.
- `toLowerCase` is modelled for ASCII letters only; full Unicode case mapping is not.
- JavaScript numbers are modelled as unbounded integers. Floating-point rounding and non-integer deltas are not modelled.
- Storefront.Session.SetSearchQuery: requires the object invariant `Valid()`, which the source does not state. The constructor establishes it and every action keeps it, so every reachable session satisfies it.
- Storefront.Session.AddToCart: requires the object invariant `Valid()`, which the source does not state. The constructor establishes it and every action keeps it, so every reachable session satisfies it. It also requires a catalog product. The only caller, the product card (index.tsx:288), passes an entry of `filteredProducts` (index.tsx:312).
- Storefront.Session.RemoveFromCart: requires the object invariant `Valid()`, which the source does not state. The constructor establishes it and every action keeps it, so every reachable session satisfies it.
- Storefront.Session.UpdateQuantity: requires the object invariant `Valid()`, which the source does not state. The constructor establishes it and every action keeps it, so every reachable session satisfies it.
- Storefront.Session.ToggleWishlist: requires the object invariant `Valid()`, which the source does not state. The constructor establishes it and every action keeps it, so every reachable session satisfies it.
- Storefront.Session.Checkout: requires the object invariant `Valid()`, which the source does not state. The constructor establishes it and every action keeps it, so every reachable session satisfies it.
- Cart.AddLineCountTotal requires that the lines for the product's id carry the product's price. Catalog products always do (`Cart.CatalogPricesAgree`), and `Storefront.Session.AddToCart` meets it because its invariant keeps every cart line a catalog product.
