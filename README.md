# Bloom & Co storefront: cart, catalogue and checkout state

This project models the state logic of the storefront script `app.js`. The storefront is a
client-only shop demo. Products come from a catalogue held in the browser's local storage. A
product's "Add" button appends one unit line to the stored cart, and the cart drawer groups those
lines by product and shows a total. Going to payment (`goToPayment`) stores a summary of the grouped cart, and
the payment page's demo method records a paid order and empties the cart.

Local storage is modelled as a typed store, not as JSON text. It has one field per key
(`bt_products`, `bt_cart`, `bt_checkout`, `bt_orders`, `bt_theme`), and each field is either absent
or holds its value. App.js treats an absent key one way (`|| '[]'`, `|| '{}'`, `|| 'light'`),
and `handlePay` deletes keys, so the model keeps absence distinct from an empty value.

Modules:

- `Options` (options.dfy): the optional value used for storage keys and lookups.
- `JsString` (jsstring.dfy): `trim` (the exact ECMAScript whitespace and line-terminator set),
  `toLowerCase` (ASCII letters) and `includes`.
- `Sequences` (sequences.dfy): `Array.prototype.filter` and the order-preserving sublist
  relation.
- `Catalog` (catalog.dfy): the product record, the sample catalogue, `find` by id, the
  tag/search filter and the stable price sort of `renderProducts`.
- `CartLines` (cartlines.dfy):
  - the cart line record and removal by id;
  - a reference definition of grouping (the distinct ids in first-line order, each entry being
    the first line with the quantities summed);
  - the source's two loops as methods proved equal to that definition: the dictionary fold and
    `Object.values`, then the running total;
  - facts about the grouped total.
- `Storefront` (storefront.dfy): the class `Shop`. Its fields are the storage keys plus the page
  state the script keeps: the cart badge, the `data-theme` attribute and the active tag. Its
  methods are the event handlers.

Inputs from the page are parameters:
- the search box text and the sort selector value;
- the `confirm` answer in `clearCart`;
- the payment form's method, name and email;
- `Date.now()` and the ISO creation time.

## Model

| member | source | states |
|---|---|---|
| JsString.TrimStart | app.js:64 | the result is a suffix of the input; only trimmable characters were dropped; it does not start with one |
| JsString.TrimEnd | app.js:64 | the result is a prefix of the input; only trimmable characters were dropped; it does not end with one |
| JsString.Trim | app.js:64 | `trim` drops the leading and then the trailing trimmable characters; what that leaves is stated by TrimStart, TrimEnd and TrimIsIdempotent |
| JsString.TrimIsIdempotent | app.js:64 | a trimmed string neither starts nor ends with whitespace, and trimming it again changes nothing |
| JsString.Lower | app.js:64 | lower-casing keeps the length and leaves no ASCII capital letter |
| JsString.Includes | app.js:69 | `includes` holds exactly when the query occurs in the string as a contiguous run of characters |
| Sequences.Filter | app.js:66-70 | filtering never lengthens the list |
| Sequences.FilterCounts | app.js:66-70 | the filtered list holds each element satisfying the condition exactly as often as the input does, and no other element |
| Sequences.FilterIsSubsequence | app.js:66-70 | the filtered list keeps its elements in their original relative order |
| Sequences.FilterIsIdempotent | app.js:210 | filtering twice by one condition equals filtering once |
| Sequences.FilterKeepsAll | app.js:66-68 | when every element passes, the whole list is kept |
| Sequences.FilterCons | app.js:66-70 | how filtering treats a list's first element |
| Catalog.FindProduct | app.js:132-134 | finds a product exactly when some product has the id; the result has that id and is the first such product in the list |
| Catalog.SampleIdsAreDistinct | app.js:9-18 | the seeded catalogue (the constant `SampleProducts`, copied field for field from `SAMPLE_PRODUCTS`) has eight products with distinct ids |
| Catalog.NormalizeQuery | app.js:64 | the query is the search text trimmed, then lower-cased |
| Catalog.Matches | app.js:66-70 | the filter callback: a tag other than `All` must be among the product's tags; an empty query then accepts; otherwise the query must occur in the lower-cased title or in some lower-cased tag |
| Catalog.SomeTagIncludes | app.js:69 | the `some` test over the product's tags: some tag, lower-cased, contains the query |
| Catalog.FilterProducts | app.js:66-70 | `raw.filter` with that callback; its contents and order are stated by FilterProductsSpec |
| Catalog.FilterProductsSpec | app.js:64-70 | the kept products form an order-preserving sublist holding exactly the matching products; a tag other than `All` is on every kept product; a non-empty trimmed lower-cased query is in every kept product's lower-cased title or in one of its lower-cased tags; `All` plus an empty query keeps everything |
| Catalog.Compare | app.js:71-72 | the two comparators: `a.price - b.price` for `low`, `b.price - a.price` for `high` |
| Catalog.Insert | app.js:71-72 | inserting adds exactly the one product to the multiset of products |
| Catalog.InsertKeepsOrder | app.js:71-72 | inserting into a price-ordered list keeps it price-ordered |
| Catalog.SortByPrice | app.js:71-72 | the result is a permutation of the input, ordered by non-decreasing price (`low`) or non-increasing price (`high`) |
| Catalog.AtPriceCons | app.js:71-72 | how the products of one price are picked from a list's first element |
| Catalog.InsertIsStable | app.js:71-72 | inserting a product before equal-priced ones keeps the order within each price |
| Catalog.SortIsStable | app.js:71-72 | the sort is stable: the products of each price keep their filtered order |
| Catalog.VisibleProducts | app.js:62-72 | the grid is the filtered list, sorted by price for `low` and `high` and left in catalogue order otherwise; stated by VisibleProductsOrder |
| Catalog.VisibleProductsOrder | app.js:62-72 | `low` gives a non-decreasing permutation of the filtered list; `high` gives a non-increasing one; any other sort value leaves the filtered order unchanged |
| CartLines.LineFor | app.js:137 | the line `addToCart` pushes: the product's id, title, price and image with qty 1 |
| CartLines.RemoveId | app.js:210 | `cart.filter(i => i.id !== id)`; stated by RemoveIdSpec |
| CartLines.RemoveIdSpec | app.js:207-211 | no line for the id remains; every other line is kept as often as before and in its relative order; removing the same id twice equals removing it once |
| CartLines.RemoveKeepsCatalogue | app.js:207-211 | removing lines keeps every remaining line a line made from the catalogue |
| CartLines.FirstIndex | app.js:182 | the position of the first line for an id, and that line carries the id |
| CartLines.FirstIndexIsFirst | app.js:182 | no line before that position is for the id |
| CartLines.HasIdAt | app.js:181-182 | an id has a group exactly when some line carries it |
| CartLines.Ids | app.js:180-184 | the grouped ids are exactly the ids of the cart's lines |
| CartLines.IdsInFirstLineOrder | app.js:180-186 | each id is listed once, in the order of its first line (insertion order of the dictionary's keys) |
| CartLines.QtyOfAbsent | app.js:183 | a product with no line has summed quantity 0 |
| CartLines.QtyOf | app.js:182-183 | the quantity `grouped[id].qty` reaches: the seed 0 plus the qty of every line for the id; QtyOfAbsent covers an id with no line |
| CartLines.GroupedSpec | app.js:180-184 | one entry per distinct id; entries in first-occurrence order; each entry is the first line for its id (title, price, image) with the quantities of all that id's lines summed, and no earlier line has the id |
| CartLines.Entry | app.js:182-183 | `grouped[id]` after the fold: the first line for the id with its summed quantity; stated by GroupedSpec and EntrySnoc |
| CartLines.Grouped | app.js:180-186 | the reference grouping: the entry of every distinct id in first-line order; stated by GroupedSpec and computed by GroupById |
| CartLines.EntrySnoc | app.js:181-184 | one more line either adds its quantity to the entry for its id or starts that entry as a copy of itself |
| CartLines.FoldStep | app.js:181-184 | one iteration of the `forEach` body keeps the dictionary equal to the grouping of the lines seen so far |
| CartLines.FoldedValues | app.js:186 | reading the dictionary's values in key insertion order yields the grouping |
| CartLines.GroupById | app.js:180-186 | the dictionary fold followed by `Object.values` returns exactly the reference grouping, for any lines |
| CartLines.TotalOf | app.js:185-201 | the running `total += price * qty` over the entries equals their sum of price times quantity |
| CartLines.Amount | app.js:185-201 | the reference total: the sum of price times quantity; computed by TotalOf |
| CartLines.EmptyCartTotal | app.js:173-175 | an empty cart gives no entries and total 0 |
| CartLines.GroupedPair | app.js:180-184 | two lines for one product group into one entry, the first line with the quantities added; adding a product twice shows quantity 2 |
| CartLines.AmountUpdate | app.js:201 | replacing one entry changes the total by the difference of the two entries' price times quantity |
| CartLines.GroupedSnoc | app.js:181-184 | grouping one more line either appends it as a new entry or adds its quantity to the existing entry for its id |
| CartLines.AmountAddToEntry | app.js:183 | adding units at the entry's own price raises the total by that price times the units |
| CartLines.UniformPrefix | app.js:182 | a cart whose lines share one price per product still does so without its last line |
| CartLines.GroupedAmountMatchesLines | app.js:180-201 | when all lines for a product share a price, the grouped total equals the sum of price times quantity over the lines |
| CartLines.FirstPriceIsCharged | app.js:182 | the price used is the first line's: two single-unit lines for one product at different prices are charged twice the first price, not the sum of the line prices |
| CartLines.CatalogueTotal | app.js:131-138 | lines made by `addToCart` from the catalogue share a price per product, so the grouped total is the line sum |
| Storefront.Decimal | app.js:267 | `Date.now()` becomes a non-empty string of decimal digits in the order id |
| Storefront.DecimalIsNumeral | app.js:267 | those digits are the decimal numeral of the timestamp: they denote it and have no leading zero |
| Storefront.ThemeOr | app.js:25-31 | the stored or shown theme with a `'light'` default: an absent or empty theme reads as `light`, and the result is never empty |
| Storefront.NextTheme | app.js:30-32 | the next theme is `light` or `dark` and differs from the current one; it is `light` exactly when the current one is `dark` |
| Storefront.ToggleTwiceRestores | app.js:30-36 | toggling twice from `light` or `dark` returns to it |
| Storefront.Shop.Products | app.js:63 | the stored catalogue, or none when the key is absent |
| Storefront.Shop.Cart | app.js:39 | `getCart`: the stored lines, or none when the key is absent |
| Storefront.Shop.Load | app.js:20-21 | page load seeds the catalogue and an empty cart when their keys are absent and leaves the other keys alone; a first visit starts with a catalogue-consistent cart. It also starts with tag `All` (line 55) and, as the load handler does (lines 298-301), refreshes the badge and shows the stored theme |
| Storefront.Shop.InitTheme | app.js:24-29 | the shown theme is the stored one, `light` when absent or empty |
| Storefront.Shop.ToggleTheme | app.js:30-36 | the stored and shown theme both become the opposite of the theme shown before |
| Storefront.Shop.RenderProducts | app.js:62-72 | the grid is the catalogue filtered by the active tag and normalised query, with the chosen price sort applied |
| Storefront.Shop.ApplyTag | app.js:56-60 | sets the active tag and returns the grid for the new tag |
| Storefront.Shop.UpdateCartCount | app.js:41-45 | the badge shows the number of cart lines, not the summed quantity |
| Storefront.Shop.SaveCart | app.js:40 | stores exactly the given lines and the badge shows their number |
| Storefront.Shop.AddToCart | app.js:131-141 | known id: appends exactly one line with the product's id, title, price and image and qty 1, earlier lines unchanged, badge one higher; unknown id: nothing changes; the cart stays catalogue-consistent |
| Storefront.Shop.RenderCart | app.js:169-205 | the drawer shows the grouped entries and their total, no entries and 0 for an empty cart, and the plain line sum for a catalogue-consistent cart; the badge is refreshed |
| Storefront.Shop.RemoveFromCart | app.js:207-213 | the stored cart becomes the old lines without that product's; the badge and drawer are refreshed; catalogue consistency is kept |
| Storefront.Shop.ClearCart | app.js:215-219 | unconfirmed: nothing changes; confirmed: the cart is stored empty, the badge shows 0 and the drawer shows no entries and total 0 |
| Storefront.Shop.GoToPayment | app.js:222-237 | an empty cart writes no summary; otherwise the summary is exactly the grouped entries and their total, which for a catalogue-consistent cart is the line sum |
| Storefront.Shop.HandlePay | app.js:253-295 | an empty trimmed name or email changes nothing; `demo` appends exactly one `paid` order with method `demo`, the checkout's total (0 if absent) and items (none if absent), earlier orders unchanged, and removes the cart and checkout keys; `stripe`, `razorpay` and other values change nothing |

## Left out

- Markup and the DOM: the card, modal and drawer templates, `viewProductModal`, `closeModal`, `openCart`, `closeCart`, `scrollTo` and `renderOrderSummary` only present state the model already computes.
- `toast` and its `setTimeout` removal: timer-driven presentation.
- `alert` messages and `location.href` redirects: browser I/O. The `confirm` answer in `clearCart` is a parameter.
- `initSite` and the `DOMContentLoaded` handler: `Shop.Load` covers their badge and theme steps. `renderProducts` is modelled on its own.
- The `product` query parameter read with `URLSearchParams`: browser glue that only opens the modal.
- JSON parsing and serialisation: the store is typed, so malformed stored text is not modelled. In app.js `JSON.parse` would throw on it, and the handler would stop before any write.
- Several tabs writing the same storage: the script has no coordination, and the model has one sequential owner.
- JsString.Lower: only ASCII letters are folded. JavaScript's `toLowerCase` folds all of Unicode, so searches using non-ASCII capitals are not modelled.
- Prices and quantities are unbounded integers. JavaScript numbers are doubles, so fractional prices, NaN totals (`checkout.total || 0`) and rounding are not modelled.
- CartLines.GroupById: keys `Object.values` lists first are not modelled. Integer-like keys such as `"1"` come before the other keys in numeric order. Names inherited from `Object.prototype` (`"constructor"`, `"__proto__"`) make `!grouped[id]` false. The model assumes the catalogue's `p…`-style ids and gives the insertion order for all ids.
- Catalog.SortByPrice: the model is one particular stable sort. Its stability and price order are proved; the claim that every stable sort gives the same list is not.
- Storefront.Shop.HandlePay: `event.preventDefault()` and the final `return false` have no state effect. The badge is not refreshed after the cart key is removed, as in the source.
- The image-URL validation with a timeout fallback, found in other revisions of the script, is not in app.js and is not part of this model.
