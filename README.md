# Storefront core, modelled in Dafny

The system is a small print-on-demand storefront. A server-side proxy function
(`supabase/functions/printify-products/index.ts`) fetches the shop's products
from the upstream API and normalises each record into a storefront `Product`:
sizes come from variant titles, then the price, the enabled variants, the
primary image and the defaults. The browser app lists those products by
category, shows product cards and a product page, converts prices between
dollars and rupees, and keeps a cart. From the cart the visitor gets an order
message to paste into an Instagram DM.

One Dafny module per source file of the core, plus helper modules:

| module | file | models |
|---|---|---|
| `Wrappers` | wrappers.dfy | `Option` |
| `JsArray` | jsarray.dfy | `filter`, `find`, `map`, `indexOf`, the end index of `slice` |
| `JsString` | jsstring.dfy | `trim`, `split`, `join`, `includes`, ASCII case mapping, number to string, code-point string order |
| `Sorting` | sorting.dfy | a stable insertion sort over a three-way comparator, with its correctness lemmas |
| `Catalog` | catalog.dfy | the product normaliser of the proxy |
| `Proxy` | proxy.dfy | the proxy's request handler, a chain of early returns over abstracted upstream outcomes |
| `Cart` | cart.dfy | the cart context: a class holding the line items and the drawer flag |
| `Products` | products.dfy | keyword categorisation and lookup by id |
| `Grid` | grid.dfy | the product grid's filter, limit and render state |
| `Currency` | currency.dfy | the currency context: state, rate, conversion, formatting |
| `Drawer` | drawer.dfy | the cart drawer's order message and its quantity buttons |
| `Detail` | detail.dfy | the product page's state, guards, defaults, message, image and description |
| `Card` | card.dfy | the product card's link, rupee note and size summary |

Where the code works by updating things step by step, the model does the same:

- Size extraction (two nested `forEach` loops pushing onto an array) is a pair
  of methods with `while` loops. They are proved equal to the specification
  function `Catalog.KeepSizes`.
- The cart and the product page's selection state are classes. Each method's
  new state is a function of the old one.
- The drawer's message is built by appending in a loop. It is proved equal to
  `Drawer.OrderMessage`.

Everything else is pure functions with lemmas.

Prices are Dafny `real`s. Upstream prices are integer cents, so cents / 100 is
exact.

## Model

| member | source | states |
|---|---|---|
| Catalog.KeepSizes | supabase/functions/printify-products/index.ts:94-103 | the extracted sizes are exactly the segments that match the size pattern, and none appears twice |
| Catalog.CollectFromParts | supabase/functions/printify-products/index.ts:97-103 | the inner loop over one title's segments extends the extraction by exactly those trimmed segments |
| Catalog.CollectSizes | supabase/functions/printify-products/index.ts:94-104 | the nested loops compute `ExtractedSizes`; the result has no duplicates and holds a token iff it matches the pattern and is a trimmed segment of some variant title |
| Catalog.TokensMembers | supabase/functions/printify-products/index.ts:96-99 | a string is among the trimmed segments iff some variant's title yields it once split on " / " and trimmed |
| Catalog.SizeFromSegment | supabase/functions/printify-products/index.ts:93-103 | `t` is one of a product's sizes iff it matches the size pattern and some variant title yields it |
| Card.SizeTokenNoComma | supabase/functions/printify-products/index.ts:93 | nothing the size pattern accepts contains a comma |
| Catalog.SizeIndex | supabase/functions/printify-products/index.ts:107-110 | the index is -1 or a position in the canonical order; it is non-negative iff the upper-cased token is a canonical size, and then the canonical order holds that token at it |
| Catalog.CompareSizesFlip | supabase/functions/printify-products/index.ts:108-115 | swapping the operands flips the comparator's sign |
| Catalog.CompareSizesTrans | supabase/functions/printify-products/index.ts:108-115 | the comparator's "at most" is transitive across all three cases |
| Catalog.CompareSizesConsistent | supabase/functions/printify-products/index.ts:108-115 | the comparator is antisymmetric and transitive, which the sort needs |
| Catalog.SortSizesCorrect | supabase/functions/printify-products/index.ts:108-115 | sorting yields a permutation in comparator order, and keeps a list without repeats without repeats |
| Catalog.SortedSizesLayout | supabase/functions/printify-products/index.ts:109-114 | in a sorted list canonical sizes come first in canonical order, and the other tokens follow in string order |
| Catalog.SortExample | supabase/functions/printify-products/index.ts:107-115 | L, XS, M sorts to XS, M, L |
| Catalog.UpperIndex | supabase/functions/printify-products/index.ts:107-109 | an upper-case canonical size is found at its own position |
| Catalog.NormalizedSizes | supabase/functions/printify-products/index.ts:93-115 | a product's sizes are the matching segments, each once, sorted, and a permutation of the extraction |
| Catalog.NormalizedPrice | supabase/functions/printify-products/index.ts:118-120 | the price is the first enabled variant's cents / 100, and 0 when variants are missing or none is enabled |
| Catalog.PriceMatchesVariants | supabase/functions/printify-products/index.ts:118-120 | the price equals the first output variant's price, and is 0 when no variant survives |
| Catalog.VariantsConcat | supabase/functions/printify-products/index.ts:139-145 | the variant filter and map work element by element, preserving order |
| Catalog.VariantsSingle | supabase/functions/printify-products/index.ts:139-145 | one variant survives, converted to dollars, iff it is enabled; a missing list gives `[]` |
| Catalog.VariantsMembers | supabase/functions/printify-products/index.ts:139-145 | an output variant is the conversion of an enabled input variant, and every enabled one is present |
| Catalog.NormalizedPrimaryImage | supabase/functions/printify-products/index.ts:123-125 | the primary image is never empty; a missing or empty list gives the placeholder; the first default image's non-empty src wins; when no image is default or the first default's src is empty, it is the first image's src if that is non-empty and the placeholder otherwise |
| Catalog.NormalizedImages | supabase/functions/printify-products/index.ts:128 | images are the srcs in order; only a missing list becomes the placeholder list, and an empty list stays empty |
| Catalog.NormalizeProduct | supabase/functions/printify-products/index.ts:130-149 | id, title, visible and createdAt are copied; colors is always `[]`; description and tags default to "" and `[]` |
| Catalog.CentsExample | supabase/functions/printify-products/index.ts:120 | 1999 cents is 19.99 dollars |
| Sorting.SortSorted | supabase/functions/printify-products/index.ts:108 | with a consistent comparator, the sort's result is ordered |
| Sorting.SortDistinct | supabase/functions/printify-products/index.ts:108 | sorting a list without repeats gives a list without repeats |
| JsString.TrimIsCore | supabase/functions/printify-products/index.ts:99 | `trim` drops exactly the leading and trailing white space |
| Proxy.Serve | supabase/functions/printify-products/index.ts:16-165 | OPTIONS gets the CORS-only 200; every other response is JSON; every error body is one of the four client messages; the status is 200 iff there is no error, and otherwise 500 or 502 |
| Proxy.FromShops | supabase/functions/printify-products/index.ts:55-157 | after the shops: a JSON response whose status is 200 iff it carries a catalog and whose errors are client messages |
| Proxy.MissingTokenResponse | supabase/functions/printify-products/index.ts:25-31 | a missing or empty token gives the 500 configuration error, whatever upstream would say |
| Proxy.ShopsFailure | supabase/functions/printify-products/index.ts:43-50 | a non-ok shops call gives 502; a throwing one gives the 500 internal error |
| Proxy.EmptyShops | supabase/functions/printify-products/index.ts:55-61 | an empty shop list gives 200 with no products and a null shop id, and the products call is never consulted |
| Proxy.FirstShopOnly | supabase/functions/printify-products/index.ts:63-68 | only the first shop matters: the rest of the list and every other shop's products are ignored |
| Proxy.ProductsFailure | supabase/functions/printify-products/index.ts:77-87 | a non-ok products call gives 502; a throwing call or a `null` body gives the 500 internal error |
| Proxy.CatalogResponse | supabase/functions/printify-products/index.ts:86-157 | success returns every raw product normalised, in order, with the first shop's id; a missing `data` field gives `[]` |
| Proxy.NullShopsAsWritten | supabase/functions/printify-products/index.ts:52-55 | a `null` shops body ends in the 500 internal error, although an empty list gives the empty catalog |
| Proxy.ServeGuarded | supabase/functions/printify-products/index.ts:55-61 | the corrected handler agrees with the original on every input except a `null` shops body |
| Proxy.NullShopsGuarded | supabase/functions/printify-products/index.ts:55-61 | with the guard reached, a `null` shops body gives the same empty catalog as an empty list |
| Cart.CartStore.constructor | src/contexts/CartContext.tsx:30-31 | the cart starts empty and closed |
| Cart.CartStore.AddItem | src/contexts/CartContext.tsx:33-49 | the items become `Added(old items, item)`, the drawer opens, and ids stay unique and keyed |
| Cart.CartStore.RemoveItem | src/contexts/CartContext.tsx:51-54 | the items become `Removed(old items, id)`, the drawer flag is unchanged, and the invariant holds |
| Cart.CartStore.UpdateQuantity | src/contexts/CartContext.tsx:56-64 | the items become `Updated(old items, id, q)`, the drawer flag is unchanged, and the invariant holds |
| Cart.CartStore.ClearCart | src/contexts/CartContext.tsx:66-68 | the cart is left empty |
| Cart.CartStore.SetIsOpen | src/contexts/CartContext.tsx:31 | the drawer flag is set and the items are untouched |
| Cart.CartStore.Totals | src/contexts/CartContext.tsx:70-74 | one pass over the lines yields the left folds of the two `reduce` calls, `TotalItems` and `TotalPrice`, whose changes under each cart operation the lemmas below state |
| Cart.LineIdParts | src/contexts/CartContext.tsx:34 | a line id is the product id, "-", the size, "-", and the colour |
| Cart.AddedExisting | src/contexts/CartContext.tsx:37-43 | adding to an existing line raises its quantity by the item's, adds no line, and leaves every other line unchanged |
| Cart.AddedNew | src/contexts/CartContext.tsx:44-45 | adding an item with a new id appends exactly that line at the end |
| Cart.AddedKeeps | src/contexts/CartContext.tsx:33-46 | adding keeps ids unique and keyed, and keeps quantities positive when the added quantity is |
| Cart.RemovedKeeps | src/contexts/CartContext.tsx:52 | removing keeps ids unique and keyed and quantities positive |
| Cart.FilterUnique | src/contexts/CartContext.tsx:52 | filtering a list with unique ids keeps them unique |
| Cart.FilterEvery | src/contexts/CartContext.tsx:52 | filtering keeps the keying and the positivity of every line |
| Cart.SameKeysKeep | src/contexts/CartContext.tsx:40-42 | changing only quantities keeps ids unique and keyed |
| Cart.UpdatedKeeps | src/contexts/CartContext.tsx:56-64 | updating keeps ids unique and keyed, and keeps every quantity at least 1 |
| Cart.UpdateBelowOne | src/contexts/CartContext.tsx:57-60 | an update below 1 is exactly removal |
| Cart.UpdateSets | src/contexts/CartContext.tsx:61-63 | an update of at least 1 sets only that line's quantity |
| Cart.RemovedMembers | src/contexts/CartContext.tsx:52 | removal keeps exactly the lines with other ids, in order |
| Cart.RemoveUnknown | src/contexts/CartContext.tsx:52 | removing an unknown id changes nothing |
| Cart.TotalsAppend | src/contexts/CartContext.tsx:70-74 | both totals add up over concatenation |
| Cart.TotalsAddedNew | src/contexts/CartContext.tsx:70-74 | a new line adds its quantity to the count and its price times quantity to the total |
| Cart.TotalItemsBump | src/contexts/CartContext.tsx:40-42 | merging into the one line with that id raises the count by the merged quantity |
| Cart.TotalItemsAdded | src/contexts/CartContext.tsx:70 | any add raises the item count by the item's quantity |
| Cart.TotalsSplit | src/contexts/CartContext.tsx:70-74 | both totals split into the lines before `k`, the line at `k` and the lines after it |
| Cart.OneLineTotals | src/contexts/CartContext.tsx:70-74 | a map that changes only the line at `k` changes the count by that line's quantity difference and the total by its price difference |
| Cart.LinePriceBump | src/contexts/CartContext.tsx:41 | merging `q` more into a line makes its price higher by its unit price times `q` |
| Cart.LinePriceSet | src/contexts/CartContext.tsx:62 | a line set to quantity `q` costs its unit price times `q` |
| Cart.TotalsAddedExisting | src/contexts/CartContext.tsx:37-43 | merging into the existing line raises the count by the added quantity and replaces that line's price by the merged line's price |
| Cart.TotalsUpdated | src/contexts/CartContext.tsx:61-63 | setting a line to `q >= 1` changes the count by `q` less the old quantity and replaces that line's price by its price at `q` |
| Cart.RemovedAt | src/contexts/CartContext.tsx:52 | with unique ids, removing a line's id leaves exactly the lines before and after it, in order |
| Cart.TotalsRemoved | src/contexts/CartContext.tsx:52 | removing a line takes its quantity off the count and its price off the total |
| Cart.TotalsEmpty | src/contexts/CartContext.tsx:70-74 | an empty cart has 0 items and a total of 0 |
| Products.Categorize | src/hooks/useProducts.ts:62-80 | the category is always "caps", "clothes" or "others" |
| Products.CategorizeMeaning | src/hooks/useProducts.ts:66-79 | "caps" iff a lower-cased tag is cap/hat or the title contains either; "clothes" iff not caps and a clothes tag or title word matches; "others" otherwise |
| Products.CategorizeIgnoresCase | src/hooks/useProducts.ts:63-64 | lower-casing title and tags first changes no category |
| Products.SubstringExample | src/hooks/useProducts.ts:67 | the title test matches inside words: "Landscape Hoodie" is a cap |
| Products.LoweredTagsMeans | src/hooks/useProducts.ts:64 | a key is among the lower-cased tags iff some tag lower-cases to it |
| Products.FindProduct | src/hooks/useProducts.ts:53 | a product is found only in loaded data and has the id; nothing is found iff nothing is loaded or no product has the id |
| Products.FindProductFirst | src/hooks/useProducts.ts:53 | the product found is the first one with that id |
| Grid.Listing | src/components/ProductGrid.tsx:35-47 | the listing is no longer than the catalog, holds only catalog products, and only those of the chosen category |
| Grid.Render | src/components/ProductGrid.tsx:13-58 | loading shows 8 placeholders, then an error shows the failure, and cards are shown only for a non-empty listing of loaded data |
| Grid.ListingAll | src/components/ProductGrid.tsx:38-47 | with no category filter (none, "" or "all") and no limit (none or 0), every product is listed in order |
| Grid.ListingCategory | src/components/ProductGrid.tsx:38-41 | with a category, a product is listed iff it is in the catalog and in that category |
| Grid.ListingLimit | src/components/ProductGrid.tsx:44-47 | the limit slices the already filtered list as `slice(0, limit)` does; a positive limit keeps its first `limit` products |
| Grid.UnknownCategory | src/components/ProductGrid.tsx:38-41 | a category other than the three lists nothing |
| Grid.CategoriesPartition | src/components/ProductGrid.tsx:39-41 | the three category listings partition the catalog |
| Grid.CategoryListings | src/components/ProductGrid.tsx:38-41 | a category listing is the plain filter on that category |
| Grid.OfCategoryCons | src/components/ProductGrid.tsx:39-41 | the filter works product by product, in order |
| Grid.RenderLoaded | src/components/ProductGrid.tsx:49-58 | after loading without error, "No products found" is shown iff the listing is empty; missing data counts as empty |
| Currency.ConvertPrice | src/contexts/CurrencyContext.tsx:20-25 | identity for USD; multiplication by the rate 83 for INR |
| Currency.RoundHalfUp | src/contexts/CurrencyContext.tsx:30-32 | the rounded whole number lies within one half of the value |
| Currency.CurrencyState.constructor | src/contexts/CurrencyContext.tsx:18 | the currency starts as INR |
| Currency.CurrencyState.SetCurrency | src/contexts/CurrencyContext.tsx:18 | the currency becomes the chosen one |
| Currency.CurrencyState.Format | src/contexts/CurrencyContext.tsx:27-33 | the text reads as `PriceText` for the selected currency: "₹" and digits with commas spelling the price times 83 rounded half up, or "$" and dollars, a point and two decimals worth the price in cents rounded half up; a negative amount has a minus sign after the currency sign |
| Currency.FormatPriceShape | src/contexts/CurrencyContext.tsx:27-33 | `formatPrice` in either currency writes the text `PriceText` describes |
| Currency.DollarShape | src/contexts/CurrencyContext.tsx:32 | `toFixed(2)` of any amount is digits, a point and two digits worth its size in cents, after a minus sign when it is negative |
| Currency.RupeeShape | src/contexts/CurrencyContext.tsx:30 | the `en-IN` string of any amount is digits and commas spelling its size rounded, after a minus sign when it is negative |
| Currency.ToFixed2Value | src/contexts/CurrencyContext.tsx:32 | the dollar text is digits, a point and two digits whose value in cents is the price in cents rounded half up |
| Currency.TwoDigitsValue | src/contexts/CurrencyContext.tsx:32 | the two decimals are the last two digits of the cents |
| Currency.CentsExact | src/contexts/CurrencyContext.tsx:32 | a whole number of cents is written exactly |
| Currency.LocaleINRValue | src/contexts/CurrencyContext.tsx:30 | with the commas removed, the rupee text is the digits of the rounded price |
| Currency.GroupIndianDigits | src/contexts/CurrencyContext.tsx:30 | the Indian grouping only inserts commas into the digits |
| Currency.GroupPairsDigits | src/contexts/CurrencyContext.tsx:30 | grouping in pairs only inserts commas into the digits |
| Currency.GroupIndianTail | src/contexts/CurrencyContext.tsx:30 | above three digits, the last group is three digits after a comma |
| Currency.FormatExamples | src/contexts/CurrencyContext.tsx:27-33 | 19.99 dollars is "$19.99" in USD and "₹1,659" in INR |
| Drawer.GenerateOrderMessage | src/components/CartDrawer.tsx:14-29 | the loop builds exactly `OrderMessage(items, totalPriceUSD)` |
| Drawer.BlocksSnoc | src/components/CartDrawer.tsx:17-23 | each further line appends its own block, numbered by its position |
| Drawer.MessageFrame | src/components/CartDrawer.tsx:15-26 | the message opens with the greeting and ends with the total line and the closing request |
| Drawer.LineBlock | src/components/CartDrawer.tsx:17-23 | the k-th cart line's block sits between the blocks of the lines before it and after it |
| Drawer.BlockHeading | src/components/CartDrawer.tsx:18 | the k-th block opens with the number k + 1 and the item's title |
| Drawer.ColorLine | src/components/CartDrawer.tsx:20 | a block has a line starting "   Color: " iff the item's colour is non-empty |
| Drawer.BlockShape | src/components/CartDrawer.tsx:19-22 | a block has 5 lines with a colour and 4 without, and ends with the quantity line and the price-times-quantity line |
| Drawer.UsdPriceIsDollarFormat | src/components/CartDrawer.tsx:9 | the drawer's prices are the dollar format, whatever currency is selected |
| Drawer.PressMinus | src/components/CartDrawer.tsx:93 | minus is `updateQuantity(id, q - 1)` on the cart |
| Drawer.PressPlus | src/components/CartDrawer.tsx:102 | plus is `updateQuantity(id, q + 1)` on the cart |
| Drawer.PressRemove | src/components/CartDrawer.tsx:112 | the trash button removes the line |
| Drawer.MinusAtOne | src/components/CartDrawer.tsx:93 | minus on a quantity-1 line removes it |
| Drawer.ButtonsKeepPositive | src/components/CartDrawer.tsx:93-102 | plus and minus keep every quantity positive |
| Drawer.NumberedSplit | src/components/CartDrawer.tsx:17-23 | any one element's block sits between the blocks before and after it, numbered by its position |
| Detail.View | src/pages/ProductDetail.tsx:24-58 | loading iff the catalog loads; "not found" iff, after loading, there is an error or no product with the route id; a product shown is the one with that id |
| Detail.OrDefault | src/pages/ProductDetail.tsx:70-71 | an empty string gives way to the fallback, any other is kept |
| Detail.ItemFor | src/pages/ProductDetail.tsx:65-73 | the item copies id, title, primary image, price and quantity; size defaults to "One Size"; colour is kept |
| Detail.MainImage | src/pages/ProductDetail.tsx:102 | the active image when it exists and is non-empty, else the primary image |
| Detail.DetailPage.constructor | src/pages/ProductDetail.tsx:19-22 | nothing is selected, the quantity is 1 and the first image is active |
| Detail.DetailPage.SelectSize | src/pages/ProductDetail.tsx:157 | the size becomes the chosen one and nothing else changes |
| Detail.DetailPage.SelectColor | src/pages/ProductDetail.tsx:180 | the colour becomes the chosen one and nothing else changes |
| Detail.DetailPage.SelectImage | src/pages/ProductDetail.tsx:113 | the active image becomes the chosen one and nothing else changes |
| Detail.DetailPage.Decrement | src/pages/ProductDetail.tsx:202 | the quantity drops by one but not below 1 |
| Detail.DetailPage.Increment | src/pages/ProductDetail.tsx:210 | the quantity rises by one |
| Detail.DetailPage.AddToCart | src/pages/ProductDetail.tsx:60-74 | nothing changes while a size is needed; otherwise the defaulted item is added and the drawer opens |
| Detail.DetailPage.BuyNow | src/pages/ProductDetail.tsx:76-83 | while a size is needed the cart's items and drawer are unchanged; otherwise the item is added and the drawer opens; the buy-now message is returned either way |
| Detail.BuyNowColorLine | src/pages/ProductDetail.tsx:79 | the message has 9 lines with a colour and 8 without; the fifth line is a colour line iff a colour is selected |
| Detail.BuyNowPriceLine | src/pages/ProductDetail.tsx:79 | the price line is the price times the quantity in the selected currency; the title and the defaulted size are on their own lines |
| Detail.ShownDescription | src/pages/ProductDetail.tsx:141-145 | the paragraph is absent iff the description is empty; otherwise it is the description with its tags stripped, which has no `<` followed by a `>` |
| Detail.StripNoTagPair | src/pages/ProductDetail.tsx:143 | after stripping, no `<` is followed anywhere by a `>` |
| Detail.StripKeeps | src/pages/ProductDetail.tsx:143 | stripping introduces no character that was not in the text |
| Detail.StripPlain | src/pages/ProductDetail.tsx:143 | text with nothing to match is unchanged |
| Detail.StripUnchanged | src/pages/ProductDetail.tsx:143 | stripping leaves a text unchanged iff no `<` in it is followed by a `>` |
| Detail.StripIdempotent | src/pages/ProductDetail.tsx:143 | stripping twice is stripping once |
| Detail.StripKeepsFirst | src/pages/ProductDetail.tsx:143 | a character that is not `<` is kept |
| Detail.StripDropsTag | src/pages/ProductDetail.tsx:143 | a `<` is removed with everything up to the first `>` after it |
| Detail.StripExample | src/pages/ProductDetail.tsx:143 | "a<br>b" becomes "ab" |
| Card.ProductLink | src/components/ProductCard.tsx:16 | the link is "/product/" followed by the id, and the id can be read back from it |
| Card.CardPrice | src/components/ProductCard.tsx:42 | the card's price reads as `PriceText` for the selected currency: "₹" and the grouped rupee digits of the price times 83 rounded, or "$" and dollars and cents |
| Card.RateNote | src/components/ProductCard.tsx:44-48 | the rate note is shown iff the currency is INR |
| Card.MoreSuffix | src/components/ProductCard.tsx:52 | the suffix is present iff there are more than 4 sizes |
| Card.MoreCount | src/components/ProductCard.tsx:52 | the suffix's number is the count of sizes beyond the fourth |
| Card.SizeSummary | src/components/ProductCard.tsx:49-53 | the size line is absent iff there are no sizes; otherwise it is the list, then the suffix |
| Card.SizeListRoundTrip | src/components/ProductCard.tsx:51 | splitting the list at ", " gives back the first four sizes, or all when there are fewer |
| Card.CardSizes | src/components/ProductCard.tsx:49-53 | for a normalised product with sizes the line is shown, and its first four sizes can be read back from it |

## Left out

- Network and platform I/O are left out: `fetch`, `Deno.env`, `serve`, logging, and building a `Response` with its headers. The handler is a function of an `Upstream` value: the token, and what each upstream call produced. Every response, the OPTIONS answer included, carries the CORS headers, so the model does not record them; the `json` flag records whether the JSON content type is set next to them.
- The client's call of the proxy (`supabase.functions.invoke`) and react-query's caching and retries are left out. Loading, error and data are inputs of `Grid.Render` and `Detail.View`.
- Browser side effects are left out: toasts, `navigator.clipboard`, `window.open`, `alert`. The messages are returned as text.
- The `encodeURIComponent` / `decodeURIComponent` round trip of the drawer message is left out. The clipboard gets the plain text that `Drawer.OrderMessage` builds.
- JSX layout, CSS and animation are left out, apart from the conditions that choose what is shown.
- The presentational and routing files (`Header.tsx`, `Footer.tsx`, `Hero.tsx`, `CategorySection.tsx`, `FeaturedProducts.tsx`, `Index.tsx`, `CurrencySwitcher.tsx`, `Products.tsx`) are not part of this model.
- Currency.ToFixed2: computed on exact reals, rounding half up. The double-precision representation errors of `toFixed` are not modelled.
- Currency.LocaleINR: computed on exact reals, rounding half away from zero, with Indian digit grouping. Other locale data is not modelled.
- JsString.CompareStrings: stands in for `localeCompare` with plain code-point order. Locale collation is not modelled.
- JsString.ToUpper: maps ASCII letters only. This is exact for the size pattern, whose tokens are ASCII.
- Products.Categorize: lower-cases ASCII letters only, so non-ASCII case mapping in titles and tags is not modelled.
- Catalog.SortSizes: the sort is on values. JavaScript sorts the local `extractedSizes` array in place, and no other reference sees that array. The model's insertion sort is stable, as `Array.prototype.sort` is. So sizes that compare equal, like "s" and "S", keep their first-seen order.
- Catalog.NormalizeProduct: the raw record is a typed value. JSON bodies whose fields have other types, and exceptions inside normalisation, are not modelled. A `null` products body is modelled: it is the 500 internal error.
- Proxy.Serve: a products `data` field that is present but not an array is not modelled.
- Proxy.Serve: a shops body that is neither `null` nor an array is not modelled. For an object, `shops[0].id` throws and the catch answers 500 (index.ts line 63); for a string, the shop id is undefined. The shops body is a list of shops or `null`.
- Proxy.Serve: a non-ok response whose `.text()` fails (index.ts lines 44 and 78) ends in the catch with 500, not 502. The model counts that case as `Threw`, which answers 500, so `NotOk` stands for a non-ok response whose text was read.
- Drawer.PressMinus and Drawer.PressPlus: they take the line as the drawer rendered it and act on its current quantity. Re-rendering is not modelled.
- Decimal sizes are not recognised: the size pattern (index.ts line 93) accepts whole runs of digits only, and so does `Catalog.IsSizeToken`.
- The exchange rate is not fetched or refreshed: it is the constant 83 in CurrencyContext.tsx, and `Currency.ExchangeRate` is that constant.
- No placeholder replaces an empty upstream image list: it stays an empty `images` list, and only a missing list becomes the placeholder list.
- No colours are extracted: the proxy always sends an empty `colors` list.

## Findings

| source | as written | input that shows it | evidently intended | confidence | as-written member | corrected member |
|---|---|---|---|---|---|---|
| supabase/functions/printify-products/index.ts:52-61 | the log line reads `shops.length` before the `!shops` guard, so a `null` body throws and the catch answers 500 "An unexpected error occurred" | a token is set and the shops call answers 200 with the JSON body `null` | the guard was written for exactly this case: answer 200 with `{products: [], shopId: null}`, as for an empty list | not executed | Proxy.NullShopsAsWritten | Proxy.ServeGuarded |
