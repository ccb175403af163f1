# Storefront core in Dafny

This project models the logic of a small Next.js storefront:

- **Home page.** It loads the catalogue and seeds its filters from the query string (`category`, `price`, `brand`, `search`). It derives the category and brand facets, filters the products, toggles category and brand selections, and writes the filters back to the URL.
- **Sidebar.** It guards the minimum and maximum price sliders.
- **Cart page.** It routes each quantity change either to an update or to a removal, and shows an empty-cart view when there are no lines.
- **Product card.** It draws the star row for a rating and puts one unit of the product into the cart.

Each source file maps to one or more modules:

| module | file | models |
|---|---|---|
| `Filtering` | `filtering.dfy` | the product filter of the home page |
| `Facets` | `facets.dfy` | the category list in first-seen order and the sorted brand list |
| `Selection` | `selection.dfy` | the check-box toggles |
| `UrlSync` | `url_sync.dfy` | the query string written by `updateURL`, and how the loader reads it back |
| `HomePage` | `home_page.dfy` | the page's state as a class (`HomePageState`) whose methods are the loader, `updateURL` and the handlers |
| `SideBar` | `sidebar.dfy` | the slider guards |
| `CartStore` | `cart_store.dfy` | the cart the pages share: a `Cart` class over a sequence of lines |
| `CartPage` | `cart_page.dfy` | the cart page |
| `ProductCard` | `product_card.dfy` | the product card: `RenderStars`, a loop method proved against the function `StarRow`, and a card class |

`Text`, `Seqs`, `Catalog` and `Wrappers` hold shared definitions:

- the JavaScript string operations the page relies on;
- subsequences and duplicate-freedom;
- the `Product` record;
- `Option`.

JavaScript semantics are written out where they matter:

- **`Number(part)` on a price part.** The empty string reads as 0. A string of decimal digits reads as its exact value (JavaScript would round values above 2^53 to the nearest double). Anything else is NaN, modelled as `None`.
- **`"a-b".split('-')`.** When the text has no dash, the second part is `undefined`, so the price is ignored.
- **A leading minus sign.** It yields an empty first part, which reads as 0.
- **`URLSearchParams.get`** returns the first value stored under its key.
- **A query value counts as set** only when it is present and non-empty (JavaScript truthiness).
- **`Math.floor`, `Math.ceil` and `% 1`** are on reals.
- **A `for` loop bounded by a non-positive count** draws nothing.

The loader in `app/page.js` runs again every time the URL changes. That includes the changes `updateURL` itself makes. Each run applies the query onto the current filters. As a result, after a reload only the first selected category and the first selected brand survive (`UrlSync.ReloadKeepsFirstSelection`).

## Model

| member | source | states |
|---|---|---|
| Filtering.MatchesSearch | app/page.js:70-74 | an empty query matches; otherwise the lower-cased query occurs in the lower-cased title, description or category |
| Filtering.MatchesCategory | app/page.js:76-78 | no selected category, or the product's category is selected |
| Filtering.MatchesBrand | app/page.js:80-81 | no selected brand, or the product's brand is selected |
| Filtering.MatchesPrice | app/page.js:83-84 | the price lies within the range, both bounds inclusive |
| Filtering.Keeps | app/page.js:86 | a product is shown when all four tests hold |
| Filtering.FilterProducts | app/page.js:68-88 | the result never grows, and a product is in it exactly when it is in the catalogue and matches the search, category, brand and price criteria |
| Filtering.FilterIsSubsequence | app/page.js:69-87 | filtering keeps the catalogue order: the result is a subsequence of the products |
| Filtering.FilterCounts | app/page.js:69-87 | each product that matches keeps its exact number of occurrences; each product that does not match is dropped entirely |
| Filtering.FilterIdempotent | app/page.js:68-88 | filtering the filtered list with the same criteria changes nothing |
| Filtering.EmptySelectionsFilterByPriceOnly | app/page.js:70-84 | with no search text and no selected category or brand, exactly the products whose price lies in the inclusive range are kept |
| Filtering.EmptyCriteriaKeepAll | app/page.js:70-86 | with no selections and every price in range, the whole catalogue is shown, in order |
| Facets.IndexOf | app/page.js:61 | the first position of a value: it holds the value and no earlier position does |
| Facets.Distinct | app/page.js:61 | `new Set` over the values: no duplicates, and exactly the same values |
| Facets.IndexOfExtend | app/page.js:61 | appending a value does not move the first occurrence of a value already present |
| Facets.DistinctKeepsFirstOccurrenceOrder | app/page.js:61 | the distinct values appear in the order of their first occurrence (set insertion order) |
| Facets.Insert | app/page.js:65 | inserting adds exactly one copy of the value and keeps the list duplicate-free when the value is new |
| Facets.NoDuplicatesCons | app/page.js:65 | putting a new value in front of a duplicate-free list keeps it duplicate-free |
| Facets.InsertSorted | app/page.js:65 | inserting into a list sorted by UTF-16 code units (the default `sort` order, `Text.LexLe`) keeps it sorted |
| Facets.SortStrings | app/page.js:65 | `sort()`: the result is sorted, a permutation of the input, and duplicate-free when the input is |
| Facets.CategoryList | app/page.js:61 | one category per product |
| Facets.BrandList | app/page.js:65 | one brand per product |
| Facets.Categories | app/page.js:60-62 | the categories facet is duplicate-free, holds exactly the categories of the products, and lists them in first-seen order |
| Facets.Brands | app/page.js:64-66 | the brands facet is duplicate-free, strictly ascending in UTF-16 code-unit order, and holds exactly the brands of the products |
| Selection.RemoveAll | app/page.js:123 | the `filter` branch: exactly the value is removed, every other value keeps its count, the order is kept, and the list shrinks when the value was present |
| Selection.SubsequenceOfTail | app/page.js:123 | a subsequence of the tail is a subsequence of the whole list |
| Selection.Toggle | app/page.js:120-132 | after a toggle the value is selected exactly when it was not before; every other value keeps its number of occurrences; a new value is appended at the end; a present value is removed, keeping the order |
| Selection.RemoveAppended | app/page.js:121-125 | removing a value that was just appended gives back the earlier list |
| Selection.ToggleTwiceRestores | app/page.js:120-132 | toggling an unselected value twice restores the selection exactly |
| Text.Lower | app/page.js:72-74 | lower-casing keeps the length of the text |
| Text.Utf16Units | app/page.js:65 | a character below U+10000 is one code unit equal to itself; any other is a high surrogate followed by a low surrogate |
| Text.Utf16 | app/page.js:65 | a string's UTF-16 encoding, the units `sort` compares, is at least as long as the string |
| Text.UnitsLe | app/page.js:65 | lexicographic order on code-unit sequences, the comparison `sort` makes |
| Text.UnitKey | app/page.js:65 | the place of a character in code-unit order: U+E000..U+FFFF after every character above U+FFFF, all others by code point |
| Text.LexLe | app/page.js:65 | the default `sort` order, compared character by character through `UnitKey` |
| Text.UnitsLeCommonPrefix | app/page.js:65 | a common prefix of code units does not change the order |
| Text.CharUnitsOrder | app/page.js:65 | two different characters compare by their UTF-16 units exactly as their keys compare, whatever follows them |
| Text.LexLeIsUtf16Order | app/page.js:65 | `LexLe` holds exactly when the UTF-16 encoding of the first string is lexicographically at most that of the second |
| Text.LexLeTotal | app/page.js:65 | any two strings are comparable in UTF-16 code-unit order |
| Text.LexLeTransitive | app/page.js:65 | UTF-16 code-unit order on strings is transitive |
| Text.AstralBeforeHighBmp | app/page.js:65 | U+1F600 sorts before U+FF01, as its first unit 0xD83D is below 0xFF01, although its code point is larger |
| Text.Contains | app/page.js:72-74 | `includes`: the text occurs as a contiguous block of characters at some position |
| Text.IntText | app/page.js:98 | the decimal text of a bound in a template literal: a minus sign before the digits of a negative number |
| Text.NatTextReadsBack | app/page.js:98 | the decimal text of a non-negative bound is non-empty, all digits, and reads back as the same number |
| Text.Split | app/page.js:35 | `split` always yields at least one part |
| Text.SplitWithoutSeparator | app/page.js:35 | text without the separator splits into itself alone |
| Text.SplitAtFirst | app/page.js:35 | splitting cuts at the first separator and then splits the rest |
| UrlSync.Get | app/page.js:28-46 | `searchParams.get`: the value of the first pair carrying the key, if any |
| UrlSync.GetFindsFirst | app/page.js:28-46 | `get` finds nothing exactly when no pair carries the key; otherwise the value found is that of a pair carrying the key, and every earlier pair has another key |
| UrlSync.GetConcat | app/page.js:28-46 | a lookup in a joined query answers from the first part when that part has the key |
| UrlSync.GetConcat4 | app/page.js:90-107 | a lookup in four joined pieces answers from the first piece that has the key |
| UrlSync.DropKey | app/page.js:94 | removing a key's pairs leaves that key absent and every other key's value unchanged |
| UrlSync.ReplaceFirst | app/page.js:94 | replacing the first pair of a present key gives it the new value and leaves other keys unchanged |
| UrlSync.SetParam | app/page.js:94-106 | `params.set`: the key reads back the new value, other keys are unchanged, and a new key is appended at the end |
| UrlSync.HrefOf | app/page.js:109-110 | the URL is the bare root exactly when the query string is empty |
| UrlSync.RanksConcat | app/page.js:90-107 | joining two key-ordered pieces whose keys lie in adjacent bands keeps them in order |
| UrlSync.QueryKeysInOrder | app/page.js:90-107 | the query lists its keys in the order category, price, brand, search, each at most once |
| UrlSync.QueryValues | app/page.js:93-107 | the query holds the first selected category, `lo-hi` unless the range is the default 0–2000, the first selected brand, and the search text when non-empty; each is absent otherwise |
| UrlSync.PriceText | app/page.js:98 | the price parameter written as the lower bound, a dash, and the upper bound |
| UrlSync.QueryOf | app/page.js:91-107 | the query `updateURL` builds: the first category, the price unless it is 0–2000, the first brand, and the search text when non-empty, in that order |
| UrlSync.IsSet | app/page.js:29-47 | the truthiness test on a read parameter: present and not the empty string |
| UrlSync.ApplyParams | app/page.js:28-49 | the loader's reading: a set category, brand or search replaces that filter with the single value read; a set price replaces the range only when both bounds are numbers; anything else keeps the current filter |
| UrlSync.RootIffDefaults | app/page.js:90-111 | `updateURL` pushes `/` exactly when every filter is at its default |
| UrlSync.ToNumber | app/page.js:35 | a price part that is a number reads as a non-negative integer |
| UrlSync.ParsePrice | app/page.js:33-39 | a price value that is accepted yields non-negative bounds |
| UrlSync.PriceTextReadsBack | app/page.js:35-37 | the price text written for non-negative bounds parses back to the same range |
| UrlSync.PriceWithoutDashIgnored | app/page.js:35-36 | a price value without a dash is ignored, because the second bound is `undefined`, which is NaN |
| UrlSync.LeadingDashReadsAsZero | app/page.js:35-37 | `-n` reads as the range 0 to n, since the empty first part is 0 |
| UrlSync.MalformedPriceKeepsRange | app/page.js:33-39 | a price value with a NaN bound leaves the current range unchanged |
| UrlSync.ReadFromDefaultsIsRestorable | app/page.js:28-49 | filters read from any query onto the defaults have at most one non-empty category, at most one non-empty brand, and non-negative bounds |
| UrlSync.RoundTrip | app/page.js:28-49 | reading the query written for some filters onto the defaults gives those filters back exactly when they are restorable |
| UrlSync.ReloadKeepsFirstSelection | app/page.js:28-49 | re-reading the page's own query onto the current filters keeps only the first selected category and the first selected brand, and leaves the rest unchanged |
| HomePage.HomePageState.constructor | app/page.js:14-19 | no products, default filters, and loading |
| HomePage.HomePageState.LoadProducts | app/page.js:21-58 | loading always ends; a failed fetch changes nothing else; a successful one stores the products and applies the query to the current filters |
| HomePage.HomePageState.UpdateURL | app/page.js:90-112 | the URL pushed is the root or `/?` followed by the query built from the current filters |
| HomePage.HomePageState.HandleCategoryChange | app/page.js:120-126 | the category selection is toggled and nothing else changes |
| HomePage.HomePageState.HandleBrandChange | app/page.js:128-132 | the brand selection is toggled and nothing else changes |
| HomePage.HomePageState.HandlePriceChange | app/page.js:134-136 | only the price range changes |
| HomePage.HomePageState.HandleSearch | app/page.js:138-140 | only the search text changes |
| SideBar.HandleMinChange | app/components/SideBar.js:15-20 | a new minimum is accepted exactly when it is a number not above the maximum; the maximum is kept, and the accepted range is ordered |
| SideBar.HandleMaxChange | app/components/SideBar.js:22-27 | a new maximum is accepted exactly when it is a number not below the minimum; the minimum is kept, and the accepted range is ordered |
| SideBar.Step | app/components/SideBar.js:17-25 | the page's price range after one slider event: the guarded new pair when the guard accepts it (passed to `handlePriceChange`, app/page.js:134-136), the old range otherwise |
| SideBar.Run | app/components/SideBar.js:17-25 | the price range after a sequence of slider events, applied in order |
| SideBar.NotANumberIgnored | app/components/SideBar.js:15-27 | a slider value that does not parse changes nothing |
| SideBar.SlidersKeepRangeOrdered | app/components/SideBar.js:15-27 | starting from an ordered range within 0–2000, any sequence of slider moves within the sliders' 0–2000 extent keeps the range ordered and within it |
| CartStore.QuantityOfAbsent | app/cart/page.js:22-28 | a product has no quantity exactly when no line carries its id |
| CartStore.RemoveLine | app/cart/page.js:24 | `removeFromCart` drops exactly the lines of that id, keeps the order of the rest, and keeps ids unique |
| CartStore.SetQuantity | app/cart/page.js:26 | `updateQuantity` changes only the quantity of the line with that id, and keeps every line in place |
| CartStore.QuantityAtLine | app/cart/page.js:72-121 | with unique ids, looking up a line's id gives that line's quantity |
| CartStore.RemoveLineLength | app/cart/page.js:98 | removing a present id drops exactly one line; removing an absent id drops none |
| CartStore.QuantityOfPositive | app/cart/page.js:108-115 | in a cart of positive lines, every quantity is at least 1 |
| CartStore.RemoveLineQuantities | app/cart/page.js:24 | after removal the id has no quantity and every other id keeps its own |
| CartStore.SetQuantityQuantities | app/cart/page.js:26 | after an update the id holds the new quantity if it was present; other ids are untouched; unique ids are kept; a positive quantity keeps the cart positive |
| CartStore.AddLine | app/components/ProductCard.js:15 | `addToCart`: raise the quantity of the line with the product's id, or append a new line when there is none |
| CartStore.AppendLineQuantities | app/components/ProductCard.js:15 | a new line holds its quantity, leaves other ids alone, and keeps a positive cart well-formed |
| CartStore.AddLineQuantities | app/components/ProductCard.js:15 | adding adds the amount to the current quantity, or starts a new line; other ids are untouched; a well-formed cart stays well-formed |
| CartStore.QuantityOfConcat | app/components/ProductCard.js:15 | a lookup in joined lines answers from the first part that holds the id |
| CartStore.RepeatedAddsAccumulate | app/components/ProductCard.js:13-15 | repeated adds of one product accumulate: its quantity grows by the sum of the amounts |
| CartStore.Cart.constructor | app/cart/page.js:30 | a new cart is empty and well-formed |
| CartStore.Cart.AddToCart | app/components/ProductCard.js:15 | the quantity of the product grows by the amount; a positive amount keeps the cart well-formed |
| CartStore.Cart.UpdateQuantity | app/cart/page.js:26 | the lines become the updated lines; a positive quantity keeps the cart well-formed |
| CartStore.Cart.RemoveFromCart | app/cart/page.js:24 | the product's line is gone and the cart stays well-formed |
| CartPage.QuantityChanged | app/cart/page.js:22-28 | `handleQuantityChange`: a quantity of zero or less goes to removal, any other to `updateQuantity` |
| CartPage.QuantityChangeRouting | app/cart/page.js:22-28 | a quantity of zero or less removes the line; a positive one sets exactly that quantity without removing anything; other products are untouched; a well-formed cart stays well-formed |
| CartPage.MinusButton | app/cart/page.js:108-115 | minus on a line holding 1 removes the line; on a larger quantity it lowers it by one; the cart stays well-formed |
| CartPage.PlusButton | app/cart/page.js:119-126 | plus raises the line's quantity by one and keeps every line |
| CartPage.TrashButton | app/cart/page.js:97-103 | the trash button removes exactly that line |
| CartPage.HandleQuantityChange | app/cart/page.js:22-28 | the shared cart takes the routed change and stays well-formed |
| CartPage.DecreaseLine | app/cart/page.js:109-110 | the minus button sends the line's quantity minus one |
| CartPage.IncreaseLine | app/cart/page.js:120-121 | the plus button sends the line's quantity plus one |
| CartPage.TrashLine | app/cart/page.js:98 | the trash button removes the line's product |
| CartPage.Render | app/cart/page.js:30-60 | the empty-cart view is shown exactly when the cart has no lines; otherwise the lines are listed |
| ProductCard.Ceil | app/components/ProductCard.js:47 | `Math.ceil`: the least integer not below the rating |
| ProductCard.IsWhole | app/components/ProductCard.js:29 | `rating % 1 !== 0` is false exactly when the rating equals its floor |
| ProductCard.StarRow | app/components/ProductCard.js:28-48 | `floor(rating)` full stars, a half star when the rating is fractional, then `5 - ceil(rating)` grey stars |
| ProductCard.Repeat | app/components/ProductCard.js:31-35 | a loop bounded by `n` draws `n` copies of its star when `n` is positive, and none otherwise |
| ProductCard.RenderStars | app/components/ProductCard.js:26-55 | the loops draw exactly the row `StarRow` describes |
| ProductCard.CeilFloor | app/components/ProductCard.js:28-48 | `ceil` is `floor`, plus one exactly when the rating has a fractional part |
| ProductCard.StarsInRankOrder | app/components/ProductCard.js:31-53 | full stars come first, then the half star, then the grey stars |
| ProductCard.CountConcat | app/components/ProductCard.js:26-55 | star counts add up over joined rows |
| ProductCard.RepeatCount | app/components/ProductCard.js:31-35 | a loop of `n` copies holds `n` stars of its kind when `n` is positive, and none of any other kind |
| ProductCard.StarCounts | app/components/ProductCard.js:26-55 | a non-negative rating shows `floor(rating)` full stars, one half star exactly when it is fractional, and `5 - ceil(rating)` grey stars when that is positive |
| ProductCard.FiveStarsInRange | app/components/ProductCard.js:26-55 | a rating between 0 and 5 always shows exactly five stars |
| ProductCard.ProductCardView.constructor | app/components/ProductCard.js:9-11 | the card shows its product, with the toast hidden |
| ProductCard.ProductCardView.HandleAddToCart | app/components/ProductCard.js:13-24 | one unit of the product is added to the cart, the cart stays well-formed, and the toast shows |
| ProductCard.ProductCardView.HideAlert | app/components/ProductCard.js:21-23 | the timer hides the toast |

## Left out

- **Fetching and scheduling.** Fetching `/products.json` and decoding the JSON are not modelled: `LoadProducts` takes the outcome as a parameter, with `None` for a thrown error. `router.push` is modelled as the returned `Href`. React's scheduling of state updates, `useEffect` and `useMemo` is not modelled: each handler is one atomic state change.
- **Percent-encoding.** `URLSearchParams` reading and writing is modelled on decoded key/value pairs. Percent-encoding and `+` for spaces are not modelled.
- **Text and ordering.** `toLowerCase` is ASCII-only; Unicode case mapping is not modelled. Strings are sequences of Unicode scalar values, so `includes` (`Text.Contains`) searches characters rather than UTF-16 code units, and strings holding a lone surrogate cannot be expressed. The default `sort` order is modelled on UTF-16 code units (`Text.LexLe`).
- UrlSync.ToNumber: only the empty string and plain decimal digits read as numbers. Other JavaScript numeric text is taken as NaN: surrounding whitespace, a sign, a fraction, an exponent, hex, and `Infinity`. Price bounds are integers: digit strings are read exactly; JavaScript rounds values above 2^53 to the nearest double.
- Text.IntText: writes every digit of a bound, whereas JavaScript writes bounds of 1e21 or more in exponent form (`1e+21`), so `PriceTextReadsBack` covers a written form JavaScript produces only for bounds below 1e21.
- **Slider input.** The slider handlers take the value already parsed by `parseInt` (`None` for NaN). The browser's 10-unit slider step is not modelled.
- **The cart store.** `app/context/CartContext` is not part of this model. `CartStore.Cart` gives `addToCart`, `updateQuantity` and `removeFromCart` the behaviour the pages rely on: add to the line of that id or append a new line, replace the quantity of that id, drop the lines of that id. Cart totals, tax, the grand total, and the persistence of the cart are left out.
- **Display only.** Price formatting with `toFixed`, the two-second toast timer (modelled only as `HideAlert`), `preventDefault`, links, images, markup and styles, `Header.js` and the root layout are not modelled.
- **Ratings.** NaN and infinite ratings are not modelled: ratings are finite reals. A negative fractional rating, such as -0.5, draws six stars (one half and five grey). `FiveStarsInRange` covers ratings between 0 and 5 only.
