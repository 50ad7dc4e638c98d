# QwikOrder storefront and admin logic, in Dafny

QwikOrder is a web front end for social-media sellers. Almost all of it is
display code over a hosted database. This project models the few pure
computations inside four of its pages, and proves what they promise:

- **Storefront** (`pages/Store.tsx`). A shopper's cart maps product ids to
  quantities. `updateQuantity` adds a delta, clamps the result at zero and
  deletes the entry when it reaches zero. Two folds derive the item count and
  the amount payable, which is priced against the catalog. `formatSlug` turns
  the URL slug into the seller name shown in the header. The floating bottom
  button walks the checkout through `browse → form → payment → done`.
- **Admin orders** (`pages/admin/Orders.tsx`). The order list is narrowed by a
  status tab. `'all'` shows every row; any other tab shows the rows whose status
  equals it, ignoring case.
- **Admin vendors** (`pages/admin/Vendors.tsx`). The seller list is narrowed by
  a search term. A vendor is shown when its business name contains the term,
  ignoring case, or when its phone contains the term as typed. The SMS balance column shows 0 for a missing balance.
- **Admin dashboard** (`pages/admin/Dashboard.tsx`). It shows the vendor count,
  the order count, the revenue (a left fold over `total_amount`, missing amounts
  counting 0) and an SMS figure that is always 0.

Modules: `Wrappers` (an `Option` for nullable values), `Text` (ASCII case
mapping, `includes`, `split`/`join`), `Seqs` (`filter` and its laws), `Store`,
`AdminOrders`, `AdminVendors`, `AdminDashboard`.

The page's two state cells, `cart` and `step`, are fields of the class
`Store.Storefront`. Its methods `Add`, `Remove` and `Advance` are the `+`, `−`
and bottom buttons. Its invariant `Valid()` says two things. Every stored
quantity is positive. Past the browse view the cart is never empty: the only
way out of browse is the bottom button, which exists only while the cart count
is positive, and the `+`/`−` buttons exist only on the browse view.

The cart is a `map`. A JavaScript object's key order never matters here,
because integer sums do not depend on order. The two folds over the cart are
therefore ghost sums over the map's entries in any order. `SumOverRemove` shows
that any entry can be taken out first.

Four things the code does that a reader might not expect, which the model
follows:

- `updateQuantity` never reads `stock`, so cart quantities have no ceiling.
- The page lists every product of its hard-coded catalog. `Product` has no
  visibility field, and nothing filters out products that are out of stock.
- The "Confirm & Submit Order" button only sets the step to `done`
  (pages/Store.tsx:181). No customer, order or order item is created, so no
  submission is modelled.
- The checkout steps are named `browse`, `form`, `payment` and `done`
  (pages/Store.tsx:16).

## Model

| member | source | states |
|---|---|---|
| Store.Find | pages/Store.tsx:33 | `find` returns nothing exactly when no product has the requested id; otherwise it returns the first product in catalog order with that id |
| Store.MockProducts | pages/Store.tsx:7-11 | no contract of its own (the page's three hard-coded products); used by Store.SampleCheckoutTotal, which prices a cart against it |
| Store.Quantity | pages/Store.tsx:20 | `cart[id] \|\| 0` is 0 for an id with no entry; under the cart invariant it is positive exactly when the id has an entry |
| Store.UpdateQuantity | pages/Store.tsx:18-28 | the new quantity of `id` is `max(0, old + delta)`, with an absent id counting 0; the key stays exactly when that is positive; every other key and its quantity are unchanged; a cart with only positive quantities stays so |
| Store.RemoveAbsentIsNoOp | pages/Store.tsx:20-24 | `updateQuantity(id, -1)` on an id not in the cart returns the cart unchanged |
| Store.SumOverRemove | pages/Store.tsx:30-36 | a fold over the cart's entries does not depend on their order: any entry can be taken out first |
| Store.SumOverUpdate | pages/Store.tsx:18-36 | after `updateQuantity(id, delta)`, a fold whose terms vanish at quantity 0 changes only in the term for `id` |
| Store.CartCountPositive | pages/Store.tsx:30 | the item count is never negative, and it is positive exactly when the cart has an entry |
| Store.CartCountUpdate | pages/Store.tsx:18-30 | after `updateQuantity(id, delta)` the item count changes by the new quantity of `id` minus the old one |
| Store.CartCountAddOne | pages/Store.tsx:18-30 | `updateQuantity(id, +1)` raises the item count by exactly 1 |
| Store.CartCountRemoveOne | pages/Store.tsx:18-30 | `updateQuantity(id, -1)` on an id in the cart lowers the item count by exactly 1 |
| Store.SumOver | pages/Store.tsx:30-36 | no contract of its own (ghost fold over the entries); characterized by Store.SumOverRemove and Store.SumOverUpdate |
| Store.CartCount | pages/Store.tsx:30 | no contract of its own; characterized by Store.CartCountPositive, Store.CartCountUpdate, Store.CartCountAddOne and Store.CartCountRemoveOne |
| Store.LineTotal | pages/Store.tsx:33-35 | no contract of its own; characterized by Store.LineTotalStep and Store.CatalogTotalRemove, which ties a line to price times quantity |
| Store.LineTotalStep | pages/Store.tsx:33-35 | one more unit of a product adds exactly one unit's line to its line total |
| Store.Total | pages/Store.tsx:32-36 | the amount payable of the empty cart is 0 |
| Store.TotalIgnoresUnknownId | pages/Store.tsx:32-36 | a cart entry whose id is not in the catalog adds nothing to the amount payable |
| Store.TotalUpdate | pages/Store.tsx:18-36 | after `updateQuantity(id, delta)` the amount payable changes only in the line of `id`, which is recomputed from the new quantity |
| Store.TotalMatchesCatalog | pages/Store.tsx:32-36 | with unique catalog ids, the amount payable equals the sum over the catalog of price times the quantity shown beside each product |
| Store.CatalogTotalRemove | pages/Store.tsx:32-36 | taking one entry out of the cart lowers the catalog-side total by that entry's price times quantity |
| Store.SampleCheckoutTotal | pages/Store.tsx:7-36 | with the page's catalog, two dresses and one handbag cost 680 |
| Store.SampleCheckoutCount | pages/Store.tsx:30 | two dresses and one handbag count as 3 items |
| Text.Split | pages/Store.tsx:38 | `split('-')` returns at least one piece, and no piece contains the separator |
| Text.JoinSplit | pages/Store.tsx:38 | joining the pieces of `split(sep)` with `sep` gives back the original text |
| Text.Join | pages/Store.tsx:38 | no contract of its own; characterized by Text.JoinSplit |
| Store.Capitalize | pages/Store.tsx:38 | `charAt(0).toUpperCase() + slice(1)` keeps the length, upper-cases the first character and keeps every other one |
| Store.CapitalizeEach | pages/Store.tsx:38 | the `.map(...)` over the pieces keeps their number; characterized piece by piece by Store.FormatSlugAtDash and Store.FormatSlugSpec |
| Store.FormatSlug | pages/Store.tsx:38 | no contract of its own; characterized by Store.FormatSlugSpec (and Text.JoinSplit for the split and join it is built from) |
| Store.FormatSellerSlug | pages/Store.tsx:38 | a missing slug parameter defaults to `''` and formats to `""`; a present one is formatted by `formatSlug` |
| Store.FormatSlugWhole | pages/Store.tsx:38 | a slug without a dash is one piece, and formatting only upper-cases its first character |
| Store.FormatSlugAtDash | pages/Store.tsx:38 | the formatted slug is the capitalized piece before the first dash, a space, and the formatted rest |
| Store.FormatSlugTwoPieces | pages/Store.tsx:38 | a slug with exactly one dash formats to its two pieces, each capitalized, joined by a space |
| Store.FormatSlugSpec | pages/Store.tsx:38 | the formatted slug has the slug's length; each dash becomes a space; the first character of each piece is upper-cased; every other character is kept; the output has no dash |
| Store.FormatSlugExample | pages/Store.tsx:38 | `sarah-boutique` formats to `Sarah Boutique` |
| Store.BottomAction | pages/Store.tsx:159-186 | a bottom button exists exactly when the step is not `done` and the cart count is positive; it moves exactly one step forward along `browse → form → payment → done` |
| Store.Storefront.constructor | pages/Store.tsx:15-16 | a visit starts with an empty cart on the browse view |
| Store.Storefront.Add | pages/Store.tsx:96-101 | the `+` button applies `updateQuantity(id, 1)`; it raises the count by 1 and the amount payable by the product's price; it keeps the invariant |
| Store.Storefront.Remove | pages/Store.tsx:89-94 | the `−` button applies `updateQuantity(id, -1)`; it changes nothing for an id not in the cart, and otherwise lowers the count by 1 and the amount payable by the product's price |
| Store.Storefront.Advance | pages/Store.tsx:159-186 | the bottom button moves exactly when the step is not `done` and the count is positive; it takes one step forward and leaves the cart alone; `done` never moves |
| Seqs.Filter | pages/admin/Orders.tsx:31 | `filter` returns no more elements than its input, and every element it returns was in the input and is accepted |
| Seqs.FilterIsSubsequence | pages/admin/Orders.tsx:31 | `filter` returns an order-preserving subsequence of its input |
| Seqs.FilterMembership | pages/admin/Orders.tsx:31 | an element is in the result exactly when it is in the input and accepted |
| Seqs.FilterIdempotent | pages/admin/Orders.tsx:31 | filtering again with the same predicate changes nothing |
| Seqs.FilterEmptyIff | pages/admin/Orders.tsx:72-75 | the result is empty exactly when no input element is accepted |
| Seqs.FilterAppend | pages/admin/Orders.tsx:31 | filtering two lists placed end to end gives the two filtered lists placed end to end |
| AdminOrders.FilterOrders | pages/admin/Orders.tsx:29-31 | under `'all'` the list is the input itself; under any other tab every shown order's lower-cased status equals the lower-cased tab |
| AdminOrders.StatusMatches | pages/admin/Orders.tsx:31 | no contract of its own; characterized by AdminOrders.FilterOrdersMembership and AdminOrders.FilterOrdersIgnoresCase |
| AdminOrders.FilterOrdersIsListedFilter | pages/admin/Orders.tsx:29-31 | the shown list is the input filtered by "the tab is `'all'` or the statuses match ignoring case" |
| AdminOrders.FilterOrdersMembership | pages/admin/Orders.tsx:29-31 | an order is shown exactly when it was fetched and belongs under the tab, so no matching order is lost |
| AdminOrders.FilterOrdersKeepsOrder | pages/admin/Orders.tsx:29-31 | the shown orders are an order-preserving subsequence of the fetched ones |
| AdminOrders.FilterOrdersIdempotent | pages/admin/Orders.tsx:29-31 | applying the same tab to its own result gives the same list |
| AdminOrders.FilterOrdersIgnoresCase | pages/admin/Orders.tsx:31 | two tabs that differ only in letter case, neither exactly `'all'`, show the same orders |
| AdminOrders.FilterOrdersAppend | pages/admin/Orders.tsx:29-31 | the tab shows, for two batches of rows placed end to end, what it shows for the first batch followed by what it shows for the second |
| AdminOrders.NoMatchRowIff | pages/admin/Orders.tsx:72-75 | the "No matching orders found." row is shown exactly when no fetched order belongs under the tab |
| AdminOrders.ShowsNoMatchRow | pages/admin/Orders.tsx:72 | no contract of its own (`filteredOrders.length === 0`); characterized by AdminOrders.NoMatchRowIff |
| Text.IncludesIff | pages/admin/Vendors.tsx:26-27 | `s.includes(t)` holds exactly when `t` occurs in `s` at some position |
| Text.Includes | pages/admin/Vendors.tsx:26-27 | no contract of its own; characterized by Text.IncludesIff |
| Text.ToLower | pages/admin/Vendors.tsx:26 | `toLowerCase` keeps the length and lower-cases each ASCII letter in place |
| Text.LowerChar | pages/admin/Vendors.tsx:26 | one-character `toLowerCase`: an ASCII capital becomes its lower-case letter, 32 code points on, and every other character is kept |
| Text.UpperChar | pages/Store.tsx:38 | one-character `toUpperCase`: an ASCII lower-case letter becomes its capital, 32 code points back, and every other character is kept |
| Text.NotIncludesByFirstChar | pages/admin/Vendors.tsx:26-27 | `includes` is false when no position that leaves room for the term holds its first character |
| AdminVendors.NameMatches | pages/admin/Vendors.tsx:26 | no contract of its own; characterized by AdminVendors.FilterVendorsMembership and AdminVendors.NameSearchIgnoresCase |
| AdminVendors.PhoneMatches | pages/admin/Vendors.tsx:27 | no contract of its own; characterized by AdminVendors.FilterVendorsMembership and AdminVendors.PhoneSearchKeepsCase |
| AdminVendors.VendorMatches | pages/admin/Vendors.tsx:25-28 | no contract of its own (the `filter` callback, name match or phone match); characterized by AdminVendors.FilterVendorsMembership |
| AdminVendors.FilterVendors | pages/admin/Vendors.tsx:25-28 | every shown vendor was fetched and matches the term by name or by phone, and the list is no longer than the fetched one |
| AdminVendors.FilterVendorsMembership | pages/admin/Vendors.tsx:25-28 | a vendor is shown exactly when it was fetched and either its lower-cased name contains the lower-cased term, or its phone contains the term as typed |
| AdminVendors.FilterVendorsKeepsOrder | pages/admin/Vendors.tsx:25 | the shown vendors are an order-preserving subsequence of the fetched ones |
| AdminVendors.NoContactNeverShown | pages/admin/Vendors.tsx:26-27 | a vendor with neither a business name nor a phone is never shown |
| AdminVendors.EmptySearchShowsContactable | pages/admin/Vendors.tsx:25-28 | with an empty search term the list is exactly the vendors that have a business name or a phone |
| AdminVendors.NameSearchIgnoresCase | pages/admin/Vendors.tsx:26 | the term `BOUTIQUE` finds the name `Ama Boutique`, both being lower-cased |
| AdminVendors.NameSearchMisses | pages/admin/Vendors.tsx:26 | the term `ext` is not in the name `Ama Boutique` |
| AdminVendors.PhoneSearchKeepsCase | pages/admin/Vendors.tsx:27 | the term `ext` does not find the phone `EXT-12`, because the phone is searched as typed |
| AdminVendors.SearchCaseExamples | pages/admin/Vendors.tsx:26-27 | the name match ignores case (`BOUTIQUE` finds `Ama Boutique`); the phone match does not (`ext` does not find `EXT-12`) |
| AdminVendors.SmsBalanceShown | pages/admin/Vendors.tsx:89 | the SMS balance shown is `sms_balance`, or 0 when it is missing |
| AdminDashboard.Amount | pages/admin/Dashboard.tsx:37 | `total_amount \|\| 0` is the amount, or 0 when it is null |
| AdminDashboard.RevenueFrom | pages/admin/Dashboard.tsx:37 | no contract of its own (the left fold of `reduce`); characterized by AdminDashboard.RevenueFromIsSum |
| AdminDashboard.RevenueFromIsSum | pages/admin/Dashboard.tsx:37 | the left fold of `reduce` adds the sum of the amounts to its starting value |
| AdminDashboard.Revenue | pages/admin/Dashboard.tsx:37 | the revenue is the sum of `total_amount` over the rows, a missing amount counting 0 |
| AdminDashboard.SumAmountsAppend | pages/admin/Dashboard.tsx:37 | the sum of the amounts of two row lists placed end to end is the sum of their sums |
| AdminDashboard.RevenueAppend | pages/admin/Dashboard.tsx:37 | the revenue of two row lists placed end to end is the sum of their revenues |
| AdminDashboard.MissingAmountAddsNothing | pages/admin/Dashboard.tsx:37 | a row without an amount leaves the revenue unchanged |
| AdminDashboard.ComputeStats | pages/admin/Dashboard.tsx:36-43 | `orders` is the number of rows, or 0 without data; `revenue` is the sum of the amounts, or 0 without data or for no rows; `vendors` is the count, or 0 when absent; `sms` is 0 |

## Left out

- The hosted-database queries are left out, and so is the descending `created_at` sort that two of them request (pages/admin/Orders.tsx:23, pages/admin/Vendors.tsx:19). The queries are at pages/admin/Orders.tsx:15-27, pages/admin/Vendors.tsx:15-23 and pages/admin/Dashboard.tsx:25-35. Their results are parameters of the model: the order rows, the vendor rows, the profile count and the `total_amount` rows. Loading flags and `useEffect` are also left out.
- The delivery-details form and the payment screenshot and reference inputs are left out. They are uncontrolled inputs whose values the page never reads.
- `window.location.reload()` behind "Keep Shopping" is left out. It ends the session; a new visit is a fresh `Storefront`.
- Money is modelled as whole numbers (`int`). JavaScript numbers are IEEE doubles, so rounding in the folds is not modelled. `|| 0` treating `NaN` as 0 is not modelled either.
- Case mapping covers ASCII letters only. Full Unicode `toUpperCase`/`toLowerCase` can change string length (`ß` becomes `SS`); those mappings are not modelled.
- `includes` works here on Unicode scalar values, not on UTF-16 code units.
- Store.Quantity: an id that names a property every JavaScript object inherits (such as `constructor`) would read that property rather than 0. This is not modelled; the catalog's ids are plain digits.
- Store.Storefront.Add, Store.Storefront.Remove: both require the browse view, because the page renders the `+` and `−` buttons only there (pages/Store.tsx:80-106).
- The order-status filter assumes every row has an `order_status`. A row without one would make `toLowerCase` throw; that failure is not modelled.
- The order-status filter compares the tab with `'all'` exactly, as the code does. A tab spelled `'ALL'` would filter by status. Only the lower-case tab labels exist on the page.
- Display formatting is left out: `toLocaleDateString`, `toLocaleString`, the 8-character id prefix and the status badge colours.
- pages/Orders.tsx is left out. It is display only: its tab state is never applied to the list, and its status buttons have no handlers. The other pages, the layouts and the routes are also left out; they are markup and navigation.
