# Storefront core, modelled in Dafny

This project models the client-side logic of a small organic henna storefront.
The storefront uses a hosted database with `products`, `cart`, `wishlist` and
`customers` tables, plus a per-device `guestCart` storage slot.

- **Carts.** A guest keeps their cart in the device's `guestCart` slot. A
  signed-in customer keeps one in their `cart` rows. `currentUser` decides
  which backend every cart operation uses. Sign-in and sign-out never copy one
  cart into the other.
- **Cart operations.** Adding uses find-or-increment. Updating a quantity to
  below 1 is a removal. Removing filters out every line for the product. The
  cart modal resolves each line against the `products` table and totals
  price × quantity. The badge shows the number of *lines*.
- **Wishlist.** The heart button toggles a (customer, product) entry. Guests
  are asked to sign in, and so is a guest at checkout.
- **Landing page.** The contact and newsletter forms share one email rule. The
  contact form also checks an Indian mobile number after stripping non-digits.
  The product buttons pre-fill the contact form's product choice. The stats
  counter keeps a '%' or '+' suffix and reads its target from the digits of
  the text.
- **Live grid.** The product grid lists the in-stock catalog, featured
  products first. It holds one realtime subscription, which is replaced on
  each subscribe and torn down on unload. Every change event reloads the grid.
- **Admin page.** Access needs a session whose customer record has
  `is_admin`. A refused user is signed out. The product form inserts or
  updates a row. An empty original price or badge is stored as null; the
  weight, category and description are stored as typed, even when empty.
  Opening a row for edit shows a null text column as an empty field, and a
  null or empty category as 'powder'. The dashboard counts all products and
  the in-stock ones.
- **Client binding.** The config script creates the backend client. The other
  scripts reach it through a global name, and the two config scripts bind
  different names (see Findings).

Modules, one per file:

- `ShopTypes` (`shop_types.dfy`): users, product rows and `Option`.
- `CartLines` (`cart_lines.dfy`): the cart-line sequence operations both cart
  backends use, and their laws.
- `CartView` (`cart_view.dfy`): resolving lines against the catalog and the
  total.
- `Wishlist` (`wishlist.dfy`): the wishlist table and its toggle.
- `Storefront` (`storefront.dfy`): the class `Shop`, holding the storefront's
  globals and its backend state. Each of its methods is one storefront
  operation.
- `FormRules` (`form_rules.dfy`): the landing page's string rules.
- `RealtimeProducts` (`realtime.dfy`): the displayed catalog and the class
  `ProductFeed`, which owns the subscription slot.
- `AdminPanel` (`admin.dfy`): the dashboard counts, the product form and the
  class `AdminPage`.
- `ClientBinding` (`client_binding.dfy`): which object each script's backend
  calls reach under each config script, and when the auth listener is
  registered.

The template config `js/supabase-config.example.js` repeats `checkAuth`, the
auth listener, `loadCartCount`, `updateCartCount` and `addToCart` (lines
22-43 and 77-160). The copies differ in three ways:

- The template calls the client `supabase`, the committed config
  `supabaseClient`. `ClientBinding` models what each name denotes.
- The template's `checkAuth` has no client check. Once the library has
  loaded, it is `CheckAuth` with `clientReady` true.
- The template creates its client on its first statement with no guard
  (`js/supabase-config.example.js:14`). If the library has not loaded, that
  statement throws and the rest of the script, including the listener
  registration at `js/supabase-config.example.js:35`, never runs.
  `ClientBinding.ConfigCompletes` models this. The committed config
  registers the listener only under `if (supabaseClient)`
  (`js/supabase-config.js:49`), tested once when the script runs; the client
  may only be created later, by an init deferred to the `load` event
  (`js/supabase-config.js:24-27`). So under both configs the listener exists
  exactly when the library loaded first; `ClientBinding.ListenerRegistered`
  states this. `OnAuthStateChange` models the callback once registered.

The cart code of the two copies is the same, and the `Shop` methods model
both.

Conventions:

- **Backend calls are parameters.** A write's outcome is a `fails: bool`
  parameter. A channel the backend opens and the id it assigns to an inserted
  row are parameters too. A `customers` lookup result is a `Lookup` value.
  Whether the client object exists is `clientReady`.
- **Tables are Dafny collections.**
  - `cart`: a map from customer id to that customer's rows.
  - `wishlist`: a set of pairs.
  - `products`: a map (the storefront catalog) or a sequence of rows (the
    grid and the admin page).
- **Prices are integers** in the smallest currency unit.
- **Characters are Unicode code points** (Dafny `char`).

## Model

A few helpers carry no contract of their own and have no row: `Storefront.GuestView`, `FormRules.CountChar`, `FormRules.DecimalValue`, `AdminPanel.OrEmpty` and `ClientBinding.TargetFixed`. Each is specified by the rows of the members that use it (`Shop.LoadCartItems`, `CountCharZero`/`CountCharOne`, `DecimalRoundTrip`, `EditForm`, `EverySiteReachesClient`).

| member | source | states |
|---|---|---|
| CartLines.FirstIndex | js/supabase-config.js:127 | `find` by product id: the result is the index of the first line for the product, or the length when there is none |
| CartLines.MatchCount | js/supabase-config.js:142-149 | the number of rows `.single()` sees for the product never exceeds the number of rows |
| CartLines.Added | js/supabase-config.js:126-133 | after a guest add the cart has a line for the product, one line more at most, and every existing line keeps its product |
| CartLines.MemberAdded | js/supabase-config.js:142-166 | after a member update-or-insert the rows include the product, one row more at most, and every existing row keeps its product |
| CartLines.SetFirst | js/auth.js:211-215 | a guest update keeps the number of lines and which product each line is for, and leaves every other product's line as it was |
| CartLines.FirstIndexAbsent | js/supabase-config.js:127-129 | `find` comes back empty exactly when no line has the product |
| CartLines.AddToPresent | js/supabase-config.js:127-131 | guest add of a product already in the cart adds `quantity` to its first line; the line count and every other line are unchanged |
| CartLines.AddToAbsent | js/supabase-config.js:132-133 | guest add of an absent product appends `{productId, quantity}` at the end |
| CartLines.AddedLength | js/supabase-config.js:126-136 | the line count (the badge number) grows by one exactly when the product was absent |
| CartLines.AddKeepsUnique | js/supabase-config.js:126-135 | find-or-increment keeps at most one line per product |
| CartLines.AddKeepsPositive | js/supabase-config.js:126-135 | adding a positive quantity keeps every quantity positive |
| CartLines.AddTwice | js/supabase-config.js:126-135 | two adds of the same product are one add of the summed quantity |
| CartLines.AddLeavesOthers | js/supabase-config.js:126-135 | an add changes only the product's own line: with that product filtered out, the cart is as before |
| CartLines.MatchCountZero | js/supabase-config.js:142-149 | no row matches exactly when the cart has no row for the product |
| CartLines.MatchCountUnique | js/supabase-config.js:142-149 | under the (customer, product) key, `.single()` finds a row exactly when one exists |
| CartLines.MemberAddIsAdd | js/supabase-config.js:142-172 | under that key, the member update-or-insert changes the rows exactly as the guest find-or-increment does |
| CartLines.SetPresent | js/auth.js:211-216 | guest update of a present product sets its first line's quantity to `newQuantity` and leaves every other line |
| CartLines.SetAbsent | js/auth.js:211-216 | guest update of an absent product inserts nothing |
| CartLines.SetAll | js/auth.js:219-223 | the member update keeps the number of rows |
| CartLines.SetFirstIsSetAll | js/auth.js:209-223 | under the unique key, the guest and member updates agree |
| CartLines.SetKeepsUnique | js/auth.js:209-223 | both updates keep at most one line per product |
| CartLines.SetKeepsPositive | js/auth.js:209-223 | updating to a quantity of at least 1 keeps every quantity positive |
| CartLines.Removed | js/auth.js:239 | `filter` never lengthens the cart |
| CartLines.RemovedHasNone | js/auth.js:239 | no line for the product survives the removal |
| CartLines.RemovedSubset | js/auth.js:239 | a line survives the filter exactly when it was in the cart and is for another product |
| CartLines.RemovedAbsent | js/auth.js:239 | removing an absent product changes nothing |
| CartLines.RemovedAppend | js/auth.js:239 | the filter distributes over concatenation |
| CartLines.RemovedIgnoresMatch | js/auth.js:239 | replacing a line for the product by another line for it is invisible after the filter |
| CartLines.RemovedUnique | js/auth.js:239 | with one line per product, removal deletes exactly that line and keeps the others in order |
| CartLines.RemovedLength | js/auth.js:239-241 | with one line per product, the badge after a removal shows one line fewer exactly when the product was present |
| CartLines.RemovedKeepsUnique | js/auth.js:239 | removal keeps at most one line per product |
| CartLines.RemovedKeepsPositive | js/auth.js:239 | removal keeps every quantity positive |
| CartView.ResolveGuestCart | js/auth.js:134-153 | the guest loop lists the lines whose product lookup succeeds, in cart order, and the total is Σ price × quantity over exactly those |
| CartView.MemberView | js/auth.js:154-167 | the member listing exists exactly when every row's product exists; it then holds one item per row, with that row's product, and its total is the Σ price × quantity of those items |
| CartView.Resolved | js/auth.js:139-153 | the listed items are no more than the lines, and each carries the catalog's product for its line |
| CartView.ItemsTotal | js/auth.js:151 | with no negative subtotal the total is never negative |
| CartView.ItemsTotalAppend | js/auth.js:151 | the running total is additive over concatenation |
| CartView.ResolvedAppend | js/auth.js:139-153 | resolving lines distributes over concatenation |
| CartView.ResolvedMembers | js/auth.js:139-153 | an item is listed exactly when its line is in the cart and its product resolves, with that product |
| CartView.ResolvedAllLength | js/auth.js:156-166 | a member cart whose products all exist loses no row |
| CartView.MissingProductIgnored | js/auth.js:146-152 | a line whose product no longer exists is skipped, in items and in the total, as if it had been removed |
| CartView.RemoveLowersTotal | js/auth.js:239-258 | with one line per product, removing a resolvable product lowers the modal total by exactly its price × quantity |
| CartView.ScenarioCart | js/supabase-config.js:126-136 | adding a product twice, one unit each time, then another product once, gives two lines, the first with two units |
| CartView.ScenarioTotals | js/auth.js:139-153 | for two resolvable products, the two-line cart totals price × 2 plus the second price, and removing the first product leaves the second line and its price |
| CartView.GuestScenario | js/supabase-config.js:126-136 | adding P1 (100) twice, one unit each time, and P2 (50) once gives two lines totalling 250; removing P1, which is what setting it to 0 does, leaves one line worth 50 |
| Wishlist.Toggled | js/auth.js:273-309 | the entry is present afterwards exactly when it was absent before; no other entry changes |
| Wishlist.ToggleTwice | js/auth.js:273-309 | two toggles of one entry restore the wishlist |
| Wishlist.ToggleSize | js/auth.js:280-300 | a toggle removes or adds exactly one entry |
| Storefront.CountBadge | js/supabase-config.js:114-120 | the badge shows `count` and is displayed exactly when `count > 0` |
| Storefront.GuestLines | js/auth.js:136 | `\|\| '[]'`: a stored slot reads back as the lines stored in it; the guest cart reads as empty exactly when the slot is missing or holds an empty array |
| Storefront.CustomerRows | js/auth.js:159-162 | a customer with rows in the `cart` table reads exactly those rows; a customer without rows reads as an empty cart |
| Storefront.GuestSlotReadBack | js/auth.js:136 | lines written to the guest slot read back unchanged |
| Storefront.CustomerRowsReadBack | js/auth.js:159-162 | writing one customer's rows is read back by that customer, and every other customer's cart reads as before |
| Storefront.CartsUniqueSetAll | js/auth.js:219-223 | a member quantity update keeps every customer's rows at one per product |
| Storefront.Shop.constructor | js/supabase-config.js:32 | nobody is signed in and the stored data is as loaded; one line per product holds exactly when the stored carts have it |
| Storefront.Shop.UpdateCartCount | js/supabase-config.js:114-120 | the badge becomes the count's badge |
| Storefront.Shop.LoadCartCount | js/supabase-config.js:93-112 | a guest's badge is the number of lines of the slot, with a missing slot read as empty; a member's badge is their number of rows; a failed query leaves the badge |
| Storefront.Shop.OnAuthStateChange | js/supabase-config.js:50-57 | the listener's callback, once registered: `currentUser` becomes the session's user or null; signing in shows the member cart's count, signing out shows 0; neither cart changes |
| Storefront.Shop.CheckAuth | js/supabase-config.js:35-46 | without a client it returns null and changes nothing; otherwise it applies the listener's rule and returns the new `currentUser` |
| Storefront.Shop.AddToCart | js/supabase-config.js:123-176 | guest: the slot becomes the find-or-increment result and the badge its line count. Member: update-or-insert on the customer's rows, or on a failed write the matching error and no other change. The other backend is never touched, and one line per product is preserved |
| Storefront.Shop.LoadCartItems | js/auth.js:125-168 | guest: the resolved lines and their total. Member: all rows with their products when every product exists, otherwise failure and the modal unchanged. A failed member query lists an empty cart |
| Storefront.Shop.RemoveFromCart | js/auth.js:235-260 | the active cart loses every line for the product; the badge, the listing and the notice follow; a failed member delete only notifies |
| Storefront.Shop.RemoveGuestLines | js/auth.js:236-241 | the guest branch: the slot is rewritten without the product's lines, the badge counts what is left, the modal lists it and the removal is announced; one line per product is kept |
| Storefront.Shop.RemoveMemberRows | js/auth.js:243-259 | the member branch after a successful delete: the customer's rows lose the product, the badge counts the rest, and the listing and notice follow only when every remaining product resolves |
| Storefront.Shop.UpdateCartQuantity | js/auth.js:203-233 | below 1 it is exactly the removal. Otherwise a guest's present line is set and an absent one leaves the slot; a member's matching rows are set; nothing is inserted |
| Storefront.Shop.SetGuestQuantity | js/auth.js:209-232 | the guest branch for a quantity of at least 1: a present line is set and the slot rewritten, an absent one leaves the slot; the modal is reloaded and the badge keeps the line count; one line per product is kept |
| Storefront.Shop.SetMemberQuantity | js/auth.js:217-232 | the member branch after a successful update: every matching row takes the quantity, then the modal and badge are reloaded as `RefreshMemberCart` says; one row per product is kept |
| Storefront.Shop.RefreshMemberCart | js/auth.js:231-232 | the modal and then the badge are reloaded from the member's rows; when a product is missing the listing throws and neither changes |
| Storefront.Shop.AddToWishlist | js/auth.js:266-310 | a guest is asked to sign in and nothing is stored. A member's entry is toggled, the heart follows the new membership and the notice says which way; a failed write changes nothing but the notice |
| Storefront.Shop.ProceedToCheckout | js/auth.js:334-345 | a guest gets the cart closed, a sign-in prompt and the sign-in modal; a member gets the coming-soon notice |
| FormRules.EmailAccepted | js/script.js:159 | an accepted email has at least five characters and an '@' that is neither its first nor its last character |
| FormRules.MatchesIndianMobile | js/script.js:168 | a matching number has ten characters and starts with a digit from 6 to 9 |
| FormRules.PhoneAccepted | js/script.js:166-168 | an accepted phone has at least ten characters (see `PhoneRule` for the exact rule) |
| FormRules.StatTarget | js/script.js:449 | the target is NaN exactly when the text holds no digit |
| FormRules.DigitsNone | js/script.js:449 | stripping non-digits leaves nothing exactly when no character is a digit |
| FormRules.IndexOfChar | js/script.js:159 | the index of the first occurrence of the character, or the length |
| FormRules.CountCharZero | js/script.js:159 | a character does not occur exactly when its count is zero |
| FormRules.CountCharOne | js/script.js:159 | a character occurring at `i` occurs exactly once when it occurs nowhere else |
| FormRules.EmailRule | js/script.js:159-160 | the email expression accepts exactly the strings with no white space, one '@' after a non-empty local part, and a '.' in the domain that is neither its first nor its last character |
| FormRules.ContactSubmission | js/script.js:158-171 | the contact form sends exactly when the email and the phone are accepted; the email is checked first |
| FormRules.NewsletterSubmission | js/script.js:272-277 | the newsletter form never reports a phone error and sends exactly for well-formed emails |
| FormRules.SameEmailRule | js/script.js:273-274 | both forms refuse the same emails |
| FormRules.Digits | js/script.js:167 | stripping non-digits leaves only digits and never lengthens the text |
| FormRules.DigitsAppend | js/script.js:167 | stripping distributes over concatenation |
| FormRules.PhoneRule | js/script.js:166-168 | a phone is accepted exactly when it has ten digits and the first is 6 to 9 |
| FormRules.SeparatorIgnored | js/script.js:167-168 | inserting a non-digit separator never changes the verdict |
| FormRules.CountryCodeRejected | js/script.js:166-168 | an accepted number written with +91 in front is refused |
| FormRules.SelectProductOption | js/script.js:243-248 | the selection becomes the first option whose value is the product name, and stays when no option matches |
| FormRules.CounterSuffix | js/script.js:425-427 | '%' wins over '+', otherwise no suffix; the suffix is never a digit |
| FormRules.DigitChar | js/script.js:432 | a digit printed is a digit character denoting it |
| FormRules.NatToDecimal | js/script.js:432 | a printed target is a non-empty run of digits |
| FormRules.DecimalRoundTrip | js/script.js:449 | reading back a printed number gives the number |
| FormRules.DigitsOfDigits | js/script.js:449 | stripping non-digits from a run of digits changes nothing |
| FormRules.StatRoundTrip | js/script.js:432-449 | the counter's final text, target plus suffix, yields that target again under the stats digit extraction |
| RealtimeProducts.Classify | js/realtime-products.js:91-104 | INSERT, UPDATE and DELETE give three distinct notifications and any other event type gives none |
| RealtimeProducts.InStock | js/realtime-products.js:11 | the in-stock filter is never longer than the table and keeps only in-stock rows |
| RealtimeProducts.InStockWith | js/realtime-products.js:11-12 | the featured and non-featured parts hold only in-stock rows with that flag |
| RealtimeProducts.Displayed | js/realtime-products.js:8-12 | the grid has exactly as many cards as the table has in-stock rows |
| RealtimeProducts.SplitByFeatured | js/realtime-products.js:11-12 | the two parts together are the in-stock rows, as a multiset |
| RealtimeProducts.InStockMembers | js/realtime-products.js:11 | a row is in the in-stock list exactly when it is in the table and in stock |
| RealtimeProducts.DisplayedOrder | js/realtime-products.js:8-12 | the grid holds only in-stock rows, featured ones before the others |
| RealtimeProducts.DisplayedContents | js/realtime-products.js:8-12 | the grid lists exactly the in-stock rows, each as often as the table holds it |
| RealtimeProducts.ProductFeed.constructor | js/realtime-products.js:2 | the slot starts empty with no channel live |
| RealtimeProducts.ProductFeed.LoadProductsFromDatabase | js/realtime-products.js:5-20 | with a client and a successful query the grid shows the displayed catalog; otherwise it keeps its cards |
| RealtimeProducts.ProductFeed.Subscribe | js/realtime-products.js:66-113 | with no client a retry is scheduled and the slot is untouched; otherwise the stored channel is unsubscribed before the new one is stored, so at most one channel is live |
| RealtimeProducts.ProductFeed.HandleEvent | js/realtime-products.js:87-108 | the event's notification if any, and a reload of the grid whatever the event type |
| RealtimeProducts.ProductFeed.PageReady | js/realtime-products.js:116-122 | the first load, then the subscription. With a client: the displayed catalog (or the old cards if the query fails) and the new channel as the only live one. Without: the cards, the slot and the live channels stay, and a retry is counted |
| RealtimeProducts.ProductFeed.Unload | js/realtime-products.js:125-129 | the stored channel is unsubscribed, leaving no live channel |
| AdminPanel.RowCount | js/admin.js:88-91 | `length \|\| 0`: the row count, or 0 when the query failed |
| AdminPanel.DashboardCounts | js/admin.js:82-91 | total and active products, orders, customers; the active count is the number of products the storefront grid lists and never exceeds the total |
| AdminPanel.ProductPayload | js/admin.js:210-222 | an empty original price and an empty badge become null; the weight, category, description and the other text fields are stored as typed and never as null |
| AdminPanel.EditForm | js/admin.js:168-179 | a null or zero original price and a null or empty weight, badge or description show as empty fields; a stored non-null weight, badge or description shows as stored; the category field is never empty, showing the stored category unless it is null or empty ('powder') |
| AdminPanel.EditThenSave | js/admin.js:168-222 | saving a product opened for edit writes back the same row, except that a zero original price and an empty badge become null, a null weight or description becomes the empty string, and a null or empty category becomes 'powder' |
| AdminPanel.UpdatedRows | js/admin.js:226-232 | the update keeps the number of rows |
| AdminPanel.UpdateKeepsRows | js/admin.js:226-232 | the update keeps every id; the row with the id gets the form's data and no other row changes |
| AdminPanel.UpdateMissingId | js/admin.js:226-232 | updating an id that no row has changes nothing |
| AdminPanel.UpdateTwice | js/admin.js:226-232 | saving the same form twice equals saving it once |
| AdminPanel.InStockAppend | js/admin.js:89 | appending a row raises the in-stock count exactly when the row is in stock |
| AdminPanel.InsertCounts | js/admin.js:233-249 | an insert raises the total by one, and the active count by one exactly when the new product is in stock |
| AdminPanel.AdminPage.constructor | js/admin.js:3 | the page starts with `adminUser` null, the login section shown, no alerts, zero stats and the modal closed |
| AdminPanel.AdminPage.LoadDashboardData | js/admin.js:82-95 | the statistics become the counts of the current tables |
| AdminPanel.AdminPage.CheckAdminAuth | js/admin.js:6-37 | true exactly when a client and a session exist and the customer record has `is_admin`. No client: nothing changes. No session: the login section. Denial: alert, sign-out, login section, `adminUser` unchanged. Grant: `adminUser` is the session user, the dashboard shows and its counts load |
| AdminPanel.AdminPage.AdminLogin | js/admin.js:40-61 | a failed sign-in only alerts; otherwise the admin check runs and a refusal adds a second alert |
| AdminPanel.AdminPage.AdminLogout | js/admin.js:64-68 | signed out, `adminUser` null, login section shown |
| AdminPanel.AdminPage.SaveProduct | js/admin.js:206-250 | a non-empty product id updates that row and an empty one inserts a new row. A failed write only alerts. A success alerts, closes the modal and refreshes the counts. Ids stay unique when the inserted id is new |
| ClientBinding.Declared | js/supabase-config.js:11-17 | the committed config binds only `supabaseClient` to its client, the template (js/supabase-config.example.js:14) only `supabase` |
| ClientBinding.Lookup | js/supabase-config.js:15-16 | a bound name is the client; an unbound `supabase` is the library's global namespace; an unbound `supabaseClient` is nothing |
| ClientBinding.Resolve | js/supabase-config.js:11-17 | under the committed config `supabaseClient` is the client and `supabase` the library namespace; under the template `supabase` is the client and `supabaseClient` is undeclared |
| ClientBinding.NameAt | js/auth.js:140 | the config's cart code and the auth script use `supabase`; the admin page and the live grid (js/admin.js:7, js/realtime-products.js:6) use `supabaseClient`; the config's session code uses its own config's name |
| ClientBinding.TargetAsWritten | js/supabase-config.js:101 | a site reaches the client exactly when its name is the one its config binds |
| ClientBinding.MainConfigMissesClient | js/supabase-config.js:101-162 | under the committed config the config's cart code and the auth script reach the library namespace, while its session code reaches the client |
| ClientBinding.TemplateConfigMissesClient | js/admin.js:7 | under the template the admin page and the live grid (js/realtime-products.js:6,67) read an undeclared `supabaseClient`, while the auth script reaches the client |
| ClientBinding.NoConfigServesEverySite | js/supabase-config.js:101-162 | under either config some site misses the client |
| ClientBinding.DeclaredFixed | js/supabase-config.js:11-17 | the corrected configs bind both names, keeping the one they bind now |
| ClientBinding.EverySiteReachesClient | js/supabase-config.js:11-17 | with both names bound, every site under either config reaches the client, and a site that reached it before is unaffected |
| ClientBinding.ConfigCompletes | js/supabase-config.example.js:14 | the committed config always runs to its end; the template does so exactly when the library loaded first, since its unguarded `createClient` throws otherwise |
| ClientBinding.ListenerRegistered | js/supabase-config.js:24-49 | under either config the auth listener is registered exactly when the library loaded before the config, and only by a config that ran to its end: the template's registration (js/supabase-config.example.js:35) follows a statement that throws without the library; the committed config's is skipped when the init is deferred to `load` |

## Findings

| source | as written | input that shows it | evidently intended | confidence | as-written member | corrected member |
|---|---|---|---|---|---|---|
| js/supabase-config.js:11-17 | the committed config binds the client only to `supabaseClient`, while its own cart functions and js/auth.js call `supabase.from`/`supabase.auth`, which then name the library's namespace | the committed config, any signed-in cart call (`TargetAsWritten(MainConfig, ConfigCart) == LibraryNamespace`) | every backend call reaches the created client | not executed | ClientBinding.MainConfigMissesClient | ClientBinding.DeclaredFixed |
| js/supabase-config.example.js:14 | the template binds the client only to `supabase`, while js/admin.js:7 and js/realtime-products.js:6,67 read `supabaseClient` | the template config, opening the admin page (`TargetAsWritten(TemplateConfig, AdminScript) == Undeclared`) | the admin page and the live grid reach the created client | not executed | ClientBinding.TemplateConfigMissesClient | ClientBinding.DeclaredFixed |

## Left out

- Rendering. The HTML of the product cards, the cart list and the admin
  table; modals beyond open/closed flags; the loader; scrolling and nav
  highlighting; animations; and the WhatsApp button. Notices are recorded as
  values, and their timers are left out.
- Backend internals. The auth service, the query builder, realtime transport,
  the contact form's `fetch` to the form service, and the JSON encoding of the
  storage slot. Each is a foreign call and is represented by its outcome.
- Sign-up, sign-in and sign-out of the storefront (js/auth.js:6-74) are
  session changes made by the auth service. Their effect on the storefront
  is `OnAuthStateChange`.
- Auth modal mode switching, the user dropdown and `updateWishlistButton`'s
  class juggling. The heart state is kept as a boolean per product.
- The admin table's `loadProducts`, and `deleteProduct` with its
  confirmation dialog. They render or delete rows and state nothing the
  counts do not.
- Floating point. Prices are whole numbers of the smallest unit, so
  `toFixed(2)` is left out. So are `parseFloat`, which appears only as the
  `parse` parameter, and `animateCounter`'s fractional steps and interval
  timer. Only its final text is modelled.
- FormRules.StatTarget: JavaScript numbers are doubles. `parseInt` of the
  stripped digits is exact only below 2^53 and gives `Infinity` for a run of
  more than about 309 digits; the model's `nat` is unbounded and exact.
- FormRules.NatToDecimal: JavaScript prints a number of 1e21 or more in
  exponent form (`1e+21`), which the model's plain digit run does not.
- FormRules.StatRoundTrip: the round trip holds in JavaScript only for
  targets below 2^53; from 1e21 the printed `1e+21+` reads back as 121. The
  model states it for every `nat`.
- Cart quantities and totals (js/supabase-config.js:130, js/auth.js:151 and
  :166) are doubles in JavaScript, exact only below 2^53; the model's `int`
  is unbounded.
- CartLines.MemberAdded / CartView.MemberView: the member cart query
  (js/auth.js:156-162) has no `.order`, so the backend returns rows in an
  unspecified order. The model's sequence order stands for it, with an
  inserted row last. Totals and the badge do not depend on it; the listing
  does.
- Concurrency. Async interleaving, double clicks, other tabs and the
  one-second start-up and retry timers. A retry is counted, not run.
- Storefront.Shop.LoadCartItems: a guest line's product query failed and a
  query that found no product look the same from the page; both are modelled
  as the product being absent from the catalog.
- Storefront.Shop.AddToCart: the member lookup's error is ignored by the page
  and is not modelled. The reads the page makes after a successful write are
  taken to succeed. The same holds for the member branches of RemoveFromCart
  and UpdateCartQuantity, and for the wishlist `.single()` lookup of
  AddToWishlist (js/auth.js:273-278), which is taken to find the entry
  exactly when it is stored.
- RealtimeProducts.Displayed: the backend leaves the order among rows with
  the same `featured` flag unspecified. The model takes table order, and
  `DisplayedOrder` and `DisplayedContents` state only what every such order satisfies.
- RealtimeProducts.ProductFeed.HandleEvent: the handler only runs once a
  client exists, so its reload is the client-present case.
- AdminPanel.AdminPage.CheckAdminAuth: the dashboard's products query is
  taken to succeed. The `orders` and `customers` tables are reduced to their
  row counts.
- AdminPanel.AdminPage.SaveProduct: a price field that does not parse (NaN)
  is outside the integer model.
- The client names. The template config binds its client to `supabase`
  (js/supabase-config.example.js:14) and never declares `supabaseClient`,
  which js/admin.js:7 and js/realtime-products.js:6,67 read. The committed
  config binds only `supabaseClient` and never declares `supabase`, so every
  `supabase.from` and `supabase.auth` call (js/supabase-config.js:101-182 and
  all of js/auth.js) reaches the library's namespace `window.supabase`.
  `ClientBinding` models this as written (see Findings). The `Shop`,
  `ProductFeed` and `AdminPage` methods assume the evidently intended
  binding, `ClientBinding.DeclaredFixed`, under which every call reaches the
  one client.
- Storefront.Shop.OnAuthStateChange: models the listener's callback. Whether
  either config registers the listener at all is
  `ClientBinding.ListenerRegistered`, which the `Shop` class does not track.
  Under the template without the library, the config stops at its first
  statement, so its `checkAuth` would throw on the uninitialised `supabase`
  rather than run; the `Shop` methods assume a loaded library.
- Comparisons and lengths are over code points, while JavaScript counts
  UTF-16 code units; the email and phone rules only compare characters.
