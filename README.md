# cms-next-stripe storefront core, modelled in Dafny

This project models the core of a Next.js storefront that sells digital
products through Stripe. The core covers:

- the 5% transaction fee and the server-side fee helpers;
- the browser cart (`useCart`) and the `localStorage` helpers behind it;
- the recently viewed products kept by the app provider;
- Stripe Checkout session requests for a cart and for a subscription;
- webhook verification, dispatch and page revalidation;
- the order queries and download links;
- the notification centre;
- the fee hook;
- the product list hook;
- the customer search and the customer form.

Amounts are integer cents. A JavaScript number that may be `NaN` is the
datatype `Js.Number`. Truthiness, `trim`, `toLowerCase`, `includes`, `split`
and `join` are written out in module `Js`.

Some parts of the system are inputs to the model instead:

- Stripe calls become function-typed parameters: `checkout.sessions.create`,
  `paymentIntents.list` and `retrieve`, `products.retrieve`, customer
  create/update, `webhooks.constructEvent`, and the product queries and search.
- Environment values (`NEXT_PUBLIC_APP_URL`, `STRIPE_WEBHOOK_SECRET`), the
  clock (`Date.now()`) and notification ids are also parameters.
- Whether `window` exists is the constant `Db.ClientDb.hasWindow`.

State that the source updates in place becomes a class:

- `Cart.CartStore` holds the cart context.
- `Db.ClientDb` holds `localStorage`.
- `AppContext.AppState` holds the app provider.
- `Notifications.NotificationCenter` holds the notification provider.
- `FeeHook.FeeTracker` holds the fee hook.
- `Products.ProductCatalog` holds the product hook.
- `CustomerForm.CustomerFormState` holds the customer form.
- `Webhooks.PageCache` holds the Next.js page cache that `revalidatePath` writes to.

Each method states its new state through the specification functions beside
it. The lemmas state the properties of those functions.

Modules, one per file: `Wrappers`, `Js`, `Lists`, `Sorting`, `Domain`, `Utils`,
`TransactionFee`, `Db`, `Cart`, `Checkout`, `Webhooks`, `WebhookRoute`,
`Orders`, `OrderQueries`, `Notifications`, `FeeHook`, `Products`,
`AppContext`, `CustomerList`, `CustomerForm`.

## Model

| member | source | states |
|---|---|---|
| Utils.TransactionFee | src/lib/utils.js:51-53 | `Math.round(amount * 0.05)`: the fee is within half a cent of 5% of the amount, `20*fee - 10 <= amount < 20*fee + 10`, with halves rounded up |
| Utils.FeeIsUnique | src/lib/utils.js:51-53 | the fee is the only integer within those bounds, so it is the rounding of amount/20 |
| Utils.FeeSamples | src/lib/utils.js:51-53 | reference values: 10000 gives 500, 10 gives 1 (a half, rounded up), 9 gives 0, 2000 gives 100 |
| Utils.FeeBounds | src/lib/utils.js:51-53 | on a non-negative amount, the fee lies between 0 and the amount |
| Utils.FeeMonotone | src/lib/utils.js:51-53 | the fee never decreases as the amount grows |
| Utils.Total | src/lib/utils.js:56-59 | the total minus the subtotal is the fee; the total is within half a cent of 105% of the subtotal |
| Utils.FeeOfNumber | src/lib/utils.js:51-53 | the fee of a number that may be NaN: NaN exactly when the input is NaN, otherwise the integer fee |
| Utils.TruncateText | src/lib/utils.js:34-37 | empty or short enough text is returned as is; otherwise the result is the first `maxLength` characters plus `...`, or `...` alone for a negative limit |
| Utils.IsValidEmail | src/lib/utils.js:45-48 | true exactly when the string matches `^[^\s@]+@[^\s@]+\.[^\s@]+$` (predicate `MatchesEmailPattern`: some `@` and a later `.` split it into three non-empty runs free of white space and `@`) |
| Utils.EmailPatternAtFirstAt | src/lib/utils.js:45-48 | the pattern holds exactly when the first `@` is not at the start, and no white space or second `@` occurs, and a `.` follows the `@` with something between and after them |
| Utils.ReplaceSpaceRuns | src/lib/utils.js:87 | `.replace(/\s+/g, '-')` leaves no white space and adds no upper-case letter |
| Utils.RemoveNonWord | src/lib/utils.js:88 | `.replace(/[^\w-]+/g, '')` leaves only word characters and hyphens |
| Utils.CollapseHyphens | src/lib/utils.js:89 | `.replace(/--+/g, '-')` leaves no two hyphens in a row and keeps slug characters |
| Utils.CreateSlug | src/lib/utils.js:84-91 | with ASCII case folding, the result holds only lower-case letters, digits, `_` and `-`, never two hyphens in a row, and no white space |
| Utils.SlugHasNoSpace | src/lib/utils.js:90 | `trim` leaves a string of slug characters unchanged |
| Utils.ReplaceSpaceRunsNoSpace | src/lib/utils.js:87 | the white-space replacement is the identity on text without white space |
| Utils.CollapseHyphensSlug | src/lib/utils.js:89 | the hyphen collapse is the identity on text without a hyphen pair |
| Utils.SlugIsFixedPoint | src/lib/utils.js:84-91 | `createSlug` returns a slug unchanged |
| Utils.CreateSlugIdempotent | src/lib/utils.js:84-91 | `createSlug(createSlug(t)) == createSlug(t)` for every text |
| TransactionFee.GetTransactionFee | src/lib/stripe/transaction-fee.js:10-24 | fails with `Invalid amount provided` exactly for NaN, 0 or a negative amount; otherwise quotes the amount, its fee, its total and 5 |
| TransactionFee.QuoteBounds | src/lib/stripe/transaction-fee.js:15-23 | in a quote, 0 <= fee <= subtotal <= total |
| TransactionFee.LineSum | src/lib/stripe/transaction-fee.js:37-39 | the sum of `amount * quantity` is NaN exactly when some line has no `amount` |
| TransactionFee.FeeLine | src/lib/stripe/transaction-fee.js:45-57 | the fee line is one USD line named `Transaction Fee (5%)`, charging the fee once, with no `price` reference |
| TransactionFee.AddTransactionFeeToLineItems | src/lib/stripe/transaction-fee.js:31-58 | an empty list comes back as is; otherwise the lines are kept in order and exactly one fee line is appended; its unit amount is NaN exactly when some line lacks `amount` |
| TransactionFee.FeeOfAmounts | src/lib/stripe/transaction-fee.js:37-42 | when every line carries `amount`, the fee line charges the integer fee of the summed amounts |
| TransactionFee.AddFeeFromUnitAmounts | src/lib/stripe/transaction-fee.js:31-58 | the corrected helper: the same shape, but the fee line charges the fee of the summed `unit_amount * quantity` |
| Domain.UnitPrice | src/hooks/use-cart.js:61 | `defaultPrice?.unit_amount \|\| 0`: the default price's unit amount when both are present, otherwise 0 |
| Db.ListJson | src/lib/db.js:16-19 | `JSON.stringify` of a list is an array with one encoded element per entry, in order |
| Db.AsList | src/lib/db.js:10-14 | a parsed value is a list exactly when it is an array whose every element decodes; the elements are then decoded in order |
| Db.ListJsonRoundTrip | src/lib/db.js:13-18 | decoding what was encoded gives the list back, for any encoding with a left inverse |
| Db.CartJsonRoundTrip | src/lib/db.js:10-19 | a saved cart parses back to the same lines |
| Db.ProductsJsonRoundTrip | src/lib/db.js:27-42 | a saved product list parses back to the same products |
| Db.ReadList | src/lib/db.js:10-14 | `getCart`/`getRecentProducts`: `[]` without a window, for a missing key or for an empty string; text that is not JSON fails; a stored list reads back as its decoded elements, and a non-list value fails |
| Db.Written | src/lib/db.js:52-55 | `setItem` sets exactly one key, and only when a window exists |
| Db.Removed | src/lib/db.js:57-60 | `removeItem` removes exactly one key, and only when a window exists |
| Db.ReadValue | src/lib/db.js:46-50 | `getStoredValue` gives the default without a window or for a missing key, the parsed value otherwise, and fails on text that is not JSON |
| Db.ReadListAfterWrite | src/lib/db.js:10-19 | reading a key after writing a list to it gives the list back |
| Db.ReadCartAfterRemove | src/lib/db.js:21-24 | after `clearCart`, `getCart` gives `[]` |
| Db.StoredValueRoundTrip | src/lib/db.js:46-60 | `getStoredValue` after `setStoredValue` gives the value; after `removeStoredValue` it gives the default |
| Db.PushRecent | src/lib/db.js:38-40 | the product is first, followed by the old entries with other ids in their order, cut to 5 entries in all; unique ids stay unique |
| Db.PushRecentKeepsOthersWhenRoom | src/lib/db.js:38-40 | while the list holds fewer than 5 entries, every entry with another id is kept |
| Db.PushRecentAgain | src/lib/db.js:36-42 | pushing the product that is already first, onto at most five entries with unique ids, changes nothing (idempotence) |
| Db.ClientDb.GetCart | src/lib/db.js:10-14 | returns `ReadList` of the cart key |
| Db.ClientDb.SaveCart | src/lib/db.js:16-19 | the store afterwards holds the encoded cart under the cart key, and nothing else changes |
| Db.ClientDb.ClearCart | src/lib/db.js:21-24 | the cart key is removed and nothing else changes |
| Db.ClientDb.GetRecentProducts | src/lib/db.js:27-31 | returns `ReadList` of the recent-products key |
| Db.ClientDb.AddRecentProduct | src/lib/db.js:33-43 | without a window nothing changes; a stored list that does not parse fails and nothing is written; otherwise the stored list becomes `PushRecent` of the old one |
| Db.ClientDb.GetStoredValue | src/lib/db.js:46-50 | returns `ReadValue` |
| Db.ClientDb.SetStoredValue | src/lib/db.js:52-55 | the store becomes `Written` |
| Db.ClientDb.RemoveStoredValue | src/lib/db.js:57-60 | the store becomes `Removed` |
| Cart.NewLine | src/hooks/use-cart.js:57-65 | the new line copies the id, name and description; its price is `UnitPrice`; it has a price id exactly when there is a default price and an image exactly when the product has images |
| Cart.AddLine | src/hooks/use-cart.js:45-67 | a product already in the cart adds no line and bumps each line with its id to `(quantity \|\| 1) + quantity`, other lines unchanged; otherwise the new line is appended |
| Cart.AddLineIsUpdate | src/hooks/use-cart.js:46-54 | with unique ids, adding an existing product changes exactly the one line with its id |
| Cart.AddLineKeepsUnique | src/hooks/use-cart.js:45-67 | adding keeps product ids unique |
| Cart.AddLinePositive | src/hooks/use-cart.js:45-67 | adding at least one keeps every quantity at least one |
| Cart.AddExistingTotals | src/hooks/use-cart.js:50-54 | bumping an existing line raises the count by `quantity` and the subtotal by `quantity` times that line's price |
| Cart.AddNewTotals | src/hooks/use-cart.js:57-65 | appending a new line raises the count by `quantity` and the subtotal by `quantity` times the unit price |
| Cart.AddLineTotals | src/hooks/use-cart.js:44-67 | with unique ids and positive quantities, `addItem` raises the item count by exactly `quantity`, and the subtotal by `quantity` unit prices |
| Cart.RemoveLine | src/hooks/use-cart.js:79-81 | drops exactly the lines with the id and keeps the rest in order; an absent id changes nothing; unique ids and positive quantities are preserved |
| Cart.SetLineQuantity | src/hooks/use-cart.js:94-100 | every line with the id gets the quantity, and the others are unchanged |
| Cart.SetLineQuantityKeeps | src/hooks/use-cart.js:94-100 | setting a quantity changes no id, keeps ids unique, and keeps quantities positive when the new one is |
| Cart.CountCoversLines | src/hooks/use-cart.js:36 | with positive quantities, the item count is at least the number of lines |
| Cart.CartTotalsAgree | src/hooks/use-cart.js:125-131 | the cart total is the subtotal plus the cart fee, within half a cent of 105% of the subtotal |
| Cart.CartStore.Persist | src/hooks/use-cart.js:34-37 | the save effect: the lines are written to the store and the item count is recomputed |
| Cart.CartStore.Hydrate | src/hooks/use-cart.js:23-31 | a saved non-empty cart replaces the lines, with the count kept in step; a missing, empty or unreadable cart changes nothing |
| Cart.CartStore.AddItem | src/hooks/use-cart.js:44-73 | the lines become `AddLine` of the old ones, the drawer opens, and the lines are saved; unique ids stay unique and the count grows by exactly `quantity` |
| Cart.CartStore.RemoveItem | src/hooks/use-cart.js:79-81 | the lines become `RemoveLine`, the drawer is unchanged, and the lines are saved |
| Cart.CartStore.UpdateQuantity | src/hooks/use-cart.js:88-101 | a quantity below 1 removes the lines; otherwise it sets them; unique ids and positive quantities are preserved |
| Cart.CartStore.ClearCart | src/hooks/use-cart.js:106-108 | the lines are empty, the count is 0, and `[]` is saved |
| Cart.CartStore.OpenCart | src/hooks/use-cart.js:113-115 | the drawer is open and the lines are unchanged |
| Cart.CartStore.CloseCart | src/hooks/use-cart.js:120-122 | the drawer is closed and the lines are unchanged |
| Checkout.AppDomain | src/lib/stripe/checkout.js:11 | the app URL when it is truthy, `http://localhost:3000` otherwise |
| Checkout.CartLineItem | src/lib/stripe/checkout.js:26-40 | a cart line becomes inline USD pricing at its unit price, with quantity `\|\| 1`, its name, its description `\|\| ''` and its product id, and no `amount` field |
| Checkout.CartLineItems | src/lib/stripe/checkout.js:26-40 | one line item per cart line, in order |
| Checkout.Ids | src/lib/stripe/checkout.js:55 | the cart's ids, in order |
| Checkout.CreateCheckoutSession | src/lib/stripe/checkout.js:19-66 | a missing or empty cart fails with `Cart is empty`; otherwise it succeeds exactly when Stripe does, returns `{url, sessionId}`, or fails with the prefixed message |
| Checkout.EmptyCartSkipsProvider | src/lib/stripe/checkout.js:20-22 | an empty cart gives the same answer whatever Stripe would do |
| Checkout.CheckoutRequestShape | src/lib/stripe/checkout.js:43-59 | the payment request has one line per cart line in order, then exactly one fee line; payment mode; the customer as given; and `productIds` as the comma-joined ids |
| Checkout.ProductIdsRoundTrip | src/lib/stripe/checkout.js:54-56 | splitting `productIds` on commas gives the cart's ids back when no id holds a comma |
| Checkout.CartFeeLineIsNaN | src/lib/stripe/checkout.js:43 | on every non-empty cart, the fee line's unit amount is NaN (see Findings) |
| Checkout.UnitSumIsSubtotal | src/lib/stripe/checkout.js:26-40 | summing `unit_amount * quantity` over the cart's line items gives the cart's subtotal |
| Checkout.IntendedFeeMatchesCart | src/lib/stripe/checkout.js:42-43 | with the corrected helper, the fee line charges exactly the fee the cart shows |
| Checkout.CreateSubscriptionCheckout | src/lib/stripe/checkout.js:75-117 | `Product is required`, then `Price ID is required`, are checked before Stripe is called; a Stripe failure is prefixed; otherwise `{url, sessionId}` |
| Checkout.SubscriptionRequestShape | src/lib/stripe/checkout.js:81-110 | the request has the price once, then a one-time fee of 5% of the product price (NaN for a non-numeric price); subscription mode; and the product id as metadata |
| Webhooks.VerifyStripeWebhook | src/lib/stripe/webhooks.js:16-33 | a falsy secret fails before checking; otherwise it gives the verified event, or the prefixed verification error |
| Webhooks.HandlerFor | src/lib/stripe/webhooks.js:177-198 | a handler exists exactly for the five handled event types |
| Webhooks.HandlerEffects | src/lib/stripe/webhooks.js:40-170 | `/orders` is revalidated only on a payment success; the customer page exactly on a payment success or a new subscription with a customer; the failed payment revalidates nothing; the result id follows the event kind |
| Webhooks.Revalidated | src/lib/stripe/webhooks.js:45-48 | the paths revalidated are the longest prefix of accepted paths, stopping at the first refusal |
| Webhooks.Dispatch | src/lib/stripe/webhooks.js:177-198 | unhandled types give `{success: true, handled: false}`; a handled type fails exactly when one of its paths is refused |
| Webhooks.DispatchLog | src/lib/stripe/webhooks.js:177-198 | an unhandled type revalidates nothing |
| Webhooks.PageCache.RevalidatePath | src/lib/stripe/webhooks.js:45 | an accepted path is appended to the revalidated paths; a refused one changes nothing |
| Webhooks.RunHandler | src/lib/stripe/webhooks.js:40-64 | the handler loop revalidates exactly `Revalidated` of its paths, and succeeds exactly when all are accepted |
| Webhooks.ProcessWebhookEvent | src/lib/stripe/webhooks.js:177-198 | the result is `Dispatch` and the cache gains exactly `DispatchLog` |
| WebhookRoute.Post | src/app/api/webhooks/stripe/route.js:9-38 | the response is `PostResponse` and the cache gains exactly `PostLog` |
| WebhookRoute.MissingSignatureRejected | src/app/api/webhooks/stripe/route.js:14-19 | a missing signature gets 400 `Missing stripe signature`, and nothing is revalidated |
| WebhookRoute.FailClosed | src/app/api/webhooks/stripe/route.js:24-36 | a 200 needs a signature, a secret and a verified event; a failed verification gets 400 with its message and revalidates nothing |
| WebhookRoute.VerifiedEventAnswered | src/app/api/webhooks/stripe/route.js:27-36 | a verified event gets 200 exactly when dispatch succeeds, with its result as the body; otherwise 400 with the handler's message; unhandled types get 200 |
| Orders.PaidOnly | src/lib/stripe/orders.js:21-23 | keeps exactly the `succeeded` and `processing` intents, in order and with their multiplicity |
| Orders.GetOrders | src/lib/stripe/orders.js:14-28 | a listing failure gives `Failed to fetch orders`; otherwise the paid intents |
| Orders.GetCustomerOrders | src/lib/stripe/orders.js:60-77 | a falsy id fails before Stripe is asked; a listing failure gives its message; otherwise the paid intents |
| Orders.ProductIdsOf | src/lib/stripe/orders.js:101-102 | no metadata, or an empty `productIds`, gives no ids |
| Orders.LinksFor | src/lib/stripe/orders.js:104-113 | succeeds exactly when every product lookup does, with one link per id in order |
| Orders.DownloadLinks | src/lib/stripe/orders.js:84-121 | a falsy id fails with `Order ID is required`; every other failure is `Failed to generate download link`; success needs a retrieved `succeeded` order |
| Orders.GenerateOrderDownloadLink | src/lib/stripe/orders.js:84-121 | the result is `DownloadLinks`: the order checks first, then the links the loop builds |
| Orders.BuildLinks | src/lib/stripe/orders.js:103-112 | the loop over the product ids computes `LinksFor`: one link per id in order, or the failure at the first lookup that fails |
| Orders.UnpaidOrderGetsNoLinks | src/lib/stripe/orders.js:91-93 | an order not `succeeded`, including a `processing` one, gets no links |
| Orders.LinksFollowProductIds | src/lib/stripe/orders.js:101-113 | for `productIds` joined from comma-free ids, there is one link per id in order, at `/api/download/<order>/<product>`, expiring seven days from now |
| OrderQueries.FilterByStatus | src/hooks/use-orders.js:46-52 | a falsy status or `all` gives every order; otherwise exactly the orders with that status, in order |
| OrderQueries.SortByDate | src/hooks/use-orders.js:55-64 | a permutation, newest first for `desc` (the default) and oldest first otherwise |
| OrderQueries.FilterByDateRange | src/hooks/use-orders.js:67-79 | as written: with no bounds, all orders; otherwise those whose `created` lies within the bounds, inclusive, with `created` read as milliseconds |
| OrderQueries.DateRangeDropsOrderOnStartInstant | src/hooks/use-orders.js:76-77 | an order created at the range's start instant is dropped (see Findings) |
| OrderQueries.FilterByDateRangeSeconds | src/hooks/use-orders.js:67-79 | corrected: the same filter with `created` converted from seconds to milliseconds |
| OrderQueries.DateRangeKeepsOrderOnStartInstant | src/hooks/use-orders.js:75-78 | corrected: a range starting at an order's creation instant keeps that order |
| Notifications.MakeNotification | src/context/notification-context.js:39-45 | the type defaults to `info` when falsy and the duration to 5000 when falsy; the id and message are copied |
| Notifications.WithoutId | src/context/notification-context.js:61-63 | keeps exactly the notifications with another id, in order |
| Notifications.RemoveUndoesAdd | src/context/notification-context.js:47-63 | removing the id of a notification just added, with no older one sharing it, restores the list |
| Notifications.RemoveDropsSameIdTwins | src/context/notification-context.js:39-62 | two notifications added in the same millisecond share an id and are removed together |
| Notifications.NotificationCenter.AddNotification | src/context/notification-context.js:38-55 | appends the built notification, and schedules its removal exactly when the duration is positive |
| Notifications.NotificationCenter.RemoveNotification | src/context/notification-context.js:61-63 | the list becomes `WithoutId` and the timers are unchanged |
| Notifications.NotificationCenter.ClearNotifications | src/context/notification-context.js:68-70 | the list is empty |
| FeeHook.CalculateFeeFor | src/hooks/use-transaction-fee.js:28-38 | echoes the amount and 5; the fee is within half a cent of 5%; the total is the amount plus the fee |
| FeeHook.CalculatorAgreesWithQuote | src/hooks/use-transaction-fee.js:28-38 | on every positive amount, the client calculator and the server quote agree |
| FeeHook.FeeTracker.FeeAmount | src/hooks/use-transaction-fee.js:20 | the fee of the current subtotal |
| FeeHook.FeeTracker.TotalAmount | src/hooks/use-transaction-fee.js:21 | the subtotal plus its fee |
| FeeHook.FeeTracker.UpdateSubtotal | src/hooks/use-transaction-fee.js:44-46 | the subtotal is set, and the derived fee and total equal the calculator's |
| Products.QueryFor | src/hooks/use-products.js:28-32 | a truthy category queries by category; otherwise all products |
| Products.OfType | src/hooks/use-products.js:79-93 | no type or `all` gives all products; `subscription` gives exactly those with a recurring price; any other type gives exactly those without one; always an order-preserving subsequence |
| Products.SortedByPrice | src/hooks/use-products.js:96-105 | a permutation, ascending by `UnitPrice` for `asc` (the default) and descending for any other direction |
| Products.SortedByPricePairs | src/hooks/use-products.js:97-102 | the order holds for every pair, not only for neighbours |
| Products.CategoriesOf | src/hooks/use-products.js:108-118 | the distinct truthy categories; a category is listed exactly when some product carries it |
| Products.CategoriesGrow | src/hooks/use-products.js:111-117 | the categories of a prefix of the products are a prefix of the categories (first-appearance order) |
| Products.ProductCatalog.FetchProducts | src/hooks/use-products.js:21-42 | the query follows the category; success replaces both lists and clears the error; a failure keeps them and records `message \|\| 'Failed to fetch products'` |
| Products.ProductCatalog.HandleSearch | src/hooks/use-products.js:50-69 | a missing query, or one shorter than 3 UTF-16 code units once trimmed, shows all products without searching; otherwise it shows the results, or all products and the error message |
| Products.AstralQuerySearches | src/hooks/use-products.js:52 | a query of two characters, one of them beyond U+FFFF, is long enough to search |
| Products.PaddedQueryIsShort | src/hooks/use-products.js:52 | the white space around ` ab ` does not count, so it is too short to search |
| Products.ProductCatalog.FilterByType | src/hooks/use-products.js:79-93 | the displayed list becomes `OfType` of the products |
| Products.ProductCatalog.SortByPrice | src/hooks/use-products.js:96-105 | the displayed list becomes `SortedByPrice` of itself |
| Products.ProductCatalog.Categories | src/hooks/use-products.js:108-118 | the loop computes `CategoriesOf` of the products |
| Products.ProductCatalog.ChangeCategory | src/hooks/use-products.js:121-123 | sets the category and leaves the lists, the error and the loading flag alone |
| AppContext.StoredListReadsBack | src/context/app-context.js:46-62 | the list the save effect writes is read back as the same products on the next mount |
| AppContext.AppState.Persist | src/context/app-context.js:61-63 | the list is written under `recentlyViewedProducts` |
| AppContext.AppState.Restore | src/context/app-context.js:33-48 | a stored product list replaces the state; no window, nothing stored, or an unreadable value changes nothing |
| AppContext.AppState.AddToRecentlyViewed | src/context/app-context.js:69-79 | no product changes nothing; otherwise the list becomes `PushRecent`: the product first, no other entry with its id, at most 5 entries, the others in their order, unique ids kept, and the list saved |
| AppContext.AppState.ClearRecentlyViewed | src/context/app-context.js:84-86 | the list is empty and `[]` is saved |
| CustomerList.FilterCustomers | src/components/customer/customer-list.js:27-33 | an empty query gives every customer; otherwise exactly the customers whose name or email contains the query ignoring ASCII case, or whose phone contains it as typed; always an order-preserving subsequence |
| CustomerList.MissingFieldsNeverMatch | src/components/customer/customer-list.js:29-31 | a customer with no name, email or phone matches no query |
| CustomerList.NameMatchIgnoresCase | src/components/customer/customer-list.js:29 | a name that contains the query anywhere, in another ASCII case, matches |
| CustomerList.PhoneMatchExact | src/components/customer/customer-list.js:31 | a phone that contains the query matches |
| CustomerList.FilterCustomersIdempotent | src/components/customer/customer-list.js:27-33 | searching the search results again with the same query changes nothing |
| CustomerForm.ValidateForm | src/components/forms/customer-form.js:34-51 | no email gives `Email is required`; an invalid one gives `Please enter a valid email`; no name gives `Name is required` |
| CustomerForm.ValidExactlyWhenFilled | src/components/forms/customer-form.js:37-50 | the form is valid exactly when the email matches the address pattern and a name is given |
| CustomerForm.SaveFor | src/components/forms/customer-form.js:66-78 | an existing customer is updated by id; otherwise one is created |
| CustomerForm.Outcome | src/components/forms/customer-form.js:68-88 | a success notification names the create or update; a failure shows `message \|\| 'Failed to save customer'` as an error |
| CustomerForm.CustomerFormState.Validate | src/components/forms/customer-form.js:34-51 | records `ValidateForm` and returns true exactly when no error was recorded |
| CustomerForm.CustomerFormState.HandleSubmit | src/components/forms/customer-form.js:54-92 | an invalid form makes no call and changes no notification; a valid one makes the create or update call, adds one notification for the outcome and one 5000 ms dismissal timer for it, and redirects to the customer list only on success |
| Js.Trim | src/hooks/use-products.js:52 | `trim` gives the slice of the input left once the white space at both ends is removed: everything outside it is white space, it neither starts nor ends with white space, and it is the input itself when that holds none |
| Js.Utf16Length | src/hooks/use-products.js:52 | `length` counts UTF-16 code units: between one and two per character, exactly one each when no character lies beyond U+FFFF |
| Js.Includes | src/components/customer/customer-list.js:29-31 | `includes` holds exactly when the substring occurs at some index |
| Js.ToLowerCase | src/components/customer/customer-list.js:29 | ASCII case only: same length, each ASCII capital becomes its lower-case letter, and every other character is kept |
| Js.JoinSplit | src/lib/stripe/checkout.js:55 | splitting a string and joining the parts with the same separator gives the string back |
| Js.SplitJoin | src/lib/stripe/orders.js:102 | splitting comma-joined ids that hold no comma gives the ids back |
| Lists.Filter | src/hooks/use-cart.js:80 | `filter` keeps exactly the elements satisfying the predicate, as an order-preserving subsequence |
| Lists.FilterCounts | src/hooks/use-cart.js:80 | `filter` keeps each satisfying element with its multiplicity and drops the others |
| Sorting.SortBy | src/hooks/use-products.js:97-102 | sorting by a key gives a permutation, ordered by the key |

## Left out

- Input shapes the code does not handle are not modelled. This covers non-array inputs to `createCheckoutSession` and `addTransactionFeeToLineItems`, and `NaN` or non-integer quantities and prices in the cart. Quantities and prices are integers throughout.
- Stored JSON is a product list, a cart, or an opaque value. A stored value of another shape is treated as a failure (`Db.ShapeError`), where JavaScript would carry it on.
- `AppContext.AppState.Restore`: a stored value that is not a product list leaves the state unchanged. The mount-time write of the initial `[]` before the restored list is not modelled.
- The sidebar and currency preferences of the app provider are not modelled. They are plain stored values.
- `FeeHook.FeeTracker`: the effect that copies a changed `amount` into the subtotal is `UpdateSubtotal`. The fee display text uses `Intl` formatting, which is left out.
- Floating point is left out. `Math.round(amount * 0.05)` is modelled as exact rounding of amount/20, halves up. Double-precision error on very large amounts is ignored.
- HMAC signature checking inside `stripe.webhooks.constructEvent` is a parameter. The same holds for every Stripe SDK call and its network errors.
- Timers are recorded, not fired. The `setTimeout` removals of notifications and the 500 ms debounce of the product search are left out. `Date.now()` is read once per call and passed in.
- Loading flags are modelled only where a method sets them (`Products`, `CustomerForm`). React's render scheduling is not modelled.
- `recurring: null` on the subscription fee line is not part of `TransactionFee.LineItem`. The line's one-time nature is only named.
- Notification ids come from `Date.now().toString()`. Two notifications added in the same millisecond collide; `Notifications.RemoveDropsSameIdTwins` states what follows from that.
- `Orders.PaidOnly` counts `processing` intents as paid, while `generateOrderDownloadLink` requires `succeeded`. Both are modelled as written; `Orders.UnpaidOrderGetsNoLinks` states the difference.
- `Utils.TruncateText`: the length test and the cut count characters, where `text.length` and `substring` count UTF-16 code units. The two agree when no character lies beyond U+FFFF; a cut through a surrogate pair, which leaves a lone surrogate in JavaScript, cannot be expressed in a Dafny string. The default `maxLength = 50` (`Utils.DefaultMaxLength`) is not applied: callers pass the limit.
- `Js.ToLowerCase`: folds ASCII letters only, where JavaScript folds every Unicode letter (and may change the length, as for `İ`). `Utils.CreateSlug`, `CustomerList.FilterCustomers` and `CustomerList.NameMatchIgnoresCase` inherit this.
- `Utils.CreateSlug`: a non-ASCII capital such as the Kelvin sign U+212A becomes `k` in JavaScript and is dropped here, because `Js.ToLowerCase` leaves it as a non-word character.
- `CustomerList.FilterCustomers`: a name or email matches a query in another case only when the two differ in ASCII letters; `ÉMILE` does not match `émile` here, although it does in JavaScript.
- `Cart.CartStore.AddItem`: the default `quantity = 1` of `addItem(product)` is not applied; callers pass the quantity.
- `Products.SortedByPrice`: a `None` direction is an omitted argument, which takes the default `asc`. A `null` direction, which JavaScript sorts descending, is not modelled; no caller passes one.
- `OrderQueries.SortByDate`: a `None` direction is an omitted argument, which takes the default `desc`. A `null` direction, which JavaScript sorts ascending, is not modelled; no caller passes one.
- The `console.error` logging on failures (product fetch and search, customer save, the Stripe helpers) is left out; it changes no state the model holds.
- `Products.SortedByPrice`: does not state stability (equal prices keep their order), although `Sorting.SortBy` computes a stable insertion sort as JavaScript's `sort` does.
- `OrderQueries.SortByDate`: does not state stability, for the same reason.
- `Orders.DownloadLinks`: its own contract states only the error cases and the paid-order requirement; the links themselves are stated by `Orders.LinksFollowProductIds`.
- Product CRUD, customers and subscriptions in the Stripe library modules, analytics and the page components are not part of this model.

## Findings

| source | as written | input that shows it | evidently intended | confidence | as-written member | corrected member |
|---|---|---|---|---|---|---|
| src/lib/stripe/transaction-fee.js:37-39 | the fee helper sums `item.amount * item.quantity`, but the line items built at checkout (src/lib/stripe/checkout.js:26-40) have no `amount`, so the sum and the fee line's `unit_amount` are NaN | any non-empty cart, e.g. one line of price 1000 and quantity 1 | the fee line charges 5% of the cart subtotal, the fee the cart shows (src/hooks/use-cart.js:125-130) | high; not executed | Checkout.CartFeeLineIsNaN | Checkout.IntendedFeeMatchesCart |
| src/hooks/use-orders.js:76-77 | `new Date(order.created)` reads Stripe's seconds as milliseconds, so every order sits in January 1970 and a real date range drops it | an order with `created` 1704067200 and start date 1704067200000 (2024-01-01) | `created * 1000`, as the order pages do (`new Date(order.created * 1000)`) | high; not executed | OrderQueries.DateRangeDropsOrderOnStartInstant | OrderQueries.DateRangeKeepsOrderOnStartInstant |
