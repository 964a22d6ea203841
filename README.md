# Storefront core, modelled in Dafny

This project models the core of a small Next.js shop. The shop keeps products with variants, a cart in the browser's local storage, a checkout that hands the payment to Stripe, and a webhook that reconciles orders and stock once Stripe reports back. The model covers:

- **Checkout route** (`CheckoutRoute`). It validates the cart against the catalog in cart order, prices every line on the server, builds the provider's line items and the order items, and creates a `pending` order whose session id is the placeholder `""`. It then sets the session id. The unique index on `stripeSessionId` is part of the model: an insert or update that would duplicate a session id fails with 500.
- **Stripe webhook** (`WebhookRoute`). It covers the signature-or-parse step, payment completion (marks the order paid, copies the payment and shipping details, decrements stock), and asynchronous payment failure (marks every order of the session failed). The guards follow the code: only an order that is already `paid` is skipped, a failure overwrites any status, stock has no floor, and a `null` payload or an event without `data` throws outside the handler's `try` blocks. A session object without an `id` leaves the store's filter empty: a completion answers 500, and a failure marks every order of the store failed.
- **Cart page** (`CartPage`). Display prices, subtotal, quantity change, line removal, and the stripped cart written back to storage.
- **Add-to-cart button** (`AddToCartButton`). It merges into the first matching line or appends a new one, and clamps the quantity field.
- **Checkout page** (`CheckoutPage`). The form's initial state, the email and ZIP patterns, the error map of `validateForm`, the request body, the redirect for an empty cart, and the submit flow.
- **Store-settings cache** (`Settings`). Module-level state with a 60 000 ms time to live, find-or-create of the single row, one retry when the failure looks like a missing table, the fallback defaults, and the explicit clear.
- **Password change**, server (`PasswordRoute`) and client (`ChangePasswordForm`).
- **Admin category form** (`CategoryForm`). Slug derivation, initial data, the order field's parse, and the PUT/POST target.
- **Product listing** (`ProductsPage`). The `where` filter and the price or price range shown.
- **Category icon** (`CategoryIcon`) and **sign-out route** (`LogoutRoute`).

The store is one object, `Store.Db`, with a field per table. Code that changes state step by step becomes methods on it or on each page's state class: `Checkout`, `HandleWebhook`, `ChangePassword`, `GetStoreSettings`, the cart and form handlers. Each such method is proved against a function of the old state, and the properties are lemmas about those functions. JavaScript's semantics are written out in `Common`:

- truthiness, and `||` against `??`
- `parseInt`
- `String.length` in UTF-16 code units
- the `\s` class
- `toLowerCase`, as far as any comparison with ASCII text can tell

Inputs. The clock, the signed-in user, the payment provider's answers (the checkout session, the signature check, the parsed event) and the failures of a store access are inputs. So are `calculateShipping`, `verifyPassword` and `hashPassword`: the first and last are function parameters, and `verifyPassword` is a predicate.

## Model

| member | source | states |
|---|---|---|
| Common.IntOrNull | app/api/checkout/route.ts:118 | `id \|\| null` keeps exactly the truthy ids and nulls the rest |
| Common.StrOr | components/CategoryIcon.tsx:40 | `s \|\| d` is `s` exactly when `s` is present and non-empty, else `d` |
| Common.Utf16Length | app/api/account/password/route.ts:24 | the length counts between one and two code units per character |
| Common.LowerOne | components/CategoryIcon.tsx:35 | ASCII capitals lower by 32, other characters are kept except the two whose lowercase is ASCII; one character or `i` plus a combining dot |
| Common.ToLower | components/CategoryIcon.tsx:35 | `toLowerCase` as the per-character lowering over the string; its laws are `ToLowerConcat`, `ToLowerKeeps` and `ToLowerIdempotent` |
| Common.ToLowerConcat | components/CategoryIcon.tsx:35 | lowering distributes over concatenation |
| Common.ToLowerKeeps | components/admin/CategoryForm.tsx:67 | a string with nothing to lower is unchanged |
| Common.ToLowerIdempotent | components/CategoryIcon.tsx:35 | lowering twice is lowering once |
| Common.NatToStringRoundTrip | components/admin/CategoryForm.tsx:38 | the decimal value of a rendered number is the number |
| Common.ParseInt | components/admin/CategoryForm.tsx:154 | `parseInt(s)` in base 10: skip leading whitespace, one optional sign, the longest digit run, NaN (`None`) when there is no digit; `ParseIntRoundTrip` is its partner |
| Common.IntToString | components/admin/CategoryForm.tsx:38 | never empty; the rendering `parseInt` reads back exactly (`ParseIntRoundTrip`) |
| Common.ParseIntRoundTrip | components/admin/CategoryForm.tsx:154 | `parseInt` reads back every rendered integer |
| Store.FindBySession | app/api/stripe/webhook/route.ts:53-56 | the lookup finds an order with the session id iff one exists, and the first one |
| CheckoutRoute.HttpStatus | app/api/checkout/route.ts:17-182 | 200 exactly for a started session, 500 exactly for the internal error, 400 exactly for the other refusals (empty cart, missing email, and each line error) |
| CheckoutRoute.FindVariant | app/api/checkout/route.ts:52 | a variant is found iff it exists and belongs to the product |
| CheckoutRoute.LineError | app/api/checkout/route.ts:43-64 | the first loop's checks on one line in their order: missing or inactive product, then (for a truthy variant id) missing, foreign or inactive variant, then stock below the quantity; `FirstErrorAt` and `FirstErrorLocated` relate it to the cart |
| CheckoutRoute.UnitPrice | app/api/checkout/route.ts:66-68 | `variant?.price ?? product.basePrice` on a validated line; `SnapshotPriceIsUnitPrice` proves the second loop stores the same price |
| CheckoutRoute.LineItemFor | app/api/checkout/route.ts:71-82 | the provider line item: product name with ` - variant` for a variant line, the unit price, the quantity |
| CheckoutRoute.FirstError | app/api/checkout/route.ts:37-65 | no error iff every line passes the product, variant and stock checks |
| CheckoutRoute.LineItems | app/api/checkout/route.ts:71-82 | one provider line item per cart line |
| CheckoutRoute.Subtotal | app/api/checkout/route.ts:69 | `subtotalCents` summed in cart order; `ItemsTotalIsSubtotal` proves the stored order items add up to it |
| CheckoutRoute.SessionLineItems | app/api/checkout/route.ts:85-100 | the cart's line items, then one shipping line exactly when shipping costs more than 0 |
| CheckoutRoute.OrderItems | app/api/checkout/route.ts:105-122 | one order item per cart line |
| CheckoutRoute.OrderItemFor | app/api/checkout/route.ts:106-121 | the order item of one line: product, `variantId \|\| null`, quantity, and the re-read price; `OrderItemsMatchLineItems` relates it to the charged line |
| CheckoutRoute.PendingOrder | app/api/checkout/route.ts:125-137 | the inserted row: the user id, email and total, currency `usd`, status `pending`, placeholder session id `""`, the items; `Checkout` appends it |
| CheckoutRoute.SnapshotPriceIsUnitPrice | app/api/checkout/route.ts:114 | for a validated line, the second loop's price equals the price the first loop charged |
| CheckoutRoute.OrderItemsMatchLineItems | app/api/checkout/route.ts:116-121 | each order item has its line's product, quantity and charged price, and a falsy variant id is stored as null |
| CheckoutRoute.ItemsTotalIsSubtotal | app/api/checkout/route.ts:104-122 | the order's items add up to the charged subtotal |
| CheckoutRoute.FirstErrorAt | app/api/checkout/route.ts:37-65 | a failing line after a valid prefix decides the cart's error |
| CheckoutRoute.FirstErrorLocated | app/api/checkout/route.ts:37-65 | a refused cart is refused for the error of its first failing line |
| CheckoutRoute.FailedSessionBlocksLaterCheckouts | app/api/checkout/route.ts:125-165 | after a session creation fails, the order left behind keeps the placeholder `""`, so the placeholder stays taken whatever orders follow and every later insert is refused with 500 |
| CheckoutRoute.StartedCheckoutFreesPlaceholder | app/api/checkout/route.ts:165-171 | a started checkout replaces the placeholder with a non-empty session id, so the placeholder stays free |
| CheckoutRoute.PriceCart | app/api/checkout/route.ts:34-83 | the first loop reports an error iff some line fails its checks, and then the first failing line's error; otherwise the subtotal and the line items are those of the whole cart |
| CheckoutRoute.CollectOrderItems | app/api/checkout/route.ts:104-122 | the second loop builds exactly the order items of the cart, one per line in order |
| CheckoutRoute.Checkout | app/api/checkout/route.ts:13-184 | an unreadable body gives 500 with no order; empty cart and missing email are refused with no order; a bad line is refused with the first error and no order; otherwise one pending order of subtotal plus shipping is appended, whose id becomes the session's; a duplicate placeholder or session id gives 500; the unique index is preserved; no other table changes |
| WebhookRoute.HttpStatus | app/api/stripe/webhook/route.ts:23-125 | 200 exactly when received; 400 exactly for a bad signature or payload; 500 exactly for a processing error or a throw outside the `try` blocks |
| WebhookRoute.ReadEvent | app/api/stripe/webhook/route.ts:12-38 | with the secret and a signature the verified event or 400; otherwise the parsed body or 400 |
| WebhookRoute.PaidOrder | app/api/stripe/webhook/route.ts:68-78 | the order becomes paid with the payment intent, shipping name (falsy becomes null) and address; all else is kept |
| WebhookRoute.FirstMissingVariant | app/api/stripe/webhook/route.ts:83-94 | the position of the first item whose variant row is missing, every earlier one being present |
| WebhookRoute.ApplyDecrements | app/api/stripe/webhook/route.ts:83-94 | decrements keep the set of variant rows |
| WebhookRoute.MarkFailed | app/api/stripe/webhook/route.ts:110-113 | every order of the session becomes failed, every other order is unchanged |
| WebhookRoute.MarkAllFailed | app/api/stripe/webhook/route.ts:110-113 | with no session id in the filter every order becomes failed, in place and in order |
| WebhookRoute.StockAfterDecrements | app/api/stripe/webhook/route.ts:83-94 | each variant loses exactly the units ordered of it, with no floor, and nothing else changes |
| WebhookRoute.DecrementStep | app/api/stripe/webhook/route.ts:84-92 | one pass of the loop: an item with a truthy variant id present in the table lowers that variant's stock by its quantity; `StockAfterDecrements` sums the passes |
| WebhookRoute.UnitsOrdered | app/api/stripe/webhook/route.ts:83-94 | the units of one variant among an order's items, the amount `StockAfterDecrements` proves is taken off |
| WebhookRoute.OnCompleted | app/api/stripe/webhook/route.ts:43-104 | the completion branch: unknown session acknowledged, a paid order acknowledged untouched, otherwise paid then decremented, a missing variant row giving 500 after the writes before it; `CompletionRedeliveryIsNoOp` and `StockAfterDecrements` are about it |
| WebhookRoute.OnEvent | app/api/stripe/webhook/route.ts:40-125 | a `null` payload, or an event of either kind without `data`, throws uncaught and writes nothing; `data` without an `object` gives 500 from the `try`; an object without an `id` gives 500 on a completion and fails every order on a failure; a completion is `OnCompleted`; a failure marks the session's orders failed and is acknowledged; any other type is acknowledged untouched |
| WebhookRoute.Deliver | app/api/stripe/webhook/route.ts:6-126 | one delivery: the event read, then its dispatch; `DeliveryIsIdempotent` and `RefusedDeliveryWritesNothing` are about it |
| WebhookRoute.RefusedDeliveryWritesNothing | app/api/stripe/webhook/route.ts:12-44 | a delivery answered with 400 or an uncaught throw leaves every table as it was |
| WebhookRoute.MissingSessionIdFailsEveryOrder | app/api/stripe/webhook/route.ts:44-113 | a failure event with an id-less session object is acknowledged and leaves every order failed, stock untouched; the same object in a completion gives 500 with no write |
| WebhookRoute.FindBySessionAfterUpdate | app/api/stripe/webhook/route.ts:68-78 | updating an order's other fields does not move the session lookup |
| WebhookRoute.FindBySessionAfterMarkFailed | app/api/stripe/webhook/route.ts:110-113 | marking orders failed does not move the session lookup |
| WebhookRoute.CompletionRedeliveryIsNoOp | app/api/stripe/webhook/route.ts:58-65 | a redelivered completion changes nothing and is acknowledged |
| WebhookRoute.DeliveryIsIdempotent | app/api/stripe/webhook/route.ts:6-126 | delivering the same request twice leaves the tables as one delivery does |
| WebhookRoute.CompletedFailedCompletedDecrementsTwice | app/api/stripe/webhook/route.ts:63-113 | completion, failure, completion marks failed, then paid again and decrements the stock twice |
| WebhookRoute.MissingVariantsStayMissing | app/api/stripe/webhook/route.ts:83-94 | earlier decrements do not move the first missing variant |
| WebhookRoute.SameKeysSameFirstMissing | app/api/stripe/webhook/route.ts:83-94 | the first missing variant depends only on which rows exist |
| WebhookRoute.StockCanGoNegative | app/api/stripe/webhook/route.ts:85-92 | a completion for 3 units of a variant with stock 1 leaves stock -2 |
| WebhookRoute.DecrementStock | app/api/stripe/webhook/route.ts:82-94 | the loop applies the decrements up to the first missing variant, and reports completion iff there is none |
| WebhookRoute.HandleWebhook | app/api/stripe/webhook/route.ts:6-126 | the new orders and variants and the response are those of one delivery, including the uncaught throw on a `null` payload or missing `data` and the unfiltered failure update for an object without an `id`; other tables are unchanged |
| CartPage.DisplayPrice | app/cart/page.tsx:75 | a truthy variant price, else the base price, else 0 |
| CartPage.LineTotal | app/cart/page.tsx:75-76 | the display price times the quantity, as the `reduce` adds it |
| CartPage.Subtotal | app/cart/page.tsx:74-77 | the `reduce` over the cart; `SubtotalConcat`, `SubtotalSplit`, `RemoveItemSubtotal` and `SetQuantitySubtotal` are its laws |
| CartPage.Strip | app/cart/page.tsx:63 | what is stored is each line without its fetched details, in order |
| CartPage.RemoveItem | app/cart/page.tsx:68 | `filter` keeping every position but `index`; `RemoveItemSlices` and `RemoveItemShape` state what it leaves |
| CartPage.OrderSummary | app/cart/page.tsx:168-180 | the total shown equals the subtotal |
| CartPage.RemoveItemSlices | app/cart/page.tsx:68 | removing a position is the cart before it joined to the cart after it; an outside index removes nothing |
| CartPage.RemoveItemShape | app/cart/page.tsx:68 | exactly one entry goes and the others keep their order |
| CartPage.SubtotalConcat | app/cart/page.tsx:74-77 | the subtotal adds over concatenation |
| CartPage.SubtotalSplit | app/cart/page.tsx:74-77 | the subtotal is the prefix, the line and the suffix |
| CartPage.RemoveItemSubtotal | app/cart/page.tsx:67-77 | removing a line lowers the subtotal by exactly its line total |
| CartPage.SetQuantitySubtotal | app/cart/page.tsx:58-77 | a quantity change moves the subtotal by price times the change |
| CartPage.CartView.UpdateQuantity | app/cart/page.tsx:58-65 | a quantity below 1 changes nothing; otherwise only that line's quantity changes, and the stripped cart is stored |
| CartPage.CartView.RemoveLine | app/cart/page.tsx:67-72 | the cart loses that position, and the stripped cart is stored |
| AddToCartButton.FindIndex | components/AddToCartButton.tsx:32-35 | the first line for the product and variant (two falsy variant ids match), or -1 when no line matches |
| AddToCartButton.SameVariant | components/AddToCartButton.tsx:34 | equal variant ids, or both falsy |
| AddToCartButton.Matches | components/AddToCartButton.tsx:33-34 | the same product and the same variant in that sense |
| AddToCartButton.AddOrMerge | components/AddToCartButton.tsx:32-41 | the first matching line grows by the quantity, else a line with `variantId \|\| null` is appended; `AddOrMergeShape` and `AddRaisesUnits` state its effect |
| AddToCartButton.TotalUnits | components/AddToCartButton.tsx:37-41 | the units in a stored cart, the measure `AddRaisesUnits` is stated in |
| AddToCartButton.AddOrMergeShape | components/AddToCartButton.tsx:37-41 | only the first matching line grows by the quantity; with none, one line is appended |
| AddToCartButton.TotalUnitsConcat | components/AddToCartButton.tsx:37-41 | units add over concatenation |
| AddToCartButton.TotalUnitsAt | components/AddToCartButton.tsx:38 | replacing a line changes the units by the quantity difference |
| AddToCartButton.AddRaisesUnits | components/AddToCartButton.tsx:37-41 | an add raises the cart's units by exactly the quantity |
| AddToCartButton.ClampQuantity | components/AddToCartButton.tsx:66 | the quantity is at least 1; text with no number gives 1 |
| AddToCartButton.Button.constructor | components/AddToCartButton.tsx:12-14 | quantity 1, not adding |
| AddToCartButton.Button.OnQuantityInput | components/AddToCartButton.tsx:66 | the quantity becomes the clamped input |
| AddToCartButton.Button.AddToCart | components/AddToCartButton.tsx:16-58 | disabled or busy changes nothing; without storage the cart is untouched; otherwise the stored cart is the merged cart and the quantity resets to 1 |
| CheckoutPage.InitialForm | app/checkout/page.tsx:28-37 | every field empty, country `US` |
| CheckoutPage.EmailPattern | app/checkout/page.tsx:80 | `/^[^\s@]+@[^\s@]+\.[^\s@]+$/` as the splits the pattern can match; `EmailPatternIffShape` gives its plain reading |
| CheckoutPage.ZipPattern | app/checkout/page.tsx:106 | `/^\d{5}(-\d{4})?$/`: five digits, or five digits, `-` and four digits |
| CheckoutPage.FormValid | app/checkout/page.tsx:76-111 | every field rule of `validateForm` holds; `NoErrorsIffValid` ties it to the error map |
| CheckoutPage.Body | app/checkout/page.tsx:127-139 | the request body: stripped items, the email, the joined name and the address fields; `ShippingNameSplits` and `ValidBodyPassesRouteGuards` are about it |
| CheckoutPage.EmailPatternHasShape | app/checkout/page.tsx:80 | a matching email has no whitespace, one `@` that is not first, and a later `.` that is neither right after the `@` nor last |
| CheckoutPage.EmailShapeMatchesPattern | app/checkout/page.tsx:80 | every such string matches |
| CheckoutPage.EmailPatternIffShape | app/checkout/page.tsx:80 | both directions of the email reading |
| CheckoutPage.RequestItems | app/checkout/page.tsx:128 | each line is sent with its product, variant and quantity only |
| CheckoutPage.ShippingNameSplits | app/checkout/page.tsx:131 | the shipping name splits back into the two name fields at one space |
| CheckoutPage.ValidBodyPassesRouteGuards | app/checkout/page.tsx:127-139 | a valid form and a non-empty cart pass the route's empty-cart and email checks |
| CheckoutPage.LoadCart | app/checkout/page.tsx:42-47 | an empty stored cart redirects to `/cart`, any other is shown |
| CheckoutPage.CollectErrors | app/checkout/page.tsx:76-109 | each field has an error exactly when its rule fails: Required when empty, Malformed for an email or ZIP that does not match |
| CheckoutPage.CollectAddressErrors | app/checkout/page.tsx:84-108 | the address rules hold of the result and the email entry is kept |
| CheckoutPage.NoErrorsIffValid | app/checkout/page.tsx:110-111 | the map is empty iff every rule holds |
| CheckoutPage.Message | app/checkout/page.tsx:78-107 | the text shown for each field and problem |
| CheckoutPage.CheckoutView.constructor | app/checkout/page.tsx:25-38 | the initial form, no errors, not processing |
| CheckoutPage.CheckoutView.ValidateForm | app/checkout/page.tsx:75-112 | the stored errors obey the rules, and the answer is true iff there are none, iff the form is valid |
| CheckoutPage.CheckoutView.HandleSubmit | app/checkout/page.tsx:114-155 | the stored errors obey the field rules and are empty iff the form is valid; an invalid form sends nothing; a valid one sends the body; a truthy url is followed with processing kept on; otherwise processing ends |
| CheckoutPage.DisplayedSubtotalCanDifferFromCharged | app/checkout/page.tsx:157-160 | for a variant priced 0 on a 1500 product the page shows 1500 while the route charges 0 |
| CheckoutPage.CheckoutSummaryIsCartSubtotal | app/checkout/page.tsx:157-160 | the summary (page.tsx:368-377) shows the cart page's subtotal as both subtotal and total, summed line by line from the first line |
| Settings.FindOrCreate | lib/settings.ts:18-23 | the first row when there is one; otherwise the created row, which becomes the only row |
| Settings.IsFresh | lib/settings.ts:11 | a cached row younger than 60 000 ms; `RepeatWithinTtlIsCached` and `StaleCacheIsRefreshed` are about it |
| Settings.LooksLikeMissingTable | lib/settings.ts:30 | a message mentioning `does not exist`, `relation` or `table`; a missing message never matches |
| Settings.Defaults | lib/settings.ts:54-90 | id 0, colors `#111827` and `#f3f4f6`, every switch on, flat shipping at 0 labelled `Standard Shipping` |
| Settings.Get | lib/settings.ts:8-92 | a fresh cache is returned untouched; a good read caches the row at the entry time; a missing-table failure with a good retry caches it at the retry's time; otherwise the defaults, with the cache kept |
| Settings.Cleared | lib/settings.ts:94-97 | no cached row and time 0 |
| Settings.RepeatWithinTtlIsCached | lib/settings.ts:11-13 | within the time to live of a read, a call returns the cached row whatever the store does |
| Settings.ClearForcesRead | lib/settings.ts:94-97 | after a clear the next call reads the store |
| Settings.StaleCacheIsRefreshed | lib/settings.ts:11-27 | after the time to live a call reads again and restamps the cache |
| Settings.AtMostOneRowCreated | lib/settings.ts:18-43 | calls never add a second settings row |
| Settings.FailureKeepsCache | lib/settings.ts:28-53 | a failure that is not a missing table, or a failed retry, returns the defaults and keeps the cache |
| Settings.SettingsCache.constructor | lib/settings.ts:4-5 | no cached row and time 0 at load |
| Settings.SettingsCache.GetStoreSettings | lib/settings.ts:8-92 | the result and the new cache and row table are those of `Get`; no other table changes |
| Settings.SettingsCache.ClearSettingsCache | lib/settings.ts:94-97 | the cache is cleared |
| PasswordRoute.HttpStatus | app/api/account/password/route.ts:11-50 | 200, 401, 404 and 500 exactly for success, no user, no user row, and an unreadable body; 400 exactly for missing fields, differing passwords, a short password and a wrong current password |
| PasswordRoute.Decide | app/api/account/password/route.ts:9-47 | the handler's checks in their order; `UpdatedIff` states when it succeeds |
| PasswordRoute.UpdatedIff | app/api/account/password/route.ts:9-47 | a change goes through iff signed in, all three fields are present, the new passwords agree and have at least 8 code units, the user row exists, and the current password verifies |
| PasswordRoute.SignedOutIsUnauthorized | app/api/account/password/route.ts:9-12 | without a user the answer is 401 whatever the body |
| PasswordRoute.MismatchBeforeLength | app/api/account/password/route.ts:20-26 | differing passwords are reported as such even when short |
| PasswordRoute.NewPasswordIsCurrentAfterwards | app/api/account/password/route.ts:36-45 | after a change, the new password signs the next change |
| PasswordRoute.ChangePassword | app/api/account/password/route.ts:7-52 | the response is the decision of the checks; on success only that user's hash becomes the hash of the new password; otherwise nothing changes |
| ChangePasswordForm.FailureText | components/account/ChangePasswordForm.tsx:35-44 | the route's error, else the thrown message, else `Failed to change password`; never empty |
| ChangePasswordForm.LocalError | components/account/ChangePasswordForm.tsx:18-26 | a mismatch first, then a length under 8; no error iff both pass |
| ChangePasswordForm.SentRequestPassesRouteRules | components/account/ChangePasswordForm.tsx:18-33 | what the form sends passes the route's field, mismatch and length checks |
| ChangePasswordForm.Form.constructor | components/account/ChangePasswordForm.tsx:6-11 | empty fields, not loading, no messages |
| ChangePasswordForm.Form.HandleSubmit | components/account/ChangePasswordForm.tsx:13-48 | a local error is shown and nothing is sent; otherwise the three fields are sent; success clears them and shows the success text; failure shows the failure text; loading ends |
| CategoryForm.Collapse | components/admin/CategoryForm.tsx:67 | empty iff the input is empty; ends in `-` iff the input ends outside `[a-z0-9]` |
| CategoryForm.CollapseIsDashed | components/admin/CategoryForm.tsx:67 | after the replacement only `[a-z0-9-]` remain and no `--` |
| CategoryForm.TrimOfDashed | components/admin/CategoryForm.tsx:67 | trimming such text leaves no `-` at either end |
| CategoryForm.SlugifyIsSlug | components/admin/CategoryForm.tsx:67 | a derived slug is well formed |
| CategoryForm.ToLowerOfDashed | components/admin/CategoryForm.tsx:67 | lowering slug text changes nothing |
| CategoryForm.CollapseOfDashed | components/admin/CategoryForm.tsx:67 | the replacement leaves dashed text unchanged |
| CategoryForm.Trim | components/admin/CategoryForm.tsx:67 | one leading and one trailing `-` removed; `TrimOfDashed` is about it |
| CategoryForm.Slugify | components/admin/CategoryForm.tsx:67 | lower, collapse, trim; `SlugifyIsSlug` and `SlugifyIdempotent` are its properties |
| CategoryForm.SlugifyIdempotent | components/admin/CategoryForm.tsx:67 | deriving a slug from a slug changes nothing |
| CategoryForm.InitialData | components/admin/CategoryForm.tsx:23-30 | the category's values (missing texts as `''`) when editing; empty, order 0, active when new |
| CategoryForm.ParseOrder | components/admin/CategoryForm.tsx:154 | the parsed number, or 0 when there is none |
| CategoryForm.SaveTarget | components/admin/CategoryForm.tsx:37-40 | PUT to `/api/admin/categories/` followed by the category's id when editing, POST to the collection when new |
| CategoryForm.SaveTargetNamesCategory | components/admin/CategoryForm.tsx:37-38 | the id in an update's URL reads back as the category's id |
| CategoryForm.CategoryEditor.constructor | components/admin/CategoryForm.tsx:23-30 | the form starts from the initial data |
| CategoryForm.CategoryEditor.HandleNameChange | components/admin/CategoryForm.tsx:63-69 | the name is replaced; the slug is the category's non-empty slug, else derived and well formed |
| CategoryForm.CategoryEditor.OnOrderInput | components/admin/CategoryForm.tsx:154 | only the order changes, to the parsed input |
| ProductsPage.Param | app/products/page.tsx:22-23 | a missing parameter reads as `''` |
| ProductsPage.BuildFilter | app/products/page.tsx:22-49 | a category condition iff a slug is given and resolves to a truthy id; a search condition iff the term is non-empty |
| ProductsPage.Matches | app/products/page.tsx:40-48 | what the `where` keeps: active, in the category when one is set, name or description containing the term when one is set |
| ProductsPage.Listed | app/products/page.tsx:40-56 | only existing, active products are listed |
| ProductsPage.NoParamsListsActive | app/products/page.tsx:40-49 | without parameters exactly the active products are listed |
| ProductsPage.UnknownCategoryIgnored | app/products/page.tsx:26-49 | a slug that resolves to no category does not narrow the list |
| ProductsPage.Page | app/products/page.tsx:18-20 | redirect to `/` iff the product list is switched off |
| ProductsPage.TruthyPrices | app/products/page.tsx:130-134 | exactly the present, non-zero variant prices |
| ProductsPage.SeqMin | app/products/page.tsx:131 | the least element |
| ProductsPage.SeqMax | app/products/page.tsx:134 | the greatest element |
| ProductsPage.Range | app/products/page.tsx:129-135 | min at most max; the base price twice with no truthy variant price; otherwise the least and greatest truthy prices |
| ProductsPage.Display | app/products/page.tsx:166-170 | one price iff the ends agree, else the range |
| ProductsPage.OnePriceShownOnce | app/products/page.tsx:129-170 | a single distinct truthy price is shown as one price |
| CategoryIcon.IndexAsWritten | components/CategoryIcon.tsx:35-36 | indexing finds the table's entry, and outside the table something iff the key is a prototype name |
| CategoryIcon.ComponentAsWritten | components/CategoryIcon.tsx:35-37 | the component the code picks: the indexed value for a truthy name when indexing finds something, else the default entry; `PrototypeNamesAreInherited` and `AsWrittenAgreesElsewhere` are about it |
| CategoryIcon.PrototypeNamesAreInherited | components/CategoryIcon.tsx:35-37 | a name that lowers to a prototype name picks the inherited member |
| CategoryIcon.PrototypeNameIsNotAnIcon | components/CategoryIcon.tsx:35-37 | `constructor` picks an inherited member, not an icon |
| CategoryIcon.IconFor | components/CategoryIcon.tsx:35-37 | a null or empty name gives the default; a lowered name in the table its icon; any other the default |
| CategoryIcon.AsWrittenAgreesElsewhere | components/CategoryIcon.tsx:35-37 | away from the prototype names the code picks the icon `IconFor` gives |
| CategoryIcon.IconForIgnoresCase | components/CategoryIcon.tsx:35-36 | a name and its lowercase pick the same icon |
| CategoryIcon.StyleFor | components/CategoryIcon.tsx:34-40 | class `w-12 h-12` only when none is given; color `#1f2937` when missing or empty |
| LogoutRoute.BaseUrl | app/account/logout/route.ts:9-11 | a non-empty app URL; else `proto://host` with `https` for a missing protocol when a host is present; else `http://localhost:3000` |
| LogoutRoute.Post | app/account/logout/route.ts:6-14 | the session is cleared first, then a redirect to `/auth/login` on the base |
| LogoutRoute.EmptyValuesActAsMissing | app/account/logout/route.ts:9-11 | an empty configured URL or host header acts as a missing one, and without a host the protocol header is not read |

## Findings

| source | as written | input that shows it | evidently intended | confidence | as-written member | corrected member |
|---|---|---|---|---|---|---|
| components/CategoryIcon.tsx:35-37 | `iconMap[iconName.toLowerCase()]` indexes a plain object literal, so the inherited `constructor` and `__proto__` are found too | icon name `constructor` (or `Constructor`, `__PROTO__`) picks `Object` or `Object.prototype`, which cannot render as an icon | only the table's own names pick an icon; every other name gets the default | low, not executed | CategoryIcon.PrototypeNameIsNotAnIcon | CategoryIcon.IconFor |

`CategoryIcon.ComponentAsWritten` models the lookup as written. `CategoryIcon.AsWrittenAgreesElsewhere` proves that it agrees with the corrected `IconFor` on every name that does not lower to a prototype name.

## Left out

- Stripe: session creation and the webhook's signature cryptography. Their outcomes are inputs: a session or a failure, an event or a failure.
- The session-configuration branch of the checkout route (app/api/checkout/route.ts:140-163). It only shapes the payload sent to Stripe. The route declares `const shipping` twice in the same `try` block (route.ts:15 and :86), which is a compile-time error in both TypeScript and JavaScript, so the file as written does not build. The model reads `shipping` after :86 as the `calculateShipping` result, and the body's `shipping` field is dropped.
- The route's `getStripeClient` and `getCurrentUser`. They are not part of this model. The signed-in user is an input, and a throw from either (a 500) is not modelled.
- Helpers not part of this model: `calculateShipping`, `hashPassword`, `verifyPassword`, `clearSession`, `formatPrice` and `ensureMigrations` (the last has no observable effect on the settings state).
- Generic store outages. A failed store access is modelled only where the code acts on it: the settings catch, the unique session-id index and a missing variant row in the webhook. Faults are modelled as happening before any write of that call.
- Concurrency: parallel webhooks or checkouts on the same variant, and the atomicity of Prisma writes.
- Browser I/O: fetching product details for the cart and checkout pages, the `cartUpdated` event, alerts, navigation side effects, and the JSON encoding of local storage and request bodies.
- Rendering: markup, images, classes other than the icon's, and the products page's `createdAt` ordering and category list.
- `updatedAt` of the settings fallback, which is the current date.
- CartPage.CartView.UpdateQuantity: requires an index inside the cart when the quantity is at least 1. The page only calls it for a displayed line; an outside index would throw in the code.
- CartPage.CartView.UpdateQuantity: the code updates the shared entry object in place (`newCart[index].quantity =`), so the old array sees the change too. The model copies the entry, so that aliasing is not captured.
- Common.LowerOne: lowercase mappings between non-ASCII characters are not modelled. Such characters are kept as they are, which does not change any comparison with the ASCII keys and slugs used here.
- Common.ParseInt: numbers beyond double precision, other bases and the `0x` prefix are not modelled.
- PasswordRoute.Decide: fields of the JSON body that are not strings (numbers, objects) are not modelled; every field is a string or absent.
- ChangePasswordForm.FailureText: a thrown value without a `message` is not modelled.
- CheckoutPage.CheckoutView.ValidateForm: the error map records each failing field's problem, and the text shown for it is `CheckoutPage.Message`.
- CheckoutRoute.Checkout: the buyer's shipping form is sent but the code never stores it with the order, and the model does not either.
- CheckoutRoute.Checkout: the product's `images` column is not modelled. A value that is not valid JSON makes `JSON.parse` in the first loop (app/api/checkout/route.ts:77) throw, which the catch answers with 500; the model has no such path. For the same reason the line item carries no description and no image.
- WebhookRoute.HandleWebhook: a session `id` that is present but not a string is not modelled; the session object either lacks `id` or carries a string one.
- CheckoutRoute.Checkout: cart lines whose fields are not numbers are not modelled; `items` is either an array of well-formed lines or, when missing or not an array, `None`.
- LogoutRoute.Post: the redirect is given as the path and the base. The resolution that `new URL` performs, and its throw on a malformed configured URL, are not modelled.
