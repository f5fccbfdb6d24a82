# ARC Apparel storefront: cart, checkout and receipt endpoint in Dafny

This project models the behavioural core of the ARC Apparel storefront. The site is a single Next.js page plus one API route.

- **Cart store** (`CartStore`, cart.dfy). The cart is a sequence of lines. Each line is a catalog product spread into a record, plus a quantity. `addToCart`, `removeFromCart` and `updateQuantity` are pure functions from the old cart to the new one. `cartTotal` and `cartCount` are left folds (`reduce`) over the lines. Lemmas prove the cart invariant, which is unique product ids and every quantity at least 1. They also prove how each operation changes the lines, the total and the count.
- **Page state and checkout** (`Storefront`, storefront.dfy). The page component is the class `Home`. Its fields are the React state the core updates: `cart`, `isCartOpen`, `isCheckoutOpen`, `isProcessing`, `orderComplete`, `formData`, and a count of pending 6-second reset timers. `handleCheckoutSubmit` suspends on `fetch`, so it is split in two. `BeginSubmit` covers everything up to the `await`. `CompleteSubmit` takes how the `fetch` settled: a response with a status, or a thrown error. `PlaceOrder` connects the page to the endpoint: the cart is emptied exactly when the email was sent.
- **Receipt endpoint** (`ReceiptRoute`, route.dfy). `POST` is a method. The outcomes of the mail library's `verify()` and `sendMail()` are parameters. The method returns the HTTP response and the list of transport calls it made, in order. So the ordering rules can be stated directly: no transport without a recipient, no send after a failed verify, and success only after both calls succeed. Host and port defaulting, item-row rendering and the email body are pure functions.
- **JavaScript number text** (`JsNumber`, js_number.dfy) models the two conversions the endpoint relies on: integers rendered inside template literals (`${n}`) and strings read with `Number(s)`. A round-trip lemma shows the rendering loses nothing. Rendered prices, quantities and totals can therefore be compared with the values they came from.

Some behaviour a reader might expect of a storefront is not what the code does. The model follows the code:

- **One submission at a time.** Nothing in the code limits checkout to one submission in flight. Only the form's submit button is disabled while `isProcessing` (app/page.tsx:317). The "Test Email" button (app/page.tsx:292) and the handler itself never check the flag. `BeginSubmit` therefore has no such guard.
- **Quantity never drops to 0.** Decreasing a line's quantity never removes the line. The code clamps the quantity at 1 with `Math.max(1, …)`, and only `removeFromCart` deletes a line.
- **One failure message.** There are no separate error kinds for an unavailable transport and a rejected delivery. The code returns a 400 for a missing recipient and the same 500 `"Failed to send email"` for every other failure. Only the `details` field differs between those 500s.
- **No failure reason shown.** A non-ok response is ignored apart from resetting `isProcessing`: the page never reads the response body, so the endpoint's `details` goes unseen (app/page.tsx:106-113). Only a thrown `fetch` is logged, with `console.error` (app/page.tsx:114-115). In both cases nothing changes except `isProcessing`.
- **No client-side email check.** The page does not check the email before posting; only the browser's `required` attribute does. The endpoint's 400 is the only check in code.

## Model

| member | source | states |
|---|---|---|
| `CartStore.Find` | app/page.tsx:60 | `find` yields a line exactly when some line has the id, and the line it yields is in the cart and has that id |
| `CartStore.CartTotal` | app/page.tsx:87 | the `reduce` total equals the sum of price × quantity over the current lines (no stored total that could drift) |
| `CartStore.CartCount` | app/page.tsx:88 | the `reduce` count equals the sum of the quantities, and in a valid cart it is at least the number of lines |
| `CartStore.Reduce` | app/page.tsx:87-88 | no contract of its own: the left fold `reduce((sum, item) => sum + f(item), acc)`; stated by `ReduceIsSum`, `CartTotal` and `CartCount` |
| `CartStore.ReduceIsSum` | app/page.tsx:87-88 | a left fold from an initial accumulator equals that accumulator plus the reference sum |
| `CartStore.AddToCart` | app/page.tsx:58-67 | no contract of its own: `find` the product's line, then bump it with `map` or append a new line; stated by `AddToCartExisting`, `AddToCartNew` and `AddToCartPreservesValid` |
| `CartStore.AddToCartExisting` | app/page.tsx:60-64 | adding a product already in a valid cart raises only its line's quantity, by 1; length, order and all other lines are unchanged; count rises by 1 and total by that line's price |
| `CartStore.AddToCartNew` | app/page.tsx:66 | adding a product not in the cart appends exactly one line after the existing ones, carrying the product's fields and quantity 1; count rises by 1 and total by the price |
| `CartStore.AddToCartPreservesValid` | app/page.tsx:58-67 | `addToCart` keeps ids unique and quantities at least 1, and afterwards the product is in the cart |
| `CartStore.RemoveFromCart` | app/page.tsx:71-73 | no contract of its own: the `filter` on `item.id !== id`; stated by `RemoveFromCartFilters`, `RemoveFromCartMembers`, `RemoveFromCartAbsent`, `RemoveFromCartPresent` and `RemoveFromCartPreservesValid` |
| `CartStore.RemoveFromCartFilters` | app/page.tsx:71-73 | removal is a filter: it distributes over concatenation and keeps a single line exactly when its id differs |
| `CartStore.RemoveFromCartMembers` | app/page.tsx:72 | a line is in the result exactly when it was in the cart with another id |
| `CartStore.RemoveFromCartAbsent` | app/page.tsx:72 | removing an id no line holds leaves the cart unchanged |
| `CartStore.RemoveFromCartPresent` | app/page.tsx:71-73 | in a valid cart, removing a line's id cuts out exactly that line whatever its quantity, keeps the rest in order, and lowers count and total by that line's share |
| `CartStore.RemoveFromCartPreservesValid` | app/page.tsx:71-73 | `removeFromCart` keeps the cart invariant and leaves no line with the id |
| `CartStore.UpdateQuantity` | app/page.tsx:75-85 | no contract of its own: the `map` that sets the matching line's quantity to `Math.max(1, quantity + delta)`; stated by `UpdateQuantityAbsent`, `UpdateQuantityPresent`, `UpdateQuantityPreservesValid` and `UpdateQuantityClampsAtOne` |
| `CartStore.UpdateQuantityAbsent` | app/page.tsx:77-83 | changing the quantity of an id no line holds leaves the cart unchanged |
| `CartStore.UpdateQuantityPresent` | app/page.tsx:75-85 | the targeted line's quantity becomes `max(1, q + delta)` and is never below 1; length and every other line are unchanged; count and total change by that line's difference only |
| `CartStore.UpdateQuantityPreservesValid` | app/page.tsx:75-85 | `updateQuantity` keeps the cart invariant |
| `CartStore.UpdateQuantityClampsAtOne` | app/page.tsx:79 | a line of quantity 3 changed by -1000 ends at quantity 1 |
| `CartStore.ApplyAllPreservesValid` | app/page.tsx:58-85 | any sequence of add, remove and update applied to a valid cart (the empty cart included) yields a valid cart |
| `CartStore.TotalAndCountExample` | app/page.tsx:45-88 | adding the first tee twice and the hoodie once gives lines [599×2, 1399×1], total 2597 and count 3 |
| `JsNumber.NatToString` | app/api/send-receipt/route.ts:70 | a natural number renders as a non-empty string of decimal digits with no leading zero; 0 renders as exactly "0" |
| `JsNumber.IntToString` | app/api/send-receipt/route.ts:37-40 | no contract of its own: `${n}` for an integer, a minus sign then the digits; stated by `IntToStringRoundTrip`, `IntToStringInjective` and `ToNumberRoundTrip` |
| `JsNumber.IntToStringRoundTrip` | app/api/send-receipt/route.ts:37-40 | reading back an integer rendered by `${n}` gives the same integer |
| `JsNumber.IntToStringInjective` | app/api/send-receipt/route.ts:40 | two integers render alike only when equal |
| `JsNumber.TrimStart` | app/api/send-receipt/route.ts:15 | `Number` strips leading white space: the result is a suffix, everything cut is white space, and it starts with something else |
| `JsNumber.TrimEnd` | app/api/send-receipt/route.ts:15 | `Number` strips trailing white space: the result is a prefix, everything cut is white space, and it ends with something else |
| `JsNumber.ToNumber` | app/api/send-receipt/route.ts:15 | no contract of its own: `Number(s)` trims white space, reads blank as 0 and a decimal integer as itself, anything else as NaN; stated by `TrimStart`, `TrimEnd`, `ToNumberRoundTrip`, `BlankIsZero` and `StrayIsNaN` |
| `JsNumber.ToNumberRoundTrip` | app/api/send-receipt/route.ts:15 | `Number` applied to a rendered integer gives that integer |
| `JsNumber.BlankIsZero` | app/api/send-receipt/route.ts:15 | a blank string reads as 0 and is falsy |
| `JsNumber.StrayIsNaN` | app/api/send-receipt/route.ts:15 | a string holding anywhere a character that belongs to no numeric literal (not a digit, sign, point, hexadecimal digit, radix or exponent letter, letter of `Infinity`, or white space) reads as `NaN` |
| `ReceiptRoute.Host` | app/api/send-receipt/route.ts:14 | the host is `SMTP_HOST` when set and non-empty, else `smtp.gmail.com`; never empty |
| `ReceiptRoute.Port` | app/api/send-receipt/route.ts:15 | no contract of its own: `Number(process.env.SMTP_PORT) || 587`; stated by `PortDefaults`, `PortRoundTrip`, `PortBlank` and `NonNumericPortDefaults` |
| `ReceiptRoute.PortDefaults` | app/api/send-receipt/route.ts:15 | the port is the number read from `SMTP_PORT` when that is truthy, else 587 (unset, NaN or 0); never 0 |
| `ReceiptRoute.PortRoundTrip` | app/api/send-receipt/route.ts:15 | a non-zero port written in decimal is the port used |
| `ReceiptRoute.PortBlank` | app/api/send-receipt/route.ts:15 | an empty or all-white-space `SMTP_PORT` reads as 0, which is falsy, so the port is 587 |
| `ReceiptRoute.NonNumericPortDefaults` | app/api/send-receipt/route.ts:15 | an `SMTP_PORT` holding a character that belongs to no numeric literal (such as `smtp`) gives 587 |
| `ReceiptRoute.TransportConfigFrom` | app/api/send-receipt/route.ts:13-23 | no contract of its own: host and port with their defaults, `secure: false`, the SMTP user and password, `connectionTimeout: 10000`; the host and port are stated by `Host` and `PortDefaults`, and `Post` ensures the transport is created with exactly this configuration |
| `ReceiptRoute.PesoAmount` | app/api/send-receipt/route.ts:40 | no contract of its own: `₱${n}`; stated by `PesoAmountRoundTrip`, `RenderRow`, `EmailHtml` and `RowShowsUnitPrice` |
| `ReceiptRoute.PesoAmountRoundTrip` | app/api/send-receipt/route.ts:40 | a `₱${n}` amount reads back as `n` |
| `ReceiptRoute.RenderRow` | app/api/send-receipt/route.ts:33-42 | an item's row shows its name, and its quantity and unit price read back exactly |
| `ReceiptRoute.ItemListHtml` | app/api/send-receipt/route.ts:33-43 | the item table has exactly one row per item, in input order, each showing that item's name, quantity and unit price |
| `ReceiptRoute.EmailHtml` | app/api/send-receipt/route.ts:45-64 | the body greets the customer's full name, carries the item rows, and its TOTAL row reads back as the request's `total` |
| `ReceiptRoute.RowShowsUnitPrice` | app/api/send-receipt/route.ts:40 | when quantity is not 1 and price is not 0, a row's price differs from price × quantity: the unit price is shown |
| `ReceiptRoute.TotalIsNotRecomputed` | app/api/send-receipt/route.ts:57 | two requests with the same items but different totals render the same rows and different TOTAL amounts |
| `ReceiptRoute.Sender` | app/api/send-receipt/route.ts:68 | no contract of its own: `"ARC APPAREL" <SMTP_USER>`; `Post` ensures every mail sent uses it as `from` |
| `ReceiptRoute.Subject` | app/api/send-receipt/route.ts:70 | the subject is `Order Confirmation #` followed by the order number's digits, which read back as exactly that number |
| `ReceiptRoute.Post` | app/api/send-receipt/route.ts:4-84 | transport calls follow create, verify, at most one send; an unreadable body is a 500 with the parse error and no calls; a missing or empty email is the only 400, with no transport created; a failed verify is a 500 "SMTP Connection failed" with no send; a send is made exactly when verify succeeded, to `customer.email` alone, with the rendered body; a failed send is a 500 carrying its message; 200 `{success: true}` exactly when verify and send both succeeded |
| `Storefront.ToReceiptItems` | app/page.tsx:101 | the posted items are the cart lines in order, each with its name, quantity and price |
| `Storefront.OrderRequest` | app/page.tsx:99-103 | no contract of its own: the body `{ customer: formData, items: cart, total: cartTotal }`; stated by `OrderRequestMatchesCart`, and `BeginSubmit` and `HandleCheckoutSubmit` ensure it is what the page posts |
| `Storefront.ItemsTotalOfCart` | app/page.tsx:101-102 | price × quantity summed over the posted items equals the cart's reference total |
| `Storefront.OrderRequestMatchesCart` | app/page.tsx:99-103 | the posted order has one item per cart line, its total equals the sum over those items, and it has a recipient exactly when the form's email is non-empty |
| `Storefront.Home.constructor` | app/page.tsx:25-40 | the page starts with an empty (valid) cart, every flag false, an empty form and no pending reset |
| `Storefront.Home.AddToCart` | app/page.tsx:58-69 | the cart becomes `addToCart` of the old cart, stays valid and holds the product; the cart drawer opens |
| `Storefront.Home.RemoveFromCart` | app/page.tsx:71-73 | the cart becomes `removeFromCart` of the old cart, stays valid and holds no line with the id |
| `Storefront.Home.UpdateQuantity` | app/page.tsx:75-85 | the cart becomes `updateQuantity` of the old cart, stays valid and keeps its length |
| `Storefront.Home.ProceedToCheckout` | app/page.tsx:270 | the cart drawer closes and the checkout modal opens |
| `Storefront.Home.DismissCheckout` | app/page.tsx:283 | the backdrop closes the modal unless the order confirmation is showing |
| `Storefront.Home.BeginSubmit` | app/page.tsx:91-104 | processing starts, without checking whether a submission is already in flight, and the posted order is the form, the cart and its total |
| `Storefront.Home.CompleteSubmit` | app/page.tsx:106-118 | an ok response sets `orderComplete`, empties the cart and schedules one reset; a non-ok response or a thrown error leaves cart, `orderComplete` and timers unchanged; processing is false in every case |
| `Storefront.Home.HandleCheckoutSubmit` | app/page.tsx:91-119 | the whole handler: posts the pre-submission cart, then behaves as `CompleteSubmit` |
| `Storefront.Home.ResetTimerFires` | app/page.tsx:109-112 | the reset closes the checkout modal and clears `orderComplete` |
| `Storefront.PlaceOrder` | app/page.tsx:95-118 | a submission that reaches the endpoint empties the cart and completes the order exactly when the email is non-empty and verify and send succeed; a 200 also schedules exactly one reset; otherwise the cart, the confirmation flag and the pending resets are unchanged; an empty email makes no transport call; the one mail goes to the form's email and lists the cart's lines |

## Left out

- All JSX markup and styling, the theme toggle (`toggleTheme`), the hydration `mounted` flag, the cart drawer's open and close buttons, and all of app/layout.tsx. These are presentation only.
- The form's `onChange` handlers and the browser's `required`-attribute validation. `formData` is a field of `Home` but no method edits it, because editing happens in markup.
- `e.preventDefault()`, and every `console.*` call (logging only).
- `fetch`, `req.json()`, nodemailer (`createTransport`, `verify`, `sendMail`) and `NextResponse` are external. Each is represented by its outcome: `FetchResult`, `Body`, `Outcome`, and the `Effect` list with `Response`.
- Any error thrown before validation becomes `Body.Unreadable(message)`. This covers `req.json()` failing and reading `email` of a missing `customer`. Items that are not an array, and item fields that are not numbers or strings, are excluded by the types.
- A thrown value with no `message` makes `details` undefined. The model always carries a message string.
- `customer.fullName` is a string. An absent `fullName` would render as "undefined"; the model does not cover that case.
- `total` is an integer. An absent `total` would render the TOTAL row as "₱undefined" (app/api/send-receipt/route.ts:57); the model does not cover that case.
- The random order number `Math.floor(Math.random() * 100000)` is the parameter `orderRef`, required to be below 100000.
- The 6-second `setTimeout` is modelled as a counter of pending resets and a method for the timer firing. Real time is not modelled.
- Exact HTML and inline styles. The item table is modelled as its rows (name, quantity text, price text) and the TOTAL amount.
- JavaScript numbers are modelled as unbounded integers. They are exact doubles only below 2^53, and larger totals would lose precision. From 10^21 in magnitude upward, `${n}` switches to exponent form (`1e+21`), so in that range `IntToStringRoundTrip` and `ToNumberRoundTrip` describe the model only.
- `Number(s)` is modelled for optional-sign decimal integers with JavaScript's white-space trimming. Hexadecimal, octal and binary literals, fractions, exponents and `Infinity` read as NaN in the model, so such a `SMTP_PORT` falls back to 587. In JavaScript those forms yield a number.
- CartStore.Find: does not state that the line found is the first one with the id. Under the cart invariant there is only one.
