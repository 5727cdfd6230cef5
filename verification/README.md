# Perfume storefront: cart, checkout and lookup model

A Dafny model of the client-side core of a small perfume storefront (a Next.js
app). It covers four parts:

- the **shop context**: the cart of `{product, quantity}` lines and its four
  operations (add with merge, remove, set quantity, clear). It also covers the
  two derived totals, the language selection, the one-time load from client
  storage on mount, and the write-back after every change once loading is done;
- the **cart page**: a four-step checkout machine (`cart → info → payment →
  confirmed`) with a non-empty-cart guard, back buttons that keep the typed
  customer details, the per-line "-"/"+"/remove buttons and order placement.
  Placing an order empties the cart and shows an `ORD-` number;
- the **translation lookup** `t(key, lang)`, which falls back to the key, with
  the shipped string table;
- the **category filter** of the product listing, with the shipped catalog as
  a fixture.

Files, one module each:

| file | module | models |
|---|---|---|
| `types.dfy` | `Types` | languages, localized text, products, cart lines (`types/index.ts`) |
| `seqs.dfy` | `Seqs` | order-preserving filter shared by cart removal and the category filter |
| `cart.dfy` | `ShopCart` | cart operations, totals and their invariants |
| `session.dfy` | `Session` | language, load from storage, save effects, text direction |
| `checkout.dfy` | `Checkout` | the cart page's step machine, order number, quantity buttons, payment summary |
| `translations.dfy` | `Translations` | `t` and the string table |
| `catalog.dfy` | `Catalog` | the shipped catalog and `filteredProducts` |

Modelling choices:

- Prices and quantities are unbounded integers.
- Client storage is a `map<string, string>`. `JSON.stringify`/`JSON.parse` are
  a caller-supplied pair of functions (`CartCodec`), and a parse exception is
  `None`.
- The random part of the order number is an input: the string that
  `Math.random().toString(36)` returned.
- The cart page is a pure transition function over the page state and the shop
  cart. An event whose button or form the current view does not render changes
  nothing, because a user cannot fire it.

Facts about the code that the model keeps:

- The customer form is gated only by the browser's `required` attribute, so
  fields are not trimmed.
- The order suffix is *at most* nine characters, because `substr(2, 9)` returns
  fewer when the random string is short.
- The storage keys are `coding0101-cart` and `coding0101-language`.

## Model

| member | source | states |
|---|---|---|
| Seqs.Filter | app/products/page.tsx:17 | the filter never grows the list, keeps only passing elements, returns the list unchanged when every element passes, and returns [] when none does |
| Seqs.FilterMembership | app/products/page.tsx:17 | an element survives the filter iff it was in the list and passes the test |
| Seqs.FilterCounts | app/products/page.tsx:17 | every passing element keeps its multiplicity, every failing one has none |
| Seqs.FilterIsSubsequence | app/products/page.tsx:17 | the survivors keep their original relative order |
| Seqs.FilterAppend | app/products/page.tsx:17 | filtering a concatenation is concatenating the filtered parts |
| Seqs.FilterIdempotent | context/ShopContext.tsx:69 | filtering twice with one test equals filtering once |
| Seqs.FilterDrops | context/ShopContext.tsx:69 | if some element fails the test, the result is strictly shorter |
| Seqs.FilterOne | app/products/page.tsx:17 | a test passing at exactly one position keeps exactly that element |
| Seqs.FilterTwo | app/products/page.tsx:17 | a test passing at exactly two positions keeps exactly those two elements, in their original order |
| ShopCart.Find | context/ShopContext.tsx:54 | `find` returns the first line with the id, or none exactly when no line has it |
| ShopCart.IncrementMatching | context/ShopContext.tsx:57-61 | lines with the id gain exactly one unit and keep their product snapshot; all other lines are unchanged |
| ShopCart.SetMatching | context/ShopContext.tsx:78-84 | lines with the id get exactly the given quantity and keep their snapshot; all others are unchanged |
| ShopCart.AddToCart | context/ShopContext.tsx:52-66 | a present id raises that line by 1, keeping the stored snapshot, the other lines and the length; an absent id appends (product, 1) after the untouched old lines |
| ShopCart.RemoveFromCart | context/ShopContext.tsx:68-70 | exactly the lines without the id remain, each as often as before and in order; the result is shorter iff the id was present; an absent id changes nothing |
| ShopCart.UpdateQuantity | context/ShopContext.tsx:72-85 | q <= 0 is exactly removeFromCart; q > 0 sets (not adds) the quantity on matching lines and keeps length, order and snapshots; an absent id is a no-op |
| ShopCart.ClearCart | context/ShopContext.tsx:87-89 | after clearing, the total and the item count are both 0 |
| ShopCart.ReduceShift | context/ShopContext.tsx:91-99 | the running total of the `reduce` fold can be pulled out: folding from `acc` is `acc` plus folding from 0 |
| ShopCart.CartTotal | context/ShopContext.tsx:91-94 | the line-by-line sum of price times quantity equals the left-to-right `reduce` from 0 |
| ShopCart.CartItemsCount | context/ShopContext.tsx:96-99 | the line-by-line sum of quantities equals the left-to-right `reduce` from 0 |
| ShopCart.TotalNonNegative | context/ShopContext.tsx:91-94 | with non-negative prices and quantities the total is non-negative |
| ShopCart.CountBoundsEntries | context/ShopContext.tsx:96-99 | with positive quantities the item count is at least the number of lines, and is 0 iff the cart is empty |
| ShopCart.TotalsAppend | context/ShopContext.tsx:91-99 | both totals are additive over concatenation (the reduce is a sum over lines) |
| ShopCart.TotalsReplace | context/ShopContext.tsx:91-99 | replacing one line moves each total by the new line's share minus the old one's |
| ShopCart.TotalsDrop | context/ShopContext.tsx:91-99 | dropping one line lowers each total by exactly that line's share |
| ShopCart.IncrementIsReplace | context/ShopContext.tsx:56-62 | in a cart without duplicate ids, the merge changes only the found line, by +1 |
| ShopCart.MergeTotals | context/ShopContext.tsx:56-62 | in a cart without duplicate ids, the merge raises the item count by 1 and the total by the stored line's price |
| ShopCart.AddToCartTotals | context/ShopContext.tsx:52-66 | in a cart without duplicate ids, each add raises cartItemsCount by 1 and cartTotal by the stored price (the product's own price if appended) |
| ShopCart.AddPreservesWellFormed | context/ShopContext.tsx:52-66 | adding keeps ids unique and quantities positive |
| ShopCart.AddRepeatedlyMerges | context/ShopContext.tsx:52-66 | n adds of a product the cart lacks give the old lines plus one final line (product, n) |
| ShopCart.RemovePreservesWellFormed | context/ShopContext.tsx:68-70 | removing keeps ids unique and quantities positive |
| ShopCart.RemoveFromCartTotals | context/ShopContext.tsx:68-70 | in a cart without duplicate ids, removing a present id deletes just its line and lowers both totals by that line's share |
| ShopCart.RemoveIdempotent | context/ShopContext.tsx:68-70 | removing the same id twice equals removing it once |
| ShopCart.UpdatePreservesWellFormed | context/ShopContext.tsx:72-85 | updating keeps ids unique and quantities positive |
| ShopCart.UpdateQuantityTotals | context/ShopContext.tsx:78-84 | in a cart without duplicate ids, a positive update replaces just the found line's quantity and moves both totals by the difference |
| Session.TextDirection | context/ShopContext.tsx:48 | the direction is rtl iff the language is Arabic |
| Session.ParseLanguage | context/ShopContext.tsx:28 | a stored tag is accepted iff it is "ar", "fr" or "en", and then it is that language's tag |
| Session.Mount | context/ShopContext.tsx:9-11 | the first render has English (left to right), an empty cart with both totals 0, is not initialized and has not touched storage |
| Session.LanguageRoundTrip | context/ShopContext.tsx:28-45 | every language read back from its written tag is itself, and the tag is non-empty |
| Session.Load | context/ShopContext.tsx:14-46 | loading adopts a truthy, parseable cart and a whitelisted language and keeps the current values otherwise; it marks the session initialized and writes both keys; every other key keeps its value and no other key is created |
| Session.Startup | context/ShopContext.tsx:9-33 | opening the shop yields the stored language if whitelisted (else English) and the stored cart if non-empty and parseable (else empty), is initialized and in sync, adds exactly the two keys and keeps every other value |
| Session.StartupLanguage | context/ShopContext.tsx:9-30 | on startup a missing or non-whitelisted stored language leaves English; only a stored "ar"/"fr" yields another language |
| Session.StartupMalformedCart | context/ShopContext.tsx:19-26 | a missing, empty or unparseable stored cart leaves the cart empty, and the empty cart is written back |
| Session.Apply | context/ShopContext.tsx:35-50 | an action changes the cart as its cart operation does, writes nothing before initialization, keeps storage in sync afterwards, and neither changes nor creates any other key |
| Session.ApplyAllKeepsStorage | context/ShopContext.tsx:35-46 | over any run of actions, nothing is written before initialization and storage stays in sync after it |
| Session.ReloadRestores | context/ShopContext.tsx:14-46 | reloading from the storage of an initialized session reproduces the same language, cart and storage, if the cart's JSON parses back to it |
| Session.SessionKeepsCartWellFormed | context/ShopContext.tsx:52-89 | a cart that starts well formed stays well formed through any run of actions |
| Session.NextCartWellFormed | context/ShopContext.tsx:52-89 | each single provider action keeps a well-formed cart well formed |
| Translations.Lookup | lib/translations.ts:265-267 | `t` gives the table text when the key is present with non-empty text, and the key itself when the key is absent or its text is "" |
| Translations.T | lib/translations.ts:265-267 | `t` with the shipped table gives the text of a known key with non-empty text, the key itself for an unknown key, nothing else, and never "" for a non-empty key |
| Translations.LookupTotal | lib/translations.ts:265-267 | `t` always yields either the key or the table entry, and never "" for a non-empty key |
| Translations.LookupFallsBackIff | lib/translations.ts:266 | when no entry text equals its own key, `t` returns the key iff the key is absent or its text is "" |
| Translations.CategoryRows | lib/translations.ts:65-85 | the four category rows are present with their texts |
| Translations.CategoryLabelsResolve | lib/translations.ts:66-85 | every category key resolves to a table entry, not to the key, in all three languages |
| Translations.CurrencyLabels | lib/translations.ts:248-252 | `t('common.currency')` is MAD in English, DH in French and the Arabic abbreviation in Arabic |
| Catalog.FilterProducts | app/products/page.tsx:15-17 | 'all' gives the catalog unchanged; any other selection gives exactly the products of that category, in catalog order with their multiplicities, never more than the catalog |
| Catalog.NoMatchShowsNoProducts | app/products/page.tsx:56-62 | a selection no product carries shows the "no products" message; for 'all' it shows iff the catalog is empty |
| Catalog.ShippedLayout | lib/products.ts:3-132 | the shipped catalog has 8 products with ids "1".."8" in the recorded category order |
| Catalog.LayoutPositions | lib/products.ts:3-132 | each category occurs at exactly two recorded positions of the shipped order |
| Catalog.TwoOfEight | app/products/page.tsx:17 | filtering 8 products by a category found at exactly two positions keeps those two, in order |
| Catalog.CategoriesOfLayout | app/products/page.tsx:17 | in a catalog laid out like the shipped one, each category selects exactly its two products |
| Catalog.ShippedCategory | lib/products.ts:3-132 | in the shipped catalog each category selects exactly two products, with known ids |
| Checkout.SetField | app/cart/page.tsx:204-249 | a field's onChange replaces that field and keeps the other three |
| Checkout.Substr | app/cart/page.tsx:33 | `substr` copies characters from the start position, clamped to the string: exactly the requested length when available, else all remaining characters, else none |
| Checkout.ToUpper | app/cart/page.tsx:33 | `toUpperCase` restricted to ASCII: each letter a-z becomes an upper-case letter that lower-cases back to it, every other character is kept, and base-36 digits stay base-36 digits |
| Checkout.OrderNumber | app/cart/page.tsx:33 | the order number is "ORD-" plus at most 9 characters; exactly 9 for a long enough random string; each is the upper-cased random character after "0."; all are in [0-9A-Z] for a base-36 input |
| Checkout.OrderNumberKeepsDigits | app/cart/page.tsx:33 | lower-casing the suffix gives back the random digits, and its length is the number available, up to 9 |
| Checkout.UpperThenLower | app/cart/page.tsx:33 | lower-casing undoes the upper-casing of a base-36 digit |
| Checkout.Dispatch | app/cart/page.tsx:21-37 | only the step edges cart↔info, info↔payment and payment→confirmed occur; confirmed never changes; only edits change the form, and an edit on the info step (the `onChange` handlers, lines 208-247) applies `SetField` to the typed field; moving to info needs a non-empty cart and to payment a complete form; confirming empties the cart and sets the number; the back buttons (lines 255, 316) return to the previous step keeping everything else; on the cart step "-", "+" and remove (lines 146-161) apply the line's quantity update or removal |
| Checkout.DispatchKeepsConsistent | app/cart/page.tsx:11-37 | every event keeps: non-empty cart past the cart step, complete form at payment, and empty cart plus a well-shaped number once confirmed |
| Checkout.RunKeepsConsistent | app/cart/page.tsx:11-37 | any run of events from a consistent screen stays consistent |
| Checkout.FreshVisitConsistent | app/cart/page.tsx:11-19 | a fresh visit is consistent whatever the cart holds |
| Checkout.CheckoutGuard | app/cart/page.tsx:21-24 | checkout with an empty cart stays on the cart step; with a non-empty cart it moves to info |
| Checkout.SubmitInfoIff | app/cart/page.tsx:26-29 | submitting the form moves to payment iff all four fields are non-empty, and keeps the fields |
| Checkout.BackAndForthKeepsInfo | app/cart/page.tsx:252-320 | back goes to the previous step with the page otherwise unchanged, and back then forward again (payment→info→payment, info→cart→info) returns the identical screen, so typed fields survive |
| Checkout.PlaceOrderEmptiesCart | app/cart/page.tsx:31-37 | placing an order confirms it, empties the cart (both totals 0) and shows a well-shaped ORD- number |
| Checkout.ConfirmedIsTerminal | app/cart/page.tsx:39-74 | no run of events leaves the confirmed view |
| Checkout.DecrementLine | app/cart/page.tsx:146 | "-" on a line with one unit (or fewer) removes that id; on a larger quantity every line with that id gets that line's quantity minus 1 (just that line when ids are unique) and the other ids' lines are kept |
| Checkout.IncrementLine | app/cart/page.tsx:153 | "+" on a line with a non-negative quantity sets every line with that id to that line's quantity plus 1 (just that line when ids are unique) and keeps the other ids' lines; a negative quantity removes the id |
| Checkout.DecrementOnOneRemoves | app/cart/page.tsx:146 | "-" on a line holding one unit removes that line |
| Checkout.IncrementIsAdd | app/cart/page.tsx:153 | on a well-formed cart, "+" equals adding the line's stored product and raises only that line by 1 |
| Checkout.PaymentSummary | app/cart/page.tsx:303-310 | subtotal and total are equal, both the cart total: no tax or shipping |

## Left out

- Browser storage mechanics are not modelled. `localStorage` is an abstract map and writes always succeed. The `typeof window` server-rendering guard is left out.
- A failing `localStorage.setItem` (for example a full quota) is not modelled: writes always succeed. The source does not catch that error.
- The `console.error` report on a cart that fails to parse is a logging side effect and is left out; only its outcome, the unchanged cart, is modelled.
- JSON handling is abstract. `JSON.parse` is modelled as returning a cart or failing. A stored value that parses to something other than a cart array (for example `"null"`, `"{}"` or `"5"`) is outside the model: the source adopts it as the cart (context/ShopContext.tsx:22), and the `cart.reduce` of the next render (line 91) then throws, so the provider crashes instead of falling back to an empty cart.
- Loaded carts are not validated: the source adopts whatever parses, with no check for unique ids or positive quantities. The well-formedness lemmas therefore assume a well-formed starting cart.
- React effect scheduling is simplified. Each save effect is applied right after the state change that triggers it.
- DOM writes are left out: `document.documentElement.dir` and `.lang` are side effects. Only the pure direction function is modelled.
- `Math.random` is not modelled; its base-36 output is an input of `OrderNumber`.
- Prices and quantities are JavaScript doubles in the source. They are unbounded integers here, so rounding and overflow are not modelled.
- Checkout.ToUpper: only the ASCII letters a-z are upper-cased. JavaScript's `toUpperCase` also maps other letters and can lengthen the string (`'ß'` becomes `"SS"`); `Math.random().toString(36)` never yields such characters, so the order number is unaffected.
- Checkout.SubmitInfoIff: for the `type="email"` field the browser also checks the e-mail syntax (and strips surrounding spaces). The model checks only that each field is non-empty, so its form guard accepts more than a browser does.
- Checkout.Dispatch: leaving the page and coming back is not an event. It re-mounts the page at `InitialPage`, which `FreshVisitConsistent` covers.
- The chat routes, token issuance and verification, async chat hooks and widgets, and the test pages are thin wrappers over network calls and a third-party library.
- Canvas animations are floating-point timer code.
- The presentational pages, the navigation bar, the product card and the key-check scripts only render or forward to the modelled operations.
- The catalog's names, descriptions and images are carried as data only; nothing is proved about them.
